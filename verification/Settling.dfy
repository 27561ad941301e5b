/**
 Settled runs can be reached: exactly when no winner has crashed and no stock block has
 raised, the deliveries that are under way can all be driven to their end.
 */
module Settling {
  import opened Options
  import opened PaymentTables
  import opened WebhookRuns
  import opened StockConfluence

  /** A winner that is through, or can still get there. */
  predicate Hopeful(d: Delivery) {
    Won(d) ==> d.phase == Finished(true) || (d.alive && !Raised(d))
  }

  ghost predicate AllHopeful(s: State) {
    forall p :: 0 <= p < |s.deliveries| ==> Hopeful(s.deliveries[p])
  }

  // ------------------------------------------------------------ driving a delivery

  lemma MentionsGrow(lines: seq<Line>, l: Line, t: Target)
    ensures Mentions(lines + [l], t) <==> Mentions(lines, t) || t == l.Target()
  {
    assert l in lines + [l];
    if x :| x in lines && x.Target() == t {
      assert x in lines + [l];
    }
  }

  lemma TargetsExist(lines: seq<Line>, stock: Stock) returns (targets: seq<Target>)
    ensures forall i, j :: 0 <= i < j < |targets| ==> targets[i] != targets[j]
    ensures forall t :: t in targets <==> Mentions(lines, t) && Tracked(stock, t)
  {
    targets := [];
    for n := 0 to |lines|
      invariant forall i, j :: 0 <= i < j < |targets| ==> targets[i] != targets[j]
      invariant forall t :: t in targets <==> Mentions(lines[..n], t) && Tracked(stock, t)
    {
      assert lines[..n + 1] == lines[..n] + [lines[n]];
      var t := lines[n].Target();
      forall x ensures Mentions(lines[..n + 1], x) <==> Mentions(lines[..n], x) || x == t {
        MentionsGrow(lines[..n], lines[n], x);
      }
      if Tracked(stock, t) && t !in targets {
        targets := targets + [t];
      }
    }
    assert lines[..|lines|] == lines;
  }

  /** The targets dictionary can always be built. */
  lemma RowsExist(lines: seq<Line>, stock: Stock) returns (rows: seq<Row>)
    ensures Aggregates(rows, lines, stock)
  {
    var targets := TargetsExist(lines, stock);
    rows := seq(|targets|, i requires 0 <= i < |targets| => Row(targets[i], Ordered(lines, targets[i])));
    forall r | r in rows ensures Mentions(lines, r.target) && Tracked(stock, r.target) && r.quantity == Ordered(lines, r.target) {
      var i :| 0 <= i < |rows| && rows[i] == r;
      assert targets[i] in targets;
    }
    forall t | Mentions(lines, t) && Tracked(stock, t) ensures exists r :: r in rows && r.target == t {
      var i :| 0 <= i < |targets| && targets[i] == t;
      assert rows[i] in rows && rows[i].target == t;
    }
  }

  function StageOf(d: Delivery): nat {
    match d.phase
    case Metering => 3
    case Scoring => 2
    case Collecting => 1
    case _ => 0
  }

  function Left(d: Delivery): int {
    2 * (|d.rows| - d.tried) + (if d.phase.Clamping? then 1 else 0)
  }

  /** The next step of a winner that is under way. */
  lemma NextMove(s: State, p: nat) returns (e: Event)
    requires Gated(s) && p < |s.deliveries| && s.deliveries[p].alive
    requires Won(s.deliveries[p]) && !Raised(s.deliveries[p]) && s.deliveries[p].phase != Finished(true)
    ensures OfDelivery(e) && e.p == p && Enabled(s, e)
    ensures var d, d' := s.deliveries[p], Moved(s, e);
      && Won(d') && !Raised(d') && d'.alive && d'.order == d.order
      && (d'.phase == Finished(true) || StageOf(d') < StageOf(d) || (StageOf(d') == StageOf(d) && 0 <= Left(d') < Left(d)))
  {
    var d := s.deliveries[p];
    assert DeliveryOk(s, d);
    match d.phase
    case Metering => e := Meter(p);
    case Scoring => e := ScoreRaises(p);
    case Collecting =>
      var rows := RowsExist(LinesOf(s, d.order), s.stock);
      e := Collect(p, rows);
    case Clamping => e := Clamp(p);
    case _ => e := if d.tried < |d.rows| then Take(p) else Dispatch(p);
  }

  /** Delivery p is through in r; every other delivery is as it was in s. */
  ghost predicate Drove(s: State, r: State, p: nat)
    requires p < |s.deliveries|
  {
    && Gated(r) && |r.deliveries| == |s.deliveries|
    && r.deliveries[p].phase == Finished(true) && r.deliveries[p].order == s.deliveries[p].order
    && forall q :: 0 <= q < |s.deliveries| && q != p ==> r.deliveries[q] == s.deliveries[q]
  }

  lemma OneMove(s: State, e: Event)
    requires Gated(s) && OfDelivery(e) && Enabled(s, e)
    ensures Gated(Next(s, e)) && Next(s, e).deliveries == s.deliveries[e.p := Moved(s, e)]
  {
    GateStep(s, e);
  }

  lemma RunFirst(s: State, e: Event, more: seq<Event>)
    ensures Run(s, [e] + more) == Run(Next(s, e), more)
  {
    assert [e][..0] == [];
    assert Run(s, [e]) == Next(s, e);
    RunConcat(s, [e], more);
  }

  lemma {:induction false} Drive(s: State, p: nat) returns (more: seq<Event>)
    requires Gated(s) && p < |s.deliveries| && Won(s.deliveries[p])
    requires s.deliveries[p].phase == Finished(true) || (s.deliveries[p].alive && !Raised(s.deliveries[p]))
    ensures Drove(s, Run(s, more), p)
    decreases s.deliveries[p].phase != Finished(true), StageOf(s.deliveries[p]), Left(s.deliveries[p])
  {
    more := [];
    if s.deliveries[p].phase != Finished(true) {
      var e := NextMove(s, p);
      OneMove(s, e);
      var rest := Drive(Next(s, e), p);
      more := [e] + rest;
      RunFirst(s, e, rest);
    }
  }

  // ------------------------------------------------------- driving all of them

  /** The first n deliveries are through if they won; whether and what each delivery won is as in s. */
  ghost predicate ThroughUpTo(s: State, r: State, n: nat) {
    && Gated(r) && |r.deliveries| == |s.deliveries| && n <= |s.deliveries|
    && (forall p :: 0 <= p < n && Won(r.deliveries[p]) ==> r.deliveries[p].phase == Finished(true))
    && (forall p :: n <= p < |s.deliveries| ==> r.deliveries[p] == s.deliveries[p])
    && (forall p :: 0 <= p < |s.deliveries| ==>
          r.deliveries[p].order == s.deliveries[p].order && Won(r.deliveries[p]) == Won(s.deliveries[p]))
  }

  lemma DroveOneMore(s: State, r: State, t: State, n: nat)
    requires ThroughUpTo(s, r, n) && n < |s.deliveries| && Won(r.deliveries[n]) && Drove(r, t, n)
    ensures ThroughUpTo(s, t, n + 1)
  {
  }

  lemma {:induction false} DriveAll(s: State, n: nat) returns (more: seq<Event>)
    requires Gated(s) && AllHopeful(s) && n <= |s.deliveries|
    ensures ThroughUpTo(s, Run(s, more), n)
  {
    more := [];
    if n > 0 {
      more := DriveAll(s, n - 1);
      var r := Run(s, more);
      if Won(r.deliveries[n - 1]) {
        assert Hopeful(s.deliveries[n - 1]);
        var last := Drive(r, n - 1);
        DroveOneMore(s, r, Run(r, last), n - 1);
        RunConcat(s, more, last);
        more := more + last;
      }
    }
  }

  // ------------------------------------------------------------- and nothing else

  lemma HopelessStep(s: State, e: Event, p: nat)
    requires p < |s.deliveries| && !Hopeful(s.deliveries[p])
    ensures p < |Next(s, e).deliveries| && !Hopeful(Next(s, e).deliveries[p])
  {
  }

  lemma {:induction false} HopelessStays(s: State, more: seq<Event>, p: nat)
    requires p < |s.deliveries| && !Hopeful(s.deliveries[p])
    ensures p < |Run(s, more).deliveries| && !Hopeful(Run(s, more).deliveries[p])
  {
    if more != [] {
      HopelessStays(s, more[..|more| - 1], p);
      HopelessStep(Run(s, more[..|more| - 1]), more[|more| - 1], p);
    }
  }

  /** more settles the run es without another order being paid. */
  ghost predicate Settles(s: State, es: seq<Event>, more: seq<Event>) {
    Settled(Run(s, es + more)) && NewlyPaid(s, Run(s, es + more)) == NewlyPaid(s, Run(s, es))
  }

  lemma SameWinners(s: State, r: State)
    requires ThroughUpTo(s, r, |s.deliveries|)
    ensures WonOrders(r.deliveries) == WonOrders(s.deliveries) && Settled(r)
  {
    forall o | o in WonOrders(r.deliveries) ensures o in WonOrders(s.deliveries) {
      var p :| 0 <= p < |r.deliveries| && Won(r.deliveries[p]) && r.deliveries[p].order == o;
      assert Won(s.deliveries[p]);
    }
    forall o | o in WonOrders(s.deliveries) ensures o in WonOrders(r.deliveries) {
      var p :| 0 <= p < |s.deliveries| && Won(s.deliveries[p]) && s.deliveries[p].order == o;
      assert Won(r.deliveries[p]);
    }
  }

  lemma CanSettle(s: State, es: seq<Event>) returns (more: seq<Event>)
    requires Initial(s) && AllHopeful(Run(s, es))
    ensures Settles(s, es, more)
  {
    var r := Run(s, es);
    Reachable(s, es);
    more := DriveAll(r, |r.deliveries|);
    RunConcat(s, es, more);
    SameWinners(r, Run(r, more));
    WonIsNewlyPaid(s, es);
    WonIsNewlyPaid(s, es + more);
  }

  /**
   From any reachable state some continuation settles, and without paying another order,
   exactly when every winner is through, or alive with a stock block that has not raised.
   */
  lemma SettlesIff(s: State, es: seq<Event>)
    requires Initial(s)
    ensures (exists more :: Settled(Run(s, es + more))) <==> AllHopeful(Run(s, es))
    ensures (exists more :: Settles(s, es, more)) <==> AllHopeful(Run(s, es))
  {
    if AllHopeful(Run(s, es)) {
      var more := CanSettle(s, es);
      assert Settles(s, es, more);
    } else {
      forall more ensures !Settled(Run(s, es + more)) {
        var p :| 0 <= p < |Run(s, es).deliveries| && !Hopeful(Run(s, es).deliveries[p]);
        RunConcat(s, es, more);
        HopelessStays(Run(s, es), more, p);
      }
    }
  }
}
