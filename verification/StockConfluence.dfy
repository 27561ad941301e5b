/**
 Stock under interleaved deliveries: the conditional UPDATE and the separate clamp of
 different orders may alternate in any way, and the outcome depends only on which
 orders were paid.
 */
module StockConfluence {
  import opened Options
  import opened PaymentTables
  import opened WebhookRuns

  /** Quantity of t among some rows. */
  function InRows(rows: seq<Row>, t: Target): nat {
    if rows == [] then 0
    else InRows(rows[..|rows| - 1], t) + (var r := rows[|rows| - 1]; if r.target == t then r.quantity else 0)
  }

  /** Quantity of t a delivery has asked the conditional UPDATE for so far. */
  function Asked(d: Delivery, t: Target): nat
    requires d.tried <= |d.rows|
  {
    InRows(d.rows[..d.tried], t)
  }

  ghost predicate TriesInRange(ds: seq<Delivery>) {
    forall p :: 0 <= p < |ds| ==> ds[p].tried <= |ds[p].rows|
  }

  function TotalAsked(ds: seq<Delivery>, t: Target): nat
    requires TriesInRange(ds)
  {
    if ds == [] then 0 else TotalAsked(ds[..|ds| - 1], t) + Asked(ds[|ds| - 1], t)
  }

  lemma {:induction false} TotalAskedUpdate(ds: seq<Delivery>, p: nat, d: Delivery, t: Target)
    requires TriesInRange(ds) && p < |ds| && d.tried <= |d.rows|
    ensures TriesInRange(ds[p := d])
    ensures TotalAsked(ds[p := d], t) == TotalAsked(ds, t) - Asked(ds[p], t) + Asked(d, t)
  {
    var last := |ds| - 1;
    if p == last {
      assert ds[p := d][..last] == ds[..last];
    } else {
      assert ds[p := d][..last] == ds[..last][p := d];
      TotalAskedUpdate(ds[..last], p, d, t);
    }
  }

  /** A delivery stopped, or about to go on, between a failed UPDATE of t and its clamp. */
  predicate OwesClamp(d: Delivery, t: Target) {
    d.phase.Clamping? && 0 < d.tried <= |d.rows| && d.rows[d.tried - 1].target == t
  }

  predicate Raised(d: Delivery) {
    d.phase.Aborted? || d.phase == Finished(false)
  }

  ghost predicate NobodyRaised(s: State) {
    NoneRaised(s.deliveries)
  }

  ghost predicate NoneRaised(ds: seq<Delivery>) {
    forall p :: 0 <= p < |ds| ==> !Raised(ds[p])
  }

  ghost predicate ClampOwed(s: State, t: Target) {
    SomeOwes(s.deliveries, t)
  }

  ghost predicate SomeOwes(ds: seq<Delivery>, t: Target) {
    exists p :: 0 <= p < |ds| && OwesClamp(ds[p], t)
  }

  lemma DebtsUpdate(ds: seq<Delivery>, p: nat, d: Delivery, t: Target)
    requires p < |ds|
    ensures NoneRaised(ds[p := d]) ==> !Raised(d)
    ensures NoneRaised(ds[p := d]) && !Raised(ds[p]) ==> NoneRaised(ds)
    ensures SomeOwes(ds[p := d], t) ==> SomeOwes(ds, t) || OwesClamp(d, t)
    ensures SomeOwes(ds, t) ==> SomeOwes(ds[p := d], t) || OwesClamp(ds[p], t)
    ensures OwesClamp(d, t) ==> SomeOwes(ds[p := d], t)
    ensures OwesClamp(ds[p], t) ==> SomeOwes(ds, t)
  {
    var ds' := ds[p := d];
    assert ds'[p] == d && forall q :: 0 <= q < |ds| && q != p ==> ds'[q] == ds[q];
  }

  lemma DebtsAppend(ds: seq<Delivery>, d: Delivery, t: Target)
    requires d.phase.Fetching?
    ensures NoneRaised(ds + [d]) <==> NoneRaised(ds)
    ensures SomeOwes(ds + [d], t) <==> SomeOwes(ds, t)
  {
    var ds' := ds + [d];
    assert ds'[|ds|] == d && forall q :: 0 <= q < |ds| ==> ds'[q] == ds[q];
  }

  /**
   Relative to the stock `have` at the start: while no more was asked for than there
   was, nothing failed and the row is the exact difference; once more was asked for,
   the row is zero or a clamp is owed, unless some stock block raised.
   */
  ghost predicate RowOk(s: State, t: Target, have: nat)
    requires TriesInRange(s.deliveries)
  {
    && Tracked(s.stock, t)
    && s.stock[t].value <= have
    && var asked := TotalAsked(s.deliveries, t);
    && (asked <= have ==> s.stock[t].value == have - asked && !ClampOwed(s, t))
    && (asked > have && NobodyRaised(s) ==> s.stock[t].value == 0 || ClampOwed(s, t))
  }

  lemma AskedMoved(s: State, e: Event, t: Target)
    requires Gated(s) && OfDelivery(e) && Enabled(s, e)
    ensures Moved(s, e).tried <= |Moved(s, e).rows|
    ensures var d := s.deliveries[e.p];
      Asked(Moved(s, e), t) == Asked(d, t) +
        if e.Take? && d.rows[d.tried].target == t then d.rows[d.tried].quantity else 0
  {
    var d := s.deliveries[e.p];
    assert DeliveryOk(s, d);
    if e.Take? {
      assert d.rows[..d.tried + 1][..d.tried] == d.rows[..d.tried];
    } else if e.Collect? {
      assert d.rows[..0] == e.rows[..0];
    }
  }

  lemma GatedTries(s: State)
    requires Gated(s)
    ensures TriesInRange(s.deliveries)
  {
  }

  /** TotalAsked grows exactly by what a Take asks for. */
  lemma TotalAskedStep(s: State, e: Event, t: Target)
    requires Gated(s) && Enabled(s, e)
    requires TriesInRange(s.deliveries) && TriesInRange(Apply(s, e).deliveries)
    ensures TotalAsked(Apply(s, e).deliveries, t) == TotalAsked(s.deliveries, t) +
      if e.Take? && s.deliveries[e.p].rows[s.deliveries[e.p].tried].target == t
      then s.deliveries[e.p].rows[s.deliveries[e.p].tried].quantity else 0
  {
    if OfDelivery(e) {
      AskedMoved(s, e, t);
      TotalAskedUpdate(s.deliveries, e.p, Moved(s, e), t);
    } else if e.Deliver? {
      assert Apply(s, e).deliveries[..|s.deliveries|] == s.deliveries;
    }
  }

  lemma MovedDebts(s: State, e: Event, t: Target)
    requires OfDelivery(e) && Enabled(s, e)
    ensures var d, d' := s.deliveries[e.p], Moved(s, e);
      && (Raised(d) ==> Raised(d'))
      && (OwesClamp(d, t) ==> OwesClamp(d', t) || Raised(d') || e.Clamp?)
      && (!e.Take? && OwesClamp(d', t) ==> OwesClamp(d, t))
  {
  }

  /** A raised stock block stays raised; an owed clamp stays owed except by its own Clamp; only a Take owes a new one. */
  lemma DebtsStay(s: State, e: Event, t: Target)
    requires Gated(s) && Enabled(s, e)
    ensures NobodyRaised(Apply(s, e)) ==> NobodyRaised(s)
    ensures NobodyRaised(Apply(s, e)) && ClampOwed(s, t) ==>
      ClampOwed(Apply(s, e), t) || (e.Clamp? && OwesClamp(s.deliveries[e.p], t))
    ensures ClampOwed(Apply(s, e), t) && !e.Take? ==> ClampOwed(s, t)
  {
    if OfDelivery(e) {
      MovedDebts(s, e, t);
      DebtsUpdate(s.deliveries, e.p, Moved(s, e), t);
    } else if e.Deliver? {
      DebtsAppend(s.deliveries, Delivery(e.order, e.intent, Fetching, [], 0, true), t);
    }
  }

  /** A Take owes a clamp exactly when its UPDATE matched nothing. */
  lemma TakeDebts(s: State, p: nat, t: Target)
    requires Gated(s) && Enabled(s, Take(p))
    ensures var row := s.deliveries[p].rows[s.deliveries[p].tried];
      ClampOwed(Apply(s, Take(p)), t) <==>
        ClampOwed(s, t) || (row.target == t && !Enough(s.stock, t, row.quantity))
  {
    DebtsUpdate(s.deliveries, p, Moved(s, Take(p)), t);
  }

  lemma RowTake(s: State, p: nat, t: Target, have: nat)
    requires Gated(s) && Enabled(s, Take(p)) && TriesInRange(s.deliveries) && RowOk(s, t, have)
    requires TriesInRange(Apply(s, Take(p)).deliveries)
    ensures RowOk(Apply(s, Take(p)), t, have)
  {
    TotalAskedStep(s, Take(p), t);
    DebtsStay(s, Take(p), t);
    TakeDebts(s, p, t);
    ApplyHasTables(s, Take(p));
  }

  lemma ClampStock(s: State, p: nat, t: Target)
    requires Enabled(s, Clamp(p)) && Tracked(s.stock, t)
    ensures var stock := Apply(s, Clamp(p)).stock;
      Tracked(stock, t) && stock[t].value == if OwesClamp(s.deliveries[p], t) then 0 else s.stock[t].value
  {
  }

  lemma RowClamp(s: State, p: nat, t: Target, have: nat)
    requires Gated(s) && Enabled(s, Clamp(p)) && TriesInRange(s.deliveries) && RowOk(s, t, have)
    requires TriesInRange(Apply(s, Clamp(p)).deliveries)
    ensures RowOk(Apply(s, Clamp(p)), t, have)
  {
    TotalAskedStep(s, Clamp(p), t);
    DebtsStay(s, Clamp(p), t);
    ClampStock(s, p, t);
    if OwesClamp(s.deliveries[p], t) {
      assert ClampOwed(s, t);
    }
  }

  lemma RowStep(s: State, e: Event, t: Target, have: nat)
    requires Gated(s) && TriesInRange(s.deliveries) && RowOk(s, t, have)
    requires TriesInRange(Next(s, e).deliveries)
    ensures RowOk(Next(s, e), t, have)
  {
    if Enabled(s, e) {
      if e.Take? {
        RowTake(s, e.p, t, have);
      } else if e.Clamp? {
        RowClamp(s, e.p, t, have);
      } else {
        RowElsewhere(s, e, t, have);
      }
    }
  }

  lemma RowElsewhere(s: State, e: Event, t: Target, have: nat)
    requires Gated(s) && Enabled(s, e) && !e.Take? && !e.Clamp?
    requires TriesInRange(s.deliveries) && RowOk(s, t, have)
    requires TriesInRange(Apply(s, e).deliveries)
    ensures RowOk(Apply(s, e), t, have)
  {
    TotalAskedStep(s, e, t);
    DebtsStay(s, e, t);
    StockStays(s, e);
  }

  lemma StockStays(s: State, e: Event)
    requires Enabled(s, e) && !e.Take? && !e.Clamp?
    ensures Apply(s, e).stock == s.stock
  {
  }

  // ------------------------------------------------------------ whole runs

  lemma {:induction false} RunRow(s: State, es: seq<Event>, t: Target)
    requires Initial(s) && Tracked(s.stock, t)
    ensures var r := Run(s, es); Gated(r) && TriesInRange(r.deliveries) && RowOk(r, t, s.stock[t].value)
  {
    if es != [] {
      var before := Run(s, es[..|es| - 1]);
      RunRow(s, es[..|es| - 1], t);
      GateStep(before, es[|es| - 1]);
      GatedTries(Run(s, es));
      RowStep(before, es[|es| - 1], t, s.stock[t].value);
    }
  }

  /**
   At every moment of every interleaving, with crashes and database errors anywhere:
   a tracked row stays tracked, never grows, is exactly the difference while demand is
   covered, and is never below what the demand so far leaves.
   */
  lemma StockAlwaysBounded(s: State, es: seq<Event>, t: Target)
    requires Initial(s) && Tracked(s.stock, t)
    ensures var r := Run(s, es);
      && Tracked(r.stock, t) && TriesInRange(r.deliveries)
      && var asked := TotalAsked(r.deliveries, t);
      && Remaining(s.stock[t].value, asked) <= r.stock[t].value <= s.stock[t].value
      && (asked <= s.stock[t].value ==> r.stock[t].value + asked == s.stock[t].value)
  {
    RunRow(s, es, t);
  }

  /** Every delivery that owns an order has run to the end without a raised stock block. */
  ghost predicate Settled(s: State) {
    forall p :: 0 <= p < |s.deliveries| && Won(s.deliveries[p]) ==> s.deliveries[p].phase == Finished(true)
  }

  /** The orders this run paid. */
  ghost function NewlyPaid(s: State, r: State): set<OrderId> {
    set o | o in r.orders && r.orders[o].paid && Unpaid(s.orders, o)
  }

  /** Total quantity of t over a set of orders. */
  ghost function Demand(s: State, orders: set<OrderId>, t: Target): nat {
    if exists o :: o in orders then
      var o :| o in orders;
      Ordered(LinesOf(s, o), t) + Demand(s, orders - {o}, t)
    else 0
  }

  lemma {:induction false} DemandTakesAny(s: State, orders: set<OrderId>, o: OrderId, t: Target)
    requires o in orders
    ensures Demand(s, orders, t) == Ordered(LinesOf(s, o), t) + Demand(s, orders - {o}, t)
    decreases orders
  {
    var first :| first in orders && Demand(s, orders, t) == Ordered(LinesOf(s, first), t) + Demand(s, orders - {first}, t);
    if first != o {
      DemandTakesAny(s, orders - {first}, o, t);
      DemandTakesAny(s, orders - {o}, first, t);
      assert orders - {first} - {o} == orders - {o} - {first};
    }
  }

  ghost function WonOrders(ds: seq<Delivery>): set<OrderId> {
    set p | 0 <= p < |ds| && Won(ds[p]) :: ds[p].order
  }

  lemma {:induction false} InRowsOfAbsent(rows: seq<Row>, t: Target)
    requires forall r :: r in rows ==> r.target != t
    ensures InRows(rows, t) == 0
  {
    if rows != [] {
      assert rows[|rows| - 1] in rows;
      InRowsOfAbsent(rows[..|rows| - 1], t);
    }
  }

  lemma {:induction false} InRowsOfUnique(rows: seq<Row>, i: nat, t: Target)
    requires forall i, j :: 0 <= i < j < |rows| ==> rows[i].target != rows[j].target
    requires i < |rows| && rows[i].target == t
    ensures InRows(rows, t) == rows[i].quantity
  {
    var last := |rows| - 1;
    if i == last {
      InRowsOfAbsent(rows[..last], t);
    } else {
      InRowsOfUnique(rows[..last], i, t);
    }
  }

  /** The targets dictionary asks for a tracked target exactly what the lines ordered. */
  lemma AggregatesAskForAll(rows: seq<Row>, lines: seq<Line>, stock: Stock, t: Target)
    requires Aggregates(rows, lines, stock) && Tracked(stock, t)
    ensures InRows(rows, t) == Ordered(lines, t)
  {
    if Mentions(lines, t) {
      var r :| r in rows && r.target == t;
      var i :| 0 <= i < |rows| && rows[i] == r;
      InRowsOfUnique(rows, i, t);
    } else {
      InRowsOfAbsent(rows, t);
      OrderedUnmentioned(lines, t);
    }
  }

  lemma AskedWhenSettled(s: State, d: Delivery, t: Target)
    requires DeliveryOk(s, d) && Tracked(s.stock, t) && (Won(d) ==> d.phase == Finished(true))
    ensures Asked(d, t) == if Won(d) then Ordered(LinesOf(s, d.order), t) else 0
  {
    if Won(d) {
      assert d.rows[..d.tried] == d.rows;
      AggregatesAskForAll(d.rows, LinesOf(s, d.order), s.stock, t);
    }
  }

  ghost predicate AllThrough(s: State, ds: seq<Delivery>) {
    forall p :: 0 <= p < |ds| ==> DeliveryOk(s, ds[p]) && (Won(ds[p]) ==> ds[p].phase == Finished(true))
  }

  ghost predicate OneWinner(ds: seq<Delivery>) {
    forall p, q :: 0 <= p < q < |ds| && Won(ds[p]) && Won(ds[q]) ==> ds[p].order != ds[q].order
  }

  lemma LastThrough(s: State, ds: seq<Delivery>)
    requires ds != [] && AllThrough(s, ds) && OneWinner(ds)
    ensures var n := |ds| - 1;
      && AllThrough(s, ds[..n]) && OneWinner(ds[..n])
      && DeliveryOk(s, ds[n]) && (Won(ds[n]) ==> ds[n].phase == Finished(true))
      && forall p :: 0 <= p < n && Won(ds[..n][p]) && Won(ds[n]) ==> ds[..n][p].order != ds[n].order
  {
  }

  /** One order, one winner: summing over deliveries is summing over the orders they won. */
  lemma {:induction false} TotalAskedIsDemand(s: State, ds: seq<Delivery>, t: Target)
    requires Tracked(s.stock, t) && TriesInRange(ds) && AllThrough(s, ds) && OneWinner(ds)
    ensures TotalAsked(ds, t) == Demand(s, WonOrders(ds), t)
  {
    if ds != [] {
      var rest, d := ds[..|ds| - 1], ds[|ds| - 1];
      LastThrough(s, ds);
      TotalAskedIsDemand(s, rest, t);
      AskedWhenSettled(s, d, t);
      DemandAppend(s, rest, d, t);
      assert ds == rest + [d];
    }
  }

  lemma DemandAppend(s: State, ds: seq<Delivery>, d: Delivery, t: Target)
    requires forall p :: 0 <= p < |ds| && Won(ds[p]) && Won(d) ==> ds[p].order != d.order
    ensures Demand(s, WonOrders(ds + [d]), t) ==
      Demand(s, WonOrders(ds), t) + if Won(d) then Ordered(LinesOf(s, d.order), t) else 0
  {
    if Won(d) {
      WonOrdersAppendWon(ds, d);
      assert WonOrders(ds + [d]) - {d.order} == WonOrders(ds);
      DemandTakesAny(s, WonOrders(ds + [d]), d.order, t);
    } else {
      WonOrdersAppend(ds, d);
    }
  }

  lemma WonOrdersAppend(ds: seq<Delivery>, d: Delivery)
    requires !Won(d)
    ensures WonOrders(ds + [d]) == WonOrders(ds)
  {
    forall o | o in WonOrders(ds) ensures o in WonOrders(ds + [d]) {
      var q :| 0 <= q < |ds| && Won(ds[q]) && ds[q].order == o;
      assert Won((ds + [d])[q]);
    }
  }

  lemma WonOrdersAppendWon(ds: seq<Delivery>, d: Delivery)
    requires Won(d)
    requires forall p :: 0 <= p < |ds| && Won(ds[p]) ==> ds[p].order != d.order
    ensures WonOrders(ds + [d]) == WonOrders(ds) + {d.order} && d.order !in WonOrders(ds)
  {
    assert Won((ds + [d])[|ds|]);
    forall o | o in WonOrders(ds) ensures o in WonOrders(ds + [d]) {
      var q :| 0 <= q < |ds| && Won(ds[q]) && ds[q].order == o;
      assert Won((ds + [d])[q]);
    }
  }

  lemma PaidStep(s: State, e: Event, o: OrderId)
    requires Enabled(s, e)
    ensures var s' := Apply(s, e);
      (o in s'.orders && s'.orders[o].paid) <==>
        (o in s.orders && s.orders[o].paid) || (e.Gate? && Unpaid(s.orders, o) && s.deliveries[e.p].order == o)
  {
    ApplyHasTables(s, e);
  }

  lemma MovedWon(s: State, e: Event)
    requires OfDelivery(e) && Enabled(s, e)
    ensures Won(Moved(s, e)) <==>
      Won(s.deliveries[e.p]) || (e.Gate? && Unpaid(s.orders, s.deliveries[e.p].order))
    ensures Moved(s, e).order == s.deliveries[e.p].order
  {
  }

  lemma WonOrdersUpdate(ds: seq<Delivery>, p: nat, d: Delivery)
    requires p < |ds| && d.order == ds[p].order && (Won(ds[p]) ==> Won(d))
    ensures WonOrders(ds[p := d]) == WonOrders(ds) + if Won(d) then {d.order} else {}
  {
    var ds' := ds[p := d];
    forall o ensures o in WonOrders(ds') <==> o in WonOrders(ds) + if Won(d) then {d.order} else {} {
      if o in WonOrders(ds) {
        var q :| 0 <= q < |ds| && Won(ds[q]) && ds[q].order == o;
        assert Won(ds'[q]);
      }
      if o in WonOrders(ds') {
        var q :| 0 <= q < |ds'| && Won(ds'[q]) && ds'[q].order == o;
        assert q != p ==> Won(ds[q]);
      }
      assert Won(d) ==> Won(ds'[p]);
    }
  }

  lemma WonStep(s: State, e: Event, o: OrderId)
    requires Enabled(s, e)
    ensures o in WonOrders(Apply(s, e).deliveries) <==>
      o in WonOrders(s.deliveries) || (e.Gate? && Unpaid(s.orders, o) && s.deliveries[e.p].order == o)
  {
    var ds := s.deliveries;
    if OfDelivery(e) {
      MovedWon(s, e);
      WonOrdersUpdate(ds, e.p, Moved(s, e));
      assert Won(ds[e.p]) ==> ds[e.p].order in WonOrders(ds);
    } else if e.Deliver? {
      WonOrdersAppend(ds, Delivery(e.order, e.intent, Fetching, [], 0, true));
    }
  }

  lemma {:induction false} WonIsNewlyPaid(s: State, es: seq<Event>)
    requires Initial(s)
    ensures WonOrders(Run(s, es).deliveries) == NewlyPaid(s, Run(s, es))
    ensures Run(s, es).lines == s.lines && SameTracking(s.stock, Run(s, es).stock)
  {
    if es != [] {
      var before, e := Run(s, es[..|es| - 1]), es[|es| - 1];
      WonIsNewlyPaid(s, es[..|es| - 1]);
      Reachable(s, es[..|es| - 1]);
      StepKeepsTables(before, e);
      OrdersStay(s, es);
      OrdersStay(s, es[..|es| - 1]);
      forall o ensures o in WonOrders(Run(s, es).deliveries) <==> o in NewlyPaid(s, Run(s, es)) {
        if Enabled(before, e) {
          PaidStep(before, e, o);
          WonStep(before, e, o);
        }
        if o in s.orders && s.orders[o].paid {
          PaidStays(s, es[..|es| - 1], o);
        }
      }
    }
  }

  lemma {:induction false} OrdersStay(s: State, es: seq<Event>)
    ensures Run(s, es).orders.Keys == s.orders.Keys
  {
    if es != [] {
      OrdersStay(s, es[..|es| - 1]);
      StepKeepsTables(Run(s, es[..|es| - 1]), es[|es| - 1]);
    }
  }

  lemma {:induction false} UntrackedStays(s: State, es: seq<Event>, t: Target)
    requires t in s.stock && s.stock[t].None?
    ensures var r := Run(s, es); t in r.stock && r.stock[t].None?
  {
    if es != [] {
      UntrackedStays(s, es[..|es| - 1], t);
      StepKeepsTables(Run(s, es[..|es| - 1]), es[|es| - 1]);
    }
  }

  lemma TrackedExact(s: State, es: seq<Event>, t: Target)
    requires Initial(s) && Tracked(s.stock, t) && Settled(Run(s, es))
    ensures var r := Run(s, es);
      Tracked(r.stock, t) && TriesInRange(r.deliveries)
      && r.stock[t].value == Remaining(s.stock[t].value, TotalAsked(r.deliveries, t))
  {
    RunRow(s, es, t);
    var r := Run(s, es);
    assert NobodyRaised(r) && !ClampOwed(r, t);
  }

  /**
   When every winner is through, each tracked row is max(0, stock at the start minus the
   total ordered by the orders this run paid); untracked rows are untouched.
   */
  lemma StockExact(s: State, es: seq<Event>, t: Target)
    requires Initial(s) && t in s.stock && Settled(Run(s, es))
    ensures var r := Run(s, es);
      t in r.stock && r.stock[t] == match s.stock[t]
        case None => None
        case Some(have) => Some(Remaining(have, Demand(s, NewlyPaid(s, r), t)))
  {
    var r := Run(s, es);
    if s.stock[t].None? {
      UntrackedStays(s, es, t);
    } else {
      TrackedExact(s, es, t);
      AskedIsDemand(s, es, t);
    }
  }

  lemma AskedIsDemand(s: State, es: seq<Event>, t: Target)
    requires Initial(s) && Tracked(s.stock, t) && Settled(Run(s, es))
    ensures var r := Run(s, es);
      TriesInRange(r.deliveries) && TotalAsked(r.deliveries, t) == Demand(s, NewlyPaid(s, r), t)
  {
    var r := Run(s, es);
    Reachable(s, es);
    GatedTries(r);
    WonIsNewlyPaid(s, es);
    TotalAskedIsDemand(r, r.deliveries, t);
    DemandSameLines(s, r, NewlyPaid(s, r), t);
  }

  lemma {:induction false} DemandSameLines(s: State, r: State, orders: set<OrderId>, t: Target)
    requires s.lines == r.lines
    ensures Demand(s, orders, t) == Demand(r, orders, t)
    decreases orders
  {
    if o :| o in orders {
      DemandTakesAny(s, orders, o, t);
      DemandTakesAny(r, orders, o, t);
      DemandSameLines(s, r, orders - {o}, t);
    }
  }

  /** Confluence: two runs from one database that settle having paid the same orders leave the same stock. */
  lemma StockConfluent(s: State, es: seq<Event>, fs: seq<Event>)
    requires Initial(s) && Settled(Run(s, es)) && Settled(Run(s, fs))
    requires NewlyPaid(s, Run(s, es)) == NewlyPaid(s, Run(s, fs))
    ensures Run(s, es).stock == Run(s, fs).stock
  {
    WonIsNewlyPaid(s, es);
    WonIsNewlyPaid(s, fs);
    forall t | t in s.stock ensures Run(s, es).stock[t] == Run(s, fs).stock[t] {
      StockExact(s, es, t);
      StockExact(s, fs, t);
    }
  }
}
