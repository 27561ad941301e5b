/**
 What becomes of each delivery: which answer it gets over any interleaving, and the whole
 new state one delivery leaves when nothing else runs.
 */
module Outcomes {
  import opened Options
  import opened PaymentTables
  import opened WebhookRuns
  import opened StockConfluence
  import opened Settling
  import Shop

  // ------------------------------------------------------- answers over every run

  /** The delivery is past the guarded UPDATE, or was turned away before it. */
  predicate Answered(d: Delivery) {
    !d.phase.Fetching? && !d.phase.Gating?
  }

  /** Only an unknown order is refused, and only a paid one takes a delivery for a replay. */
  ghost predicate RightAnswer(s: State, d: Delivery) {
    && (d.phase.Refused? ==> d.order !in s.orders)
    && (!d.phase.Refused? && !d.phase.Fetching? ==> d.order in s.orders)
    && (Answered(d) && !d.phase.Refused? ==> s.orders[d.order].paid)
  }

  lemma RightAnswerStays(s: State, e: Event, d: Delivery)
    requires RightAnswer(s, d)
    ensures RightAnswer(Next(s, e), d)
  {
    StepKeepsTables(s, e);
  }

  lemma RightAnswerMoves(s: State, e: Event)
    requires OfDelivery(e) && Enabled(s, e) && RightAnswer(s, s.deliveries[e.p])
    ensures RightAnswer(Next(s, e), Moved(s, e))
  {
    RightAnswerStays(s, e, s.deliveries[e.p]);
    ApplyHasTables(s, e);
    StepKeepsTables(s, e);
  }

  ghost predicate AllRight(s: State) {
    forall p :: 0 <= p < |s.deliveries| ==> RightAnswer(s, s.deliveries[p])
  }

  /** A step changes the delivery it moves, or adds one that has yet to fetch its order. */
  lemma DeliveriesAfter(s: State, e: Event, p: nat)
    requires p < |Next(s, e).deliveries|
    ensures if p < |s.deliveries| then
              Next(s, e).deliveries[p] ==
                if Enabled(s, e) && OfDelivery(e) && e.p == p then Moved(s, e) else s.deliveries[p]
            else Next(s, e).deliveries[p].phase == Fetching
  {
  }

  lemma RightAnswerAt(s: State, e: Event, r: State, p: nat)
    requires AllRight(s) && r == Next(s, e) && p < |r.deliveries|
    ensures RightAnswer(r, r.deliveries[p])
  {
    DeliveriesAfter(s, e, p);
    if p < |s.deliveries| {
      if Enabled(s, e) && OfDelivery(e) && e.p == p {
        RightAnswerMoves(s, e);
      } else {
        RightAnswerStays(s, e, s.deliveries[p]);
      }
    }
  }

  lemma {:induction false} RightAnswers(s: State, es: seq<Event>)
    requires Initial(s)
    ensures AllRight(Run(s, es))
  {
    if es != [] {
      var before, e := Run(s, es[..|es| - 1]), es[|es| - 1];
      RightAnswers(s, es[..|es| - 1]);
      forall p | 0 <= p < |Next(before, e).deliveries| ensures RightAnswer(Next(before, e), Next(before, e).deliveries[p]) {
        RightAnswerAt(before, e, Next(before, e), p);
      }
    }
  }

  /** Delivery q won order o. */
  ghost predicate WonBy(r: State, o: OrderId, q: int) {
    0 <= q < |r.deliveries| && Won(r.deliveries[q]) && r.deliveries[q].order == o
  }

  /**
   Over every interleaving, once a delivery for an order is past the gate: if there is no
   such order it was refused; if the order was paid before the first delivery it is a replay;
   and if the order was unpaid, the order is paid now and exactly one delivery won it.
   */
  lemma EachAnswer(s: State, es: seq<Event>, p: nat)
    requires Initial(s)
    requires p < |Run(s, es).deliveries| && Answered(Run(s, es).deliveries[p])
    ensures var r := Run(s, es); var o := r.deliveries[p].order;
      && (r.deliveries[p].phase.Refused? <==> o !in s.orders)
      && (o in s.orders && s.orders[o].paid ==> r.deliveries[p].phase.Replayed?)
      && (o in s.orders && !s.orders[o].paid ==>
            && o in r.orders && r.orders[o].paid
            && (exists q :: WonBy(r, o, q)) && (forall q, q' :: WonBy(r, o, q) && WonBy(r, o, q') ==> q == q'))
  {
    var r := Run(s, es);
    var o := r.deliveries[p].order;
    RightAnswers(s, es);
    OrdersStay(s, es);
    Reachable(s, es);
    WonIsNewlyPaid(s, es);
    assert RightAnswer(r, r.deliveries[p]);
    if o in s.orders {
      if s.orders[o].paid {
        assert o !in NewlyPaid(s, r);
        assert Won(r.deliveries[p]) ==> o in WonOrders(r.deliveries);
      } else {
        assert o in WonOrders(r.deliveries);
        var q :| 0 <= q < |r.deliveries| && Won(r.deliveries[q]) && r.deliveries[q].order == o;
        assert WonBy(r, o, q);
      }
    }
  }

  // ------------------------------------------------------------- single statements

  /** The fraud UPDATE writes score, flag and notes of the delivery's own order and nothing else. */
  lemma ScoreWrites(s: State, p: nat, score: int, threshold: int, notes: string)
    requires Gated(s) && At(s, p, Scoring)
    ensures var o := s.deliveries[p].order;
      var r := Next(s, WebhookRuns.Score(p, score, threshold, notes));
      && o in s.orders && r.orders.Keys == s.orders.Keys && r.stock == s.stock
      && r.orders[o] == OrderRow(s.orders[o].paid, s.orders[o].stripeId, s.orders[o].status,
                                 score, score >= threshold, notes)
      && forall x :: x in s.orders && x != o ==> r.orders[x] == s.orders[x]
  {
    assert DeliveryOk(s, s.deliveries[p]);
  }

  /** Saving a review clears the flag and prefixes the notes it loaded, cut to the column; the score stays. */
  lemma ReviewWrites(s: State, o: OrderId)
    requires o in s.orders
    ensures var loaded := Next(s, LoadReview(o));
      var r := Next(loaded, SaveReview(|s.reviews|));
      var notes := "reviewed: " + s.orders[o].fraudNotes;
      && r.orders.Keys == s.orders.Keys && r.stock == s.stock && r.log == s.log
      && r.orders[o] == OrderRow(s.orders[o].paid, s.orders[o].stripeId, s.orders[o].status, s.orders[o].fraudScore,
                                 false, if |notes| > 250 then notes[..250] else notes)
      && forall x :: x in s.orders && x != o ==> r.orders[x] == s.orders[x]
  {
    var loaded := Next(s, LoadReview(o));
    assert loaded.reviews[|s.reviews|] == Review(o, s.orders[o].fraudNotes);
  }

  /** A stock block that raises does not keep the invoice from going out. */
  lemma StockErrorStillDispatches(s: State, p: nat)
    requires At(s, p, Collecting) || At(s, p, Taking) || At(s, p, Clamping)
    ensures var r := Next(Next(s, StockRaises(p)), Dispatch(p));
      && r.log == s.log + [Effect(s.deliveries[p].order, Invoice, p)]
      && r.orders == s.orders && r.stock == s.stock
      && |r.deliveries| == |s.deliveries| && r.deliveries[p].phase == Finished(false)
  {
    var raised := Next(s, StockRaises(p));
    assert raised.log == s.log && raised.deliveries[p].phase == Aborted;
  }

  /** A process killed at any point leaves everything else as it was, and moves no more. */
  lemma CrashStops(s: State, p: nat)
    requires p < |s.deliveries|
    ensures Next(s, Crash(p)) == s.(deliveries := s.deliveries[p := s.deliveries[p].(alive := false)])
    ensures forall e :: OfDelivery(e) && e.p == p && Enabled(Next(s, Crash(p)), e) ==> e.Crash?
  {
    assert Next(s, Crash(p)).log == s.log;
  }

  /** Whatever runs after it, a killed delivery stays where it was killed. */
  lemma {:induction false} KilledStays(s: State, es: seq<Event>, p: nat)
    requires p < |s.deliveries|
    ensures var r := Run(Next(s, Crash(p)), es);
      && p < |r.deliveries| && r.deliveries[p] == s.deliveries[p].(alive := false)
  {
    var killed := Next(s, Crash(p));
    if es == [] {
      CrashStops(s, p);
    } else {
      var before, e := Run(killed, es[..|es| - 1]), es[|es| - 1];
      KilledStays(s, es[..|es| - 1], p);
      assert Run(killed, es) == Next(before, e);
      DeliveriesAfter(before, e, p);
    }
  }

  /** A run may start with any orders, stock and lines. */
  lemma StartsAnywhere(orders: Orders, stock: Stock, lines: map<OrderId, seq<Line>>)
    ensures Initial(State(orders, stock, lines, [], [], []))
  {
  }

  // --------------------------------------------------------------- a delivery alone

  /** The guarded UPDATE of a first delivery: the order is paid with this intent, nothing else in the tables changes. */
  lemma FirstDeliveryPays(s: State, o: OrderId, intent: string)
    requires o in s.orders && !s.orders[o].paid
    ensures var n := |s.deliveries|;
      var r := Next(Next(Next(s, Deliver(o, intent)), Fetch(n)), Gate(n));
      && r.deliveries == s.deliveries + [Delivery(o, intent, Metering, [], 0, true)]
      && r.stock == s.stock && r.lines == s.lines && r.reviews == s.reviews
      && r.log == s.log + [Effect(o, Win, n)] && r.orders.Keys == s.orders.Keys
      && r.orders[o] == OrderRow(true, intent, PAID, s.orders[o].fraudScore, s.orders[o].flagged, s.orders[o].fraudNotes)
      && forall x :: x in s.orders && x != o ==> r.orders[x] == s.orders[x]
  {
    var n := |s.deliveries|;
    var s1 := Next(s, Deliver(o, intent));
    var s2 := Next(s1, Fetch(n));
    assert s1.deliveries[n] == Delivery(o, intent, Fetching, [], 0, true);
    assert s2.deliveries[n] == Delivery(o, intent, Gating, [], 0, true);
    assert s2.log == s.log;
  }

  /** A delivery for an unknown order is refused, one for a paid order is a replay; neither changes any table. */
  lemma OtherDeliveriesDoNothing(s: State, o: OrderId, intent: string)
    requires o in s.orders ==> s.orders[o].paid
    ensures var n := |s.deliveries|;
      var r := Next(Next(Next(s, Deliver(o, intent)), Fetch(n)), Gate(n));
      && r.orders == s.orders && r.stock == s.stock && r.log == s.log && r.lines == s.lines
      && r.deliveries == s.deliveries +
           [Delivery(o, intent, if o in s.orders then Replayed else Refused, [], 0, true)]
  {
    var n := |s.deliveries|;
    var s1 := Next(s, Deliver(o, intent));
    var s2 := Next(s1, Fetch(n));
    assert s1.deliveries[n] == Delivery(o, intent, Fetching, [], 0, true);
    assert s2.deliveries[n] == Delivery(o, intent, if o in s.orders then Gating else Refused, [], 0, true);
    assert s2.log == s.log;
  }

  /** The event of the fraud stage: evaluation raises, or returns a score and notes. */
  function Evaluated(p: nat, fraud: Option<Shop.Score>): Event {
    match fraud
    case None => ScoreRaises(p)
    case Some(f) => WebhookRuns.Score(p, f.score, f.threshold, f.notes)
  }

  /** The first five steps of a delivery. */
  function Opening(n: nat, o: OrderId, intent: string, fraud: Option<Shop.Score>): seq<Event> {
    [Deliver(o, intent), Fetch(n), Gate(n), Meter(n), Evaluated(n, fraud)]
  }

  /** The order row after the gate and the fraud stage. */
  function PaidRow(row: OrderRow, intent: string, fraud: Option<Shop.Score>): OrderRow {
    match fraud
    case None => OrderRow(true, intent, PAID, row.fraudScore, row.flagged, row.fraudNotes)
    case Some(f) => OrderRow(true, intent, PAID, f.score, f.score >= f.threshold, f.notes)
  }

  lemma OpeningRuns(s: State, es: seq<Event>)
    requires |es| == 5
    ensures Run(s, es) == Next(Next(Next(Next(Next(s, es[0]), es[1]), es[2]), es[3]), es[4])
  {
    assert es[..4][..3] == es[..3] && es[..3][..2] == es[..2] && es[..2][..1] == es[..1] && es[..1][..0] == [];
    assert Run(s, es[..1]) == Next(s, es[0]);
    assert Run(s, es[..2]) == Next(Run(s, es[..1]), es[1]);
    assert Run(s, es[..3]) == Next(Run(s, es[..2]), es[2]);
    assert Run(s, es[..4]) == Next(Run(s, es[..3]), es[3]);
  }

  lemma ThreeRuns(s: State, es: seq<Event>)
    requires |es| == 3
    ensures Run(s, es) == Next(Next(Next(s, es[0]), es[1]), es[2])
  {
    assert es[..2][..1] == es[..1] && es[..1][..0] == [];
    assert Run(s, es[..1]) == Next(s, es[0]);
    assert Run(s, es[..2]) == Next(Run(s, es[..1]), es[1]);
  }

  lemma FraudStage(s: State, p: nat, fraud: Option<Shop.Score>)
    requires Gated(s) && At(s, p, Metering)
    ensures var o := s.deliveries[p].order;
      var r := Next(Next(s, Meter(p)), Evaluated(p, fraud));
      && o in s.orders && r.orders.Keys == s.orders.Keys && r.stock == s.stock && r.lines == s.lines
      && r.orders[o] == (match fraud
         case None => s.orders[o]
         case Some(f) => s.orders[o].(fraudScore := f.score, flagged := f.score >= f.threshold, fraudNotes := f.notes))
      && (forall x :: x in s.orders && x != o ==> r.orders[x] == s.orders[x])
      && r.deliveries == s.deliveries[p := s.deliveries[p].(phase := Collecting)]
  {
    assert DeliveryOk(s, s.deliveries[p]);
    var metered := Next(s, Meter(p));
    assert metered.deliveries[p] == s.deliveries[p].(phase := Scoring);
  }

  /** Rows of r against s: order o is paid and scored, every other row is as it was. */
  ghost predicate OrderSettled(s: State, r: State, o: OrderId, intent: string, fraud: Option<Shop.Score>)
    requires o in s.orders
  {
    && r.orders.Keys == s.orders.Keys && r.orders[o] == PaidRow(s.orders[o], intent, fraud)
    && forall x :: x in s.orders && x != o ==> r.orders[x] == s.orders[x]
  }

  /** The stages after the gate, given what the gate left in g. */
  lemma OpenedFrom(s: State, g: State, r: State, o: OrderId, intent: string, fraud: Option<Shop.Score>)
    requires o in s.orders && Gated(g) && g.orders.Keys == s.orders.Keys
    requires g.deliveries == [Delivery(o, intent, Metering, [], 0, true)]
    requires g.orders[o] == PaidRow(s.orders[o], intent, None)
    requires forall x :: x in s.orders && x != o ==> g.orders[x] == s.orders[x]
    requires r == Next(Next(g, Meter(0)), Evaluated(0, fraud))
    ensures OrderSettled(s, r, o, intent, fraud)
    ensures r.deliveries == [Delivery(o, intent, Collecting, [], 0, true)]
  {
    FraudStage(g, 0, fraud);
  }

  lemma OpeningIs(s: State, o: OrderId, intent: string, fraud: Option<Shop.Score>)
    ensures var first := [Deliver(o, intent), Fetch(0), Gate(0)];
      && Run(s, first) == Next(Next(Next(s, Deliver(o, intent)), Fetch(0)), Gate(0))
      && Run(s, Opening(0, o, intent, fraud)) == Next(Next(Run(s, first), Meter(0)), Evaluated(0, fraud))
  {
    ThreeRuns(s, [Deliver(o, intent), Fetch(0), Gate(0)]);
    OpeningRuns(s, Opening(0, o, intent, fraud));
  }

  lemma Opened(s: State, o: OrderId, intent: string, fraud: Option<Shop.Score>, r: State)
    requires Initial(s) && o in s.orders && !s.orders[o].paid && r == Run(s, Opening(0, o, intent, fraud))
    ensures Gated(r) && OrderSettled(s, r, o, intent, fraud)
    ensures r.deliveries == [Delivery(o, intent, Collecting, [], 0, true)]
  {
    var first := [Deliver(o, intent), Fetch(0), Gate(0)];
    var g := Run(s, first);
    OpeningIs(s, o, intent, fraud);
    FirstDeliveryPays(s, o, intent);
    Reachable(s, first);
    OpenedFrom(s, g, r, o, intent, fraud);
    Reachable(s, Opening(0, o, intent, fraud));
  }

  /** Driving a delivery on from the stock stage touches no order row. */
  lemma {:induction false} DriveKeepsOrders(s: State, p: nat) returns (more: seq<Event>)
    requires Gated(s) && p < |s.deliveries| && Won(s.deliveries[p]) && StageOf(s.deliveries[p]) <= 1
    requires s.deliveries[p].phase == Finished(true) || (s.deliveries[p].alive && !Raised(s.deliveries[p]))
    ensures Drove(s, Run(s, more), p) && Run(s, more).orders == s.orders
    decreases s.deliveries[p].phase != Finished(true), StageOf(s.deliveries[p]), Left(s.deliveries[p])
  {
    more := [];
    if s.deliveries[p].phase != Finished(true) {
      var e := NextMove(s, p);
      OneMove(s, e);
      assert Next(s, e).orders == s.orders by {
        ApplyHasTables(s, e);
      }
      var rest := DriveKeepsOrders(Next(s, e), p);
      more := [e] + rest;
      RunFirst(s, e, rest);
    }
  }

  /**
   One delivery for an unpaid order, alone: some run of it goes to the end, and leaves the
   order paid with its intent and status and the fraud columns evaluation gave, the stock
   that the order's lines leave, exactly one invoice, and every other order row as it was.
   */
  lemma DeliveredAlone(s: State, o: OrderId, intent: string, fraud: Option<Shop.Score>) returns (more: seq<Event>)
    requires Initial(s) && o in s.orders && !s.orders[o].paid
    ensures var r := Run(s, Opening(0, o, intent, fraud) + more);
      && OrderSettled(s, r, o, intent, fraud)
      && r.stock == Shop.AfterOrder(s.stock, if o in s.lines then s.lines[o] else [])
      && |r.deliveries| == 1 && r.deliveries[0].phase == Finished(true)
      && Effect(o, Invoice, 0) in r.log && forall x :: x in r.log && x.kind == Invoice ==> x == Effect(o, Invoice, 0)
  {
    var es := Opening(0, o, intent, fraud);
    var scored := Run(s, es);
    Opened(s, o, intent, fraud, scored);
    more := DriveKeepsOrders(scored, 0);
    RunConcat(s, es, more);
    var r := Run(s, es + more);
    Reachable(s, es + more);
    WinnerDoesEverything(s, es + more, 0);
    OneOrderPaid(s, es + more, o, intent, fraud);
    StockAfterOne(s, es + more, o);
  }

  lemma OneOrderPaid(s: State, es: seq<Event>, o: OrderId, intent: string, fraud: Option<Shop.Score>)
    requires Initial(s) && o in s.orders && !s.orders[o].paid && OrderSettled(s, Run(s, es), o, intent, fraud)
    ensures NewlyPaid(s, Run(s, es)) == {o}
  {
    var r := Run(s, es);
    forall x | x in NewlyPaid(s, r) ensures x == o {
      assert x in s.orders && r.orders[x].paid && !s.orders[x].paid;
    }
    assert o in NewlyPaid(s, r);
  }

  lemma StockAfterOne(s: State, es: seq<Event>, o: OrderId)
    requires Initial(s) && Settled(Run(s, es)) && NewlyPaid(s, Run(s, es)) == {o}
    ensures Run(s, es).stock == Shop.AfterOrder(s.stock, LinesOf(s, o))
  {
    var r := Run(s, es);
    WonIsNewlyPaid(s, es);
    forall t | t in s.stock ensures r.stock[t] == Shop.AfterOrder(s.stock, LinesOf(s, o))[t] {
      StockExact(s, es, t);
      DemandTakesAny(s, {o}, o, t);
      assert {o} - {o} == {};
      assert Demand(s, {}, t) == 0;
    }
  }
}
