/**
 Concurrent, replayed and crashing deliveries of "checkout.session.completed".

 A delivery is a small-step process over the shared tables; each SQL statement is one
 step and any delivery may move at any time, stop for ever (Crash), or lose its fraud
 or stock block to a database error. The theorems hold for every sequence of events.
 */
module WebhookRuns {
  import opened Options
  import opened PaymentTables

  datatype Phase =
    | Fetching              // before Order.objects.get
    | Gating                // before the guarded UPDATE
    | Metering              // updated == 1: before the revenue metric
    | Scoring               // before fraud evaluation and its UPDATE
    | Collecting            // before the targets dictionary is built
    | Taking                // before the conditional UPDATE of rows[tried], or after the last row
    | Clamping              // the UPDATE of rows[tried - 1] matched nothing
    | Aborted               // the stock block raised
    | Finished(clean: bool) // invoice dispatched; clean when the stock block did not raise
    | Replayed              // updated == 0
    | Refused               // no such order

  datatype Row = Row(target: Target, quantity: nat)

  datatype Delivery = Delivery(
    order: OrderId, intent: string, phase: Phase, rows: seq<Row>, tried: nat, alive: bool)

  /** What a delivery does to the outside or to shared stock, once it owns the order. */
  datatype Kind = Win | Revenue | Fraud | StockRow(target: Target) | Invoice
  datatype Effect = Effect(order: OrderId, kind: Kind, doer: nat)

  datatype Review = Review(order: OrderId, loadedNotes: string)

  datatype State = State(
    orders: Orders, stock: Stock, lines: map<OrderId, seq<Line>>,
    deliveries: seq<Delivery>, reviews: seq<Review>, log: seq<Effect>)

  datatype Event =
    | Deliver(order: OrderId, intent: string)
    | Fetch(p: nat)
    | Gate(p: nat)
    | Meter(p: nat)
    | Score(p: nat, score: int, threshold: int, notes: string)
    | ScoreRaises(p: nat)
    | Collect(p: nat, rows: seq<Row>)
    | Take(p: nat)
    | Clamp(p: nat)
    | StockRaises(p: nat)
    | Dispatch(p: nat)
    | Crash(p: nat)
    | LoadReview(order: OrderId)
    | SaveReview(r: nat)

  function LinesOf(s: State, id: OrderId): seq<Line> {
    if id in s.lines then s.lines[id] else []
  }

  /** The targets dictionary: each tracked target of the order once, with its total quantity. */
  ghost predicate Aggregates(rows: seq<Row>, lines: seq<Line>, stock: Stock) {
    && (forall i, j :: 0 <= i < j < |rows| ==> rows[i].target != rows[j].target)
    && (forall r :: r in rows ==> Mentions(lines, r.target) && Tracked(stock, r.target)
                                  && r.quantity == Ordered(lines, r.target))
    && (forall t :: Mentions(lines, t) && Tracked(stock, t) ==> exists r :: r in rows && r.target == t)
  }

  predicate At(s: State, p: nat, phase: Phase) {
    p < |s.deliveries| && s.deliveries[p].alive && s.deliveries[p].phase == phase
  }

  ghost predicate Enabled(s: State, e: Event) {
    match e
    case Deliver(_, _) => true
    case Fetch(p) => At(s, p, Fetching)
    case Gate(p) => At(s, p, Gating)
    case Meter(p) => At(s, p, Metering)
    case Score(p, _, _, _) => At(s, p, Scoring)
    case ScoreRaises(p) => At(s, p, Scoring)
    case Collect(p, rows) =>
      At(s, p, Collecting) && Aggregates(rows, LinesOf(s, s.deliveries[p].order), s.stock)
    case Take(p) => At(s, p, Taking) && s.deliveries[p].tried < |s.deliveries[p].rows|
    case Clamp(p) =>
      At(s, p, Clamping) && 0 < s.deliveries[p].tried <= |s.deliveries[p].rows|
    case StockRaises(p) => At(s, p, Collecting) || At(s, p, Taking) || At(s, p, Clamping)
    case Dispatch(p) =>
      At(s, p, Aborted) || (At(s, p, Taking) && s.deliveries[p].tried >= |s.deliveries[p].rows|)
    case Crash(p) => p < |s.deliveries|
    case LoadReview(o) => o in s.orders
    case SaveReview(r) => r < |s.reviews|
  }

  /** Puts delivery d in place p and logs the effects `did`. */
  function Move(s: State, p: nat, d: Delivery, did: seq<Kind>): State
    requires p < |s.deliveries|
  {
    s.(deliveries := s.deliveries[p := d],
       log := s.log + seq(|did|, i requires 0 <= i < |did| => Effect(d.order, did[i], p)))
  }

  /** The tables after the statement of e, if it issues one. */
  ghost function Tables(s: State, e: Event): State
    requires Enabled(s, e)
  {
    match e
    case Gate(p) => s.(orders := PayIfUnpaid(s.orders, s.deliveries[p].order, s.deliveries[p].intent))
    case Score(p, score, threshold, notes) =>
      s.(orders := WriteFraud(s.orders, s.deliveries[p].order, score, threshold, notes))
    case Take(p) =>
      var row := s.deliveries[p].rows[s.deliveries[p].tried];
      s.(stock := TakeIfEnough(s.stock, row.target, row.quantity))
    case Clamp(p) =>
      s.(stock := ClampToZero(s.stock, s.deliveries[p].rows[s.deliveries[p].tried - 1].target))
    case SaveReview(r) =>
      s.(orders := WriteReview(s.orders, s.reviews[r].order, s.reviews[r].loadedNotes))
    case _ => s
  }

  predicate OfDelivery(e: Event) {
    !e.Deliver? && !e.LoadReview? && !e.SaveReview?
  }

  /** The delivery e moves, after the move. */
  ghost function Moved(s: State, e: Event): Delivery
    requires OfDelivery(e) && Enabled(s, e)
  {
    var d := s.deliveries[e.p];
    match e
    case Fetch(_) => d.(phase := if d.order in s.orders then Gating else Refused)
    case Gate(_) => d.(phase := if Unpaid(s.orders, d.order) then Metering else Replayed)
    case Meter(_) => d.(phase := Scoring)
    case Score(_, _, _, _) => d.(phase := Collecting)
    case ScoreRaises(_) => d.(phase := Collecting)
    case Collect(_, rows) => d.(phase := Taking, rows := rows)
    case Take(_) =>
      var row := d.rows[d.tried];
      d.(phase := if Enough(s.stock, row.target, row.quantity) then Taking else Clamping, tried := d.tried + 1)
    case Clamp(_) => d.(phase := Taking)
    case StockRaises(_) => d.(phase := Aborted)
    case Dispatch(_) => d.(phase := Finished(d.phase != Aborted))
    case Crash(_) => d.(alive := false)
  }

  /** What the step leaves in the log. */
  ghost function Effects(s: State, e: Event): seq<Kind>
    requires OfDelivery(e) && Enabled(s, e)
  {
    match e
    case Gate(p) => if Unpaid(s.orders, s.deliveries[p].order) then [Win] else []
    case Meter(_) => [Revenue]
    case Score(_, _, _, _) => [Fraud]
    case ScoreRaises(_) => [Fraud]
    case Take(p) => [StockRow(s.deliveries[p].rows[s.deliveries[p].tried].target)]
    case Dispatch(_) => [Invoice]
    case _ => []
  }

  ghost function Apply(s: State, e: Event): State
    requires Enabled(s, e)
  {
    match e
    case Deliver(o, intent) => s.(deliveries := s.deliveries + [Delivery(o, intent, Fetching, [], 0, true)])
    case LoadReview(o) => s.(reviews := s.reviews + [Review(o, s.orders[o].fraudNotes)])
    case SaveReview(_) => Tables(s, e)
    case _ => Move(Tables(s, e), e.p, Moved(s, e), Effects(s, e))
  }

  ghost function Next(s: State, e: Event): State {
    if Enabled(s, e) then Apply(s, e) else s
  }

  ghost function Run(s: State, es: seq<Event>): State {
    if es == [] then s else Next(Run(s, es[..|es| - 1]), es[|es| - 1])
  }

  /** Any database before the first delivery. */
  predicate Initial(s: State) {
    s.deliveries == [] && s.reviews == [] && s.log == []
  }

  /** The delivery is in, or went through, the `updated == 1` branch. */
  predicate Won(d: Delivery) {
    !(d.phase.Fetching? || d.phase.Gating? || d.phase.Replayed? || d.phase.Refused?)
  }

  /** The delivery has done its effect of this kind. */
  predicate Did(d: Delivery, k: Kind) {
    Won(d) &&
    match k
    case Win => true
    case Revenue => !d.phase.Metering?
    case Fraud => !d.phase.Metering? && !d.phase.Scoring?
    case StockRow(t) => exists i :: 0 <= i < d.tried && i < |d.rows| && d.rows[i].target == t
    case Invoice => d.phase.Finished?
  }

  // ---------------------------------------------------------------- the gate

  /** Field-by-field facts about a single delivery. */
  ghost predicate DeliveryOk(s: State, d: Delivery) {
    && (Won(d) ==> d.order in s.orders && s.orders[d.order].paid
                   && s.orders[d.order].stripeId == d.intent && s.orders[d.order].status == PAID)
    && d.tried <= |d.rows|
    && (!Won(d) || d.phase.Metering? || d.phase.Scoring? || d.phase.Collecting? ==> d.rows == [])
    && (d.rows != [] ==> Aggregates(d.rows, LinesOf(s, d.order), s.stock))
    && (d.phase.Taking? || d.phase == Finished(true) || d.phase.Clamping? ==>
        Aggregates(d.rows, LinesOf(s, d.order), s.stock))
    && (d.phase == Finished(true) ==> d.tried == |d.rows|)
    && (d.phase.Clamping? ==> d.tried > 0)
  }

  ghost predicate Gated(s: State) {
    && (forall p :: 0 <= p < |s.deliveries| ==> DeliveryOk(s, s.deliveries[p]))
    && (forall p, q :: 0 <= p < q < |s.deliveries| && Won(s.deliveries[p]) && Won(s.deliveries[q])
          ==> s.deliveries[p].order != s.deliveries[q].order)
  }

  /** The log holds exactly what the deliveries did, each thing once. */
  ghost predicate Logged(s: State) {
    && (forall x :: x in s.log <==>
          x.doer < |s.deliveries| && s.deliveries[x.doer].order == x.order && Did(s.deliveries[x.doer], x.kind))
    && (forall i, j :: 0 <= i < j < |s.log| ==> s.log[i] != s.log[j])
  }

  predicate SameTracking(a: Stock, b: Stock) {
    a.Keys == b.Keys && forall t :: t in a ==> a[t].Some? == b[t].Some?
  }

  lemma AggregatesFrame(rows: seq<Row>, lines: seq<Line>, a: Stock, b: Stock)
    requires SameTracking(a, b) && Aggregates(rows, lines, a)
    ensures Aggregates(rows, lines, b)
  {
  }

  /** What a step may do to tables: rows of paid orders keep their payment columns. */
  ghost predicate TablesKept(s: State, s': State) {
    && s'.lines == s.lines
    && SameTracking(s.stock, s'.stock)
    && s'.orders.Keys == s.orders.Keys
    && (forall o :: o in s.orders && s.orders[o].paid ==>
          s'.orders[o].paid && s'.orders[o].stripeId == s.orders[o].stripeId
          && s'.orders[o].status == s.orders[o].status)
  }

  lemma StatementKeepsTables(s: State, e: Event)
    requires Enabled(s, e)
    ensures TablesKept(s, Tables(s, e)) && Tables(s, e).deliveries == s.deliveries
  {
  }

  lemma ApplyHasTables(s: State, e: Event)
    requires Enabled(s, e)
    ensures var s', t := Apply(s, e), Tables(s, e);
      s'.orders == t.orders && s'.stock == t.stock && s'.lines == t.lines
  {
  }

  lemma StepKeepsTables(s: State, e: Event)
    ensures TablesKept(s, Next(s, e))
  {
    if Enabled(s, e) {
      StatementKeepsTables(s, e);
      ApplyHasTables(s, e);
      assert TablesKept(s, Apply(s, e));
    }
  }

  lemma DeliveryFrame(s: State, s': State, d: Delivery)
    requires TablesKept(s, s') && DeliveryOk(s, d)
    ensures DeliveryOk(s', d)
  {
  }

  /** A step of a delivery keeps its own facts and does at most one new thing. */
  lemma MovedOk(s: State, e: Event)
    requires OfDelivery(e) && Enabled(s, e) && DeliveryOk(s, s.deliveries[e.p])
    ensures DeliveryOk(Tables(s, e), Moved(s, e))
    ensures Won(Moved(s, e)) ==> Won(s.deliveries[e.p]) || Unpaid(s.orders, s.deliveries[e.p].order)
  {
    StatementKeepsTables(s, e);
    DeliveryFrame(s, Tables(s, e), s.deliveries[e.p]);
    if e.Collect? {
      AggregatesFrame(e.rows, LinesOf(s, s.deliveries[e.p].order), s.stock, Tables(s, e).stock);
    }
  }

  lemma MovedDid(s: State, e: Event, k: Kind)
    requires OfDelivery(e) && Enabled(s, e) && DeliveryOk(s, s.deliveries[e.p])
    ensures Did(Moved(s, e), k) <==> Did(s.deliveries[e.p], k) || k in Effects(s, e)
    ensures k in Effects(s, e) ==> !Did(s.deliveries[e.p], k)
  {
    var d, d' := s.deliveries[e.p], Moved(s, e);
    if e.Take? {
      assert d'.rows[d.tried].target == Effects(s, e)[0].target;
    }
  }

  /** Moving one delivery over kept tables: no second winner for an order can appear. */
  lemma GateMove(s: State, t: State, p: nat, d: Delivery, did: seq<Kind>)
    requires Gated(s) && TablesKept(s, t) && t.deliveries == s.deliveries
    requires p < |s.deliveries| && d.order == s.deliveries[p].order && DeliveryOk(t, d)
    requires Won(d) ==> Won(s.deliveries[p]) || Unpaid(s.orders, d.order)
    ensures Gated(Move(t, p, d, did))
  {
    var s' := Move(t, p, d, did);
    forall q | 0 <= q < |s'.deliveries| ensures DeliveryOk(s', s'.deliveries[q]) {
      DeliveryFrame(s, s', s.deliveries[q]);
      DeliveryFrame(t, s', d);
    }
  }

  lemma GateStep(s: State, e: Event)
    requires Gated(s)
    ensures Gated(Next(s, e))
  {
    if Enabled(s, e) {
      if OfDelivery(e) {
        StatementKeepsTables(s, e);
        MovedOk(s, e);
        GateMove(s, Tables(s, e), e.p, Moved(s, e), Effects(s, e));
      } else {
        GateStepElsewhere(s, e);
      }
    }
  }

  lemma GateStepElsewhere(s: State, e: Event)
    requires Gated(s) && Enabled(s, e) && !OfDelivery(e)
    ensures Gated(Apply(s, e))
  {
    var s' := Apply(s, e);
    StepKeepsTables(s, e);
    forall q | 0 <= q < |s'.deliveries| ensures DeliveryOk(s', s'.deliveries[q]) {
      if q < |s.deliveries| {
        DeliveryFrame(s, s', s.deliveries[q]);
      }
    }
  }

  lemma LoggedMove(s: State, p: nat, d: Delivery, did: seq<Kind>)
    requires Logged(s) && p < |s.deliveries| && d.order == s.deliveries[p].order
    requires |did| <= 1
    requires forall k :: Did(d, k) <==> Did(s.deliveries[p], k) || k in did
    requires forall k :: k in did ==> !Did(s.deliveries[p], k)
    ensures Logged(Move(s, p, d, did))
  {
    var s' := Move(s, p, d, did);
    forall x ensures x in s'.log <==>
      x.doer < |s'.deliveries| && s'.deliveries[x.doer].order == x.order && Did(s'.deliveries[x.doer], x.kind)
    {
      if x.doer == p && x.order == d.order && x.kind in did {
        assert s'.log[|s.log|] == x;
      }
    }
  }

  lemma LoggedStep(s: State, e: Event)
    requires Gated(s) && Logged(s)
    ensures Logged(Next(s, e))
  {
    if Enabled(s, e) && OfDelivery(e) {
      forall k ensures Did(Moved(s, e), k) <==> Did(s.deliveries[e.p], k) || k in Effects(s, e)
               ensures k in Effects(s, e) ==> !Did(s.deliveries[e.p], k)
      {
        MovedDid(s, e, k);
      }
      LoggedMove(Tables(s, e), e.p, Moved(s, e), Effects(s, e));
    }
  }

  lemma {:induction false} Reachable(s: State, es: seq<Event>)
    requires Initial(s)
    ensures Gated(Run(s, es)) && Logged(Run(s, es))
  {
    if es != [] {
      var before := Run(s, es[..|es| - 1]);
      Reachable(s, es[..|es| - 1]);
      GateStep(before, es[|es| - 1]);
      LoggedStep(before, es[|es| - 1]);
    }
  }

  /**
   At-least-once delivery, at-most-once effect: over every interleaving, no two log
   entries are the same effect on the same order, all effects on an order are one
   delivery's, and the row carries that delivery's payment intent.
   */
  lemma AtMostOnce(s: State, es: seq<Event>)
    requires Initial(s)
    ensures var log := Run(s, es).log;
      && (forall i, j :: 0 <= i < j < |log| && log[i].order == log[j].order ==>
            log[i].kind != log[j].kind && log[i].doer == log[j].doer)
    ensures var r := Run(s, es);
      forall x :: x in r.log ==>
        && x.doer < |r.deliveries| && x.order in r.orders && r.orders[x.order].paid
        && r.orders[x.order].stripeId == r.deliveries[x.doer].intent
  {
    Reachable(s, es);
    var r := Run(s, es);
    forall i, j | 0 <= i < j < |r.log| && r.log[i].order == r.log[j].order
      ensures r.log[i].kind != r.log[j].kind && r.log[i].doer == r.log[j].doer
    {
      assert r.log[i] in r.log && r.log[j] in r.log;
    }
  }

  /** A delivery that finishes has done the revenue, fraud and invoice effects, and one take for each of its rows. */
  lemma WinnerDoesEverything(s: State, es: seq<Event>, p: nat)
    requires Initial(s)
    requires var r := Run(s, es); p < |r.deliveries| && r.deliveries[p].phase.Finished?
    ensures var r := Run(s, es); var o := r.deliveries[p].order;
      && Effect(o, Win, p) in r.log && Effect(o, Revenue, p) in r.log
      && Effect(o, Fraud, p) in r.log && Effect(o, Invoice, p) in r.log
    ensures var r := Run(s, es); var d := r.deliveries[p];
      d.phase.clean ==> forall t ::
        Effect(d.order, StockRow(t), p) in r.log <==> Mentions(LinesOf(r, d.order), t) && Tracked(r.stock, t)
  {
    Reachable(s, es);
    var r := Run(s, es);
    var d := r.deliveries[p];
    assert DeliveryOk(r, d);
    if d.phase.clean {
      forall t | Mentions(LinesOf(r, d.order), t) && Tracked(r.stock, t) ensures Did(d, StockRow(t)) {
        var row :| row in d.rows && row.target == t;
        var i :| 0 <= i < |d.rows| && d.rows[i] == row;
        assert d.rows[i].target == t;
      }
    }
  }

  // ------------------------------------------- what later steps cannot undo

  /** Once paid, always paid, with the same payment intent and status: no replay re-transitions. */
  lemma {:induction false} PaidStays(s: State, es: seq<Event>, o: OrderId)
    requires o in s.orders && s.orders[o].paid
    ensures var r := Run(s, es);
      o in r.orders && r.orders[o].paid && r.orders[o].stripeId == s.orders[o].stripeId
      && r.orders[o].status == s.orders[o].status
  {
    if es != [] {
      PaidStays(s, es[..|es| - 1], o);
      StepKeepsTables(Run(s, es[..|es| - 1]), es[|es| - 1]);
    }
  }

  /** Only the fraud write of the delivery that owns the order can raise its flag. */
  lemma FlagStep(s: State, e: Event, o: OrderId, p: nat)
    requires Gated(s) && Logged(s) && Effect(o, Fraud, p) in s.log
    requires o in s.orders && !s.orders[o].flagged
    ensures var s' := Next(s, e); Effect(o, Fraud, p) in s'.log && o in s'.orders && !s'.orders[o].flagged
  {
    if Enabled(s, e) && e.Score? {
      assert Won(s.deliveries[e.p]) && !Did(s.deliveries[e.p], Fraud);
      assert s.deliveries[e.p].order != o;
    }
  }

  lemma {:induction false} FlagRun(s: State, more: seq<Event>, o: OrderId, p: nat)
    requires Gated(s) && Logged(s) && Effect(o, Fraud, p) in s.log
    requires o in s.orders && !s.orders[o].flagged
    ensures var r := Run(s, more); Gated(r) && Logged(r) && Effect(o, Fraud, p) in r.log
                                   && o in r.orders && !r.orders[o].flagged
  {
    if more != [] {
      var before := Run(s, more[..|more| - 1]);
      FlagRun(s, more[..|more| - 1], o, p);
      GateStep(before, more[|more| - 1]);
      LoggedStep(before, more[|more| - 1]);
      FlagStep(before, more[|more| - 1], o, p);
    }
  }

  /**
   A fraud flag that is clear after the fraud stage of the order (because a review
   cleared it, or the score was low) stays clear whatever is delivered or reviewed later.
   */
  lemma FlagStaysCleared(s: State, es: seq<Event>, more: seq<Event>, o: OrderId, p: nat)
    requires Initial(s)
    requires var r := Run(s, es); Effect(o, Fraud, p) in r.log && o in r.orders && !r.orders[o].flagged
    ensures var r := Run(Run(s, es), more); o in r.orders && !r.orders[o].flagged
  {
    Reachable(s, es);
    FlagRun(Run(s, es), more, o, p);
  }

  /** Nothing moves a crashed delivery. */
  lemma {:induction false} CrashedStays(s: State, more: seq<Event>, p: nat)
    requires p < |s.deliveries| && !s.deliveries[p].alive
    ensures var r := Run(s, more); p < |r.deliveries| && r.deliveries[p] == s.deliveries[p]
  {
    if more != [] {
      CrashedStays(s, more[..|more| - 1], p);
      CrashedStep(Run(s, more[..|more| - 1]), more[|more| - 1], p);
    }
  }

  lemma CrashedStep(s: State, e: Event, p: nat)
    requires p < |s.deliveries| && !s.deliveries[p].alive
    ensures var s' := Next(s, e); p < |s'.deliveries| && s'.deliveries[p] == s.deliveries[p]
  {
  }

  /** A run takes its events one after another. */
  lemma RunOneMore(s: State, es: seq<Event>, e: Event)
    ensures Run(s, []) == s
    ensures Run(s, es + [e]) == Next(Run(s, es), e)
  {
    assert (es + [e])[..|es|] == es;
  }

  lemma {:induction false} RunConcat(s: State, es: seq<Event>, more: seq<Event>)
    ensures Run(s, es + more) == Run(Run(s, es), more)
  {
    if more == [] {
      assert es + more == es;
    } else {
      assert (es + more)[..|es + more| - 1] == es + more[..|more| - 1];
      RunConcat(s, es, more[..|more| - 1]);
    }
  }

  /**
   The price of the gate: when the winner dies before dispatching, no later delivery,
   replayed or new, ever dispatches the invoice of that order.
   */
  lemma LostInvoiceStaysLost(s: State, es: seq<Event>, more: seq<Event>, p: nat)
    requires Initial(s)
    requires var r := Run(s, es); p < |r.deliveries| && Won(r.deliveries[p])
                                  && !r.deliveries[p].alive && !r.deliveries[p].phase.Finished?
    ensures var o := Run(s, es).deliveries[p].order;
      forall x :: x in Run(Run(s, es), more).log && x.order == o ==> x.kind != Invoice
  {
    var mid := Run(s, es);
    CrashedStays(mid, more, p);
    RunConcat(s, es, more);
    Reachable(s, es + more);
  }
}
