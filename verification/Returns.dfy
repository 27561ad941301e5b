/**
 Return requests and the analyst's actions on them, over the orders' refund ledgers.

 An action walks over the selected requests; each request it touches is one step here. A
 run is any sequence of steps, so it covers every mix of batches. The ids of an order's
 items count from 1.
 */
module Returns {
  import opened Options
  import opened Refunds
  import opened Seqs

  datatype Status = SUBMITTED | APPROVED | REFUNDED | REJECTED | CANCELED

  datatype Request = Request(order: int, item: Option<nat>, status: Status, refundId: string) {
    predicate IsFullOrder() { item.None? }
  }

  /** Money given back: for a request, or by the analyst refunding the whole order. */
  datatype Receipt = Receipt(request: Option<int>, order: int, amount: real)

  /** receipts is the history of every refund that went through. */
  datatype Desk = Desk(ledgers: map<int, Ledger>, requests: map<int, Request>, receipts: seq<Receipt>)

  ghost predicate WellFormed(d: Desk) {
    forall id :: id in d.requests ==>
      && d.requests[id].order in d.ledgers
      && (d.requests[id].item.Some? ==>
            d.requests[id].item.value <= |d.ledgers[d.requests[id].order].order.items|)
  }

  /** get_item_cost of a request for an item of o. */
  function ItemCost(o: Order, item: nat): real
    requires item <= |o.items|
  {
    if item != 0 then o.items[item - 1].Cost() else TotalCost(o)
  }

  /** What the request asks refund_order for. */
  function Asked(o: Order, r: Request): Option<real>
    requires r.item.Some? ==> r.item.value <= |o.items|
  {
    if r.IsFullOrder() then None else Some(ItemCost(o, r.item.value))
  }

  /** The actions approve, reject and mark_canceled: which statuses they take, and to what. */
  datatype Decision = APPROVE | REJECT | CANCEL {
    predicate Eligible(s: Status) {
      match this
      case APPROVE => s == SUBMITTED
      case REJECT => s == SUBMITTED || s == APPROVED
      case CANCEL => s != REFUNDED && s != REJECTED
    }

    function Outcome(): Status {
      match this
      case APPROVE => APPROVED
      case REJECT => REJECTED
      case CANCEL => CANCELED
    }
  }

  /** up and refundId are Stripe's part in a refund. */
  datatype Step =
    | Decide(decision: Decision, id: int)
    | MarkRefunded(id: int, up: bool, refundId: string)
    | RefundWhole(order: int, up: bool, refundId: string)

  ghost function DecideOne(d: Desk, decision: Decision, id: int): Desk {
    if id in d.requests && decision.Eligible(d.requests[id].status)
    then d.(requests := d.requests[id := d.requests[id].(status := decision.Outcome())])
    else d
  }

  /** One refund_order call for order o, on behalf of a request or not. */
  ghost function RefundFor(d: Desk, o: int, amount: Option<real>, up: bool, refundId: string,
      request: Option<int>): (Desk, Reason)
    requires o in d.ledgers
  {
    var l := d.ledgers[o];
    var r := RefundOrder(l, amount, up, refundId);
    if r.1 != OK then (d, r.1)
    else (d.(ledgers := d.ledgers[o := r.0],
             receipts := d.receipts + [Receipt(request, o, Delta(l.order, amount))]), OK)
  }

  ghost function MarkOne(d: Desk, id: int, up: bool, refundId: string): (Desk, bool)
    requires WellFormed(d) && id in d.requests
  {
    var rr := d.requests[id];
    if rr.status != APPROVED then (d, false)
    else
      var o := d.ledgers[rr.order].order;
      var r := RefundFor(d, rr.order, Asked(o, rr), up, refundId, Some(id));
      if r.1 != OK then (d, false)
      else (r.0.(requests := d.requests[id := rr.(status := REFUNDED, refundId := refundId)]), true)
  }

  ghost function DeskNext(d: Desk, s: Step): (r: Desk)
    requires WellFormed(d)
    ensures WellFormed(r) && r.requests.Keys == d.requests.Keys && r.ledgers.Keys == d.ledgers.Keys
  {
    match s
    case Decide(decision, id) => DecideOne(d, decision, id)
    case MarkRefunded(id, up, refundId) =>
      if id in d.requests then MarkOne(d, id, up, refundId).0 else d
    case RefundWhole(order, up, refundId) =>
      if order in d.ledgers then RefundFor(d, order, None, up, refundId, None).0 else d
  }

  ghost function DeskAfter(d: Desk, steps: seq<Step>): (r: Desk)
    requires WellFormed(d)
    ensures WellFormed(r) && r.requests.Keys == d.requests.Keys && r.ledgers.Keys == d.ledgers.Keys
  {
    if steps == [] then d else DeskNext(DeskAfter(d, steps[..|steps| - 1]), steps[|steps| - 1])
  }

  // ------------------------------------------------------------------ the books

  predicate PricesInCents(items: seq<Item>) {
    forall i | 0 <= i < |items| :: WholeCents(items[i].price)
  }

  /** Every ledger agrees with Stripe's; prices, being columns of two decimals, are in cents. */
  ghost predicate Sound(d: Desk) {
    && WellFormed(d)
    && forall o :: o in d.ledgers ==> Agrees(d.ledgers[o]) && PricesInCents(d.ledgers[o].order.items)
  }

  /** What a desk needs to be sound: known orders and items, agreeing ledgers, and prices of two decimals. */
  lemma SoundWhen(d: Desk)
    requires forall id :: id in d.requests ==>
      && d.requests[id].order in d.ledgers
      && (d.requests[id].item.Some? ==>
            d.requests[id].item.value <= |d.ledgers[d.requests[id].order].order.items|)
    requires forall o :: o in d.ledgers ==> Agrees(d.ledgers[o])
    requires forall o, i :: o in d.ledgers && 0 <= i < |d.ledgers[o].order.items| ==>
      WholeCents(d.ledgers[o].order.items[i].price)
    ensures Sound(d)
  {
  }

  function Paid(receipts: seq<Receipt>, order: int): real {
    if receipts == [] then 0.0
    else
      var last := receipts[|receipts| - 1];
      Paid(receipts[..|receipts| - 1], order) + (if last.order == order then last.amount else 0.0)
  }

  /** How many receipts a request has. */
  function Times(receipts: seq<Receipt>, id: int): nat {
    if receipts == [] then 0
    else Times(receipts[..|receipts| - 1], id) + (if receipts[|receipts| - 1].request == Some(id) then 1 else 0)
  }

  lemma AddReceipt(receipts: seq<Receipt>, r: Receipt, order: int, id: int)
    ensures Paid(receipts + [r], order) == Paid(receipts, order) + (if r.order == order then r.amount else 0.0)
    ensures Times(receipts + [r], id) == Times(receipts, id) + (if r.request == Some(id) then 1 else 0)
    ensures Paid([], order) == 0.0 && Times([], id) == 0
  {
    assert (receipts + [r])[..|receipts|] == receipts;
  }

  lemma CostInCents(i: Item)
    requires WholeCents(i.price)
    ensures WholeCents(i.Cost())
  {
    var n := (i.price * 100.0).Floor;
    CostOfCents(i, n);
    IntIsWhole(i.Cost(), n * i.quantity);
  }

  lemma AskedInCents(l: Ledger, r: Request)
    requires Agrees(l) && PricesInCents(l.order.items)
    requires r.item.Some? ==> r.item.value <= |l.order.items|
    ensures Asked(l.order, r).Some? ==> WholeCents(Asked(l.order, r).value)
  {
    if r.item.Some? && r.item.value != 0 {
      CostInCents(l.order.items[r.item.value - 1]);
    } else {
      assert TotalCost(l.order) * 100.0 == l.charge.amount as real;
    }
  }

  /** What every step keeps of order o between d and r: the money given back is on the receipts. */
  ghost predicate Balanced(d: Desk, r: Desk, o: int)
    requires o in d.ledgers && o in r.ledgers
  {
    var l, m := d.ledgers[o], r.ledgers[o];
    && m.order.refunded - l.order.refunded == Paid(r.receipts, o) - Paid(d.receipts, o)
    && (m.charge.refunded - l.charge.refunded) as real == 100.0 * (Paid(r.receipts, o) - Paid(d.receipts, o))
    && l.order.refunded <= m.order.refunded <= TotalCost(l.order) == TotalCost(m.order)
    && m.order.items == l.order.items
  }

  lemma RefundBalances(d: Desk, o: int, amount: Option<real>, up: bool, refundId: string, request: Option<int>, p: int)
    requires Sound(d) && o in d.ledgers && p in d.ledgers
    requires amount.Some? ==> WholeCents(amount.value)
    ensures var r := RefundFor(d, o, amount, up, refundId, request).0;
      && r.ledgers.Keys == d.ledgers.Keys && Balanced(d, r, p)
      && Agrees(r.ledgers[p])
  {
    var r := RefundFor(d, o, amount, up, refundId, request).0;
    RefundAgrees(d.ledgers[o], amount, up, refundId);
    AddReceipt(d.receipts, Receipt(request, o, Delta(d.ledgers[o].order, amount)), p, 0);
    assert RefundOrder(d.ledgers[o], amount, up, refundId).0.order.items == d.ledgers[o].order.items;
    if p != o {
      assert r.ledgers[p] == d.ledgers[p];
    }
  }

  lemma MarkBalances(d: Desk, id: int, up: bool, refundId: string, p: int)
    requires Sound(d) && id in d.requests && p in d.ledgers
    ensures var r := MarkOne(d, id, up, refundId).0;
      && r.ledgers.Keys == d.ledgers.Keys && Balanced(d, r, p)
      && Agrees(r.ledgers[p])
  {
    var rr := d.requests[id];
    AskedInCents(d.ledgers[rr.order], rr);
    RefundBalances(d, rr.order, Asked(d.ledgers[rr.order].order, rr), up, refundId, Some(id), p);
  }

  lemma StepBalances(d: Desk, s: Step, p: int)
    requires Sound(d) && p in d.ledgers
    ensures Balanced(d, DeskNext(d, s), p) && Agrees(DeskNext(d, s).ledgers[p])
  {
    match s
    case Decide(_, _) =>
    case MarkRefunded(id, up, refundId) =>
      if id in d.requests {
        MarkBalances(d, id, up, refundId, p);
      }
    case RefundWhole(order, up, refundId) =>
      if order in d.ledgers {
        RefundBalances(d, order, None, up, refundId, None, p);
      }
  }

  /**
   Conservation: over any sequence of actions, on any mix of requests, each order's refunded
   amount goes up by exactly what its receipts say, Stripe's by the same in cents, it never
   passes the order total, and the two ledgers still agree.
   */
  lemma {:induction false} MoneyIsOnReceipts(d: Desk, steps: seq<Step>)
    requires Sound(d)
    ensures Sound(DeskAfter(d, steps))
    ensures forall o :: o in d.ledgers ==> Balanced(d, DeskAfter(d, steps), o)
  {
    if steps != [] {
      var rest, last := steps[..|steps| - 1], steps[|steps| - 1];
      MoneyIsOnReceipts(d, rest);
      var before := DeskAfter(d, rest);
      forall o | o in d.ledgers
        ensures Agrees(DeskAfter(d, steps).ledgers[o]) && Balanced(d, DeskAfter(d, steps), o)
      {
        StepBalances(before, last, o);
        assert Balanced(d, before, o);
      }
    }
  }

  /** A run takes its actions one after another. */
  lemma OneStepMore(d: Desk, steps: seq<Step>, s: Step)
    requires WellFormed(d)
    ensures DeskAfter(d, []) == d
    ensures DeskAfter(d, steps + [s]) == DeskNext(DeskAfter(d, steps), s)
  {
    assert (steps + [s])[..|steps|] == steps;
  }

  // ------------------------------------------------------- what one action does

  /** e is d with request id in this status and nothing else changed. */
  ghost predicate OnlyStatus(d: Desk, e: Desk, id: int, status: Status)
    requires id in d.requests
  {
    && e.ledgers == d.ledgers && e.receipts == d.receipts && e.requests.Keys == d.requests.Keys
    && (forall x :: x in d.requests && x != id ==> e.requests[x] == d.requests[x])
    && e.requests[id] == Request(d.requests[id].order, d.requests[id].item, status, d.requests[id].refundId)
  }

  /** approve takes SUBMITTED only; reject also APPROVED; mark_canceled everything but REFUNDED and REJECTED. */
  lemma DecisionsDo(d: Desk, id: int)
    requires WellFormed(d) && id in d.requests
    ensures var was := d.requests[id].status;
      && OnlyStatus(d, DeskNext(d, Decide(APPROVE, id)), id, if was == SUBMITTED then APPROVED else was)
      && OnlyStatus(d, DeskNext(d, Decide(REJECT, id)), id,
           if was == SUBMITTED || was == APPROVED then REJECTED else was)
      && OnlyStatus(d, DeskNext(d, Decide(CANCEL, id)), id,
           if was == REFUNDED || was == REJECTED then was else CANCELED)
  {
    assert d.requests[id := d.requests[id]] == d.requests;
  }

  /** The line value of item k of an order, counting from 1. */
  lemma ItemCostIs(o: Order, k: nat)
    requires 1 <= k <= |o.items|
    ensures ItemCost(o, k) == o.items[k - 1].price * o.items[k - 1].quantity as real
  {
  }

  /**
   mark_refunded flips a request exactly when it is APPROVED and its refund can be had: the
   order is paid through Stripe, Stripe is up, something is left, and an item's cost is
   positive and at most what is left.
   */
  lemma MarkFlipsIff(d: Desk, id: int, up: bool, refundId: string)
    requires Sound(d) && id in d.requests
    ensures var rr := d.requests[id];
      var o := d.ledgers[rr.order].order;
      MarkOne(d, id, up, refundId).1 <==>
        && rr.status == APPROVED && o.paid && o.stripeId != "" && up && o.refunded < TotalCost(o)
        && (rr.item.Some? ==> 0.0 < ItemCost(o, rr.item.value) <= TotalCost(o) - o.refunded)
  {
    var rr := d.requests[id];
    var l := d.ledgers[rr.order];
    AskedInCents(l, rr);
    RefundSucceedsIff(l, Asked(l.order, rr), up, refundId);
  }

  /** A flipped request and its order carry Stripe's refund id; an unflipped one changes nothing at all. */
  lemma MarkWrites(d: Desk, id: int, up: bool, refundId: string)
    requires WellFormed(d) && id in d.requests
    ensures var rr := d.requests[id];
      var r := MarkOne(d, id, up, refundId);
      && (!r.1 ==> r.0 == d)
      && (r.1 ==>
            && id in r.0.requests && rr.order in r.0.ledgers
            && r.0.requests == d.requests[id := Request(rr.order, rr.item, REFUNDED, refundId)]
            && r.0.ledgers[rr.order].order.refundId == refundId
            && forall o :: o in d.ledgers && o != rr.order ==> o in r.0.ledgers && r.0.ledgers[o] == d.ledgers[o])
  {
  }

  /** issue_full_refund gives a receipt exactly when the order is paid through Stripe, Stripe is up and something is left. */
  lemma WholeRefundIff(d: Desk, o: int, up: bool, refundId: string)
    requires Sound(d) && o in d.ledgers
    ensures var order := d.ledgers[o].order;
      var e := DeskNext(d, RefundWhole(o, up, refundId));
      if order.paid && order.stripeId != "" && up && order.refunded < TotalCost(order)
      then
        && e.receipts == d.receipts + [Receipt(None, o, TotalCost(order) - order.refunded)]
        && e.ledgers[o].order.refunded == TotalCost(order) && e.requests == d.requests
      else e == d
  {
    RefundSucceedsIff(d.ledgers[o], None, up, refundId);
    RefundAgrees(d.ledgers[o], None, up, refundId);
  }

  // -------------------------------------------------------------- the life cycle

  predicate Allowed(before: Status, after: Status) {
    match before
    case SUBMITTED => after in {SUBMITTED, APPROVED, REJECTED, CANCELED}
    case APPROVED => after in {APPROVED, REFUNDED, REJECTED, CANCELED}
    case _ => after == before
  }

  predicate Entered(before: Status, after: Status) {
    before != REFUNDED && after == REFUNDED
  }

  /** Request id moves along an allowed edge, and has one more receipt exactly if it enters REFUNDED. */
  ghost predicate Moves(d: Desk, r: Desk, id: int)
    requires id in d.requests && id in r.requests
  {
    var before, after := d.requests[id].status, r.requests[id].status;
    && Allowed(before, after)
    && Times(r.receipts, id) == Times(d.receipts, id) + (if Entered(before, after) then 1 else 0)
  }

  lemma RefundLifecycle(d: Desk, o: int, amount: Option<real>, up: bool, refundId: string, request: Option<int>, id: int)
    requires o in d.ledgers
    ensures var r := RefundFor(d, o, amount, up, refundId, request);
      && r.0.requests == d.requests
      && Times(r.0.receipts, id) == Times(d.receipts, id) + (if r.1 == OK && request == Some(id) then 1 else 0)
  {
    AddReceipt(d.receipts, Receipt(request, o, Delta(d.ledgers[o].order, amount)), 0, id);
  }

  lemma FlipMoves(d: Desk, r: Desk, x: int, flipped: Request, id: int)
    requires x in d.requests && id in d.requests && r.requests == d.requests[x := flipped]
    requires d.requests[x].status == APPROVED && flipped.status == REFUNDED
    requires Times(r.receipts, id) == Times(d.receipts, id) + (if x == id then 1 else 0)
    ensures Moves(d, r, id)
  {
  }

  lemma MarkLifecycle(d: Desk, x: int, up: bool, refundId: string, id: int)
    requires WellFormed(d) && x in d.requests && id in d.requests
    ensures var r := MarkOne(d, x, up, refundId);
      id in r.0.requests && Moves(d, r.0, id)
  {
    var rr, r := d.requests[x], MarkOne(d, x, up, refundId);
    if r.1 {
      RefundLifecycle(d, rr.order, Asked(d.ledgers[rr.order].order, rr), up, refundId, Some(x), id);
      FlipMoves(d, r.0, x, rr.(status := REFUNDED, refundId := refundId), id);
    }
  }

  /** Step s refunds the approved request id, and the refund goes through. */
  ghost predicate PaysOut(d: Desk, s: Step, id: int)
    requires WellFormed(d)
  {
    && s.MarkRefunded? && s.id == id && id in d.requests && d.requests[id].status == APPROVED
    && MarkOne(d, id, s.up, s.refundId).1
  }

  lemma StepLifecycle(d: Desk, s: Step, id: int)
    requires WellFormed(d) && id in d.requests
    ensures Moves(d, DeskNext(d, s), id)
    ensures Entered(d.requests[id].status, DeskNext(d, s).requests[id].status) ==> PaysOut(d, s, id)
  {
    match s
    case Decide(_, _) =>
    case MarkRefunded(x, up, refundId) =>
      if x in d.requests {
        MarkLifecycle(d, x, up, refundId, id);
      }
    case RefundWhole(order, up, refundId) =>
      if order in d.ledgers {
        RefundLifecycle(d, order, None, up, refundId, None, id);
      }
  }

  /**
   Over all sequences of actions REFUNDED, REJECTED and CANCELED are absorbing, a request
   gets a receipt exactly when it enters REFUNDED, and so never more than one.
   */
  lemma {:induction false} Lifecycle(d: Desk, steps: seq<Step>, id: int)
    requires WellFormed(d) && id in d.requests
    ensures var r := DeskAfter(d, steps);
      && (d.requests[id].status == REFUNDED ==> r.requests[id].status == REFUNDED)
      && (d.requests[id].status == REJECTED ==> r.requests[id].status == REJECTED)
      && (d.requests[id].status == CANCELED ==> r.requests[id].status == CANCELED)
      && (r.requests[id].status == SUBMITTED ==> d.requests[id].status == SUBMITTED)
      && Times(r.receipts, id) == Times(d.receipts, id)
           + (if Entered(d.requests[id].status, r.requests[id].status) then 1 else 0)
  {
    if steps != [] {
      Lifecycle(d, steps[..|steps| - 1], id);
      StepLifecycle(DeskAfter(d, steps[..|steps| - 1]), steps[|steps| - 1], id);
    }
  }

  /** A request that became REFUNDED did so from APPROVED, at a step whose refund went through. */
  lemma {:induction false} EnteredFromApproved(d: Desk, steps: seq<Step>, id: int) returns (k: nat)
    requires WellFormed(d) && id in d.requests
    requires Entered(d.requests[id].status, DeskAfter(d, steps).requests[id].status)
    ensures k < |steps| && PaysOut(DeskAfter(d, steps[..k]), steps[k], id)
  {
    var rest := steps[..|steps| - 1];
    if Entered(d.requests[id].status, DeskAfter(d, rest).requests[id].status) {
      k := EnteredFromApproved(d, rest, id);
      assert rest[..k] == steps[..k];
    } else {
      k := |rest|;
      StepLifecycle(DeskAfter(d, rest), steps[k], id);
    }
  }

  /** After a full refund of an order no action refunds it any more. */
  lemma FullRefundCloses(d: Desk, o: int, up: bool, refundId: string, request: Option<int>)
    requires Sound(d) && o in d.ledgers
    ensures var r := RefundFor(d, o, None, up, refundId, request);
      r.1 == OK ==> r.0.ledgers[o].order.refunded == TotalCost(r.0.ledgers[o].order)
  {
    RefundAgrees(d.ledgers[o], None, up, refundId);
  }

  lemma {:induction false} ClosedStaysClosed(d: Desk, steps: seq<Step>, o: int)
    requires Sound(d) && o in d.ledgers && d.ledgers[o].order.refunded == TotalCost(d.ledgers[o].order)
    ensures var r := DeskAfter(d, steps);
      && r.ledgers[o] == d.ledgers[o]
      && Keep(r.receipts, (x: Receipt) => x.order == o) == Keep(d.receipts, (x: Receipt) => x.order == o)
  {
    if steps != [] {
      var rest, s := steps[..|steps| - 1], steps[|steps| - 1];
      ClosedStaysClosed(d, rest, o);
      MoneyIsOnReceipts(d, rest);
      ClosedStep(DeskAfter(d, rest), s, o);
    }
  }

  lemma ClosedStep(d: Desk, s: Step, o: int)
    requires Sound(d) && o in d.ledgers && d.ledgers[o].order.refunded == TotalCost(d.ledgers[o].order)
    ensures DeskNext(d, s).ledgers[o] == d.ledgers[o]
    ensures Keep(DeskNext(d, s).receipts, (x: Receipt) => x.order == o) == Keep(d.receipts, (x: Receipt) => x.order == o)
  {
    var r := DeskNext(d, s);
    if |r.receipts| > |d.receipts| {
      var last := r.receipts[|r.receipts| - 1];
      assert r.receipts == d.receipts + [last];
      assert r.receipts[..|r.receipts| - 1] == d.receipts;
      assert last.order != o;
    }
  }

  /** A full-order request that becomes REFUNDED leaves nothing of its order to refund. */
  lemma {:induction false} FullRequestEmptiesOrder(d: Desk, steps: seq<Step>, id: int)
    requires Sound(d) && id in d.requests && d.requests[id].IsFullOrder()
    requires Entered(d.requests[id].status, DeskAfter(d, steps).requests[id].status)
    ensures var l := DeskAfter(d, steps).ledgers[d.requests[id].order];
      l.order.refunded == TotalCost(l.order)
  {
    var rest, s := steps[..|steps| - 1], steps[|steps| - 1];
    var before := DeskAfter(d, rest);
    MoneyIsOnReceipts(d, rest);
    ScopeStays(d, rest, id);
    if Entered(d.requests[id].status, before.requests[id].status) {
      FullRequestEmptiesOrder(d, rest, id);
      StepBalances(before, s, d.requests[id].order);
    } else {
      StepLifecycle(before, s, id);
      FullRefundCloses(before, d.requests[id].order, s.up, s.refundId, Some(id));
    }
  }

  lemma {:induction false} ScopeStays(d: Desk, steps: seq<Step>, id: int)
    requires WellFormed(d) && id in d.requests
    ensures DeskAfter(d, steps).requests[id].order == d.requests[id].order
    ensures DeskAfter(d, steps).requests[id].item == d.requests[id].item
  {
    if steps != [] {
      ScopeStays(d, steps[..|steps| - 1], id);
      var before := DeskAfter(d, steps[..|steps| - 1]);
      StepTouchesOnly(before, steps[|steps| - 1], id);
    }
  }

  predicate Touches(s: Step, id: int) {
    !s.RefundWhole? && s.id == id
  }

  lemma StepTouchesOnly(d: Desk, s: Step, id: int)
    requires WellFormed(d) && id in d.requests
    ensures DeskNext(d, s).requests[id].order == d.requests[id].order
    ensures DeskNext(d, s).requests[id].item == d.requests[id].item
    ensures !Touches(s, id) ==> DeskNext(d, s).requests[id] == d.requests[id]
  {
  }

  // -------------------------------------------------------------------- batches

  datatype Pick = Pick(id: int, up: bool, refundId: string)

  ghost predicate Selects(ids: seq<int>, requests: map<int, Request>) {
    Distinct(ids) && forall i :: 0 <= i < |ids| ==> ids[i] in requests
  }

  function Ids(picks: seq<Pick>): (ids: seq<int>)
    ensures |ids| == |picks| && forall i :: 0 <= i < |ids| ==> ids[i] == picks[i].id
  {
    seq(|picks|, i requires 0 <= i < |picks| => picks[i].id)
  }

  function Marks(picks: seq<Pick>): (steps: seq<Step>)
    ensures |steps| == |picks|
    ensures forall i :: 0 <= i < |picks| ==> steps[i] == MarkRefunded(picks[i].id, picks[i].up, picks[i].refundId)
  {
    seq(|picks|, i requires 0 <= i < |picks| => MarkRefunded(picks[i].id, picks[i].up, picks[i].refundId))
  }

  /** Item costs of the selected requests of order o that became REFUNDED between d and e. */
  ghost function CostOfFlipped(d: Desk, e: Desk, ids: seq<int>, o: int): real
    requires WellFormed(d) && forall id :: id in ids ==> id in d.requests && id in e.requests
  {
    if ids == [] then 0.0
    else
      var rest, id := ids[..|ids| - 1], ids[|ids| - 1];
      assert id in ids && forall x :: x in rest ==> x in ids;
      CostOfFlipped(d, e, rest, o) + CostIfFlipped(d, e, id, o)
  }

  ghost function CostIfFlipped(d: Desk, e: Desk, id: int, o: int): real
    requires WellFormed(d) && id in d.requests && id in e.requests
  {
    var rr := d.requests[id];
    if rr.order == o && rr.item.Some? && Entered(rr.status, e.requests[id].status)
    then ItemCost(d.ledgers[o].order, rr.item.value) else 0.0
  }

  lemma {:induction false} CostOfFlippedSame(d: Desk, e: Desk, f: Desk, ids: seq<int>, o: int)
    requires WellFormed(d)
    requires forall id :: id in ids ==> id in d.requests && id in e.requests && id in f.requests
    requires forall id :: id in ids ==> e.requests[id] == f.requests[id]
    ensures CostOfFlipped(d, e, ids, o) == CostOfFlipped(d, f, ids, o)
  {
    if ids != [] {
      var rest, id := ids[..|ids| - 1], ids[|ids| - 1];
      assert id in ids && forall x :: x in rest ==> x in ids;
      CostOfFlippedSame(d, e, f, rest, o);
    }
  }

  /** Some selected full-order request of o became REFUNDED between d and e. */
  ghost predicate FullFlips(d: Desk, e: Desk, ids: seq<int>, o: int)
    requires forall id :: id in ids ==> id in d.requests && id in e.requests
  {
    exists id :: id in ids && FullFlip(d, e, id, o)
  }

  ghost predicate FullFlip(d: Desk, e: Desk, id: int, o: int)
    requires id in d.requests && id in e.requests
  {
    d.requests[id].order == o && d.requests[id].IsFullOrder() && Entered(d.requests[id].status, e.requests[id].status)
  }

  lemma FullFlipsGrow(d: Desk, before: Desk, e: Desk, ids: seq<int>, last: int, o: int)
    requires forall id :: id in ids ==> id in d.requests && id in before.requests && id in e.requests
    requires forall id :: id in ids ==> e.requests[id] == before.requests[id]
    requires last in d.requests && last in e.requests
    ensures forall id :: id in ids + [last] ==> id in d.requests && id in e.requests
    ensures FullFlips(d, e, ids + [last], o) <==> FullFlips(d, before, ids, o) || FullFlip(d, e, last, o)
  {
    if FullFlip(d, e, last, o) {
      assert last in ids + [last];
    }
    if id :| id in ids && FullFlip(d, before, id, o) {
      assert id in ids + [last] && FullFlip(d, e, id, o);
    }
    if id :| id in ids + [last] && FullFlip(d, e, id, o) {
      assert id in ids ==> FullFlip(d, before, id, o);
    }
  }

  /** One more request of a batch, which so far led from d to before. */
  lemma MarkAddsItsCost(d: Desk, before: Desk, p: Pick, o: int)
    requires Sound(d) && Sound(before) && p.id in d.requests && o in d.ledgers
    requires before.ledgers.Keys == d.ledgers.Keys && before.requests.Keys == d.requests.Keys
    requires before.requests[p.id] == d.requests[p.id]
    requires Balanced(d, before, o)
    ensures var after := MarkOne(before, p.id, p.up, p.refundId).0;
      && p.id in after.requests && after.ledgers.Keys == d.ledgers.Keys
      && (FullFlip(d, after, p.id, o) ||
            after.ledgers[o].order.refunded == before.ledgers[o].order.refunded + CostIfFlipped(d, after, p.id, o))
  {
    var rr := d.requests[p.id];
    if rr.order == o {
      var asked := Asked(before.ledgers[o].order, rr);
      assert rr.item.Some? ==> asked == Some(ItemCost(d.ledgers[o].order, rr.item.value));
      AskedInCents(before.ledgers[o], rr);
      RefundAgrees(before.ledgers[o], asked, p.up, p.refundId);
    }
  }

  lemma CostsGrow(d: Desk, before: Desk, e: Desk, ids: seq<int>, last: int, o: int)
    requires WellFormed(d) && o in d.ledgers && o in before.ledgers && o in e.ledgers
    requires forall id :: id in ids ==> id in d.requests && id in before.requests && id in e.requests
    requires forall id :: id in ids ==> e.requests[id] == before.requests[id]
    requires last in d.requests && last in e.requests
    requires FullFlips(d, before, ids, o) ||
      before.ledgers[o].order.refunded == d.ledgers[o].order.refunded + CostOfFlipped(d, before, ids, o)
    requires FullFlip(d, e, last, o) ||
      e.ledgers[o].order.refunded == before.ledgers[o].order.refunded + CostIfFlipped(d, e, last, o)
    ensures forall id :: id in ids + [last] ==> id in d.requests && id in e.requests
    ensures FullFlips(d, e, ids + [last], o) ||
      e.ledgers[o].order.refunded == d.ledgers[o].order.refunded + CostOfFlipped(d, e, ids + [last], o)
  {
    FullFlipsGrow(d, before, e, ids, last, o);
    CostOfFlippedSame(d, before, e, ids, o);
    assert (ids + [last])[..|ids|] == ids;
  }

  lemma BatchSelects(d: Desk, picks: seq<Pick>)
    requires WellFormed(d) && Selects(Ids(picks), d.requests)
    ensures forall id :: id in Ids(picks) ==> id in d.requests && id in DeskAfter(d, Marks(picks)).requests
  {
  }

  /** Some full-order request among ids was flipped, or the amount rose by the flipped items' costs. */
  ghost predicate UnlessFull(d: Desk, e: Desk, ids: seq<int>, o: int)
    requires WellFormed(d) && o in d.ledgers
  {
    && o in e.ledgers
    && (forall id :: id in ids ==> id in d.requests && id in e.requests)
    && (FullFlips(d, e, ids, o) ||
          e.ledgers[o].order.refunded == d.ledgers[o].order.refunded + CostOfFlipped(d, e, ids, o))
  }

  /** before is reached from d without touching request p.id; e is one mark of it later. */
  ghost predicate MarksNext(d: Desk, before: Desk, e: Desk, ids: seq<int>, p: Pick, o: int)
    requires o in d.ledgers
  {
    && Sound(before) && before.ledgers.Keys == d.ledgers.Keys && before.requests.Keys == d.requests.Keys
    && p.id in d.requests && before.requests[p.id] == d.requests[p.id] && Balanced(d, before, o)
    && e == MarkOne(before, p.id, p.up, p.refundId).0
    && forall id :: id in ids ==> id in e.requests && id in before.requests && e.requests[id] == before.requests[id]
  }

  lemma MarkUnlessFull(d: Desk, before: Desk, e: Desk, ids: seq<int>, p: Pick, o: int)
    requires Sound(d) && o in d.ledgers
    requires MarksNext(d, before, e, ids, p, o) && UnlessFull(d, before, ids, o)
    ensures UnlessFull(d, e, ids + [p.id], o)
  {
    MarkAddsItsCost(d, before, p, o);
    CostsGrow(d, before, e, ids, p.id, o);
  }

  lemma OneOrderBalances(d: Desk, steps: seq<Step>, e: Desk, o: int)
    requires Sound(d) && o in d.ledgers && e == DeskAfter(d, steps)
    ensures Sound(e) && e.ledgers.Keys == d.ledgers.Keys && e.requests.Keys == d.requests.Keys && Balanced(d, e, o)
  {
    MoneyIsOnReceipts(d, steps);
  }

  lemma BatchMarksNext(d: Desk, picks: seq<Pick>, before: Desk, e: Desk, o: int)
    requires Sound(d) && Selects(Ids(picks), d.requests) && o in d.ledgers && picks != []
    requires before == DeskAfter(d, Marks(picks[..|picks| - 1])) && e == DeskAfter(d, Marks(picks))
    ensures MarksNext(d, before, e, Ids(picks[..|picks| - 1]), picks[|picks| - 1], o)
  {
    OneOrderBalances(d, Marks(picks[..|picks| - 1]), before, o);
    LastOfBatch(d, picks);
    SplitBatch(picks, d.requests);
  }

  lemma {:induction false} BatchUnlessFull(d: Desk, picks: seq<Pick>, e: Desk, o: int)
    requires Sound(d) && Selects(Ids(picks), d.requests) && o in d.ledgers && e == DeskAfter(d, Marks(picks))
    ensures UnlessFull(d, e, Ids(picks), o)
  {
    if picks != [] {
      var rest, p := picks[..|picks| - 1], picks[|picks| - 1];
      var before := DeskAfter(d, Marks(rest));
      SplitBatch(picks, d.requests);
      assert Ids(picks) == Ids(rest) + [p.id];
      BatchMarksNext(d, picks, before, e, o);
      BatchUnlessFull(d, rest, before, o);
      MarkUnlessFull(d, before, e, Ids(rest), p, o);
    }
  }

  /**
   Any batch, full-order and item requests mixed in any order: an order is refunded to its
   total if one of its full-order requests is flipped to REFUNDED; if none is, its refunded
   amount rises by exactly the costs of the items whose requests are flipped.
   */
  lemma BatchRefunds(d: Desk, picks: seq<Pick>, o: int)
    requires Sound(d) && Selects(Ids(picks), d.requests) && o in d.ledgers
    ensures var e, ids := DeskAfter(d, Marks(picks)), Ids(picks);
      && (forall id :: id in ids ==> id in d.requests)
      && (FullFlips(d, e, ids, o) ==> e.ledgers[o].order.refunded == TotalCost(d.ledgers[o].order))
      && (!FullFlips(d, e, ids, o) ==>
            e.ledgers[o].order.refunded - d.ledgers[o].order.refunded == CostOfFlipped(d, e, ids, o))
  {
    BatchUnlessFull(d, picks, DeskAfter(d, Marks(picks)), o);
    FullFlipEmpties(d, picks, o);
  }

  lemma FullFlipEmpties(d: Desk, picks: seq<Pick>, o: int)
    requires Sound(d) && Selects(Ids(picks), d.requests) && o in d.ledgers
    ensures var e, ids := DeskAfter(d, Marks(picks)), Ids(picks);
      && (forall id :: id in ids ==> id in d.requests)
      && (FullFlips(d, e, ids, o) ==> e.ledgers[o].order.refunded == TotalCost(d.ledgers[o].order))
  {
    var e := DeskAfter(d, Marks(picks));
    BatchSelects(d, picks);
    MoneyIsOnReceipts(d, Marks(picks));
    assert Balanced(d, e, o);
    if id :| id in Ids(picks) && FullFlip(d, e, id, o) {
      FullRequestEmptiesOrder(d, Marks(picks), id);
    }
  }

  /** What a receipt says is true of desk d: a request's receipt is for its order and, if it has an item, the item's cost. */
  ghost predicate TrueOf(d: Desk, r: Receipt) {
    && r.order in d.ledgers
    && (r.request.Some? ==>
          && r.request.value in d.requests
          && var rr := d.requests[r.request.value];
          && rr.order == r.order
          && (rr.item.Some? && rr.item.value <= |d.ledgers[r.order].order.items| ==>
                r.amount == ItemCost(d.ledgers[r.order].order, rr.item.value)))
  }

  /** What TrueOf looks at. */
  ghost predicate SameScopes(d: Desk, e: Desk) {
    && e.ledgers.Keys == d.ledgers.Keys && e.requests.Keys == d.requests.Keys
    && (forall o :: o in d.ledgers ==>
          e.ledgers[o].order.items == d.ledgers[o].order.items
          && TotalCost(e.ledgers[o].order) == TotalCost(d.ledgers[o].order))
    && (forall id :: id in d.requests ==>
          e.requests[id].order == d.requests[id].order && e.requests[id].item == d.requests[id].item)
  }

  lemma ScopeOf(d: Desk, e: Desk, id: int)
    requires SameScopes(d, e) && id in d.requests
    ensures id in e.requests && e.requests[id].order == d.requests[id].order && e.requests[id].item == d.requests[id].item
  {
  }

  lemma TrueOfSame(d: Desk, e: Desk, r: Receipt)
    requires SameScopes(d, e) && TrueOf(e, r)
    ensures TrueOf(d, r)
  {
    var a, b := d.ledgers[r.order].order, e.ledgers[r.order].order;
    assert a.items == b.items && TotalCost(a) == TotalCost(b);
    if r.request.Some? {
      var rr := d.requests[r.request.value];
      ScopeOf(d, e, r.request.value);
      if rr.item.Some? && rr.item.value <= |a.items| {
        assert ItemCost(a, rr.item.value) == ItemCost(b, rr.item.value);
      }
    }
  }

  lemma StepReceipt(d: Desk, s: Step)
    requires WellFormed(d)
    ensures var e := DeskNext(d, s);
      e.receipts == d.receipts || exists r :: e.receipts == d.receipts + [r] && TrueOf(d, r)
  {
    var e := DeskNext(d, s);
    if e.receipts != d.receipts {
      var r := e.receipts[|d.receipts|];
      assert e.receipts == d.receipts + [r] && TrueOf(d, r);
    }
  }

  lemma RunKeepsScopes(d: Desk, steps: seq<Step>)
    requires Sound(d)
    ensures SameScopes(d, DeskAfter(d, steps))
  {
    var e := DeskAfter(d, steps);
    MoneyIsOnReceipts(d, steps);
    forall o | o in d.ledgers
      ensures e.ledgers[o].order.items == d.ledgers[o].order.items
      ensures TotalCost(e.ledgers[o].order) == TotalCost(d.ledgers[o].order)
    {
      assert Balanced(d, e, o);
    }
    forall id | id in d.requests
      ensures e.requests[id].order == d.requests[id].order && e.requests[id].item == d.requests[id].item
    {
      ScopeStays(d, steps, id);
    }
  }

  /** Over any sequence of actions every new receipt is true: the money went to the request's own order, at its item's cost. */
  lemma {:induction false} ReceiptsAreTrue(d: Desk, steps: seq<Step>)
    requires Sound(d)
    ensures var e := DeskAfter(d, steps);
      d.receipts <= e.receipts && forall i :: |d.receipts| <= i < |e.receipts| ==> TrueOf(d, e.receipts[i])
  {
    if steps != [] {
      var rest, s := steps[..|steps| - 1], steps[|steps| - 1];
      ReceiptsAreTrue(d, rest);
      RunKeepsScopes(d, rest);
      MoneyIsOnReceipts(d, rest);
      var before := DeskAfter(d, rest);
      StepReceipt(before, s);
      forall r | TrueOf(before, r) ensures TrueOf(d, r) {
        TrueOfSame(d, before, r);
      }
    }
  }

  lemma SplitBatch(picks: seq<Pick>, requests: map<int, Request>)
    requires picks != [] && Selects(Ids(picks), requests)
    ensures var rest, p := picks[..|picks| - 1], picks[|picks| - 1];
      && Ids(picks)[..|picks| - 1] == Ids(rest) && Marks(picks)[..|picks| - 1] == Marks(rest)
      && Selects(Ids(rest), requests) && (forall id :: id in Ids(rest) ==> id in Ids(picks))
      && p.id in Ids(picks) && p.id !in Ids(rest)
  {
  }

  /** The last request of a batch: nothing happened to it before, and nothing to the others by it. */
  lemma LastOfBatch(d: Desk, picks: seq<Pick>)
    requires WellFormed(d) && picks != [] && Selects(Ids(picks), d.requests)
    ensures var rest, p := picks[..|picks| - 1], picks[|picks| - 1];
      var before, e := DeskAfter(d, Marks(rest)), DeskAfter(d, Marks(picks));
      && before.requests[p.id] == d.requests[p.id]
      && e == MarkOne(before, p.id, p.up, p.refundId).0
      && forall id :: id in Ids(rest) ==> id in e.requests && e.requests[id] == before.requests[id]
  {
    var rest, p := picks[..|picks| - 1], picks[|picks| - 1];
    SplitBatch(picks, d.requests);
    var before, last := DeskAfter(d, Marks(rest)), Marks(picks)[|picks| - 1];
    forall s | s in Marks(rest) ensures !Touches(s, p.id) {
      var i :| 0 <= i < |rest| && s == Marks(rest)[i];
      assert Ids(rest)[i] == rest[i].id;
    }
    UntouchedIn(d, Marks(rest), p.id);
    forall id | id in Ids(rest) ensures DeskAfter(d, Marks(picks)).requests[id] == before.requests[id] {
      assert id in Ids(picks);
      StepTouchesOnly(before, last, id);
    }
  }

  lemma {:induction false} UntouchedIn(d: Desk, steps: seq<Step>, id: int)
    requires WellFormed(d) && id in d.requests && forall s :: s in steps ==> !Touches(s, id)
    ensures DeskAfter(d, steps).requests[id] == d.requests[id]
  {
    if steps != [] {
      assert forall s :: s in steps[..|steps| - 1] ==> s in steps;
      UntouchedIn(d, steps[..|steps| - 1], id);
      StepTouchesOnly(DeskAfter(d, steps[..|steps| - 1]), steps[|steps| - 1], id);
    }
  }

  // -------------------------------------------------- the actions, as the code runs them

  function Decisions(decision: Decision, ids: seq<int>): (steps: seq<Step>)
    ensures |steps| == |ids| && forall i :: 0 <= i < |ids| ==> steps[i] == Decide(decision, ids[i])
  {
    seq(|ids|, i requires 0 <= i < |ids| => Decide(decision, ids[i]))
  }

  /** Which requests an action counts: a request canceled before is canceled, and counted, again. */
  lemma CountedIff(requests: map<int, Request>, id: int)
    requires id in requests
    ensures var s := requests[id].status;
      && |EligibleFor(APPROVE, [id], requests)| == (if s == SUBMITTED then 1 else 0)
      && |EligibleFor(REJECT, [id], requests)| == (if s == SUBMITTED || s == APPROVED then 1 else 0)
      && |EligibleFor(CANCEL, [id], requests)| == (if s == REFUNDED || s == REJECTED then 0 else 1)
  {
    assert [id][..0] == [];
  }

  function EligibleFor(decision: Decision, ids: seq<int>, requests: map<int, Request>): seq<int> {
    Keep(ids, id => id in requests && decision.Eligible(requests[id].status))
  }

  lemma DecideOneMore(d: Desk, decision: Decision, ids: seq<int>, i: nat)
    requires WellFormed(d) && i < |ids|
    ensures DeskAfter(d, Decisions(decision, ids[..i + 1]))
         == DecideOne(DeskAfter(d, Decisions(decision, ids[..i])), decision, ids[i])
    ensures |EligibleFor(decision, ids[..i + 1], d.requests)| == |EligibleFor(decision, ids[..i], d.requests)| +
              (if ids[i] in d.requests && decision.Eligible(d.requests[ids[i]].status) then 1 else 0)
  {
    assert ids[..i + 1][..i] == ids[..i];
    assert Decisions(decision, ids[..i + 1])[..i] == Decisions(decision, ids[..i]);
  }

  lemma PicksAreLoaded(picks: seq<Pick>, requests: map<int, Request>)
    requires Selects(Ids(picks), requests)
    ensures forall j :: 0 <= j < |picks| ==> picks[j].id in requests
    ensures forall i, j :: 0 <= i < j < |picks| ==> picks[i].id != picks[j].id
  {
  }

  lemma MarkOneMore(d: Desk, picks: seq<Pick>, i: nat)
    requires WellFormed(d) && i < |picks| && picks[i].id in d.requests
    ensures DeskAfter(d, Marks(picks[..i + 1]))
         == MarkOne(DeskAfter(d, Marks(picks[..i])), picks[i].id, picks[i].up, picks[i].refundId).0
  {
    assert picks[..i + 1][..i] == picks[..i];
    assert Marks(picks[..i + 1])[..i] == Marks(picks[..i]);
  }

  function WholeRefunds(orders: seq<Pick>): (steps: seq<Step>)
    ensures |steps| == |orders|
    ensures forall i :: 0 <= i < |orders| ==> steps[i] == RefundWhole(orders[i].id, orders[i].up, orders[i].refundId)
  {
    seq(|orders|, i requires 0 <= i < |orders| => RefundWhole(orders[i].id, orders[i].up, orders[i].refundId))
  }

  lemma RefundOneMore(d: Desk, picks: seq<Pick>, i: nat)
    requires WellFormed(d) && i < |picks| && picks[i].id in d.ledgers
    ensures DeskAfter(d, WholeRefunds(picks[..i + 1])) ==
      RefundFor(DeskAfter(d, WholeRefunds(picks[..i])), picks[i].id, None, picks[i].up, picks[i].refundId, None).0
  {
    assert picks[..i + 1][..i] == picks[..i];
    assert WholeRefunds(picks[..i + 1])[..i] == WholeRefunds(picks[..i]);
  }

  ghost predicate SameOrders(loaded: map<int, Ledger>, stored: map<int, Ledger>) {
    loaded.Keys == stored.Keys && forall o :: o in stored ==> StaleCopy(loaded[o].order, stored[o].order)
  }

  /** The tables behind the admin pages. The actions work on rows loaded before their loop starts. */
  class ReturnDesk {
    var ledgers: map<int, Ledger>
    var requests: map<int, Request>
    ghost var receipts: seq<Receipt>

    constructor (ledgers: map<int, Ledger>, requests: map<int, Request>)
      ensures Tables() == Desk(ledgers, requests, [])
    {
      this.ledgers, this.requests, receipts := ledgers, requests, [];
    }

    ghost function Tables(): Desk
      reads this
    {
      Desk(ledgers, requests, receipts)
    }

    /** approve, reject and mark_canceled; the result is the count shown to the analyst. */
    method DecideOn(decision: Decision, ids: seq<int>) returns (count: nat)
      requires WellFormed(Tables()) && Selects(ids, requests)
      modifies this`requests
      ensures Tables() == DeskAfter(old(Tables()), Decisions(decision, ids))
      ensures count == |EligibleFor(decision, ids, old(requests))|
    {
      var loaded := requests;
      ghost var start := Tables();
      count := 0;
      for i := 0 to |ids|
        invariant Tables() == DeskAfter(start, Decisions(decision, ids[..i]))
        invariant requests.Keys == loaded.Keys
        invariant forall j :: i <= j < |ids| ==> ids[j] in loaded && requests[ids[j]] == loaded[ids[j]]
        invariant count == |EligibleFor(decision, ids[..i], loaded)|
      {
        var id := ids[i];
        DecideOneMore(start, decision, ids, i);
        if decision.Eligible(loaded[id].status) {
          Save(id, decision);
          count := count + 1;
        }
      }
      assert ids[..|ids|] == ids;
    }

    /** Writes the decided status of one row. */
    method Save(id: int, decision: Decision)
      requires id in requests && decision.Eligible(requests[id].status)
      modifies this`requests
      ensures Tables() == DecideOne(old(Tables()), decision, id)
      ensures requests.Keys == old(requests.Keys)
      ensures forall x :: x in requests && x != id ==> requests[x] == old(requests)[x]
    {
      requests := requests[id := requests[id].(status := decision.Outcome())];
    }

    /** mark_refunded; the results are the numbers shown to the analyst. */
    method MarkAllRefunded(picks: seq<Pick>) returns (refunded: nat, failed: nat)
      requires WellFormed(Tables()) && Selects(Ids(picks), requests)
      modifies this
      ensures Tables() == DeskAfter(old(Tables()), Marks(picks))
      ensures refunded == |receipts| - |old(receipts)| && refunded + failed == |picks|
    {
      var loaded, orders := requests, ledgers;
      ghost var start := Tables();
      PicksAreLoaded(picks, loaded);
      refunded, failed := 0, 0;
      for i := 0 to |picks|
        invariant Tables() == DeskAfter(start, Marks(picks[..i]))
        invariant SameOrders(orders, ledgers)
        invariant requests.Keys == loaded.Keys
        invariant forall j :: i <= j < |picks| ==> requests[picks[j].id] == loaded[picks[j].id]
        invariant refunded == |receipts| - |start.receipts| && refunded + failed == i
      {
        var p := picks[i];
        MarkOneMore(start, picks, i);
        var ok := MarkLoaded(loaded[p.id], orders, p);
        if ok {
          refunded := refunded + 1;
        } else {
          failed := failed + 1;
        }
      }
      assert picks[..|picks|] == picks;
    }

    /** The body of that loop, for a request and orders loaded earlier. */
    method MarkLoaded(rr: Request, orders: map<int, Ledger>, p: Pick) returns (ok: bool)
      requires WellFormed(Tables()) && p.id in requests && requests[p.id] == rr
      requires SameOrders(orders, ledgers)
      modifies this
      ensures (Tables(), ok) == MarkOne(old(Tables()), p.id, p.up, p.refundId)
      ensures |receipts| == |old(receipts)| + (if ok then 1 else 0)
      ensures SameOrders(orders, ledgers)
      ensures requests.Keys == old(requests.Keys)
      ensures forall id :: id in requests && id != p.id ==> requests[id] == old(requests)[id]
    {
      if rr.status != APPROVED {
        return false;
      }
      var instance := orders[rr.order].order;
      assert StaleCopy(instance, ledgers[rr.order].order);
      var amount := if rr.IsFullOrder() then None else Some(ItemCost(instance, rr.item.value));
      assert amount == Asked(ledgers[rr.order].order, rr) by {
        assert TotalCost(instance) == TotalCost(ledgers[rr.order].order);
      }
      StaleInstanceIsEnough(instance, ledgers[rr.order], amount, p.up, p.refundId);
      ok := RefundLoaded(rr.order, instance, amount, p.up, p.refundId, Some(p.id));
      if ok {
        requests := requests[p.id := requests[p.id].(status := REFUNDED, refundId := ledgers[rr.order].order.refundId)];
      }
    }

    /** refund_order on a loaded instance of order o. */
    method RefundLoaded(o: int, instance: Order, amount: Option<real>, up: bool, refundId: string, ghost request: Option<int>)
      returns (ok: bool)
      requires o in ledgers && StaleCopy(instance, ledgers[o].order)
      modifies this`ledgers, this`receipts
      ensures var r := RefundFor(old(Tables()), o, amount, up, refundId, request);
        Tables() == r.0 && ok == (r.1 == OK)
      ensures ok ==> ledgers[o].order.refundId == refundId
      ensures |receipts| == |old(receipts)| + (if ok then 1 else 0)
      ensures forall orders :: SameOrders(orders, old(ledgers)) ==> SameOrders(orders, ledgers)
    {
      StaleInstanceIsEnough(instance, ledgers[o], amount, up, refundId);
      var r := RefundFrom(instance, ledgers[o], amount, up, refundId);
      ok := r.1 == OK;
      if ok {
        receipts := receipts + [Receipt(request, o, Delta(ledgers[o].order, amount))];
        ledgers := ledgers[o := r.0];
      }
    }

    /** issue_full_refund of the orders' admin page. */
    method IssueFullRefunds(picks: seq<Pick>) returns (refunded: nat, failed: nat)
      requires WellFormed(Tables()) && forall i :: 0 <= i < |picks| ==> picks[i].id in ledgers
      modifies this`ledgers, this`receipts
      ensures Tables() == DeskAfter(old(Tables()), WholeRefunds(picks))
      ensures refunded == |receipts| - |old(receipts)| && refunded + failed == |picks|
    {
      var orders := ledgers;
      ghost var start := Tables();
      refunded, failed := 0, 0;
      for i := 0 to |picks|
        invariant Tables() == DeskAfter(start, WholeRefunds(picks[..i]))
        invariant SameOrders(orders, ledgers)
        invariant refunded == |receipts| - |start.receipts| && refunded + failed == i
      {
        var p := picks[i];
        RefundOneMore(start, picks, i);
        var ok := RefundLoaded(p.id, orders[p.id].order, None, p.up, p.refundId, None);
        if ok {
          refunded := refunded + 1;
        } else {
          failed := failed + 1;
        }
      }
      assert picks[..|picks|] == picks;
    }
  }
}
