/**
 The local refund ledger of an order against Stripe's ledger of its charge.

 Amounts on the order are dollars, Stripe's are whole cents. The refunded_amount column
 has two decimals; storing rounds half up, as PostgreSQL's numeric does.
 */
module Refunds {
  import opened Options

  datatype Item = Item(price: real, quantity: nat) {
    function Cost(): real { price * quantity as real }
  }

  datatype Order = Order(
    paid: bool, stripeId: string, items: seq<Item>, discount: int, refunded: real, refundId: string)

  function TotalBeforeDiscount(items: seq<Item>): real {
    if items == [] then 0.0 else TotalBeforeDiscount(items[..|items| - 1]) + items[|items| - 1].Cost()
  }

  function TotalCost(o: Order): real {
    var total := TotalBeforeDiscount(o.items);
    total - (if o.discount != 0 then total * (o.discount as real / 100.0) else 0.0)
  }

  function RefundableRemaining(o: Order): real {
    TotalCost(o) - o.refunded
  }

  /** Stripe's side: what was charged and what has been given back. */
  datatype Charge = Charge(amount: int, refunded: int)

  /** metric is the running total the refund metric has recorded. */
  datatype Ledger = Ledger(order: Order, charge: Charge, metric: real)

  /** int() of a Decimal: towards zero. */
  function Truncate(x: real): int {
    if x >= 0.0 then x.Floor else -((-x).Floor)
  }

  function Cents(amount: real): int {
    Truncate(amount * 100.0)
  }

  /** A conversion to cents drops the fraction of a cent, towards zero. */
  lemma CentsIs(amount: real)
    ensures amount >= 0.0 ==> Cents(amount) as real <= amount * 100.0 < (Cents(amount) + 1) as real
    ensures amount < 0.0 ==> (Cents(amount) - 1) as real < amount * 100.0 <= Cents(amount) as real
  {
  }

  predicate WholeCents(amount: real) {
    (amount * 100.0).Floor as real == amount * 100.0
  }

  /** What a column of two decimals keeps of x. */
  function Column(x: real): real {
    (x * 100.0 + 0.5).Floor as real / 100.0
  }

  /** Refund.create: None asks for the whole remaining charge. Result None is a StripeError. */
  function StripeRefund(c: Charge, cents: Option<int>, up: bool): Option<Charge> {
    var wanted := if cents.Some? then cents.value else c.amount - c.refunded;
    if up && 1 <= wanted <= c.amount - c.refunded then Some(c.(refunded := c.refunded + wanted)) else None
  }

  datatype Reason = OK | NOT_REFUNDABLE | INVALID_AMOUNT | ALREADY_REFUNDED | STRIPE_ERROR

  /** The guards before Stripe is contacted; OK means it will be. */
  function Guard(o: Order, amount: Option<real>): Reason {
    if !o.paid || o.stripeId == "" then NOT_REFUNDABLE
    else if amount.Some? && amount.value <= 0.0 then INVALID_AMOUNT
    else if o.refunded >= TotalCost(o) then ALREADY_REFUNDED
    else OK
  }

  function Delta(o: Order, amount: Option<real>): real {
    if amount.Some? then amount.value else TotalCost(o) - o.refunded
  }

  /**
   refund_order called with a loaded instance of the order, which may be older than the row.
   up is whether the call to Stripe gets through; refundId is Stripe's answer.
   */
  function RefundFrom(instance: Order, l: Ledger, amount: Option<real>, up: bool, refundId: string): (Ledger, Reason) {
    var sofar := l.order.refunded;
    var guard := Guard(instance.(refunded := sofar), amount);
    if guard != OK then (l, guard)
    else
      var charge := StripeRefund(l.charge, if amount.Some? then Some(Cents(amount.value)) else None, up);
      if charge.None? then (l, STRIPE_ERROR)
      else
        var delta := if amount.Some? then amount.value else TotalCost(instance) - sofar;
        (Ledger(l.order.(refunded := Column(sofar + delta), refundId := refundId), charge.value, l.metric + delta), OK)
  }

  /** refund_order called with an up-to-date instance. */
  function RefundOrder(l: Ledger, amount: Option<real>, up: bool, refundId: string): (Ledger, Reason) {
    RefundFrom(l.order, l, amount, up, refundId)
  }

  predicate StaleCopy(instance: Order, row: Order) {
    instance == row.(refunded := instance.refunded, refundId := instance.refundId)
  }

  /** What a loaded instance remembers as refunded does not matter: the row decides. */
  lemma StaleInstanceIsEnough(instance: Order, l: Ledger, amount: Option<real>, up: bool, refundId: string)
    requires StaleCopy(instance, l.order)
    ensures RefundFrom(instance, l, amount, up, refundId) == RefundOrder(l, amount, up, refundId)
  {
    assert TotalCost(instance) == TotalCost(l.order);
    assert instance.(refunded := l.order.refunded).items == l.order.items;
    assert Guard(instance.(refunded := l.order.refunded), amount) == Guard(l.order, amount);
  }

  /** An instance loaded before other refunds were recorded is refunded as the row would be. */
  lemma OldInstanceRefunds(l: Ledger, refunded: real, oldId: string, amount: Option<real>, up: bool, refundId: string)
    ensures var o := l.order;
      RefundFrom(Order(o.paid, o.stripeId, o.items, o.discount, refunded, oldId), l, amount, up, refundId)
        == RefundFrom(o, l, amount, up, refundId)
  {
    var o := l.order;
    StaleInstanceIsEnough(Order(o.paid, o.stripeId, o.items, o.discount, refunded, oldId), l, amount, up, refundId);
  }

  /** _single_refund_id: the id of the only refund of a charge, else blank. */
  function SingleRefundId(ids: seq<string>): string {
    if |ids| == 1 then ids[0] else ""
  }

  /** _apply_refunded_event on the order of the payment intent; cents is the cumulative amount. */
  function ApplyRefundedEvent(l: Ledger, cents: int, ids: seq<string>): Ledger {
    var amount := cents as real / 100.0;
    var delta := amount - l.order.refunded;
    Ledger(l.order.(refunded := Column(amount), refundId := SingleRefundId(ids)), l.charge,
           if delta > 0.0 then l.metric + delta else l.metric)
  }

  datatype Action =
    | Refund(amount: Option<real>, up: bool, refundId: string)
    | Event(cents: int, ids: seq<string>)

  function Next(l: Ledger, a: Action): Ledger {
    match a
    case Refund(amount, up, id) => RefundOrder(l, amount, up, id).0
    case Event(cents, ids) => ApplyRefundedEvent(l, cents, ids)
  }

  function Run(l: Ledger, acts: seq<Action>): Ledger {
    if acts == [] then l else Next(Run(l, acts[..|acts| - 1]), acts[|acts| - 1])
  }

  /** A run takes its actions one after another. */
  lemma RunOneMore(l: Ledger, acts: seq<Action>, a: Action)
    ensures Run(l, []) == l
    ensures Run(l, acts + [a]) == Next(Run(l, acts), a)
  {
    assert (acts + [a])[..|acts|] == acts;
  }

  // ------------------------------------------------------------- agreement

  lemma ColumnKeepsCents(n: int, x: real)
    requires x * 100.0 == n as real
    ensures Column(x) == x
  {
    assert (n as real + 0.5).Floor == n;
  }

  lemma IntIsWhole(x: real, n: int)
    requires x * 100.0 == n as real
    ensures WholeCents(x)
  {
  }

  lemma {:induction false} CastTimes(m: int, n: nat)
    ensures (m * n) as real == m as real * n as real
  {
    if n > 0 {
      CastTimes(m, n - 1);
      assert m * n == m * (n - 1) + m;
      assert m as real * n as real == m as real * (n - 1) as real + m as real;
    }
  }

  /** An item at cents per piece costs cents * quantity. */
  lemma CostOfCents(i: Item, cents: int)
    requires i.price * 100.0 == cents as real
    ensures i.Cost() * 100.0 == (cents * i.quantity) as real
  {
    CastTimes(cents, i.quantity);
    assert i.Cost() * 100.0 == (i.price * 100.0) * i.quantity as real;
  }

  lemma WholeCentsAre(x: real)
    requires WholeCents(x) && x > 0.0
    ensures Cents(x) >= 1 && Cents(x) as real == x * 100.0
  {
  }

  /** Undiscounted, charged its total, and both sides have given back the same. */
  ghost predicate Agrees(l: Ledger) {
    && l.order.discount == 0
    && l.charge.amount as real == TotalCost(l.order) * 100.0
    && l.charge.refunded as real == l.order.refunded * 100.0
    && 0 <= l.charge.refunded <= l.charge.amount
  }

  /** An undiscounted order charged its total in cents starts in agreement, and WholeCents is being a number of cents. */
  lemma AgreesAtFirst(paid: bool, intent: string, items: seq<Item>, cents: nat)
    requires TotalBeforeDiscount(items) * 100.0 == cents as real
    ensures Agrees(Ledger(Order(paid, intent, items, 0, 0.0, ""), Charge(cents, 0), 0.0))
    ensures WholeCents(TotalBeforeDiscount(items))
  {
    IntIsWhole(TotalBeforeDiscount(items), cents);
  }

  lemma RefundAgrees(l: Ledger, amount: Option<real>, up: bool, id: string)
    requires Agrees(l) && (amount.Some? ==> WholeCents(amount.value))
    ensures var r := RefundOrder(l, amount, up, id);
      && Agrees(r.0) && TotalCost(r.0.order) == TotalCost(l.order)
      && l.order.refunded <= r.0.order.refunded <= TotalCost(l.order)
      && (r.1 == OK ==> r.0.order.refunded == l.order.refunded + Delta(l.order, amount)
                        && r.0.order.refunded > l.order.refunded && up)
      && (r.1 != OK ==> r.0 == l)
  {
    var r := RefundOrder(l, amount, up, id);
    if r.1 == OK {
      if amount.Some? {
        WholeCentsAre(amount.value);
      }
      ColumnKeepsCents(r.0.charge.refunded, l.order.refunded + Delta(l.order, amount));
    }
  }

  /** The order's total: each item's price times its quantity, and the discount percentage off. */
  lemma TotalIs(items: seq<Item>, i: Item, discount: int)
    ensures TotalBeforeDiscount([]) == 0.0
    ensures TotalBeforeDiscount(items + [i]) == TotalBeforeDiscount(items) + i.price * i.quantity as real
    ensures TotalCost(Order(true, "", items, discount, 0.0, "")) * 100.0
      == TotalBeforeDiscount(items) * (100 - discount) as real
  {
    assert (items + [i])[..|items|] == items;
    var total := TotalBeforeDiscount(items);
    assert total * (discount as real / 100.0) * 100.0 == total * discount as real;
    assert total * (100 - discount) as real == total * 100.0 - total * discount as real;
  }

  /** Which reason a refused call gives, in the order of the checks. */
  lemma ReasonIs(l: Ledger, amount: Option<real>, up: bool, id: string)
    ensures var o, reason := l.order, RefundOrder(l, amount, up, id).1;
      if !o.paid || o.stripeId == "" then reason == NOT_REFUNDABLE
      else if amount.Some? && amount.value <= 0.0 then reason == INVALID_AMOUNT
      else if o.refunded >= TotalCost(o) then reason == ALREADY_REFUNDED
      else reason == OK || reason == STRIPE_ERROR
    ensures !up ==> RefundOrder(l, amount, up, id).1 != OK
  {
    assert l.order.(refunded := l.order.refunded) == l.order;
  }

  /** What a refund writes besides the amount: Stripe's refund id, and nothing else of the order. */
  lemma RefundWrites(l: Ledger, amount: Option<real>, up: bool, id: string)
    ensures var r := RefundOrder(l, amount, up, id);
      r.1 == OK ==>
        && r.0.order == Order(l.order.paid, l.order.stripeId, l.order.items, l.order.discount, r.0.order.refunded, id)
        && r.0.charge.amount == l.charge.amount
        && r.0.charge.refunded == (if amount.Some? then l.charge.refunded + Cents(amount.value) else l.charge.amount)
  {
  }

  /** What an event writes: the amount, the refund id when Stripe lists exactly one, else blank, and nothing else. */
  lemma EventWrites(l: Ledger, cents: int, ids: seq<string>)
    ensures var r := ApplyRefundedEvent(l, cents, ids);
      && r.order == Order(l.order.paid, l.order.stripeId, l.order.items, l.order.discount, cents as real / 100.0,
                          if |ids| == 1 then ids[0] else "")
      && r.charge == l.charge
      && r.metric == l.metric + (if cents as real / 100.0 > l.order.refunded
                                 then cents as real / 100.0 - l.order.refunded else 0.0)
  {
    ColumnKeepsCents(cents, cents as real / 100.0);
  }

  /** refundable_remaining is what a call can still get: exactly the amounts up to it go through. */
  lemma RefundSucceedsIff(l: Ledger, amount: Option<real>, up: bool, id: string)
    requires Agrees(l) && (amount.Some? ==> WholeCents(amount.value))
    ensures (RefundOrder(l, amount, up, id).1 == OK) <==>
      && l.order.paid && l.order.stripeId != "" && up && RefundableRemaining(l.order) > 0.0
      && (amount.Some? ==> 0.0 < amount.value <= RefundableRemaining(l.order))
  {
  }

  lemma CurrentEventAgrees(l: Ledger, ids: seq<string>)
    requires Agrees(l)
    ensures Agrees(ApplyRefundedEvent(l, l.charge.refunded, ids))
    ensures ApplyRefundedEvent(l, l.charge.refunded, ids).order.refunded == l.order.refunded
    ensures ApplyRefundedEvent(l, l.charge.refunded, ids).metric == l.metric
  {
    ColumnKeepsCents(l.charge.refunded, l.charge.refunded as real / 100.0);
  }

  /** Every partial amount is in whole cents, and every event carries what Stripe holds when it is applied. */
  ghost predicate InOrder(l: Ledger, acts: seq<Action>) {
    acts != [] ==>
      && InOrder(l, acts[..|acts| - 1])
      && match acts[|acts| - 1]
         case Refund(amount, _, _) => amount.Some? ==> WholeCents(amount.value)
         case Event(cents, _) => cents == Run(l, acts[..|acts| - 1]).charge.refunded
  }

  /**
   Ledger agreement: over any sequence of full and whole-cent partial refunds, Stripe free
   to fail each, and of up-to-date events, 100 * refunded_amount is Stripe's refunded
   cents; the amount never goes down and never passes the order total.
   */
  lemma {:induction false} LedgersAgree(l: Ledger, acts: seq<Action>)
    requires Agrees(l) && InOrder(l, acts)
    ensures Agrees(Run(l, acts)) && TotalCost(Run(l, acts).order) == TotalCost(l.order)
    ensures l.order.refunded <= Run(l, acts).order.refunded <= TotalCost(l.order)
  {
    if acts != [] {
      var rest, a := acts[..|acts| - 1], acts[|acts| - 1];
      LedgersAgree(l, rest);
      var before := Run(l, rest);
      match a
      case Refund(amount, up, id) => RefundAgrees(before, amount, up, id);
      case Event(cents, ids) => CurrentEventAgrees(before, ids);
    }
  }

  /** Once everything is refunded, no refund call contacts Stripe, and nothing changes any more. */
  lemma {:induction false} FullyRefundedIsFinal(l: Ledger, acts: seq<Action>)
    requires Agrees(l) && InOrder(l, acts) && l.order.refunded == TotalCost(l.order)
    ensures var r := Run(l, acts);
      && r.order.refunded == TotalCost(r.order) && r.charge == l.charge && r.metric == l.metric
      && forall amount: Option<real> :: Guard(r.order, amount) != OK
  {
    if acts != [] {
      var rest, a := acts[..|acts| - 1], acts[|acts| - 1];
      FullyRefundedIsFinal(l, rest);
      LedgersAgree(l, rest);
      var before := Run(l, rest);
      match a
      case Refund(amount, up, id) => assert Guard(before.order, amount) != OK;
      case Event(cents, ids) => CurrentEventAgrees(before, ids);
    }
  }

  /**
   A partial amount in fractions of a cent: Stripe truncates, the column rounds, so the
   ledgers still agree after a successful call exactly when the fraction rounds down.
   */
  lemma FractionalCentsAgreeIff(l: Ledger, amount: real, id: string)
    requires Agrees(l) && RefundOrder(l, Some(amount), true, id).1 == OK
    ensures Agrees(RefundOrder(l, Some(amount), true, id).0)
      <==> amount * 100.0 - (amount * 100.0).Floor as real < 0.5
  {
    var r := RefundOrder(l, Some(amount), true, id).0;
    var sofar, cents, fraction := l.charge.refunded, (amount * 100.0).Floor, amount * 100.0 - (amount * 100.0).Floor as real;
    assert Cents(amount) == cents;
    var exact := (l.order.refunded + amount) * 100.0;
    assert exact == (sofar + cents) as real + fraction;
    assert (exact + 0.5).Floor == if fraction < 0.5 then sofar + cents else sofar + cents + 1;
    assert r.order.refunded * 100.0 == (exact + 0.5).Floor as real;
  }

  /** A partial refund of 1.006 dollars: Stripe gives back 100 cents, the order says 1.01. */
  lemma FractionalCentsDiverge(l: Ledger, id: string)
    requires Agrees(l) && l.order.paid && l.order.stripeId != "" && l.charge.refunded == 0 && l.charge.amount >= 100
    ensures var r := RefundOrder(l, Some(1.006), true, id);
      r.1 == OK && r.0.charge.refunded == 100 && r.0.order.refunded == 1.01
  {
  }

  /** p percent of total dollars, in cents, when the total is gross cents. */
  lemma PercentInCents(total: real, gross: int, p: nat)
    requires total * 100.0 == gross as real
    ensures (total * (p as real / 100.0)) * 100.0 == (gross * p) as real / 100.0
  {
    CastTimes(gross, p);
    assert (total * (p as real / 100.0)) * 100.0 == (total * 100.0) * p as real / 100.0;
  }

  lemma ColumnInCents(x: real)
    ensures Column(x) * 100.0 == (x * 100.0 + 0.5).Floor as real
  {
    var n := (x * 100.0 + 0.5).Floor;
    assert n as real / 100.0 * 100.0 == n as real;
  }

  lemma PositiveDollars(x: real, cents: real)
    requires x * 100.0 == cents > 0.0
    ensures x > 0.0
  {
  }

  lemma RoundsBackIff(cents: real, gross: int, off: int)
    requires cents == gross as real - off as real / 100.0 && off >= 0
    ensures ((cents + 0.5).Floor == gross) <==> (off <= 50)
  {
    if off <= 50 {
      assert gross as real <= cents + 0.5 < (gross + 1) as real;
    } else {
      assert cents + 0.5 < gross as real;
    }
  }

  lemma DiscountedTotal(o: Order, gross: int, off: int)
    requires 0 <= o.discount < 100 && gross > 0 && off == gross * o.discount
    requires TotalBeforeDiscount(o.items) * 100.0 == gross as real
    ensures TotalCost(o) * 100.0 == gross as real - off as real / 100.0
    ensures TotalCost(o) > 0.0 && off >= 0
  {
    var total := TotalBeforeDiscount(o.items);
    PercentInCents(total, gross, o.discount);
    assert o.discount == 0 ==> off == 0;
    assert TotalCost(o) == total - (if o.discount != 0 then total * (o.discount as real / 100.0) else 0.0);
    Below(gross, o.discount, off);
    PositiveDollars(TotalCost(o), gross as real - off as real / 100.0);
  }

  lemma Below(gross: int, p: int, off: int)
    requires 0 <= p < 100 && gross > 0 && off == gross * p
    ensures 0 <= off < 100 * gross
  {
    assert gross * (100 - p) > 0;
  }

  lemma FirstFullRefund(l: Ledger, id: string)
    requires l.order.paid && l.order.stripeId != "" && l.order.refunded == 0.0
    requires TotalCost(l.order) > 0.0 && l.charge.amount > 0 && l.charge.refunded == 0
    ensures var r := RefundOrder(l, None, true, id);
      r.1 == OK && r.0.order.refunded == Column(TotalCost(l.order)) && r.0.charge.refunded == l.charge.amount
  {
  }

  /**
   Discounted orders: Stripe was charged the undiscounted total, so a first full refund
   leaves the ledgers agreeing exactly when the discount is under a rounding error.
   */
  lemma DiscountedFullRefundAgreesIff(l: Ledger, gross: int, id: string)
    requires l.order.paid && l.order.stripeId != "" && l.order.refunded == 0.0
    requires 0 <= l.order.discount < 100
    requires gross > 0 && TotalBeforeDiscount(l.order.items) * 100.0 == gross as real
    requires l.charge == Charge(gross, 0)
    ensures var r := RefundOrder(l, None, true, id);
      && r.1 == OK
      && (r.0.order.refunded * 100.0 == r.0.charge.refunded as real <==> gross * l.order.discount <= 50)
  {
    var off := gross * l.order.discount;
    DiscountedTotal(l.order, gross, off);
    FirstFullRefund(l, id);
    RoundsBackIff(TotalCost(l.order) * 100.0, gross, off);
    ColumnInCents(TotalCost(l.order));
  }

  /**
   A full refund of 10.04 dollars less 10 percent: Stripe gives back all 1004 cents, the
   order says 9.04 dollars were refunded, and the metric 9.036.
   */
  lemma DiscountedFullRefundDiverges(l: Ledger, id: string)
    requires l.order.paid && l.order.stripeId != "" && l.order.refunded == 0.0 && l.metric == 0.0
    requires l.order.items == [Item(10.04, 1)] && l.order.discount == 10 && l.charge == Charge(1004, 0)
    ensures var r := RefundOrder(l, None, true, id);
      r.1 == OK && r.0.charge.refunded == 1004 && r.0.order.refunded == 9.04 && r.0.metric == 9.036
  {
    assert l.order.items[..0] == [];
    assert TotalBeforeDiscount(l.order.items) == 10.04;
    assert TotalCost(l.order) == 9.036;
    FirstFullRefund(l, id);
    RefundEffect(l, None, true, id);
    assert (903.6 + 0.5).Floor == 904;
  }

  // --------------------------------------------------------------- the metric

  function Excess(l: Ledger): real {
    l.metric - l.order.refunded
  }

  function Fraction(x: real): real {
    x - x.Floor as real
  }

  /** What the metric gains on the column when delta dollars are refunded: the column rounds, the metric does not. */
  function RoundingGain(delta: real): real {
    var f := Fraction(delta * 100.0);
    (if f < 0.5 then f else f - 1.0) / 100.0
  }

  predicate GoesThrough(l: Ledger, a: Action) {
    a.Refund? && RefundOrder(l, a.amount, a.up, a.refundId).1 == OK
  }

  /** The event carries less than the stored amount. */
  predicate Drops(l: Ledger, a: Action) {
    a.Event? && a.cents as real < l.order.refunded * 100.0
  }

  /** The refund goes through and its fraction of a cent is rounded up. */
  predicate RoundsUp(l: Ledger, a: Action) {
    GoesThrough(l, a) && Fraction(Delta(l.order, a.amount) * 100.0) >= 0.5
  }

  /** The refund goes through and has a fraction of a cent. */
  predicate SplitsCents(l: Ledger, a: Action) {
    GoesThrough(l, a) && Fraction(Delta(l.order, a.amount) * 100.0) != 0.0
  }

  function Gain(l: Ledger, a: Action): real {
    if GoesThrough(l, a) then RoundingGain(Delta(l.order, a.amount))
    else if Drops(l, a) then l.order.refunded - a.cents as real / 100.0
    else 0.0
  }

  function Gains(l: Ledger, acts: seq<Action>): real {
    if acts == [] then 0.0
    else Gains(l, acts[..|acts| - 1]) + Gain(Run(l, acts[..|acts| - 1]), acts[|acts| - 1])
  }

  /** Some action of the run satisfied p when it was taken. */
  ghost predicate Ever(p: (Ledger, Action) -> bool, l: Ledger, acts: seq<Action>) {
    acts != [] && (Ever(p, l, acts[..|acts| - 1]) || p(Run(l, acts[..|acts| - 1]), acts[|acts| - 1]))
  }

  lemma FloorShift(s: int, y: real)
    ensures (s as real + y + 0.5).Floor == s + y.Floor + (if Fraction(y) < 0.5 then 0 else 1)
  {
    var k := y.Floor;
    if Fraction(y) < 0.5 {
      assert (s + k) as real <= s as real + y + 0.5 < (s + k + 1) as real;
    } else {
      assert (s + k + 1) as real <= s as real + y + 0.5 < (s + k + 2) as real;
    }
  }

  lemma ColumnLoss(stored: real, delta: real)
    requires WholeCents(stored)
    ensures WholeCents(Column(stored + delta))
    ensures stored + delta - Column(stored + delta) == RoundingGain(delta)
  {
    var s, y := (stored * 100.0).Floor, delta * 100.0;
    var x, n := stored + delta, s + y.Floor + (if Fraction(y) < 0.5 then 0 else 1);
    FloorShift(s, y);
    assert x * 100.0 == s as real + y;
    ColumnInCents(x);
    assert Column(x) * 100.0 == n as real;
    IntIsWhole(Column(x), n);
    assert (x - Column(x)) * 100.0 == y - y.Floor as real - (if Fraction(y) < 0.5 then 0.0 else 1.0);
  }

  /** What a refund that goes through changes, and what it leaves. */
  lemma RefundEffect(l: Ledger, amount: Option<real>, up: bool, id: string)
    ensures var r := RefundOrder(l, amount, up, id);
      && TotalCost(r.0.order) == TotalCost(l.order)
      && (r.1 != OK ==> r.0 == l)
      && (r.1 == OK ==>
            && r.0.order.refunded == Column(l.order.refunded + Delta(l.order, amount))
            && r.0.metric == l.metric + Delta(l.order, amount))
  {
  }

  lemma EventEffect(l: Ledger, cents: int, ids: seq<string>)
    ensures var r := ApplyRefundedEvent(l, cents, ids);
      && TotalCost(r.order) == TotalCost(l.order)
      && r.order.refunded == cents as real / 100.0 && WholeCents(r.order.refunded)
      && Excess(r) == Excess(l) + Gain(l, Event(cents, ids))
  {
    ColumnKeepsCents(cents, cents as real / 100.0);
  }

  /** The exact effect of one action on the metric, whatever the amount and the total. */
  lemma StepExcess(l: Ledger, a: Action)
    requires WholeCents(l.order.refunded)
    ensures var r := Next(l, a);
      && WholeCents(r.order.refunded) && TotalCost(r.order) == TotalCost(l.order)
      && Excess(r) == Excess(l) + Gain(l, a)
  {
    match a
    case Refund(amount, up, id) =>
      RefundEffect(l, amount, up, id);
      if GoesThrough(l, a) {
        ColumnLoss(l.order.refunded, Delta(l.order, amount));
      }
    case Event(cents, ids) => EventEffect(l, cents, ids);
  }

  /**
   The metric telescopes: over every run of refunds of any amounts and of events in any
   order, what it is ahead of or behind refunded_amount is exactly what rounding gained or
   lost and what dropping events took back. The column itself holds whole cents.
   */
  lemma {:induction false} MetricTelescopes(l: Ledger, acts: seq<Action>)
    requires WholeCents(l.order.refunded)
    ensures var r := Run(l, acts);
      && WholeCents(r.order.refunded) && TotalCost(r.order) == TotalCost(l.order)
      && Excess(r) == Excess(l) + Gains(l, acts)
  {
    if acts != [] {
      MetricTelescopes(l, acts[..|acts| - 1]);
      StepExcess(Run(l, acts[..|acts| - 1]), acts[|acts| - 1]);
    }
  }

  lemma GainSign(l: Ledger, a: Action)
    ensures !RoundsUp(l, a) ==> Gain(l, a) >= 0.0
    ensures !RoundsUp(l, a) ==> (Gain(l, a) == 0.0 <==> !Drops(l, a) && !SplitsCents(l, a))
  {
  }

  /**
   As long as no refund rounds up, the metric is never below refunded_amount, and equals it
   exactly when no refund had a fraction of a cent and no event dropped.
   */
  lemma {:induction false} MetricNeverBelow(l: Ledger, acts: seq<Action>)
    requires WholeCents(l.order.refunded) && Excess(l) == 0.0 && !Ever(RoundsUp, l, acts)
    ensures var r := Run(l, acts);
      && r.metric >= r.order.refunded
      && (r.metric == r.order.refunded <==> !Ever(Drops, l, acts) && !Ever(SplitsCents, l, acts))
  {
    if acts != [] {
      var rest := acts[..|acts| - 1];
      MetricNeverBelow(l, rest);
      MetricTelescopes(l, rest);
      StepExcess(Run(l, rest), acts[|acts| - 1]);
      GainSign(Run(l, rest), acts[|acts| - 1]);
    }
  }

  /**
   From a metric that equals refunded_amount, a refund that goes through leaves it below
   exactly when its fraction of a cent is a half or more, and equal exactly when there is
   none. The fraction of a full refund is that of the order total.
   */
  lemma MetricBelowIff(l: Ledger, amount: Option<real>, up: bool, id: string)
    requires WholeCents(l.order.refunded) && Excess(l) == 0.0 && RefundOrder(l, amount, up, id).1 == OK
    ensures var r := RefundOrder(l, amount, up, id).0;
      var f := Fraction((if amount.Some? then amount.value else TotalCost(l.order)) * 100.0);
      && (r.metric < r.order.refunded <==> f >= 0.5)
      && (r.metric == r.order.refunded <==> f == 0.0)
  {
    StepExcess(l, Refund(amount, up, id));
    if amount.None? {
      FractionOfRest(TotalCost(l.order), l.order.refunded);
    }
  }

  lemma FractionOfRest(total: real, refunded: real)
    requires WholeCents(refunded)
    ensures Fraction((total - refunded) * 100.0) == Fraction(total * 100.0)
  {
    var s, y := (refunded * 100.0).Floor, total * 100.0;
    assert (total - refunded) * 100.0 == y - s as real;
    assert (y - s as real).Floor == y.Floor - s;
  }

  /** The same partial refund of 1.006 dollars: the metric says 1.006, the order 1.01. */
  lemma MetricDiverges(l: Ledger, id: string)
    requires Agrees(l) && l.order.paid && l.order.stripeId != "" && l.charge.refunded == 0 && l.charge.amount >= 100
    requires l.metric == l.order.refunded
    ensures var r := RefundOrder(l, Some(1.006), true, id);
      r.1 == OK && r.0.metric == 1.006 && r.0.order.refunded == 1.01
  {
    FractionalCentsDiverge(l, id);
    RefundEffect(l, Some(1.006), true, id);
  }

  predicate CentsOnly(a: Action) {
    a.Refund? && a.amount.Some? ==> WholeCents(a.amount.value)
  }

  /** Actions in cents: every event, every full refund, and partial refunds of a number of cents. */
  lemma CentsOnlyWhen(amount: real, cents: int, up: bool, id: string, event: int, ids: seq<string>)
    requires amount * 100.0 == cents as real
    ensures CentsOnly(Refund(Some(amount), up, id)) && CentsOnly(Refund(None, up, id)) && CentsOnly(Event(event, ids))
  {
    IntIsWhole(amount, cents);
  }

  lemma WholeCentsDifference(x: real, y: real)
    requires WholeCents(x) && WholeCents(y)
    ensures WholeCents(x - y)
  {
    var m, n := (x * 100.0).Floor, (y * 100.0).Floor;
    assert (x - y) * 100.0 == (m - n) as real;
  }

  lemma CentsStep(l: Ledger, a: Action)
    requires WholeCents(l.order.refunded) && WholeCents(TotalCost(l.order)) && CentsOnly(a)
    ensures !RoundsUp(l, a) && !SplitsCents(l, a)
  {
    if a.Refund? && a.amount.None? {
      WholeCentsDifference(TotalCost(l.order), l.order.refunded);
    }
  }

  lemma {:induction false} CentsNeverSplit(l: Ledger, acts: seq<Action>)
    requires WholeCents(l.order.refunded) && WholeCents(TotalCost(l.order)) && forall a :: a in acts ==> CentsOnly(a)
    ensures !Ever(RoundsUp, l, acts) && !Ever(SplitsCents, l, acts)
  {
    if acts != [] {
      var rest, a := acts[..|acts| - 1], acts[|acts| - 1];
      assert a in acts && forall x :: x in rest ==> x in acts;
      CentsNeverSplit(l, rest);
      MetricTelescopes(l, rest);
      CentsStep(Run(l, rest), a);
    }
  }

  /**
   With totals and partial amounts in whole cents the metric is never below
   refunded_amount, and equals it exactly when no event carried less than the stored amount.
   */
  lemma MetricInCents(l: Ledger, acts: seq<Action>)
    requires WholeCents(l.order.refunded) && WholeCents(TotalCost(l.order)) && Excess(l) == 0.0
    requires forall a :: a in acts ==> CentsOnly(a)
    ensures var r := Run(l, acts);
      && r.metric >= r.order.refunded
      && (r.metric == r.order.refunded <==> !Ever(Drops, l, acts))
  {
    CentsNeverSplit(l, acts);
    MetricNeverBelow(l, acts);
  }

  /** Replaying the latest event adds nothing, to the ledger or to the metric. */
  lemma ReplayAddsNothing(l: Ledger, cents: int, ids: seq<string>)
    ensures var once := ApplyRefundedEvent(l, cents, ids); ApplyRefundedEvent(once, cents, ids) == once
  {
    ColumnKeepsCents(cents, cents as real / 100.0);
  }

  // ---------------------------------------------------- the code on stored rows

  /** A model instance loaded from the order row: what was refunded may be out of date. */
  class OrderInstance {
    var order: Order
    constructor (o: Order)
      ensures order == o
    {
      order := o;
    }
  }

  /** The stored row of one order, Stripe's charge for it, and the refund metric. */
  class Account {
    var row: Order
    var charge: Charge
    var metric: real

    constructor (o: Order, c: Charge)
      ensures Ledgers() == Ledger(o, c, 0.0)
    {
      row, charge, metric := o, c, 0.0;
    }

    ghost function Ledgers(): Ledger
      reads this
    {
      Ledger(row, charge, metric)
    }

    /** What the instance remembers as refunded never matters: the row decides. */
    method Refund(instance: OrderInstance, amount: Option<real>, up: bool, refundId: string) returns (reason: Reason)
      requires StaleCopy(instance.order, row)
      modifies this, instance
      ensures (Ledgers(), reason) == RefundOrder(old(Ledgers()), amount, up, refundId)
      ensures StaleCopy(instance.order, row)
      ensures reason != OK ==> instance.order == old(instance.order)
      ensures reason == OK ==>
                && instance.order.refunded == old(row.refunded) + Delta(old(row), amount)
                && instance.order.refundId == refundId
    {
      if !instance.order.paid || instance.order.stripeId == "" {
        return NOT_REFUNDABLE;
      }
      if amount.Some? && amount.value <= 0.0 {
        return INVALID_AMOUNT;
      }
      var sofar := row.refunded;
      var total := TotalCost(instance.order);
      assert total == TotalCost(row);
      if sofar >= total {
        return ALREADY_REFUNDED;
      }
      var refund := StripeRefund(charge, if amount.Some? then Some(Cents(amount.value)) else None, up);
      if refund.None? {
        return STRIPE_ERROR;
      }
      charge := refund.value;
      var delta := if amount.Some? then amount.value else total - sofar;
      row := row.(refunded := Column(sofar + delta), refundId := refundId);
      instance.order := instance.order.(refunded := sofar + delta, refundId := refundId);
      metric := metric + delta;
      return OK;
    }

    method ApplyEvent(cents: int, ids: seq<string>)
      modifies this
      ensures Ledgers() == ApplyRefundedEvent(old(Ledgers()), cents, ids)
    {
      var amount := cents as real / 100.0;
      var delta := amount - row.refunded;
      row := row.(refunded := Column(amount), refundId := SingleRefundId(ids));
      if delta > 0.0 {
        metric := metric + delta;
      }
    }
  }
}
