/**
 The rows the payment flow shares and the SQL statements it issues on them.
 Every function below is one statement, hence one atomic step, and is used both by
 the interleaving model (WebhookRuns) and by the sequential code (Shop).
 */
module PaymentTables {
  import opened Options

  type OrderId = int

  datatype Status = PENDING | PAID | PROCESSING | SHIPPED | DELIVERED | CANCELED

  datatype OrderRow = OrderRow(
    paid: bool, stripeId: string, status: Status,
    fraudScore: int, flagged: bool, fraudNotes: string)

  type Orders = map<OrderId, OrderRow>

  /** What a line takes its stock from: the variant when it has one, else the product. */
  datatype Target = ProductStock(pk: int) | VariantStock(pk: int)

  datatype Line = Line(product: int, variant: Option<int>, quantity: nat) {
    function Target(): Target {
      match variant case Some(v) => VariantStock(v) case None => ProductStock(product)
    }
  }

  /** NULL stock (None) is untracked. */
  type Stock = map<Target, Option<nat>>

  predicate Tracked(stock: Stock, t: Target) {
    t in stock && stock[t].Some?
  }

  /** UPDATE order SET paid, stripe_id, status WHERE id = .. AND paid = false */
  predicate Unpaid(orders: Orders, id: OrderId) {
    id in orders && !orders[id].paid
  }

  function PayIfUnpaid(orders: Orders, id: OrderId, intent: string): Orders {
    if Unpaid(orders, id)
    then orders[id := orders[id].(paid := true, stripeId := intent, status := PAID)]
    else orders
  }

  /** UPDATE order SET fraud_score, is_flagged, fraud_notes WHERE id = .. */
  function WriteFraud(orders: Orders, id: OrderId, score: int, threshold: int, notes: string): Orders {
    if id in orders
    then orders[id := orders[id].(fraudScore := score, flagged := score >= threshold, fraudNotes := notes)]
    else orders
  }

  /** The two columns mark_rules_reviewed saves, from the notes it loaded earlier. */
  function WriteReview(orders: Orders, id: OrderId, loadedNotes: string): Orders {
    if id in orders
    then
      var notes := "reviewed: " + loadedNotes;
      orders[id := orders[id].(flagged := false, fraudNotes := if |notes| > 250 then notes[..250] else notes)]
    else orders
  }

  /** UPDATE .. SET stock = stock - qty WHERE pk = .. AND stock >= qty */
  predicate Enough(stock: Stock, t: Target, qty: nat) {
    Tracked(stock, t) && stock[t].value >= qty
  }

  function TakeIfEnough(stock: Stock, t: Target, qty: nat): Stock {
    if Enough(stock, t, qty) then stock[t := Some(stock[t].value - qty)] else stock
  }

  /** UPDATE .. SET stock = 0 WHERE pk = .. AND stock >= 0 */
  function ClampToZero(stock: Stock, t: Target): Stock {
    if Tracked(stock, t) then stock[t := Some(0)] else stock
  }

  /** Total quantity of a target over the lines of an order. */
  function Ordered(lines: seq<Line>, t: Target): nat {
    if lines == [] then 0
    else Ordered(lines[..|lines| - 1], t) + (var l := lines[|lines| - 1]; if l.Target() == t then l.quantity else 0)
  }

  predicate Mentions(lines: seq<Line>, t: Target) {
    exists l :: l in lines && l.Target() == t
  }

  lemma {:induction false} OrderedUnmentioned(lines: seq<Line>, t: Target)
    requires !Mentions(lines, t)
    ensures Ordered(lines, t) == 0
  {
    if lines != [] {
      assert lines[|lines| - 1] in lines;
      assert forall l :: l in lines[..|lines| - 1] ==> l in lines;
      OrderedUnmentioned(lines[..|lines| - 1], t);
    }
  }

  /** A line without a variant adds its quantity to its product's stock row, and to no other row. */
  lemma OrderedPlainLine(lines: seq<Line>, product: int, quantity: nat, t: Target)
    ensures Ordered(lines + [Line(product, None, quantity)], t) ==
      Ordered(lines, t) + (if t == ProductStock(product) then quantity else 0)
  {
    assert (lines + [Line(product, None, quantity)])[..|lines|] == lines;
  }

  /** A line with a variant adds its quantity to the variant's stock row, and to no other row. */
  lemma OrderedVariantLine(lines: seq<Line>, product: int, variant: int, quantity: nat, t: Target)
    ensures Ordered(lines + [Line(product, Some(variant), quantity)], t) ==
      Ordered(lines, t) + (if t == VariantStock(variant) then quantity else 0)
  {
    assert (lines + [Line(product, Some(variant), quantity)])[..|lines|] == lines;
  }

  /** All pieces of an order. */
  function Pieces(lines: seq<Line>): nat {
    if lines == [] then 0 else Pieces(lines[..|lines| - 1]) + lines[|lines| - 1].quantity
  }

  function OrderedOf(lines: seq<Line>, targets: seq<Target>): nat {
    if targets == [] then 0
    else OrderedOf(lines, targets[..|targets| - 1]) + Ordered(lines, targets[|targets| - 1])
  }

  lemma {:induction false} OrderedOfOneMore(lines: seq<Line>, l: Line, t: Target, targets: seq<Target>)
    requires t == match l.variant case Some(v) => VariantStock(v) case None => ProductStock(l.product)
    requires forall i, j :: 0 <= i < j < |targets| ==> targets[i] != targets[j]
    ensures OrderedOf(lines + [l], targets) == OrderedOf(lines, targets) + (if t in targets then l.quantity else 0)
  {
    if targets != [] {
      var last := targets[|targets| - 1];
      OrderedOfOneMore(lines, l, t, targets[..|targets| - 1]);
      assert targets == targets[..|targets| - 1] + [last];
      match l.variant
      case None => OrderedPlainLine(lines, l.product, l.quantity, last);
      case Some(v) => OrderedVariantLine(lines, l.product, v, l.quantity, last);
    }
  }

  /** What an order takes from the rows it touches, each counted once, is all its pieces. */
  lemma {:induction false} OrderedIsPieces(lines: seq<Line>, targets: seq<Target>)
    requires forall i, j :: 0 <= i < j < |targets| ==> targets[i] != targets[j]
    requires forall l :: l in lines ==>
      (if l.variant.Some? then VariantStock(l.variant.value) else ProductStock(l.product)) in targets
    ensures OrderedOf(lines, targets) == Pieces(lines)
  {
    if lines == [] {
      NothingOrdered(targets);
    } else {
      var rest, l := lines[..|lines| - 1], lines[|lines| - 1];
      assert lines == rest + [l];
      OrderedIsPieces(rest, targets);
      OrderedOfOneMore(rest, l, if l.variant.Some? then VariantStock(l.variant.value) else ProductStock(l.product), targets);
    }
  }

  lemma {:induction false} NothingOrdered(targets: seq<Target>)
    ensures OrderedOf([], targets) == 0
  {
    if targets != [] {
      NothingOrdered(targets[..|targets| - 1]);
    }
  }

  /** What is left of `have` after `want` was ordered: never negative. */
  function Remaining(have: nat, want: nat): nat {
    if want <= have then have - want else 0
  }
}
