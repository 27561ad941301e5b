/**
 The same code run alone, in the form the source has it: rows changed in place.
 Where the source walks a dictionary of targets, any order of its keys is allowed.
 */
module Shop {
  import opened Options
  import opened PaymentTables

  /** What the order leaves of every stock row. */
  ghost function AfterOrder(stock: Stock, lines: seq<Line>): Stock {
    map t | t in stock ::
      match stock[t]
      case None => None
      case Some(have) => Some(Remaining(have, Ordered(lines, t)))
  }

  /** evaluate() either raises (None) or returns a score and notes. */
  datatype Score = Score(score: int, threshold: int, notes: string)

  class Shop {
    var orders: Orders
    var stock: Stock
    var invoices: seq<OrderId>

    constructor (orders: Orders, stock: Stock)
      ensures this.orders == orders && this.stock == stock && invoices == []
    {
      this.orders, this.stock, invoices := orders, stock, [];
    }

    /** The targets dictionary: tracked targets of the lines with their total quantities. */
    method CollectTargets(lines: seq<Line>) returns (targets: map<Target, nat>)
      ensures forall t :: t in targets <==> Mentions(lines, t) && Tracked(stock, t)
      ensures forall t :: t in targets ==> targets[t] == Ordered(lines, t)
    {
      targets := map[];
      for i := 0 to |lines|
        invariant forall t :: t in targets <==> Mentions(lines[..i], t) && Tracked(stock, t)
        invariant forall t :: t in targets ==> targets[t] == Ordered(lines[..i], t)
      {
        assert lines[..i + 1][..i] == lines[..i];
        assert lines[..i + 1] == lines[..i] + [lines[i]];
        var t := lines[i].Target();
        if !Mentions(lines[..i], t) {
          OrderedUnmentioned(lines[..i], t);
        }
        if Tracked(stock, t) {
          var sofar := if t in targets then targets[t] else 0;
          targets := targets[t := sofar + lines[i].quantity];
        }
      }
      assert lines[..|lines|] == lines;
    }

    method DecrementForOrder(lines: seq<Line>)
      modifies this`stock
      ensures stock == AfterOrder(old(stock), lines)
    {
      var targets := CollectTargets(lines);
      var todo := targets.Keys;
      while todo != {}
        invariant todo <= targets.Keys && stock.Keys == old(stock).Keys
        invariant forall t :: t in stock ==>
          stock[t] == if t in targets && t !in todo then AfterOrder(old(stock), lines)[t] else old(stock)[t]
        decreases todo
      {
        var t :| t in todo;
        var qty := targets[t];
        if Enough(stock, t, qty) {
          stock := TakeIfEnough(stock, t, qty);
        } else {
          stock := ClampToZero(stock, t);
        }
        todo := todo - {t};
      }
      forall t | t in stock && t !in targets ensures stock[t] == AfterOrder(old(stock), lines)[t] {
        if !Mentions(lines, t) {
          OrderedUnmentioned(lines, t);
        }
      }
      assert stock == AfterOrder(old(stock), lines);
    }

    /** The handler of a paid "checkout.session.completed" event; the result is the HTTP status. */
    method CompletedCheckout(id: OrderId, intent: string, lines: seq<Line>, fraud: Option<Score>)
      returns (status: int)
      modifies this
      ensures id !in old(orders) ==> status == 400
      ensures id in old(orders) ==> status == 200
      ensures !Unpaid(old(orders), id) ==>
        orders == old(orders) && stock == old(stock) && invoices == old(invoices)
      ensures Unpaid(old(orders), id) ==>
        && orders.Keys == old(orders).Keys
        && (forall o :: o in orders && o != id ==> orders[o] == old(orders)[o])
        && orders[id].paid && orders[id].stripeId == intent && orders[id].status == PAID
        && (match fraud
            case None =>
              && orders[id].fraudScore == old(orders)[id].fraudScore
              && orders[id].flagged == old(orders)[id].flagged
              && orders[id].fraudNotes == old(orders)[id].fraudNotes
            case Some(f) =>
              && orders[id].fraudScore == f.score
              && orders[id].flagged == (f.score >= f.threshold)
              && orders[id].fraudNotes == f.notes)
        && stock == AfterOrder(old(stock), lines)
        && invoices == old(invoices) + [id]
    {
      if id !in orders {
        return 400;
      }
      var updated := Unpaid(orders, id);
      orders := PayIfUnpaid(orders, id, intent);
      if updated {
        if fraud.Some? {
          orders := WriteFraud(orders, id, fraud.value.score, fraud.value.threshold, fraud.value.notes);
        }
        DecrementForOrder(lines);
        invoices := invoices + [id];
      }
      return 200;
    }
  }

  /** The target of a line in the lines' own terms: the variant's row when there is a variant. */
  lemma OneLineTakes(stock: Stock, l: Line, t: Target)
    requires t in stock
    ensures var taken := match l.variant case Some(v) => VariantStock(v) case None => ProductStock(l.product);
      AfterOrder(stock, [l])[t] ==
        if t == taken && stock[t].Some? then Some(if l.quantity <= stock[t].value then stock[t].value - l.quantity else 0)
        else stock[t]
  {
    assert [] + [l] == [l];
    match l.variant
    case None => OrderedPlainLine([], l.product, l.quantity, t);
    case Some(v) => OrderedVariantLine([], l.product, v, l.quantity, t);
  }

  /** Alone or interleaved: an order after another leaves what the two leave together, in either order. */
  lemma OrdersCommute(stock: Stock, a: seq<Line>, b: seq<Line>)
    ensures AfterOrder(AfterOrder(stock, a), b) == AfterOrder(stock, a + b)
    ensures AfterOrder(AfterOrder(stock, b), a) == AfterOrder(stock, a + b)
  {
    forall t | t in stock ensures AfterOrder(AfterOrder(stock, a), b)[t] == AfterOrder(stock, a + b)[t]
                          ensures AfterOrder(AfterOrder(stock, b), a)[t] == AfterOrder(stock, a + b)[t] {
      OrderedConcat(a, b, t);
    }
  }

  lemma {:induction false} OrderedConcat(a: seq<Line>, b: seq<Line>, t: Target)
    ensures Ordered(a + b, t) == Ordered(a, t) + Ordered(b, t)
  {
    if b == [] {
      assert a + b == a;
    } else {
      assert (a + b)[..|a + b| - 1] == a + b[..|b| - 1];
      OrderedConcat(a, b[..|b| - 1], t);
    }
  }
}
