/**
 One money total in three forms: the cart in the session, the order's items, and the line
 items sent to Stripe in cents.
 */
module CartMoney {
  import opened Options
  import opened Seqs
  import opened Refunds

  // ------------------------------------------------------------------ line keys

  /** Which line of a cart: a product, or one of its variants. */
  datatype LineId = LineId(product: nat, variant: Option<nat>)

  function Digits(n: nat): string {
    if n < 10 then [('0' as int + n) as char] else Digits(n / 10) + [('0' as int + n % 10) as char]
  }

  /** _cart_key */
  function CartKey(id: LineId): string {
    match id.variant
    case None => Digits(id.product)
    case Some(v) => Digits(id.product) + ":" + Digits(v)
  }

  /** key.split(':')[0] */
  function BeforeColon(key: string): string {
    if key == "" || key[0] == ':' then "" else [key[0]] + BeforeColon(key[1..])
  }

  lemma {:induction false} DigitsAreDigits(n: nat)
    ensures |Digits(n)| >= 1 && forall c :: c in Digits(n) ==> '0' <= c <= '9'
  {
    if n >= 10 {
      DigitsAreDigits(n / 10);
    }
  }

  lemma {:induction false} DigitsDiffer(m: nat, n: nat)
    requires Digits(m) == Digits(n)
    ensures m == n
  {
    DigitsAreDigits(m / 10);
    DigitsAreDigits(n / 10);
    var last := Digits(m)[|Digits(m)| - 1];
    assert last as int == '0' as int + m % 10 == '0' as int + n % 10;
    if m >= 10 && n >= 10 {
      assert Digits(m)[..|Digits(m)| - 1] == Digits(m / 10);
      assert Digits(n)[..|Digits(n)| - 1] == Digits(n / 10);
      DigitsDiffer(m / 10, n / 10);
    }
  }

  lemma {:induction false} BeforeColonOf(digits: string, rest: string)
    requires forall c :: c in digits ==> c != ':'
    requires rest == "" || rest[0] == ':'
    ensures BeforeColon(digits + rest) == digits
  {
    if digits == "" {
      assert digits + rest == rest;
    } else {
      assert digits[0] in digits;
      assert forall c :: c in digits[1..] ==> c in digits;
      assert (digits + rest)[1..] == digits[1..] + rest;
      BeforeColonOf(digits[1..], rest);
    }
  }

  /** The part of the key before the colon finds the line's product again. */
  lemma KeyNamesProduct(id: LineId)
    ensures BeforeColon(CartKey(id)) == Digits(id.product)
  {
    DigitsAreDigits(id.product);
    match id.variant
    case None =>
      assert Digits(id.product) + "" == CartKey(id);
      BeforeColonOf(Digits(id.product), "");
    case Some(v) =>
      assert Digits(id.product) + (":" + Digits(v)) == CartKey(id);
      BeforeColonOf(Digits(id.product), ":" + Digits(v));
  }

  /** Reading a decimal number back. */
  function NumberOf(digits: string): int {
    if digits == "" then 0
    else 10 * NumberOf(digits[..|digits| - 1]) + (digits[|digits| - 1] as int - '0' as int)
  }

  /** Digits is str(n): decimal, reading back as n, and without a leading zero. */
  lemma {:induction false} DigitsRead(n: nat)
    ensures NumberOf(Digits(n)) == n
    ensures n >= 1 ==> Digits(n)[0] != '0'
    ensures n == 0 ==> Digits(n) == "0"
  {
    var s := Digits(n);
    if n >= 10 {
      DigitsRead(n / 10);
      DigitsAreDigits(n / 10);
      assert s[..|s| - 1] == Digits(n / 10) && s[0] == Digits(n / 10)[0];
    } else {
      assert s[..|s| - 1] == "" && s[0] as int == '0' as int + n;
    }
  }

  /** The two shapes of a key. */
  lemma CartKeyIs(product: nat, variant: nat)
    ensures CartKey(LineId(product, None)) == Digits(product)
    ensures CartKey(LineId(product, Some(variant))) == Digits(product) + [':'] + Digits(variant)
  {
  }

  /** Distinct lines never share a key. */
  lemma KeysAreDistinct(a: LineId, b: LineId)
    ensures (CartKey(a) == CartKey(b)) <==> (a == b)
  {
    if CartKey(a) == CartKey(b) {
      KeyNamesProduct(a);
      KeyNamesProduct(b);
      DigitsDiffer(a.product, b.product);
      var n := |Digits(a.product)|;
      if a.variant.Some? && b.variant.Some? {
        assert CartKey(a)[n + 1..] == Digits(a.variant.value);
        assert CartKey(b)[n + 1..] == Digits(b.variant.value);
        DigitsDiffer(a.variant.value, b.variant.value);
      }
    }
  }

  // --------------------------------------------------------------------- carts

  datatype Variant = Variant(id: nat, price: Option<real>)

  datatype Product = Product(id: nat, price: real)

  /** unit_price, with the variant's own price over the product's. */
  function UnitPrice(p: Product, v: Option<Variant>): real {
    if v.Some? && v.value.price.Some? then v.value.price.value else p.price
  }

  function IdOf(p: Product, v: Option<Variant>): LineId {
    LineId(p.id, if v.Some? then Some(v.value.id) else None)
  }

  datatype Line = Line(quantity: nat, price: real, variantId: Option<nat>) {
    function Cost(): real { Item(price, quantity).Cost() }
  }

  /** What a cart means: its lines, in the order they were first added. */
  datatype Basket = Basket(ids: seq<LineId>, lines: map<LineId, Line>)

  ghost predicate Proper(b: Basket) {
    && Distinct(b.ids) && Listed(b)
    && (forall id {:trigger id in b.ids} :: id in b.lines ==> id in b.ids)
    && (forall i :: 0 <= i < |b.ids| ==> b.lines[b.ids[i]].variantId == b.ids[i].variant)
  }

  ghost predicate Listed(b: Basket) {
    forall i :: 0 <= i < |b.ids| ==> b.ids[i] in b.lines
  }

  function AddTo(b: Basket, p: Product, quantity: nat, override: bool, v: Option<Variant>): Basket {
    var id := IdOf(p, v);
    var line := if id in b.lines then b.lines[id] else Line(0, UnitPrice(p, v), id.variant);
    Basket(if id in b.lines then b.ids else b.ids + [id],
           b.lines[id := line.(quantity := if override then quantity else line.quantity + quantity)])
  }

  function RemoveFrom(b: Basket, id: LineId): Basket {
    Basket(Keep(b.ids, x => x != id), b.lines - {id})
  }

  datatype Op = Add(product: Product, quantity: nat, override: bool, variant: Option<Variant>) | Remove(id: LineId)

  function Apply(b: Basket, op: Op): Basket {
    match op
    case Add(p, quantity, override, v) => AddTo(b, p, quantity, override, v)
    case Remove(id) => RemoveFrom(b, id)
  }

  function Fill(ops: seq<Op>): Basket {
    if ops == [] then Basket([], map[]) else Apply(Fill(ops[..|ops| - 1]), ops[|ops| - 1])
  }

  lemma {:induction false} KeepDistinctIds(ids: seq<LineId>, f: LineId -> bool)
    requires Distinct(ids)
    ensures Distinct(Keep(ids, f))
  {
    if ids != [] {
      var rest, last := ids[..|ids| - 1], ids[|ids| - 1];
      KeepDistinctIds(rest, f);
      assert last !in rest;
      assert last !in Keep(rest, f);
    }
  }

  lemma AddIsProper(b: Basket, p: Product, quantity: nat, override: bool, v: Option<Variant>)
    requires Proper(b)
    ensures Proper(AddTo(b, p, quantity, override, v))
  {
  }

  lemma RemoveIsProper(b: Basket, id: LineId)
    requires Proper(b)
    ensures Proper(RemoveFrom(b, id))
  {
    var c := RemoveFrom(b, id);
    KeepDistinctIds(b.ids, x => x != id);
    forall i | 0 <= i < |c.ids| ensures c.ids[i] in c.lines && c.lines[c.ids[i]].variantId == c.ids[i].variant {
      assert c.ids[i] in c.ids;
      var j :| 0 <= j < |b.ids| && b.ids[j] == c.ids[i];
    }
    forall x | x in c.lines ensures x in c.ids {
      assert x in b.ids;
    }
  }

  /** The price a new line of this product, or of its variant, starts with. */
  lemma UnitPriceIs(product: nat, price: real, variant: nat, own: real)
    ensures UnitPrice(Product(product, price), None) == price
    ensures UnitPrice(Product(product, price), Some(Variant(variant, None))) == price
    ensures UnitPrice(Product(product, price), Some(Variant(variant, Some(own)))) == own
  {
  }

  lemma FillOneMore(ops: seq<Op>, op: Op)
    ensures Fill(ops + [op]) == Apply(Fill(ops), op)
  {
    assert (ops + [op])[..|ops|] == ops;
  }

  /**
   What one more add does to any cart: without override it adds to the line's quantity, with
   it replaces it; an existing line keeps its price and place, a new one comes last with the
   variant's own price if it has one, else the product's; every other line is unchanged.
   */
  lemma AddDoes(ops: seq<Op>, p: Product, quantity: nat, override: bool, v: Option<Variant>)
    ensures var b, c := Fill(ops), Fill(ops + [Add(p, quantity, override, v)]);
      var id := LineId(p.id, if v.Some? then Some(v.value.id) else None);
      && id in c.lines
      && c.lines[id].quantity ==
           (if id in b.lines && !override then b.lines[id].quantity + quantity else quantity)
      && c.lines[id].price ==
           (if id in b.lines then b.lines[id].price
            else if v.Some? && v.value.price.Some? then v.value.price.value else p.price)
      && (forall x :: x in c.lines && x != id ==> x in b.lines && c.lines[x] == b.lines[x])
      && (forall x :: x in b.lines ==> x in c.lines)
      && c.ids == (if id in b.lines then b.ids else b.ids + [id])
  {
    FillOneMore(ops, Add(p, quantity, override, v));
  }

  /** What one more removal does: that line is gone, every other line and their order are unchanged. */
  lemma RemoveDoes(ops: seq<Op>, id: LineId)
    ensures var b, c := Fill(ops), Fill(ops + [Remove(id)]);
      && id !in c.lines && id !in c.ids
      && (forall x :: x in b.lines && x != id ==> x in c.lines && c.lines[x] == b.lines[x])
      && (forall x :: x in c.lines ==> x in b.lines)
      && c.ids == Keep(b.ids, x => x != id)
  {
    FillOneMore(ops, Remove(id));
  }

  /** get_total_price over the first n lines. */
  ghost function PriceOf(b: Basket, n: nat): real
    requires Listed(b) && n <= |b.ids|
  {
    if n == 0 then 0.0
    else
      PriceOf(b, n - 1) + b.lines[b.ids[n - 1]].Cost()
  }

  /** len(cart) over the first n lines. */
  ghost function CountOf(b: Basket, n: nat): nat
    requires Listed(b) && n <= |b.ids|
  {
    if n == 0 then 0 else CountOf(b, n - 1) + b.lines[b.ids[n - 1]].quantity
  }

  // ----------------------------------------------------------- order and Stripe

  datatype OrderItem = OrderItem(product: nat, variant: Option<nat>, sale: Item)

  /** The order item of a line; a variant that was deleted meanwhile is left blank. */
  function ItemOf(id: LineId, line: Line, variants: set<nat>): OrderItem {
    OrderItem(id.product, if id.variant.Some? && id.variant.value in variants then id.variant else None,
              Item(line.price, line.quantity))
  }

  /** Whose stock an order item will take: the line's product, and its variant as long as the variant exists. */
  lemma ItemOfIs(product: nat, variant: nat, line: Line, variants: set<nat>)
    ensures ItemOf(LineId(product, None), line, variants) == OrderItem(product, None, Item(line.price, line.quantity))
    ensures ItemOf(LineId(product, Some(variant)), line, variants) ==
      OrderItem(product, if variant in variants then Some(variant) else None, Item(line.price, line.quantity))
  {
  }

  ghost function ItemsOf(b: Basket, variants: set<nat>): (items: seq<OrderItem>)
    requires Listed(b)
    ensures |items| == |b.ids|
    ensures forall i :: 0 <= i < |items| ==> items[i] == ItemOf(b.ids[i], b.lines[b.ids[i]], variants)
  {
    seq(|b.ids|, i requires 0 <= i < |b.ids| => ItemOf(b.ids[i], b.lines[b.ids[i]], variants))
  }

  function Sales(items: seq<OrderItem>): (sales: seq<Item>)
    ensures |sales| == |items|
  {
    seq(|items|, i requires 0 <= i < |items| => items[i].sale)
  }

  datatype LineItem = LineItem(unitAmount: int, quantity: nat)

  function LineItems(sales: seq<Item>): (lines: seq<LineItem>)
    ensures |lines| == |sales|
  {
    seq(|sales|, i requires 0 <= i < |sales| => LineItem(Cents(sales[i].price), sales[i].quantity))
  }

  /** What Stripe charges, in cents. */
  function Charged(lines: seq<LineItem>): int {
    if lines == [] then 0
    else Charged(lines[..|lines| - 1]) + lines[|lines| - 1].unitAmount * lines[|lines| - 1].quantity
  }

  function Pieces(lines: seq<LineItem>): nat {
    if lines == [] then 0 else Pieces(lines[..|lines| - 1]) + lines[|lines| - 1].quantity
  }

  lemma {:induction false} OrderKeepsTheTotal(b: Basket, variants: set<nat>, n: nat)
    requires Listed(b) && n <= |b.ids|
    ensures var sales := Sales(ItemsOf(b, variants))[..n];
      && TotalBeforeDiscount(sales) == PriceOf(b, n)
      && Pieces(LineItems(sales)) == CountOf(b, n)
  {
    var sales := Sales(ItemsOf(b, variants));
    if n > 0 {
      assert sales[..n][..n - 1] == sales[..n - 1];
      assert LineItems(sales[..n])[..n - 1] == LineItems(sales[..n - 1]);
      OrderKeepsTheTotal(b, variants, n - 1);
    }
  }

  lemma LossTimes(loss: real, quantity: real)
    requires loss >= 0.0 && quantity >= 0.0
    ensures loss * quantity >= 0.0
    ensures (loss * quantity == 0.0) <==> (loss == 0.0 || quantity == 0.0)
  {
  }

  /** Truncating a unit price to cents loses what is not whole cents, once for each piece. */
  lemma UnitLoss(s: Item)
    requires s.price >= 0.0
    ensures (Cents(s.price) * s.quantity) as real <= 100.0 * s.Cost()
    ensures ((Cents(s.price) * s.quantity) as real == 100.0 * s.Cost()) <==> (WholeCents(s.price) || s.quantity == 0)
  {
    var cents, quantity := Cents(s.price), s.quantity as real;
    var loss := s.price * 100.0 - cents as real;
    CastTimes(cents, s.quantity);
    LossTimes(loss, quantity);
    assert 100.0 * s.Cost() == (s.price * 100.0) * quantity;
    assert (cents as real + loss) * quantity == cents as real * quantity + loss * quantity;
  }

  /** Each item with a quantity has a price in whole cents. */
  ghost predicate SoldInCents(sales: seq<Item>) {
    forall i :: 0 <= i < |sales| ==> WholeCents(sales[i].price) || sales[i].quantity == 0
  }

  lemma OneMoreSale(sales: seq<Item>)
    requires sales != []
    ensures var n := |sales| - 1;
      && Charged(LineItems(sales)) == Charged(LineItems(sales[..n])) + Cents(sales[n].price) * sales[n].quantity
      && (SoldInCents(sales) <==> SoldInCents(sales[..n]) && (WholeCents(sales[n].price) || sales[n].quantity == 0))
  {
    var n := |sales| - 1;
    assert LineItems(sales)[..n] == LineItems(sales[..n]);
    assert sales == sales[..n] + [sales[n]];
  }

  /** Stripe never charges more than the order's total, and exactly it if and only if the prices are in cents. */
  lemma {:induction false} ChargedIsTotalIff(sales: seq<Item>)
    requires forall i :: 0 <= i < |sales| ==> sales[i].price >= 0.0
    ensures Charged(LineItems(sales)) as real <= 100.0 * TotalBeforeDiscount(sales)
    ensures (Charged(LineItems(sales)) as real == 100.0 * TotalBeforeDiscount(sales)) <==> SoldInCents(sales)
  {
    if sales != [] {
      var n := |sales| - 1;
      ChargedIsTotalIff(sales[..n]);
      OneMoreSale(sales);
      UnitLoss(sales[n]);
      TwoSums(Charged(LineItems(sales[..n])), Cents(sales[n].price) * sales[n].quantity,
              TotalBeforeDiscount(sales[..n]), sales[n].Cost());
    }
  }

  /** Two sums that are bounded part by part are equal exactly when both parts are. */
  lemma TwoSums(a: int, b: int, x: real, y: real)
    requires a as real <= 100.0 * x && b as real <= 100.0 * y
    ensures (a + b) as real <= 100.0 * (x + y)
    ensures ((a + b) as real == 100.0 * (x + y)) <==> (a as real == 100.0 * x && b as real == 100.0 * y)
  {
  }

  // ------------------------------------------------------------- the whole way

  predicate PricedInCents(op: Op) {
    op.Add? ==> UnitPrice(op.product, op.variant) >= 0.0 && WholeCents(UnitPrice(op.product, op.variant))
  }

  /** What the pipeline asks of each add: a price that is a number of cents. */
  lemma PricedInCentsWhen(p: Product, quantity: nat, override: bool, v: Option<Variant>, cents: nat, id: LineId)
    requires UnitPrice(p, v) * 100.0 == cents as real
    ensures PricedInCents(Add(p, quantity, override, v)) && PricedInCents(Remove(id))
  {
    IntIsWhole(UnitPrice(p, v), cents);
  }

  lemma {:induction false} FilledIsProper(ops: seq<Op>)
    requires forall op :: op in ops ==> PricedInCents(op)
    ensures Proper(Fill(ops))
    ensures forall id :: id in Fill(ops).lines ==> Fill(ops).lines[id].price >= 0.0 && WholeCents(Fill(ops).lines[id].price)
  {
    if ops != [] {
      var rest, last := ops[..|ops| - 1], ops[|ops| - 1];
      assert last in ops && forall op :: op in rest ==> op in ops;
      FilledIsProper(rest);
      match last
      case Add(p, quantity, override, v) => AddIsProper(Fill(rest), p, quantity, override, v);
      case Remove(id) => RemoveIsProper(Fill(rest), id);
    }
  }

  /**
   For a cart filled by any sequence of adds, overrides and removals at prices in cents:
   Stripe's charge in cents, 100 times the order's total before discount and 100 times the
   cart's total are one number, and the quantities sum to len(cart).
   */
  lemma MoneyPipeline(ops: seq<Op>, variants: set<nat>)
    requires forall op :: op in ops ==> PricedInCents(op)
    ensures var b := Fill(ops);
      && Proper(b)
      && var sales := Sales(ItemsOf(b, variants));
      && Charged(LineItems(sales)) as real == 100.0 * TotalBeforeDiscount(sales)
      && TotalBeforeDiscount(sales) == PriceOf(b, |b.ids|)
      && Pieces(LineItems(sales)) == CountOf(b, |b.ids|)
  {
    var b := Fill(ops);
    FilledIsProper(ops);
    OrderKeepsTheTotal(b, variants, |b.ids|);
    var sales := Sales(ItemsOf(b, variants));
    assert sales[..|b.ids|] == sales;
    forall i | 0 <= i < |sales| ensures sales[i].price >= 0.0 && WholeCents(sales[i].price) {
      assert b.ids[i] in b.lines;
    }
    ChargedIsTotalIff(sales);
  }

  /** A cart with one line of so many cents a piece: what it counts, costs and is charged. */
  lemma OneLineCart(product: nat, price: real, cents: int, quantity: nat, variants: set<nat>)
    requires price * 100.0 == cents as real && cents >= 0
    ensures var b := Fill([Add(Product(product, price), quantity, false, None)]);
      && b.ids == [LineId(product, None)] && Listed(b)
      && CountOf(b, 1) == quantity && PriceOf(b, 1) == price * quantity as real
      && ItemsOf(b, variants) == [OrderItem(product, None, Item(price, quantity))]
      && LineItems([Item(price, quantity)]) == [LineItem(cents, quantity)]
      && Charged([LineItem(cents, quantity)]) == cents * quantity && Pieces([LineItem(cents, quantity)]) == quantity
  {
    var op := Add(Product(product, price), quantity, false, None);
    AddDoes([], Product(product, price), quantity, false, None);
    assert [] + [op] == [op];
    assert [LineItem(cents, quantity)][..0] == [];
    if cents > 0 {
      WholeCentsAre(price);
    }
    var b := Fill([op]);
    assert b.lines[LineId(product, None)] == Line(quantity, price, None);
    assert ItemsOf(b, variants) == [OrderItem(product, None, Item(price, quantity))];
    assert LineItems([Item(price, quantity)]) == [LineItem(cents, quantity)];
  }

  /** The order made from the cart, charged for what Stripe was asked to charge. */
  ghost function ChargedOrder(ops: seq<Op>, variants: set<nat>, paid: bool, intent: string): Ledger
    requires Listed(Fill(ops))
  {
    var sales := Sales(ItemsOf(Fill(ops), variants));
    Ledger(Order(paid, intent, sales, 0, 0.0, ""), Charge(Charged(LineItems(sales)), 0), 0.0)
  }

  lemma {:induction false} ChargeIsNatural(sales: seq<Item>)
    requires forall i :: 0 <= i < |sales| ==> sales[i].price >= 0.0
    ensures Charged(LineItems(sales)) >= 0
  {
    if sales != [] {
      var n := |sales| - 1;
      ChargeIsNatural(sales[..n]);
      OneMoreSale(sales);
      assert Cents(sales[n].price) * sales[n].quantity >= 0;
    }
  }

  /** Where the refund ledgers start: the order of any cart at prices in cents, once charged, agrees with Stripe. */
  lemma ChargedOrderAgrees(ops: seq<Op>, variants: set<nat>, paid: bool, intent: string)
    requires forall op :: op in ops ==> PricedInCents(op)
    ensures Listed(Fill(ops)) && Agrees(ChargedOrder(ops, variants, paid, intent))
    ensures WholeCents(TotalCost(ChargedOrder(ops, variants, paid, intent).order))
    ensures forall i: Item :: i in ChargedOrder(ops, variants, paid, intent).order.items ==> WholeCents(i.price)
  {
    var b := Fill(ops);
    MoneyPipeline(ops, variants);
    FilledIsProper(ops);
    var sales := Sales(ItemsOf(b, variants));
    forall i | 0 <= i < |sales| ensures sales[i].price >= 0.0 && WholeCents(sales[i].price) {
      assert b.ids[i] in b.lines;
    }
    ChargeIsNatural(sales);
    var l := ChargedOrder(ops, variants, paid, intent);
    assert TotalCost(l.order) == TotalBeforeDiscount(sales);
    IntIsWhole(TotalCost(l.order), l.charge.amount);
  }

  // ------------------------------------------------- the code on session dictionaries

  function KeysOf(ids: seq<LineId>): (keys: seq<string>)
    ensures |keys| == |ids| && forall i :: 0 <= i < |ids| ==> keys[i] == CartKey(ids[i])
  {
    seq(|ids|, i requires 0 <= i < |ids| => CartKey(ids[i]))
  }

  /** A dictionary of lines by key, with its insertion order, holds the lines of b and no others. */
  ghost predicate Holds(keys: seq<string>, lines: map<string, Line>, b: Basket) {
    && Proper(b) && keys == KeysOf(b.ids)
    && (forall i :: 0 <= i < |keys| ==> keys[i] in lines && lines[keys[i]] == b.lines[b.ids[i]])
    && (forall k {:trigger k in keys} :: k in lines ==> k in keys)
  }

  lemma KeyFound(keys: seq<string>, lines: map<string, Line>, b: Basket, id: LineId)
    requires Holds(keys, lines, b)
    ensures (CartKey(id) in lines) <==> (id in b.lines)
    ensures id in b.lines ==> lines[CartKey(id)] == b.lines[id] && b.lines[id].variantId == id.variant
  {
    if CartKey(id) in lines {
      assert CartKey(id) in keys;
      var i :| 0 <= i < |keys| && keys[i] == CartKey(id);
      KeysAreDistinct(b.ids[i], id);
    }
    if id in b.lines {
      assert id in b.ids;
      var i :| 0 <= i < |b.ids| && b.ids[i] == id;
      assert keys[i] == CartKey(id);
    }
  }

  lemma KeepKeys(ids: seq<LineId>, id: LineId)
    ensures Keep(KeysOf(ids), k => k != CartKey(id)) == KeysOf(Keep(ids, x => x != id))
  {
    var keys := KeysOf(ids);
    var f, g := (k: string) => k != CartKey(id), (x: LineId) => x != id;
    var isKey := (k: string, x: LineId) => k == CartKey(x);
    forall i | 0 <= i < |ids| ensures f(keys[i]) == g(ids[i]) && isKey(keys[i], ids[i]) {
      KeysAreDistinct(ids[i], id);
    }
    KeepPairs(keys, ids, f, g, isKey);
    assert forall i :: 0 <= i < |Keep(keys, f)| ==> isKey(Keep(keys, f)[i], Keep(ids, g)[i]);
    assert Keep(keys, f) == KeysOf(Keep(ids, g));
  }

  lemma SetHolds(keys: seq<string>, lines: map<string, Line>, b: Basket, id: LineId, line: Line)
    requires Holds(keys, lines, b) && id in b.lines && line.variantId == id.variant
    ensures Holds(keys, lines[CartKey(id) := line], b.(lines := b.lines[id := line]))
  {
    KeyFound(keys, lines, b, id);
    var c := b.(lines := b.lines[id := line]);
    forall i | 0 <= i < |keys|
      ensures keys[i] in lines && lines[CartKey(id) := line][keys[i]] == c.lines[c.ids[i]]
    {
      KeysAreDistinct(b.ids[i], id);
    }
  }

  lemma AppendHolds(keys: seq<string>, lines: map<string, Line>, b: Basket, id: LineId, line: Line)
    requires Holds(keys, lines, b) && id !in b.lines && line.variantId == id.variant
    ensures Holds(keys + [CartKey(id)], lines[CartKey(id) := line], Basket(b.ids + [id], b.lines[id := line]))
  {
    var c := Basket(b.ids + [id], b.lines[id := line]);
    var more := keys + [CartKey(id)];
    assert more == KeysOf(c.ids);
    forall i | 0 <= i < |more|
      ensures more[i] in lines[CartKey(id) := line] && lines[CartKey(id) := line][more[i]] == c.lines[c.ids[i]]
    {
      if i < |keys| {
        KeysAreDistinct(b.ids[i], id);
      }
    }
  }

  /** Removing a key leaves the other lines where they were. */
  lemma RemoveMaps(keys: seq<string>, lines: map<string, Line>, b: Basket, id: LineId, other: LineId)
    requires Holds(keys, lines, b) && other in b.lines && other != id
    ensures CartKey(other) in lines - {CartKey(id)}
    ensures (lines - {CartKey(id)})[CartKey(other)] == RemoveFrom(b, id).lines[other]
  {
    KeysAreDistinct(other, id);
    KeyFound(keys, lines, b, other);
  }

  lemma RemoveHolds(keys: seq<string>, lines: map<string, Line>, b: Basket, id: LineId)
    requires Holds(keys, lines, b)
    ensures Holds(Keep(keys, k => k != CartKey(id)), lines - {CartKey(id)}, RemoveFrom(b, id))
  {
    KeepKeys(b.ids, id);
    RemoveIsProper(b, id);
    var fewer, less, c := Keep(keys, k => k != CartKey(id)), lines - {CartKey(id)}, RemoveFrom(b, id);
    assert fewer == KeysOf(c.ids);
    forall i | 0 <= i < |fewer| ensures fewer[i] in less && less[fewer[i]] == c.lines[c.ids[i]] {
      assert c.ids[i] in c.lines;
      RemoveMaps(keys, lines, b, id, c.ids[i]);
    }
    forall k | k in less ensures k in fewer {
      assert k in keys;
    }
  }

  /** The values of the dictionary, one for each line of b in order. */
  ghost predicate Values(keys: seq<string>, lines: map<string, Line>, b: Basket) {
    && Listed(b) && |keys| == |b.ids|
    && forall i :: 0 <= i < |keys| ==> keys[i] in lines && lines[keys[i]] == b.lines[b.ids[i]]
  }

  method SumPrices(keys: seq<string>, lines: map<string, Line>, ghost b: Basket) returns (total: real)
    requires Values(keys, lines, b)
    ensures total == PriceOf(b, |b.ids|)
  {
    total := 0.0;
    for i := 0 to |keys|
      invariant total == PriceOf(b, i)
    {
      total := total + lines[keys[i]].Cost();
    }
  }

  method SumQuantities(keys: seq<string>, lines: map<string, Line>, ghost b: Basket) returns (pieces: nat)
    requires Values(keys, lines, b)
    ensures pieces == CountOf(b, |b.ids|)
  {
    pieces := 0;
    for i := 0 to |keys|
      invariant pieces == CountOf(b, i)
    {
      pieces := pieces + lines[keys[i]].quantity;
    }
  }

  class Cart {
    var keys: seq<string>
    var lines: map<string, Line>
    ghost var basket: Basket

    ghost predicate Valid()
      reads this
    {
      Holds(keys, lines, basket)
    }

    constructor ()
      ensures Valid() && basket == Fill([])
    {
      keys, lines, basket := [], map[], Basket([], map[]);
    }

    method Add(product: Product, quantity: nat, override: bool, variant: Option<Variant>)
      requires Valid()
      modifies this
      ensures Valid() && basket == AddTo(old(basket), product, quantity, override, variant)
    {
      var id := IdOf(product, variant);
      var cartKey := CartKey(id);
      KeyFound(keys, lines, basket, id);
      if cartKey !in lines {
        var line := Line(0, UnitPrice(product, variant), id.variant);
        AppendHolds(keys, lines, basket, id, line);
        keys, lines := keys + [cartKey], lines[cartKey := line];
        basket := Basket(basket.ids + [id], basket.lines[id := line]);
      }
      var line := lines[cartKey].(quantity := if override then quantity else lines[cartKey].quantity + quantity);
      SetHolds(keys, lines, basket, id, line);
      lines := lines[cartKey := line];
      basket := basket.(lines := basket.lines[id := line]);
      assert basket.lines == AddTo(old(basket), product, quantity, override, variant).lines;
    }

    method Remove(id: LineId)
      requires Valid()
      modifies this
      ensures Valid() && basket == RemoveFrom(old(basket), id)
    {
      var cartKey := CartKey(id);
      KeyFound(keys, lines, basket, id);
      if cartKey in lines {
        RemoveHolds(keys, lines, basket, id);
        keys, lines := Keep(keys, k => k != cartKey), lines - {cartKey};
        basket := RemoveFrom(basket, id);
      } else {
        KeepAll(basket.ids, x => x != id);
        assert basket.lines - {id} == basket.lines;
      }
    }

    method Length() returns (pieces: nat)
      requires Valid()
      ensures pieces == CountOf(basket, |basket.ids|)
    {
      pieces := SumQuantities(keys, lines, basket);
    }

    method GetTotalPrice() returns (total: real)
      requires Valid()
      ensures total == PriceOf(basket, |basket.ids|)
    {
      total := SumPrices(keys, lines, basket);
    }

    /**
     The loop of order_create. Looking up a product that is gone raises: then ok is false,
     the items made so far stay, and the cart keeps its lines.
     */
    method CreateItems(products: seq<nat>, variants: set<nat>) returns (items: seq<OrderItem>, ok: bool)
      requires Valid()
      modifies this
      ensures Valid()
      ensures ok ==>
                && (forall i :: 0 <= i < |old(basket.ids)| ==> old(basket.ids)[i].product in products)
                && items == ItemsOf(old(basket), variants) && basket == Fill([])
      ensures !ok ==>
                && basket == old(basket) && items < ItemsOf(basket, variants)
                && basket.ids[|items|].product !in products
    {
      var byId := ProductsById(products);
      ghost var wanted := ItemsOf(basket, variants);
      items := [];
      for i := 0 to |keys|
        invariant Valid() && keys == old(keys) && basket == old(basket) && items == wanted[..i]
        invariant forall j :: 0 <= j < i ==> basket.ids[j].product in products
      {
        var made, item := CreateItem(i, byId, products, variants);
        if !made {
          return items, false;
        }
        items := items + [item];
      }
      keys, lines, basket := [], map[], Basket([], map[]);
      ok := true;
    }

    method CreateItem(i: nat, byId: map<string, nat>, ghost products: seq<nat>, variants: set<nat>)
      returns (made: bool, item: OrderItem)
      requires Valid() && i < |keys|
      requires ById(byId, products)
      ensures i < |basket.ids| && basket.ids[i] in basket.lines
      ensures made == (basket.ids[i].product in products)
      ensures made ==> item == ItemOf(basket.ids[i], basket.lines[basket.ids[i]], variants)
    {
      ghost var id := basket.ids[i];
      KeyNamesProduct(id);
      var name := BeforeColon(keys[i]);
      if name !in byId {
        return false, OrderItem(0, None, Item(0.0, 0));
      }
      DigitsDiffer(byId[name], id.product);
      var line := lines[keys[i]];
      var variant := if line.variantId.Some? && line.variantId.value in variants then line.variantId else None;
      return true, OrderItem(byId[name], variant, Item(line.price, line.quantity));
    }
  }

  ghost predicate ById(byId: map<string, nat>, rows: seq<nat>) {
    && (forall name :: name in byId ==> byId[name] in rows && name == Digits(byId[name]))
    && (forall p :: p in rows ==> Digits(p) in byId)
  }

  /** products by str(id) */
  method ProductsById(rows: seq<nat>) returns (byId: map<string, nat>)
    ensures ById(byId, rows)
  {
    byId := map[];
    for i := 0 to |rows|
      invariant forall name :: name in byId ==> byId[name] in rows && name == Digits(byId[name])
      invariant forall j :: 0 <= j < i ==> Digits(rows[j]) in byId
    {
      byId := byId[Digits(rows[i]) := rows[i]];
    }
  }

  /** The line items of the checkout session. */
  method StripeLineItems(items: seq<OrderItem>) returns (lines: seq<LineItem>)
    ensures lines == LineItems(Sales(items))
  {
    lines := [];
    for i := 0 to |items|
      invariant lines == LineItems(Sales(items))[..i]
    {
      lines := lines + [LineItem(Cents(items[i].sale.price), items[i].sale.quantity)];
    }
  }
}
