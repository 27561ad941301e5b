/** Facet filtering and facet counts over an ordered set of products. */
module Facets {
  import opened Options
  import opened Seqs

  datatype Review = Review(rating: int, approved: bool)

  datatype Product = Product(
    id: int, name: string, category: string, price: real, available: bool,
    reviews: seq<Review>, stock: Option<nat>)
  {
    /** The rating_avg annotation: mean approved rating, None when there is none. */
    function RatingAverage(): Option<real> {
      var approved := Keep(reviews, (r: Review) => r.approved);
      if approved == [] then None else Some(RatingSum(approved) as real / |approved| as real)
    }

    /** rating_avg >= threshold; NULL never satisfies it. */
    predicate RatedAtLeast(threshold: int) {
      RatingAverage().Some? && RatingAverage().value >= threshold as real
    }

    /** stock > 0, or untracked. */
    predicate InStock() {
      stock.None? || stock.value > 0
    }
  }

  function RatingSum(reviews: seq<Review>): int {
    if reviews == [] then 0 else RatingSum(reviews[..|reviews| - 1]) + reviews[|reviews| - 1].rating
  }

  function ApprovedSum(reviews: seq<Review>): int {
    if reviews == [] then 0
    else ApprovedSum(reviews[..|reviews| - 1]) + (var r := reviews[|reviews| - 1]; if r.approved then r.rating else 0)
  }

  function ApprovedCount(reviews: seq<Review>): nat {
    if reviews == [] then 0
    else ApprovedCount(reviews[..|reviews| - 1]) + (if reviews[|reviews| - 1].approved then 1 else 0)
  }

  lemma {:induction false} ApprovedOnly(reviews: seq<Review>)
    ensures var approved := Keep(reviews, (r: Review) => r.approved);
      RatingSum(approved) == ApprovedSum(reviews) && |approved| == ApprovedCount(reviews)
  {
    if reviews != [] {
      var rest, last := reviews[..|reviews| - 1], reviews[|reviews| - 1];
      ApprovedOnly(rest);
      var kept := Keep(rest, (r: Review) => r.approved);
      assert (kept + [last])[..|kept|] == kept;
    }
  }

  lemma MeanAtLeast(sum: int, count: nat, threshold: int)
    requires count > 0
    ensures sum as real / count as real >= threshold as real <==> sum >= threshold * count
  {
    var mean, n := sum as real / count as real, count as real;
    assert mean * n == sum as real;
    assert (threshold * count) as real == threshold as real * n;
    if mean >= threshold as real {
      assert (mean - threshold as real) * n >= 0.0;
    } else {
      assert (threshold as real - mean) * n > 0.0;
    }
  }

  /** Who passes a rating threshold: only approved reviews count, there must be one, and the exact threshold is enough. */
  lemma RatedIff(p: Product, threshold: int)
    ensures p.RatedAtLeast(threshold) <==>
      ApprovedCount(p.reviews) > 0 && ApprovedSum(p.reviews) >= threshold * ApprovedCount(p.reviews)
  {
    ApprovedOnly(p.reviews);
    if ApprovedCount(p.reviews) > 0 {
      MeanAtLeast(ApprovedSum(p.reviews), ApprovedCount(p.reviews), threshold);
    }
  }

  /** Untracked stock and positive stock are in, zero is out. */
  lemma InStockIff(p: Product)
    ensures p.InStock() <==> p.stock != Some(0)
  {
  }

  /** A price band [low, high); None is unbounded. */
  datatype Band = Band(key: string, low: Option<real>, high: Option<real>) {
    predicate Holds(price: real) {
      (low.None? || price >= low.value) && (high.None? || price < high.value)
    }
  }

  const PRICE_BANDS: seq<Band> := [
    Band("under-25", None, Some(25.0)),
    Band("25-50", Some(25.0), Some(50.0)),
    Band("50-100", Some(50.0), Some(100.0)),
    Band("100-plus", Some(100.0), None)]

  const PRICE_KEYS: seq<string> := ["under-25", "25-50", "50-100", "100-plus"]

  const RATING_STEPS: seq<int> := [4, 3, 2]

  datatype Selection = Selection(
    categories: seq<string>, prices: seq<string>, rating: Option<int>, stock: bool)
  {
    predicate IsActive() {
      categories != [] || prices != [] || (rating.Some? && rating.value != 0) || stock
    }
  }

  /** The first band in the list that holds the price. */
  function PriceBandFor(bands: seq<Band>, price: real): Option<string> {
    if bands == [] then None
    else if bands[0].Holds(price) then Some(bands[0].key)
    else PriceBandFor(bands[1..], price)
  }

  /** The condition of one selected key: the bounds of the first band of that name. */
  function BandOf(bands: seq<Band>, key: string): Option<Band> {
    if bands == [] then None
    else if bands[0].key == key then Some(bands[0])
    else BandOf(bands[1..], key)
  }

  predicate CategoryOk(p: Product, sel: Selection) {
    sel.categories == [] || p.category in sel.categories
  }

  /** Bands are or-ed; a key that names no band adds no condition, so only such keys leave no filter. */
  predicate PriceOk(p: Product, sel: Selection) {
    || (forall k :: k in sel.prices ==> BandOf(PRICE_BANDS, k).None?)
    || (exists k :: k in sel.prices && BandOf(PRICE_BANDS, k).Some? && BandOf(PRICE_BANDS, k).value.Holds(p.price))
  }

  /** The three filter calls, each made only when its facet asks for it. */
  function ApplyFacets(base: seq<Product>, sel: Selection): seq<Product> {
    var byConditions :=
      if sel.categories != [] || sel.prices != []
      then Keep(base, (p: Product) => CategoryOk(p, sel) && PriceOk(p, sel)) else base;
    var byRating :=
      if sel.rating.Some? then Keep(byConditions, (p: Product) => p.RatedAtLeast(sel.rating.value)) else byConditions;
    if sel.stock then Keep(byRating, (p: Product) => p.InStock()) else byRating
  }

  /** Or-within, and-across. */
  predicate Matches(p: Product, sel: Selection) {
    && CategoryOk(p, sel) && PriceOk(p, sel)
    && (sel.rating.Some? ==> p.RatedAtLeast(sel.rating.value))
    && (sel.stock ==> p.InStock())
  }

  function Listing(base: seq<Product>, sel: Selection): seq<Product> {
    Keep(base, (p: Product) => Matches(p, sel))
  }

  /** The staged filters are one filter by the conjunction. */
  lemma ApplyFacetsIsListing(base: seq<Product>, sel: Selection)
    ensures ApplyFacets(base, sel) == Listing(base, sel)
  {
    var c := (p: Product) => CategoryOk(p, sel) && PriceOk(p, sel);
    var r := (p: Product) => sel.rating.Some? ==> p.RatedAtLeast(sel.rating.value);
    var t := (p: Product) => sel.stock ==> p.InStock();
    var cr := (p: Product) => c(p) && r(p);
    var one := Keep(base, c);
    if sel.categories == [] && sel.prices == [] {
      KeepAll(base, c);
    } else {
      KeepSame(base, (p: Product) => CategoryOk(p, sel) && PriceOk(p, sel), c);
    }
    var two := Keep(one, r);
    if sel.rating.None? {
      KeepAll(one, r);
    } else {
      KeepSame(one, (p: Product) => p.RatedAtLeast(sel.rating.value), r);
    }
    if !sel.stock {
      KeepAll(two, t);
    } else {
      KeepSame(two, (p: Product) => p.InStock(), t);
    }
    KeepTwice(base, c, r, cr);
    KeepTwice(base, cr, t, (p: Product) => Matches(p, sel));
  }

  datatype Facet = CATEGORY | PRICE | RATING | STOCK

  function Without(sel: Selection, f: Facet): Selection {
    match f
    case CATEGORY => sel.(categories := [])
    case PRICE => sel.(prices := [])
    case RATING => sel.(rating := None)
    case STOCK => sel.(stock := false)
  }

  datatype Counts = Counts(
    category: map<string, nat>, price: map<string, nat>, rating: map<int, nat>, stock: nat)

  function CategoryCounts(products: seq<Product>, slugs: set<string>): map<string, nat> {
    map s | s in slugs :: |Keep(products, (p: Product) => p.category == s)|
  }

  function PriceCounts(products: seq<Product>): map<string, nat> {
    map k | k in PRICE_KEYS :: |Keep(products, (p: Product) => PriceBandFor(PRICE_BANDS, p.price) == Some(k))|
  }

  function RatingCounts(products: seq<Product>): map<int, nat> {
    map n | n in RATING_STEPS :: |Keep(products, (p: Product) => p.RatedAtLeast(n))|
  }

  /** Each facet is counted on the set filtered by the other facets; slugs are all categories. */
  function FacetCounts(base: seq<Product>, sel: Selection, slugs: set<string>): Counts {
    Counts(
      CategoryCounts(ApplyFacets(base, Without(sel, CATEGORY)), slugs),
      PriceCounts(ApplyFacets(base, Without(sel, PRICE))),
      RatingCounts(ApplyFacets(base, Without(sel, RATING))),
      |Keep(ApplyFacets(base, Without(sel, STOCK)), (p: Product) => p.InStock())|)
  }

  /** What parse_facets guarantees of a selection. */
  ghost predicate WellFormed(sel: Selection, slugs: set<string>) {
    && Distinct(sel.categories) && (forall c :: c in sel.categories ==> c in slugs)
    && Distinct(sel.prices) && (forall k :: k in sel.prices ==> k in PRICE_KEYS)
    && (sel.rating.Some? ==> sel.rating.value in RATING_STEPS)
  }

  lemma BandTails()
    ensures PRICE_BANDS[1..] == [PRICE_BANDS[1], PRICE_BANDS[2], PRICE_BANDS[3]]
    ensures PRICE_BANDS[1..][1..] == [PRICE_BANDS[2], PRICE_BANDS[3]]
    ensures PRICE_BANDS[1..][1..][1..] == [PRICE_BANDS[3]]
    ensures PRICE_BANDS[1..][1..][1..][1..] == []
  {
  }

  lemma BandForPrice(price: real)
    ensures PriceBandFor(PRICE_BANDS, price) ==
      Some(if price < 25.0 then "under-25" else if price < 50.0 then "25-50"
           else if price < 100.0 then "50-100" else "100-plus")
  {
    BandTails();
    var b2 := PRICE_BANDS[1..][1..];
    assert PriceBandFor(b2[1..], price) == if price >= 100.0 then Some("100-plus") else None;
    assert PriceBandFor(b2, price) ==
      if 50.0 <= price < 100.0 then Some("50-100") else PriceBandFor(b2[1..], price);
  }

  lemma BandNamed(k: string)
    requires k in PRICE_KEYS
    ensures BandOf(PRICE_BANDS, k) == Some(PRICE_BANDS[
      if k == "under-25" then 0 else if k == "25-50" then 1 else if k == "50-100" then 2 else 3])
  {
  }

  lemma KeysDiffer()
    ensures Distinct(PRICE_KEYS)
  {
  }

  /** Every price is in exactly one band, the one price_band_for names. */
  lemma BandsPartition(price: real, k: string)
    requires k in PRICE_KEYS
    ensures PriceBandFor(PRICE_BANDS, price).Some? && PriceBandFor(PRICE_BANDS, price).value in PRICE_KEYS
    ensures BandOf(PRICE_BANDS, k).Some?
    ensures BandOf(PRICE_BANDS, k).value.Holds(price) <==> PriceBandFor(PRICE_BANDS, price) == Some(k)
  {
    BandForPrice(price);
    BandNamed(k);
    KeysDiffer();
  }

  // -------------------------------------------------------- counts never lie

  /** Counting by class over distinct classes counts the products in any of them, each once. */
  lemma {:induction false} SumOfClasses(s: seq<Product>, class_: Product -> Option<string>, ks: seq<string>, m: map<string, nat>)
    requires Distinct(ks)
    requires forall k :: k in ks ==> k in m && m[k] == |Keep(s, (p: Product) => class_(p) == Some(k))|
    ensures SumAt(ks, m) == |Keep(s, (p: Product) => class_(p).Some? && class_(p).value in ks)|
  {
    var any := (p: Product) => class_(p).Some? && class_(p).value in ks;
    if ks == [] {
      KeepNone(s, any);
    } else {
      var rest, k := ks[..|ks| - 1], ks[|ks| - 1];
      assert ks == rest + [k] && k in ks && k !in rest;
      assert forall x :: x in rest ==> x in ks;
      SumOfClasses(s, class_, rest, m);
      var inRest := (p: Product) => class_(p).Some? && class_(p).value in rest;
      var isK := (p: Product) => class_(p) == Some(k);
      KeepSplit(s, inRest, isK, any);
      KeepSame(s, (p: Product) => class_(p) == Some(k), isK);
      KeepSame(s, (p: Product) => class_(p).Some? && class_(p).value in rest, inRest);
      KeepSame(s, (p: Product) => class_(p).Some? && class_(p).value in ks, any);
    }
  }

  /** What facet f alone demands of a product. */
  predicate Demands(p: Product, sel: Selection, f: Facet) {
    match f
    case CATEGORY => CategoryOk(p, sel)
    case PRICE => PriceOk(p, sel)
    case RATING => sel.rating.Some? ==> p.RatedAtLeast(sel.rating.value)
    case STOCK => sel.stock ==> p.InStock()
  }

  /** And-across: the listing is the set filtered by the other facets, narrowed by this one. */
  lemma OneFacetNarrows(base: seq<Product>, sel: Selection, f: Facet)
    ensures ApplyFacets(base, sel) == Keep(ApplyFacets(base, Without(sel, f)), (p: Product) => Demands(p, sel, f))
  {
    ApplyFacetsIsListing(base, sel);
    ApplyFacetsIsListing(base, Without(sel, f));
    var others := (p: Product) => Matches(p, Without(sel, f));
    var this_ := (p: Product) => Demands(p, sel, f);
    var all := (p: Product) => Matches(p, sel);
    KeepTwice(base, others, this_, all);
    KeepSame(base, others, (p: Product) => Matches(p, Without(sel, f)));
    KeepSame(base, all, (p: Product) => Matches(p, sel));
    KeepSame(Keep(base, others), this_, (p: Product) => Demands(p, sel, f));
  }

  /** With categories selected, the listing has as many products as their counts add up to. */
  lemma CategoryCountsAddUp(base: seq<Product>, sel: Selection, slugs: set<string>)
    requires WellFormed(sel, slugs) && sel.categories != []
    ensures SumAt(sel.categories, FacetCounts(base, sel, slugs).category) == |ApplyFacets(base, sel)|
  {
    var others := ApplyFacets(base, Without(sel, CATEGORY));
    var class_ := (p: Product) => Some(p.category);
    var m := FacetCounts(base, sel, slugs).category;
    forall k | k in sel.categories ensures m[k] == |Keep(others, (p: Product) => class_(p) == Some(k))| {
      KeepSame(others, (p: Product) => p.category == k, (p: Product) => class_(p) == Some(k));
    }
    SumOfClasses(others, class_, sel.categories, m);
    OneFacetNarrows(base, sel, CATEGORY);
    KeepSame(others, (p: Product) => Demands(p, sel, CATEGORY),
             (p: Product) => class_(p).Some? && class_(p).value in sel.categories);
  }

  lemma PriceClass(p: Product, ks: seq<string>)
    requires ks != [] && forall k :: k in ks ==> k in PRICE_KEYS
    ensures (exists k :: k in ks && BandOf(PRICE_BANDS, k).Some? && BandOf(PRICE_BANDS, k).value.Holds(p.price))
      <==> PriceBandFor(PRICE_BANDS, p.price).Some? && PriceBandFor(PRICE_BANDS, p.price).value in ks
    ensures exists k :: k in ks && BandOf(PRICE_BANDS, k).Some?
  {
    BandsPartition(p.price, ks[0]);
    assert ks[0] in ks;
    forall k | k in ks ensures BandOf(PRICE_BANDS, k).Some?
      && (BandOf(PRICE_BANDS, k).value.Holds(p.price) <==> PriceBandFor(PRICE_BANDS, p.price) == Some(k))
    {
      BandsPartition(p.price, k);
    }
  }

  lemma PriceSumOf(others: seq<Product>, ks: seq<string>)
    requires Distinct(ks) && forall k :: k in ks ==> k in PRICE_KEYS
    ensures SumAt(ks, PriceCounts(others)) ==
      |Keep(others, (p: Product) => PriceBandFor(PRICE_BANDS, p.price).Some? && PriceBandFor(PRICE_BANDS, p.price).value in ks)|
  {
    var class_ := (p: Product) => PriceBandFor(PRICE_BANDS, p.price);
    var m := PriceCounts(others);
    forall k | k in ks ensures m[k] == |Keep(others, (p: Product) => class_(p) == Some(k))| {
      KeepSame(others, (p: Product) => PriceBandFor(PRICE_BANDS, p.price) == Some(k), (p: Product) => class_(p) == Some(k));
    }
    SumOfClasses(others, class_, ks, m);
    KeepSame(others, (p: Product) => class_(p).Some? && class_(p).value in ks,
             (p: Product) => PriceBandFor(PRICE_BANDS, p.price).Some? && PriceBandFor(PRICE_BANDS, p.price).value in ks);
  }

  lemma PriceCountsAddUp(base: seq<Product>, sel: Selection, slugs: set<string>)
    requires WellFormed(sel, slugs) && sel.prices != []
    ensures SumAt(sel.prices, FacetCounts(base, sel, slugs).price) == |ApplyFacets(base, sel)|
  {
    var others := ApplyFacets(base, Without(sel, PRICE));
    PriceSumOf(others, sel.prices);
    OneFacetNarrows(base, sel, PRICE);
    forall p: Product ensures Demands(p, sel, PRICE) <==>
      PriceBandFor(PRICE_BANDS, p.price).Some? && PriceBandFor(PRICE_BANDS, p.price).value in sel.prices
    {
      PriceClass(p, sel.prices);
    }
    KeepSame(others, (p: Product) => Demands(p, sel, PRICE),
             (p: Product) => PriceBandFor(PRICE_BANDS, p.price).Some? && PriceBandFor(PRICE_BANDS, p.price).value in sel.prices);
  }

  /** Over all bands the price counts add up to the set filtered by the other facets. */
  lemma PriceCountsCoverAll(base: seq<Product>, sel: Selection, slugs: set<string>)
    ensures SumAt(PRICE_KEYS, FacetCounts(base, sel, slugs).price) == |ApplyFacets(base, Without(sel, PRICE))|
  {
    var others := ApplyFacets(base, Without(sel, PRICE));
    var banded := (p: Product) =>
      PriceBandFor(PRICE_BANDS, p.price).Some? && PriceBandFor(PRICE_BANDS, p.price).value in PRICE_KEYS;
    KeysDiffer();
    PriceSumOf(others, PRICE_KEYS);
    forall p | p in others ensures banded(p) {
      BandsPartition(p.price, PRICE_KEYS[0]);
    }
    KeepAll(others, banded);
    KeepSame(others, banded, (p: Product) =>
      PriceBandFor(PRICE_BANDS, p.price).Some? && PriceBandFor(PRICE_BANDS, p.price).value in PRICE_KEYS);
  }

  /** A value of a facet: what its link offers to select. */
  datatype Choice = Category(slug: string) | Price(key: string) | Rating(step: int) | InStock

  function Only(sel: Selection, c: Choice): Selection {
    match c
    case Category(slug) => sel.(categories := [slug])
    case Price(key) => sel.(prices := [key])
    case Rating(step) => sel.(rating := Some(step))
    case InStock => sel.(stock := true)
  }

  predicate Offered(c: Choice, slugs: set<string>) {
    match c
    case Category(slug) => slug in slugs
    case Price(key) => key in PRICE_KEYS
    case Rating(step) => step in RATING_STEPS
    case InStock => true
  }

  function CountOf(counts: Counts, c: Choice): Option<nat> {
    match c
    case Category(slug) => if slug in counts.category then Some(counts.category[slug]) else None
    case Price(key) => if key in counts.price then Some(counts.price[key]) else None
    case Rating(step) => if step in counts.rating then Some(counts.rating[step]) else None
    case InStock => Some(counts.stock)
  }

  function FacetOf(c: Choice): Facet {
    match c case Category(_) => CATEGORY case Price(_) => PRICE case Rating(_) => RATING case InStock => STOCK
  }

  /**
   The number beside any value, selected or not, is the size of the listing with that
   value as its facet's only choice and the other facets as they are.
   */
  lemma CountIsListingSize(base: seq<Product>, sel: Selection, slugs: set<string>, c: Choice)
    requires Offered(c, slugs)
    ensures CountOf(FacetCounts(base, sel, slugs), c) == Some(|ApplyFacets(base, Only(sel, c))|)
  {
    var others := ApplyFacets(base, Without(sel, FacetOf(c)));
    var only := Only(sel, c);
    OneFacetNarrows(base, only, FacetOf(c));
    assert Without(only, FacetOf(c)) == Without(sel, FacetOf(c));
    var demand := (p: Product) => Demands(p, only, FacetOf(c));
    match c
    case Category(slug) => KeepSame(others, (p: Product) => p.category == slug, demand);
    case Price(key) =>
      forall p: Product ensures demand(p) <==> PriceBandFor(PRICE_BANDS, p.price) == Some(key) {
        PriceClass(p, [key]);
      }
      KeepSame(others, (p: Product) => PriceBandFor(PRICE_BANDS, p.price) == Some(key), demand);
    case Rating(step) => KeepSame(others, (p: Product) => p.RatedAtLeast(step), demand);
    case InStock => KeepSame(others, (p: Product) => p.InStock(), demand);
  }

  /** The single-select facets: the selected value's count is the size of the listing. */
  lemma SelectedCountIsListing(base: seq<Product>, sel: Selection, slugs: set<string>)
    requires WellFormed(sel, slugs)
    ensures sel.rating.Some? ==>
      CountOf(FacetCounts(base, sel, slugs), Rating(sel.rating.value)) == Some(|ApplyFacets(base, sel)|)
    ensures sel.stock ==> FacetCounts(base, sel, slugs).stock == |ApplyFacets(base, sel)|
  {
    if sel.rating.Some? {
      assert Only(sel, Rating(sel.rating.value)) == sel;
      CountIsListingSize(base, sel, slugs, Rating(sel.rating.value));
    }
    if sel.stock {
      assert Only(sel, InStock) == sel;
      CountIsListingSize(base, sel, slugs, InStock);
    }
  }

  lemma PriceCountsAppend(s: seq<Product>, p: Product, k: string)
    requires PriceBandFor(PRICE_BANDS, p.price) == Some(k) && k in PRICE_KEYS
    ensures PriceCounts(s + [p]) == PriceCounts(s)[k := PriceCounts(s)[k] + 1]
  {
    assert (s + [p])[..|s|] == s;
  }

  /** The grouping loop over the products. */
  method PriceFacetCounts(products: seq<Product>) returns (counts: map<string, nat>)
    ensures counts == PriceCounts(products)
  {
    counts := map k | k in PRICE_KEYS :: 0;
    for i := 0 to |products|
      invariant counts == PriceCounts(products[..i])
    {
      assert products[..i + 1] == products[..i] + [products[i]];
      BandsPartition(products[i].price, PRICE_KEYS[0]);
      var band := PriceBandFor(PRICE_BANDS, products[i].price);
      if band.Some? {
        PriceCountsAppend(products[..i], products[i], band.value);
        counts := counts[band.value := counts[band.value] + 1];
      }
    }
    assert products[..|products|] == products;
  }
}
