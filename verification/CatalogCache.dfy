/**
 The catalog page behind its cache: listings and facet counts under keys built from the
 request, a registry of the keys written, and handlers that clear them all on a save or
 delete. Requests and writes are whole steps; an entry may vanish at any time.
 */
module CatalogCache {
  import opened Options
  import opened Seqs
  import opened Strings
  import opened Facets
  import opened FacetLinks
  import opened Pages

  const PRODUCTS_TTL: real := 300.0
  const CATEGORIES_TTL: real := 600.0
  const PRODUCTS_PER_PAGE: nat := 12

  /** Products in name order, and the slugs of all categories in their order. */
  datatype Db = Db(products: seq<Product>, categories: seq<string>) {
    function Slugs(): set<string> {
      set c | c in categories
    }
  }

  /** Fixed parts that are not modelled further: ranked search, and int() on a string. */
  datatype Site = Site(search: (seq<Product>, string) -> seq<Product>, toInt: string -> Option<int>)

  /** What a request asks for, its facet state already parsed; no page is page "1". */
  datatype Ask = Ask(categorySlug: Option<string>, query: string, selection: Selection, page: string)

  datatype Request = Request(categorySlug: Option<string>, query: string, params: Params, page: string)

  function AskOf(r: Request, db: Db, site: Site): Ask {
    Ask(r.categorySlug, r.query, Parse(r.params, db.Slugs(), site.toInt), if r.page == "" then "1" else r.page)
  }

  /** The fields the list template reads. */
  datatype Card = Card(id: int, name: string, price: real)

  function Cards(products: seq<Product>): seq<Card> {
    seq(|products|, i requires 0 <= i < |products| => Card(products[i].id, products[i].name, products[i].price))
  }

  // --------------------------------------------------- computing from the database

  function Base(a: Ask, db: Db, site: Site): seq<Product> {
    var available := Keep(db.products, (p: Product) => p.available);
    var found := if a.query != "" then site.search(available, a.query) else available;
    match a.categorySlug
    case None => found
    case Some(slug) => Keep(found, (p: Product) => p.category == slug)
  }

  function FreshListing(a: Ask, db: Db, site: Site): CachedPage<Card> {
    var base := Base(a, db, site);
    var products := if a.selection.IsActive() then ApplyFacets(base, a.selection) else base;
    GetPage(Cards(products), site.toInt(a.page), PRODUCTS_PER_PAGE)
  }

  function FreshCounts(a: Ask, db: Db, site: Site): Counts {
    FacetCounts(Base(a, db, site), a.selection, db.Slugs())
  }

  /** The available products, those the search finds among them when there is a query. */
  function Found(a: Ask, db: Db, site: Site): seq<Product> {
    var available := Keep(db.products, (p: Product) => p.available);
    if a.query == "" then available else site.search(available, a.query)
  }

  /** On the request's category page, if it has one, and matching its facets. */
  predicate Fits(p: Product, a: Ask) {
    (a.categorySlug.Some? ==> p.category == a.categorySlug.value) && Matches(p, a.selection)
  }

  /** The page served is the requested cut of exactly the found products that fit, and all its pages together are all of them. */
  lemma ListingShowsFound(a: Ask, db: Db, site: Site)
    requires WellFormed(a.selection, db.Slugs())
    ensures var wanted := Cards(Keep(Found(a, db, site), (p: Product) => Fits(p, a)));
      var page := FreshListing(a, db, site);
      && page.count == |wanted| && page.objects == Slice(wanted, page.number, PRODUCTS_PER_PAGE)
      && Tiles(wanted, page.NumPages(), PRODUCTS_PER_PAGE) == wanted
  {
    var found, base := Found(a, db, site), Base(a, db, site);
    var here := (p: Product) => a.categorySlug.Some? ==> p.category == a.categorySlug.value;
    var matches := (p: Product) => Matches(p, a.selection);
    if a.categorySlug.None? {
      KeepAll(found, here);
    } else {
      KeepSame(found, here, (p: Product) => p.category == a.categorySlug.value);
    }
    assert base == Keep(found, here);
    KeepTwice(found, here, matches, (p: Product) => Fits(p, a));
    if a.selection.IsActive() {
      ApplyFacetsIsListing(base, a.selection);
    } else {
      KeepAll(base, matches);
    }
    PagesTile(Cards(Keep(base, matches)), site.toInt(a.page), PRODUCTS_PER_PAGE);
  }

  /** What an unsearched request should list: every available product of its category page that its facets match. */
  predicate Wanted(p: Product, a: Ask) {
    p.available && Fits(p, a)
  }

  /** Without a query nothing available that fits is missing. */
  lemma ListingShowsWanted(a: Ask, db: Db, site: Site)
    requires a.query == "" && WellFormed(a.selection, db.Slugs())
    ensures var wanted := Cards(Keep(db.products, (p: Product) => Wanted(p, a)));
      var page := FreshListing(a, db, site);
      && page.count == |wanted| && page.objects == Slice(wanted, page.number, PRODUCTS_PER_PAGE)
      && Tiles(wanted, page.NumPages(), PRODUCTS_PER_PAGE) == wanted
  {
    ListingShowsFound(a, db, site);
    KeepTwice(db.products, (p: Product) => p.available, (p: Product) => Fits(p, a), (p: Product) => Wanted(p, a));
  }

  /** A card carries its product's id, name and price. */
  lemma CardsAre(products: seq<Product>, i: nat)
    requires i < |products|
    ensures |Cards(products)| == |products|
    ensures Cards(products)[i] == Card(products[i].id, products[i].name, products[i].price)
  {
  }

  /** A visit that names no page gets page 1, like one that names page "1" or something that is no number. */
  lemma FirstPageByDefault(r: Request, db: Db, site: Site)
    requires site.toInt("1") == Some(1)
    requires r.page == "" || r.page == "1" || site.toInt(r.page) == None
    ensures FreshListing(AskOf(r, db, site), db, site).number == 1
  {
    var listing := FreshListing(AskOf(r, db, site), db, site);
    NumPagesAgree(listing);
    PageNumberIs(Some(1), listing.count, PRODUCTS_PER_PAGE);
  }

  /** What is asked for is read off the visit: its own category page and query, its parsed facets. */
  lemma AskOfIs(r: Request, db: Db, site: Site)
    ensures var a := AskOf(r, db, site);
      && a.categorySlug == r.categorySlug && a.query == r.query
      && a.selection == Parse(r.params, (set c | c in db.categories), site.toInt)
      && (r.page != "" ==> a.page == r.page)
  {
  }

  // --------------------------------------------- the count beside a link, and its page

  /** The request behind a facet link on the page of r: the same page of the site, from page 1. */
  function Clicked(r: Request, name: string, value: string): Request {
    r.(params := FacetUrl(r.params, name, value), page := "")
  }

  /** A clicked link starts again at page 1 and keeps the category page and the query. */
  lemma ClickedIsFirstPage(r: Request, name: string, value: string, db: Db, site: Site)
    requires site.toInt("1") == Some(1)
    ensures var next := Clicked(r, name, value);
      && next.categorySlug == r.categorySlug && next.query == r.query && next.params == FacetUrl(r.params, name, value)
      && FreshListing(AskOf(next, db, site), db, site).number == 1
  {
    FirstPageByDefault(Clicked(r, name, value), db, site);
  }

  lemma ListingCount(a: Ask, db: Db, site: Site)
    requires WellFormed(a.selection, db.Slugs())
    ensures FreshListing(a, db, site).count == |ApplyFacets(Base(a, db, site), a.selection)|
  {
    var base := Base(a, db, site);
    if !a.selection.IsActive() {
      ApplyFacetsIsListing(base, a.selection);
      KeepAll(base, (p: Product) => Matches(p, a.selection));
    }
  }

  lemma ClickedCount(a: Ask, b: Ask, db: Db, site: Site, c: Choice)
    requires WellFormed(b.selection, db.Slugs()) && Offered(c, db.Slugs())
    requires a.categorySlug == b.categorySlug && a.query == b.query && b.selection == Only(a.selection, c)
    ensures CountOf(FreshCounts(a, db, site), c) == Some(FreshListing(b, db, site).count)
  {
    ListingCount(b, db, site);
    CountIsListingSize(Base(a, db, site), a.selection, db.Slugs(), c);
  }

  /** The number beside an unselected rating is the number of products on the page its link leads to. */
  lemma RatingCountIsKept(r: Request, db: Db, site: Site, step: int)
    requires step in RATING_STEPS && ReadsSteps(site.toInt) && StepName(step) !in GetList(r.params, PARAM_RATING)
    ensures CountOf(FreshCounts(AskOf(r, db, site), db, site), Rating(step))
      == Some(FreshListing(AskOf(Clicked(r, PARAM_RATING, StepName(step)), db, site), db, site).count)
  {
    var next := Clicked(r, PARAM_RATING, StepName(step));
    RatingLink(r.params, step, db.Slugs(), site.toInt);
    ParseIsWellFormed(next.params, db.Slugs(), site.toInt);
    ClickedCount(AskOf(r, db, site), AskOf(next, db, site), db, site, Rating(step));
  }

  /** The same for stock when it is not selected. */
  lemma StockCountIsKept(r: Request, db: Db, site: Site)
    requires !StockOn(r.params)
    ensures CountOf(FreshCounts(AskOf(r, db, site), db, site), InStock)
      == Some(FreshListing(AskOf(Clicked(r, PARAM_STOCK, "in"), db, site), db, site).count)
  {
    var next := Clicked(r, PARAM_STOCK, "in");
    StockLink(r.params, db.Slugs(), site.toInt);
    ParseIsWellFormed(next.params, db.Slugs(), site.toInt);
    ClickedCount(AskOf(r, db, site), AskOf(next, db, site), db, site, InStock);
  }

  lemma SumAtAppend(keys: seq<string>, k: string, counts: map<string, nat>)
    requires k in counts && forall x :: x in keys ==> x in counts
    ensures forall x :: x in keys + [k] ==> x in counts
    ensures SumAt(keys + [k], counts) == SumAt(keys, counts) + counts[k]
  {
    assert (keys + [k])[..|keys|] == keys;
  }

  /** What the page lists now counts for a multi-select facet: nothing as long as nothing of it is selected. */
  function Already(a: Ask, chosen: seq<string>, db: Db, site: Site): nat {
    if chosen == [] then 0 else FreshListing(a, db, site).count
  }

  /**
   The number beside an unselected category is how many products its link adds to those
   already chosen within the facet: all of the next page's products when none is chosen yet.
   */
  lemma CategoryCountIsAdded(r: Request, db: Db, site: Site, v: string)
    requires v in db.Slugs() && v !in AskOf(r, db, site).selection.categories
    ensures var a, b := AskOf(r, db, site), AskOf(Clicked(r, PARAM_CATEGORY, v), db, site);
      && v in FreshCounts(a, db, site).category
      && FreshListing(b, db, site).count == Already(a, a.selection.categories, db, site) + FreshCounts(a, db, site).category[v]
  {
    var next := Clicked(r, PARAM_CATEGORY, v);
    var a, b := AskOf(r, db, site), AskOf(next, db, site);
    var base, slugs := Base(a, db, site), db.Slugs();
    var m := FreshCounts(a, db, site).category;
    CategoryLink(r.params, v, slugs, site.toInt);
    ParseIsWellFormed(r.params, slugs, site.toInt);
    ParseIsWellFormed(next.params, slugs, site.toInt);
    assert b.selection.categories == a.selection.categories + [v];
    assert Without(a.selection, CATEGORY) == Without(b.selection, CATEGORY);
    ListingCount(a, db, site);
    ListingCount(b, db, site);
    CategoryCountsAddUp(base, b.selection, slugs);
    SumAtAppend(a.selection.categories, v, m);
    if a.selection.categories != [] {
      CategoryCountsAddUp(base, a.selection, slugs);
    }
  }

  /** The same for a price band. */
  lemma PriceCountIsAdded(r: Request, db: Db, site: Site, v: string)
    requires v in PRICE_KEYS && v !in AskOf(r, db, site).selection.prices
    ensures var a, b := AskOf(r, db, site), AskOf(Clicked(r, PARAM_PRICE, v), db, site);
      && v in FreshCounts(a, db, site).price
      && FreshListing(b, db, site).count == Already(a, a.selection.prices, db, site) + FreshCounts(a, db, site).price[v]
  {
    var next := Clicked(r, PARAM_PRICE, v);
    var a, b := AskOf(r, db, site), AskOf(next, db, site);
    var base, slugs := Base(a, db, site), db.Slugs();
    var m := FreshCounts(a, db, site).price;
    PriceLink(r.params, v, slugs, site.toInt);
    ParseIsWellFormed(r.params, slugs, site.toInt);
    ParseIsWellFormed(next.params, slugs, site.toInt);
    assert b.selection.prices == a.selection.prices + [v];
    assert Without(a.selection, PRICE) == Without(b.selection, PRICE);
    ListingCount(a, db, site);
    ListingCount(b, db, site);
    PriceCountsAddUp(base, b.selection, slugs);
    SumAtAppend(a.selection.prices, v, m);
    if a.selection.prices != [] {
      PriceCountsAddUp(base, a.selection, slugs);
    }
  }

  // ----------------------------------------------------------------- cache keys

  /** _stable_params; hashing it to a short digest is taken as injective. */
  datatype Stable = Stable(
    category: string, query: string, categories: seq<string>, prices: seq<string>,
    rating: Option<int>, stock: bool, page: string)

  function StableParams(a: Ask): Stable {
    Stable(
      if a.categorySlug.Some? then a.categorySlug.value else "", a.query,
      Sort(a.selection.categories), Sort(a.selection.prices), a.selection.rating, a.selection.stock, a.page)
  }

  datatype Key = Products(params: Stable) | FacetKey(params: Stable) | Categories

  /** The request a stable key stands for. */
  function Canonical(k: Stable): Ask {
    Ask(if k.category == "" then None else Some(k.category), k.query,
        Selection(k.categories, k.prices, k.rating, k.stock), k.page)
  }

  /** Slugs are non-empty, so no category page has the key of the plain one. */
  predicate Routable(a: Ask) {
    a.categorySlug.Some? ==> a.categorySlug.value != ""
  }

  lemma SameMatches(base: seq<Product>, a: Selection, b: Selection)
    requires SameChoices(a, b)
    ensures ApplyFacets(base, a) == ApplyFacets(base, b)
  {
    ApplyFacetsIsListing(base, a);
    ApplyFacetsIsListing(base, b);
    forall p: Product ensures Matches(p, a) == Matches(p, b) {
      assert a.categories == [] <==> b.categories == [] by {
        if a.categories != [] { assert a.categories[0] in b.categories; }
        if b.categories != [] { assert b.categories[0] in a.categories; }
      }
    }
    KeepSame(base, (p: Product) => Matches(p, a), (p: Product) => Matches(p, b));
  }

  lemma SameWithout(base: seq<Product>, a: Selection, b: Selection, f: Facet)
    requires SameChoices(a, b)
    ensures ApplyFacets(base, Without(a, f)) == ApplyFacets(base, Without(b, f))
  {
    SameMatches(base, Without(a, f), Without(b, f));
  }

  lemma SameCounts(base: seq<Product>, a: Selection, b: Selection, slugs: set<string>)
    requires SameChoices(a, b)
    ensures FacetCounts(base, a, slugs) == FacetCounts(base, b, slugs)
  {
    SameWithout(base, a, b, CATEGORY);
    SameWithout(base, a, b, PRICE);
    SameWithout(base, a, b, RATING);
    SameWithout(base, a, b, STOCK);
  }

  /** Two requests with one key have one answer: the order of a multi-select does not matter. */
  lemma KeyDeterminesAnswer(a: Ask, db: Db, site: Site)
    requires Routable(a)
    ensures FreshListing(Canonical(StableParams(a)), db, site) == FreshListing(a, db, site)
    ensures FreshCounts(Canonical(StableParams(a)), db, site) == FreshCounts(a, db, site)
  {
    var c := Canonical(StableParams(a));
    var base := Base(a, db, site);
    SortKeepsElements(a.selection.categories);
    SortKeepsElements(a.selection.prices);
    assert Base(c, db, site) == base;
    assert c.selection.IsActive() == a.selection.IsActive();
    SameMatches(base, c.selection, a.selection);
    SameCounts(base, c.selection, a.selection, db.Slugs());
  }

  /** Requests share a key exactly when they ask for the same thing up to the order of the multi-selects. */
  lemma KeysMeetIff(a: Ask, b: Ask)
    requires Routable(a) && Routable(b)
    ensures StableParams(a) == StableParams(b) <==>
      && a.categorySlug == b.categorySlug && a.query == b.query && a.page == b.page
      && a.selection.rating == b.selection.rating && a.selection.stock == b.selection.stock
      && multiset(a.selection.categories) == multiset(b.selection.categories)
      && multiset(a.selection.prices) == multiset(b.selection.prices)
  {
    SortMeetsIff(a.selection.categories, b.selection.categories);
    SortMeetsIff(a.selection.prices, b.selection.prices);
  }

  lemma SortMeetsIff(a: seq<string>, b: seq<string>)
    ensures Sort(a) == Sort(b) <==> multiset(a) == multiset(b)
  {
    SortSorts(a);
    SortSorts(b);
    if multiset(a) == multiset(b) {
      SortedIsUnique(Sort(a), Sort(b));
    }
  }

  // ------------------------------------------------------------------ the cache

  datatype Value = ListingValue(page: CachedPage<Card>) | CountsValue(counts: Counts) | CategoriesValue(slugs: seq<string>)
  datatype Entry = Entry(value: Value, expiry: real)

  /** The registry has no timeout; [] is also the deleted registry. */
  datatype State = State(now: real, db: Db, cache: map<Key, Entry>, registry: seq<Key>)

  predicate Live(s: State, k: Key) {
    k in s.cache && s.now < s.cache[k].expiry
  }

  function Ttl(k: Key): real {
    if k == Categories then CATEGORIES_TTL else PRODUCTS_TTL
  }

  function Register(registry: seq<Key>, k: Key): seq<Key> {
    if k in registry then registry else registry + [k]
  }

  /** A live entry is served as it was stored, even after the database changed silently. */
  lemma HitServesStored(s: State, k: Key, computed: Value)
    requires k in s.cache && s.now < s.cache[k].expiry
    ensures GetOrSet(s, k, computed) == (s, s.cache[k].value)
  {
  }

  /** A miss serves what was computed and keeps it: five minutes for listings and counts, ten for the categories. */
  lemma MissStoresComputed(s: State, k: Key, computed: Value)
    requires k !in s.cache || s.cache[k].expiry <= s.now
    ensures var r := GetOrSet(s, k, computed);
      && r.1 == computed && k in r.0.cache
      && r.0.cache[k] == Entry(computed, s.now + (if k == Categories then 600.0 else 300.0))
      && r.0.registry == (if k == Categories || k in s.registry then s.registry else s.registry + [k])
      && forall x :: x != k ==> (x in r.0.cache <==> x in s.cache) && (x in s.cache ==> r.0.cache[x] == s.cache[x])
  {
  }

  /** cache.get, and on a miss register (listings and facets only) and cache.set of a fresh value. */
  function GetOrSet(s: State, k: Key, computed: Value): (r: (State, Value))
    ensures r.0.now == s.now && r.0.db == s.db
  {
    if Live(s, k) then (s, s.cache[k].value)
    else
      (s.(cache := s.cache[k := Entry(computed, s.now + Ttl(k))],
          registry := if k == Categories then s.registry else Register(s.registry, k)),
       computed)
  }

  datatype Response = NotFound | Page(categories: Value, counts: Value, listing: Value)

  /** product_list */
  function Serve(s: State, a: Ask, site: Site): (State, Response) {
    var r1 := GetOrSet(s, Categories, CategoriesValue(s.db.categories));
    if a.categorySlug.Some? && a.categorySlug.value !in s.db.categories then (r1.0, NotFound)
    else
      var key := StableParams(a);
      var r2 := GetOrSet(r1.0, FacetKey(key), CountsValue(FreshCounts(a, s.db, site)));
      var r3 := GetOrSet(r2.0, Products(key), ListingValue(FreshListing(a, s.db, site)));
      (r3.0, Page(r1.1, r2.1, r3.1))
  }

  /** clear_catalog_caches */
  function Clear(s: State): State {
    s.(cache := map k | k in s.cache && k != Categories && k !in s.registry :: s.cache[k], registry := [])
  }

  datatype Event =
    | Visit(request: Request)
    | Save(db: Db)          // any write that goes through save() or delete()
    | SilentUpdate(db: Db)  // a queryset UPDATE: no signal is sent
    | Expire(key: Key)
    | Advance(seconds: real)

  function Next(s: State, e: Event, site: Site): State {
    match e
    case Visit(r) => if Routable(AskOf(r, s.db, site)) then Serve(s, AskOf(r, s.db, site), site).0 else s
    case Save(db) => Clear(s.(db := db))
    case SilentUpdate(db) => s.(db := db)
    case Expire(k) => s.(cache := s.cache - {k})
    case Advance(d) => if d >= 0.0 then s.(now := s.now + d) else s
  }

  /**
   What each event does: a visit fills the cache, a signalled write changes the database and
   drops every registered key and the category list, a silent one changes the database alone.
   */
  lemma EventsDo(s: State, r: Request, db: Db, k: Key, seconds: real, site: Site)
    requires seconds >= 0.0
    ensures r.categorySlug != Some("") ==> Next(s, Visit(r), site) == Serve(s, AskOf(r, s.db, site), site).0
    ensures var saved := Next(s, Save(db), site);
      && saved.db == db && saved.now == s.now && saved.registry == []
      && forall x :: x in saved.cache <==> x in s.cache && x != Categories && x !in s.registry
    ensures Next(s, SilentUpdate(db), site) == State(s.now, db, s.cache, s.registry)
    ensures Next(s, Expire(k), site) == State(s.now, s.db, s.cache - {k}, s.registry)
    ensures Next(s, Advance(seconds), site) == State(s.now + seconds, s.db, s.cache, s.registry)
  {
  }

  function Run(s: State, es: seq<Event>, site: Site): State {
    if es == [] then s else Next(Run(s, es[..|es| - 1], site), es[|es| - 1], site)
  }

  /** A run takes its events one after another. */
  lemma RunOneMore(s: State, es: seq<Event>, e: Event, site: Site)
    ensures Run(s, [], site) == s
    ensures Run(s, es + [e], site) == Next(Run(s, es, site), e, site)
  {
    assert (es + [e])[..|es|] == es;
  }

  predicate Initial(s: State) {
    s.cache == map[] && s.registry == []
  }

  /** A run may start at any time with any database, and an empty cache; any non-empty slug can be routed. */
  lemma StartsEmpty(now: real, db: Db, a: Ask)
    requires a.categorySlug != Some("")
    ensures Initial(State(now, db, map[], [])) && Routable(a)
  {
  }

  function FreshValue(k: Key, db: Db, site: Site): Value {
    match k
    case Products(st) => ListingValue(FreshListing(Canonical(st), db, site))
    case FacetKey(st) => CountsValue(FreshCounts(Canonical(st), db, site))
    case Categories => CategoriesValue(db.categories)
  }

  function FreshResponse(a: Ask, db: Db, site: Site): Response {
    if a.categorySlug.Some? && a.categorySlug.value !in db.categories then NotFound
    else Page(CategoriesValue(db.categories), CountsValue(FreshCounts(a, db, site)), ListingValue(FreshListing(a, db, site)))
  }

  // -------------------------------------------------------------- transparency

  ghost predicate Registered(s: State) {
    forall k :: k in s.cache ==> k == Categories || k in s.registry
  }

  ghost predicate AllFresh(s: State, site: Site) {
    forall k :: k in s.cache ==> s.cache[k].value == FreshValue(k, s.db, site)
  }

  lemma GetOrSetRegisters(s: State, k: Key, computed: Value)
    requires Registered(s)
    ensures Registered(GetOrSet(s, k, computed).0)
  {
  }

  lemma StepRegisters(s: State, e: Event, site: Site)
    requires Registered(s)
    ensures Registered(Next(s, e, site))
    ensures e.Save? ==> Next(s, e, site).cache == map[]
  {
    if e.Visit? {
      var a := AskOf(e.request, s.db, site);
      var r1 := GetOrSet(s, Categories, CategoriesValue(s.db.categories)).0;
      var r2 := GetOrSet(r1, FacetKey(StableParams(a)), CountsValue(FreshCounts(a, s.db, site))).0;
      GetOrSetRegisters(s, Categories, CategoriesValue(s.db.categories));
      GetOrSetRegisters(r1, FacetKey(StableParams(a)), CountsValue(FreshCounts(a, s.db, site)));
      GetOrSetRegisters(r2, Products(StableParams(a)), ListingValue(FreshListing(a, s.db, site)));
    }
  }

  /** Over every run, silent updates included, each listing or facet key in the cache is in the registry. */
  lemma {:induction false} LiveKeysAreRegistered(s: State, es: seq<Event>, site: Site)
    requires Initial(s)
    ensures Registered(Run(s, es, site))
  {
    if es != [] {
      LiveKeysAreRegistered(s, es[..|es| - 1], site);
      StepRegisters(Run(s, es[..|es| - 1], site), es[|es| - 1], site);
    }
  }

  lemma GetOrSetListsOnce(s: State, k: Key, computed: Value)
    requires Distinct(s.registry)
    ensures Distinct(GetOrSet(s, k, computed).0.registry)
  {
  }

  /** The registry never lists a key twice, so it is no longer than the number of different keys written. */
  lemma {:induction false} RegistryListsOnce(s: State, es: seq<Event>, site: Site)
    requires Initial(s)
    ensures Distinct(Run(s, es, site).registry)
  {
    if es != [] {
      RegistryListsOnce(s, es[..|es| - 1], site);
      StepListsOnce(Run(s, es[..|es| - 1], site), es[|es| - 1], site);
    }
  }

  lemma StepListsOnce(s: State, e: Event, site: Site)
    requires Distinct(s.registry)
    ensures Distinct(Next(s, e, site).registry)
  {
    if e.Visit? {
      var a := AskOf(e.request, s.db, site);
      var r1 := GetOrSet(s, Categories, CategoriesValue(s.db.categories)).0;
      var r2 := GetOrSet(r1, FacetKey(StableParams(a)), CountsValue(FreshCounts(a, s.db, site))).0;
      GetOrSetListsOnce(s, Categories, CategoriesValue(s.db.categories));
      GetOrSetListsOnce(r1, FacetKey(StableParams(a)), CountsValue(FreshCounts(a, s.db, site)));
      GetOrSetListsOnce(r2, Products(StableParams(a)), ListingValue(FreshListing(a, s.db, site)));
    }
  }

  lemma GetOrSetFresh(s: State, k: Key, computed: Value, site: Site)
    requires AllFresh(s, site) && computed == FreshValue(k, s.db, site)
    ensures AllFresh(GetOrSet(s, k, computed).0, site) && GetOrSet(s, k, computed).1 == computed
  {
  }

  lemma ServeFresh(s: State, a: Ask, site: Site)
    requires AllFresh(s, site) && Routable(a)
    ensures AllFresh(Serve(s, a, site).0, site)
    ensures Serve(s, a, site).1 == FreshResponse(a, s.db, site)
  {
    KeyDeterminesAnswer(a, s.db, site);
    var counts, listing := CountsValue(FreshCounts(a, s.db, site)), ListingValue(FreshListing(a, s.db, site));
    var r1 := GetOrSet(s, Categories, CategoriesValue(s.db.categories)).0;
    var r2 := GetOrSet(r1, FacetKey(StableParams(a)), counts).0;
    GetOrSetFresh(s, Categories, CategoriesValue(s.db.categories), site);
    GetOrSetFresh(r1, FacetKey(StableParams(a)), counts, site);
    GetOrSetFresh(r2, Products(StableParams(a)), listing, site);
  }

  lemma {:induction false} RunFresh(s: State, es: seq<Event>, site: Site)
    requires Initial(s) && forall e :: e in es ==> !e.SilentUpdate?
    ensures AllFresh(Run(s, es, site), site)
  {
    if es != [] {
      var before, e := Run(s, es[..|es| - 1], site), es[|es| - 1];
      assert forall x :: x in es[..|es| - 1] ==> x in es;
      assert e in es;
      RunFresh(s, es[..|es| - 1], site);
      LiveKeysAreRegistered(s, es[..|es| - 1], site);
      StepRegisters(before, e, site);
      if e.Visit? && Routable(AskOf(e.request, before.db, site)) {
        ServeFresh(before, AskOf(e.request, before.db, site), site);
      }
    }
  }

  /**
   Transparency: after any run of visits, entry expiries and signalled writes, a request is
   answered exactly as if nothing were cached.
   */
  lemma CacheIsTransparent(s: State, es: seq<Event>, r: Request, site: Site)
    requires Initial(s) && forall e :: e in es ==> !e.SilentUpdate?
    requires Routable(AskOf(r, Run(s, es, site).db, site))
    ensures var t := Run(s, es, site); var a := AskOf(r, t.db, site);
      Serve(t, a, site).1 == FreshResponse(a, t.db, site)
  {
    RunFresh(s, es, site);
    var t := Run(s, es, site);
    ServeFresh(t, AskOf(r, t.db, site), site);
  }

  // --------------------------------------------------------- bounded staleness

  /** The states a run goes through, the first and the last included. */
  ghost function History(s: State, es: seq<Event>, site: Site): (h: seq<State>)
    ensures |h| == |es| + 1 && h[|es|] == Run(s, es, site)
  {
    if es == [] then [s]
    else
      var h := History(s, es[..|es| - 1], site);
      h + [Next(h[|h| - 1], es[|es| - 1], site)]
  }

  /** v is what moment j of the history would have computed for k, and that moment is less than the key's TTL ago. */
  ghost predicate FreshAt(h: seq<State>, site: Site, j: int, k: Key, v: Value) {
    && 0 <= j < |h|
    && v == FreshValue(k, h[j].db, site)
    && h[j].now <= h[|h| - 1].now < h[j].now + Ttl(k)
  }

  ghost predicate RecentlyFresh(h: seq<State>, site: Site, k: Key, v: Value) {
    exists j :: FreshAt(h, site, j, k, v)
  }

  ghost predicate StoredAt(h: seq<State>, site: Site, j: int, k: Key, entry: Entry) {
    && 0 <= j < |h|
    && entry.value == FreshValue(k, h[j].db, site)
    && entry.expiry == h[j].now + Ttl(k)
  }

  ghost predicate Stored(h: seq<State>, site: Site, k: Key, entry: Entry) {
    exists j :: StoredAt(h, site, j, k, entry)
  }

  ghost predicate Dated(h: seq<State>, site: Site, c: map<Key, Entry>) {
    forall k :: k in c ==> Stored(h, site, k, c[k])
  }

  ghost predicate Forward(h: seq<State>) {
    forall i, j :: 0 <= i <= j < |h| ==> h[i].now <= h[j].now
  }

  lemma StepForward(s: State, e: Event, site: Site)
    ensures s.now <= Next(s, e, site).now
  {
  }

  lemma {:induction false} HistoryGoesForward(s: State, es: seq<Event>, site: Site)
    ensures Forward(History(s, es, site))
  {
    if es != [] {
      var h := History(s, es[..|es| - 1], site);
      HistoryGoesForward(s, es[..|es| - 1], site);
      StepForward(h[|h| - 1], es[|es| - 1], site);
    }
  }

  lemma StoredLater(h: seq<State>, t: State, site: Site, k: Key, entry: Entry)
    requires Stored(h, site, k, entry)
    ensures Stored(h + [t], site, k, entry)
  {
    var j :| StoredAt(h, site, j, k, entry);
    assert (h + [t])[j] == h[j];
    assert StoredAt(h + [t], site, j, k, entry);
  }

  /** t is at the last moment of h: same clock, same database. */
  ghost predicate Present(h: seq<State>, t: State) {
    |h| > 0 && t.now == h[|h| - 1].now && t.db == h[|h| - 1].db
  }

  lemma GetOrSetDated(h: seq<State>, site: Site, t: State, k: Key, computed: Value)
    requires Dated(h, site, t.cache) && Present(h, t) && computed == FreshValue(k, t.db, site)
    ensures Dated(h, site, GetOrSet(t, k, computed).0.cache)
  {
    if !Live(t, k) {
      assert StoredAt(h, site, |h| - 1, k, Entry(computed, t.now + Ttl(k)));
    }
  }

  /** Whatever GetOrSet returns was fresh at a moment less than a TTL ago. */
  lemma GetOrSetIsRecent(h: seq<State>, site: Site, t: State, k: Key, computed: Value)
    requires Dated(h, site, t.cache) && Present(h, t) && Forward(h) && computed == FreshValue(k, t.db, site)
    ensures RecentlyFresh(h, site, k, GetOrSet(t, k, computed).1)
  {
    if Live(t, k) {
      var j :| StoredAt(h, site, j, k, t.cache[k]);
      assert FreshAt(h, site, j, k, t.cache[k].value);
    } else {
      assert FreshAt(h, site, |h| - 1, k, computed);
    }
  }

  lemma ServeIsRecent(h: seq<State>, site: Site, t: State, a: Ask)
    requires Dated(h, site, t.cache) && Present(h, t) && Forward(h) && Routable(a)
    ensures Dated(h, site, Serve(t, a, site).0.cache)
    ensures var page := Serve(t, a, site).1; page.Page? ==>
      && RecentlyFresh(h, site, Categories, page.categories)
      && RecentlyFresh(h, site, FacetKey(StableParams(a)), page.counts)
      && RecentlyFresh(h, site, Products(StableParams(a)), page.listing)
  {
    KeyDeterminesAnswer(a, t.db, site);
    var counts, listing := CountsValue(FreshCounts(a, t.db, site)), ListingValue(FreshListing(a, t.db, site));
    var r1 := GetOrSet(t, Categories, CategoriesValue(t.db.categories)).0;
    var r2 := GetOrSet(r1, FacetKey(StableParams(a)), counts).0;
    GetOrSetDated(h, site, t, Categories, CategoriesValue(t.db.categories));
    GetOrSetDated(h, site, r1, FacetKey(StableParams(a)), counts);
    GetOrSetDated(h, site, r2, Products(StableParams(a)), listing);
    GetOrSetIsRecent(h, site, t, Categories, CategoriesValue(t.db.categories));
    GetOrSetIsRecent(h, site, r1, FacetKey(StableParams(a)), counts);
    GetOrSetIsRecent(h, site, r2, Products(StableParams(a)), listing);
  }

  lemma DatedStep(h: seq<State>, site: Site, t: State, e: Event)
    requires Dated(h, site, t.cache) && Present(h, t) && Forward(h)
    ensures Dated(h + [Next(t, e, site)], site, Next(t, e, site).cache)
  {
    var t' := Next(t, e, site);
    if e.Visit? && Routable(AskOf(e.request, t.db, site)) {
      ServeIsRecent(h, site, t, AskOf(e.request, t.db, site));
    }
    assert Dated(h, site, t'.cache);
    forall k | k in t'.cache ensures Stored(h + [t'], site, k, t'.cache[k]) {
      StoredLater(h, t', site, k, t'.cache[k]);
    }
  }

  lemma {:induction false} RunDated(s: State, es: seq<Event>, site: Site)
    requires Initial(s)
    ensures Dated(History(s, es, site), site, Run(s, es, site).cache)
  {
    if es != [] {
      RunDated(s, es[..|es| - 1], site);
      HistoryGoesForward(s, es[..|es| - 1], site);
      DatedStep(History(s, es[..|es| - 1], site), site, Run(s, es[..|es| - 1], site), es[|es| - 1]);
    }
  }

  /**
   Bounded staleness: with silent updates anywhere in the run, every listing and every
   facet count served is the fresh answer of some database state of the preceding 300
   seconds, and the category list of the preceding 600.
   */
  lemma StalenessIsBounded(s: State, es: seq<Event>, a: Ask, site: Site)
    requires Initial(s) && Routable(a)
    ensures var h, page := History(s, es, site), Serve(Run(s, es, site), a, site).1;
      page.Page? ==>
        && RecentlyFresh(h, site, Categories, page.categories)
        && RecentlyFresh(h, site, FacetKey(StableParams(a)), page.counts)
        && RecentlyFresh(h, site, Products(StableParams(a)), page.listing)
  {
    RunDated(s, es, site);
    HistoryGoesForward(s, es, site);
    ServeIsRecent(History(s, es, site), site, Run(s, es, site), a);
  }

  /** The same for the category list: it is one of the preceding ten minutes. */
  lemma RecentCategories(h: seq<State>, site: Site, v: Value)
    requires RecentlyFresh(h, site, Categories, v)
    ensures exists j :: 0 <= j < |h| && h[|h| - 1].now < h[j].now + 600.0 && v == CategoriesValue(h[j].db.categories)
  {
    var j :| FreshAt(h, site, j, Categories, v);
  }

  /** What RecentlyFresh says in the terms of the request: the answer it would have got at that moment. */
  lemma RecentlyFreshIsAnAnswer(h: seq<State>, site: Site, a: Ask, v: Value)
    requires Routable(a)
    ensures RecentlyFresh(h, site, Products(StableParams(a)), v) ==>
      exists j :: 0 <= j < |h| && h[|h| - 1].now < h[j].now + 300.0 && v == ListingValue(FreshListing(a, h[j].db, site))
    ensures RecentlyFresh(h, site, FacetKey(StableParams(a)), v) ==>
      exists j :: 0 <= j < |h| && h[|h| - 1].now < h[j].now + 300.0 && v == CountsValue(FreshCounts(a, h[j].db, site))
  {
    if j :| FreshAt(h, site, j, Products(StableParams(a)), v) {
      KeyDeterminesAnswer(a, h[j].db, site);
    }
    if j :| FreshAt(h, site, j, FacetKey(StableParams(a)), v) {
      KeyDeterminesAnswer(a, h[j].db, site);
    }
  }

  /** The view and the signal handlers in their own form. */
  class Catalog {
    var state: State
    const site: Site

    constructor (db: Db, now: real, site: Site)
      ensures this.site == site && state == State(now, db, map[], [])
    {
      this.site := site;
      state := State(now, db, map[], []);
    }

    /** Afterwards the key can be enumerated; it is never listed twice, and no key is lost. */
    method RegisterCacheKey(k: Key)
      modifies this
      ensures state == old(state).(registry := state.registry)
      ensures old(state).registry <= state.registry
      ensures forall x :: x in state.registry <==> x in old(state).registry || x == k
      ensures Distinct(old(state).registry) ==> Distinct(state.registry)
      ensures Registered(old(state)) ==> Registered(state)
      ensures state.registry == Register(old(state).registry, k)
    {
      var keys := state.registry;
      if k !in keys {
        keys := keys + [k];
        state := state.(registry := keys);
      }
    }

    method Fetch(k: Key, computed: Value) returns (v: Value)
      modifies this
      ensures (state, v) == GetOrSet(old(state), k, computed)
    {
      if Live(state, k) {
        v := state.cache[k].value;
      } else {
        v := computed;
        if k != Categories {
          RegisterCacheKey(k);
        }
        state := state.(cache := state.cache[k := Entry(v, state.now + Ttl(k))]);
      }
    }

    method ProductList(r: Request) returns (response: Response)
      requires Routable(AskOf(r, state.db, site))
      modifies this
      ensures (state, response) == Serve(old(state), AskOf(r, old(state).db, site), site)
    {
      var db := state.db;
      var a := AskOf(r, db, site);
      var categories := Fetch(Categories, CategoriesValue(db.categories));
      if a.categorySlug.Some? && a.categorySlug.value !in db.categories {
        return NotFound;
      }
      var counts := Fetch(FacetKey(StableParams(a)), CountsValue(FreshCounts(a, db, site)));
      var listing := Fetch(Products(StableParams(a)), ListingValue(FreshListing(a, db, site)));
      response := Page(categories, counts, listing);
    }

    /** The post_save and post_delete handlers: delete every registered key, the category list, then the registry. */
    method OnChange(db: Db)
      modifies this
      ensures state == Clear(old(state).(db := db))
      ensures Registered(old(state)) ==> state.cache == map[]
    {
      state := state.(db := db);
      var doomed := state.registry + [Categories];
      var cache := state.cache;
      for i := 0 to |doomed|
        invariant cache == map k | k in state.cache && k !in doomed[..i] :: state.cache[k]
        invariant state == old(state).(db := db)
      {
        cache := cache - {doomed[i]};
        assert doomed[..i + 1] == doomed[..i] + [doomed[i]];
      }
      assert doomed[..|doomed|] == doomed;
      state := state.(cache := cache, registry := []);
    }
  }
}
