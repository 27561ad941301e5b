/**
 Reading a selection from the query string and writing the links that change it.

 Params is a QueryDict: each name with its list of values. Writing a query string and
 reading it back keeps every non-empty list, so links are given as the Params they decode
 to. `toInt` is Python's int() on a string; only what it gives on "4", "3" and "2" matters.
 */
module FacetLinks {
  import opened Options
  import opened Seqs
  import opened Facets

  type Params = map<string, seq<string>>

  const PARAM_CATEGORY := "category"
  const PARAM_PRICE := "price"
  const PARAM_RATING := "rating"
  const PARAM_STOCK := "stock"
  const PARAM_PAGE := "page"

  function GetList(params: Params, name: string): seq<string> {
    if name in params then params[name] else []
  }

  /** QueryDict.get: the last value. */
  predicate StockOn(params: Params) {
    var values := GetList(params, PARAM_STOCK);
    values != [] && values[|values| - 1] == "in"
  }

  /** Known values in order of first occurrence. */
  function Clean(values: seq<string>, valid: set<string>): (kept: seq<string>)
    ensures forall v :: v in kept <==> v in values && v in valid
    ensures Distinct(kept)
  {
    if values == [] then []
    else
      var last := values[|values| - 1];
      assert values == values[..|values| - 1] + [last];
      var kept := Clean(values[..|values| - 1], valid);
      if last in valid && last !in kept then kept + [last] else kept
  }

  /** The largest rating step among the values that read as one. */
  function BestRating(values: seq<string>, toInt: string -> Option<int>): Option<int> {
    if values == [] then None
    else
      var best := BestRating(values[..|values| - 1], toInt);
      var read := toInt(values[|values| - 1]);
      if read.Some? && read.value in RATING_STEPS && (best.None? || best.value < read.value) then read else best
  }

  function PriceKeySet(): set<string> {
    set k | k in PRICE_KEYS
  }

  function Parse(params: Params, slugs: set<string>, toInt: string -> Option<int>): Selection {
    Selection(
      Clean(GetList(params, PARAM_CATEGORY), slugs),
      Clean(GetList(params, PARAM_PRICE), PriceKeySet()),
      BestRating(GetList(params, PARAM_RATING), toInt),
      StockOn(params))
  }

  /** The new values of the facet whose link was built. */
  function Chosen(params: Params, name: string, value: string): seq<string> {
    var current := GetList(params, name);
    if name == PARAM_RATING then (if value in current then [] else [value])
    else if name == PARAM_STOCK then (if StockOn(params) then [] else [value])
    else if value in current then Keep(current, (v: string) => v != value)
    else current + [value]
  }

  function FacetUrl(params: Params, name: string, value: string): Params {
    var others := map k | k in params && k != name && k != PARAM_PAGE && params[k] != [] :: params[k];
    var chosen := Chosen(params, name, value);
    if chosen == [] then others else others[name := chosen]
  }

  const FACET_PARAMS: set<string> := {PARAM_CATEGORY, PARAM_PRICE, PARAM_RATING, PARAM_STOCK}

  function ClearAllUrl(params: Params): Params {
    map k | k in params && k != PARAM_PAGE && k !in FACET_PARAMS && params[k] != [] :: params[k]
  }

  /** Add when absent, remove when present. */
  function Toggled(values: seq<string>, v: string): seq<string> {
    if v in values then Keep(values, (x: string) => x != v) else values + [v]
  }

  // ------------------------------------------------------ what a link does

  /** Every parameter but the facet's own keeps its values, and page is gone. */
  lemma LinkKeepsOthers(params: Params, name: string, value: string, other: string)
    requires other != name && name != PARAM_PAGE
    ensures GetList(FacetUrl(params, name, value), other) == if other == PARAM_PAGE then [] else GetList(params, other)
    ensures GetList(FacetUrl(params, name, value), name) == Chosen(params, name, value)
    ensures PARAM_PAGE !in FacetUrl(params, name, value)
    ensures forall k :: k in FacetUrl(params, name, value) ==> FacetUrl(params, name, value)[k] != []
  {
  }

  lemma NamesDiffer()
    ensures PARAM_CATEGORY != PARAM_PRICE && PARAM_CATEGORY != PARAM_RATING && PARAM_CATEGORY != PARAM_STOCK
    ensures PARAM_PRICE != PARAM_RATING && PARAM_PRICE != PARAM_STOCK && PARAM_RATING != PARAM_STOCK
    ensures PARAM_PAGE !in FACET_PARAMS
  {
  }

  lemma {:induction false} CleanWithout(values: seq<string>, valid: set<string>, v: string)
    ensures Clean(Keep(values, (x: string) => x != v), valid) == Keep(Clean(values, valid), (x: string) => x != v)
  {
    if values != [] {
      var rest, last := values[..|values| - 1], values[|values| - 1];
      var f := (x: string) => x != v;
      assert values == rest + [last];
      CleanWithout(rest, valid, v);
      KeepSame(rest, f, (x: string) => x != v);
      KeepSame(values, f, (x: string) => x != v);
      KeepSame(Clean(rest, valid), f, (x: string) => x != v);
      KeepSame(Clean(values, valid), f, (x: string) => x != v);
      if last != v {
        assert (Keep(rest, f) + [last])[..|Keep(rest, f)|] == Keep(rest, f);
      }
      var kept := Clean(rest, valid);
      if last in valid && last !in kept {
        assert (kept + [last])[..|kept|] == kept;
      }
    }
  }

  /** A multi-select link toggles its value in the cleaned list, whatever unknown or repeated values the URL holds. */
  lemma ChosenIsToggled(params: Params, name: string, v: string, valid: set<string>)
    requires name != PARAM_RATING && name != PARAM_STOCK && v in valid
    ensures Clean(Chosen(params, name, v), valid) == Toggled(Clean(GetList(params, name), valid), v)
  {
    var current := GetList(params, name);
    if v in current {
      CleanWithout(current, valid, v);
    } else {
      assert (current + [v])[..|current|] == current;
    }
  }

  lemma CategoryLink(params: Params, v: string, slugs: set<string>, toInt: string -> Option<int>)
    requires v in slugs
    ensures var sel := Parse(params, slugs, toInt);
      Parse(FacetUrl(params, PARAM_CATEGORY, v), slugs, toInt) == sel.(categories := Toggled(sel.categories, v))
  {
    NamesDiffer();
    LinkKeepsOthers(params, PARAM_CATEGORY, v, PARAM_PRICE);
    LinkKeepsOthers(params, PARAM_CATEGORY, v, PARAM_RATING);
    LinkKeepsOthers(params, PARAM_CATEGORY, v, PARAM_STOCK);
    ChosenIsToggled(params, PARAM_CATEGORY, v, slugs);
  }

  lemma PriceLink(params: Params, v: string, slugs: set<string>, toInt: string -> Option<int>)
    requires v in PRICE_KEYS
    ensures var sel := Parse(params, slugs, toInt);
      Parse(FacetUrl(params, PARAM_PRICE, v), slugs, toInt) == sel.(prices := Toggled(sel.prices, v))
  {
    NamesDiffer();
    LinkKeepsOthers(params, PARAM_PRICE, v, PARAM_CATEGORY);
    LinkKeepsOthers(params, PARAM_PRICE, v, PARAM_RATING);
    LinkKeepsOthers(params, PARAM_PRICE, v, PARAM_STOCK);
    ChosenIsToggled(params, PARAM_PRICE, v, PriceKeySet());
  }

  lemma StockLink(params: Params, slugs: set<string>, toInt: string -> Option<int>)
    ensures var sel := Parse(params, slugs, toInt);
      Parse(FacetUrl(params, PARAM_STOCK, "in"), slugs, toInt) == sel.(stock := !sel.stock)
  {
  }

  function StepName(step: int): string {
    if step == 4 then "4" else if step == 3 then "3" else "2"
  }

  lemma StepNames()
    ensures StepName(4) == "4" && StepName(3) == "3" && StepName(2) == "2"
  {
  }

  ghost predicate ReadsSteps(toInt: string -> Option<int>) {
    forall n :: n in RATING_STEPS ==> toInt(StepName(n)) == Some(n)
  }

  /** A rating link goes by the raw text: it clears the facet when the URL already has it, else replaces it. */
  lemma RatingLink(params: Params, step: int, slugs: set<string>, toInt: string -> Option<int>)
    requires step in RATING_STEPS && ReadsSteps(toInt)
    ensures var sel := Parse(params, slugs, toInt);
      Parse(FacetUrl(params, PARAM_RATING, StepName(step)), slugs, toInt) ==
        sel.(rating := if StepName(step) in GetList(params, PARAM_RATING) then None else Some(step))
  {
    NamesDiffer();
    LinkKeepsOthers(params, PARAM_RATING, StepName(step), PARAM_CATEGORY);
    LinkKeepsOthers(params, PARAM_RATING, StepName(step), PARAM_PRICE);
    LinkKeepsOthers(params, PARAM_RATING, StepName(step), PARAM_STOCK);
    assert BestRating([], toInt) == None;
    assert [StepName(step)][..|[StepName(step)]| - 1] == [];
    assert BestRating([StepName(step)], toInt) == Some(step);
  }

  /**
   "Clicking a selected value again removes it" holds of a rating exactly when the URL
   spells it the way the link does.
   */
  lemma SelectedRatingIsRemovedIff(params: Params, step: int, slugs: set<string>, toInt: string -> Option<int>)
    requires step in RATING_STEPS && ReadsSteps(toInt)
    requires Parse(params, slugs, toInt).rating == Some(step)
    ensures Parse(FacetUrl(params, PARAM_RATING, StepName(step)), slugs, toInt).rating == None
      <==> StepName(step) in GetList(params, PARAM_RATING)
  {
  }

  /** ?rating=%204 selects four stars, and clicking four stars again does not remove it. */
  lemma SpacedRatingIsNotRemoved(slugs: set<string>, toInt: string -> Option<int>)
    requires ReadsSteps(toInt) && toInt(" 4") == Some(4)
    ensures var params: Params := map[PARAM_RATING := [" 4"]];
      && Parse(params, slugs, toInt).rating == Some(4)
      && Parse(FacetUrl(params, PARAM_RATING, "4"), slugs, toInt).rating == Some(4)
  {
  }

  /** Clicking a rating twice restores it exactly when it was selected by that text, or nothing was. */
  lemma RatingTwiceIff(params: Params, step: int, slugs: set<string>, toInt: string -> Option<int>)
    requires step in RATING_STEPS && ReadsSteps(toInt)
    ensures var sel := Parse(params, slugs, toInt);
      var name := StepName(step);
      var twice := FacetUrl(FacetUrl(params, PARAM_RATING, name), PARAM_RATING, name);
      (Parse(twice, slugs, toInt).rating == sel.rating)
      <==> (sel.rating == if name in GetList(params, PARAM_RATING) then Some(step) else None)
  {
    var name := StepName(step);
    var once := FacetUrl(params, PARAM_RATING, name);
    RatingLink(params, step, slugs, toInt);
    RatingLink(once, step, slugs, toInt);
    NamesDiffer();
    LinkKeepsOthers(params, PARAM_RATING, name, PARAM_CATEGORY);
  }

  lemma ToggledTwice(values: seq<string>, v: string)
    ensures forall x :: x in Toggled(Toggled(values, v), v) <==> x in values
    ensures forall x :: x in Toggled(values, v) <==> ((x in values) != (x == v))
  {
  }

  ghost predicate SameChoices(a: Selection, b: Selection) {
    && (forall x :: x in a.categories <==> x in b.categories)
    && (forall x :: x in a.prices <==> x in b.prices)
    && a.rating == b.rating && a.stock == b.stock
  }

  /** Clicking the same category, price or stock link twice selects what was selected before. */
  lemma TwiceRestores(params: Params, name: string, v: string, slugs: set<string>, toInt: string -> Option<int>)
    requires (name == PARAM_CATEGORY && v in slugs) || (name == PARAM_PRICE && v in PRICE_KEYS)
             || (name == PARAM_STOCK && v == "in")
    ensures SameChoices(Parse(FacetUrl(FacetUrl(params, name, v), name, v), slugs, toInt), Parse(params, slugs, toInt))
  {
    var once := FacetUrl(params, name, v);
    var sel := Parse(params, slugs, toInt);
    if name == PARAM_CATEGORY {
      CategoryLink(params, v, slugs, toInt);
      CategoryLink(once, v, slugs, toInt);
      ToggledTwice(sel.categories, v);
    } else if name == PARAM_PRICE {
      PriceLink(params, v, slugs, toInt);
      PriceLink(once, v, slugs, toInt);
      ToggledTwice(sel.prices, v);
    } else {
      StockLink(params, slugs, toInt);
      StockLink(once, slugs, toInt);
    }
  }

  /** parse_facets only ever yields selections the counts are true of. */
  lemma ParseIsWellFormed(params: Params, slugs: set<string>, toInt: string -> Option<int>)
    ensures WellFormed(Parse(params, slugs, toInt), slugs)
  {
    BestRatingIsStep(GetList(params, PARAM_RATING), toInt);
  }

  lemma {:induction false} BestRatingIsStep(values: seq<string>, toInt: string -> Option<int>)
    ensures var best := BestRating(values, toInt);
      && (best.Some? ==> best.value in RATING_STEPS && exists v :: v in values && toInt(v) == best)
      && (forall v :: v in values && toInt(v).Some? && toInt(v).value in RATING_STEPS ==>
            best.Some? && toInt(v).value <= best.value)
  {
    if values != [] {
      assert values == values[..|values| - 1] + [values[|values| - 1]];
      BestRatingIsStep(values[..|values| - 1], toInt);
    }
  }

  /** "Clear all" leaves no facet selected and every other parameter but page as it was. */
  lemma ClearAllClears(params: Params, slugs: set<string>, toInt: string -> Option<int>, other: string)
    ensures Parse(ClearAllUrl(params), slugs, toInt) == Selection([], [], None, false)
    ensures GetList(ClearAllUrl(params), other) ==
      if other in FACET_PARAMS || other == PARAM_PAGE then [] else GetList(params, other)
  {
  }

  /** Only the last stock value counts, and only "in" selects anything. */
  lemma StockOnIs(params: Params, values: seq<string>, last: string)
    ensures StockOn(params["stock" := values + [last]]) <==> last == "in"
    ensures !StockOn(params["stock" := []]) && !StockOn(params - {"stock"})
  {
  }

  /** A whole query: unknown and repeated values are dropped, other parameters are ignored. */
  lemma ParseOf(slug: string, unknown: string, q: string, toInt: string -> Option<int>)
    requires slug != unknown && ReadsSteps(toInt) && toInt("9") == Some(9) && toInt("x") == None
    ensures Parse(map["category" := [unknown, slug, slug], "price" := ["25-50", "free"], "rating" := ["x", "2", "9", "3"],
                      "stock" := ["in"], "q" := [q]], {slug}, toInt)
      == Selection([slug], ["25-50"], Some(3), true)
  {
    var params: Params := map["category" := [unknown, slug, slug], "price" := ["25-50", "free"],
                              "rating" := ["x", "2", "9", "3"], "stock" := ["in"], "q" := [q]];
    assert params["category"] == [unknown, slug, slug] && params["price"] == ["25-50", "free"] by {
      ParamNames();
    }
    assert params["rating"] == ["x", "2", "9", "3"] && params["stock"] == ["in"] by {
      ParamNames();
    }
    CleanThree(unknown, slug);
    CleanTwo();
    BestOfFour(toInt);
  }

  lemma ParamNames()
    ensures "category" != "price" && "category" != "rating" && "category" != "stock" && "category" != "q"
    ensures "price" != "rating" && "price" != "stock" && "price" != "q"
    ensures "rating" != "stock" && "rating" != "q" && "stock" != "q"
  {
    assert "category"[0] == 'c' && "price"[0] == 'p' && "rating"[0] == 'r' && "stock"[0] == 's' && "q"[0] == 'q';
  }

  lemma CleanThree(unknown: string, slug: string)
    requires slug != unknown
    ensures Clean([unknown, slug, slug], {slug}) == [slug]
  {
    var v := [unknown, slug, slug];
    assert v[..2] == [unknown, slug] && [unknown, slug][..1] == [unknown] && [unknown][..0] == [];
    assert Clean([unknown], {slug}) == [];
    assert Clean([unknown, slug], {slug}) == [slug];
  }

  lemma CleanTwo()
    ensures Clean(["25-50", "free"], PriceKeySet()) == ["25-50"]
  {
    var v := ["25-50", "free"];
    assert PRICE_KEYS[1] == "25-50";
    assert "free"[0] == 'f' && PRICE_KEYS[0][0] == 'u' && PRICE_KEYS[1][0] == '2' && PRICE_KEYS[2][0] == '5'
      && PRICE_KEYS[3][0] == '1';
    assert "free" !in PRICE_KEYS;
    assert v[..1] == ["25-50"] && ["25-50"][..0] == [];
    assert Clean(["25-50"], PriceKeySet()) == ["25-50"];
  }

  lemma BestOfFour(toInt: string -> Option<int>)
    requires ReadsSteps(toInt) && toInt("9") == Some(9) && toInt("x") == None
    ensures BestRating(["x", "2", "9", "3"], toInt) == Some(3)
  {
    var v := ["x", "2", "9", "3"];
    assert RATING_STEPS[1] == 3 && RATING_STEPS[2] == 2 && toInt(StepName(3)) == Some(3) && toInt(StepName(2)) == Some(2);
    assert v[..3] == ["x", "2", "9"] && ["x", "2", "9"][..2] == ["x", "2"] && ["x", "2"][..1] == ["x"] && ["x"][..0] == [];
    assert BestRating(["x"], toInt) == None;
    assert BestRating(["x", "2"], toInt) == Some(2);
    assert BestRating(["x", "2", "9"], toInt) == Some(2);
  }

  // ------------------------------------------------------------- the loops

  method CleanSlugs(values: seq<string>, valid: set<string>) returns (kept: seq<string>)
    ensures kept == Clean(values, valid)
  {
    var seen: set<string> := {};
    kept := [];
    for i := 0 to |values|
      invariant kept == Clean(values[..i], valid)
      invariant forall v :: v in seen <==> v in kept
    {
      assert values[..i + 1][..i] == values[..i];
      if values[i] in valid && values[i] !in seen {
        seen := seen + {values[i]};
        kept := kept + [values[i]];
      }
    }
    assert values[..|values|] == values;
  }

  method ParseFacets(params: Params, slugs: set<string>, toInt: string -> Option<int>) returns (sel: Selection)
    ensures sel == Parse(params, slugs, toInt)
  {
    var categories := CleanSlugs(GetList(params, PARAM_CATEGORY), slugs);
    var prices := CleanSlugs(GetList(params, PARAM_PRICE), PriceKeySet());
    var values := GetList(params, PARAM_RATING);
    var best: Option<int> := None;
    for i := 0 to |values|
      invariant best == BestRating(values[..i], toInt)
    {
      assert values[..i + 1][..i] == values[..i];
      var read := toInt(values[i]);
      if read.Some? && read.value in RATING_STEPS && (best.None? || best.value < read.value) {
        best := read;
      }
    }
    assert values[..|values|] == values;
    sel := Selection(categories, prices, best, StockOn(params));
  }

  /** Copies parameter lists value by value, then replaces the facet's own list. */
  method BuildFacetUrl(params: Params, name: string, value: string) returns (url: Params)
    ensures url == FacetUrl(params, name, value)
  {
    url := map[];
    var todo := params.Keys;
    while todo != {}
      invariant todo <= params.Keys
      invariant forall k :: k in url <==> k in params && k !in todo && k != name && params[k] != []
      invariant forall k :: k in url ==> url[k] == params[k]
      decreases todo
    {
      var key :| key in todo;
      if key != name {
        url := AppendList(url, key, params[key]);
      }
      todo := todo - {key};
    }
    url := url - {PARAM_PAGE};
    var chosen := Chosen(params, name, value);
    if chosen != [] {
      url := url[name := chosen];
    }
    assert url == FacetUrl(params, name, value);
  }

  /** appendlist for each value of a name the dictionary does not have yet. */
  method AppendList(params: Params, key: string, values: seq<string>) returns (r: Params)
    requires key !in params
    ensures r == if values == [] then params else params[key := values]
  {
    r := params;
    for i := 0 to |values|
      invariant r == if i == 0 then params else params[key := values[..i]]
    {
      r := r[key := (if key in r then r[key] else []) + [values[i]]];
      assert values[..i] + [values[i]] == values[..i + 1];
    }
    assert values[..|values|] == values;
  }
}
