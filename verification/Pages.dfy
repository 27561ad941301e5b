/**
 Pagination: what the paginator slices, what the cache stores of a page, and what the
 stand-in page object computes from it.
 */
module Pages {
  import opened Options

  /** The stored triple with the page size: everything the stand-in knows. */
  datatype CachedPage<T> = CachedPage(objects: seq<T>, number: int, count: nat, perPage: nat) {
    function NumPages(): int
      requires perPage > 0
    {
      if count == 0 then 1 else (count + perPage - 1) / perPage
    }

    predicate HasPrevious() { number > 1 }

    predicate HasNext()
      requires perPage > 0
    {
      number < NumPages()
    }

    /** None is the EmptyPage exception. */
    function PreviousPageNumber(): Option<int> {
      if HasPrevious() then Some(number - 1) else None
    }

    function NextPageNumber(): Option<int>
      requires perPage > 0
    {
      if HasNext() then Some(number + 1) else None
    }
  }

  /** Paginator.num_pages: max(1, count) divided by the page size, rounded up. */
  function RealNumPages(count: nat, perPage: nat): int
    requires perPage > 0
  {
    var hits := if count < 1 then 1 else count;
    -((-hits) / perPage)
  }

  /** Paginator.get_page: not an integer gives page 1, out of range (either side) the last page. */
  function PageNumber(requested: Option<int>, count: nat, perPage: nat): int
    requires perPage > 0
  {
    match requested
    case None => 1
    case Some(n) => if n < 1 || n > RealNumPages(count, perPage) then RealNumPages(count, perPage) else n
  }

  /** Paginator.page: the slice of page n. */
  function Slice<T>(items: seq<T>, n: int, perPage: nat): seq<T>
    requires perPage > 0
  {
    var bottom := (n - 1) * perPage;
    var top := if bottom + perPage >= |items| then |items| else bottom + perPage;
    if 0 <= bottom <= top then items[bottom..top] else []
  }

  function GetPage<T>(items: seq<T>, requested: Option<int>, perPage: nat): CachedPage<T>
    requires perPage > 0
  {
    var n := PageNumber(requested, |items|, perPage);
    CachedPage(Slice(items, n, perPage), n, |items|, perPage)
  }

  lemma DivideUp(count: nat, perPage: nat, n: int)
    requires perPage > 0 && count > 0 && n == (count + perPage - 1) / perPage
    ensures n >= 1 && (n - 1) * perPage < count <= n * perPage
  {
    assert count + perPage - 1 == n * perPage + (count + perPage - 1) % perPage;
    assert (n - 1) * perPage == n * perPage - perPage;
    assert n <= 0 ==> n * perPage <= 0;
  }

  lemma TimesMonotone(x: int, y: int, per: int)
    requires per > 0 && x <= y
    ensures x * per <= y * per
  {
    assert (y - x) * per >= 0;
  }

  lemma BetweenMultiples(a: int, b: int, perPage: int, hits: int)
    requires perPage > 0 && (a - 1) * perPage < hits <= a * perPage && (b - 1) * perPage < hits <= b * perPage
    ensures a == b
  {
    if a < b {
      TimesMonotone(a, b - 1, perPage);
    } else if b < a {
      TimesMonotone(b, a - 1, perPage);
    }
  }

  lemma RoundedUp(hits: int, per: int)
    requires per > 0
    ensures var n := -((-hits) / per); (n - 1) * per < hits <= n * per
  {
    var q := (-hits) / per;
    assert -hits == q * per + (-hits) % per;
    assert (-q) * per == -(q * per) && (-q - 1) * per == -(q * per) - per;
  }

  /** The stand-in and the paginator agree on the number of pages: the least n >= 1 whose pages hold everything. */
  lemma NumPagesAgree<T>(page: CachedPage<T>)
    requires page.perPage > 0
    ensures page.NumPages() == RealNumPages(page.count, page.perPage) >= 1
    ensures page.count <= page.NumPages() * page.perPage
    ensures page.NumPages() > 1 ==> (page.NumPages() - 1) * page.perPage < page.count
  {
    var per := page.perPage;
    var hits := if page.count < 1 then 1 else page.count;
    var up := (hits + per - 1) / per;
    RoundedUp(hits, per);
    DivideUp(hits, per, up);
    BetweenMultiples(RealNumPages(page.count, per), up, per, hits);
    if page.count == 0 {
      DivideUp(1, per, up);
      BetweenMultiples(1, up, per, 1);
    }
  }

  /** The pages 1..n put end to end. */
  function Tiles<T>(items: seq<T>, n: nat, perPage: nat): seq<T>
    requires perPage > 0
  {
    if n == 0 then [] else Tiles(items, n - 1, perPage) + Slice(items, n, perPage)
  }

  lemma {:induction false} TilesArePrefix<T>(items: seq<T>, n: nat, perPage: nat)
    requires perPage > 0
    ensures Tiles(items, n, perPage) == items[..if n * perPage < |items| then n * perPage else |items|]
  {
    if n > 0 {
      TilesArePrefix(items, n - 1, perPage);
      assert n * perPage == (n - 1) * perPage + perPage;
    }
  }

  /** The cached pages 1..num_pages are the whole listing, each product once, in order. */
  lemma PagesTile<T>(items: seq<T>, requested: Option<int>, perPage: nat)
    requires perPage > 0
    ensures var page := GetPage(items, requested, perPage);
      && 1 <= page.number <= page.NumPages()
      && page.count == |items|
      && Tiles(items, page.NumPages(), perPage) == items
  {
    var page := GetPage(items, requested, perPage);
    NumPagesAgree(page);
    TilesArePrefix(items, page.NumPages(), perPage);
  }

  /**
   Where a request for a page goes: no integer goes to page 1, a page that exists to itself,
   and every other number, too small or too large, to the last page.
   */
  lemma PageNumberIs(requested: Option<int>, count: nat, perPage: nat)
    requires perPage > 0
    ensures var n, hits := PageNumber(requested, count, perPage), if count == 0 then 1 else count;
      && (requested.None? ==> n == 1)
      && (requested.Some? && 1 <= requested.value && (requested.value - 1) * perPage < hits ==> n == requested.value)
      && (requested.Some? && (requested.value < 1 || hits <= (requested.value - 1) * perPage) ==>
            n >= 1 && (n - 1) * perPage < hits <= n * perPage)
  {
    var hits := if count == 0 then 1 else count;
    var last := RealNumPages(count, perPage);
    RoundedUp(hits, perPage);
    var page: CachedPage<int> := CachedPage([], 1, count, perPage);
    NumPagesAgree(page);
    if requested.Some? {
      var k := requested.value;
      if k > last {
        TimesMonotone(last, k - 1, perPage);
      } else {
        TimesMonotone(k - 1, last - 1, perPage);
      }
    }
  }

  /** Page n of `last` ends before the listing does exactly when it is not the last. */
  lemma EndsBefore(n: int, last: int, per: int, count: int)
    requires per > 0 && 1 <= n <= last
    requires count <= last * per && (last > 1 ==> (last - 1) * per < count)
    ensures n < last <==> n * per < count
  {
    if n < last {
      TimesMonotone(n, last - 1, per);
    } else {
      assert n == last;
    }
  }

  /** Page n of a listing with more after it is full, and the next one is not empty. */
  lemma FullPage<T>(items: seq<T>, n: int, perPage: nat)
    requires perPage > 0 && n >= 1 && n * perPage < |items|
    ensures |Slice(items, n, perPage)| == perPage && Slice(items, n + 1, perPage) != []
  {
    TimesMonotone(1, n, perPage);
    assert (n - 1) * perPage == n * perPage - perPage;
    SliceAt(items, n, n * perPage - perPage, perPage);
    SliceAt(items, n + 1, n * perPage, perPage);
  }

  /** has_next says there are products after this page, and then the page is full and the next one is not empty. */
  lemma NextIsReal<T>(items: seq<T>, requested: Option<int>, perPage: nat)
    requires perPage > 0
    ensures var page := GetPage(items, requested, perPage);
      && (page.HasNext() <==> page.number * perPage < |items|)
      && (page.HasNext() ==> |page.objects| == perPage && Slice(items, page.number + 1, perPage) != [])
  {
    var page := GetPage(items, requested, perPage);
    NumPagesAgree(page);
    EndsBefore(page.number, page.NumPages(), perPage, |items|);
    if page.HasNext() {
      FullPage(items, page.number, perPage);
    }
  }

  /** Only page 1 has no page before it; the one named as previous is full. */
  lemma PreviousIsReal<T>(items: seq<T>, requested: Option<int>, perPage: nat)
    requires perPage > 0
    ensures var page := GetPage(items, requested, perPage);
      match page.PreviousPageNumber()
      case None => page.number == 1
      case Some(m) => 1 <= m && m + 1 == page.number && |Slice(items, m, perPage)| == perPage
  {
    var page := GetPage(items, requested, perPage);
    var m := page.number - 1;
    NumPagesAgree(page);
    if m >= 1 {
      EndsBefore(m, page.NumPages(), perPage, |items|);
      FullPage(items, m, perPage);
    }
  }

  lemma SliceAt<T>(items: seq<T>, n: int, bottom: int, perPage: nat)
    requires perPage > 0 && bottom == (n - 1) * perPage && bottom >= 0
    ensures |Slice(items, n, perPage)| ==
      if bottom >= |items| then 0 else if bottom + perPage >= |items| then |items| - bottom else perPage
  {
  }

  /** The numbers met by following next_page_number from page n of a listing. */
  function Walk<T>(items: seq<T>, n: int, perPage: nat): seq<int>
    requires perPage > 0 && 1 <= n <= RealNumPages(|items|, perPage)
    decreases RealNumPages(|items|, perPage) - n
  {
    var page := GetPage(items, Some(n), perPage);
    match page.NextPageNumber()
    case None => [n]
    case Some(next) =>
      NumPagesAgree(page);
      [n] + Walk(items, next, perPage)
  }

  /** Following the next links from page 1 meets every page once and stops at the last. */
  lemma {:induction false} WalkMeetsAll<T>(items: seq<T>, n: int, perPage: nat)
    requires perPage > 0 && 1 <= n <= RealNumPages(|items|, perPage)
    ensures var last := RealNumPages(|items|, perPage);
      Walk(items, n, perPage) == seq(last - n + 1, i => n + i)
    decreases RealNumPages(|items|, perPage) - n
  {
    var page := GetPage(items, Some(n), perPage);
    NumPagesAgree(page);
    if n < RealNumPages(|items|, perPage) {
      WalkMeetsAll(items, n + 1, perPage);
    }
  }
}
