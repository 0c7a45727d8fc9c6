/** Paging arithmetic of the tab grid: which tabs a page shows, how many
    pages the indicator announces, and the guarded Prev/Next steps. */
module Paging {

  function Min(a: int, b: int): int { if a <= b then a else b }

  /** `Array.prototype.slice(begin, end)` for non-negative arguments: both ends
      are clamped to the length and an empty range gives the empty array. */
  function JsSlice<T>(s: seq<T>, begin: nat, end: nat): (r: seq<T>)
    ensures begin >= |s| || end <= begin ==> r == []
    ensures begin < |s| && begin < end ==> r == s[begin..Min(end, |s|)]
    ensures |r| <= |s|
  {
    var b := Min(begin, |s|);
    var e := Min(end, |s|);
    if e <= b then [] else s[b..e]
  }

  /** First index of a page. */
  function PageStart(page: nat, perPage: nat): nat { page * perPage }

  /** The tabs rendered on `page`: `tabs.slice(start, min(start + perPage, n))`. */
  function VisibleSlice<T>(tabs: seq<T>, page: nat, perPage: nat): (r: seq<T>)
    requires perPage > 0
    ensures |r| <= perPage
    ensures PageStart(page, perPage) >= |tabs| ==> r == []
    ensures PageStart(page, perPage) < |tabs| ==>
      r == tabs[PageStart(page, perPage)..Min(PageStart(page, perPage) + perPage, |tabs|)]
    ensures forall i :: 0 <= i < |r| ==> PageStart(page, perPage) + i < |tabs| && r[i] == tabs[PageStart(page, perPage) + i]
  {
    var start := PageStart(page, perPage);
    JsSlice(tabs, start, Min(start + perPage, |tabs|))
  }

  /** `Math.ceil(n / perPage)` for a positive page size: the least number of
      pages of `perPage` tabs that hold `n` tabs. */
  function PageCount(n: nat, perPage: nat): (r: nat)
    requires perPage > 0
    ensures r * perPage >= n
    ensures r == 0 || (r - 1) * perPage < n
  {
    var q := (n + perPage - 1) / perPage;
    var rem := (n + perPage - 1) % perPage;
    assert n + perPage - 1 == q * perPage + rem && 0 <= rem < perPage;
    assert q * perPage == n + perPage - 1 - rem;
    assert (q - 1) * perPage == q * perPage - perPage;
    q
  }

  /** The guard of the Next button. */
  predicate CanGoNext(page: nat, perPage: nat, n: nat)
  {
    (page + 1) * perPage < n
  }

  /** Next: move forward only when the next page starts before the end. */
  function NextPage(page: nat, perPage: nat, n: nat): nat
  {
    if CanGoNext(page, perPage, n) then page + 1 else page
  }

  /** Prev: move back only from a positive page; the result is a `nat`, so
      the page index never becomes negative. */
  function PrevPage(page: nat): nat
  {
    if page > 0 then page - 1 else page
  }

  /** A page index the user can see tabs on (page 0 is always allowed, also
      for an empty list). */
  predicate OnExistingPage(page: nat, perPage: nat, n: nat)
  {
    page == 0 || page * perPage < n
  }

  /** The tabs of pages 0 .. k-1, one page after the other. */
  function PagesUpTo<T>(tabs: seq<T>, perPage: nat, k: nat): seq<T>
    requires perPage > 0
  {
    if k == 0 then [] else PagesUpTo(tabs, perPage, k - 1) + VisibleSlice(tabs, k - 1, perPage)
  }

  lemma MulMonotone(a: nat, b: nat, c: nat)
    requires a <= b
    ensures a * c <= b * c
  {
    assert b * c == a * c + (b - a) * c;
  }

  /** A page reached by Next is never empty. */
  lemma NextLandsOnNonEmptyPage<T>(tabs: seq<T>, page: nat, perPage: nat)
    requires perPage > 0
    requires CanGoNext(page, perPage, |tabs|)
    ensures NextPage(page, perPage, |tabs|) == page + 1
    ensures |VisibleSlice(tabs, page + 1, perPage)| >= 1
  {
    assert PageStart(page + 1, perPage) == (page + 1) * perPage;
  }

  /** Next on the last page (or past it) changes nothing. */
  lemma NextOnLastPageIsNoop(page: nat, perPage: nat, n: nat)
    requires perPage > 0
    requires page + 1 >= PageCount(n, perPage)
    ensures NextPage(page, perPage, n) == page
  {
    MulMonotone(PageCount(n, perPage), page + 1, perPage);
  }

  /** Prev at page 0 changes nothing, and otherwise steps back by one. */
  lemma PrevSteps(page: nat)
    ensures page == 0 ==> PrevPage(page) == 0
    ensures page > 0 ==> PrevPage(page) + 1 == page
  {
  }

  /** An existing page is exactly a page below the announced page count
      (or page 0 of an empty list). */
  lemma OnExistingPageIffBelowCount(page: nat, perPage: nat, n: nat)
    requires perPage > 0
    ensures OnExistingPage(page, perPage, n) <==> page == 0 || page < PageCount(n, perPage)
  {
    var c := PageCount(n, perPage);
    if page * perPage < n && c <= page {
      MulMonotone(c, page, perPage);
    }
    if 0 < page < c {
      MulMonotone(page, c - 1, perPage);
    }
  }

  /** Prev and Next keep the user on an existing page. */
  lemma NavigationKeepsExistingPage(page: nat, perPage: nat, n: nat)
    requires perPage > 0
    requires OnExistingPage(page, perPage, n)
    ensures OnExistingPage(NextPage(page, perPage, n), perPage, n)
    ensures OnExistingPage(PrevPage(page), perPage, n)
  {
    if page > 1 {
      MulMonotone(page - 1, page, perPage);
    }
  }

  lemma {:induction false} PagesUpToIsPrefix<T>(tabs: seq<T>, perPage: nat, k: nat)
    requires perPage > 0
    ensures PagesUpTo(tabs, perPage, k) == tabs[..Min(k * perPage, |tabs|)]
  {
    if k > 0 {
      PagesUpToIsPrefix(tabs, perPage, k - 1);
      var lo := Min((k - 1) * perPage, |tabs|);
      var hi := Min(k * perPage, |tabs|);
      assert (k - 1) * perPage + perPage == k * perPage;
      var page := VisibleSlice(tabs, k - 1, perPage);
      if (k - 1) * perPage < |tabs| {
        assert page == tabs[lo..hi];
        assert tabs[..lo] + tabs[lo..hi] == tabs[..hi];
      } else {
        assert page == [] && lo == hi;
      }
    }
  }

  /** Pages 0 .. PageCount-1, read in order, show every tab exactly once and
      in the list's order. */
  lemma PagesPartitionTabs<T>(tabs: seq<T>, perPage: nat)
    requires perPage > 0
    ensures PagesUpTo(tabs, perPage, PageCount(|tabs|, perPage)) == tabs
  {
    PagesUpToIsPrefix(tabs, perPage, PageCount(|tabs|, perPage));
  }

  /** 45 tabs at 20 per page: three pages; Next, Next, Prev lands on the
      second page; Next on the third page is a no-op; the first page shows
      the first twenty tabs. */
  lemma FortyFiveTabsExample<T>(tabs: seq<T>)
    requires |tabs| == 45
    ensures PageCount(45, 20) == 3
    ensures PrevPage(NextPage(NextPage(0, 20, 45), 20, 45)) == 1
    ensures NextPage(2, 20, 45) == 2
    ensures VisibleSlice(tabs, 0, 20) == tabs[..20]
    ensures |VisibleSlice(tabs, 2, 20)| == 5
  {
  }
}
