/** The leaderboard page (app/leaderboard/page.tsx): page count, the row
    range each page fetches, the five-button page window, the clamped
    Previous/Next buttons and the win rate shown per photo. */
module Leaderboard {
  import opened Optional

  const ItemsPerPage: int := 20

  /** Buttons in the page window. */
  const WindowSize: int := 5

  /** `Math.ceil(totalCount / ITEMS_PER_PAGE)`: the least number of pages that hold every row. */
  function TotalPages(totalCount: nat): (pages: nat)
    ensures pages * ItemsPerPage >= totalCount
    ensures pages > 0 ==> (pages - 1) * ItemsPerPage < totalCount
  {
    (totalCount + ItemsPerPage - 1) / ItemsPerPage
  }

  /** `count || 0`: the exact count, or 0 when the query gave none. */
  function CountOrZero(count: Option<nat>): (n: nat)
    ensures count.None? ==> n == 0
    ensures count.Some? ==> n == count.value
  {
    if count.Some? then count.value else 0
  }

  /** First row index `.range(from, to)` asks for on `page`. */
  function RangeFrom(page: int): (i: int)
    ensures page >= 1 ==> i >= 0
    ensures i % ItemsPerPage == 0
  {
    (page - 1) * ItemsPerPage
  }

  /** Last row index, inclusive, `.range(from, to)` asks for on `page`. */
  function RangeTo(page: int): (i: int)
    ensures page >= 1 ==> i >= ItemsPerPage - 1
    ensures (i + 1) % ItemsPerPage == 0
  {
    page * ItemsPerPage - 1
  }

  /** Every page asks for exactly twenty rows. */
  lemma RangeHoldsOnePage(page: int)
    ensures RangeTo(page) - RangeFrom(page) + 1 == ItemsPerPage
  {
  }

  /** Different pages ask for disjoint rows. */
  lemma RangesDisjoint(p: int, q: int)
    requires p < q
    ensures RangeTo(p) < RangeFrom(q)
  {
  }

  /** Every row of the ordered list is on exactly one page, `i / 20 + 1`. */
  lemma RowOnOnePage(i: nat, page: int)
    ensures RangeFrom(page) <= i <= RangeTo(page) <==> page == i / ItemsPerPage + 1
  {
    var p := i / ItemsPerPage + 1;
    assert RangeFrom(p) <= i <= RangeTo(p);
    if page < p { RangesDisjoint(page, p); }
    if page > p { RangesDisjoint(p, page); }
  }

  /** The pages of a row count are the pages whose range starts inside it. */
  lemma PagesCoverRows(totalCount: nat, page: int)
    requires page >= 1
    ensures page <= TotalPages(totalCount) <==> RangeFrom(page) < totalCount
  {
  }

  /** Whether the pagination controls are shown. */
  predicate ShowPagination(loading: bool, totalPages: int)
    ensures ShowPagination(loading, totalPages) ==> !loading && totalPages >= 2
  {
    !loading && totalPages > 1
  }

  /** Once loaded, the controls are shown exactly when the rows do not fit on one page. */
  lemma PaginationNeedsTwoPages(totalCount: nat)
    ensures ShowPagination(false, TotalPages(totalCount)) <==> totalCount > ItemsPerPage
  {
  }

  /** Button `i` of the page window. */
  function WindowPage(currentPage: int, totalPages: int, i: int): (p: int)
    ensures 0 <= i < WindowSize && i < totalPages ==> 1 <= p <= totalPages
  {
    if totalPages <= WindowSize then i + 1
    else if currentPage <= 3 then i + 1
    else if currentPage >= totalPages - 2 then totalPages - 4 + i
    else currentPage - 2 + i
  }

  /** The page window: `min(5, totalPages)` consecutive page numbers inside
      `[1, totalPages]`, containing the current page whenever it is a page. */
  function PageWindow(currentPage: int, totalPages: nat): (w: seq<int>)
    ensures |w| == if totalPages < WindowSize then totalPages else WindowSize
    ensures forall i :: 0 <= i < |w| ==> 1 <= w[i] <= totalPages
    ensures forall i :: 0 <= i < |w| - 1 ==> w[i + 1] == w[i] + 1
    ensures 1 <= currentPage <= totalPages ==> currentPage in w
  {
    var n := if totalPages < WindowSize then totalPages else WindowSize;
    var w := seq(n, i requires 0 <= i < n => WindowPage(currentPage, totalPages, i));
    assert 1 <= currentPage <= totalPages ==> w[currentPage - w[0]] == currentPage;
    w
  }

  /** Around the middle of a long list the current page sits in the middle of the window. */
  lemma WindowCentred(currentPage: int, totalPages: nat)
    requires totalPages > WindowSize && 3 < currentPage < totalPages - 2
    ensures PageWindow(currentPage, totalPages)[2] == currentPage
  {
  }

  /** `p => Math.max(1, p - 1)`. */
  function PreviousPage(p: int): (r: int)
    ensures r >= 1
    ensures p > 1 ==> r == p - 1
    ensures p <= 1 ==> r == 1
  {
    if p - 1 < 1 then 1 else p - 1
  }

  /** `p => Math.min(totalPages, p + 1)`. */
  function NextPage(p: int, totalPages: int): (r: int)
    ensures r <= totalPages
    ensures p < totalPages ==> r == p + 1
    ensures p >= totalPages ==> r == totalPages
  {
    if totalPages < p + 1 then totalPages else p + 1
  }

  /** The `disabled` attributes are redundant: Previous on page 1 and Next
      on the last page leave the page where it is. */
  lemma DisabledButtonsAreNoOps(totalPages: int)
    ensures PreviousPage(1) == 1
    ensures NextPage(totalPages, totalPages) == totalPages
  {
  }

  /** `Math.round(wins / matches * 100)`, or 0 without matches: the integer
      nearest to the percentage, halves rounded up. */
  function WinRate(wins: nat, matches: nat): (r: int)
    ensures matches == 0 ==> r == 0
    ensures matches > 0 ==> 2 * matches * r <= 200 * wins + matches < 2 * matches * (r + 1)
  {
    if matches > 0 then (200 * wins + matches) / (2 * matches) else 0
  }

  lemma MulMonotone(a: nat, b: int, c: int)
    requires b <= c
    ensures a * b <= a * c
  {
  }

  /** A photo never wins more often than it plays, so its rate is a percentage. */
  lemma WinRateIsPercentage(wins: nat, matches: nat)
    requires wins <= matches
    ensures 0 <= WinRate(wins, matches) <= 100
  {
    if matches > 0 {
      var r := WinRate(wins, matches);
      var m2 := 2 * matches;
      assert m2 * r <= 200 * wins + matches < m2 * (r + 1);
      if r > 100 {
        MulMonotone(m2, 101, r);
        assert false;
      }
      if r < 0 {
        MulMonotone(m2, r + 1, 0);
        assert false;
      }
    }
  }

  /** The page's pagination state. */
  class LeaderboardPage {
    var currentPage: int
    var totalCount: nat
    var loading: bool
    /** The `(from, to)` ranges requested so far. */
    var requested: seq<(int, int)>

    ghost predicate Valid()
      reads this
    {
      currentPage >= 1
    }

    constructor ()
      ensures Valid() && currentPage == 1 && totalCount == 0 && loading && requested == []
    {
      currentPage, totalCount, loading, requested := 1, 0, true, [];
    }

    function Pages(): nat
      reads this
    {
      TotalPages(totalCount)
    }

    /** `fetchLeaderboard()`: stores the count and asks for the current page's rows. */
    method FetchLeaderboard(count: Option<nat>)
      requires Valid()
      modifies this`totalCount, this`loading, this`requested
      ensures Valid() && currentPage == old(currentPage) && !loading
      ensures totalCount == CountOrZero(count)
      ensures requested == old(requested) + [(RangeFrom(currentPage), RangeTo(currentPage))]
    {
      loading := true;
      totalCount := CountOrZero(count);
      requested := requested + [(RangeFrom(currentPage), RangeTo(currentPage))];
      loading := false;
    }

    /** The Previous button. */
    method Previous()
      requires Valid() && ShowPagination(loading, Pages())
      modifies this`currentPage
      ensures Valid() && currentPage == PreviousPage(old(currentPage))
      ensures old(currentPage) <= Pages() ==> currentPage <= Pages()
    {
      currentPage := PreviousPage(currentPage);
    }

    /** The Next button. */
    method Next()
      requires Valid() && ShowPagination(loading, Pages())
      modifies this`currentPage
      ensures Valid() && currentPage == NextPage(old(currentPage), Pages())
      ensures 1 <= currentPage <= Pages()
    {
      currentPage := NextPage(currentPage, Pages());
    }

    /** A numbered button of the window. */
    method GoTo(pageNum: int)
      requires Valid() && ShowPagination(loading, Pages())
      requires pageNum in PageWindow(currentPage, Pages())
      modifies this`currentPage
      ensures Valid() && currentPage == pageNum && 1 <= currentPage <= Pages()
    {
      currentPage := pageNum;
    }
  }
}
