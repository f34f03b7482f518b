/**
 * Client-side pagination as the three list components compute it:
 * a fixed page size of 10, `Math.ceil(n / 10)` pages, the page slice
 * `filtered.slice((p - 1) * 10, p * 10)` and the "Showing a to b of n" footer.
 */
module Pagination {

  const ItemsPerPage: nat := 10

  /** `Math.ceil(n / ItemsPerPage)`. */
  function TotalPages(n: nat): (r: nat)
    ensures r * ItemsPerPage >= n
    ensures r == 0 || (r - 1) * ItemsPerPage < n
  {
    (n + ItemsPerPage - 1) / ItemsPerPage
  }

  /** How `Array.prototype.slice` reads one bound: negative counts from the end, then clamp. */
  function SliceBound(i: int, len: nat): (r: nat)
    ensures r <= len
    ensures 0 <= i <= len ==> r == i
  {
    if i < 0 then (if len + i < 0 then 0 else len + i) else if i > len then len else i
  }

  /** `s.slice(start, end)`. */
  function JsSlice<T>(s: seq<T>, start: int, end: int): (r: seq<T>) {
    var a, b := SliceBound(start, |s|), SliceBound(end, |s|);
    if a < b then s[a..b] else []
  }

  /** `indexOfLastItem = currentPage * itemsPerPage`. */
  function IndexOfLastItem(page: int): int {
    page * ItemsPerPage
  }

  /** `indexOfFirstItem = indexOfLastItem - itemsPerPage`. */
  function IndexOfFirstItem(page: int): int {
    IndexOfLastItem(page) - ItemsPerPage
  }

  function Min(a: int, b: int): int {
    if a <= b then a else b
  }

  /** `currentItems`: for a page number of at least 1, a contiguous run of at most ten items. */
  function CurrentItems<T>(s: seq<T>, page: int): (r: seq<T>)
    ensures page >= 1 ==> |r| <= ItemsPerPage
    ensures page >= 1 ==>
      var lo := Min((page - 1) * ItemsPerPage, |s|);
      var hi := Min(page * ItemsPerPage, |s|);
      r == s[lo..hi]
  {
    JsSlice(s, IndexOfFirstItem(page), IndexOfLastItem(page))
  }

  /** The page buttons: `Array.from({ length: totalPages }, (_, i) => i + 1)`. */
  function PageNumbers(n: nat): (r: seq<int>)
    ensures |r| == TotalPages(n)
    ensures forall p :: p in r <==> 1 <= p <= TotalPages(n)
  {
    var r := seq(TotalPages(n), i requires 0 <= i < TotalPages(n) => i + 1);
    forall p | 1 <= p <= TotalPages(n) ensures p in r {
      assert r[p - 1] == p;
    }
    r
  }

  /** The first number of the footer, `indexOfFirstItem + 1`. */
  function ShowingFrom(page: int): (r: int)
    ensures page >= 1 ==> r >= 1
    ensures r % ItemsPerPage == 1
  {
    IndexOfFirstItem(page) + 1
  }

  /** The second number of the footer, `Math.min(indexOfLastItem, filtered.length)`. */
  function ShowingTo(page: int, n: nat): (r: int)
    ensures r <= n && r <= IndexOfLastItem(page)
    ensures r == n || r == IndexOfLastItem(page)
  {
    Min(IndexOfLastItem(page), n)
  }

  /**
   * On an existing page the footer's numbers are the 1-based positions of
   * the first and the last item the page shows.
   */
  lemma ShowingMatchesPage<T>(s: seq<T>, page: int)
    requires 1 <= page <= TotalPages(|s|)
    ensures 1 <= ShowingFrom(page) <= ShowingTo(page, |s|) <= |s|
    ensures CurrentItems(s, page) == s[ShowingFrom(page) - 1..ShowingTo(page, |s|)]
    ensures |CurrentItems(s, page)| == ShowingTo(page, |s|) - ShowingFrom(page) + 1
  {
  }

  /** Item `k` of the list is shown on page `k / 10 + 1`, at row `k % 10`; so no item is lost. */
  lemma ItemOnPage<T>(s: seq<T>, k: nat)
    requires k < |s|
    ensures 1 <= k / ItemsPerPage + 1 <= TotalPages(|s|)
    ensures k % ItemsPerPage < |CurrentItems(s, k / ItemsPerPage + 1)|
    ensures CurrentItems(s, k / ItemsPerPage + 1)[k % ItemsPerPage] == s[k]
  {
    var p := k / ItemsPerPage + 1;
    assert (p - 1) * ItemsPerPage + k % ItemsPerPage == k;
  }

  /** Distinct pages show disjoint runs of the list. */
  lemma PagesDisjoint<T>(s: seq<T>, p: int, q: int, i: nat, j: nat)
    requires 1 <= p < q
    requires i < |CurrentItems(s, p)| && j < |CurrentItems(s, q)|
    ensures (p - 1) * ItemsPerPage + i < (q - 1) * ItemsPerPage + j
    ensures CurrentItems(s, p)[i] == s[(p - 1) * ItemsPerPage + i]
    ensures CurrentItems(s, q)[j] == s[(q - 1) * ItemsPerPage + j]
  {
    assert (p - 1) * ItemsPerPage + ItemsPerPage <= (q - 1) * ItemsPerPage;
  }

  /** A page past the last one shows nothing. */
  lemma PastLastPageIsEmpty<T>(s: seq<T>, page: int)
    requires page > TotalPages(|s|)
    ensures CurrentItems(s, page) == []
  {
  }

  /** The "Previous" button is disabled on page 1 only. */
  function PreviousDisabled(page: int): (r: bool)
    ensures page >= 1 ==> (r <==> page - 1 < 1)
  {
    page == 1
  }

  /** The "Next" button is disabled when the current page equals the page count. */
  function NextDisabled(page: int, n: nat): (r: bool)
    ensures 1 <= page <= TotalPages(n) ==> (r <==> page + 1 > TotalPages(n))
  {
    page == TotalPages(n)
  }

  /** From an existing page, an enabled "Previous" or "Next" button leads to an existing page. */
  lemma NavigationStaysInRange(page: int, n: nat)
    requires 1 <= page <= TotalPages(n)
    ensures !PreviousDisabled(page) ==> 1 <= page - 1 <= TotalPages(n)
    ensures !NextDisabled(page, n) ==> 1 <= page + 1 <= TotalPages(n)
  {
  }

  /**
   * With nothing to list there are no pages, yet page 1 is current and
   * "Next" stays enabled (1 is not 0); it leads to page 2, which is empty.
   */
  lemma EmptyListNextEnabled<T>(s: seq<T>)
    requires s == []
    ensures TotalPages(|s|) == 0 && !NextDisabled(1, |s|)
    ensures CurrentItems(s, 2) == []
  {
  }
}
