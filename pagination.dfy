/**
 * One-based pagination of the visitor table with a fixed page size, and the
 * two page handlers with their clamping.
 */
module Pagination {

  /** The page size kept in the `itemsPerPage` state slot; it is never changed. */
  const ItemsPerPage: nat := 5

  function Min(a: int, b: int): int { if a < b then a else b }

  function Max(a: int, b: int): int { if a < b then b else a }

  /** `Math.ceil(n / itemsPerPage)` on a natural count: the number of the last page. */
  function PageCount(n: nat): (r: nat)
    ensures r * ItemsPerPage >= n
    ensures r > 0 ==> (r - 1) * ItemsPerPage < n
    ensures r == 0 <==> n == 0
  {
    (n + ItemsPerPage - 1) / ItemsPerPage
  }

  /** How `Array.prototype.slice` normalises one bound: negative counts from the end, then clamp to `0..n`. */
  function SliceBound(k: int, n: nat): (r: nat)
    ensures r <= n
    ensures 0 <= k <= n ==> r == k
  {
    if k < 0 then Max(n + k, 0) else Min(k, n)
  }

  /** `s.slice(start, end)` with JavaScript's treatment of negative and out-of-range bounds. */
  function JsSlice<T>(s: seq<T>, start: int, end: int): (r: seq<T>)
    ensures |r| == Max(SliceBound(end, |s|) - SliceBound(start, |s|), 0)
    ensures forall k :: 0 <= k < |r| ==>
              SliceBound(start, |s|) + k < |s| && r[k] == s[SliceBound(start, |s|) + k]
  {
    var lo := SliceBound(start, |s|);
    var hi := SliceBound(end, |s|);
    if lo < hi then s[lo..hi] else []
  }

  /**
   * The rows shown on page `page`: the slice from `indexOfFirstItem` to
   * `indexOfLastItem`. A page holds at most five rows, every page from 1 to
   * the last holds at least one, and page 0 or a page past the end is empty.
   */
  function VisibleRows<T>(s: seq<T>, page: nat): (r: seq<T>)
    ensures |r| <= ItemsPerPage
    ensures page >= 1 ==> r == s[Min((page - 1) * ItemsPerPage, |s|)..Min(page * ItemsPerPage, |s|)]
    ensures forall k :: 0 <= k < |r| ==> 0 <= (page - 1) * ItemsPerPage + k < |s| && r[k] == s[(page - 1) * ItemsPerPage + k]
    ensures page == 0 || page > PageCount(|s|) ==> r == []
    ensures 1 <= page <= PageCount(|s|) ==> r != []
    ensures 1 <= page < PageCount(|s|) ==> |r| == ItemsPerPage
  {
    var indexOfLastItem := page * ItemsPerPage;
    var indexOfFirstItem := indexOfLastItem - ItemsPerPage;
    JsSlice(s, indexOfFirstItem, indexOfLastItem)
  }

  /** The handler of "Next": `Math.min(page + 1, Math.ceil(n / itemsPerPage))`. */
  function NextPageNumber(page: nat, n: nat): (r: nat)
    ensures r <= PageCount(n)
    ensures page < PageCount(n) ==> r == page + 1
    ensures page == PageCount(n) ==> r == page
    ensures page > PageCount(n) ==> r == PageCount(n) < page
    ensures n == 0 ==> r == 0
  {
    Min(page + 1, PageCount(n))
  }

  /** The handler of "Previous": `Math.max(page - 1, 1)`. */
  function PreviousPageNumber(page: nat): (r: nat)
    ensures r >= 1
    ensures page > 1 ==> r == page - 1
    ensures page == 1 ==> r == page
    ensures page == 0 ==> r == 1
  {
    Max(page - 1, 1)
  }

  /** "Previous" is disabled on page 1: exactly the page where pressing it would change nothing. */
  function PreviousDisabled(page: nat): (r: bool)
    ensures r <==> PreviousPageNumber(page) == page
  {
    page == 1
  }

  /**
   * "Next" is disabled on the page numbered `Math.ceil(n / itemsPerPage)`:
   * exactly the page where pressing it would change nothing.
   */
  function NextDisabled(page: nat, n: nat): (r: bool)
    ensures r <==> NextPageNumber(page, n) == page
  {
    page == PageCount(n)
  }

  /** Inside the range of pages, "Previous" undoes "Next" and "Next" undoes "Previous". */
  lemma NextPreviousInverse(page: nat, n: nat)
    ensures 1 <= page < PageCount(n) ==> PreviousPageNumber(NextPageNumber(page, n)) == page
    ensures 1 < page <= PageCount(n) ==> NextPageNumber(PreviousPageNumber(page), n) == page
  {
  }

  /** Pages 1 to `k` shown one after another. */
  function PagesUpTo<T>(s: seq<T>, k: nat): seq<T>
  {
    if k == 0 then [] else PagesUpTo(s, k - 1) + VisibleRows(s, k)
  }

  lemma {:induction false} PagesUpToIsPrefix<T>(s: seq<T>, k: nat)
    ensures PagesUpTo(s, k) == s[..Min(k * ItemsPerPage, |s|)]
  {
    if k > 0 {
      PagesUpToIsPrefix(s, k - 1);
      var a := Min((k - 1) * ItemsPerPage, |s|);
      var b := Min(k * ItemsPerPage, |s|);
      assert s[..a] + s[a..b] == s[..b];
    }
  }

  /** Paging from the first page to the last shows every record once, in list order. */
  lemma {:induction false} PagesCoverList<T>(s: seq<T>)
    ensures PagesUpTo(s, PageCount(|s|)) == s
  {
    PagesUpToIsPrefix(s, PageCount(|s|));
    assert s[..Min(PageCount(|s|) * ItemsPerPage, |s|)] == s;
  }

  /** Record `i` of the list is row `i % 5` of page `i / 5 + 1`. */
  lemma RecordPage<T>(s: seq<T>, i: nat)
    requires i < |s|
    ensures 1 <= i / ItemsPerPage + 1 <= PageCount(|s|)
    ensures VisibleRows(s, i / ItemsPerPage + 1)[i % ItemsPerPage] == s[i]
  {
  }

  /** An empty list shows an empty table on every page, and "Next" takes the page to 0. */
  lemma EmptyListShowsNothing<T>(s: seq<T>, page: nat)
    requires s == []
    ensures VisibleRows(s, page) == []
    ensures NextPageNumber(page, |s|) == 0
  {
  }
}
