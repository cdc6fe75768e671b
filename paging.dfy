/** Client-side pagination as the supplier and purchase-order lists do it:
    a page count, a page's slice and the page-number bounds. */
module Paging {

  /** `Math.max(1, Math.ceil(n / pageSize))`. */
  function TotalPages(n: nat, pageSize: nat): (r: nat)
    requires pageSize >= 1
    ensures r >= 1
    ensures n <= r * pageSize
    ensures r == 1 || (r - 1) * pageSize < n
  {
    if n == 0 then 1
    else
      var r := (n + pageSize - 1) / pageSize;
      assert r * pageSize <= n + pageSize - 1 < (r + 1) * pageSize;
      assert n + pageSize - 1 >= pageSize;
      r
  }

  /** Index of the first item on page `page` (pages are numbered from 1). */
  function PageStart(page: nat, pageSize: nat): nat
    requires page >= 1
  {
    (page - 1) * pageSize
  }

  /** `items.slice(start, start + pageSize)` with `start = (page - 1) * pageSize`;
      like `slice`, both ends are cut back to the length of the list. */
  function PageOf<T>(xs: seq<T>, page: nat, pageSize: nat): (r: seq<T>)
    requires page >= 1 && pageSize >= 1
    ensures |r| <= pageSize
    ensures PageStart(page, pageSize) >= |xs| ==> r == []
    ensures PageStart(page, pageSize) < |xs| ==>
              |r| == (if |xs| - PageStart(page, pageSize) < pageSize then |xs| - PageStart(page, pageSize) else pageSize)
    ensures forall i :: 0 <= i < |r| ==> r[i] == xs[PageStart(page, pageSize) + i]
  {
    var start := PageStart(page, pageSize);
    var s := if start < |xs| then start else |xs|;
    var e := if start + pageSize < |xs| then start + pageSize else |xs|;
    xs[s..e]
  }

  /** Every item of the list is shown: item `i` is item `i % pageSize` of page
      `i / pageSize + 1`, and that page exists. */
  lemma ItemOnItsPage<T>(xs: seq<T>, pageSize: nat, i: nat)
    requires pageSize >= 1 && i < |xs|
    ensures i / pageSize + 1 <= TotalPages(|xs|, pageSize)
    ensures i % pageSize < |PageOf(xs, i / pageSize + 1, pageSize)|
    ensures PageOf(xs, i / pageSize + 1, pageSize)[i % pageSize] == xs[i]
  {
    var q, m := i / pageSize, i % pageSize;
    var start := q * pageSize;
    assert i == start + m;
    assert PageStart(q + 1, pageSize) == start;
    var t := TotalPages(|xs|, pageSize);
    if q + 1 > t {
      MulMonotone(t, q, pageSize);
      assert false;
    }
  }

  lemma MulMonotone(a: nat, b: nat, c: nat)
    requires a <= b
    ensures a * c <= b * c
  {
  }

  /** No page past the last one holds anything. */
  lemma PagesPastTheEndAreEmpty<T>(xs: seq<T>, pageSize: nat, page: nat)
    requires pageSize >= 1 && page > TotalPages(|xs|, pageSize)
    ensures PageOf(xs, page, pageSize) == []
  {
    MulMonotone(TotalPages(|xs|, pageSize), page - 1, pageSize);
  }

  /** A non-empty list shows something on every page from 1 to the page count. */
  lemma PagesInRangeAreNonEmpty<T>(xs: seq<T>, pageSize: nat, page: nat)
    requires pageSize >= 1 && |xs| > 0 && 1 <= page <= TotalPages(|xs|, pageSize)
    ensures PageOf(xs, page, pageSize) != []
  {
    var t := TotalPages(|xs|, pageSize);
    if page > 1 {
      MulMonotone(page - 1, t - 1, pageSize);
    }
  }

  /** `Math.min(Math.max(1, p), totalPages)`: any requested page brought into range. */
  function ClampPage(p: int, totalPages: nat): (r: nat)
    requires totalPages >= 1
    ensures 1 <= r <= totalPages
    ensures 1 <= p <= totalPages ==> r == p
    ensures p < 1 ==> r == 1
    ensures p > totalPages ==> r == totalPages
  {
    var low := if p < 1 then 1 else p;
    if low < totalPages then low else totalPages
  }

  /** The "Prev" button: `Math.max(1, p - 1)`. */
  function PrevPage(p: int): (r: nat)
    ensures r >= 1
    ensures p > 1 ==> r == p - 1
  {
    if p - 1 < 1 then 1 else p - 1
  }

  /** The "Next" button: `Math.min(totalPages, p + 1)`. */
  function NextPage(p: int, totalPages: nat): (r: int)
    ensures r <= totalPages
    ensures p < totalPages ==> r == p + 1
  {
    if totalPages < p + 1 then totalPages else p + 1
  }

  /** From a page in range, Prev and Next stay in range. */
  lemma PrevNextStayInRange(p: int, totalPages: nat)
    requires 1 <= p <= totalPages
    ensures 1 <= PrevPage(p) <= totalPages
    ensures 1 <= NextPage(p, totalPages) <= totalPages
  {
  }
}
