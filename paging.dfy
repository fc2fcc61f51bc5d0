/** The dashboard's pagination arithmetic: fixed pages of nine tasks over
    the filtered view (Dashboard.jsx, lines 26 and 91-94). */
module Paging {
  import opened Common

  /** `tasksPerPage`. */
  const PageSize: nat := 9

  /** `Math.ceil(n / tasksPerPage)`: the fewest pages that hold n items. */
  function TotalPages(n: nat): (pages: nat)
    ensures n <= pages * PageSize
    ensures pages == 0 || (pages - 1) * PageSize < n
  {
    if n % PageSize == 0 then n / PageSize else n / PageSize + 1
  }

  /** The page numbers the dashboard keeps `currentPage` within. */
  function LastPage(n: nat): (last: nat)
    ensures last >= 1 && (n > 0 ==> last == TotalPages(n))
    ensures n == 0 ==> last == 1
  {
    Max(1, TotalPages(n))
  }

  /** `filteredTasks.slice((p - 1) * 9, p * 9)`: page p, clipped to the list. */
  function Page<T>(s: seq<T>, p: nat): (r: seq<T>)
    requires p >= 1
    ensures |r| <= PageSize
    ensures forall k :: 0 <= k < |r| ==> (p - 1) * PageSize + k < |s| && r[k] == s[(p - 1) * PageSize + k]
    ensures (p - 1) * PageSize < |s| ==> |r| == Min(PageSize, |s| - (p - 1) * PageSize)
    ensures (p - 1) * PageSize >= |s| ==> r == []
  {
    var first := Min((p - 1) * PageSize, |s|);
    var last := Min(p * PageSize, |s|);
    s[first..last]
  }

  /** Pages 1 to k, one after another. */
  function PagesUpTo<T>(s: seq<T>, k: nat): seq<T> {
    if k == 0 then [] else PagesUpTo(s, k - 1) + Page(s, k)
  }

  /** The first k pages cover exactly the first k * 9 items. */
  lemma {:induction false} PagesUpToIsPrefix<T>(s: seq<T>, k: nat)
    ensures PagesUpTo(s, k) == s[..Min(k * PageSize, |s|)]
  {
    if k > 0 {
      PagesUpToIsPrefix(s, k - 1);
      var lo := Min((k - 1) * PageSize, |s|);
      var hi := Min(k * PageSize, |s|);
      assert s[..lo] + s[lo..hi] == s[..hi];
    }
  }

  /** Pages 1 to totalPages, concatenated, give back the whole list. */
  lemma PagesPartition<T>(s: seq<T>)
    ensures PagesUpTo(s, TotalPages(|s|)) == s
  {
    PagesUpToIsPrefix(s, TotalPages(|s|));
    assert s[..|s|] == s;
  }

  /** Every numbered page holds at least one item and at most nine; the
      page after the last one is empty. */
  lemma PagesNonEmpty<T>(s: seq<T>, p: nat)
    requires 1 <= p <= TotalPages(|s|)
    ensures 1 <= |Page(s, p)| <= PageSize
    ensures Page(s, TotalPages(|s|) + 1) == []
  {
  }

  /** Distinct pages draw on disjoint positions of the list. */
  lemma PagesDisjoint<T>(s: seq<T>, p: nat, q: nat, k: nat, l: nat)
    requires 1 <= p && 1 <= q && p != q
    requires k < |Page(s, p)| && l < |Page(s, q)|
    ensures (p - 1) * PageSize + k != (q - 1) * PageSize + l
  {
  }

  /** Twelve items: page 1 shows nine, page 2 shows three, two pages in all. */
  lemma TwelveItemsScenario<T>(s: seq<T>)
    requires |s| == 12
    ensures TotalPages(|s|) == 2
    ensures Page(s, 1) == s[..9] && Page(s, 2) == s[9..]
  {
  }
}
