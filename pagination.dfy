/**
 * The paginated results window of show_results (Tkinter/fraudDetector.py:412-472):
 * twenty rows per page, a page counter that starts at 1, and guarded
 * previous/next buttons that reload the table.
 */
module Pagination {

  /** `rows_per_page` */
  const RowsPerPage: nat := 20

  /** `total_pages`: whole pages plus one for a partial last page. */
  function TotalPages(n: nat): (t: nat)
    ensures t * RowsPerPage >= n
    ensures t > 0 ==> (t - 1) * RowsPerPage < n
    ensures t == 0 <==> n == 0
  {
    n / RowsPerPage + (if n % RowsPerPage != 0 then 1 else 0)
  }

  /** The highest page the counter can show: `total_pages`, or 1 when there are no rows. */
  function LastPage(n: nat): nat
  {
    if n == 0 then 1 else TotalPages(n)
  }

  /** `start_idx` of page `p`. */
  function PageStart(p: nat): (start: nat)
    requires 1 <= p
    ensures start % RowsPerPage == 0 && start / RowsPerPage == p - 1
  {
    (p - 1) * RowsPerPage
  }

  /** `end_idx` of page `p` over `n` rows. */
  function PageEnd(p: nat, n: nat): (end: nat)
    requires 1 <= p
    ensures end <= n && end <= PageStart(p) + RowsPerPage
    ensures end == n || end == PageStart(p) + RowsPerPage
  {
    if PageStart(p) + RowsPerPage < n then PageStart(p) + RowsPerPage else n
  }

  /** The rows page `p` shows. */
  function PageRows<T>(rows: seq<T>, p: nat): (shown: seq<T>)
    requires 1 <= p <= LastPage(|rows|)
    ensures |shown| <= RowsPerPage
    ensures PageStart(p) + |shown| == PageEnd(p, |rows|) <= |rows|
    ensures forall k :: 0 <= k < |shown| ==> shown[k] == rows[PageStart(p) + k]
  {
    PageBounds(p, |rows|);
    rows[PageStart(p)..PageEnd(p, |rows|)]
  }

  /** Every page the counter can reach starts inside the rows and shows at most twenty of them. */
  lemma PageBounds(p: nat, n: nat)
    requires 1 <= p <= LastPage(n)
    ensures PageStart(p) <= PageEnd(p, n) <= n
    ensures PageEnd(p, n) - PageStart(p) <= RowsPerPage
    ensures n > 0 ==> PageStart(p) < PageEnd(p, n)
    ensures p < TotalPages(n) ==> PageEnd(p, n) - PageStart(p) == RowsPerPage
  {
  }

  /** The page that holds row `i`. */
  function PageOf(i: nat): (p: nat)
    ensures p >= 1 && PageStart(p) <= i < PageStart(p) + RowsPerPage
  {
    i / RowsPerPage + 1
  }

  /** Row `i` of `n` is on exactly one page, and that page is one the counter can reach. */
  lemma PageOfUnique(i: nat, n: nat, p: nat)
    requires i < n
    requires 1 <= p && PageStart(p) <= i < PageEnd(p, n)
    ensures p == PageOf(i)
    ensures PageOf(i) <= TotalPages(n) && i < PageEnd(PageOf(i), n)
  {
  }

  /** Pages `1..k` shown one after another. */
  function PagesUpTo<T>(rows: seq<T>, k: nat): seq<T>
    requires k <= LastPage(|rows|)
  {
    if k == 0 then [] else PagesUpTo(rows, k - 1) + PageRows(rows, k)
  }

  /** Pages `1..k` together are exactly the rows before the end of page `k`. */
  lemma {:induction false} PagesUpToPrefix<T>(rows: seq<T>, k: nat)
    requires 1 <= k <= LastPage(|rows|)
    ensures PageEnd(k, |rows|) <= |rows|
    ensures PagesUpTo(rows, k) == rows[..PageEnd(k, |rows|)]
  {
    PageBounds(k, |rows|);
    if k > 1 {
      PagesUpToPrefix(rows, k - 1);
      PageBounds(k - 1, |rows|);
      assert PageEnd(k - 1, |rows|) == PageStart(k);
      assert rows[..PageStart(k)] + rows[PageStart(k)..PageEnd(k, |rows|)] == rows[..PageEnd(k, |rows|)];
    }
  }

  /** Pages `1..total_pages` partition the rows: each row is shown once, in order. */
  lemma PagesPartition<T>(rows: seq<T>)
    ensures PagesUpTo(rows, TotalPages(|rows|)) == rows
  {
    if |rows| > 0 {
      PagesUpToPrefix(rows, TotalPages(|rows|));
      assert rows[..|rows|] == rows;
    }
  }

  /** The results window: the scored rows, the page counter and the rows the table shows. */
  class ResultsView<T> {
    const rows: seq<T>
    var currentPage: nat
    var shown: seq<T>

    /** The counter is a reachable page and the table shows that page. */
    ghost predicate Valid()
      reads this
    {
      1 <= currentPage <= LastPage(|rows|) && shown == PageRows(rows, currentPage)
    }

    /** `current_page = tk.IntVar(value=1)`, then the first `load_page()`. */
    constructor (results: seq<T>)
      ensures rows == results && currentPage == 1
      ensures Valid()
    {
      rows := results;
      currentPage := 1;
      shown := [];
      new;
      LoadPage();
    }

    /** `load_page`: empty the table, then insert the rows of the current page one by one. */
    method LoadPage()
      requires 1 <= currentPage <= LastPage(|rows|)
      modifies this
      ensures currentPage == old(currentPage)
      ensures shown == PageRows(rows, currentPage)
    {
      PageBounds(currentPage, |rows|);
      shown := [];
      var start := (currentPage - 1) * RowsPerPage;
      var end := if start + RowsPerPage < |rows| then start + RowsPerPage else |rows|;
      for i := start to end
        invariant currentPage == old(currentPage)
        invariant shown == rows[start..i]
      {
        shown := shown + [rows[i]];
      }
    }

    /** `prev_page`: move back one page unless on the first. */
    method PrevPage()
      requires Valid()
      modifies this
      ensures Valid()
      ensures old(currentPage) > 1 ==> currentPage == old(currentPage) - 1
      ensures old(currentPage) <= 1 ==> currentPage == old(currentPage) && shown == old(shown)
    {
      if currentPage > 1 {
        currentPage := currentPage - 1;
        LoadPage();
      }
    }

    /** `next_page`: move on one page unless on the last. */
    method NextPage()
      requires Valid()
      modifies this
      ensures Valid()
      ensures old(currentPage) < TotalPages(|rows|) ==> currentPage == old(currentPage) + 1
      ensures old(currentPage) >= TotalPages(|rows|) ==> currentPage == old(currentPage) && shown == old(shown)
    {
      if currentPage < TotalPages(|rows|) {
        currentPage := currentPage + 1;
        LoadPage();
      }
    }
  }
}
