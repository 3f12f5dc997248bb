/** The pagination arithmetic shared by the course and venue tables: a page of
    `perPage` rows is `items.slice((page - 1) * perPage, page * perPage)` and
    the page count is `Math.ceil(items.length / perPage)`. */
module Pagination {

  /** How `Array.prototype.slice` turns an argument into a position of a list
      of length `n`: a negative argument counts from the end, and the result is
      clamped to `0 .. n`. */
  function SliceIndex(i: int, n: nat): nat {
    if i < 0 then (if n + i < 0 then 0 else n + i)
    else if i > n then n
    else i
  }

  /** `s.slice(start, end)`. */
  function Slice<T>(s: seq<T>, start: int, end: int): seq<T> {
    var a := SliceIndex(start, |s|);
    var b := SliceIndex(end, |s|);
    if a < b then s[a..b] else []
  }

  /** The rows shown on page `page`: `indexOfLast = page * perPage`,
      `indexOfFirst = indexOfLast - perPage`, `items.slice(indexOfFirst, indexOfLast)`. */
  function Window<T>(items: seq<T>, page: int, perPage: nat): seq<T> {
    Slice(items, page * perPage - perPage, page * perPage)
  }

  /** `Math.ceil(n / perPage)` for a non-negative count and a positive page size. */
  function TotalPages(n: nat, perPage: nat): nat
    requires perPage > 0
  {
    (n + perPage - 1) / perPage
  }

  function Min(a: int, b: int): int {
    if a <= b then a else b
  }

  /** The page count is the ceiling of `n / perPage`: enough pages to hold
      every row, and no page more; zero exactly for an empty list. */
  lemma TotalPagesIsCeiling(n: nat, perPage: nat)
    requires perPage > 0
    ensures TotalPages(n, perPage) * perPage >= n
    ensures TotalPages(n, perPage) > 0 ==> (TotalPages(n, perPage) - 1) * perPage < n
    ensures TotalPages(n, perPage) == 0 <==> n == 0
  {
    var t := TotalPages(n, perPage);
    var r := (n + perPage - 1) % perPage;
    assert n + perPage - 1 == t * perPage + r;
    assert t * perPage - perPage == (t - 1) * perPage;
  }

  /** From page 1 on, the window is the run of rows from `(page - 1) * perPage`
      up to `page * perPage`, both clipped to the list: at most `perPage` rows,
      in list order. */
  lemma WindowOfPage<T>(items: seq<T>, page: int, perPage: nat)
    requires page >= 1 && perPage > 0
    ensures var first := Min((page - 1) * perPage, |items|);
            var last := Min(page * perPage, |items|);
            first <= last && Window(items, page, perPage) == items[first..last]
    ensures |Window(items, page, perPage)| <= perPage
  {
    var first := (page - 1) * perPage;
    assert page * perPage - perPage == first;
    assert page * perPage == first + perPage;
  }

  /** Row `i` is shown on page `i / perPage + 1`, at position `i % perPage`: the
      pages cover the list without gaps. */
  lemma RowOnItsPage<T>(items: seq<T>, i: nat, perPage: nat)
    requires i < |items| && perPage > 0
    ensures var w := Window(items, i / perPage + 1, perPage);
            i % perPage < |w| && w[i % perPage] == items[i]
  {
    var q, r := i / perPage, i % perPage;
    PageStart(i, perPage);
    WindowOfPage(items, q + 1, perPage);
  }

  /** The arithmetic behind RowOnItsPage: row `i` lies between the first row
      of page `i / perPage + 1` and the first row of the page after it. */
  lemma PageStart(i: nat, perPage: nat)
    requires perPage > 0
    ensures var q := i / perPage;
            (q + 1 - 1) * perPage == q * perPage
            && q * perPage + i % perPage == i
            && (q + 1) * perPage == q * perPage + perPage
  {
  }

  /** For a page of 1 or more, the window holds a row exactly when the page is
      one of the `TotalPages` numbered buttons. */
  lemma WindowNonEmptyIffPageExists<T>(items: seq<T>, page: int, perPage: nat)
    requires page >= 1 && perPage > 0
    ensures Window(items, page, perPage) != [] <==> page <= TotalPages(|items|, perPage)
  {
    WindowOfPage(items, page, perPage);
    TotalPagesIsCeiling(|items|, perPage);
    var t := TotalPages(|items|, perPage);
    var first := (page - 1) * perPage;
    if page <= t {
      MulMonotone(page - 1, t - 1, perPage);
    } else {
      MulMonotone(t, page - 1, perPage);
    }
  }

  lemma MulMonotone(a: int, b: int, k: nat)
    requires a <= b
    ensures a * k <= b * k
  {
  }

  /** Page 0 (one step below the first page) shows nothing. */
  lemma WindowOfPageZero<T>(items: seq<T>, perPage: nat)
    ensures Window(items, 0, perPage) == []
  {
  }

  /** The "to" figure of "Showing from .. to .. of n results" on the course
      table: `Math.min(indexOfLast, n)`. */
  function ShowingTo(page: int, perPage: nat, n: nat): (r: int)
    ensures r <= n && r <= page * perPage
    ensures r == n || r == page * perPage
  {
    Min(page * perPage, n)
  }
}
