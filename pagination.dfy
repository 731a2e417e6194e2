/*
 * Pagination arithmetic of the paged admin lists: the Prev/Next clamps, the
 * five-button sliding window of page numbers and the "Showing X to Y of Z"
 * bounds.
 */
module Pagination {

  /** `Math.max(1, page - 1)` */
  function Prev(page: int): (r: int)
    ensures r >= 1
    ensures page > 1 ==> r == page - 1
    ensures page <= 1 ==> r == 1
  {
    if page - 1 > 1 then page - 1 else 1
  }

  /** `Math.min(pages, page + 1)` */
  function Next(page: int, pages: int): (r: int)
    ensures r <= pages
    ensures page < pages ==> r == page + 1
    ensures page >= pages ==> r == pages
  {
    if pages < page + 1 then pages else page + 1
  }

  /** Prev and Next never leave the range [1, pages] once inside it. */
  lemma ClampsStayInRange(page: int, pages: int)
    requires 1 <= page <= pages
    ensures 1 <= Prev(page) <= pages
    ensures 1 <= Next(page, pages) <= pages
  {
  }

  /** The first page number the sliding window shows. */
  function WindowStart(page: int, pages: int): int {
    if pages <= 5 then 1
    else if page <= 3 then 1
    else if page >= pages - 2 then pages - 4
    else page - 2
  }

  /** The number of page buttons: `Math.min(5, pages)`, and none for a
      non-positive count (`Array.from` treats a negative length as 0). */
  function WindowSize(pages: int): nat {
    if pages <= 0 then 0 else if pages < 5 then pages else 5
  }

  /** The page buttons `Array.from({length: Math.min(5, pages)}, ...)` renders:
      at most five consecutive page numbers, all within [1, pages], and the
      current page among them whenever it is itself a valid page. */
  function PageWindow(page: int, pages: int): (w: seq<int>)
    ensures |w| == WindowSize(pages)
    ensures forall i :: 0 <= i < |w| ==> 1 <= w[i] <= pages
    ensures forall i :: 0 < i < |w| ==> w[i] == w[i - 1] + 1
    ensures 1 <= page <= pages ==> page in w
  {
    var start := WindowStart(page, pages);
    var w := seq(WindowSize(pages), i requires 0 <= i < WindowSize(pages) => start + i);
    assert 1 <= page <= pages ==> w[page - start] == page;
    w
  }

  /** The window holds pages 1..pages exactly when there are at most five. */
  lemma SmallWindowIsAllPages(page: int, pages: int)
    requires 0 <= pages <= 5
    ensures PageWindow(page, pages) == seq(pages, i requires 0 <= i < pages => i + 1)
  {
  }

  /** `(page - 1) * limit + 1`, the first row number shown. */
  function ShowingFrom(page: int, limit: int): int {
    (page - 1) * limit + 1
  }

  /** `Math.min(page * limit, total)`, the last row number shown. */
  function ShowingTo(page: int, limit: int, total: int): int {
    if page * limit < total then page * limit else total
  }

  /** On any page that holds at least one row, the "Showing X to Y of Z"
      range is non-empty, lies within 1..total and spans at most one page. */
  lemma ShowingBounds(page: int, limit: int, total: int)
    requires page >= 1 && limit >= 1
    requires (page - 1) * limit < total
    ensures 1 <= ShowingFrom(page, limit) <= ShowingTo(page, limit, total) <= total
    ensures ShowingTo(page, limit, total) - ShowingFrom(page, limit) + 1 <= limit
  {
    assert page * limit == (page - 1) * limit + limit;
    assert (page - 1) * limit >= 0;
  }
}
