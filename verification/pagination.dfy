/** Page arithmetic of the to-do list: five rows per page, an inclusive row
    range per page, the number of pages for a row count, and the Prev/Next
    buttons' clamps. */
module Pagination {

  /** `pageSize`: rows per page. */
  const PageSize: nat := 5

  /** An inclusive range of row indices, as the store's `range(from, to)`
      takes it. */
  datatype Rows = Rows(from: int, to: int) {
    predicate Contains(i: int) {
      from <= i <= to
    }
  }

  /** The rows of a 1-based page: `from = (page - 1) * pageSize`,
      `to = from + pageSize - 1`. Every page covers exactly `PageSize`
      indices, page 1 starts at row 0, and page `p` starts right after the
      `p - 1` pages before it. */
  function PageRange(page: int): (r: Rows)
    ensures r.to - r.from + 1 == PageSize
    ensures page == 1 ==> r.from == 0
    ensures r.from % PageSize == 0 && r.from / PageSize == page - 1
  {
    var from := (page - 1) * PageSize;
    Rows(from, from + PageSize - 1)
  }

  /** Consecutive pages are contiguous: the next page starts at the row
      after this page's last one. */
  lemma PagesAreContiguous(page: int)
    ensures PageRange(page + 1).from == PageRange(page).to + 1
  {
  }

  /** Distinct pages share no row. */
  lemma PagesAreDisjoint(p: int, q: int, i: int)
    requires p != q
    ensures !(PageRange(p).Contains(i) && PageRange(q).Contains(i))
  {
    if p < q {
      assert PageRange(p).to < PageRange(q).from by {
        assert PageRange(q).from - PageRange(p).from == (q - p) * PageSize;
      }
    } else {
      assert PageRange(q).to < PageRange(p).from by {
        assert PageRange(p).from - PageRange(q).from == (p - q) * PageSize;
      }
    }
  }

  /** Every row index lies on the page `i / PageSize + 1`, so the pages
      together cover all rows. */
  lemma EveryRowHasAPage(i: nat)
    ensures PageRange(i / PageSize + 1).Contains(i)
  {
  }

  /** `Math.max(1, Math.ceil(totalCount / pageSize))` for a row count that is
      never negative. */
  function TotalPages(totalCount: nat): (n: nat)
    ensures n >= 1
    ensures n * PageSize >= totalCount
    ensures totalCount > 0 ==> (n - 1) * PageSize < totalCount
    ensures totalCount == 0 ==> n == 1
  {
    var pages := (totalCount + PageSize - 1) / PageSize;
    if pages < 1 then 1 else pages
  }

  /** With at least one row, the last page is not empty: it starts below
      the row count, and every row lies on one of the pages 1..TotalPages. */
  lemma LastPageHoldsRows(totalCount: nat, i: nat)
    requires totalCount > 0 && i < totalCount
    ensures PageRange(TotalPages(totalCount)).from < totalCount
    ensures 1 <= i / PageSize + 1 <= TotalPages(totalCount)
  {
  }

  /** Example: 12 rows give 3 pages; page 1 asks for rows 0..4
      and page 3 for rows 10..14, of which the store has 10 and 11. */
  lemma TwelveRowsExample()
    ensures TotalPages(12) == 3
    ensures PageRange(1) == Rows(0, 4) && PageRange(3) == Rows(10, 14)
    ensures PageRange(3).Contains(10) && PageRange(3).Contains(11)
  {
  }

  /** The Prev button: `Math.max(prev - 1, 1)`. It steps back one page, and
      never goes below page 1. */
  function PrevPage(page: int): (r: int)
    ensures r >= 1
    ensures page > 1 ==> r == page - 1
    ensures page <= 1 ==> r == 1
  {
    if page - 1 > 1 then page - 1 else 1
  }

  /** The Next button: `Math.min(prev + 1, totalPages)`. It steps forward one
      page, and never goes past the last page. */
  function NextPage(page: int, totalPages: int): (r: int)
    ensures r <= totalPages
    ensures page < totalPages ==> r == page + 1
    ensures page >= totalPages ==> r == totalPages
  {
    if page + 1 < totalPages then page + 1 else totalPages
  }

  /** Prev and Next keep a page that starts in `[1, totalPages]` there. */
  lemma PrevNextStayInBounds(page: int, totalPages: int)
    requires 1 <= page <= totalPages
    ensures 1 <= PrevPage(page) <= totalPages
    ensures 1 <= NextPage(page, totalPages) <= totalPages
  {
  }

  /** A page past the end (rows were deleted since it was shown) is pulled
      back to the last page by Next. */
  lemma NextPullsBackPastTheEnd(page: int, totalPages: int)
    requires page > totalPages
    ensures NextPage(page, totalPages) == totalPages < page
  {
  }
}
