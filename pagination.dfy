/**
 * The client's generic page switcher (`Pagination`): one button per page,
 * Previous and Next, and a guard that passes on only pages that exist.
 */
module Pagination {
  import opened Common

  /** `Math.ceil(totalItems / itemsPerPage)`. */
  function TotalPages(totalItems: int, itemsPerPage: int): (r: int)
    requires itemsPerPage > 0
    ensures totalItems >= 0 ==> r >= 0
    ensures (r - 1) * itemsPerPage < totalItems <= r * itemsPerPage
  {
    CeilDiv(totalItems, itemsPerPage)
  }

  /** Nothing is rendered for a single page or none. */
  predicate Renders(totalPages: int)
  {
    totalPages > 1
  }

  /** `handlePageChange`: the page handed to `onPageChange`, if it is one that exists. */
  function HandlePageChange(page: int, totalPages: int): (r: Option<int>)
    ensures r.Some? <==> 1 <= page <= totalPages
    ensures r.Some? ==> r.value == page
  {
    if page >= 1 && page <= totalPages then Some(page) else None
  }

  datatype Button = Button(page: int, highlighted: bool)

  /** `renderPageNumbers`: pages 1 to `totalPages` in order, the current one highlighted. */
  method RenderPageNumbers(totalPages: int, currentPage: int) returns (pages: seq<Button>)
    ensures |pages| == Max(0, totalPages)
    ensures forall k :: 0 <= k < |pages| ==> pages[k] == Button(k + 1, k + 1 == currentPage)
  {
    pages := [];
    var i := 1;
    while i <= totalPages
      invariant 1 <= i <= Max(1, totalPages + 1)
      invariant |pages| == i - 1
      invariant forall k :: 0 <= k < |pages| ==> pages[k] == Button(k + 1, k + 1 == currentPage)
    {
      pages := pages + [Button(i, i == currentPage)];
      i := i + 1;
    }
  }

  /** Clicking any rendered number passes that page on. */
  lemma ButtonsChangePage(totalPages: int, k: int)
    requires 0 <= k < totalPages
    ensures HandlePageChange(k + 1, totalPages) == Some(k + 1)
  {
  }

  predicate PreviousDisabled(currentPage: int) { currentPage == 1 }
  predicate NextDisabled(currentPage: int, totalPages: int) { currentPage == totalPages }

  /** Previous and Next, when enabled on a page that exists, lead to a page that exists. */
  lemma PreviousAndNextStayInRange(currentPage: int, totalPages: int)
    requires 1 <= currentPage <= totalPages
    ensures !PreviousDisabled(currentPage) ==> HandlePageChange(currentPage - 1, totalPages) == Some(currentPage - 1)
    ensures !NextDisabled(currentPage, totalPages) ==> HandlePageChange(currentPage + 1, totalPages) == Some(currentPage + 1)
  {
  }
}
