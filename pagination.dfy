/**
 * The Previous/Next pager of src/features/products/components/Pagination.tsx.
 * Each click handler either requests one page through the `onPageChange`
 * callback or does nothing; the request is the returned option.
 */
module Pagination {
  import opened Wrappers

  /** The page `handlePrevious` passes to `onPageChange`, if any. */
  function PreviousRequest(currentPage: int, totalPages: int): Option<int> {
    if currentPage > 1 then Some(currentPage - 1) else None
  }

  /** The page `handleNext` passes to `onPageChange`, if any. */
  function NextRequest(currentPage: int, totalPages: int): Option<int> {
    if currentPage < totalPages then Some(currentPage + 1) else None
  }

  /** The `disabled` attribute of the Previous button. */
  predicate PreviousDisabled(currentPage: int) {
    currentPage == 1
  }

  /** The `disabled` attribute of the Next button. */
  predicate NextDisabled(currentPage: int, totalPages: int) {
    currentPage == totalPages
  }

  /** Previous moves one page back exactly when it is not on the first page or before it. */
  lemma PreviousStep(currentPage: int, totalPages: int)
    ensures PreviousRequest(currentPage, totalPages).Some? <==> currentPage > 1
    ensures PreviousRequest(currentPage, totalPages).Some? ==>
              PreviousRequest(currentPage, totalPages).value == currentPage - 1
  {
  }

  /** Next moves one page forward exactly when there is a later page. */
  lemma NextStep(currentPage: int, totalPages: int)
    ensures NextRequest(currentPage, totalPages).Some? <==> currentPage < totalPages
    ensures NextRequest(currentPage, totalPages).Some? ==>
              NextRequest(currentPage, totalPages).value == currentPage + 1
  {
  }

  /** From a page in `[1, totalPages]`, every requested page is in `[1, totalPages]` too. */
  lemma RequestsStayInRange(currentPage: int, totalPages: int)
    requires 1 <= currentPage <= totalPages
    ensures PreviousRequest(currentPage, totalPages).Some? ==>
              1 <= PreviousRequest(currentPage, totalPages).value <= totalPages
    ensures NextRequest(currentPage, totalPages).Some? ==>
              1 <= NextRequest(currentPage, totalPages).value <= totalPages
  {
  }

  /** Next followed by Previous returns to the page it started from, when Next did something. */
  lemma NextThenPrevious(currentPage: int, totalPages: int)
    requires 1 <= currentPage
    requires NextRequest(currentPage, totalPages).Some?
    ensures PreviousRequest(NextRequest(currentPage, totalPages).value, totalPages) == Some(currentPage)
  {
  }

  /** Previous followed by Next returns to the page it started from, when Previous did something. */
  lemma PreviousThenNext(currentPage: int, totalPages: int)
    requires currentPage <= totalPages
    requires PreviousRequest(currentPage, totalPages).Some?
    ensures NextRequest(PreviousRequest(currentPage, totalPages).value, totalPages) == Some(currentPage)
  {
  }

  /**
   * The buttons use `===`, not a range test: on a page in range a disabled
   * button is exactly one whose handler does nothing.
   */
  lemma DisabledMeansInert(currentPage: int, totalPages: int)
    ensures currentPage >= 1 ==>
              (PreviousDisabled(currentPage) <==> PreviousRequest(currentPage, totalPages).None?)
    ensures currentPage <= totalPages ==>
              (NextDisabled(currentPage, totalPages) <==> NextRequest(currentPage, totalPages).None?)
  {
  }

  /**
   * Past the last page (for one, a page of rows shown while the reported
   * total is 0, so `totalPages` is 0) Next is enabled and does nothing.
   */
  lemma NextEnabledButInertPastLastPage(currentPage: int, totalPages: int)
    requires currentPage > totalPages
    ensures !NextDisabled(currentPage, totalPages)
    ensures NextRequest(currentPage, totalPages) == None
  {
  }
}
