/** The pagination hook: a current page and a page count, overwritten by
    each transition, with the two derived "can move" predicates. */
module UsePagination {

  /** `Math.min(current + 1, totalPages - 1)`. */
  function NextPageOf(current: int, totalPages: int): (r: int)
    ensures r <= totalPages - 1
    ensures current < totalPages - 1 <==> r == current + 1
    ensures current >= totalPages - 1 ==> r == totalPages - 1
  {
    if current + 1 <= totalPages - 1 then current + 1 else totalPages - 1
  }

  /** `Math.max(current - 1, 0)`. */
  function PreviousPageOf(current: int): (r: int)
    ensures r >= 0
    ensures current > 0 <==> r == current - 1
    ensures current <= 0 ==> r == 0
  {
    if current - 1 >= 0 then current - 1 else 0
  }

  class Pagination {
    var currentPage: int
    var totalPages: int

    constructor (initialPage: int := 0)
      ensures currentPage == initialPage && totalPages == 0
    {
      currentPage := initialPage;
      totalPages := 0;
    }

    predicate CanGoNext()
      reads this
    {
      currentPage < totalPages - 1
    }

    predicate CanGoPrevious()
      reads this
    {
      currentPage > 0
    }

    method SetTotalPages(total: int)
      modifies this
      ensures totalPages == total && currentPage == old(currentPage)
    {
      totalPages := total;
    }

    /** No clamping: any page is accepted. */
    method GoToPage(page: int)
      modifies this
      ensures currentPage == page && totalPages == old(totalPages)
    {
      currentPage := page;
    }

    method NextPage()
      modifies this
      ensures currentPage == NextPageOf(old(currentPage), old(totalPages))
      ensures totalPages == old(totalPages)
    {
      currentPage := NextPageOf(currentPage, totalPages);
    }

    method PreviousPage()
      modifies this
      ensures currentPage == PreviousPageOf(old(currentPage))
      ensures totalPages == old(totalPages)
    {
      currentPage := PreviousPageOf(currentPage);
    }

    /** Back to page 0; a second reset changes nothing. */
    method ResetPage()
      modifies this
      ensures currentPage == 0 && totalPages == old(totalPages)
    {
      currentPage := 0;
    }
  }

  // ---------------------------------------------------------------------
  // Properties of the transitions

  /** The derived predicates say exactly whether the matching transition
      moves by one page; with no pages, neither holds at page 0. */
  lemma PredicatesMatchTransitions(p: Pagination)
    ensures p.CanGoNext() <==> NextPageOf(p.currentPage, p.totalPages) == p.currentPage + 1
    ensures p.CanGoPrevious() <==> PreviousPageOf(p.currentPage) == p.currentPage - 1
    ensures p.totalPages == 0 && p.currentPage == 0 ==> !p.CanGoNext() && !p.CanGoPrevious()
  {
  }

  /** At the last page `nextPage` is a no-op; at page 0 `previousPage` is. */
  lemma BoundariesAreNoOps(totalPages: int)
    ensures NextPageOf(totalPages - 1, totalPages) == totalPages - 1
    ensures PreviousPageOf(0) == 0
  {
  }

  /** With no pages, `nextPage` from any page at or after the first lands
      on -1. */
  lemma NextWithoutPages(current: int)
    requires current >= 0
    ensures NextPageOf(current, 0) == -1
  {
  }

  /** Going forward then back returns to the start unless forward clamped. */
  lemma NextThenPrevious(current: int, totalPages: int)
    requires 0 <= current < totalPages - 1
    ensures PreviousPageOf(NextPageOf(current, totalPages)) == current
  {
  }

  /** A page inside `[0, totalPages)` stays inside under both moves. */
  lemma MovesStayInRange(current: int, totalPages: int)
    requires 0 <= current < totalPages
    ensures 0 <= NextPageOf(current, totalPages) < totalPages
    ensures 0 <= PreviousPageOf(current) < totalPages
  {
  }
}
