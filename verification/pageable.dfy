/**
 * Pagination requests and `PageExtender`, a pagination request that also
 * carries a `Boundary`.
 *
 * `Pageable`, `PageRequest` and `Pageable.unpaged()` belong to Spring Data
 * Commons and are not part of this model's sources; they are modelled after
 * that library: a page request has a page number, a page size of at least one
 * and a sort, its offset is `page * size`; the unpaged request only has a sort
 * and throws `UnsupportedOperationException` when asked for page number, size
 * or offset. `PageExtender` does not override `isPaged`/`isUnpaged`, so the
 * interface defaults apply to it: an extender always counts as paged, even
 * around an unpaged request.
 */
module Paging {
  import opened Errors
  import opened Sorting
  import opened Boundaries

  type PageSize = n: int | n >= 1 witness 1

  /** `getBoundary()` of an extender is its `boundary` field. */
  datatype Pageable =
    | Unpaged(sort: Sort)
    | PageRequest(page: nat, size: PageSize, sort: Sort)
    | PageExtender(pageable: Pageable, boundary: Boundary)

  const Unsupported: Error := UnsupportedOperation("")

  predicate IsPaged(p: Pageable) {
    !p.Unpaged?
  }

  predicate IsUnpaged(p: Pageable) {
    !IsPaged(p)
  }

  function GetPageNumber(p: Pageable): Result<int> {
    match p
    case Unpaged(_) => Err(Unsupported)
    case PageRequest(page, _, _) => Ok(page)
    case PageExtender(inner, _) => GetPageNumber(inner)
  }

  function GetPageSize(p: Pageable): Result<int> {
    match p
    case Unpaged(_) => Err(Unsupported)
    case PageRequest(_, size, _) => Ok(size)
    case PageExtender(inner, _) => GetPageSize(inner)
  }

  function GetOffset(p: Pageable): Result<int> {
    match p
    case Unpaged(_) => Err(Unsupported)
    case PageRequest(page, size, _) => Ok(page * size)
    case PageExtender(inner, _) => GetOffset(inner)
  }

  function GetSort(p: Pageable): Sort {
    match p
    case Unpaged(sort) => sort
    case PageRequest(_, _, sort) => sort
    case PageExtender(inner, _) => GetSort(inner)
  }

  function HasPrevious(p: Pageable): bool {
    match p
    case Unpaged(_) => false
    case PageRequest(page, _, _) => page > 0
    case PageExtender(inner, _) => HasPrevious(inner)
  }

  function Next(p: Pageable): Pageable {
    match p
    case Unpaged(_) => p
    case PageRequest(page, size, sort) => PageRequest(page + 1, size, sort)
    case PageExtender(inner, _) => Next(inner)
  }

  function First(p: Pageable): Pageable {
    match p
    case Unpaged(_) => p
    case PageRequest(_, size, sort) => PageRequest(0, size, sort)
    case PageExtender(inner, _) => First(inner)
  }

  function PreviousOrFirst(p: Pageable): Pageable {
    match p
    case Unpaged(_) => p
    case PageRequest(page, size, sort) => if page > 0 then PageRequest(page - 1, size, sort) else First(p)
    case PageExtender(inner, _) => PreviousOrFirst(inner)
  }

  function WithPage(p: Pageable, pageNumber: int): Result<Pageable> {
    match p
    case Unpaged(_) => if pageNumber == 0 then Ok(p) else Err(Unsupported)
    case PageRequest(_, size, sort) =>
      if pageNumber < 0 then Err(IllegalArgument("Page index must not be less than zero"))
      else Ok(PageRequest(pageNumber, size, sort))
    case PageExtender(inner, _) => WithPage(inner, pageNumber)
  }

  /** Every accessor of an extender answers as the pageable it wraps. */
  lemma ExtenderDelegatesAccessors(inner: Pageable, boundary: Boundary)
    ensures var e := PageExtender(inner, boundary);
      && GetPageNumber(e) == GetPageNumber(inner)
      && GetPageSize(e) == GetPageSize(inner)
      && GetOffset(e) == GetOffset(inner)
      && GetSort(e) == GetSort(inner)
      && HasPrevious(e) == HasPrevious(inner)
  {
  }

  /** An extender always counts as paged, whatever it wraps. */
  lemma ExtenderIsPaged(inner: Pageable, boundary: Boundary)
    ensures IsPaged(PageExtender(inner, boundary))
    ensures IsUnpaged(inner) ==> GetPageSize(PageExtender(inner, boundary)).Err?
  {
  }

  /** The pageable an extender wraps, through any number of extenders. */
  function Innermost(p: Pageable): (r: Pageable)
    ensures !r.PageExtender?
  {
    if p.PageExtender? then Innermost(p.pageable) else p
  }

  /**
   * Navigating from an extender gives the wrapped pageable's result: the
   * boundary is not carried over to the new request.
   */
  lemma {:induction false} NavigationDropsBoundary(p: Pageable, n: int)
    ensures Next(p) == Next(Innermost(p)) && !Next(p).PageExtender?
    ensures First(p) == First(Innermost(p)) && !First(p).PageExtender?
    ensures PreviousOrFirst(p) == PreviousOrFirst(Innermost(p)) && !PreviousOrFirst(p).PageExtender?
    ensures WithPage(p, n) == WithPage(Innermost(p), n) && (WithPage(p, n).Ok? ==> !WithPage(p, n).value.PageExtender?)
  {
    if p.PageExtender? {
      NavigationDropsBoundary(p.pageable, n);
    }
  }

  /** Page navigation moves the offset by whole pages and keeps the size and sort. */
  lemma {:induction false} NextAdvancesOffsetByOnePage(p: Pageable)
    requires IsPaged(Innermost(p))
    ensures GetOffset(Next(p)).Ok? && GetOffset(p).Ok? && GetPageSize(p).Ok?
    ensures GetOffset(Next(p)).value == GetOffset(p).value + GetPageSize(p).value
    ensures GetPageSize(Next(p)) == GetPageSize(p) && GetSort(Next(p)) == GetSort(p)
  {
    match p
    case PageRequest(page, size, sort) =>
      assert (page + 1) * size == page * size + size;
    case PageExtender(inner, _) =>
      NextAdvancesOffsetByOnePage(inner);
  }
}
