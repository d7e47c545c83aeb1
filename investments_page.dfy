/**
 * The investment list page: the query record (`filters`) that the filter
 * controls and the sort button change, the pagination controls, the
 * "Showing X to Y of Z" range, and which of the four views is shown.
 */
module InvestmentsPage {
  import opened Common

  datatype Category = Stocks | Bonds | RealEstate | Crypto | MutualFunds | OtherCategory
  datatype Status = Active | Closed | Pending
  datatype SortColumn = SortName | SortInitialAmount | SortCurrentBalance | SortReturnRate | SortCreatedAt
  datatype SortOrder = Asc | Desc

  /** The query sent to the list endpoint; every field may be unset. */
  datatype Filters = Filters(
    search: Option<string>,
    category: Option<Category>,
    status: Option<Status>,
    sortBy: Option<SortColumn>,
    sortOrder: Option<SortOrder>,
    page: Option<int>,
    limit: Option<int>)

  /** One `handleFilterChange(key, value)` call: the key and the value it is set to. */
  datatype FilterUpdate =
    | SetSearch(search: Option<string>)
    | SetCategory(category: Option<Category>)
    | SetStatus(status: Option<Status>)
    | SetSortBy(sortBy: Option<SortColumn>)
    | SetSortOrder(sortOrder: Option<SortOrder>)
    | SetPage(page: Option<int>)
    | SetLimit(limit: Option<int>)

  /** The pagination block the list endpoint returns. */
  datatype Pagination = Pagination(page: int, limit: int, total: int, totalPages: int)

  /** The first query: page 1 of 10, newest first. */
  const InitialFilters: Filters :=
    Filters(None, None, None, Some(SortCreatedAt), Some(Desc), Some(1), Some(10))

  /** `{...prev, [key]: value, page: key !== 'page' ? 1 : value}`. */
  function FilterChange(f: Filters, u: FilterUpdate): (r: Filters)
    ensures r.page == (if u.SetPage? then u.page else Some(1))
    ensures r.search == (if u.SetSearch? then u.search else f.search)
    ensures r.category == (if u.SetCategory? then u.category else f.category)
    ensures r.status == (if u.SetStatus? then u.status else f.status)
    ensures r.sortBy == (if u.SetSortBy? then u.sortBy else f.sortBy)
    ensures r.sortOrder == (if u.SetSortOrder? then u.sortOrder else f.sortOrder)
    ensures r.limit == (if u.SetLimit? then u.limit else f.limit)
  {
    var g := match u
      case SetSearch(v) => f.(search := v)
      case SetCategory(v) => f.(category := v)
      case SetStatus(v) => f.(status := v)
      case SetSortBy(v) => f.(sortBy := v)
      case SetSortOrder(v) => f.(sortOrder := v)
      case SetPage(v) => f.(page := v)
      case SetLimit(v) => f.(limit := v);
    g.(page := if u.SetPage? then u.page else Some(1))
  }

  /** The order `handleSortChange(column)` picks: descending only when re-clicking an ascending column. */
  function NextSortOrder(f: Filters, column: SortColumn): (order: SortOrder)
    ensures order == Desc <==> f.sortBy == Some(column) && f.sortOrder == Some(Asc)
  {
    if f.sortBy == Some(column) && f.sortOrder == Some(Asc) then Desc else Asc
  }

  /** `{...prev, sortBy: column, sortOrder: newSortOrder}`: page and the filters are kept. */
  function SortChange(f: Filters, column: SortColumn): (r: Filters)
    ensures r.sortBy == Some(column)
    ensures r.sortOrder == Some(NextSortOrder(f, column))
    ensures r.search == f.search && r.category == f.category && r.status == f.status
    ensures r.page == f.page && r.limit == f.limit
  {
    f.(sortBy := Some(column), sortOrder := Some(NextSortOrder(f, column)))
  }

  /** The column the sort-order button re-sorts by: `filters.sortBy || 'createdAt'`. */
  function ButtonColumn(f: Filters): SortColumn
  {
    if f.sortBy.Some? then f.sortBy.value else SortCreatedAt
  }

  /** One click on the sort-order button. */
  function SortButtonClick(f: Filters): Filters
  {
    SortChange(f, ButtonColumn(f))
  }

  /** Re-sorting by the current column flips an ascending or descending order. */
  lemma SortChangeFlips(f: Filters, column: SortColumn)
    requires f.sortBy == Some(column) && f.sortOrder.Some?
    ensures SortChange(f, column).sortOrder.value != f.sortOrder.value
  {
  }

  /** Two clicks on the sort-order button give back the original query, once sortBy and sortOrder are set. */
  lemma SortButtonTwiceRestores(f: Filters)
    requires f.sortBy.Some? && f.sortOrder.Some?
    ensures SortButtonClick(SortButtonClick(f)) == f
  {
    var g := SortButtonClick(f);
    assert ButtonColumn(g) == ButtonColumn(f);
    SortChangeFlips(f, ButtonColumn(f));
    SortChangeFlips(g, ButtonColumn(f));
  }

  /** From the first query, one click sorts ascending and a second click restores newest first. */
  lemma InitialSortToggle()
    ensures SortButtonClick(InitialFilters).sortOrder == Some(Asc)
    ensures SortButtonClick(SortButtonClick(InitialFilters)) == InitialFilters
  {
    SortButtonTwiceRestores(InitialFilters);
  }

  /** Changing any filter other than the page sends the user back to page 1. */
  lemma FilterChangeResetsPage(f: Filters, u: FilterUpdate)
    requires !u.SetPage?
    ensures FilterChange(f, u).page == Some(1)
  {
  }

  /** The pagination bar is rendered only when there is more than one page. */
  predicate ShowPagination(p: Pagination)
  {
    p.totalPages > 1
  }

  predicate PreviousDisabled(p: Pagination)
  {
    p.page <= 1
  }

  predicate NextDisabled(p: Pagination)
  {
    p.page >= p.totalPages
  }

  /** The query after clicking Previous. */
  function PreviousClick(f: Filters, p: Pagination): Filters
  {
    FilterChange(f, SetPage(Some(p.page - 1)))
  }

  /** The query after clicking Next. */
  function NextClick(f: Filters, p: Pagination): Filters
  {
    FilterChange(f, SetPage(Some(p.page + 1)))
  }

  /** An enabled Previous or Next button asks for a page between 1 and the last page. */
  lemma EnabledButtonsStayInRange(f: Filters, p: Pagination)
    requires 1 <= p.page <= p.totalPages
    ensures !PreviousDisabled(p) ==> 1 <= PreviousClick(f, p).page.value <= p.totalPages
    ensures !NextDisabled(p) ==> 1 <= NextClick(f, p).page.value <= p.totalPages
    ensures PreviousDisabled(p) <==> p.page == 1
    ensures NextDisabled(p) <==> p.page == p.totalPages
  {
  }

  /** The first row shown: `(page - 1) * limit + 1`, right after the last row of the previous page. */
  function RangeStart(p: Pagination): (start: int)
    ensures start - 1 == (p.page - 1) * p.limit
    ensures p.page == 1 ==> start == 1
    ensures p.page >= 2 && (p.page - 1) * p.limit <= p.total ==> start == RangeEnd(p.(page := p.page - 1)) + 1
  {
    (p.page - 1) * p.limit + 1
  }

  /** The last row shown: `Math.min(page * limit, total)`. */
  function RangeEnd(p: Pagination): (end: int)
    ensures end <= p.total && end <= p.page * p.limit
    ensures end == p.total || end == p.page * p.limit
  {
    if p.page * p.limit <= p.total then p.page * p.limit else p.total
  }

  /** The range never passes the total and never holds more than one page of rows. */
  lemma RangeBounds(p: Pagination)
    ensures RangeEnd(p) <= p.total
    ensures RangeEnd(p) - RangeStart(p) + 1 <= p.limit
  {
    assert p.page * p.limit - (p.page - 1) * p.limit == p.limit;
  }

  /** On a page that is not past the end, the range is not empty. */
  lemma RangeNotEmpty(p: Pagination)
    requires p.page >= 1 && p.limit >= 1 && (p.page - 1) * p.limit < p.total
    ensures RangeStart(p) <= RangeEnd(p)
  {
    assert p.page * p.limit == (p.page - 1) * p.limit + p.limit;
  }

  /** What the content area shows. */
  datatype View =
    | Spinner
    | ErrorView
    | EmptyView(offerCreate: bool)
    | Grid(paginationShown: bool)

  /** A filter is in effect when it holds a truthy value. */
  predicate Filtering(f: Filters)
  {
    (f.search.Some? && f.search.value != "") || f.category.Some? || f.status.Some?
  }

  /** The nested conditional of the page's content area. */
  function ContentView(isLoading: bool, error: Option<string>, count: nat, f: Filters, p: Pagination): (v: View)
    ensures v == Spinner <==> isLoading
    ensures v == ErrorView <==> !isLoading && error.Some? && error.value != "" && count == 0
    ensures v.EmptyView? <==> !isLoading && count == 0 && (error.None? || error.value == "")
    ensures v.EmptyView? ==> (v.offerCreate <==> !Filtering(f))
    ensures v.Grid? <==> !isLoading && count > 0
    ensures v.Grid? ==> (v.paginationShown <==> ShowPagination(p))
  {
    if isLoading then Spinner
    else if error.Some? && error.value != "" && count == 0 then ErrorView
    else if count == 0 then EmptyView(!Filtering(f))
    else Grid(ShowPagination(p))
  }

  /** The page's query state; the handlers replace it by the transitions above. */
  class ListQuery {
    var filters: Filters

    constructor ()
      ensures filters == InitialFilters
    {
      filters := InitialFilters;
    }

    method HandleFilterChange(u: FilterUpdate)
      modifies this
      ensures filters == FilterChange(old(filters), u)
    {
      filters := FilterChange(filters, u);
    }

    method HandleSortChange(column: SortColumn)
      modifies this
      ensures filters == SortChange(old(filters), column)
      ensures filters.page == old(filters.page)
    {
      filters := SortChange(filters, column);
    }
  }
}
