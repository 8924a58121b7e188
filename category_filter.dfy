/** `CategoryFilterDto`: the query of the category listing, with its defaults and constraints. */
module CategoryFilterDto {
  import opened Outcomes
  import opened QueryValues

  const DefaultPage := 1
  const DefaultLimit := 10
  const DefaultSortBy := "name"

  /** The query string as received: each field absent or the text sent. */
  datatype CategoryQuery = CategoryQuery(
    name: Option<string>, page: Option<string>, limit: Option<string>,
    sortBy: Option<string>, sortOrder: Option<string>)

  /** The validated filter the service receives. */
  datatype CategoryFilter = CategoryFilter(
    name: Option<string>, page: int, limit: int, sortBy: string, sortOrder: SortOrder)

  /** What the pagination arithmetic relies on. */
  predicate ValidCategoryFilter(f: CategoryFilter) {
    f.page >= 1 && f.limit >= 1
  }

  /** Transformation and validation of the query: `None` is a rejected query (400). */
  function ParseCategoryFilter(q: CategoryQuery): (r: Option<CategoryFilter>)
    ensures r.Some? ==> ValidCategoryFilter(r.value)
    ensures r.Some? ==> r.value.name == q.name
    ensures r.Some? && q.page.None? ==> r.value.page == DefaultPage
    ensures r.Some? && q.limit.None? ==> r.value.limit == DefaultLimit
    ensures r.Some? ==> ParseCount(q.page, DefaultPage) == Some(r.value.page)
    ensures r.Some? ==> ParseCount(q.limit, DefaultLimit) == Some(r.value.limit)
    ensures r.Some? ==> r.value.sortBy == (if q.sortBy.Some? then q.sortBy.value else DefaultSortBy)
    ensures r.Some? && q.sortOrder.None? ==> r.value.sortOrder == Asc
    ensures r.Some? && q.sortOrder.Some? ==> SortOrderText(r.value.sortOrder) == q.sortOrder.value
    ensures r.Some? <==>
      && ParseCount(q.page, DefaultPage).Some?
      && ParseCount(q.limit, DefaultLimit).Some?
      && (q.sortOrder.Some? ==> ParseSortOrder(q.sortOrder.value).Some?)
  {
    var page := ParseCount(q.page, DefaultPage);
    var limit := ParseCount(q.limit, DefaultLimit);
    var order := if q.sortOrder.Some? then ParseSortOrder(q.sortOrder.value) else Some(Asc);
    if page.None? || limit.None? || order.None? then None
    else
      var sortBy := if q.sortBy.Some? then q.sortBy.value else DefaultSortBy;
      Some(CategoryFilter(q.name, page.value, limit.value, sortBy, order.value))
  }

  /** The query string a caller writes for a filter: every field sent, page and size in decimal. */
  function QueryOf(f: CategoryFilter): CategoryQuery
    requires ValidCategoryFilter(f)
  {
    CategoryQuery(f.name, Some(NatText(f.page)), Some(NatText(f.limit)), Some(f.sortBy),
                  Some(SortOrderText(f.sortOrder)))
  }

  /** Writing a valid filter as a query string and reading it back gives that filter. */
  lemma CategoryFilterRoundTrip(f: CategoryFilter)
    requires ValidCategoryFilter(f)
    ensures ParseCategoryFilter(QueryOf(f)) == Some(f)
  {
    CountOfText(f.page, DefaultPage);
    CountOfText(f.limit, DefaultLimit);
    assert ParseSortOrder(SortOrderText(f.sortOrder)) == Some(f.sortOrder) by {
      match f.sortOrder
      case Asc =>
      case Desc =>
    }
  }
}
