/** `ProductFilterDto`: the query of the product listing, with its defaults and constraints. */
module ProductFilterDto {
  import opened Outcomes
  import opened QueryValues

  const DefaultPage := 1
  const DefaultLimit := 10
  const DefaultSortBy := "name"

  /** The query string as received: each field absent or the text sent. */
  datatype ProductQuery = ProductQuery(
    name: Option<string>, color: Option<string>, minPrice: Option<string>, maxPrice: Option<string>,
    categoryId: Option<string>, page: Option<string>, limit: Option<string>,
    sortBy: Option<string>, sortOrder: Option<string>)

  /** The validated filter the service receives; the price bounds stay text, as in the record. */
  datatype ProductFilter = ProductFilter(
    name: Option<string>, color: Option<string>, minPrice: Option<string>, maxPrice: Option<string>,
    categoryId: Option<string>, page: int, limit: int, sortBy: string, sortOrder: SortOrder)

  /** What the service relies on: a positive page and size, and numeric price bounds. */
  predicate ValidProductFilter(f: ProductFilter) {
    && f.page >= 1 && f.limit >= 1
    && (f.minPrice.Some? ==> IsNumberString(f.minPrice.value))
    && (f.maxPrice.Some? ==> IsNumberString(f.maxPrice.value))
  }

  predicate NumericIfPresent(raw: Option<string>) {
    raw.Some? ==> IsNumberString(raw.value)
  }

  /** Transformation and validation of the query: `None` is a rejected query (400). */
  function ParseProductFilter(q: ProductQuery): (r: Option<ProductFilter>)
    ensures r.Some? ==> ValidProductFilter(r.value)
    ensures r.Some? ==> r.value.name == q.name && r.value.color == q.color && r.value.categoryId == q.categoryId
    ensures r.Some? ==> r.value.minPrice == q.minPrice && r.value.maxPrice == q.maxPrice
    ensures r.Some? && q.page.None? ==> r.value.page == DefaultPage
    ensures r.Some? && q.limit.None? ==> r.value.limit == DefaultLimit
    ensures r.Some? ==> ParseCount(q.page, DefaultPage) == Some(r.value.page)
    ensures r.Some? ==> ParseCount(q.limit, DefaultLimit) == Some(r.value.limit)
    ensures r.Some? ==> r.value.sortBy == (if q.sortBy.Some? then q.sortBy.value else DefaultSortBy)
    ensures r.Some? && q.sortOrder.None? ==> r.value.sortOrder == Asc
    ensures r.Some? && q.sortOrder.Some? ==> SortOrderText(r.value.sortOrder) == q.sortOrder.value
    ensures r.Some? <==>
      && NumericIfPresent(q.minPrice) && NumericIfPresent(q.maxPrice)
      && ParseCount(q.page, DefaultPage).Some?
      && ParseCount(q.limit, DefaultLimit).Some?
      && (q.sortOrder.Some? ==> ParseSortOrder(q.sortOrder.value).Some?)
  {
    var page := ParseCount(q.page, DefaultPage);
    var limit := ParseCount(q.limit, DefaultLimit);
    var order := if q.sortOrder.Some? then ParseSortOrder(q.sortOrder.value) else Some(Asc);
    if !NumericIfPresent(q.minPrice) || !NumericIfPresent(q.maxPrice) then None
    else if page.None? || limit.None? || order.None? then None
    else
      var sortBy := if q.sortBy.Some? then q.sortBy.value else DefaultSortBy;
      Some(ProductFilter(q.name, q.color, q.minPrice, q.maxPrice, q.categoryId,
                         page.value, limit.value, sortBy, order.value))
  }

  /** The query string a caller writes for a filter: every field sent, page and size in decimal. */
  function QueryOf(f: ProductFilter): ProductQuery
    requires ValidProductFilter(f)
  {
    ProductQuery(f.name, f.color, f.minPrice, f.maxPrice, f.categoryId,
                 Some(NatText(f.page)), Some(NatText(f.limit)), Some(f.sortBy), Some(SortOrderText(f.sortOrder)))
  }

  /** Writing a valid filter as a query string and reading it back gives that filter. */
  lemma ProductFilterRoundTrip(f: ProductFilter)
    requires ValidProductFilter(f)
    ensures ParseProductFilter(QueryOf(f)) == Some(f)
  {
    CountOfText(f.page, DefaultPage);
    CountOfText(f.limit, DefaultLimit);
    assert ParseSortOrder(SortOrderText(f.sortOrder)) == Some(f.sortOrder) by {
      match f.sortOrder
      case Asc =>
      case Desc =>
    }
  }

  /** Whole-number price bounds written in decimal are accepted, with their values. */
  lemma PriceBoundsOfText(lo: nat, hi: nat)
    ensures var r := ParseProductFilter(
              ProductQuery(None, None, Some(NatText(lo)), Some(NatText(hi)), None, None, None, None, None));
            && r.Some?
            && NumericValue(r.value.minPrice.value) == lo as real
            && NumericValue(r.value.maxPrice.value) == hi as real
  {
    NumberStringOfNat(lo);
    NumberStringOfNat(hi);
  }
}
