/** The admin page listing product reviews: its filter selections and current
    page, the list query built from them, the Clear Filters button and the return
    to page 1 whenever a filter changes. A date is held as the ISO text the page
    sends for it. */
module ReviewsPage {
  import opened Common

  const PageSize: int := 10
  const AllValue: string := "all"

  /** A value of the list query: a number, `NaN` (what `parseInt` gives for a rating
      filter that is not a number) or a text. */
  datatype QueryValue = Num(n: int) | NaN | Text(s: string)

  /** The list query: limit and offset, and the optional filter fields (`None` when
      the field is not set on the query object). */
  datatype ListQuery = ListQuery(
    limit: int,
    offset: int,
    productId: Option<string>,
    status: Option<string>,
    rating: Option<QueryValue>,
    createdAtGte: Option<string>,
    createdAtLte: Option<string>,
    q: Option<string>)

  /** A select filter is applied when it is truthy and not "all". */
  predicate Selected(filter: string)
  {
    filter != "" && filter != AllValue
  }

  /** `parseInt(filter)` as a query value. */
  function RatingValue(filter: string): (v: QueryValue)
    ensures !v.Text?
    ensures v.NaN? <==> ParseInt(filter).None?
  {
    match ParseInt(filter)
    case None => NaN
    case Some(n) => Num(n)
  }

  /** A rating filter made of digits becomes the number it spells; an empty one `NaN`. */
  lemma RatingValueOfDigits(filter: string)
    requires AllDigits(filter)
    ensures filter != "" ==> RatingValue(filter) == Num(DigitsValue(filter))
    ensures filter == "" ==> RatingValue(filter) == NaN
  {
    ParseIntOfDigits(filter);
  }

  class ReviewsPageState {
    var productFilter: string
    var statusFilter: string
    var ratingFilter: string
    var dateFrom: Option<string>
    var dateTo: Option<string>
    var searchQuery: string
    var currentPage: int

    /** Every filter shows everything: "all", no dates and an empty search. */
    predicate FiltersCleared()
      reads this
    {
      && productFilter == AllValue && statusFilter == AllValue && ratingFilter == AllValue
      && dateFrom.None? && dateTo.None? && searchQuery == ""
    }

    /** The page opens with every filter cleared, on page 1. */
    constructor()
      ensures FiltersCleared() && currentPage == 1
    {
      productFilter := AllValue;
      statusFilter := AllValue;
      ratingFilter := AllValue;
      dateFrom := None;
      dateTo := None;
      searchQuery := "";
      currentPage := 1;
    }

    /** The query sent for the list: limit and offset of the current page, and one
        field per applied filter. */
    method BuildQuery() returns (query: ListQuery)
      ensures query.limit == PageSize && query.offset == (currentPage - 1) * PageSize
      ensures (query.productId.Some? <==> Selected(productFilter))
              && (query.productId.Some? ==> query.productId.value == productFilter)
      ensures (query.status.Some? <==> Selected(statusFilter))
              && (query.status.Some? ==> query.status.value == statusFilter)
      ensures (query.rating.Some? <==> Selected(ratingFilter))
              && (query.rating.Some? ==> query.rating.value == RatingValue(ratingFilter))
      ensures (query.createdAtGte.Some? <==> dateFrom.Some?)
              && (query.createdAtGte.Some? ==> query.createdAtGte.value == dateFrom.value)
      ensures (query.createdAtLte.Some? <==> dateTo.Some?)
              && (query.createdAtLte.Some? ==> query.createdAtLte.value == dateTo.value)
      ensures (query.q.Some? <==> searchQuery != "") && (query.q.Some? ==> query.q.value == searchQuery)
      ensures FiltersCleared() && currentPage == 1 ==>
                query == ListQuery(PageSize, 0, None, None, None, None, None, None)
    {
      query := ListQuery(PageSize, (currentPage - 1) * PageSize, None, None, None, None, None, None);
      if productFilter != "" && productFilter != AllValue {
        query := query.(productId := Some(productFilter));
      }
      assert query.productId == if Selected(productFilter) then Some(productFilter) else None;
      if statusFilter != "" && statusFilter != AllValue {
        query := query.(status := Some(statusFilter));
      }
      assert query.status == if Selected(statusFilter) then Some(statusFilter) else None;
      if ratingFilter != "" && ratingFilter != AllValue {
        query := query.(rating := Some(RatingValue(ratingFilter)));
      }
      assert query.rating == if Selected(ratingFilter) then Some(RatingValue(ratingFilter)) else None;
      if dateFrom.Some? {
        query := query.(createdAtGte := Some(dateFrom.value));
      }
      if dateTo.Some? {
        query := query.(createdAtLte := Some(dateTo.value));
      }
      if searchQuery != "" {
        query := query.(q := Some(searchQuery));
      }
    }

    /** A new product selection; a change of value sends the list back to page 1. */
    method SetProductFilter(value: string)
      modifies this`productFilter, this`currentPage
      ensures productFilter == value
      ensures currentPage == if value == old(productFilter) then old(currentPage) else 1
    {
      if value != productFilter {
        currentPage := 1;
      }
      productFilter := value;
    }

    /** A new status selection; a change of value sends the list back to page 1. */
    method SetStatusFilter(value: string)
      modifies this`statusFilter, this`currentPage
      ensures statusFilter == value
      ensures currentPage == if value == old(statusFilter) then old(currentPage) else 1
    {
      if value != statusFilter {
        currentPage := 1;
      }
      statusFilter := value;
    }

    /** A new rating selection; a change of value sends the list back to page 1. */
    method SetRatingFilter(value: string)
      modifies this`ratingFilter, this`currentPage
      ensures ratingFilter == value
      ensures currentPage == if value == old(ratingFilter) then old(currentPage) else 1
    {
      if value != ratingFilter {
        currentPage := 1;
      }
      ratingFilter := value;
    }

    /** A new start date (or none); a change sends the list back to page 1. */
    method SetDateFrom(value: Option<string>)
      modifies this`dateFrom, this`currentPage
      ensures dateFrom == value
      ensures currentPage == if value == old(dateFrom) then old(currentPage) else 1
    {
      if value != dateFrom {
        currentPage := 1;
      }
      dateFrom := value;
    }

    /** A new end date (or none); a change sends the list back to page 1. */
    method SetDateTo(value: Option<string>)
      modifies this`dateTo, this`currentPage
      ensures dateTo == value
      ensures currentPage == if value == old(dateTo) then old(currentPage) else 1
    {
      if value != dateTo {
        currentPage := 1;
      }
      dateTo := value;
    }

    /** A new search text; a change sends the list back to page 1. */
    method SetSearchQuery(value: string)
      modifies this`searchQuery, this`currentPage
      ensures searchQuery == value
      ensures currentPage == if value == old(searchQuery) then old(currentPage) else 1
    {
      if value != searchQuery {
        currentPage := 1;
      }
      searchQuery := value;
    }

    /** Clear Filters: every filter back to showing everything, and page 1. */
    method ClearFilters()
      modifies this
      ensures FiltersCleared() && currentPage == 1
    {
      productFilter := AllValue;
      statusFilter := AllValue;
      ratingFilter := AllValue;
      dateFrom := None;
      dateTo := None;
      searchQuery := "";
      currentPage := 1;
    }

    /** The table's page change; the filters stay as they are. */
    method ChangePage(page: int)
      modifies this`currentPage
      ensures currentPage == page
    {
      currentPage := page;
    }
  }
}
