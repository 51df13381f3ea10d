/**
 * Which product-listing request each user interaction asks for. A request is
 * the argument list of populateAllProducts: page, category id, search query.
 *
 * - performSearch: the search box text, trimmed; nothing when that is empty,
 *   otherwise page 1 with the query and no category.
 * - filterByCategory (a click on a category card): page 1 with the category
 *   and no query.
 * - a click on a pagination control: the control's page, with no category
 *   and no query, so any active filter is dropped.
 * - page load: page 1, no category, no query (the default arguments).
 */
module Interaction {
  import opened Wrappers
  import opened Text
  import opened Decimal
  import opened Endpoint
  import opened Pagination

  datatype ListingRequest = ListingRequest(page: int, categoryId: Option<int>, searchQuery: Option<string>)

  const InitialListing := ListingRequest(1, None, None)

  function EndpointOf(request: ListingRequest, encode: string -> string): string {
    ProductsEndpoint(request.page, request.categoryId, request.searchQuery, encode)
  }

  /** performSearch with the search input's value, or None when the page has no search input. */
  function PerformSearch(inputValue: Option<string>): Option<ListingRequest> {
    if inputValue.Some? && Trim(inputValue.value) != "" then
      Some(ListingRequest(1, None, Some(Trim(inputValue.value))))
    else None
  }

  function FilterByCategory(categoryId: int): ListingRequest {
    ListingRequest(1, Some(categoryId), None)
  }

  /** The request a click on a pagination control makes. */
  function ControlClick(control: Control): ListingRequest {
    ListingRequest(control.target, None, None)
  }

  /**
   * A search is made exactly when there is a search input whose text is not
   * all whitespace; it then asks for page 1 of the trimmed text, with no
   * category, and the server receives search = the encoded trimmed text.
   */
  lemma SearchRequest(inputValue: Option<string>, encode: string -> string)
    requires inputValue.Some? ==> '&' !in encode(Trim(inputValue.value))
    ensures PerformSearch(inputValue).Some? <==> inputValue.Some? && !Blank(inputValue.value)
    ensures PerformSearch(inputValue).Some? ==>
      var e := EndpointOf(PerformSearch(inputValue).value, encode);
      var q := Trim(inputValue.value);
      PerformSearch(inputValue).value.searchQuery == Some(q)
      && q != "" && !IsWhitespace(q[0]) && !IsWhitespace(q[|q| - 1])
      && Param(e, "search") == Some(encode(q))
      && Param(e, "category_id") == None
      && NumberParam(e, "page") == Some(1)
  {
    if inputValue.Some? {
      var q := Trim(inputValue.value);
      TrimEmptyIffBlank(inputValue.value);
      TrimKeepsCore(inputValue.value);
      if q != "" {
        ProductsEndpointReadsBack(1, None, Some(q), encode);
      }
    }
  }

  /** The query a search sends is unchanged by trimming it again. */
  lemma SearchQueryIsTrimmed(inputValue: Option<string>)
    requires PerformSearch(inputValue).Some?
    ensures var q := PerformSearch(inputValue).value.searchQuery.value; Trim(q) == q
  {
    TrimIdempotent(inputValue.value);
  }

  /**
   * A category click asks for page 1 with no search term; the server sees a
   * category_id, carrying that id, exactly when the id is not 0.
   */
  lemma CategoryRequest(categoryId: int, encode: string -> string)
    ensures var e := EndpointOf(FilterByCategory(categoryId), encode);
      Param(e, "search") == None
      && NumberParam(e, "page") == Some(1)
      && (Param(e, "category_id").Some? <==> categoryId != 0)
      && (categoryId != 0 ==> NumberParam(e, "category_id") == Some(categoryId))
  {
    ProductsEndpointReadsBack(1, Some(categoryId), None, encode);
  }

  /** Category id 0 is falsy, so clicking it requests the unfiltered first page, as on page load. */
  lemma CategoryZeroIsUnfiltered(encode: string -> string)
    ensures EndpointOf(FilterByCategory(0), encode) == EndpointOf(InitialListing, encode)
  {
  }

  /** Page load asks for page 1, 20 per page, with neither category_id nor search. */
  lemma InitialListingRequest(encode: string -> string)
    ensures var e := EndpointOf(InitialListing, encode);
      PathOf(e) == ProductsPath
      && NumberParam(e, "page") == Some(1)
      && Param(e, "per_page") == Some(PerPage)
      && Param(e, "category_id") == None
      && Param(e, "search") == None
      && Keys(QueryParams(e)) == ["page", "per_page"]
  {
    ProductsEndpointReadsBack(1, None, None, encode);
  }

  /**
   * Every pagination control asks for its own page and drops the category
   * and the search term, whatever filter produced the listing.
   */
  lemma PaginationDropsFilters(currentPage: int, totalPages: int, encode: string -> string)
    requires totalPages > 1
    ensures var bar := PaginationBar(currentPage, totalPages).value;
      forall k :: 0 <= k < |bar| ==>
        var e := EndpointOf(ControlClick(bar[k]), encode);
        Param(e, "category_id") == None
        && Param(e, "search") == None
        && NumberParam(e, "page") == Some(bar[k].target)
  {
    var bar := PaginationBar(currentPage, totalPages).value;
    forall k | 0 <= k < |bar|
      ensures var e := EndpointOf(ControlClick(bar[k]), encode);
        Param(e, "category_id") == None
        && Param(e, "search") == None
        && NumberParam(e, "page") == Some(bar[k].target)
    {
      ProductsEndpointReadsBack(bar[k].target, None, None, encode);
    }
  }
}
