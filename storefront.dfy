/**
 * The storefront page as the script sees it: the containers it fills, the
 * search input it reads, and the requests it sends. A container the page
 * does not have is Absent; the script then leaves it alone, and a list
 * renderer whose container is absent does not even send its request.
 *
 * The network is a parameter: each renderer receives what fetchData returned
 * for its endpoint, None when the request failed (fetchData's null). The
 * templates that turn an item into an HTML fragment are parameters too.
 */
module Storefront {
  import opened Wrappers
  import opened Text
  import opened Endpoint
  import opened Pagination
  import opened Render
  import opened Interaction

  datatype Category = Category(id: int, nameAr: string, icon: Option<string>, description: Option<string>,
                               productsCount: Option<int>)

  datatype Product = Product(id: int, name: string, description: Option<string>, mainImage: Option<string>,
                             price: string, originalPrice: Option<string>, currency: string,
                             storeName: string, stockQuantity: int, categoryName: string)

  /** The body of a /products response; `products` may be missing from it. */
  datatype ProductPage = ProductPage(products: Option<seq<Product>>, currentPage: int, pages: int)

  datatype Stats = Stats(totalStores: Option<int>, totalProducts: Option<int>, totalCategories: Option<int>)

  /** A DOM element looked up by id (or selector): Absent when the page does not have it. */
  datatype Slot<C> = Absent | Present(content: C)

  const CategoriesEndpoint := "/categories"
  const FeaturedEndpoint := "/products/featured"
  const StatsEndpoint := "/stats"

  const NoCategories := "<p class=\"no-data\">لا توجد فئات متاحة حالياً.</p>"
  const NoFeaturedProducts := "<p class=\"no-data\">لا توجد منتجات مميزة حالياً.</p>"
  const NoProducts := "<p class=\"no-data\">لا توجد منتجات متاحة حالياً.</p>"

  /** A product card template receives the product and its description excerpt. */
  function ProductFragment(card: (Product, string) -> string): Product -> string {
    (p: Product) => card(p, Excerpt(p.description))
  }

  /** `data && data.products`: the product list of a listing response, if any. */
  function ProductItems(data: Option<ProductPage>): Option<seq<Product>> {
    if data.Some? then data.value.products else None
  }

  /** `value || 0`: a truthy statistic is shown as it is, a missing or zero one as 0. */
  function StatValue(value: Option<int>): (shown: int)
    ensures shown != 0 <==> value.Some? && value.value != 0
    ensures shown != 0 ==> value == Some(shown)
  {
    if value.Some? && value.value != 0 then value.value else 0
  }

  /** A statistic element after an update: set when the page has it. */
  function ShowStat(element: Slot<int>, value: Option<int>): Slot<int> {
    if element.Present? then Present(StatValue(value)) else element
  }

  function InputValue(input: Slot<string>): Option<string> {
    if input.Present? then Some(input.content) else None
  }

  /** The pagination container after updatePagination(currentPage, totalPages). */
  function PaginationAfter(container: Slot<seq<Control>>, currentPage: int, totalPages: int): Slot<seq<Control>> {
    if container.Absent? || totalPages <= 1 then container
    else Present(PaginationBar(currentPage, totalPages).value)
  }

  /** The part of the page the product listing touches. */
  datatype ListingView = ListingView(grid: Slot<string>, pagination: Slot<seq<Control>>, requests: seq<string>)

  /** The listing part of the page after populateAllProducts(request). */
  function AfterListing(view: ListingView, request: ListingRequest, encode: string -> string,
                        fetch: string -> Option<ProductPage>, card: (Product, string) -> string): ListingView
  {
    if view.grid.Absent? then view
    else
      var endpoint := EndpointOf(request, encode);
      var data := fetch(endpoint);
      var items := ProductItems(data);
      ListingView(Present(RenderList(items, ProductFragment(card), NoProducts)),
                  if HasItems(items) then PaginationAfter(view.pagination, data.value.currentPage, data.value.pages)
                  else view.pagination,
                  view.requests + [endpoint])
  }

  class Document {
    var categoriesGrid: Slot<string>
    var featuredProductsGrid: Slot<string>
    var allProductsGrid: Slot<string>
    var pagination: Slot<seq<Control>>
    var searchInput: Slot<string>
    var totalStores: Slot<int>
    var totalProducts: Slot<int>
    var totalCategories: Slot<int>
    /** Every endpoint requested so far, in order. */
    var requests: seq<string>

    constructor (categoriesGrid: Slot<string>, featuredProductsGrid: Slot<string>, allProductsGrid: Slot<string>,
                 pagination: Slot<seq<Control>>, searchInput: Slot<string>,
                 totalStores: Slot<int>, totalProducts: Slot<int>, totalCategories: Slot<int>)
      ensures this.categoriesGrid == categoriesGrid && this.featuredProductsGrid == featuredProductsGrid
      ensures this.allProductsGrid == allProductsGrid && this.pagination == pagination
      ensures this.searchInput == searchInput
      ensures this.totalStores == totalStores && this.totalProducts == totalProducts
      ensures this.totalCategories == totalCategories
      ensures requests == []
    {
      this.categoriesGrid := categoriesGrid;
      this.featuredProductsGrid := featuredProductsGrid;
      this.allProductsGrid := allProductsGrid;
      this.pagination := pagination;
      this.searchInput := searchInput;
      this.totalStores := totalStores;
      this.totalProducts := totalProducts;
      this.totalCategories := totalCategories;
      requests := [];
    }

    function Listing(): ListingView
      reads this
    {
      ListingView(allProductsGrid, pagination, requests)
    }

    /** populateCategories, with `data` what fetchData('/categories') returned. */
    method PopulateCategories(data: Option<seq<Category>>, card: Category -> string)
      modifies this`categoriesGrid, this`requests
      ensures old(categoriesGrid).Absent? ==> categoriesGrid == old(categoriesGrid) && requests == old(requests)
      ensures old(categoriesGrid).Present? ==>
        requests == old(requests) + [CategoriesEndpoint]
        && categoriesGrid == Present(RenderList(data, card, NoCategories))
    {
      if categoriesGrid.Absent? {
        return;
      }
      requests := requests + [CategoriesEndpoint];
      if data.Some? && |data.value| > 0 {
        categoriesGrid := Present(Join(Fragments(data.value, card)));
      } else {
        categoriesGrid := Present(NoCategories);
      }
    }

    /** populateFeaturedProducts, with `data` what fetchData('/products/featured') returned. */
    method PopulateFeaturedProducts(data: Option<seq<Product>>, card: (Product, string) -> string)
      modifies this`featuredProductsGrid, this`requests
      ensures old(featuredProductsGrid).Absent? ==>
        featuredProductsGrid == old(featuredProductsGrid) && requests == old(requests)
      ensures old(featuredProductsGrid).Present? ==>
        requests == old(requests) + [FeaturedEndpoint]
        && featuredProductsGrid == Present(RenderList(data, ProductFragment(card), NoFeaturedProducts))
    {
      if featuredProductsGrid.Absent? {
        return;
      }
      requests := requests + [FeaturedEndpoint];
      if data.Some? && |data.value| > 0 {
        featuredProductsGrid := Present(Join(Fragments(data.value, ProductFragment(card))));
      } else {
        featuredProductsGrid := Present(NoFeaturedProducts);
      }
    }

    /**
     * populateAllProducts(page, categoryId, searchQuery): builds the endpoint
     * piece by piece, requests it through `fetch`, renders the products or the
     * placeholder, and refreshes the pagination only for a non-empty page.
     */
    method PopulateAllProducts(page: int, categoryId: Option<int>, searchQuery: Option<string>,
                               encode: string -> string, fetch: string -> Option<ProductPage>,
                               card: (Product, string) -> string)
      modifies this`allProductsGrid, this`pagination, this`requests
      ensures Listing() == AfterListing(old(Listing()), ListingRequest(page, categoryId, searchQuery), encode, fetch, card)
    {
      if allProductsGrid.Absent? {
        return;
      }
      var endpoint := ProductsPath + "?page=" + Decimal.IntToString(page) + "&per_page=" + PerPage;
      if CategoryGiven(categoryId) {
        endpoint := endpoint + ("&category_id=" + Decimal.IntToString(categoryId.value));
      }
      if SearchGiven(searchQuery) {
        endpoint := endpoint + ("&search=" + encode(searchQuery.value));
      }
      assert endpoint == EndpointOf(ListingRequest(page, categoryId, searchQuery), encode);
      requests := requests + [endpoint];
      var data := fetch(endpoint);
      if data.Some? && data.value.products.Some? && |data.value.products.value| > 0 {
        allProductsGrid := Present(Join(Fragments(data.value.products.value, ProductFragment(card))));
        UpdatePagination(data.value.currentPage, data.value.pages);
      } else {
        allProductsGrid := Present(NoProducts);
      }
    }

    /** populateStats, with `data` what fetchData('/stats') returned; it requests whatever the page holds. */
    method PopulateStats(data: Option<Stats>)
      modifies this`totalStores, this`totalProducts, this`totalCategories, this`requests
      ensures requests == old(requests) + [StatsEndpoint]
      ensures data.None? ==>
        totalStores == old(totalStores) && totalProducts == old(totalProducts)
        && totalCategories == old(totalCategories)
      ensures data.Some? ==>
        totalStores == ShowStat(old(totalStores), data.value.totalStores)
        && totalProducts == ShowStat(old(totalProducts), data.value.totalProducts)
        && totalCategories == ShowStat(old(totalCategories), data.value.totalCategories)
    {
      requests := requests + [StatsEndpoint];
      if data.Some? {
        if totalStores.Present? {
          totalStores := Present(StatValue(data.value.totalStores));
        }
        if totalProducts.Present? {
          totalProducts := Present(StatValue(data.value.totalProducts));
        }
        if totalCategories.Present? {
          totalCategories := Present(StatValue(data.value.totalCategories));
        }
      }
    }

    /** updatePagination: rewrites the container, or leaves it exactly as it was when there is at most one page. */
    method UpdatePagination(currentPage: int, totalPages: int)
      modifies this`pagination
      ensures totalPages <= 1 ==> pagination == old(pagination)
      ensures pagination == PaginationAfter(old(pagination), currentPage, totalPages)
    {
      if pagination.Absent? || totalPages <= 1 {
        return;
      }
      var bar := BuildPaginationBar(currentPage, totalPages);
      pagination := Present(bar.value);
    }

    /** performSearch: a listing request for the trimmed search text, or nothing when it is blank. */
    method PerformSearch(encode: string -> string, fetch: string -> Option<ProductPage>,
                         card: (Product, string) -> string)
      modifies this`allProductsGrid, this`pagination, this`requests
      ensures var request := Interaction.PerformSearch(InputValue(searchInput));
        Listing() == if request.Some? then AfterListing(old(Listing()), request.value, encode, fetch, card)
                     else old(Listing())
    {
      if searchInput.Present? {
        var query := Trim(searchInput.content);
        if query != "" {
          PopulateAllProducts(1, None, Some(query), encode, fetch, card);
        }
      }
    }

    /** filterByCategory(categoryId), the click handler of a category card. */
    method FilterByCategory(categoryId: int, encode: string -> string, fetch: string -> Option<ProductPage>,
                            card: (Product, string) -> string)
      modifies this`allProductsGrid, this`pagination, this`requests
      ensures Listing() == AfterListing(old(Listing()), Interaction.FilterByCategory(categoryId), encode, fetch, card)
    {
      PopulateAllProducts(1, Some(categoryId), None, encode, fetch, card);
    }

    /** A click on a pagination control: populateAllProducts with the control's page only. */
    method ClickControl(control: Control, encode: string -> string, fetch: string -> Option<ProductPage>,
                        card: (Product, string) -> string)
      modifies this`allProductsGrid, this`pagination, this`requests
      ensures Listing() == AfterListing(old(Listing()), ControlClick(control), encode, fetch, card)
    {
      PopulateAllProducts(control.target, None, None, encode, fetch, card);
    }
  }

  // ---------------------------------------------------------------------------
  // What a product listing does to the page

  /**
   * With the products container on the page, a listing sends exactly one
   * request, for the listing endpoint. A non-empty product page is shown one
   * card per product, in order; a failed request, a response without
   * products or an empty list shows the placeholder and leaves the
   * pagination as it was.
   */
  lemma ListingOutcome(view: ListingView, request: ListingRequest, encode: string -> string,
                       fetch: string -> Option<ProductPage>, card: (Product, string) -> string)
    requires view.grid.Present?
    ensures var after := AfterListing(view, request, encode, fetch, card);
      var endpoint := EndpointOf(request, encode);
      var items := ProductItems(fetch(endpoint));
      after.requests == view.requests + [endpoint]
      && after.grid.Present?
      && (!HasItems(items) ==> after.grid.content == NoProducts && after.pagination == view.pagination)
      && (HasItems(items) ==>
            var html, products := after.grid.content, items.value;
            |html| == TotalLength(Fragments(products, ProductFragment(card)))
            && forall k :: 0 <= k < |products| ==>
                 var start := TotalLength(Fragments(products[..k], ProductFragment(card)));
                 var fragment := card(products[k], Excerpt(products[k].description));
                 start + |fragment| <= |html| && html[start..start + |fragment|] == fragment)
  {
    var endpoint := EndpointOf(request, encode);
    var items := ProductItems(fetch(endpoint));
    if HasItems(items) {
      RenderedInItemOrder(items.value, ProductFragment(card), NoProducts);
    }
  }

  /** Without the products container nothing is requested and nothing changes. */
  lemma ListingWithoutContainer(view: ListingView, request: ListingRequest, encode: string -> string,
                                fetch: string -> Option<ProductPage>, card: (Product, string) -> string)
    requires view.grid.Absent?
    ensures AfterListing(view, request, encode, fetch, card) == view
  {
  }

  /**
   * The pagination changes only after a non-empty product page whose page
   * count exceeds one, and then shows the bar for that response's page.
   */
  lemma PaginationRefreshedOnlyByProducts(view: ListingView, request: ListingRequest, encode: string -> string,
                                          fetch: string -> Option<ProductPage>, card: (Product, string) -> string)
    requires AfterListing(view, request, encode, fetch, card).pagination != view.pagination
    ensures var data := fetch(EndpointOf(request, encode));
      view.grid.Present? && view.pagination.Present? && HasItems(ProductItems(data))
      && data.value.pages > 1
      && AfterListing(view, request, encode, fetch, card).pagination
         == Present(PaginationBar(data.value.currentPage, data.value.pages).value)
  {
  }
}
