# YemenGo storefront script — a Dafny model of its deterministic core

The storefront script fetches categories, featured products, a paged product
listing and statistics from a REST backend and paints them into the page.
Around the network calls and DOM writes sits a small deterministic core, and
that core is what this project models and proves things about:

- **Pagination bar** (`updatePagination`): a "previous" control, a window of
  page buttons around the current page with that page's button active, and
  a "next" control. With at most one page it writes nothing.
- **Listing request** (`populateAllProducts`): the `/products?page=…&per_page=20`
  endpoint, then `&category_id=…` if the category id is truthy, then
  `&search=…` if the query is truthy.
- **Interactions**: a search asks for page 1 of the trimmed query with no
  category. A category click asks for page 1 of that category with no query.
  A pagination click asks for its page alone, so it drops every filter.
- **Render or placeholder**: each list section shows one fragment per item,
  in order, or its fixed placeholder text when the result is null or empty.
  The pagination is refreshed only after a non-empty product page.
- **Description excerpt**: the first 100 characters of a product description
  followed by `...`, or nothing when there is no description.

Modules, one per component:

| file | module | what it holds |
|---|---|---|
| wrappers.dfy | `Wrappers` | `Option`, for values the script may find null |
| decimal.dfy | `Decimal` | integer to decimal text (`${page}`), and reading it back |
| text.dfy | `Text` | `String.prototype.trim` and the description excerpt |
| endpoint.dfy | `Endpoint` | the listing endpoint and a query-string reader for it |
| pagination.dfy | `Pagination` | the controls of the bar, the spec function and the loop that builds it |
| render.dfy | `Render` | `map(...).join('')` and the render-or-placeholder decision |
| interaction.dfy | `Interaction` | which listing request each user action makes |
| storefront.dfy | `Storefront` | the page (a `Document` class) and the renderers that update it |

The page is a class whose fields are the containers the script writes.
A container the page lacks is `Absent`. The class also keeps the list of
endpoints requested so far. The network is a parameter: a renderer receives
what `fetchData` returned, and `None` stands for its `null`.
`encodeURIComponent` and the HTML templates are parameters too.

Three facts about the code that the model keeps:
- `updatePagination` returns before touching the container when there is at
  most one page (script.js:265), so `UpdatePagination` leaves it exactly as
  it was.
- `populateStats` requests `/stats` (script.js:206).
- `populateStats` sends its request even when none of its elements exist,
  and only skips the missing ones (script.js:200-214).

## Model

| member | source | states |
|---|---|---|
| Pagination.PaginationBar | script.js:263-287 | there is no bar, so nothing is written, exactly when the page count is at most one |
| Pagination.BuildPaginationBar | script.js:267-285 | the loop that appends previous, page buttons and next produces exactly the bar `PaginationBar` describes |
| Pagination.BarLayout | script.js:269-283 | the bar is the optional previous control, then the window's page buttons in ascending order, then the optional next control; its length is the sum of these |
| Pagination.PreviousIffNotFirstPage | script.js:270-272 | a previous control exists iff the current page is above 1; it targets current - 1 and only position 0 holds one |
| Pagination.NextIffNotLastPage | script.js:281-283 | a next control exists iff the current page is below the page count; it targets current + 1 and only the last position holds one |
| Pagination.PageNumbersAreWindow | script.js:275 | the page buttons lead to exactly max(1, P-2)..min(T, P+2), strictly ascending, at most five, each within 1..T, and none when the range is inverted |
| Pagination.ActiveIsCurrentPage | script.js:276-277 | a control is active iff it is the page button equal to the current page; when 1 <= P <= T exactly one control is active |
| Pagination.TargetsAreValidPages | script.js:269-283 | when 1 <= P <= T every control, previous and next included, leads to a page in 1..T |
| Pagination.PageButtonsAt | script.js:275-278 | the k-th button of the window lo..hi is the button for page lo + k, and there are max(0, hi - lo + 1) of them |
| Endpoint.CategoryFilter | script.js:156-158 | the `&category_id=<id>` suffix, present only for a truthy id; no contract of its own, `Endpoint.ProductsEndpointReadsBack` states that the server reads the id back exactly when it is neither null nor 0 |
| Endpoint.SearchFilter | script.js:160-162 | the `&search=<encoded query>` suffix, present only for a truthy query; no contract of its own, `Endpoint.ProductsEndpointReadsBack` states that the server reads the encoded query back exactly when it is a non-empty string |
| Endpoint.ProductsEndpoint | script.js:154-162 | every listing endpoint starts with `/products?page=<page>&per_page=20` |
| Endpoint.ProductsEndpointParses | script.js:154-162 | read back, the endpoint has path `/products` and exactly the parameters page, per_page, then category_id if the category is truthy, then search if the query is truthy |
| Endpoint.ProductsEndpointReadsBack | script.js:154-162 | the server reads the requested page, 20 per page, a category_id with that id iff the id is neither null nor 0, a search holding the encoded query iff the query is a non-empty string, category before search |
| Endpoint.QueryRoundTrip | script.js:154-162 | parameters written as `k=v&k=v…` read back as the same list, in order, when no key or value holds `&` and no key holds `=` |
| Decimal.IntToStringRoundTrip | script.js:154 | the decimal text interpolated for a page or id reads back as that number, so distinct pages give distinct endpoints |
| Decimal.IntToString | script.js:157 | an interpolated number is a non-empty run of digits with an optional leading minus, which cannot be confused with a parameter separator |
| Text.Trim | script.js:234 | `String.prototype.trim`; no contract of its own, its meaning is stated by `Text.TrimKeepsCore`, `Text.TrimEmptyIffBlank` and `Text.TrimIdempotent` |
| Text.TrimKeepsCore | script.js:234 | `trim` drops only whitespace, at both ends, and keeps text that neither starts nor ends with whitespace |
| Text.TrimEmptyIffBlank | script.js:234-235 | the trimmed query is empty exactly when the input is all whitespace |
| Text.TrimIdempotent | script.js:234 | trimming the trimmed query changes nothing |
| Text.Excerpt | script.js:126 | a missing or empty description gives empty text; otherwise the first min(length, 100) characters of it, followed by `...` |
| Text.ExcerptOfShortDescription | script.js:174 | a description of at most 100 characters is shown whole, still followed by `...` |
| Text.ExcerptDependsOnPrefixOnly | script.js:174 | descriptions of at least 100 characters that agree on their first 100 characters show the same excerpt |
| Render.RenderList | script.js:92-106 | the render-or-placeholder branch of every list renderer (also script.js:118-144 and 166-195); no contract of its own, `Render.RenderedInItemOrder` and `Render.EmptyRendersPlaceholder` state what it shows |
| Render.Join | script.js:102 | `join('')`; no contract of its own, `Render.JoinPrefix` and `Render.FragmentAt` state that each fragment appears whole, in order, with nothing between |
| Render.Fragments | script.js:93-102 | `data.map(template)`: one fragment per item, as many as there are items |
| Render.JoinPrefix | script.js:102 | joining a prefix of the fragments gives a prefix of the joined text, and the joined text is exactly as long as the fragments together |
| Render.RenderedInItemOrder | script.js:92-102 | a non-empty list renders as exactly the fragments of its items: the text is as long as they are together, and item k's fragment sits right after those of items 0..k-1 |
| Render.EmptyRendersPlaceholder | script.js:104-105 | a null or empty list renders as the placeholder and nothing else |
| Render.FragmentAt | script.js:118-140 | in `join('')` output, each fragment appears whole right after the fragments before it |
| Interaction.PerformSearch | script.js:231-240 | the request `performSearch` makes, if any; no contract of its own, `Interaction.SearchRequest` and `Interaction.SearchQueryIsTrimmed` state it |
| Interaction.FilterByCategory | script.js:243-246 | the request a category click makes; no contract of its own, `Interaction.CategoryRequest` states what the server receives |
| Interaction.ControlClick | script.js:271-282 | the request a pagination button's `onclick` makes; no contract of its own, `Interaction.PaginationDropsFilters` states what the server receives |
| Interaction.InitialListingRequest | script.js:149 | the page-load call `populateAllProducts()` (script.js:325) with its default arguments asks for page 1, 20 per page, with neither category_id nor search |
| Interaction.SearchRequest | script.js:231-240 | a search is made iff there is a search input whose text is not all whitespace; it then asks for page 1 with no category_id and with search set to the encoded trimmed text |
| Interaction.SearchQueryIsTrimmed | script.js:234-237 | the query a search sends has no leading or trailing whitespace left to trim |
| Interaction.CategoryRequest | script.js:243-246 | a category click asks for page 1 with no search, and category_id carries the id iff the id is not 0 |
| Interaction.CategoryZeroIsUnfiltered | script.js:156 | clicking category 0 sends the same request as the unfiltered first page |
| Interaction.PaginationDropsFilters | script.js:269-283 | every pagination control asks for its own page with neither category_id nor search, whatever filter was active |
| Storefront.StatValue | script.js:209-211 | `value`, or 0 when it is falsy: a non-zero statistic is shown as it is, and a missing or zero one as 0 |
| Storefront.ShowStat | script.js:209-211 | a statistic element is written only when the page has it; no contract of its own, `Storefront.Document.PopulateStats` states the new state |
| Storefront.PaginationAfter | script.js:263-287 | the pagination container after `updatePagination`; no contract of its own, `Storefront.Document.UpdatePagination` and `Storefront.PaginationRefreshedOnlyByProducts` state it |
| Storefront.AfterListing | script.js:149-197 | the listing part of the page after `populateAllProducts`; no contract of its own, `Storefront.ListingOutcome`, `Storefront.ListingWithoutContainer` and `Storefront.PaginationRefreshedOnlyByProducts` state it |
| Storefront.Document.PopulateCategories | script.js:85-108 | with no container: no request, no change; otherwise one `/categories` request and the container shows the rendered list or the placeholder |
| Storefront.Document.PopulateFeaturedProducts | script.js:111-146 | the same for `/products/featured`, with each card given its description excerpt |
| Storefront.Document.PopulateAllProducts | script.js:149-197 | builds the endpoint with conditional appends, requests it once, renders products or the placeholder, and updates the pagination only for a non-empty product page |
| Storefront.Document.PopulateStats | script.js:200-214 | always requests `/stats`; on success each present element shows its value or 0, and on failure nothing changes |
| Storefront.Document.UpdatePagination | script.js:263-287 | with at most one page, or no container, the container is left exactly as it was; otherwise it shows the bar |
| Storefront.Document.PerformSearch | script.js:231-240 | a blank or missing search input changes nothing and sends nothing; otherwise the listing is repopulated for the search request |
| Storefront.Document.FilterByCategory | script.js:243-246 | the listing is repopulated for page 1 of the category |
| Storefront.Document.ClickControl | script.js:269-283 | the listing is repopulated for the control's page alone |
| Storefront.ListingOutcome | script.js:164-196 | with the container present, exactly one request; a non-empty page shows one card per product in order, and any other outcome shows the placeholder and leaves the pagination as it was |
| Storefront.ListingWithoutContainer | script.js:150-151 | without the products container nothing is requested and nothing changes |
| Storefront.PaginationRefreshedOnlyByProducts | script.js:166-191 | the pagination changes only after a non-empty product page with more than one page, and then shows that response's bar |

## Left out

- Network I/O (`fetchData`, `postData`, HTTP status checks, JSON parsing) is a parameter. A renderer receives the parsed response, and `None` stands for the `null` that any failure produces.
- The loading overlay, `alert`, `showError` and `console.log` are left out. They are user-interface side effects with no effect on the data shown.
- `testConnection` and the `DOMContentLoaded` bootstrap are left out. They probe the network and fire the renderers concurrently. The bootstrap's default listing call is `Interaction.InitialListing`.
- Each renderer is modelled as one atomic step. The model does not capture interleaving between renderers whose requests run at the same time.
- `setupSearch`'s event wiring and the selector lookups are left out. Their result, whether the page has the search input and the containers, is the `Slot` fields of `Document`.
- HTML markup, placeholder image URLs and `onerror` fallbacks are the template parameters. The placeholder texts and endpoints are kept exactly.
- `viewProduct` and `addToCart` are left out. They only raise alerts.
- `Endpoint.ProductsEndpointReadsBack`: `encodeURIComponent` is a parameter. The read-back lemmas assume only that its output holds no `&`, which the real function guarantees.
- `Decimal.IntToString`: pages, ids and page counts are modelled as integers. JavaScript prints non-integers with a fraction and very large numbers in exponent form; neither is modelled.
- `Text.Excerpt`: it counts characters, while `substring` counts UTF-16 code units. The two differ for characters outside the Basic Multilingual Plane, such as emoji.
- A response whose `current_page` or `pages` is missing or not a number is not modelled.
- `formatTimeRemaining` and the auction and featured-stats sections are not part of this model. They belong to the other script variant, not to this file.
