# Storefront catalogue and cart — a Dafny model

This project models the storefront core of a Next.js shop built on the
Shopify Storefront API, and proves properties of it:

- **Catalogue filtering.** `filterProducts` applies a shopper's facet choices
  to a product list: price range, brands (vendors), product types, tags and
  stock. `extractFilterOptions` builds the facet values the panel offers.
- **Catalogue sorting.** `sortProducts` puts the list in one of the seven
  `SORT_OPTIONS` orders. The model proves the result is sorted, is a
  permutation of the input, and keeps tied products in their input order.
- **The URL as the source of truth.** `parseSearchParams` decodes the query
  string into a sort and filter state. The filter panel's `updateFilters` and
  `clearAllFilters`, and the sort dropdown's `handleSortChange`, encode changes
  back into it. Round-trip lemmas relate the two directions.
- **Variant availability.** `isOptionAvailable` decides which option values
  the product page enables, and the selector decides which buttons it renders.
- **The cart.** The `/api/cart` route checks each request and dispatches it to
  a Shopify cart operation. The client-side `CartProvider` holds the cart
  snapshot and the cart id kept in `localStorage`.

Modules:

| file | module | what it holds |
|---|---|---|
| `types.dfy` | `Wrappers`, `Types` | `Option`, `Result`, and the product, variant and cart records |
| `js_text.dfy` | `JsText` | the JavaScript string and number operations the code relies on (`split`, `filter(Boolean)`, `join`, `parseFloat`, `toString`, string comparison) |
| `sorting.dfy` | `Sorting` | a stable insertion sort (as a function, and in place on an array) and `sortProducts` |
| `filtering.dfy` | `Filtering` | `filterProducts` and `extractFilterOptions` |
| `url_utils.dfy` | `UrlUtils` | `parseSearchParams` |
| `filter_panel.dfy` | `FilterPanel` | `updateFilters`, `clearAllFilters`, `hasActiveFilters` and the checkbox and price handlers |
| `sort_select.dfy` | `SortSelect` | `handleSortChange` and the displayed label |
| `variant_selector.dfy` | `VariantSelector` | `isOptionAvailable` and the rendered buttons |
| `cart_route.dfy` | `CartRoute` | the `GET` and `POST` handlers of `/api/cart` |
| `cart_context.dfy` | `CartContext` | the `CartProvider` state and its transitions |

How the model represents the source:

- **Query parameters** are a `map<string, string>` from key to value. A key
  that is absent or maps to `""` is "not given", matching the source's
  truthiness tests.
- **Prices and creation times** are integers. `parseFloat` results are a
  `Number`, either a finite integer or `NaN`.
- **The product list** (from `filterProducts`'s `.filter`) is a sequence.
- **The cart state** that React keeps in `useState` is the fields of the
  class `CartContext.CartProvider`. Its methods change those fields through
  field-granular `modifies` clauses.
- **Shopify and `fetch`.** Whatever Shopify or `fetch` returns is a parameter
  of the transition that receives it.
- **Sorting.** JavaScript's `Array.prototype.sort` is stable. It is modelled
  as a stable insertion sort under the same comparator. `sortProducts` copies
  the list into an array and sorts it in place. Its result is proved equal to
  the functional sort, which is proved sorted, a permutation of its input,
  and stable.

## Model

| member | source | states |
|---|---|---|
| JsText.CompareStrings | lib/shopify/sorting.ts:35 | the comparison used for titles and facet values returns -1, 0 or 1 |
| JsText.CompareStringsAntisymmetric | lib/shopify/sorting.ts:35-38 | swapping the operands negates the comparison, so `title-desc` is `title-asc` reversed |
| JsText.CompareStringsZero | lib/shopify/sorting.ts:35 | two titles compare equal exactly when they are the same string |
| JsText.CompareStringsTransitive | lib/shopify/sorting.ts:35 | the title comparison is transitive |
| JsText.Split | lib/url-utils.ts:24 | `split(',')` yields at least one piece, and no piece contains a comma |
| JsText.Compact | lib/url-utils.ts:24 | `filter(Boolean)` keeps exactly the non-empty pieces, each as often as it occurs |
| JsText.CompactAppend | lib/url-utils.ts:24 | `filter(Boolean)` keeps the pieces in order: compacting a concatenation compacts each part in turn |
| JsText.SplitList | lib/url-utils.ts:24 | a decoded list holds only non-empty, comma-free values |
| JsText.JoinSplit | lib/url-utils.ts:24 | joining the pieces of `split(',')` with commas gives the text back, so they are its comma-free segments in order |
| JsText.SplitListOfSegments | lib/url-utils.ts:24 | a decoded list is the text's non-empty comma-separated segments, in order, each as often as it occurs |
| JsText.SplitListExample | lib/url-utils.ts:24 | `"b,,a"` decodes to `["b", "a"]` |
| JsText.SplitJoin | components/filter-panel.tsx:41 | splitting a comma-joined list of comma-free values gives the list back |
| JsText.Join | components/filter-panel.tsx:41 | `join(',')`; `SplitJoin` and `JoinSplit` prove it and `split(',')` inverse to each other on comma-free values |
| JsText.ListRoundTrip | lib/url-utils.ts:24 | decoding a joined list of non-empty comma-free values returns that list |
| JsText.ParseFloat | lib/shopify/filtering.ts:49 | `parseFloat` gives NaN exactly when no digit follows the optional sign |
| JsText.NumberToString | components/filter-panel.tsx:27 | a written price bound is non-empty and contains no comma |
| JsText.NumberRoundTrip | components/filter-panel.tsx:27 | `parseFloat` of a bound's `toString()` returns that bound |
| Sorting.Insert | lib/shopify/sorting.ts:25-48 | one insertion step of the sort; `InsertPermutes`, `InsertSorted`, `InsertKeepsTies` and `InsertSplit` state what it does |
| Sorting.StableSort | lib/shopify/sorting.ts:21-48 | the stable sort; `StableSortPermutes`, `StableSortSorted` and `StableSortKeepsTies` state that it is a sorted, stable permutation |
| Sorting.InsertPermutes | lib/shopify/sorting.ts:21 | one insertion adds exactly the inserted element to the multiset of the list |
| Sorting.StableSortPermutes | lib/shopify/sorting.ts:21 | sorting a copy neither loses nor duplicates a product |
| Sorting.InsertSorted | lib/shopify/sorting.ts:25-48 | inserting into a list sorted under a total preorder keeps it sorted |
| Sorting.StableSortSorted | lib/shopify/sorting.ts:25-48 | under a total preorder the sorted list is in comparator order |
| Sorting.InsertKeepsTies | lib/shopify/sorting.ts:25-48 | an insertion places the new element after every earlier element that ties with the same value |
| Sorting.NotBothTie | lib/shopify/sorting.ts:25-48 | an element that compares above another cannot tie with the same value as it |
| Sorting.StableSortKeepsTies | lib/shopify/sorting.ts:25-48 | elements that tie with any given one keep their input order (stability) |
| Sorting.InsertSplit | lib/shopify/sorting.ts:25-48 | insertion puts the element just after the last earlier element that does not compare above it |
| Sorting.InsertAt | lib/shopify/sorting.ts:25-48 | one insertion step in place: finds the gap `k` where everything after compares above the element and the one before does not, shifts the rest up one, and leaves the array past the step untouched |
| Sorting.SortStep | lib/shopify/sorting.ts:25-48 | filling that gap in the sorted prefix gives the stable sort of one more input element |
| Sorting.SortInPlace | lib/shopify/sorting.ts:25-48 | the in-place array sort leaves exactly the stable sort of the old contents |
| Sorting.SortOptionsListEachOnce | lib/shopify/sorting.ts:3-18 | `SORT_OPTIONS` starts with `featured` and lists each sort option exactly once |
| Sorting.OrderOf | lib/shopify/sorting.ts:23-54 | the value leaves the list unsorted exactly when it is `featured` or not a sort option (the default branch); which order each of the six strings selects is stated through `PriceOptionsMeaning`, `TitleOptionsMeaning` and `CreatedOptionsMeaning` |
| Sorting.Compare | lib/shopify/sorting.ts:24-48 | the six comparators (price, title by `localeCompare`, creation time, each way); `ComparatorIsTotalPreorder` and `SortedByOrder` state their meaning |
| Sorting.ComparatorIsTotalPreorder | lib/shopify/sorting.ts:24-48 | each of the six comparators is total and transitive |
| Sorting.SortProducts | lib/shopify/sorting.ts:20-55 | `featured` and unknown values return the list as given; every other order returns the stable sort of a copy by its comparator, which is `SortedProducts`, whose meaning per sort string `PriceOptionsMeaning`, `TitleOptionsMeaning`, `CreatedOptionsMeaning` and `SortOptionKeepsProducts` state |
| Sorting.SortedProducts | lib/shopify/sorting.ts:20-55 | the list `sortProducts` returns, as a function of the products and the sort string |
| Sorting.PriceOptionsMeaning | lib/shopify/sorting.ts:24-32 | `price-asc` returns the products cheapest first, and `price-desc` dearest first |
| Sorting.TitleOptionsMeaning | lib/shopify/sorting.ts:34-38 | `title-asc` returns the titles in ascending order, and `title-desc` in descending order |
| Sorting.CreatedOptionsMeaning | lib/shopify/sorting.ts:40-48 | `created-desc` returns the newest product first, and `created-asc` the oldest first |
| Sorting.SortOptionKeepsProducts | lib/shopify/sorting.ts:20-54 | every sort string returns the same products, each as often as given; `featured` and unknown strings return them in the order given |
| Sorting.OptionSorted | lib/shopify/sorting.ts:23-48 | a sort string whose `case` selects an order returns the list in that order |
| Sorting.SortedByOrder | lib/shopify/sorting.ts:24-48 | the result is a permutation, ordered by price, title or creation time, ascending or descending as named |
| Sorting.SortKeepsTiedInputOrder | lib/shopify/sorting.ts:24-48 | products equal under the chosen order stay in catalogue order |
| Filtering.Keep | lib/shopify/filtering.ts:66-93 | the `.filter` callback; `FilterKeepsExactlyPassing` states when it keeps a product |
| Filtering.FilterProducts | lib/shopify/filtering.ts:65-96 | the filtered list is never longer than the input |
| Filtering.FilterIsSubsequence | lib/shopify/filtering.ts:66 | the filtered list is a subsequence of the input, so catalogue order is kept |
| Filtering.FilterKeepsExactlyPassing | lib/shopify/filtering.ts:65-96 | a product is kept iff: a truthy min or max bound it violates is absent; its vendor or type is non-empty and listed when that list is non-empty; it shares a tag with a non-empty tag list; and its stock matches a given `inStock` |
| Filtering.NoFiltersKeepsAll | lib/shopify/filtering.ts:65-96 | with no options set every product is kept |
| Filtering.FacetsCombineByAnd | lib/shopify/filtering.ts:67-93 | filtering by all facets equals filtering by each facet alone in turn |
| Filtering.FilterIdempotent | lib/shopify/filtering.ts:65-96 | filtering an already-filtered list again changes nothing |
| Filtering.SetAdd | lib/shopify/filtering.ts:35-45 | adding to a set of values keeps it duplicate-free and adds exactly the new value |
| Filtering.StringOrderIsTotalPreorder | lib/shopify/filtering.ts:55-57 | the default `sort()` order on strings is total and transitive |
| Filtering.SortedSetStrictlyAscending | lib/shopify/filtering.ts:55-57 | sorting distinct values gives a strictly ascending list |
| Filtering.SortSetValues | lib/shopify/filtering.ts:55-57 | `Array.from(set).sort()` is strictly ascending with the same members |
| Filtering.AddTags | lib/shopify/filtering.ts:44-46 | adding a product's tags to the tag set keeps it duplicate-free and holds exactly the old tags and the product's |
| Filtering.AddFacets | lib/shopify/filtering.ts:34-46 | one product's visit adds its vendor and type when non-empty and all its tags; each set stays duplicate-free |
| Filtering.ExtractFilterOptions | lib/shopify/filtering.ts:20-63 | vendors and types are the non-empty values present and tags are all tags present, each strictly ascending; min is the least price (0 for no products); max is the greatest price, and at least 0 |
| UrlUtils.ListParam | lib/url-utils.ts:21-37 | a list is decoded exactly when its parameter is non-empty |
| UrlUtils.PriceParam | lib/url-utils.ts:16-17 | a bound is decoded exactly when its parameter is non-empty |
| UrlUtils.SortParam | lib/url-utils.ts:7 | the sort is the given `sort` text, and `featured` exactly when none is given or that is the text |
| UrlUtils.PriceRangeParam | lib/url-utils.ts:11-19 | a price range exists iff min or max is given; it then has at least one bound, each parsed from its own key when given |
| UrlUtils.StockParam | lib/url-utils.ts:39-43 | the stock flag exists iff `in_stock` is given, and is true exactly for the text `true` |
| UrlUtils.ParsePriceRange | lib/url-utils.ts:11-19 | the price step yields the range described by `PriceRangeParam` |
| UrlUtils.ParseList | lib/url-utils.ts:21-37 | each list step yields the list described by `ListParam` |
| UrlUtils.ParseStock | lib/url-utils.ts:39-43 | the stock step yields the flag described by `StockParam` |
| UrlUtils.Decode | lib/url-utils.ts:3-46 | the decoded search state, one parameter per field as `SortParam`, `PriceRangeParam`, `ListParam` and `StockParam` state |
| UrlUtils.ParseSearchParams | lib/url-utils.ts:3-46 | the whole parse never fails and yields the sort, price range, three lists and stock flag, each decoded from its own key |
| FilterPanel.UpdatedParams | components/filter-panel.tsx:21-74 | the parameters `updateFilters` navigates to; `UpdateFiltersMeaning` states each key's new value |
| FilterPanel.UpdateTouchesOnly | components/filter-panel.tsx:21-74 | an update changes no key outside the parts it carries, except `in_stock` |
| FilterPanel.UpdateFiltersMeaning | components/filter-panel.tsx:21-74 | keys the panel does not own are kept; with a price range, truthy bounds are written and the others deleted, and without one both are untouched; an absent list leaves its key, an empty one deletes it, others are joined with commas; `in_stock` is written iff the update carries it, and deleted otherwise |
| FilterPanel.FacetParamsMeaning | components/filter-panel.tsx:24-63 | the price and list stages write their own keys as described and keep every other key, `in_stock` included |
| FilterPanel.ComposeFacets | components/filter-panel.tsx:24-63 | the list stages after the price stage keep what the price stage wrote |
| FilterPanel.ComposeStock | components/filter-panel.tsx:24-70 | the stock stage after the facet stages keeps what they wrote |
| FilterPanel.ListsMeaning | components/filter-panel.tsx:38-63 | the vendors, types and tags stages each write their own key and keep the others |
| FilterPanel.SetOrDeleteFrame | components/filter-panel.tsx:25-69 | `set` stores the value and `delete` removes the key; no other key changes |
| FilterPanel.ListUpdateMeaning | components/filter-panel.tsx:38-63 | one list stage leaves its key for an absent list, deletes it for an empty one, writes the joined list otherwise, and changes no other key |
| FilterPanel.PriceUpdateMeaning | components/filter-panel.tsx:24-36 | the price stage writes or deletes both bounds when a range is given, does nothing otherwise, and touches no other key |
| FilterPanel.UpdateFilters | components/filter-panel.tsx:21-74 | the stepwise update yields exactly the parameters described by `UpdateFiltersMeaning` |
| FilterPanel.UpdatePriceParams | components/filter-panel.tsx:24-36 | the price step yields the parameters described by `PriceUpdateMeaning` |
| FilterPanel.UpdateListParam | components/filter-panel.tsx:38-63 | each list step yields the parameters described by `ListUpdateMeaning` |
| FilterPanel.ClearAllFilters | components/filter-panel.tsx:76-87 | exactly the six filter keys are removed; every other parameter is kept unchanged |
| FilterPanel.HasActiveFilters | components/filter-panel.tsx:89-95 | `hasActiveFilters`; `ActiveFiltersOfParams` states it in terms of the query parameters |
| FilterPanel.ActiveFiltersOfParams | components/filter-panel.tsx:89-95 | filters are active iff a price or stock parameter is given or a list parameter holds a non-empty value; after clearing, none are active and the sort is kept |
| FilterPanel.Without | components/filter-panel.tsx:278 | unticking removes every copy of the value and keeps the other values, with their multiplicities and order |
| FilterPanel.Toggle | components/filter-panel.tsx:274-279 | ticking appends the value to the current list; unticking removes it and keeps the rest in order |
| FilterPanel.VendorToggle | components/filter-panel.tsx:274-279 | the brand checkbox's update; `CheckboxUpdates` states its effect on the parameters |
| FilterPanel.TypeToggle | components/filter-panel.tsx:315-320 | the category checkbox's update; `CheckboxUpdates` states its effect on the parameters |
| FilterPanel.TagToggle | components/filter-panel.tsx:356-361 | the tag checkbox's update; `CheckboxUpdates` states its effect on the parameters |
| FilterPanel.CheckboxUpdates | components/filter-panel.tsx:274-279 | a brand, category or tag checkbox (also lines 315-320 and 356-361) rewrites only its own list, with the toggled value, and `in_stock`; every other key is kept |
| FilterPanel.MinPriceChange | components/filter-panel.tsx:185-193 | the minimum price input's update; `PriceInputUpdates` states its effect |
| FilterPanel.MaxPriceChange | components/filter-panel.tsx:203-211 | the maximum price input's update; `PriceInputUpdates` states its effect |
| FilterPanel.PriceInputUpdates | components/filter-panel.tsx:185-211 | a price input writes the edited bound beside the current other one, each when truthy, and rewrites `in_stock`; every other key is kept |
| FilterPanel.StockToggle | components/filter-panel.tsx:240-242 | the stock checkbox's update; `StockRoundTrip` and `CorrectedUpdateKeepsStockFilter` state that it sets or clears the stock filter |
| FilterPanel.BoundRoundTrip | components/filter-panel.tsx:25-35 | a bound written by the panel decodes back to itself |
| FilterPanel.ListParamRoundTrip | components/filter-panel.tsx:39-63 | a non-empty comma-free list written by the panel decodes back to itself |
| FilterPanel.FilterRoundTrip | components/filter-panel.tsx:21-74 | writing canonical filter options over cleared parameters decodes to the same options and keeps the sort |
| FilterPanel.DecodeWritten | components/filter-panel.tsx:21-74 | parameters in which the panel wrote canonical filters over no filter keys decode to exactly those filters |
| FilterPanel.StockRoundTrip | components/filter-panel.tsx:65-70 | after any update, the decoded stock filter is the update's |
| FilterPanel.ToggleDropsStockFilter | components/filter-panel.tsx:66-70 | as written, ticking a brand or editing a price deletes `in_stock`, so the stock filter decodes to none |
| FilterPanel.ToggleDropsStockFilterExample | components/filter-panel.tsx:274-279 | from `?in_stock=true`, ticking the brand "Acme" loses the stock filter |
| FilterPanel.UpdatedParamsKeepingStock | components/filter-panel.tsx:66-70 | corrected update: an update that concerns stock is the written update; any other leaves `in_stock` as it was; every other key is as the written update makes it |
| FilterPanel.CorrectedUpdateKeepsStockFilter | components/filter-panel.tsx:185-242 | with the corrected update, brand and price edits keep the stock filter, and the stock box sets or clears it |
| SortSelect.SortParams | components/sort-select.tsx:15-26 | the parameters `handleSortChange` navigates to; `SortChangeRoundTrip` states their meaning |
| SortSelect.HandleSortChange | components/sort-select.tsx:15-26 | the new parameters are the old ones with `sort` deleted for `featured` and set otherwise |
| SortSelect.SortChangeRoundTrip | components/sort-select.tsx:15-22 | the new URL decodes to the chosen sort (`featured` when the choice is empty); other keys and the filters are kept |
| SortSelect.FiltersIgnoreSort | lib/url-utils.ts:11-43 | the decoded filters read no `sort` key, so queries that differ only there decode to the same filters |
| SortSelect.FindLabel | components/sort-select.tsx:28 | `find` returns the label of the first entry with the value, and nothing iff there is none |
| SortSelect.CurrentSortLabel | components/sort-select.tsx:28 | the label shown; `CurrentSortLabelMatches` states which one |
| SortSelect.CurrentSortLabelMatches | components/sort-select.tsx:11-28 | the label shown is the matching entry's, and "Featured" when no sort is given or the value is unknown |
| VariantSelector.IsOptionAvailable | components/variant-selector.tsx:22-42 | `isOptionAvailable`; `AvailableIffSomeVariant` states when it holds |
| VariantSelector.AvailableIffSomeVariant | components/variant-selector.tsx:22-42 | a value is available iff some variant for sale has it and agrees with every other selected option |
| VariantSelector.OwnSelectionIgnored | components/variant-selector.tsx:33 | the current selection for the same option does not affect its values' availability |
| VariantSelector.FewerSelectionsStayAvailable | components/variant-selector.tsx:31-38 | dropping selections never disables an available value |
| VariantSelector.NothingForSaleNothingAvailable | components/variant-selector.tsx:40 | when no variant is for sale, every value is disabled |
| VariantSelector.OptionButtons | components/variant-selector.tsx:56-64 | one button per value, in order, selected iff it is the selected value, disabled iff unavailable |
| VariantSelector.AllButtons | components/variant-selector.tsx:50-79 | one button per value over all options, each disabled iff unavailable |
| VariantSelector.Hidden | components/variant-selector.tsx:44-46 | the selector renders nothing; `RenderedButtons` states the consequence |
| VariantSelector.RenderedButtons | components/variant-selector.tsx:44-79 | nothing is rendered for no options or one single-valued option; otherwise every value gets a button, disabled iff unavailable |
| CartRoute.Dispatch | app/api/cart/route.ts:33-75 | it rejects an unknown action with `Invalid action`, an update without a cart id with `Cart ID is required for update`, and a remove without a cart id or line ids with `Cart ID and line IDs are required for remove`; `create`, and `add` without a cart id, call `createCart`; `add` with a cart id calls `addToCart`, `update` calls `updateCart`, `remove` calls `removeFromCart`, each with the request's cart id and its lines or line ids |
| CartRoute.Post | app/api/cart/route.ts:30-85 | 400 with the dispatch error iff the request is rejected; 200 with the cart iff it is accepted and Shopify answers; 500 with the error's message, or a fallback message, otherwise |
| CartRoute.GetDispatch | app/api/cart/route.ts:12-19 | `getCart` is called iff a non-empty cart id is given |
| CartRoute.Get | app/api/cart/route.ts:10-28 | 400 without a cart id, 500 "Failed to get cart" when Shopify fails, and otherwise 200 with the cart, which may be null |
| CartContext.RouteAnswersAsSeen | app/api/cart/route.ts:10-85 | the context sees a found or missing cart as an OK answer; a failed upstream call or a rejected request is a non-OK answer |
| CartContext.AddRequest | lib/cart-context.tsx:67-75 | the body `addItem` posts; `ContextRequestsAccepted` states the upstream call it leads to |
| CartContext.UpdateRequest | lib/cart-context.tsx:104-108 | the body `updateItem` posts; `ContextRequestsAccepted` states the upstream call it leads to |
| CartContext.RemoveRequest | lib/cart-context.tsx:135-139 | the body `removeItem` posts; `ContextRequestsAccepted` states the upstream call it leads to |
| CartContext.ContextRequestsAccepted | lib/cart-context.tsx:63-155 | the route accepts every request the context sends; `addItem` creates a cart exactly when no id is stored; updates and removals act on the held cart |
| CartContext.CartProvider.constructor | lib/cart-context.tsx:31-33 | no cart, loading, drawer closed, and the browser's stored id in place |
| CartContext.CartProvider.LoadCart | lib/cart-context.tsx:37-58 | fetches only for a stored id; a cart found is held; no cart, or a thrown error, forgets the id; a non-OK answer keeps it; loading always ends; when loading starts with no cart held and a returned cart carries the fetched id, the held cart afterwards is the one whose id is stored |
| CartContext.CartProvider.AddItem | lib/cart-context.tsx:63-93 | posts `add` iff an id is stored, else `create`, with quantity 1 by default; a returned cart is held, its id stored and the drawer opened; failures change nothing; coherence is preserved |
| CartContext.CartProvider.UpdateItem | lib/cart-context.tsx:95-124 | no request without a cart; otherwise an `update` of that line for the held cart, whose OK answer replaces the cart |
| CartContext.CartProvider.RemoveItem | lib/cart-context.tsx:126-155 | no request without a cart; otherwise a `remove` of that line for the held cart, whose OK answer replaces the cart |
| CartContext.CartProvider.OpenCart | lib/cart-context.tsx:157 | the drawer is open and nothing else changes |
| CartContext.CartProvider.CloseCart | lib/cart-context.tsx:158 | the drawer is closed and nothing else changes |
| CartContext.DecrementAction | components/cart-drawer.tsx:132-136 | the minus button removes a line of quantity 1 and otherwise lowers its quantity by one, never below 1 |

## Left out

- JsText.ParseFloat: reads only an optional sign and the decimal digits after
  it, so prices and bounds are integers. A fraction is truncated, not kept:
  `?min_price=9.99` decodes to the bound 9 and so keeps a product priced 9,
  which the shop drops. Leading whitespace is not skipped (`" 5"` reads as
  NaN, not 5), and exponents and `Infinity` are not read (`"1e3"` reads as 1,
  not 1000).
- **Invalid prices.** A product whose price amount parses to `NaN` is not
  modelled: product prices are integers.
- **Dates.** Creation times are integers standing for
  `new Date(createdAt).getTime()`. Date parsing is not modelled.
- **String comparison.** `localeCompare` and the default `sort()` order are
  both modelled as code-point lexicographic comparison. Locale collation rules
  are not modelled. The default `sort()` compares UTF-16 code units, not code
  points; the two orders differ only when a character above U+FFFF is compared
  with one in U+E000 to U+FFFF.
- **Query strings.** `URLSearchParams` is modelled as a map from key to value.
  Repeated keys, parameter order and percent-encoding are not modelled.
- **Navigation.** `router.push` and `window.location` are not modelled. The
  handlers return the new parameters they would navigate to.
- **React.** Rendering, markup and styling are not modelled; the variant
  selector's `onOptionChange` callback belongs to the product page. The
  `useTransition` pending flag (`isUpdating`) and the interleaving of
  concurrent cart requests are not modelled either. Each transition is
  applied atomically with the answer it receives.
- **Shopify and JSON.** The Storefront API calls (`getCart`, `createCart`,
  `addToCart`, `updateCart`, `removeFromCart`) are not part of this model.
  Their results are inputs. A JSON body whose fields have the wrong type
  (a numeric `cartId`, a non-array `lines`) is not modelled; an unparsable
  body is.
- **Rethrown errors.** `CartContext.CartProvider.AddItem`,
  `CartContext.CartProvider.UpdateItem` and `CartContext.CartProvider.RemoveItem`
  do not model the error rethrown to the caller after logging. The state
  effects on each failure path are modelled.
- **Price inputs.** `FilterPanel.MinPriceChange` and `FilterPanel.MaxPriceChange`
  take the already-parsed value of the price input, not the text typed in it.

## Findings

| source | as written | input that shows it | evidently intended | confidence | as-written member | corrected member |
|---|---|---|---|---|---|---|
| components/filter-panel.tsx:66-70 | `updateFilters` deletes `in_stock` whenever the partial update has no `inStock`, and the brand, type, tag and price handlers (lines 185-211, 274-279, 315-320, 356-361) never pass one | URL `?in_stock=true`, then tick the brand "Acme": the new URL has no `in_stock`, and the stock filter is silently cleared | only the stock checkbox (line 241) sets or clears `in_stock`; other edits keep it, as they keep the other facets they do not mention | high, from reading the code; not executed | FilterPanel.ToggleDropsStockFilterExample | FilterPanel.CorrectedUpdateKeepsStockFilter |
