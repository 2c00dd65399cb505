/**
 * The query-parameter side of components/filter-panel.tsx: `updateFilters`
 * and `clearAllFilters` edit a copy of the current `URLSearchParams` with
 * `set`/`delete`; `hasActiveFilters` and the checkbox toggles are pure.
 * Rendering and `router.push` are not modelled.
 */
module FilterPanel {
  import opened Wrappers
  import opened JsText
  import opened Filtering
  import opened UrlUtils

  /** The parameters the filter panel owns. */
  const PriceKeys: set<string> := {"min_price", "max_price"}
  const ListKeys: set<string> := {"vendors", "types", "tags"}
  const FilterKeys: set<string> := PriceKeys + ListKeys + {"in_stock"}

  /** `params.set(key, v)` for `Some(v)`, `params.delete(key)` for `None`. */
  function SetOrDelete(params: Params, key: string, value: Option<string>): Params
  {
    if value.Some? then params[key := value.value] else params - {key}
  }

  /** The text written for a price bound: its `toString()` when truthy, else nothing. */
  function BoundText(bound: Option<Number>): Option<string>
  {
    if IsSet(bound) then Some(NumberToString(bound.value.value)) else None
  }

  /** A list update: absent leaves the key, empty deletes it, otherwise the joined list. */
  function ListUpdate(params: Params, key: string, list: Option<seq<string>>): Params
  {
    if list.None? then params
    else SetOrDelete(params, key, if list.value != [] then Some(Join(list.value)) else None)
  }

  /** The price part of `updateFilters`: each bound written when truthy, deleted otherwise. */
  function PriceUpdate(params: Params, range: Option<PriceBounds>): Params
  {
    if range.Some? then
      SetOrDelete(SetOrDelete(params, "min_price", BoundText(range.value.min)), "max_price", BoundText(range.value.max))
    else params
  }

  /** The price and list part of `updateFilters`. */
  function FacetParams(params: Params, update: FilterOptions): Params {
    ListUpdate(ListUpdate(ListUpdate(PriceUpdate(params, update.priceRange), "vendors", update.vendors),
                          "types", update.productTypes),
               "tags", update.tags)
  }

  /** `in_stock` is written as `"true"`/`"false"` when defined and deleted otherwise. */
  function StockText(inStock: Option<bool>): Option<string> {
    if inStock.None? then None else Some(if inStock.value then "true" else "false")
  }

  /** The parameters `updateFilters(update)` navigates to. */
  function UpdatedParams(params: Params, update: FilterOptions): Params {
    SetOrDelete(FacetParams(params, update), "in_stock", StockText(update.inStock))
  }

  /** `params` and `r` agree on `key`: both lack it or both hold the same value. */
  predicate SameEntry(r: Params, params: Params, key: string) {
    (key in r <==> key in params) && (key in r ==> r[key] == params[key])
  }

  /** What a list key holds after a list update. */
  predicate ListWritten(r: Params, params: Params, key: string, list: Option<seq<string>>) {
    if list.None? then SameEntry(r, params, key)
    else (key in r <==> list.value != []) && (key in r ==> r[key] == Join(list.value))
  }

  /** What a price key holds after a price update. */
  predicate BoundWritten(r: Params, key: string, bound: Option<Number>) {
    (key in r <==> IsSet(bound)) && (key in r ==> r[key] == NumberToString(bound.value.value))
  }

  /** The price keys after a price update: both bounds written, or both untouched without a range. */
  predicate PriceWritten(r: Params, params: Params, range: Option<PriceBounds>) {
    if range.Some? then BoundWritten(r, "min_price", range.value.min) && BoundWritten(r, "max_price", range.value.max)
    else SameEntry(r, params, "min_price") && SameEntry(r, params, "max_price")
  }

  /** The three list keys after the list updates. */
  predicate ListsWritten(r: Params, params: Params, update: FilterOptions) {
    && ListWritten(r, params, "vendors", update.vendors)
    && ListWritten(r, params, "types", update.productTypes)
    && ListWritten(r, params, "tags", update.tags)
  }

  /** Every key outside `keys` is unchanged. */
  ghost predicate KeptExcept(r: Params, params: Params, keys: set<string>) {
    forall k :: k !in keys ==> SameEntry(r, params, k)
  }

  /** What a stock update leaves in `in_stock`. */
  predicate StockWritten(r: Params, inStock: Option<bool>) {
    && ("in_stock" in r <==> inStock.Some?)
    && ("in_stock" in r ==> r["in_stock"] == (if inStock.value then "true" else "false"))
  }

  /**
   * What `updateFilters(update)` does to each parameter: keys the panel
   * does not own (q, sort, ...) are kept; price bounds are written when
   * truthy and deleted otherwise, and untouched without a price range; an
   * absent list leaves its key, an empty one deletes it, any other is
   * joined with ','; `in_stock` is always rewritten, and deleted unless the
   * update carries `inStock`.
   */
  lemma UpdateFiltersMeaning(params: Params, update: FilterOptions)
    ensures var r := UpdatedParams(params, update);
      && KeptExcept(r, params, FilterKeys)
      && PriceWritten(r, params, update.priceRange)
      && ListsWritten(r, params, update)
      && StockWritten(r, update.inStock)
  {
    FacetParamsMeaning(params, update);
    SetOrDeleteFrame(FacetParams(params, update), "in_stock", StockText(update.inStock));
    ComposeStock(params, FacetParams(params, update), UpdatedParams(params, update), update);
  }

  /** The price and list stages: each of their keys as described, every other key kept. */
  lemma FacetParamsMeaning(params: Params, update: FilterOptions)
    ensures var r := FacetParams(params, update);
      && KeptExcept(r, params, PriceKeys + ListKeys)
      && PriceWritten(r, params, update.priceRange)
      && ListsWritten(r, params, update)
  {
    var p1 := PriceUpdate(params, update.priceRange);
    PriceUpdateMeaning(params, update.priceRange);
    ListsMeaning(p1, update);
    ComposeFacets(params, p1, FacetParams(params, update), update);
  }

  /** Chaining the price stage with the list stages. */
  lemma ComposeFacets(params: Params, p1: Params, r: Params, update: FilterOptions)
    requires PriceWritten(p1, params, update.priceRange) && KeptExcept(p1, params, PriceKeys)
    requires ListsWritten(r, p1, update) && KeptExcept(r, p1, ListKeys)
    ensures KeptExcept(r, params, PriceKeys + ListKeys)
    ensures PriceWritten(r, params, update.priceRange)
    ensures ListsWritten(r, params, update)
  {
    assert SameEntry(p1, params, "vendors") && SameEntry(p1, params, "types") && SameEntry(p1, params, "tags");
    assert SameEntry(r, p1, "min_price") && SameEntry(r, p1, "max_price");
  }

  /** Chaining the facet stages with the stock stage. */
  lemma ComposeStock(params: Params, p4: Params, r: Params, update: FilterOptions)
    requires KeptExcept(p4, params, PriceKeys + ListKeys)
    requires PriceWritten(p4, params, update.priceRange) && ListsWritten(p4, params, update)
    requires StockWritten(r, update.inStock) && KeptExcept(r, p4, {"in_stock"})
    ensures KeptExcept(r, params, FilterKeys)
    ensures PriceWritten(r, params, update.priceRange)
    ensures ListsWritten(r, params, update)
    ensures StockWritten(r, update.inStock)
  {
    assert SameEntry(r, p4, "min_price") && SameEntry(r, p4, "max_price");
    assert SameEntry(r, p4, "vendors") && SameEntry(r, p4, "types") && SameEntry(r, p4, "tags");
  }

  /** The three list stages, applied after the price stage. */
  lemma ListsMeaning(p1: Params, update: FilterOptions)
    ensures var r := ListUpdate(ListUpdate(ListUpdate(p1, "vendors", update.vendors), "types", update.productTypes),
                                "tags", update.tags);
      ListsWritten(r, p1, update) && KeptExcept(r, p1, ListKeys)
  {
    var p2 := ListUpdate(p1, "vendors", update.vendors);
    var p3 := ListUpdate(p2, "types", update.productTypes);
    var r := ListUpdate(p3, "tags", update.tags);
    ListUpdateMeaning(p1, "vendors", update.vendors);
    ListUpdateMeaning(p2, "types", update.productTypes);
    ListUpdateMeaning(p3, "tags", update.tags);
    assert SameEntry(r, p3, "vendors") && SameEntry(p3, p2, "vendors");
    assert SameEntry(r, p3, "types");
  }

  /** `set` writes the key and `delete` removes it; no other key changes. */
  lemma SetOrDeleteFrame(params: Params, key: string, value: Option<string>)
    ensures var r := SetOrDelete(params, key, value);
      && (value.Some? ==> key in r && r[key] == value.value)
      && (value.None? ==> key !in r)
      && KeptExcept(r, params, {key})
  {
  }

  /** One list stage writes its own key as described and no other. */
  lemma ListUpdateMeaning(params: Params, key: string, list: Option<seq<string>>)
    ensures ListWritten(ListUpdate(params, key, list), params, key, list)
    ensures KeptExcept(ListUpdate(params, key, list), params, {key})
  {
  }

  /** The price stage writes both bounds, or neither without a range, and no other key. */
  lemma PriceUpdateMeaning(params: Params, range: Option<PriceBounds>)
    ensures var r := PriceUpdate(params, range);
      PriceWritten(r, params, range) && KeptExcept(r, params, PriceKeys)
  {
  }

  /** `updateFilters(newFilters)`: copies the parameters and sets or deletes each owned key. */
  method UpdateFilters(searchParams: Params, newFilters: FilterOptions) returns (params: Params)
    ensures params == UpdatedParams(searchParams, newFilters)
  {
    params := searchParams;
    params := UpdatePriceParams(params, newFilters.priceRange);
    params := UpdateListParam(params, "vendors", newFilters.vendors);
    params := UpdateListParam(params, "types", newFilters.productTypes);
    params := UpdateListParam(params, "tags", newFilters.tags);
    if newFilters.inStock.Some? {
      params := params["in_stock" := if newFilters.inStock.value then "true" else "false"];
    } else {
      params := params - {"in_stock"};
    }
  }

  /** The price step of `updateFilters`: with a range, each bound is set when truthy and deleted otherwise. */
  method UpdatePriceParams(params: Params, range: Option<PriceBounds>) returns (r: Params)
    ensures r == PriceUpdate(params, range)
  {
    r := params;
    if range.Some? {
      if IsSet(range.value.min) {
        r := r["min_price" := NumberToString(range.value.min.value.value)];
      } else {
        r := r - {"min_price"};
      }
      if IsSet(range.value.max) {
        r := r["max_price" := NumberToString(range.value.max.value.value)];
      } else {
        r := r - {"max_price"};
      }
    }
  }

  /** One list step of `updateFilters`: a given list is joined with ',' when non-empty and deleted when empty. */
  method UpdateListParam(params: Params, key: string, list: Option<seq<string>>) returns (r: Params)
    ensures r == ListUpdate(params, key, list)
  {
    r := params;
    if list.Some? {
      if |list.value| > 0 {
        r := r[key := Join(list.value)];
      } else {
        r := r - {key};
      }
    }
  }

  /** `clearAllFilters`: deletes exactly the six filter keys. */
  method ClearAllFilters(searchParams: Params) returns (params: Params)
    ensures params.Keys == searchParams.Keys - FilterKeys
    ensures forall k :: k in params ==> params[k] == searchParams[k]
  {
    params := searchParams;
    params := params - {"min_price"};
    params := params - {"max_price"};
    params := params - {"vendors"};
    params := params - {"types"};
    params := params - {"tags"};
    params := params - {"in_stock"};
  }

  /** `hasActiveFilters` for the current options. */
  predicate HasActiveFilters(current: FilterOptions) {
    || current.priceRange.Some?
    || (current.vendors.Some? && |current.vendors.value| > 0)
    || (current.productTypes.Some? && |current.productTypes.value| > 0)
    || (current.tags.Some? && |current.tags.value| > 0)
    || current.inStock.Some?
  }

  /**
   * On decoded parameters, a filter is active iff a price or stock parameter
   * is non-empty or a list parameter holds a non-empty segment; once the
   * panel's keys are cleared, none is and the sort is kept.
   */
  lemma ActiveFiltersOfParams(q: Params)
    ensures HasActiveFilters(Decode(q).filters) <==>
      || Given(q, "min_price") || Given(q, "max_price") || Given(q, "in_stock")
      || (Given(q, "vendors") && SplitList(q["vendors"]) != [])
      || (Given(q, "types") && SplitList(q["types"]) != [])
      || (Given(q, "tags") && SplitList(q["tags"]) != [])
    ensures !HasActiveFilters(Decode(q - FilterKeys).filters)
    ensures Decode(q - FilterKeys).sort == Decode(q).sort
  {
  }

  // ------------------------------------------------------ checkbox toggles

  /** `list.filter(v => v !== value)`. */
  function Without(list: seq<string>, value: string): (r: seq<string>)
    ensures value !in r
    ensures forall x :: x != value ==> multiset(r)[x] == multiset(list)[x]
    ensures SubsequenceOf(r, list)
  {
    if list == [] then []
    else
      assert list == [list[0]] + list[1..];
      if list[0] == value then Without(list[1..], value)
      else [list[0]] + Without(list[1..], value)
  }

  /** A checkbox's new list: the value appended when checked, every copy removed when unchecked. */
  function Toggle(current: Option<seq<string>>, value: string, checked: bool): (r: seq<string>)
    ensures checked ==> r == current.GetOr([]) + [value]
    ensures !checked ==> value !in r && SubsequenceOf(r, current.GetOr([]))
    ensures !checked ==> forall x :: x != value ==> multiset(r)[x] == multiset(current.GetOr([]))[x]
  {
    var list := current.GetOr([]);
    if checked then list + [value] else Without(list, value)
  }

  /** The update a vendor, category or tag checkbox sends. */
  function VendorToggle(current: FilterOptions, vendor: string, checked: bool): FilterOptions {
    NoFilters.(vendors := Some(Toggle(current.vendors, vendor, checked)))
  }

  function TypeToggle(current: FilterOptions, productType: string, checked: bool): FilterOptions {
    NoFilters.(productTypes := Some(Toggle(current.productTypes, productType, checked)))
  }

  function TagToggle(current: FilterOptions, tag: string, checked: bool): FilterOptions {
    NoFilters.(tags := Some(Toggle(current.tags, tag, checked)))
  }

  /** The update the price inputs send: the edited bound beside the current other one. */
  function MinPriceChange(current: FilterOptions, min: Option<Number>): FilterOptions {
    NoFilters.(priceRange := Some(PriceBounds(min, if current.priceRange.Some? then current.priceRange.value.max else None)))
  }

  function MaxPriceChange(current: FilterOptions, max: Option<Number>): FilterOptions {
    NoFilters.(priceRange := Some(PriceBounds(if current.priceRange.Some? then current.priceRange.value.min else None, max)))
  }

  /** The update the in-stock checkbox sends. */
  function StockToggle(checked: bool): FilterOptions {
    NoFilters.(inStock := if checked then Some(true) else None)
  }

  /** The keys an update may change: those of the parts it carries, and always `in_stock`. */
  function Touched(update: FilterOptions): set<string> {
    {"in_stock"}
    + (if update.priceRange.Some? then PriceKeys else {})
    + (if update.vendors.Some? then {"vendors"} else {})
    + (if update.productTypes.Some? then {"types"} else {})
    + (if update.tags.Some? then {"tags"} else {})
  }

  /** `updateFilters` changes no key outside the parts the update carries, except `in_stock`. */
  lemma UpdateTouchesOnly(params: Params, update: FilterOptions)
    ensures KeptExcept(UpdatedParams(params, update), params, Touched(update))
  {
    UpdateFiltersMeaning(params, update);
    var r := UpdatedParams(params, update);
    forall k | k !in Touched(update)
      ensures SameEntry(r, params, k)
    {
      if k in FilterKeys {
        assert k in {"min_price", "max_price", "vendors", "types", "tags"};
      }
    }
  }

  /**
   * A brand, category or tag checkbox rewrites only its own list, with the
   * toggled value, and `in_stock`; every other key is kept.
   */
  lemma CheckboxUpdates(q: Params, current: FilterOptions, value: string, checked: bool)
    ensures var r := UpdatedParams(q, VendorToggle(current, value, checked));
      ListWritten(r, q, "vendors", Some(Toggle(current.vendors, value, checked))) && KeptExcept(r, q, {"vendors", "in_stock"})
    ensures var r := UpdatedParams(q, TypeToggle(current, value, checked));
      ListWritten(r, q, "types", Some(Toggle(current.productTypes, value, checked))) && KeptExcept(r, q, {"types", "in_stock"})
    ensures var r := UpdatedParams(q, TagToggle(current, value, checked));
      ListWritten(r, q, "tags", Some(Toggle(current.tags, value, checked))) && KeptExcept(r, q, {"tags", "in_stock"})
  {
    var v := VendorToggle(current, value, checked);
    var t := TypeToggle(current, value, checked);
    var g := TagToggle(current, value, checked);
    UpdateFiltersMeaning(q, v);
    UpdateTouchesOnly(q, v);
    assert Touched(v) == {"vendors", "in_stock"};
    UpdateFiltersMeaning(q, t);
    UpdateTouchesOnly(q, t);
    assert Touched(t) == {"types", "in_stock"};
    UpdateFiltersMeaning(q, g);
    UpdateTouchesOnly(q, g);
    assert Touched(g) == {"tags", "in_stock"};
  }

  /**
   * A price input writes the edited bound beside the current other one,
   * each when truthy, and rewrites `in_stock`; every other key is kept.
   */
  lemma PriceInputUpdates(q: Params, current: FilterOptions, bound: Option<Number>)
    ensures var other := if current.priceRange.Some? then current.priceRange.value.max else None;
      var r := UpdatedParams(q, MinPriceChange(current, bound));
      PriceWritten(r, q, Some(PriceBounds(bound, other))) && KeptExcept(r, q, PriceKeys + {"in_stock"})
    ensures var other := if current.priceRange.Some? then current.priceRange.value.min else None;
      var r := UpdatedParams(q, MaxPriceChange(current, bound));
      PriceWritten(r, q, Some(PriceBounds(other, bound))) && KeptExcept(r, q, PriceKeys + {"in_stock"})
  {
    var lo := MinPriceChange(current, bound);
    var hi := MaxPriceChange(current, bound);
    UpdateFiltersMeaning(q, lo);
    UpdateTouchesOnly(q, lo);
    assert Touched(lo) == PriceKeys + {"in_stock"};
    UpdateFiltersMeaning(q, hi);
    UpdateTouchesOnly(q, hi);
    assert Touched(hi) == PriceKeys + {"in_stock"};
  }

  // ----------------------------------------------------------- round trips

  /** Options the panel can write and read back unchanged. */
  predicate Canonical(f: FilterOptions) {
    && (f.priceRange.Some? ==>
          && (f.priceRange.value.min.None? || IsSet(f.priceRange.value.min))
          && (f.priceRange.value.max.None? || IsSet(f.priceRange.value.max))
          && (f.priceRange.value.min.Some? || f.priceRange.value.max.Some?))
    && (f.vendors.Some? ==> f.vendors.value != [] && Joinable(f.vendors.value))
    && (f.productTypes.Some? ==> f.productTypes.value != [] && Joinable(f.productTypes.value))
    && (f.tags.Some? ==> f.tags.value != [] && Joinable(f.tags.value))
  }

  lemma BoundRoundTrip(r: Params, key: string, bound: Option<Number>)
    requires bound.None? || IsSet(bound)
    requires BoundWritten(r, key, bound)
    ensures PriceParam(r, key) == bound
  {
    if IsSet(bound) {
      NumberRoundTrip(bound.value.value);
    }
  }

  lemma ListParamRoundTrip(r: Params, key: string, list: Option<seq<string>>)
    requires list.Some? ==> list.value != [] && Joinable(list.value)
    requires list.None? ==> key !in r
    requires list.Some? ==> key in r && r[key] == Join(list.value)
    ensures ListParam(r, key) == list
  {
    if list.Some? {
      ListRoundTrip(list.value);
    }
  }

  /**
   * Encoder and decoder agree: after clearing the panel's keys, writing any
   * canonical options and parsing the result gives back those options, and
   * the sort parameter is untouched.
   */
  lemma FilterRoundTrip(q: Params, f: FilterOptions)
    requires Canonical(f)
    ensures Decode(UpdatedParams(q - FilterKeys, f)).filters == f
    ensures Decode(UpdatedParams(q - FilterKeys, f)).sort == Decode(q).sort
  {
    var r := UpdatedParams(q - FilterKeys, f);
    UpdateFiltersMeaning(q - FilterKeys, f);
    DecodeWritten(q - FilterKeys, r, f);
    assert SameEntry(r, q, "sort");
  }

  /** Parameters written from canonical options over a base without the panel's keys decode to those options. */
  lemma DecodeWritten(base: Params, r: Params, f: FilterOptions)
    requires Canonical(f)
    requires forall k :: k in FilterKeys ==> k !in base
    requires PriceWritten(r, base, f.priceRange) && ListsWritten(r, base, f) && StockWritten(r, f.inStock)
    ensures Decode(r).filters == f
  {
    assert "min_price" in FilterKeys && "max_price" in FilterKeys && "in_stock" in FilterKeys;
    assert "vendors" in FilterKeys && "types" in FilterKeys && "tags" in FilterKeys;
    if f.priceRange.Some? {
      BoundRoundTrip(r, "min_price", f.priceRange.value.min);
      BoundRoundTrip(r, "max_price", f.priceRange.value.max);
    }
    ListParamRoundTrip(r, "vendors", f.vendors);
    ListParamRoundTrip(r, "types", f.productTypes);
    ListParamRoundTrip(r, "tags", f.tags);
  }

  /** `in_stock` round trip: whatever the parameters, the stock flag written is the flag read. */
  lemma StockRoundTrip(q: Params, f: FilterOptions)
    ensures Decode(UpdatedParams(q, f)).filters.inStock == f.inStock
  {
    UpdateFiltersMeaning(q, f);
  }

  // ------------------------------------------- the stock flag and toggles

  /**
   * As written, every list or price update lacks `inStock`, so it deletes
   * `in_stock`: ticking a brand box clears an active "in stock only" filter.
   */
  lemma ToggleDropsStockFilter(q: Params, current: FilterOptions, vendor: string, checked: bool)
    ensures "in_stock" !in UpdatedParams(q, VendorToggle(current, vendor, checked))
    ensures "in_stock" !in UpdatedParams(q, MinPriceChange(current, Some(Finite(10))))
    ensures Decode(UpdatedParams(q, VendorToggle(current, vendor, checked))).filters.inStock == None
  {
  }

  /** A concrete case: `?in_stock=true`, then ticking the brand "Acme". */
  lemma ToggleDropsStockFilterExample()
    ensures var q := map["in_stock" := "true"];
      && Decode(q).filters.inStock == Some(true)
      && Decode(UpdatedParams(q, VendorToggle(Decode(q).filters, "Acme", true))).filters.inStock == None
  {
    var q := map["in_stock" := "true"];
    assert Given(q, "in_stock");
  }

  /**
   * The evidently intended update: `in_stock` is only touched when the
   * update concerns stock (`carriesStock`), as the stock checkbox's does.
   */
  function UpdatedParamsKeepingStock(params: Params, update: FilterOptions, carriesStock: bool): (r: Params)
    ensures carriesStock ==> r == UpdatedParams(params, update)
    ensures !carriesStock ==> SameEntry(r, params, "in_stock")
    ensures KeptExcept(r, UpdatedParams(params, update), {"in_stock"})
  {
    FacetParamsMeaning(params, update);
    var facets := FacetParams(params, update);
    SetOrDeleteFrame(facets, "in_stock", StockText(update.inStock));
    assert SameEntry(facets, params, "in_stock");
    if carriesStock then SetOrDelete(facets, "in_stock", StockText(update.inStock)) else facets
  }

  /** With the intended update, checkbox and price edits keep the stock filter. */
  lemma CorrectedUpdateKeepsStockFilter(q: Params, current: FilterOptions, vendor: string, checked: bool, min: Option<Number>)
    ensures Decode(UpdatedParamsKeepingStock(q, VendorToggle(current, vendor, checked), false)).filters.inStock
      == Decode(q).filters.inStock
    ensures Decode(UpdatedParamsKeepingStock(q, MinPriceChange(current, min), false)).filters.inStock
      == Decode(q).filters.inStock
    ensures Decode(UpdatedParamsKeepingStock(q, StockToggle(checked), true)).filters.inStock
      == (if checked then Some(true) else None)
  {
  }
}
