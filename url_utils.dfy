/**
 * The query-string decoder of lib/url-utils.ts.  `URLSearchParams` is a map
 * from parameter name to its (first) value; `get` of a missing name is
 * `null`, which, like the empty string, is falsy.
 */
module UrlUtils {
  import opened Wrappers
  import opened JsText
  import opened Filtering

  type Params = map<string, string>

  /** `searchParams.get(key)` is truthy: the parameter is present with a non-empty value. */
  predicate Given(q: Params, key: string) {
    StringTruthy(if key in q then Some(q[key]) else None)
  }

  /** What `parseSearchParams` returns. */
  datatype SearchState = SearchState(sort: string, filters: FilterOptions)

  /** The value a list parameter decodes to. */
  function ListParam(q: Params, key: string): (r: Option<seq<string>>)
    ensures r.Some? <==> Given(q, key)
    ensures r.Some? ==> Joinable(r.value)
  {
    if Given(q, key) then Some(SplitList(q[key])) else None
  }

  /** The value a price parameter decodes to. */
  function PriceParam(q: Params, key: string): (r: Option<Number>)
    ensures r.Some? <==> Given(q, key)
  {
    if Given(q, key) then Some(ParseFloat(q[key])) else None
  }

  /** The sort: the parameter when given, `featured` otherwise. */
  function SortParam(q: Params): (r: string)
    ensures r != ""
    ensures Given(q, "sort") ==> r == q["sort"]
    ensures r == "featured" <==> !Given(q, "sort") || q["sort"] == "featured"
  {
    if Given(q, "sort") then q["sort"] else "featured"
  }

  /** A price range exists when either bound is given; each bound is parsed on its own. */
  function PriceRangeParam(q: Params): (r: Option<PriceBounds>)
    ensures r.Some? <==> Given(q, "min_price") || Given(q, "max_price")
    ensures r.Some? ==> r.value.min.Some? || r.value.max.Some?
    ensures r.Some? ==> r.value == PriceBounds(PriceParam(q, "min_price"), PriceParam(q, "max_price"))
  {
    if Given(q, "min_price") || Given(q, "max_price")
    then Some(PriceBounds(PriceParam(q, "min_price"), PriceParam(q, "max_price")))
    else None
  }

  /** The stock flag: present when `in_stock` is given, true exactly for the text `true`. */
  function StockParam(q: Params): (r: Option<bool>)
    ensures r.Some? <==> Given(q, "in_stock")
    ensures r.Some? ==> (r.value <==> q["in_stock"] == "true")
  {
    if Given(q, "in_stock") then Some(q["in_stock"] == "true") else None
  }

  /** The decoded search state, one parameter per field. */
  function Decode(q: Params): SearchState {
    SearchState(SortParam(q),
      FilterOptions(PriceRangeParam(q), ListParam(q, "vendors"), ListParam(q, "types"), ListParam(q, "tags"),
                    StockParam(q)))
  }

  /** `parseSearchParams(searchParams)`: never fails; a field whose parameter is not given stays undefined. */
  method ParseSearchParams(q: Params) returns (r: SearchState)
    ensures r == Decode(q)
  {
    var sort := if "sort" in q && q["sort"] != "" then q["sort"] else "featured";
    var priceRange := ParsePriceRange(q);
    var vendors := ParseList(q, "vendors");
    var productTypes := ParseList(q, "types");
    var tags := ParseList(q, "tags");
    var inStock := ParseStock(q);
    r := SearchState(sort, FilterOptions(priceRange, vendors, productTypes, tags, inStock));
  }

  /** The price-range step: set when either bound is truthy, each bound parsed when truthy. */
  method ParsePriceRange(q: Params) returns (r: Option<PriceBounds>)
    ensures r == PriceRangeParam(q)
  {
    var minPrice := if "min_price" in q then q["min_price"] else "";
    var maxPrice := if "max_price" in q then q["max_price"] else "";
    r := None;
    if minPrice != "" || maxPrice != "" {
      r := Some(PriceBounds(
        if minPrice != "" then Some(ParseFloat(minPrice)) else None,
        if maxPrice != "" then Some(ParseFloat(maxPrice)) else None));
    }
  }

  /** One list step: `value.split(',').filter(Boolean)` when the parameter is truthy. */
  method ParseList(q: Params, key: string) returns (r: Option<seq<string>>)
    ensures r == ListParam(q, key)
  {
    var value := if key in q then q[key] else "";
    r := None;
    if value != "" {
      r := Some(SplitList(value));
    }
  }

  /** The stock step: `inStock === 'true'` when the parameter is truthy. */
  method ParseStock(q: Params) returns (r: Option<bool>)
    ensures r == StockParam(q)
  {
    var inStock := if "in_stock" in q then q["in_stock"] else "";
    r := None;
    if inStock != "" {
      r := Some(inStock == "true");
    }
  }
}
