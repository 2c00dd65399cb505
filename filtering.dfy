/**
 * The filter engine of lib/shopify/filtering.ts: `extractFilterOptions`
 * collects the facet values present in a product list, `filterProducts`
 * keeps the products that pass every facet of a `FilterOptions`.
 */
module Filtering {
  import opened Wrappers
  import opened Types
  import opened JsText
  import opened Sorting

  // ------------------------------------------------------------ the options

  /** `priceRange` of `FilterOptions`: either bound may be absent (or NaN). */
  datatype PriceBounds = PriceBounds(min: Option<Number>, max: Option<Number>)

  datatype FilterOptions = FilterOptions(
    priceRange: Option<PriceBounds>,
    vendors: Option<seq<string>>,
    productTypes: Option<seq<string>>,
    tags: Option<seq<string>>,
    inStock: Option<bool>)

  /** The empty `FilterOptions` object `{}`. */
  const NoFilters := FilterOptions(None, None, None, None, None)

  /** JavaScript truthiness of an optional number bound. */
  predicate IsSet(bound: Option<Number>) {
    bound.Some? && NumberTruthy(bound.value)
  }

  // --------------------------------------------------------- filterProducts

  /** The callback `filterProducts` hands to `Array.prototype.filter`, check by check. */
  predicate Keep(product: Product, filters: FilterOptions) {
    if filters.priceRange.Some? && IsSet(filters.priceRange.value.min)
       && product.price < filters.priceRange.value.min.value.value then false
    else if filters.priceRange.Some? && IsSet(filters.priceRange.value.max)
       && product.price > filters.priceRange.value.max.value.value then false
    else if filters.vendors.Some? && |filters.vendors.value| > 0
       && (product.vendor == "" || product.vendor !in filters.vendors.value) then false
    else if filters.productTypes.Some? && |filters.productTypes.value| > 0
       && (product.productType == "" || product.productType !in filters.productTypes.value) then false
    else if filters.tags.Some? && |filters.tags.value| > 0
       && !(exists t :: t in filters.tags.value && t in product.tags) then false
    else if filters.inStock.Some? && filters.inStock.value && !product.availableForSale then false
    else if filters.inStock.Some? && !filters.inStock.value && product.availableForSale then false
    else true
  }

  /** `filterProducts(products, filters)`. */
  function FilterProducts(products: seq<Product>, filters: FilterOptions): (r: seq<Product>)
    ensures |r| <= |products|
  {
    if products == [] then []
    else if Keep(products[0], filters) then [products[0]] + FilterProducts(products[1..], filters)
    else FilterProducts(products[1..], filters)
  }

  /** `a` is `b` with some elements left out, the rest in their order. */
  ghost predicate SubsequenceOf<T>(a: seq<T>, b: seq<T>)
    decreases |b|
  {
    a == [] || (b != [] && ((a[0] == b[0] && SubsequenceOf(a[1..], b[1..])) || SubsequenceOf(a, b[1..])))
  }

  /** The result keeps input order and drops only products. */
  lemma {:induction false} FilterIsSubsequence(products: seq<Product>, filters: FilterOptions)
    ensures SubsequenceOf(FilterProducts(products, filters), products)
  {
    if products != [] {
      FilterIsSubsequence(products[1..], filters);
      var r := FilterProducts(products, filters);
      if Keep(products[0], filters) {
        assert r[1..] == FilterProducts(products[1..], filters);
      }
    }
  }

  /**
   * A product is kept iff it passes every facet: price bounds that are set
   * (0 and NaN are not), the vendor and type lists when non-empty, at least
   * one shared tag when the tag list is non-empty, and the stock flag.
   */
  lemma {:induction false} FilterKeepsExactlyPassing(products: seq<Product>, filters: FilterOptions, p: Product)
    ensures p in FilterProducts(products, filters) <==>
      && p in products
      && (filters.priceRange.Some? ==>
            && (IsSet(filters.priceRange.value.min) ==> p.price >= filters.priceRange.value.min.value.value)
            && (IsSet(filters.priceRange.value.max) ==> p.price <= filters.priceRange.value.max.value.value))
      && (filters.vendors.Some? && filters.vendors.value != [] ==> p.vendor != "" && p.vendor in filters.vendors.value)
      && (filters.productTypes.Some? && filters.productTypes.value != [] ==>
            p.productType != "" && p.productType in filters.productTypes.value)
      && (filters.tags.Some? && filters.tags.value != [] ==> exists t :: t in filters.tags.value && t in p.tags)
      && (filters.inStock.Some? ==> p.availableForSale == filters.inStock.value)
  {
    if products != [] {
      FilterKeepsExactlyPassing(products[1..], filters, p);
      assert p in products <==> p == products[0] || p in products[1..];
    }
  }

  /** With the empty options `{}` every product is kept, in order. */
  lemma {:induction false} NoFiltersKeepsAll(products: seq<Product>)
    ensures FilterProducts(products, NoFilters) == products
  {
    if products != [] {
      NoFiltersKeepsAll(products[1..]);
      assert products == [products[0]] + products[1..];
    }
  }

  /** The options restricted to one facet. */
  function PriceOnly(f: FilterOptions): FilterOptions { NoFilters.(priceRange := f.priceRange) }
  function VendorsOnly(f: FilterOptions): FilterOptions { NoFilters.(vendors := f.vendors) }
  function TypesOnly(f: FilterOptions): FilterOptions { NoFilters.(productTypes := f.productTypes) }
  function TagsOnly(f: FilterOptions): FilterOptions { NoFilters.(tags := f.tags) }
  function StockOnly(f: FilterOptions): FilterOptions { NoFilters.(inStock := f.inStock) }

  /** Facets combine by AND: filtering by all of them is filtering by each in turn. */
  lemma {:induction false} FacetsCombineByAnd(products: seq<Product>, f: FilterOptions)
    ensures FilterProducts(products, f) ==
      FilterProducts(FilterProducts(FilterProducts(FilterProducts(FilterProducts(products,
        PriceOnly(f)), VendorsOnly(f)), TypesOnly(f)), TagsOnly(f)), StockOnly(f))
  {
    if products != [] {
      FacetsCombineByAnd(products[1..], f);
    }
  }

  /** Filtering twice with the same options changes nothing more. */
  lemma {:induction false} FilterIdempotent(products: seq<Product>, f: FilterOptions)
    ensures FilterProducts(FilterProducts(products, f), f) == FilterProducts(products, f)
  {
    if products != [] {
      FilterIdempotent(products[1..], f);
    }
  }

  // --------------------------------------------------- extractFilterOptions

  datatype PriceSpan = PriceSpan(min: int, max: int)

  /** The result of `extractFilterOptions`. */
  datatype FacetValues = FacetValues(
    vendors: seq<string>,
    productTypes: seq<string>,
    tags: seq<string>,
    priceRange: PriceSpan)

  predicate Distinct(s: seq<string>) {
    forall i, j :: 0 <= i < j < |s| ==> s[i] != s[j]
  }

  predicate StrictlyAscending(s: seq<string>) {
    forall i, j :: 0 <= i < j < |s| ==> CompareStrings(s[i], s[j]) < 0
  }

  /** `Set.prototype.add` on a set kept in insertion order. */
  function SetAdd(values: seq<string>, v: string): (r: seq<string>)
    requires Distinct(values)
    ensures Distinct(r) && forall x :: x in r <==> x in values || x == v
  {
    if v in values then values else values + [v]
  }

  /** The order of the default `Array.prototype.sort()` on strings. */
  function StringOrder(): (string, string) -> int {
    (a: string, b: string) => CompareStrings(a, b)
  }

  lemma StringOrderIsTotalPreorder()
    ensures TotalPreorder(StringOrder())
  {
    var cmp := StringOrder();
    forall a: string, b: string
      ensures cmp(a, b) <= 0 || cmp(b, a) <= 0
    {
      CompareStringsAntisymmetric(a, b);
    }
    forall a: string, b: string, c: string | cmp(a, b) <= 0 && cmp(b, c) <= 0
      ensures cmp(a, c) <= 0
    {
      CompareStringsTransitive(a, b, c);
    }
  }

  lemma {:induction false} DistinctCounts(s: seq<string>, x: string)
    requires Distinct(s)
    ensures multiset(s)[x] <= 1
  {
    if s != [] {
      DistinctCounts(s[1..], x);
      assert s == [s[0]] + s[1..];
      assert s[0] !in s[1..];
    }
  }

  lemma PermutationKeepsDistinct(s: seq<string>, r: seq<string>)
    requires Distinct(s) && multiset(r) == multiset(s)
    ensures Distinct(r)
  {
    forall i, j | 0 <= i < j < |r|
      ensures r[i] != r[j]
    {
      if r[i] == r[j] {
        var x := r[i];
        assert r == r[..j] + r[j..];
        assert x in r[..j] && x in r[j..];
        assert multiset(r)[x] == multiset(r[..j])[x] + multiset(r[j..])[x];
        DistinctCounts(s, x);
        assert false;
      }
    }
  }

  /** Sorting the distinct values of a set yields them strictly ascending. */
  lemma SortedSetStrictlyAscending(s: seq<string>)
    requires Distinct(s)
    ensures var r := StableSort(s, StringOrder());
      StrictlyAscending(r) && multiset(r) == multiset(s)
  {
    var r := StableSort(s, StringOrder());
    StringOrderIsTotalPreorder();
    StableSortSorted(s, StringOrder());
    StableSortPermutes(s, StringOrder());
    PermutationKeepsDistinct(s, r);
    forall i, j | 0 <= i < j < |r|
      ensures CompareStrings(r[i], r[j]) < 0
    {
      assert StringOrder()(r[i], r[j]) <= 0;
      CompareStringsZero(r[i], r[j]);
    }
  }

  /** `Array.from(set).sort()`. */
  method SortSetValues(values: seq<string>) returns (sorted: seq<string>)
    requires Distinct(values)
    ensures StrictlyAscending(sorted)
    ensures forall x :: x in sorted <==> x in values
  {
    var a := new string[|values|](i requires 0 <= i < |values| => values[i]);
    assert a[..] == values;
    SortInPlace(a, StringOrder());
    sorted := a[..];
    SortedSetStrictlyAscending(values);
    assert forall x :: x in sorted <==> x in multiset(sorted);
  }

  /** `product.tags.forEach(tag => tags.add(tag))`. */
  method AddTags(tags: seq<string>, productTags: seq<string>) returns (r: seq<string>)
    requires Distinct(tags)
    ensures Distinct(r)
    ensures forall t :: t in r <==> t in tags || t in productTags
  {
    r := tags;
    var k := 0;
    while k < |productTags|
      invariant 0 <= k <= |productTags|
      invariant Distinct(r)
      invariant forall t :: t in r <==> t in tags || t in productTags[..k]
    {
      r := SetAdd(r, productTags[k]);
      assert productTags[..k + 1] == productTags[..k] + [productTags[k]];
      k := k + 1;
    }
    assert productTags[..k] == productTags;
  }

  /** The set part of the `forEach` callback: a truthy vendor and type, and every tag, are added. */
  method AddFacets(vendors: seq<string>, productTypes: seq<string>, tags: seq<string>, product: Product)
    returns (vendors': seq<string>, productTypes': seq<string>, tags': seq<string>)
    requires Distinct(vendors) && Distinct(productTypes) && Distinct(tags)
    ensures Distinct(vendors') && Distinct(productTypes') && Distinct(tags')
    ensures forall v :: v in vendors' <==> v in vendors || (v != "" && v == product.vendor)
    ensures forall v :: v in productTypes' <==> v in productTypes || (v != "" && v == product.productType)
    ensures forall t :: t in tags' <==> t in tags || t in product.tags
  {
    vendors', productTypes' := vendors, productTypes;
    if product.vendor != "" {
      vendors' := SetAdd(vendors, product.vendor);
    }
    if product.productType != "" {
      productTypes' := SetAdd(productTypes, product.productType);
    }
    tags' := AddTags(tags, product.tags);
  }

  /** `extractFilterOptions(products)`. */
  method ExtractFilterOptions(products: seq<Product>) returns (r: FacetValues)
    ensures StrictlyAscending(r.vendors)
    ensures forall v :: v in r.vendors <==> v != "" && exists j :: 0 <= j < |products| && products[j].vendor == v
    ensures StrictlyAscending(r.productTypes)
    ensures forall v :: v in r.productTypes <==>
      v != "" && exists j :: 0 <= j < |products| && products[j].productType == v
    ensures StrictlyAscending(r.tags)
    ensures forall t :: t in r.tags <==> exists j :: 0 <= j < |products| && t in products[j].tags
    ensures products == [] ==> r.priceRange == PriceSpan(0, 0)
    ensures products != [] ==>
      && (forall j :: 0 <= j < |products| ==> r.priceRange.min <= products[j].price)
      && (exists j :: 0 <= j < |products| && products[j].price == r.priceRange.min)
    ensures 0 <= r.priceRange.max
    ensures forall j :: 0 <= j < |products| ==> products[j].price <= r.priceRange.max
    ensures r.priceRange.max == 0 || exists j :: 0 <= j < |products| && products[j].price == r.priceRange.max
  {
    var vendors: seq<string> := [];
    var productTypes: seq<string> := [];
    var tags: seq<string> := [];
    var minPrice: Option<int> := None;   // None stands for Infinity
    var maxPrice := 0;
    ghost var minAt, maxAt := 0, 0;   // where the current extremes were seen
    var i := 0;
    while i < |products|
      invariant 0 <= i <= |products|
      invariant Distinct(vendors) && Distinct(productTypes) && Distinct(tags)
      invariant forall v :: v in vendors <==> v != "" && exists j :: 0 <= j < i && products[j].vendor == v
      invariant forall v :: v in productTypes <==> v != "" && exists j :: 0 <= j < i && products[j].productType == v
      invariant forall t :: t in tags <==> exists j :: 0 <= j < i && t in products[j].tags
      invariant minPrice.None? <==> i == 0
      invariant minPrice.Some? ==>
        && (forall j :: 0 <= j < i ==> minPrice.value <= products[j].price)
        && 0 <= minAt < i && products[minAt].price == minPrice.value
      invariant 0 <= maxPrice
      invariant forall j :: 0 <= j < i ==> products[j].price <= maxPrice
      invariant maxPrice == 0 || (0 <= maxAt < i && products[maxAt].price == maxPrice)
    {
      var product := products[i];
      vendors, productTypes, tags := AddFacets(vendors, productTypes, tags, product);
      var price := product.price;
      if minPrice.None? || price < minPrice.value {
        minPrice, minAt := Some(price), i;
      }
      if price > maxPrice {
        maxPrice, maxAt := price, i;
      }
      i := i + 1;
    }
    assert minPrice.Some? ==> products[minAt].price == minPrice.value;
    assert maxPrice == 0 || products[maxAt].price == maxPrice;
    var sortedVendors := SortSetValues(vendors);
    var sortedTypes := SortSetValues(productTypes);
    var sortedTags := SortSetValues(tags);
    r := FacetValues(sortedVendors, sortedTypes, sortedTags,
                     PriceSpan(if minPrice.None? then 0 else minPrice.value, maxPrice));
  }
}
