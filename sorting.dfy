/**
 * The sort engine of lib/shopify/sorting.ts.  `sortProducts` copies the
 * product list and sorts the copy in place with `Array.prototype.sort`,
 * which is stable; the `switch` only picks the comparator.  The sort is
 * modelled as a stable insertion sort driven by a JavaScript-style
 * comparator (negative: first argument goes first), specified by the
 * function `StableSort`.
 */
module Sorting {
  import opened Wrappers
  import opened Types
  import opened JsText

  // ------------------------------------------------------ comparator sorts

  /** `cmp` orders its type totally, up to ties, as a sort comparator must. */
  ghost predicate TotalPreorder<T(!new)>(cmp: (T, T) -> int) {
    && (forall a, b :: cmp(a, b) <= 0 || cmp(b, a) <= 0)
    && (forall a, b, c {:trigger cmp(a, b), cmp(b, c), cmp(a, c)} :: cmp(a, b) <= 0 && cmp(b, c) <= 0 ==> cmp(a, c) <= 0)
  }

  /** No element is out of order: each may stay before every later one. */
  ghost predicate SortedBy<T>(s: seq<T>, cmp: (T, T) -> int) {
    forall i, j :: 0 <= i < j < |s| ==> cmp(s[i], s[j]) <= 0
  }

  /** Inserts `x` after the last element that does not compare above it. */
  function Insert<T>(s: seq<T>, x: T, cmp: (T, T) -> int): seq<T>
    decreases |s|
  {
    if s == [] || cmp(s[|s| - 1], x) <= 0 then s + [x]
    else Insert(s[..|s| - 1], x, cmp) + [s[|s| - 1]]
  }

  /** The stable sort of `s`: each element inserted in input order. */
  function StableSort<T>(s: seq<T>, cmp: (T, T) -> int): seq<T>
    decreases |s|
  {
    if s == [] then [] else Insert(StableSort(s[..|s| - 1], cmp), s[|s| - 1], cmp)
  }

  /** The elements of `s` that tie with `y`, in their order in `s`. */
  function Ties<T>(s: seq<T>, y: T, cmp: (T, T) -> int): seq<T>
    decreases |s|
  {
    if s == [] then []
    else
      var last := s[|s| - 1];
      Ties(s[..|s| - 1], y, cmp) + (if cmp(last, y) == 0 && cmp(y, last) == 0 then [last] else [])
  }

  lemma {:induction false} InsertPermutes<T>(s: seq<T>, x: T, cmp: (T, T) -> int)
    ensures multiset(Insert(s, x, cmp)) == multiset(s) + multiset{x}
    decreases |s|
  {
    if s != [] && cmp(s[|s| - 1], x) > 0 {
      InsertPermutes(s[..|s| - 1], x, cmp);
      assert s == s[..|s| - 1] + [s[|s| - 1]];
    }
  }

  /** The sorted list is a permutation of the input. */
  lemma {:induction false} StableSortPermutes<T>(s: seq<T>, cmp: (T, T) -> int)
    ensures multiset(StableSort(s, cmp)) == multiset(s)
    decreases |s|
  {
    if s != [] {
      StableSortPermutes(s[..|s| - 1], cmp);
      InsertPermutes(StableSort(s[..|s| - 1], cmp), s[|s| - 1], cmp);
      assert s == s[..|s| - 1] + [s[|s| - 1]];
    }
  }

  lemma {:induction false} InsertSorted<T(!new)>(s: seq<T>, x: T, cmp: (T, T) -> int)
    requires TotalPreorder(cmp) && SortedBy(s, cmp)
    ensures SortedBy(Insert(s, x, cmp), cmp)
    decreases |s|
  {
    if s != [] && cmp(s[|s| - 1], x) > 0 {
      var init := s[..|s| - 1];
      var last := s[|s| - 1];
      InsertPermutes(init, x, cmp);
      InsertSorted(init, x, cmp);
      var r := Insert(init, x, cmp);
      // every element of r is x or an element of init, and all of them may precede last
      forall i | 0 <= i < |r|
        ensures cmp(r[i], last) <= 0
      {
        assert r[i] in multiset(r);
        assert r[i] == x || r[i] in multiset(init);
        if r[i] != x {
          var k :| 0 <= k < |init| && init[k] == r[i];
          assert s[k] == r[i];
        }
      }
    }
  }

  /** The sorted list never puts an element before one the comparator ranks lower. */
  lemma {:induction false} StableSortSorted<T(!new)>(s: seq<T>, cmp: (T, T) -> int)
    requires TotalPreorder(cmp)
    ensures SortedBy(StableSort(s, cmp), cmp)
    decreases |s|
  {
    if s != [] {
      StableSortSorted(s[..|s| - 1], cmp);
      InsertSorted(StableSort(s[..|s| - 1], cmp), s[|s| - 1], cmp);
    }
  }

  lemma {:induction false} TiesOfAppend<T>(s: seq<T>, x: T, y: T, cmp: (T, T) -> int)
    ensures Ties(s + [x], y, cmp) == Ties(s, y, cmp) + Ties([x], y, cmp)
  {
    assert (s + [x])[..|s + [x]| - 1] == s;
  }

  lemma {:induction false} InsertKeepsTies<T(!new)>(s: seq<T>, x: T, y: T, cmp: (T, T) -> int)
    requires TotalPreorder(cmp)
    ensures Ties(Insert(s, x, cmp), y, cmp) == Ties(s, y, cmp) + Ties([x], y, cmp)
    decreases |s|
  {
    if s == [] || cmp(s[|s| - 1], x) <= 0 {
      TiesOfAppend(s, x, y, cmp);
    } else {
      var init := s[..|s| - 1];
      var last := s[|s| - 1];
      var inserted := Insert(init, x, cmp);
      assert Insert(s, x, cmp) == inserted + [last];
      InsertKeepsTies(init, x, y, cmp);
      TiesOfAppend(inserted, last, y, cmp);
      assert s == init + [last];
      TiesOfAppend(init, last, y, cmp);
      NotBothTie(x, last, y, cmp);
    }
  }

  /** `x` and an element that must follow it cannot both tie with the same `y`. */
  lemma NotBothTie<T(!new)>(x: T, last: T, y: T, cmp: (T, T) -> int)
    requires TotalPreorder(cmp)
    requires cmp(last, x) > 0
    ensures Ties([x], y, cmp) == [] || Ties([last], y, cmp) == []
  {
    assert Ties([x], y, cmp) == Ties([], y, cmp) + (if cmp(x, y) == 0 && cmp(y, x) == 0 then [x] else []);
    assert Ties([last], y, cmp) == Ties([], y, cmp) + (if cmp(last, y) == 0 && cmp(y, last) == 0 then [last] else []);
  }

  /** Stability: the elements that tie with any `y` keep their input order. */
  lemma {:induction false} StableSortKeepsTies<T(!new)>(s: seq<T>, y: T, cmp: (T, T) -> int)
    requires TotalPreorder(cmp)
    ensures Ties(StableSort(s, cmp), y, cmp) == Ties(s, y, cmp)
    decreases |s|
  {
    if s != [] {
      var init := s[..|s| - 1];
      var last := s[|s| - 1];
      var sortedInit := StableSort(init, cmp);
      assert StableSort(s, cmp) == Insert(sortedInit, last, cmp);
      StableSortKeepsTies(init, y, cmp);
      InsertKeepsTies(sortedInit, last, y, cmp);
      assert Ties(s, y, cmp) == Ties(init, y, cmp) + Ties([last], y, cmp) by {
        assert [last][..0] == [];
      }
    }
  }

  /** Inserting `x` puts it at `k` when everything from `k` on compares above it and `s[k - 1]` does not. */
  lemma {:induction false} InsertSplit<T>(s: seq<T>, x: T, k: int, cmp: (T, T) -> int)
    requires 0 <= k <= |s|
    requires k == 0 || cmp(s[k - 1], x) <= 0
    requires forall t :: k <= t < |s| ==> cmp(s[t], x) > 0
    ensures Insert(s, x, cmp) == s[..k] + [x] + s[k..]
    decreases |s|
  {
    if k == |s| {
      assert s[..k] == s && s[k..] == [];
    } else {
      var init := s[..|s| - 1];
      var last := s[|s| - 1];
      assert cmp(last, x) > 0;
      assert Insert(s, x, cmp) == Insert(init, x, cmp) + [last];
      InsertSplit(init, x, k, cmp);
      assert init[..k] == s[..k];
      assert init[k..] + [last] == s[k..];
    }
  }

  /** Inserting the next input element into the sorted prefix sorts one element more. */
  lemma SortStep<T>(input: seq<T>, i: int, k: int, cmp: (T, T) -> int)
    requires 0 <= i < |input|
    requires var prefix := StableSort(input[..i], cmp);
      && |prefix| == i && 0 <= k <= i
      && (k == 0 || cmp(prefix[k - 1], input[i]) <= 0)
      && (forall t :: k <= t < i ==> cmp(prefix[t], input[i]) > 0)
    ensures var prefix := StableSort(input[..i], cmp);
      prefix[..k] + [input[i]] + prefix[k..] == StableSort(input[..i + 1], cmp)
  {
    var prefix := StableSort(input[..i], cmp);
    InsertSplit(prefix, input[i], k, cmp);
    assert input[..i + 1][..i] == input[..i] && input[..i + 1][i] == input[i];
  }

  /**
   * One pass of insertion: moves the elements of the sorted prefix `a[..i]`
   * that compare above `a[i]` one place right and puts `a[i]` into the gap,
   * at `k`; `InsertSplit` shows this is `Insert`.
   */
  method InsertAt<T>(a: array<T>, i: int, cmp: (T, T) -> int) returns (k: int)
    requires 0 <= i < a.Length
    modifies a
    ensures 0 <= k <= i
    ensures k == 0 || cmp(old(a[..i])[k - 1], old(a[i])) <= 0
    ensures forall t :: k <= t < i ==> cmp(old(a[..i])[t], old(a[i])) > 0
    ensures a[..i + 1] == old(a[..i])[..k] + [old(a[i])] + old(a[..i])[k..]
    ensures a[i + 1..] == old(a[i + 1..])
  {
    ghost var sorted := a[..i];
    var x := a[i];
    k := i;
    while k > 0 && cmp(a[k - 1], x) > 0
      invariant 0 <= k <= i
      invariant forall t :: 0 <= t < k ==> a[t] == sorted[t]
      invariant forall t :: k < t <= i ==> a[t] == sorted[t - 1]
      invariant forall t :: i < t < a.Length ==> a[t] == old(a[t])
      invariant forall t :: k <= t < i ==> cmp(sorted[t], x) > 0
    {
      a[k] := a[k - 1];
      k := k - 1;
    }
    a[k] := x;
    assert a[..i + 1] == sorted[..k] + [x] + sorted[k..] by {
      assert forall t :: 0 <= t <= i ==> a[..i + 1][t] == (sorted[..k] + [x] + sorted[k..])[t];
    }
  }

  /** `array.sort(cmp)`: sorts `a` in place, stably. */
  method SortInPlace<T>(a: array<T>, cmp: (T, T) -> int)
    modifies a
    ensures a[..] == StableSort(old(a[..]), cmp)
  {
    ghost var input := a[..];
    var i := 0;
    while i < a.Length
      invariant 0 <= i <= a.Length
      invariant a[..i] == StableSort(input[..i], cmp)
      invariant a[i..] == input[i..]
    {
      assert a[i] == input[i] by { assert a[i] == a[i..][0]; }
      assert a[i + 1..] == input[i + 1..] by {
        assert a[i + 1..] == a[i..][1..] && input[i + 1..] == input[i..][1..];
      }
      var k := InsertAt(a, i, cmp);
      SortStep(input, i, k, cmp);
      i := i + 1;
    }
    assert a[..] == a[..a.Length] && input == input[..a.Length];
  }

  // ------------------------------------------------------- the sort options

  /** The six orders `sortProducts` knows besides `featured`. */
  datatype Order = PriceAsc | PriceDesc | TitleAsc | TitleDesc | CreatedDesc | CreatedAsc

  /** One entry of `SORT_OPTIONS`. */
  datatype SortConfig = SortConfig(value: string, labelText: string)

  /** The values of the `SortOption` string union. */
  predicate IsSortOption(s: string) {
    s in {"featured", "price-asc", "price-desc", "title-asc", "title-desc", "created-desc", "created-asc"}
  }

  const SORT_OPTIONS: seq<SortConfig> := [
    SortConfig("featured", "Featured"),
    SortConfig("price-asc", "Price: Low to High"),
    SortConfig("price-desc", "Price: High to Low"),
    SortConfig("title-asc", "Name: A to Z"),
    SortConfig("title-desc", "Name: Z to A"),
    SortConfig("created-desc", "Newest"),
    SortConfig("created-asc", "Oldest")
  ]

  /** Every sort option is offered exactly once, `featured` first. */
  lemma SortOptionsListEachOnce()
    ensures SORT_OPTIONS[0].value == "featured"
    ensures forall i :: 0 <= i < |SORT_OPTIONS| ==> IsSortOption(SORT_OPTIONS[i].value)
    ensures forall s :: IsSortOption(s) ==> exists i :: 0 <= i < |SORT_OPTIONS| && SORT_OPTIONS[i].value == s
    ensures forall i, j :: 0 <= i < j < |SORT_OPTIONS| ==> SORT_OPTIONS[i].value != SORT_OPTIONS[j].value
    ensures forall i :: 0 <= i < |SORT_OPTIONS| ==> SORT_OPTIONS[i].labelText != ""
  {
    forall s | IsSortOption(s)
      ensures exists i :: 0 <= i < |SORT_OPTIONS| && SORT_OPTIONS[i].value == s
    {
      if s == "featured" { assert SORT_OPTIONS[0].value == s; }
      else if s == "price-asc" { assert SORT_OPTIONS[1].value == s; }
      else if s == "price-desc" { assert SORT_OPTIONS[2].value == s; }
      else if s == "title-asc" { assert SORT_OPTIONS[3].value == s; }
      else if s == "title-desc" { assert SORT_OPTIONS[4].value == s; }
      else if s == "created-desc" { assert SORT_OPTIONS[5].value == s; }
      else { assert SORT_OPTIONS[6].value == s; }
    }
  }

  /** The `switch` of `sortProducts`: `featured` and every other string pick no comparator. */
  function OrderOf(sortOption: string): (r: Option<Order>)
    ensures r.None? <==> sortOption == "featured" || !IsSortOption(sortOption)
  {
    match sortOption
    case "price-asc" => Some(PriceAsc)
    case "price-desc" => Some(PriceDesc)
    case "title-asc" => Some(TitleAsc)
    case "title-desc" => Some(TitleDesc)
    case "created-desc" => Some(CreatedDesc)
    case "created-asc" => Some(CreatedAsc)
    case _ => None
  }

  /** The comparator each order passes to `sort`. */
  function Compare(order: Order, a: Product, b: Product): int {
    match order
    case PriceAsc => a.price - b.price
    case PriceDesc => b.price - a.price
    case TitleAsc => CompareStrings(a.title, b.title)
    case TitleDesc => CompareStrings(b.title, a.title)
    case CreatedDesc => b.createdAt - a.createdAt
    case CreatedAsc => a.createdAt - b.createdAt
  }

  function Comparator(order: Order): (Product, Product) -> int {
    (a: Product, b: Product) => Compare(order, a, b)
  }

  /** Every comparator of the switch is a valid sort comparator. */
  lemma ComparatorIsTotalPreorder(order: Order)
    ensures TotalPreorder(Comparator(order))
  {
    var cmp := Comparator(order);
    if order == TitleAsc || order == TitleDesc {
      forall a: Product, b: Product
        ensures cmp(a, b) <= 0 || cmp(b, a) <= 0
      {
        CompareStringsAntisymmetric(a.title, b.title);
      }
      forall a: Product, b: Product, c: Product | cmp(a, b) <= 0 && cmp(b, c) <= 0
        ensures cmp(a, c) <= 0
      {
        if order == TitleAsc {
          CompareStringsTransitive(a.title, b.title, c.title);
        } else {
          CompareStringsTransitive(c.title, b.title, a.title);
        }
      }
    }
  }

  /** `sortProducts`: a sorted copy for the six orders, the input order otherwise. */
  method SortProducts(products: seq<Product>, sortOption: string) returns (sorted: seq<Product>)
    ensures OrderOf(sortOption).None? ==> sorted == products
    ensures OrderOf(sortOption).Some? ==> sorted == StableSort(products, Comparator(OrderOf(sortOption).value))
    ensures sorted == SortedProducts(products, sortOption)
  {
    var copy := new Product[|products|](i requires 0 <= i < |products| => products[i]);
    assert copy[..] == products;
    var order := OrderOf(sortOption);
    if order.Some? {
      SortInPlace(copy, Comparator(order.value));
    }
    sorted := copy[..];
  }

  /** What it means for `a` to come before `b` under each order. */
  predicate InOrder(order: Order, a: Product, b: Product) {
    match order
    case PriceAsc => a.price <= b.price
    case PriceDesc => a.price >= b.price
    case TitleAsc => CompareStrings(a.title, b.title) <= 0
    case TitleDesc => CompareStrings(a.title, b.title) >= 0
    case CreatedDesc => a.createdAt >= b.createdAt     // newest first
    case CreatedAsc => a.createdAt <= b.createdAt      // oldest first
  }

  /** The list `sortProducts(products, sortOption)` returns. */
  function SortedProducts(products: seq<Product>, sortOption: string): seq<Product> {
    if OrderOf(sortOption).Some? then StableSort(products, Comparator(OrderOf(sortOption).value)) else products
  }

  /** `price-asc` returns the cheapest first, `price-desc` the dearest first. */
  lemma PriceOptionsMeaning(products: seq<Product>)
    ensures var r := SortedProducts(products, "price-asc");
      forall i, j :: 0 <= i < j < |r| ==> r[i].price <= r[j].price
    ensures var r := SortedProducts(products, "price-desc");
      forall i, j :: 0 <= i < j < |r| ==> r[i].price >= r[j].price
  {
    OptionSorted(products, "price-asc", PriceAsc);
    OptionSorted(products, "price-desc", PriceDesc);
  }

  /** `title-asc` and `title-desc` return the titles in opposite directions. */
  lemma TitleOptionsMeaning(products: seq<Product>)
    ensures var r := SortedProducts(products, "title-asc");
      forall i, j :: 0 <= i < j < |r| ==> CompareStrings(r[i].title, r[j].title) <= 0
    ensures var r := SortedProducts(products, "title-desc");
      forall i, j :: 0 <= i < j < |r| ==> CompareStrings(r[i].title, r[j].title) >= 0
  {
    OptionSorted(products, "title-asc", TitleAsc);
    OptionSorted(products, "title-desc", TitleDesc);
  }

  /** `created-desc` returns the newest first, `created-asc` the oldest first. */
  lemma CreatedOptionsMeaning(products: seq<Product>)
    ensures var r := SortedProducts(products, "created-desc");
      forall i, j :: 0 <= i < j < |r| ==> r[i].createdAt >= r[j].createdAt
    ensures var r := SortedProducts(products, "created-asc");
      forall i, j :: 0 <= i < j < |r| ==> r[i].createdAt <= r[j].createdAt
  {
    OptionSorted(products, "created-desc", CreatedDesc);
    OptionSorted(products, "created-asc", CreatedAsc);
  }

  /** Every sort string returns the same products; `featured` and unknown strings return them as given. */
  lemma SortOptionKeepsProducts(products: seq<Product>, sortOption: string)
    ensures multiset(SortedProducts(products, sortOption)) == multiset(products)
    ensures sortOption == "featured" || !IsSortOption(sortOption) ==> SortedProducts(products, sortOption) == products
  {
    if OrderOf(sortOption).Some? {
      SortedByOrder(products, OrderOf(sortOption).value);
    }
  }

  /** A sort string that selects `order` returns the list in that order. */
  lemma OptionSorted(products: seq<Product>, sortOption: string, order: Order)
    requires OrderOf(sortOption) == Some(order)
    ensures var r := SortedProducts(products, sortOption);
      forall i, j :: 0 <= i < j < |r| ==> InOrder(order, r[i], r[j])
  {
    SortedByOrder(products, order);
  }

  /** The meaning of each order for the list `sortProducts` returns. */
  lemma SortedByOrder(products: seq<Product>, order: Order)
    ensures var r := StableSort(products, Comparator(order));
      && multiset(r) == multiset(products)
      && forall i, j :: 0 <= i < j < |r| ==> InOrder(order, r[i], r[j])
  {
    var r := StableSort(products, Comparator(order));
    ComparatorIsTotalPreorder(order);
    StableSortSorted(products, Comparator(order));
    StableSortPermutes(products, Comparator(order));
    forall i, j | 0 <= i < j < |r|
      ensures InOrder(order, r[i], r[j])
    {
      assert Comparator(order)(r[i], r[j]) <= 0;
      CompareStringsAntisymmetric(r[i].title, r[j].title);
    }
  }

  /** Products that tie under an order come out in their input order. */
  lemma SortKeepsTiedInputOrder(products: seq<Product>, order: Order, y: Product)
    ensures Ties(StableSort(products, Comparator(order)), y, Comparator(order)) == Ties(products, y, Comparator(order))
  {
    ComparatorIsTotalPreorder(order);
    StableSortKeepsTies(products, y, Comparator(order));
  }
}
