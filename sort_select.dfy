/**
 * The parameter side of components/sort-select.tsx: `handleSortChange`
 * rewrites `sort` on a copy of the query parameters, and the label shown is
 * looked up in `SORT_OPTIONS`.
 */
module SortSelect {
  import opened Wrappers
  import opened Sorting
  import opened UrlUtils
  import FilterPanel

  /** The parameters `handleSortChange(newSort)` navigates to. */
  function SortParams(params: Params, newSort: string): Params {
    if newSort == "featured" then params - {"sort"} else params["sort" := newSort]
  }

  /** `handleSortChange(newSort)`: `featured` deletes `sort`, any other choice sets it. */
  method HandleSortChange(searchParams: Params, newSort: string) returns (params: Params)
    ensures params == SortParams(searchParams, newSort)
  {
    params := searchParams;
    if newSort == "featured" {
      params := params - {"sort"};
    } else {
      params := params["sort" := newSort];
    }
  }

  /**
   * Choosing a sort and parsing the parameters gives that sort back
   * (`featured` through the absent key); every other parameter, and so
   * every decoded filter, is untouched.
   */
  lemma SortChangeRoundTrip(params: Params, newSort: string)
    ensures Decode(SortParams(params, newSort)).sort == (if newSort == "" then "featured" else newSort)
    ensures newSort == "featured" ==> "sort" !in SortParams(params, newSort)
    ensures forall k :: k != "sort" ==> FilterPanel.SameEntry(SortParams(params, newSort), params, k)
    ensures Decode(SortParams(params, newSort)).filters == Decode(params).filters
  {
    var r := SortParams(params, newSort);
    assert forall k :: k != "sort" ==> FilterPanel.SameEntry(r, params, k);
    FiltersIgnoreSort(r, params);
  }

  /** The decoded filters read only filter keys, so two queries that differ at most in `sort` decode to the same filters. */
  lemma FiltersIgnoreSort(a: Params, b: Params)
    requires forall k :: k != "sort" ==> FilterPanel.SameEntry(a, b, k)
    ensures Decode(a).filters == Decode(b).filters
  {
    assert FilterPanel.SameEntry(a, b, "min_price") && FilterPanel.SameEntry(a, b, "max_price");
    assert FilterPanel.SameEntry(a, b, "vendors") && FilterPanel.SameEntry(a, b, "types");
    assert FilterPanel.SameEntry(a, b, "tags") && FilterPanel.SameEntry(a, b, "in_stock");
  }

  /** `options[i]` is the first entry whose value is `value`. */
  predicate FirstMatch(options: seq<SortConfig>, value: string, i: int) {
    0 <= i < |options| && options[i].value == value && forall j :: 0 <= j < i ==> options[j].value != value
  }

  /** `options.find(option => option.value === value)?.label`. */
  function FindLabel(options: seq<SortConfig>, value: string): (r: Option<string>)
    ensures r.None? <==> forall i :: 0 <= i < |options| ==> options[i].value != value
    ensures r.Some? ==> exists i :: FirstMatch(options, value, i) && r.value == options[i].labelText
  {
    if options == [] then None
    else if options[0].value == value then
      assert FirstMatch(options, value, 0);
      Some(options[0].labelText)
    else
      var rest := FindLabel(options[1..], value);
      if rest.None? then rest
      else
        var i :| FirstMatch(options[1..], value, i) && rest.value == options[1..][i].labelText;
        assert FirstMatch(options, value, i + 1);
        rest
  }

  /** The label shown for the current sort, `featured` when none is given. */
  function CurrentSortLabel(currentSort: Option<string>): string {
    var found := FindLabel(SORT_OPTIONS, currentSort.GetOr("featured"));
    if found.Some? && found.value != "" then found.value else "Featured"
  }

  /** The label is the matching entry's, and "Featured" for no sort or an unknown one. */
  lemma CurrentSortLabelMatches(currentSort: Option<string>)
    ensures forall i :: 0 <= i < |SORT_OPTIONS| && SORT_OPTIONS[i].value == currentSort.GetOr("featured") ==>
      CurrentSortLabel(currentSort) == SORT_OPTIONS[i].labelText
    ensures !IsSortOption(currentSort.GetOr("featured")) ==> CurrentSortLabel(currentSort) == "Featured"
    ensures currentSort.None? ==> CurrentSortLabel(currentSort) == "Featured"
  {
    SortOptionsListEachOnce();
    var value := currentSort.GetOr("featured");
    var found := FindLabel(SORT_OPTIONS, value);
    forall i | 0 <= i < |SORT_OPTIONS| && SORT_OPTIONS[i].value == value
      ensures CurrentSortLabel(currentSort) == SORT_OPTIONS[i].labelText
    {
      var m :| FirstMatch(SORT_OPTIONS, value, m) && found.value == SORT_OPTIONS[m].labelText;
      assert m == i;
    }
    if !IsSortOption(value) {
      assert forall i :: 0 <= i < |SORT_OPTIONS| ==> SORT_OPTIONS[i].value != value;
    }
  }
}
