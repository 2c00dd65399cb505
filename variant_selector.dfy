/**
 * The availability rule of components/variant-selector.tsx.  A value of an
 * option is offered when some variant carries it, is for sale and agrees
 * with every other current selection; the selector is hidden when there is
 * no choice to make, and a value button is disabled when unavailable.
 */
module VariantSelector {
  import opened Types

  /** `variant.selectedOptions.some(opt => opt.name === name && opt.value === value)`. */
  predicate HasOption(variant: Variant, name: string, value: string) {
    exists j :: 0 <= j < |variant.selectedOptions| && variant.selectedOptions[j] == SelectedOption(name, value)
  }

  /** Every current selection other than one for `optionName` is carried by the variant. */
  predicate MatchesOtherOptions(variant: Variant, selected: map<string, string>, optionName: string) {
    forall name | name in selected :: name == optionName || HasOption(variant, name, selected[name])
  }

  /** The callback of `variants.some` in `isOptionAvailable`. */
  predicate Offers(variant: Variant, selected: map<string, string>, optionName: string, optionValue: string) {
    HasOption(variant, optionName, optionValue)
    && MatchesOtherOptions(variant, selected, optionName)
    && variant.availableForSale
  }

  /** `isOptionAvailable(optionName, optionValue)`, as the `some` over the variants. */
  predicate IsOptionAvailable(variants: seq<Variant>, selected: map<string, string>, optionName: string, optionValue: string) {
    && variants != []
    && (|| Offers(variants[0], selected, optionName, optionValue)
        || IsOptionAvailable(variants[1..], selected, optionName, optionValue))
  }

  /** A value is available iff some variant has it, is for sale and carries the other selections. */
  lemma {:induction false} AvailableIffSomeVariant(variants: seq<Variant>, selected: map<string, string>, n: string, v: string)
    ensures IsOptionAvailable(variants, selected, n, v) <==>
      exists i :: 0 <= i < |variants| && HasOption(variants[i], n, v) && variants[i].availableForSale
        && forall name | name in selected && name != n :: HasOption(variants[i], name, selected[name])
  {
    if variants != [] {
      AvailableIffSomeVariant(variants[1..], selected, n, v);
      assert forall i :: 0 < i < |variants| ==> variants[i] == variants[1..][i - 1];
    }
  }

  /** A selection already made for the same option is ignored. */
  lemma {:induction false} OwnSelectionIgnored(variants: seq<Variant>, selected: map<string, string>, n: string, v: string, w: string)
    ensures IsOptionAvailable(variants, selected[n := w], n, v) == IsOptionAvailable(variants, selected - {n}, n, v)
  {
    if variants != [] {
      OwnSelectionIgnored(variants[1..], selected, n, v, w);
      var x := variants[0];
      var with, without := selected[n := w], selected - {n};
      assert forall name :: name != n ==> (name in with <==> name in without);
      assert forall name | name != n && name in with :: with[name] == without[name];
      assert MatchesOtherOptions(x, with, n) == MatchesOtherOptions(x, without, n);
    }
  }

  /** Withdrawing selections never makes an available value unavailable. */
  lemma {:induction false} FewerSelectionsStayAvailable(variants: seq<Variant>, selected: map<string, string>, fewer: map<string, string>, n: string, v: string)
    requires fewer.Keys <= selected.Keys && forall k | k in fewer :: fewer[k] == selected[k]
    requires IsOptionAvailable(variants, selected, n, v)
    ensures IsOptionAvailable(variants, fewer, n, v)
  {
    if !Offers(variants[0], selected, n, v) {
      FewerSelectionsStayAvailable(variants[1..], selected, fewer, n, v);
    }
  }

  /** When nothing is for sale, no value is available. */
  lemma {:induction false} NothingForSaleNothingAvailable(variants: seq<Variant>, selected: map<string, string>, n: string, v: string)
    requires forall i :: 0 <= i < |variants| ==> !variants[i].availableForSale
    ensures !IsOptionAvailable(variants, selected, n, v)
  {
    if variants != [] {
      NothingForSaleNothingAvailable(variants[1..], selected, n, v);
    }
  }

  /** One rendered value button. */
  datatype Button = Button(name: string, value: string, isSelected: bool, disabled: bool)

  /** The selector renders nothing: no options, or one option with one value. */
  predicate Hidden(options: seq<ProductOption>) {
    |options| == 0 || (|options| == 1 && |options[0].values| == 1)
  }

  function OptionButtons(option: ProductOption, values: seq<string>, variants: seq<Variant>, selected: map<string, string>): (r: seq<Button>)
    ensures |r| == |values|
    ensures forall k :: 0 <= k < |r| ==> r[k] == Button(option.name, values[k],
      option.name in selected && selected[option.name] == values[k],
      !IsOptionAvailable(variants, selected, option.name, values[k]))
  {
    if values == [] then []
    else
      var value := values[0];
      var isSelected := option.name in selected && selected[option.name] == value;
      [Button(option.name, value, isSelected, !IsOptionAvailable(variants, selected, option.name, value))]
        + OptionButtons(option, values[1..], variants, selected)
  }

  /** The buttons of all options, in order: one per value, disabled iff the value is unavailable. */
  function AllButtons(options: seq<ProductOption>, variants: seq<Variant>, selected: map<string, string>): (r: seq<Button>)
    ensures |r| == TotalValues(options)
    ensures forall k :: 0 <= k < |r| ==> (r[k].disabled <==> !IsOptionAvailable(variants, selected, r[k].name, r[k].value))
  {
    if options == [] then []
    else OptionButtons(options[0], options[0].values, variants, selected) + AllButtons(options[1..], variants, selected)
  }

  /** The number of values over all options. */
  function TotalValues(options: seq<ProductOption>): nat {
    if options == [] then 0 else |options[0].values| + TotalValues(options[1..])
  }

  /** The value buttons `VariantSelector` renders: none when hidden, else one per value. */
  function RenderedButtons(options: seq<ProductOption>, variants: seq<Variant>, selected: map<string, string>): (r: seq<Button>)
    ensures Hidden(options) ==> r == []
    ensures !Hidden(options) ==> |r| == TotalValues(options)
    ensures forall k :: 0 <= k < |r| ==> (r[k].disabled <==> !IsOptionAvailable(variants, selected, r[k].name, r[k].value))
  {
    if Hidden(options) then [] else AllButtons(options, variants, selected)
  }
}
