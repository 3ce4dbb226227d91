/**
 * The dropdown multi-select used by the onboarding form: a toggle with an
 * optional cap on the number of selected values, a search box over the
 * option labels and the chips of the selected options.
 */
module SimpleMultiSelect {
  import opened Wrappers
  import opened Text
  import opened Seqs
  import opened SelectOptions

  /**
   * `!maxSelections`: no cap when the prop is absent or zero (a falsy
   * number). Any other number, negative ones included, is a cap.
   */
  predicate Uncapped(maxSelections: Option<int>) {
    maxSelections.None? || maxSelections.value == 0
  }

  /** There is room for one more value. */
  predicate HasRoom(selected: seq<string>, maxSelections: Option<int>) {
    Uncapped(maxSelections) || |selected| < maxSelections.value
  }

  /** `handleSelect`: a selected value is removed; an unselected one is appended if there is room. */
  function HandleSelect(selected: seq<string>, value: string, maxSelections: Option<int>): (r: seq<string>)
    ensures value in selected ==> value !in r && IsSubsequence(r, selected)
    ensures value in selected ==> forall i :: 0 <= i < |selected| && selected[i] != value ==> selected[i] in r
    ensures value in selected ==> multiset(r) == multiset(selected)[value := 0]
    ensures value !in selected && HasRoom(selected, maxSelections) ==> r == selected + [value]
    ensures value !in selected && !HasRoom(selected, maxSelections) ==> r == selected
  {
    if value in selected then RemoveAll(selected, value)
    else if HasRoom(selected, maxSelections) then selected + [value]
    else selected
  }

  /**
   * A cap that holds before a select holds after it. A cap of zero is falsy,
   * so it caps nothing: selecting into an empty list then yields one value.
   */
  lemma SelectKeepsCap(selected: seq<string>, value: string, m: int)
    requires m != 0 && |selected| <= m
    ensures |HandleSelect(selected, value, Some(m))| <= m
  {
  }

  /** Selecting an unselected value twice, with room for it, restores the list. */
  lemma SelectTwiceRestores(selected: seq<string>, value: string, maxSelections: Option<int>)
    requires value !in selected && HasRoom(selected, maxSelections)
    ensures HandleSelect(HandleSelect(selected, value, maxSelections), value, maxSelections) == selected
  {
    RemoveAfterAppend(selected, value);
    RemoveAbsent(selected, value);
  }

  /** `handleRemove`: every occurrence of the value is removed. */
  function HandleRemove(selected: seq<string>, value: string): (r: seq<string>)
    ensures value !in r && IsSubsequence(r, selected)
    ensures forall i :: 0 <= i < |selected| && selected[i] != value ==> selected[i] in r
    ensures multiset(r) == multiset(selected)[value := 0]
  {
    RemoveAll(selected, value)
  }

  /** `maxSelections = 0` does not cap: the first value is still added. */
  lemma ZeroCapIsNoCap(value: string)
    ensures HandleSelect([], value, Some(0)) == [value]
  {
  }

  /** Removing a chip is selecting its (selected) value again. */
  lemma RemoveIsDeselect(selected: seq<string>, value: string, maxSelections: Option<int>)
    requires value in selected
    ensures HandleRemove(selected, value) == HandleSelect(selected, value, maxSelections)
  {
  }

  /** The filter callback of `filteredOptions`. */
  function LabelMatches(searchTerm: string): SelectOption -> bool {
    (o: SelectOption) => Contains(Lower(o.labelText), Lower(searchTerm))
  }

  /** `filteredOptions`: the options whose lower-cased label contains the lower-cased term. */
  function FilteredOptions(options: seq<SelectOption>, searchTerm: string): (r: seq<SelectOption>)
    ensures IsSubsequence(r, options)
    ensures forall i :: 0 <= i < |r| ==> Contains(Lower(r[i].labelText), Lower(searchTerm))
    ensures forall i :: 0 <= i < |options| && Contains(Lower(options[i].labelText), Lower(searchTerm)) ==>
              options[i] in r
    ensures forall o :: multiset(r)[o] ==
              if Contains(Lower(o.labelText), Lower(searchTerm)) then multiset(options)[o] else 0
  {
    FilterIsSubsequence(options, LabelMatches(searchTerm));
    FilterCounts(options, LabelMatches(searchTerm));
    Filter(options, LabelMatches(searchTerm))
  }

  /** An empty search term lists every option. */
  lemma EmptyTermListsAll(options: seq<SelectOption>)
    ensures FilteredOptions(options, "") == options
  {
    forall o | o in options ensures LabelMatches("")(o) {
      ContainsEmpty(Lower(o.labelText));
    }
    FilterKeepsAll(options, LabelMatches(""));
  }

  /** The filter callback `option => selected.includes(option.value)`. */
  function IsChosen(selected: seq<string>): SelectOption -> bool {
    (o: SelectOption) => o.value in selected
  }

  /** `selectedOptions`: the options whose value is selected, in option order. */
  function SelectedOptions(options: seq<SelectOption>, selected: seq<string>): (r: seq<SelectOption>)
    ensures IsSubsequence(r, options)
    ensures forall i :: 0 <= i < |r| ==> r[i].value in selected && r[i] in options
    ensures forall i :: 0 <= i < |options| && options[i].value in selected ==> options[i] in r
  {
    FilterIsSubsequence(options, IsChosen(selected));
    Filter(options, IsChosen(selected))
  }

  /** The chips follow option order, not the order in which values were selected. */
  lemma ChipsFollowOptionOrder(a: SelectOption, b: SelectOption)
    ensures SelectedOptions([a, b], [b.value, a.value]) == [a, b]
  {
    FilterKeepsAll([a, b], IsChosen([b.value, a.value]));
  }

  /** `isDisabled`: unselected, a cap is set, and the selection is full. */
  predicate IsDisabled(selected: seq<string>, value: string, maxSelections: Option<int>) {
    value !in selected && !Uncapped(maxSelections) && |selected| >= maxSelections.value
  }

  /** A click on an option: ignored when disabled, otherwise `handleSelect`. */
  function Click(selected: seq<string>, value: string, maxSelections: Option<int>): (r: seq<string>)
    ensures IsDisabled(selected, value, maxSelections) ==> r == selected
  {
    if IsDisabled(selected, value, maxSelections) then selected
    else HandleSelect(selected, value, maxSelections)
  }

  /** The disabled guard agrees with the cap check inside `handleSelect`: a click always selects. */
  lemma ClickIsSelect(selected: seq<string>, value: string, maxSelections: Option<int>)
    ensures Click(selected, value, maxSelections) == HandleSelect(selected, value, maxSelections)
  {
  }
}
