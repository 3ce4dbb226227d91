/**
 * The command-palette multi-select: a toggle without a cap, chip removal,
 * keyboard shortcuts on the empty input, and the not-yet-selected options
 * the palette lists.
 */
module MultiSelect {
  import opened Wrappers
  import opened Seqs
  import opened SelectOptions
  import SimpleMultiSelect

  /** `handleUnselect`: every occurrence of the item is removed. */
  function HandleUnselect(selected: seq<string>, item: string): (r: seq<string>)
    ensures item !in r && IsSubsequence(r, selected)
    ensures forall i :: 0 <= i < |selected| && selected[i] != item ==> selected[i] in r
    ensures multiset(r) == multiset(selected)[item := 0]
  {
    RemoveAll(selected, item)
  }

  /** `handleSelect`: a selected item is removed, any other item is appended. */
  function HandleSelect(selected: seq<string>, item: string): (r: seq<string>)
    ensures item in selected ==> r == HandleUnselect(selected, item)
    ensures item !in selected ==> r == selected + [item] && |r| == |selected| + 1
  {
    if item in selected then RemoveAll(selected, item) else selected + [item]
  }

  /** Toggling an unselected item twice restores the list. */
  lemma ToggleTwiceRestores(selected: seq<string>, item: string)
    requires item !in selected
    ensures HandleSelect(HandleSelect(selected, item), item) == selected
  {
    RemoveAfterAppend(selected, item);
    RemoveAbsent(selected, item);
  }

  /** Without a cap, toggling agrees with the capped component's select when it is uncapped. */
  lemma AgreesWithUncapped(selected: seq<string>, item: string)
    ensures HandleSelect(selected, item) == SimpleMultiSelect.HandleSelect(selected, item, None)
  {
  }

  datatype Key = Backspace | Escape | OtherKey(name: string)

  /** The selection and the popover's `open` flag after a key press. */
  datatype KeyResult = KeyResult(selected: seq<string>, open: bool)

  /**
   * `handleKeyDown`: with an empty input, Backspace drops the last selected
   * item and Escape closes the popover; anything else changes nothing.
   */
  function HandleKeyDown(selected: seq<string>, open: bool, input: string, key: Key): (r: KeyResult)
    ensures input != "" ==> r == KeyResult(selected, open)
    ensures input == "" && key == Backspace && selected != [] ==>
              r.open == open && r.selected + [selected[|selected| - 1]] == selected
    ensures input == "" && key == Escape ==> r == KeyResult(selected, false)
    ensures key.OtherKey? || (selected == [] && key == Backspace) ==> r.selected == selected && r.open == open
  {
    if input != "" then KeyResult(selected, open)
    else if key == Backspace && |selected| > 0 then KeyResult(DropLast(selected), open)
    else if key == Escape then KeyResult(selected, false)
    else KeyResult(selected, open)
  }

  /** Backspace on the empty input undoes appending an item. */
  lemma BackspaceUndoesSelect(selected: seq<string>, item: string, open: bool)
    requires item !in selected
    ensures HandleKeyDown(HandleSelect(selected, item), open, "", Backspace) == KeyResult(selected, open)
  {
    var s := HandleSelect(selected, item);
    assert DropLast(s) + [s[|s| - 1]] == s;
  }

  /** The filter callback `option => !selected.includes(option.value)`. */
  function NotChosen(selected: seq<string>): SelectOption -> bool {
    (o: SelectOption) => o.value !in selected
  }

  /** `selectables`: the unselected options, in option order, disjoint from the selection. */
  function Selectables(options: seq<SelectOption>, selected: seq<string>): (r: seq<SelectOption>)
    ensures IsSubsequence(r, options)
    ensures forall i :: 0 <= i < |r| ==> r[i].value !in selected && r[i] in options
    ensures forall i :: 0 <= i < |options| && options[i].value !in selected ==> options[i] in r
  {
    FilterIsSubsequence(options, NotChosen(selected));
    Filter(options, NotChosen(selected))
  }

  /** Every option is either selectable or shown as a chip, never both. */
  lemma {:induction false} SelectablesComplementChips(options: seq<SelectOption>, selected: seq<string>)
    ensures |Selectables(options, selected)| + |SimpleMultiSelect.SelectedOptions(options, selected)| == |options|
  {
    if options != [] {
      SelectablesComplementChips(options[1..], selected);
    }
  }
}
