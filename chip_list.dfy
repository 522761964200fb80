/**
 * `SharedChipListComponent`: a list of selected chips edited in place, the
 * autocomplete suggestions for the typed text, and the key filter that stops
 * typing when free-form chips are not allowed.
 */
module ChipList {
  import opened Wrappers
  import opened Text
  import opened Seqs

  /** The keys that still work when free-form entry is off. */
  const AllowedKeys: seq<string> := ["ArrowDown", "ArrowUp", "Enter", "Escape", "Tab", "Backspace", "Delete"]

  /** `onInputKeydown`: whether the key press is cancelled. */
  function KeydownPrevented(allowFreeform: bool, key: string): (prevented: bool)
    ensures prevented <==> !allowFreeform && key != "ArrowDown" && key != "ArrowUp" && key != "Enter"
                           && key != "Escape" && key != "Tab" && key != "Backspace" && key != "Delete"
  {
    !allowFreeform && key !in AllowedKeys
  }

  /** The typed text is null, empty or only whitespace. */
  predicate Blank(value: Option<string>) {
    value.None? || value.value == "" || Trim(value.value) == ""
  }

  /** The options not yet selected, in their order. */
  function Unselected(options: seq<string>, selected: seq<string>): (r: seq<string>)
    ensures SubsequenceOf(r, options)
    ensures forall i :: 0 <= i < |r| ==> r[i] !in selected
    ensures forall o {:trigger multiset(r)[o]} :: multiset(r)[o] == if o in selected then 0 else multiset(options)[o]
  {
    Filter(options, o => o !in selected)
  }

  /** The options not yet selected whose lower-case form contains `query`, in their order. */
  function Matching(options: seq<string>, selected: seq<string>, query: string): (r: seq<string>)
    ensures SubsequenceOf(r, options)
    ensures forall i :: 0 <= i < |r| ==> r[i] !in selected
    ensures forall o {:trigger multiset(r)[o]} ::
      multiset(r)[o] == (if o !in selected && Contains(Lower(o), query) then multiset(options)[o] else 0)
  {
    Filter(options, o => Includes(Lower(o), query) && o !in selected)
  }

  /**
   * `_filter`: the options not yet selected, in their order, narrowed for a
   * non-blank query to those that contain it, compared in lower case (the
   * query itself is not trimmed).
   */
  function Suggestions(options: seq<string>, selected: seq<string>, value: Option<string>): (r: seq<string>)
    ensures SubsequenceOf(r, options)
    ensures forall i :: 0 <= i < |r| ==> r[i] !in selected
    ensures Blank(value) ==> r == Unselected(options, selected)
    ensures !Blank(value) ==> r == Matching(options, selected, Lower(value.value))
  {
    if Blank(value) then Unselected(options, selected)
    else Matching(options, selected, Lower(value.value))
  }

  /** A blank query suggests every option when nothing is selected. */
  lemma BlankSuggestsAll(options: seq<string>, value: Option<string>)
    requires Blank(value)
    ensures Suggestions(options, [], value) == options
  {
    FilterAll(options, o => o !in []);
    assert Unselected(options, []) == Filter(options, o => o !in []);
  }

  /** The value a chip-input event carries, trimmed (`event.value?.trim()`). */
  function TrimmedValue(value: Option<string>): (r: Option<string>)
    ensures r.Some? <==> value.Some?
    ensures r.Some? ==> TrimmedFrom(value.value, r.value, LeadingWhitespace(value.value))
  {
    if value.Some? then
      TrimSpec(value.value);
      Some(Trim(value.value))
    else None
  }

  datatype ChipInputEvent = ChipInputEvent(hasInput: bool, value: Option<string>)

  class SharedChipListComponent {
    var availableOptions: seq<string>
    var selected: seq<string>
    var allowFreeform: bool
    /** The text of the native input element. */
    var inputText: string
    /** The value of `chipCtrl`. */
    var ctrlValue: Option<string>
    /** Each `selectedChange` emission, as the list stood when it was emitted. */
    var emitted: seq<seq<string>>

    /** The component once its inputs are bound. */
    constructor (availableOptions: seq<string>, selected: seq<string>, allowFreeform: bool)
      ensures this.availableOptions == availableOptions && this.selected == selected
      ensures this.allowFreeform == allowFreeform
      ensures inputText == "" && ctrlValue == Some("") && emitted == []
    {
      this.availableOptions := availableOptions;
      this.selected := selected;
      this.allowFreeform := allowFreeform;
      inputText := "";
      ctrlValue := Some("");
      emitted := [];
    }

    /** `filteredOptions`: the suggestions for the control's current value. */
    function FilteredOptions(): seq<string>
      reads this
    {
      Suggestions(availableOptions, selected, ctrlValue)
    }

    method AddChip(event: ChipInputEvent)
      modifies this
      ensures var v := TrimmedValue(event.value);
        if Truthy(v) && v.value !in old(selected) && (allowFreeform || v.value in availableOptions)
        then selected == old(selected) + [v.value] && emitted == old(emitted) + [selected]
        else selected == old(selected) && emitted == old(emitted)
      ensures emitted != old(emitted) <==> selected != old(selected)
      ensures Distinct(old(selected)) ==> Distinct(selected)
      ensures inputText == (if event.hasInput then "" else old(inputText)) && ctrlValue == Some("")
      ensures availableOptions == old(availableOptions) && allowFreeform == old(allowFreeform)
    {
      var value := TrimmedValue(event.value);
      if Truthy(value) && value.value !in selected {
        if allowFreeform || value.value in availableOptions {
          DistinctPushIf(selected, value.value);
          selected := selected + [value.value];
          emitted := emitted + [selected];
        }
      }
      if event.hasInput {
        inputText := "";
      }
      ctrlValue := Some("");
    }

    method RemoveChip(chip: string)
      modifies this
      ensures var i := IndexOf(old(selected), chip);
        if i >= 0
        then selected == old(selected)[..i] + old(selected)[i + 1..] && emitted == old(emitted) + [selected]
        else selected == old(selected) && emitted == old(emitted)
      ensures multiset(selected) == multiset(old(selected)) - multiset{chip}
      ensures Distinct(old(selected)) ==> Distinct(selected) && chip !in selected
      ensures availableOptions == old(availableOptions) && allowFreeform == old(allowFreeform)
      ensures inputText == old(inputText) && ctrlValue == old(ctrlValue)
    {
      var index := IndexOf(selected, chip);
      if index >= 0 {
        var rest := selected[..index] + selected[index + 1..];
        SpliceMultiset(selected, index);
        if Distinct(selected) {
          DistinctSplice(selected, index);
        }
        selected := rest;
        emitted := emitted + [rest];
      } else {
        MultisetMinusAbsent(selected, chip);
      }
    }

    /** `selectOption`: an autocomplete pick, taken as it is, with no free-form check. */
    method SelectOption(value: Option<string>)
      modifies this
      ensures if Truthy(value) && value.value !in old(selected)
        then selected == old(selected) + [value.value] && emitted == old(emitted) + [selected]
        else selected == old(selected) && emitted == old(emitted)
      ensures emitted != old(emitted) <==> selected != old(selected)
      ensures Distinct(old(selected)) ==> Distinct(selected)
      ensures ctrlValue == Some("")
      ensures availableOptions == old(availableOptions) && allowFreeform == old(allowFreeform)
      ensures inputText == old(inputText)
    {
      if Truthy(value) && value.value !in selected {
        DistinctPushIf(selected, value.value);
        selected := selected + [value.value];
        emitted := emitted + [selected];
      }
      ctrlValue := Some("");
    }
  }

  /** Pushing an absent chip keeps the list duplicate-free when it was. */
  lemma DistinctPushIf(s: seq<string>, x: string)
    requires x !in s
    ensures Distinct(s) ==> Distinct(s + [x])
  {
    if Distinct(s) {
      DistinctPush(s, x);
    }
  }
}
