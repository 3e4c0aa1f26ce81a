/** The picker component every form of the app uses: which option is shown as selected,
    which options the search box leaves visible, what the empty list says, and the
    open/close state of its option sheet. */
module Dropdown {
  import opened Common
  import opened JsText

  /** One `{label, value}` entry of the `options` prop (`label` is a Dafny keyword). */
  datatype Choice = Choice(labelText: string, value: string)

  /** `options.find(option => option.value === value)`: the first option carrying `value`,
      or nothing when no option does. */
  function SelectedOption(options: seq<Choice>, value: string): (r: Option<Choice>)
    ensures r.None? <==> forall i :: 0 <= i < |options| ==> options[i].value != value
    ensures r.Some? ==> exists i :: 0 <= i < |options| && options[i] == r.value && r.value.value == value
                                    && forall j :: 0 <= j < i ==> options[j].value != value
  {
    if options == [] then None
    else if options[0].value == value then Some(options[0])
    else
      var r := SelectedOption(options[1..], value);
      assert forall i :: 1 <= i < |options| ==> options[i] == options[1..][i - 1];
      r
  }

  /** The text on the closed picker: `loading ? 'Loading...' : (selectedOption ?
      selectedOption.label : placeholder)`. */
  function DisplayText(options: seq<Choice>, value: string, loading: bool, placeholder: string): string
  {
    if loading then "Loading..."
    else match SelectedOption(options, value)
      case Some(o) => o.labelText
      case None => placeholder
  }

  /** The closed picker reads "Loading..." while loading; otherwise the label of the first
      option with the current value, and the placeholder when no option has it. */
  lemma DisplayTextCases(options: seq<Choice>, value: string, loading: bool, placeholder: string, i: nat)
    requires i < |options| && options[i].value == value
    requires forall j :: 0 <= j < i ==> options[j].value != value
    ensures DisplayText(options, value, loading, placeholder) == if loading then "Loading..." else options[i].labelText
  {
    var r := SelectedOption(options, value);
    var k :| 0 <= k < |options| && options[k] == r.value && r.value.value == value
             && forall j :: 0 <= j < k ==> options[j].value != value;
    assert options[k].value == value && options[i].value == value;
    assert k == i;
  }

  lemma DisplayTextWithoutMatch(options: seq<Choice>, value: string, placeholder: string)
    requires forall j :: 0 <= j < |options| ==> options[j].value != value
    ensures DisplayText(options, value, false, placeholder) == placeholder
  {
  }

  /** The option's label, lower-cased, contains the lower-cased search text as typed. */
  predicate LabelMatches(searchText: string, o: Choice)
  {
    Includes(Lower(o.labelText), Lower(searchText))
  }

  /** `filteredOptions`: everything when the picker is not searchable or the search text is
      blank after `trim`; otherwise the options whose label matches the untrimmed text. */
  function FilteredOptions(options: seq<Choice>, searchable: bool, searchText: string): seq<Choice>
  {
    if !searchable || IsBlank(searchText) then options
    else Filter(options, o => LabelMatches(searchText, o))
  }

  /** The visible options keep the order of `options`, are exactly those whose label
      matches when a search is active, and are all of them otherwise. */
  lemma FilteredOptionsSpec(options: seq<Choice>, searchable: bool, searchText: string, o: Choice)
    ensures IsSubsequence(FilteredOptions(options, searchable, searchText), options)
    ensures searchable && !IsBlank(searchText) ==>
              (o in FilteredOptions(options, searchable, searchText) <==> o in options && LabelMatches(searchText, o))
    ensures searchable && !IsBlank(searchText) ==>
              multiset(FilteredOptions(options, searchable, searchText))[o]
                == if LabelMatches(searchText, o) then multiset(options)[o] else 0
    ensures !searchable || AllSpace(searchText) ==> FilteredOptions(options, searchable, searchText) == options
  {
    FilterIsSubsequence(options, o => LabelMatches(searchText, o));
    SubsequenceOfSelf(options);
    FilterMembership(options, o => LabelMatches(searchText, o), o);
    FilterCount(options, o => LabelMatches(searchText, o), o);
    BlankIffAllSpace(searchText);
  }

  /** The text of the empty option list: `searchText ? 'No results found' : 'No options
      available'`, decided on the raw text (white space counts as a search). */
  function EmptyText(searchText: string): (r: string)
    ensures r == "No results found" <==> |searchText| > 0
    ensures r == "No options available" <==> searchText == ""
  {
    if searchText != "" then "No results found" else "No options available"
  }

  /** A white-space search filters nothing, yet over an empty option list it reports
      "No results found" rather than "No options available". */
  lemma BlankSearchOverNoOptions(options: seq<Choice>, searchable: bool, searchText: string)
    requires searchText != "" && AllSpace(searchText)
    ensures FilteredOptions(options, searchable, searchText) == options
    ensures EmptyText(searchText) == "No results found"
  {
    BlankIffAllSpace(searchText);
  }

  /** What a tap on an option hands to the parent: `onSelect(option.value)`. A parent that
      passed no `onSelect` makes that call throw before anything else happens. */
  function Report(onSelectGiven: bool, option: Choice): Option<string>
  {
    if onSelectGiven then Some(option.value) else None
  }

  /** The picker's own state: whether the option sheet is open and the search text. */
  class Picker {
    var isVisible: bool
    var searchText: string

    constructor ()
      ensures !isVisible && searchText == ""
    {
      isVisible := false;
      searchText := "";
    }

    /** `handlePress`: opens the sheet unless the picker is disabled or loading. */
    method HandlePress(disabled: bool, loading: bool)
      modifies this
      ensures isVisible == (old(isVisible) || !(disabled || loading))
      ensures searchText == old(searchText)
    {
      if disabled || loading {
        return;
      }
      isVisible := true;
    }

    /** `onChangeText={setSearchText}` on the search box. */
    method SetSearchText(text: string)
      modifies this
      ensures searchText == text && isVisible == old(isVisible)
    {
      searchText := text;
    }

    /** `handleSelect`: reports exactly the option's value, then closes the sheet and clears
        the search; when the parent gave no `onSelect` the call throws first and nothing
        is reported or changed. */
    method HandleSelect(option: Choice, onSelectGiven: bool) returns (reported: Option<string>)
      modifies this
      ensures reported == Report(onSelectGiven, option)
      ensures onSelectGiven ==> reported == Some(option.value) && !isVisible && searchText == ""
      ensures !onSelectGiven ==> reported == None && isVisible == old(isVisible) && searchText == old(searchText)
    {
      if !onSelectGiven {
        reported := None;
        return;
      }
      reported := Some(option.value);
      isVisible := false;
      searchText := "";
    }

    /** `handleClose`: closes the sheet and clears the search. */
    method HandleClose()
      modifies this
      ensures !isVisible && searchText == ""
    {
      isVisible := false;
      searchText := "";
    }
  }

  /** Once a search was closed, reopening shows every option again. */
  lemma ClosedPickerShowsAllOptions(options: seq<Choice>, searchable: bool)
    ensures FilteredOptions(options, searchable, "") == options
  {
  }
}
