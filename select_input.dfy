/**
 * The select box of components/form/select-input.tsx: the case-insensitive
 * option filter behind the search field, the selected-value state
 * `innerValue`, and what the closed box shows (placeholder or selection).
 */
module Select {
  import opened Wrappers
  import opened Js
  import opened SelectItems

  // ---------------------------------------------------------------------------
  // The option filter (`filteredData`)
  // ---------------------------------------------------------------------------

  /** The filter's test: the lower-cased keyword occurs in the lower-cased label or value. */
  function Matches(option: Item, keyword: string): (m: bool)
    ensures m <==>
      (exists i :: OccursAt(ToLower(Label(option)), ToLower(keyword), i)) ||
      (exists i :: OccursAt(ToLower(Value(option)), ToLower(keyword), i))
  {
    EitherIncludesIff(ToLower(Label(option)), ToLower(Value(option)), ToLower(keyword));
    Includes(ToLower(Label(option)), ToLower(keyword)) ||
    Includes(ToLower(Value(option)), ToLower(keyword))
  }

  lemma EitherIncludesIff(shown: string, reported: string, search: string)
    ensures (Includes(shown, search) || Includes(reported, search)) <==>
      (exists i :: OccursAt(shown, search, i)) || (exists i :: OccursAt(reported, search, i))
  {
    IncludesIff(shown, search);
    IncludesIff(reported, search);
  }

  /** `data.filter(...)`: the options that match the keyword, in their original order. */
  function Filter(data: seq<Item>, keyword: string): (r: seq<Item>)
    ensures |r| <= |data|
    ensures forall o :: o in r ==> o in data && Matches(o, keyword)
    ensures forall o :: o in data && Matches(o, keyword) ==> o in r
  {
    if data == [] then []
    else (if Matches(data[0], keyword) then [data[0]] else []) + Filter(data[1..], keyword)
  }

  /** `a` is obtained from `b` by deleting elements, keeping the order of the rest. */
  predicate IsSubsequence<T(==)>(a: seq<T>, b: seq<T>)
    decreases |b|
  {
    if a == [] then true
    else if b == [] then false
    else (a[0] == b[0] && IsSubsequence(a[1..], b[1..])) || IsSubsequence(a, b[1..])
  }

  /** The filtered list keeps the original order and adds nothing. */
  lemma {:induction false} FilterIsSubsequence(data: seq<Item>, keyword: string)
    ensures IsSubsequence(Filter(data, keyword), data)
  {
    if data != [] {
      FilterIsSubsequence(data[1..], keyword);
      var r := Filter(data, keyword);
      if Matches(data[0], keyword) {
        assert r[0] == data[0] && r[1..] == Filter(data[1..], keyword);
      } else {
        assert r == Filter(data[1..], keyword);
      }
    }
  }

  /** Every occurrence of a matching option is kept and every other one is dropped. */
  lemma {:induction false} FilterKeepsEveryOccurrence(data: seq<Item>, keyword: string, o: Item)
    ensures multiset(Filter(data, keyword))[o] == if Matches(o, keyword) then multiset(data)[o] else 0
  {
    if data != [] {
      FilterKeepsEveryOccurrence(data[1..], keyword, o);
      assert data == [data[0]] + data[1..];
    }
  }

  /** An empty keyword keeps every option. */
  lemma {:induction false} FilterEmptyKeyword(data: seq<Item>)
    ensures Filter(data, "") == data
  {
    if data != [] {
      IncludesEmpty(ToLower(Label(data[0])));
      FilterEmptyKeyword(data[1..]);
    }
  }

  /** An option that matches a longer keyword matches every prefix of it. */
  lemma MatchesPrefix(option: Item, keyword: string, more: string)
    requires Matches(option, keyword + more)
    ensures Matches(option, keyword)
  {
    ToLowerConcat(keyword, more);
    if Includes(ToLower(Label(option)), ToLower(keyword + more)) {
      IncludesPrefixOfSearch(ToLower(Label(option)), ToLower(keyword), ToLower(more));
    } else {
      IncludesPrefixOfSearch(ToLower(Value(option)), ToLower(keyword), ToLower(more));
    }
  }

  /** Typing more narrows: filtering by `keyword + more` is filtering the `keyword` result again. */
  lemma {:induction false} FilterNarrows(data: seq<Item>, keyword: string, more: string)
    ensures Filter(data, keyword + more) == Filter(Filter(data, keyword), keyword + more)
  {
    if data != [] {
      FilterNarrows(data[1..], keyword, more);
      var once := Filter(data, keyword);
      if Matches(data[0], keyword) {
        assert once[0] == data[0] && once[1..] == Filter(data[1..], keyword);
      } else {
        assert once == Filter(data[1..], keyword);
        if Matches(data[0], keyword + more) {
          MatchesPrefix(data[0], keyword, more);
        }
      }
    }
  }

  /** Hence the longer keyword's result is a subsequence of the shorter one's. */
  lemma FilterNarrowsToSubsequence(data: seq<Item>, keyword: string, more: string)
    ensures IsSubsequence(Filter(data, keyword + more), Filter(data, keyword))
  {
    FilterNarrows(data, keyword, more);
    FilterIsSubsequence(Filter(data, keyword), keyword + more);
  }

  /** The case of the keyword does not matter. */
  lemma {:induction false} FilterIgnoresKeywordCase(data: seq<Item>, keyword: string)
    ensures Filter(data, keyword) == Filter(data, ToLower(keyword))
  {
    ToLowerIdempotent(keyword);
    if data != [] {
      FilterIgnoresKeywordCase(data[1..], keyword);
    }
  }

  // ---------------------------------------------------------------------------
  // The selected value and what the closed select box shows
  // ---------------------------------------------------------------------------

  /** The `value` prop synced into `innerValue`: `value || null`. */
  function FromProp(value: Option<string>): (r: Option<string>)
    ensures r.None? <==> value.None? || value.value == ""
    ensures r.Some? ==> r == value
  {
    if TruthyString(value) then value else None
  }

  /** Every option is a plain string (`data.every((value) => typeof value === "string")`). */
  predicate AllPlain(data: seq<Item>)
    ensures AllPlain(data) <==> forall o :: o in data ==> o.Plain?
  {
    forall i :: 0 <= i < |data| ==> TypeOf(Encode(data[i])) == "string"
  }

  /** `data.find((value) => value.value === v)`: a plain string has no `value` property. */
  function FindRecord(data: seq<Item>, v: string): (r: Option<Item>)
    ensures r.Some? ==> r.value in data && r.value.Record? && r.value.value == v
    ensures r.None? ==> forall o :: o in data && o.Record? ==> o.value != v
    ensures r.Some? ==> exists i :: 0 <= i < |data| && data[i] == r.value &&
                          forall j :: 0 <= j < i ==> !(data[j].Record? && data[j].value == v)
  {
    if data == [] then None
    else if data[0].Record? && data[0].value == v then Some(data[0])
    else FindRecord(data[1..], v)
  }

  /** The text of a selection, or the `TypeError` that `find(...)!.label` raises. */
  datatype SelectedText = Text(text: string) | TypeError

  /** The selection text exactly as line 138 computes it, before `formatText`. */
  function SelectedTextAsWritten(data: seq<Item>, innerValue: string): (r: SelectedText)
    ensures r == TypeError <==>
      (exists o :: o in data && o.Record?) && forall o :: o in data && o.Record? ==> o.value != innerValue
    ensures r.Text? && (exists o :: o in data && o.Record?) ==>
      exists o :: o in data && o.Record? && o.value == innerValue && o.labelText == r.text
    ensures (forall o :: o in data ==> o.Plain?) ==> r == Text(innerValue)
    ensures r.Text? && !AllPlain(data) ==>
      exists i :: 0 <= i < |data| && data[i].Record? && data[i].value == innerValue &&
        data[i].labelText == r.text &&
        forall j :: 0 <= j < i ==> !(data[j].Record? && data[j].value == innerValue)
  {
    if AllPlain(data) then Text(innerValue)
    else match FindRecord(data, innerValue)
      case Some(o) => Text(o.labelText)
      case None => TypeError
  }

  /** A mixed list: picking its plain-string option makes the box throw. */
  lemma MixedDataCrashes()
    ensures SelectedTextAsWritten([Plain("cash"), Record("card", "Card", None, None)], "cash") == TypeError
  {
    var data := [Plain("cash"), Record("card", "Card", None, None)];
    assert !AllPlain(data) by { assert TypeOf(Encode(data[1])) == "object"; }
  }

  /**
   * The selection text with the missing-record case handled: when no record
   * has the selected value, the value itself is shown, as for a list of
   * plain strings.
   */
  function SelectionText(data: seq<Item>, innerValue: string): (r: string)
    ensures AllPlain(data) ==> r == innerValue
    ensures (forall o :: o in data && o.Record? ==> o.value != innerValue) ==> r == innerValue
    ensures !AllPlain(data) && (exists o :: o in data && o.Record? && o.value == innerValue) ==>
      exists i :: 0 <= i < |data| && data[i].Record? && data[i].value == innerValue &&
        data[i].labelText == r &&
        forall j :: 0 <= j < i ==> !(data[j].Record? && data[j].value == innerValue)
  {
    if AllPlain(data) then innerValue
    else match FindRecord(data, innerValue)
      case Some(o) => o.labelText
      case None => innerValue
  }

  /** Wherever the written code shows a text, the corrected one shows the same text. */
  lemma SelectionTextAgrees(data: seq<Item>, innerValue: string)
    requires SelectedTextAsWritten(data, innerValue).Text?
    ensures SelectionText(data, innerValue) == SelectedTextAsWritten(data, innerValue).text
  {
  }

  /** No two options report the same value. */
  predicate UniqueValues(data: seq<Item>) {
    forall i, j :: 0 <= i < j < |data| ==> Value(data[i]) != Value(data[j])
  }

  /** After an option is picked, the box shows the label that the option list showed for it. */
  lemma PickedOptionShowsItsLabel(data: seq<Item>, o: Item)
    requires o in data && UniqueValues(data)
    ensures SelectionText(data, Value(o)) == Label(o)
  {
    if !AllPlain(data) {
      match FindRecord(data, Value(o))
      case Some(r) =>
        var i :| 0 <= i < |data| && data[i] == r;
        var j :| 0 <= j < |data| && data[j] == o;
        assert Value(data[i]) == Value(data[j]);
        assert i == j;
      case None =>
        assert o.Plain?;
    }
  }

  /** What the closed select box shows. */
  datatype Selection =
    | SelectionLabel(text: string)           // the default text
    | SelectionComponent(props: Option<Item>) // the caller's `selectComponent`, given the found record

  datatype BoxDisplay = BoxDisplay(placeholder: Option<string>, selection: Option<Selection>)

  /** Lines 128-141: the placeholder needs a placeholder and no selection; a selection needs a truthy `innerValue`. */
  function Display(data: seq<Item>, placeholder: Option<string>, innerValue: Option<string>,
                   hasSelectComponent: bool): (d: BoxDisplay)
    ensures d.placeholder.Some? ==> d.placeholder == placeholder && placeholder.value != ""
    ensures d.placeholder.Some? <==> d.selection.None? && placeholder.Some? && placeholder.value != ""
    ensures d.selection.Some? <==> innerValue.Some? && innerValue.value != ""
    ensures d.selection.Some? ==> (
      d.selection.value ==
        if hasSelectComponent then SelectionComponent(FindRecord(data, innerValue.value))
        else SelectionLabel(SelectionText(data, innerValue.value)))
  {
    BoxDisplay(
      if TruthyString(placeholder) && !TruthyString(innerValue) then placeholder else None,
      if !TruthyString(innerValue) then None
      else if hasSelectComponent then Some(SelectionComponent(FindRecord(data, innerValue.value)))
      else Some(SelectionLabel(SelectionText(data, innerValue.value))))
  }

  // ---------------------------------------------------------------------------
  // The component's state
  // ---------------------------------------------------------------------------

  class SelectInput {
    const data: seq<Item>
    const placeholder: Option<string>
    const hasOnChange: bool
    const hasSelectComponent: bool
    /** The selected value (`innerValue`). */
    var innerValue: Option<string>
    /** The search field's text (`keyword`). */
    var keyword: string
    /** Whether the bottom sheet with the options is presented. */
    var sheetOpen: bool
    /** The values passed to `onChange`, oldest first. */
    var reported: seq<string>

    /** Mounting: `innerValue` starts as `null` and the mount effect syncs it from `value`. */
    constructor (data: seq<Item>, value: Option<string>, placeholder: Option<string>,
                 hasOnChange: bool, hasSelectComponent: bool)
      ensures this.data == data && this.placeholder == placeholder
      ensures this.hasOnChange == hasOnChange && this.hasSelectComponent == hasSelectComponent
      ensures innerValue == FromProp(value) && keyword == "" && !sheetOpen && reported == []
    {
      this.data := data;
      this.placeholder := placeholder;
      this.hasOnChange := hasOnChange;
      this.hasSelectComponent := hasSelectComponent;
      innerValue := None;
      keyword := "";
      sheetOpen := false;
      reported := [];
      innerValue := FromProp(value);
    }

    /** The options listed in the sheet (`filteredData`). */
    function FilteredData(): seq<Item>
      reads this
    {
      Filter(data, keyword)
    }

    /** What the closed box shows now. */
    function Shown(): BoxDisplay
      reads this
    {
      Display(data, placeholder, innerValue, hasSelectComponent)
    }

    /** The effect on `[value]`: an absent or empty value clears the selection. */
    method SyncValue(value: Option<string>)
      modifies this
      ensures innerValue == FromProp(value)
      ensures value.None? || value.value == "" ==> Shown().selection.None?
      ensures keyword == old(keyword) && sheetOpen == old(sheetOpen) && reported == old(reported)
    {
      innerValue := FromProp(value);
    }

    /** `open`: present the sheet. */
    method Open()
      modifies this
      ensures sheetOpen
      ensures innerValue == old(innerValue) && keyword == old(keyword) && reported == old(reported)
    {
      sheetOpen := true;
    }

    /** `setKeyword` from the search field. */
    method SetKeyword(k: string)
      modifies this
      ensures keyword == k
      ensures FilteredData() == Filter(data, k)
      ensures innerValue == old(innerValue) && sheetOpen == old(sheetOpen) && reported == old(reported)
    {
      keyword := k;
    }

    /** `handleValueChange`: select `item`, report it to `onChange` if given, dismiss the sheet. */
    method HandleValueChange(item: string)
      modifies this
      ensures innerValue == Some(item)
      ensures reported == if hasOnChange then old(reported) + [item] else old(reported)
      ensures !sheetOpen && keyword == old(keyword)
      ensures item != "" ==> Shown().placeholder.None? && Shown().selection.Some?
    {
      innerValue := Some(item);
      if hasOnChange {
        reported := reported + [item];
      }
      sheetOpen := false;
    }

    /** A press on the `i`-th listed option, through `PureSelectItem`'s `onSelect`. */
    method Press(i: nat)
      requires i < |FilteredData()|
      modifies this
      ensures var o := old(FilteredData())[i];
        o in data && Matches(o, keyword) && innerValue == Some(Value(o))
      ensures reported == if hasOnChange then old(reported) + [innerValue.value] else old(reported)
      ensures !sheetOpen && keyword == old(keyword)
    {
      var o := FilteredData()[i];
      HandleValueChange(Value(o));
    }
  }
}
