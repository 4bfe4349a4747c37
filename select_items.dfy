/**
 * One option of a select list (components/form/pure-select-item.tsx): the
 * `isSelectItem` test, the value a press reports and the text it shows.
 * The same test and the same label/value choice are used by the filter in
 * components/form/select-input.tsx, so they are defined here once.
 */
module SelectItems {
  import opened Wrappers
  import opened Js

  /** An option as the caller passes it: a plain string or a `SelectItem` record
      (`labelText` is the record's `label` field; `label` is a Dafny keyword). */
  datatype Item =
    | Plain(text: string)
    | Record(value: string, labelText: string, disabled: Option<bool>, selected: Option<bool>)

  /** The run-time object an option is; optional record fields are absent when undefined. */
  function Encode(item: Item): JsValue {
    match item
    case Plain(t) => JsString(t)
    case Record(v, l, d, s) =>
      var base := map["value" := JsString(v), "label" := JsString(l)];
      var withDisabled := if d.Some? then base["disabled" := JsBool(d.value)] else base;
      JsObject(if s.Some? then withDisabled["selected" := JsBool(s.value)] else withDisabled)
  }

  /** `isSelectItem`: `typeof obj === 'object' && obj !== null && 'value' in obj`. */
  predicate IsSelectItem(obj: JsValue)
    ensures IsSelectItem(obj) <==> obj.JsObject? && "value" in obj.props
  {
    TypeOf(obj) == "object" && obj != JsNull &&
    match obj
    case JsObject(props) => "value" in props
    case _ => false
  }

  /** On the declared option type the test tells records from plain strings. */
  lemma {:induction false} IsSelectItemOnItems(item: Item)
    ensures IsSelectItem(Encode(item)) <==> item.Record?
  {
    match item
    case Plain(t) =>
    case Record(v, l, d, s) =>
      var o := Encode(item);
      assert "value" in o.props;
  }

  /** What a press reports to `onSelect`: `isSelectItem(item) ? item.value : item`. */
  function Value(item: Item): (r: string)
    ensures item.Plain? ==> r == item.text
    ensures item.Record? ==> r == item.value
  {
    IsSelectItemOnItems(item);
    if IsSelectItem(Encode(item)) then item.value else item.text
  }

  /** The text shown for an option: `isSelectItem(item) ? item.labelText : item`. */
  function Label(item: Item): (r: string)
    ensures item.Plain? ==> r == item.text
    ensures item.Record? ==> r == item.labelText
  {
    IsSelectItemOnItems(item);
    if IsSelectItem(Encode(item)) then item.labelText else item.text
  }

  /** What `PureSelectItem.render` draws inside its touchable. */
  datatype Rendering =
    | Special(props: Item)   // the caller's `specialComponent`, given the option's fields
    | ItemText(text: string) // the default text view

  function Render(item: Item, hasSpecialComponent: bool): (r: Rendering)
    ensures !hasSpecialComponent && item.Record? ==> r == ItemText(item.labelText)
    ensures !hasSpecialComponent && item.Plain? ==> r == ItemText(item.text)
    ensures hasSpecialComponent ==> r.Special? && r.props == item
  {
    if hasSpecialComponent then Special(item) else ItemText(Label(item))
  }

  /** A press on a record reports its `value`, never its `label` (when the two differ). */
  lemma PressReportsValueNotLabel(item: Item)
    requires item.Record? && item.value != item.labelText
    ensures Value(item) == item.value && Value(item) != item.labelText
  {
  }

  /** For a plain string the reported value and the shown text are the string itself. */
  lemma PlainReportsWhatItShows(t: string)
    ensures Value(Plain(t)) == t && Render(Plain(t), false) == ItemText(t)
  {
  }
}
