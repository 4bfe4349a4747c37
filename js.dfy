/**
 * The few JavaScript run-time notions the core relies on: the values an
 * option or a context can be, `typeof`, truthiness, and the string methods
 * `toLowerCase` and `includes`.  Case folding is modelled over ASCII only.
 */
module Js {
  import opened Wrappers

  /** A JavaScript value, as far as the core ever inspects one. */
  datatype JsValue =
    | JsUndefined
    | JsNull
    | JsBool(b: bool)
    | JsString(s: string)
    | JsObject(props: map<string, JsValue>)

  /** The `typeof` operator; note that `typeof null` is "object". */
  function TypeOf(v: JsValue): string {
    match v
    case JsUndefined => "undefined"
    case JsNull => "object"
    case JsBool(_) => "boolean"
    case JsString(_) => "string"
    case JsObject(_) => "object"
  }

  /** JavaScript truthiness: every object is truthy, the empty string is not. */
  predicate Truthy(v: JsValue) {
    match v
    case JsUndefined => false
    case JsNull => false
    case JsBool(b) => b
    case JsString(s) => s != ""
    case JsObject(_) => true
  }

  /** Truthiness of an optional string (`string | undefined` or `string | null`). */
  predicate TruthyString(s: Option<string>) {
    s.Some? && Truthy(JsString(s.value))
  }

  /** `toLowerCase` on one character, restricted to ASCII letters. */
  function LowerChar(c: char): char {
    if 'A' <= c <= 'Z' then (c as int + ('a' as int - 'A' as int)) as char else c
  }

  /** `String.prototype.toLowerCase`, character by character. */
  function ToLower(s: string): (r: string)
    ensures |r| == |s|
    ensures forall i :: 0 <= i < |s| ==> r[i] == LowerChar(s[i])
  {
    seq(|s|, i requires 0 <= i < |s| => LowerChar(s[i]))
  }

  lemma ToLowerConcat(a: string, b: string)
    ensures ToLower(a + b) == ToLower(a) + ToLower(b)
  {
    assert forall i :: 0 <= i < |a + b| ==> ToLower(a + b)[i] == (ToLower(a) + ToLower(b))[i];
  }

  /** Lower-casing twice is lower-casing once. */
  lemma ToLowerIdempotent(s: string)
    ensures ToLower(ToLower(s)) == ToLower(s)
  {
    assert forall i :: 0 <= i < |s| ==> ToLower(ToLower(s))[i] == ToLower(s)[i];
  }

  predicate StartsWith(s: string, prefix: string) {
    |prefix| <= |s| && s[..|prefix|] == prefix
  }

  /** `search` occurs in `s` beginning at index `i`. */
  predicate OccursAt(s: string, search: string, i: int) {
    0 <= i && i + |search| <= |s| && s[i..i + |search|] == search
  }

  /** `String.prototype.includes`: try every start position from the left. */
  function Includes(s: string, search: string): bool
    decreases |s|
  {
    StartsWith(s, search) || (|s| > 0 && Includes(s[1..], search))
  }

  /** `includes` holds exactly when the searched string occurs at some index. */
  lemma {:induction false} IncludesIff(s: string, search: string)
    ensures Includes(s, search) <==> exists i :: OccursAt(s, search, i)
    decreases |s|
  {
    if Includes(s, search) {
      if StartsWith(s, search) {
        assert OccursAt(s, search, 0);
      } else {
        IncludesIff(s[1..], search);
        var i :| OccursAt(s[1..], search, i);
        assert s[1..][i..i + |search|] == s[i + 1..i + 1 + |search|];
        assert OccursAt(s, search, i + 1);
      }
    }
    if exists i :: OccursAt(s, search, i) {
      var i :| OccursAt(s, search, i);
      if i == 0 {
        assert StartsWith(s, search);
      } else {
        assert s[1..][i - 1..i - 1 + |search|] == s[i..i + |search|];
        assert OccursAt(s[1..], search, i - 1);
        IncludesIff(s[1..], search);
      }
    }
  }

  /** The empty string is included in every string. */
  lemma IncludesEmpty(s: string)
    ensures Includes(s, "")
  {
    assert StartsWith(s, "");
  }

  /** A string that includes `a + b` also includes `a`. */
  lemma IncludesPrefixOfSearch(s: string, a: string, b: string)
    requires Includes(s, a + b)
    ensures Includes(s, a)
  {
    IncludesIff(s, a + b);
    var i :| OccursAt(s, a + b, i);
    assert s[i..i + |a|] == (a + b)[..|a|] == a;
    assert OccursAt(s, a, i);
    IncludesIff(s, a);
  }
}
