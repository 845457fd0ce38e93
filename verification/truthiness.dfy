/** JavaScript truthiness of the optional fields the dispatcher defaults.
    `!x` and `x || fallback` treat a missing field, the empty string, `false`
    and the number 0 alike, so a caller cannot keep "" or 0 by setting it. */
module Truthiness {
  import opened Wrappers

  /** An optional string is truthy when present and non-empty. */
  predicate StringSet(o: Option<string>) {
    o.Some? && o.value != ""
  }

  /** An optional boolean is truthy only when it is present and `true`. */
  predicate BoolSet(o: Option<bool>) {
    o == Some(true)
  }

  /** An optional number is truthy when present and non-zero. */
  predicate NumberSet(o: Option<int>) {
    o.Some? && o.value != 0
  }

  /** `o || fallback` on an optional string. */
  function StringOr(o: Option<string>, fallback: string): (r: string)
    ensures StringSet(o) ==> r == o.value
    ensures !StringSet(o) ==> r == fallback
    ensures r != "" <==> StringSet(o) || fallback != ""
  {
    if StringSet(o) then o.value else fallback
  }

  /** `o || fallback` on an optional number. */
  function NumberOr(o: Option<int>, fallback: int): (r: int)
    ensures NumberSet(o) ==> r == o.value
    ensures !NumberSet(o) ==> r == fallback
    ensures r != 0 <==> NumberSet(o) || fallback != 0
  {
    if NumberSet(o) then o.value else fallback
  }
}
