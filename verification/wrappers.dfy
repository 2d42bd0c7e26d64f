/** Optional values, and the JavaScript `||` fallback that the client uses
    for every optional string it displays or sends. */
module Wrappers {

  /** A value that may be absent (`undefined` / `null` in the client). */
  datatype Option<+T> = None | Some(value: T) {

    /** The value, or `default` when absent. */
    function GetOr(default: T): T {
      match this
      case Some(v) => v
      case None => default
    }
  }

  /** JavaScript truthiness of an optional string: absent and "" are falsy. */
  predicate Truthy(s: Option<string>) {
    s.Some? && s.value != ""
  }

  /** `s || fallback` for an optional string. */
  function OrElse(s: Option<string>, fallback: string): (r: string)
    ensures Truthy(s) ==> r == s.value
    ensures !Truthy(s) ==> r == fallback
  {
    if Truthy(s) then s.value else fallback
  }

  /** `s || undefined` for a form field: the empty string becomes absent. */
  function EmptyToAbsent(s: string): (r: Option<string>)
    ensures r.None? <==> s == ""
    ensures r.Some? ==> r.value == s
  {
    if s == "" then None else Some(s)
  }

  /** `s || ''` for an optional field shown in a form input. */
  function AbsentToEmpty(s: Option<string>): (r: string)
    ensures s.None? ==> r == ""
    ensures s.Some? ==> r == s.value
  {
    s.GetOr("")
  }

  /** Filling a form from an optional value and sending the form back loses
      nothing except an empty string, which comes back absent. */
  lemma EmptyToAbsentAfterAbsentToEmpty(s: Option<string>)
    ensures EmptyToAbsent(AbsentToEmpty(s)) == (if Truthy(s) then s else None)
  {
  }

  /** Sending a form field and reading it back into the form is the identity. */
  lemma AbsentToEmptyAfterEmptyToAbsent(s: string)
    ensures AbsentToEmpty(EmptyToAbsent(s)) == s
  {
  }
}
