/** JavaScript value conventions the components rely on: a field that may be
    `null`/`undefined`, truthiness of strings, and the `a || b` default. */
module Js {

  /** A value that may be absent (`null` or `undefined` in the source). */
  datatype Option<+T> = None | Some(value: T)

  /** A string is truthy in JavaScript when it is present and not empty. */
  predicate Truthy(s: Option<string>)
  {
    s.Some? && s.value != ""
  }

  /** `s || fallback`: the value of `s` when it is truthy, else `fallback`. */
  function OrElse(s: Option<string>, fallback: string): (r: string)
    ensures Truthy(s) ==> r == s.value
    ensures !Truthy(s) ==> r == fallback
    ensures fallback != "" ==> r != ""
  {
    if Truthy(s) then s.value else fallback
  }

  /** `map.get(key)` on a string store: `null` when the key is missing. */
  function Get(m: map<string, string>, key: string): (r: Option<string>)
    ensures r.Some? <==> key in m
    ensures key in m ==> r.value == m[key]
  {
    if key in m then Some(m[key]) else None
  }
}
