/** Optional values: JavaScript's `undefined` / `null` and TypeScript's `?:` fields. */
module Wrappers {

  datatype Option<+T> = None | Some(value: T) {

    /** The value, or `default` when absent (the `x ?? d` / destructuring-default idiom). */
    function GetOr(default: T): T {
      match this
      case Some(v) => v
      case None => default
    }
  }

  /** JavaScript truthiness of an optional string: absent and '' are both falsy. */
  predicate Truthy(s: Option<string>) {
    s.Some? && s.value != ""
  }

  /** `s || d` for an optional string. */
  function OrElse(s: Option<string>, d: string): (r: string)
    ensures Truthy(s) ==> r == s.value
    ensures !Truthy(s) ==> r == d
  {
    if Truthy(s) then s.value else d
  }

  /** `v || undefined` for a string: the empty string becomes absent. */
  function OrUndefined(v: string): (r: Option<string>)
    ensures v == "" <==> r.None?
    ensures r.Some? ==> r.value == v
    ensures Truthy(r) <==> r.Some?
  {
    if v == "" then None else Some(v)
  }
}
