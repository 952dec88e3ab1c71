/** Option and Result, plus the pieces of JavaScript string semantics the
    client leans on everywhere: truthiness, `s || fallback` on an optional
    string, and `startsWith`. */
module Wrappers {

  datatype Option<+T> = None | Some(value: T)

  /** The outcome of an operation that can throw: `Failure` carries the
      message of the thrown `Error`. */
  datatype Result<+T, +E> = Success(value: T) | Failure(error: E)

  /** A string is truthy in JavaScript exactly when it is non-empty;
      `undefined` (here `None`) is falsy. */
  predicate Truthy(v: Option<string>) {
    v.Some? && v.value != ""
  }

  /** `v || fallback` for an optional string. */
  function OrElse(v: Option<string>, fallback: string): (r: string)
    ensures Truthy(v) ==> r == v.value
    ensures !Truthy(v) ==> r == fallback
    ensures fallback != "" ==> r != ""
  {
    if v.Some? && v.value != "" then v.value else fallback
  }

  /** `s.startsWith(prefix)`. */
  predicate StartsWith(s: string, prefix: string) {
    |prefix| <= |s| && s[..|prefix|] == prefix
  }
}
