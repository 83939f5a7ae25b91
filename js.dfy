/** JavaScript values as the site uses them: optional fields and truthiness. */
module Js {

  /** A field that may be missing (`undefined` or `null`). */
  datatype Option<+T> = None | Some(value: T)

  /** `if (s)` for an optional string: present and non-empty. */
  predicate Truthy(s: Option<string>) {
    s.Some? && s.value != ""
  }

  /** `s || d` for an optional string. */
  function Or(s: Option<string>, d: string): (r: string)
    ensures Truthy(s) ==> r == s.value
    ensures !Truthy(s) ==> r == d
  {
    if Truthy(s) then s.value else d
  }

  /** `b` read as a condition, for an optional boolean (`null` and `undefined` are false). */
  predicate IsTrue(b: Option<bool>) {
    b == Some(true)
  }

  /** `x` read as a condition, for an optional number: present and non-zero. */
  predicate TruthyNumber(x: Option<nat>) {
    x.Some? && x.value != 0
  }
}
