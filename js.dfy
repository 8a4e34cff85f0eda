/** Small pieces of JavaScript semantics that the page's TypeScript relies on. */
module Js {

  /** A value that may be `null`/`undefined` (the `T | null` and optional fields of the source). */
  datatype Option<+T> = None | Some(value: T)

  /** JavaScript truthiness of an optional string: `undefined`, `null` and `''` are falsy. */
  predicate Truthy(s: Option<string>)
  {
    s.Some? && s.value != ""
  }

  /** `a || b` for an optional string and a string fallback. */
  function OrElse(s: Option<string>, fallback: string): (r: string)
    ensures Truthy(s) ==> r == s.value
    ensures !Truthy(s) ==> r == fallback
  {
    if Truthy(s) then s.value else fallback
  }

  /** JavaScript's `%` on integers: the remainder takes the sign of the dividend
      (Dafny's own `%` is Euclidean and never negative). */
  function JsRem(a: int, b: int): (r: int)
    requires b > 0
    ensures a >= 0 ==> 0 <= r < b && r == a % b
    ensures a < 0 ==> -b < r <= 0
  {
    if a >= 0 then a % b else -((-a) % b)
  }

  /** Truncation is symmetric about zero: negating the dividend negates the remainder. With
      the non-negative case above this fixes the remainder of every dividend. */
  lemma JsRemOdd(a: int, b: int)
    requires b > 0
    ensures JsRem(-a, b) == -JsRem(a, b)
  {
  }
}
