/**
 * Host-language values shared by every model: JavaScript's `null`/`undefined`
 * (an Option) and the falsy-default operator `a || d` as the scripts use it.
 */
module JsValues {

  /** A value that may be missing (`null` or `undefined` in the scripts). */
  datatype Option<+T> = None | Some(value: T)

  /** `s || d` for a string that may be missing: the empty string is falsy too. */
  function StringOr(s: Option<string>, d: string): (r: string)
    ensures r == d || (s.Some? && r == s.value && s.value != "")
    ensures s.Some? && s.value != "" ==> r == s.value
  {
    if s.Some? && s.value != "" then s.value else d
  }

  /** `n || d` for a number that may be missing: zero is falsy too. */
  function IntOr(n: Option<int>, d: int): (r: int)
    ensures n.Some? && n.value != 0 ==> r == n.value
    ensures n.None? || n.value == 0 ==> r == d
  {
    if n.Some? && n.value != 0 then n.value else d
  }

  /** `n || d` for a real that may be missing: zero is falsy too. */
  function RealOr(n: Option<real>, d: real): (r: real)
    ensures n.Some? && n.value != 0.0 ==> r == n.value
    ensures n.None? || n.value == 0.0 ==> r == d
  {
    if n.Some? && n.value != 0.0 then n.value else d
  }

  /** `Math.min` on integers. */
  function Min(a: int, b: int): int { if a <= b then a else b }

  /** `Math.max` on integers. */
  function Max(a: int, b: int): int { if a >= b then a else b }
}
