/** The fragments of JavaScript value semantics the client relies on: falsy
    defaults written with `||`, and `Math.round`. A JSON field that is absent or
    `null` is `None`. `NaN` is not modelled. */
module Js {
  import opened Wrappers

  /** A string field is truthy when present and non-empty. */
  predicate TruthyString(v: Option<string>) {
    v.Some? && v.value != ""
  }

  /** A number field is truthy when present and non-zero. */
  predicate TruthyNumber(v: Option<real>) {
    v.Some? && v.value != 0.0
  }

  /** `v || default` for a string field. */
  function StringOr(v: Option<string>, default: string): (r: string)
    ensures TruthyString(v) ==> r == v.value
    ensures !TruthyString(v) ==> r == default
    ensures default != "" ==> r != ""
  {
    if TruthyString(v) then v.value else default
  }

  /** `v || 0` for a number field: a present 0 and a missing field both give 0,
      so this is the field's value whenever it is present. */
  function NumberOrZero(v: Option<real>): (r: real)
    ensures v.Some? ==> r == v.value
    ensures v.None? ==> r == 0.0
  {
    if TruthyNumber(v) then v.value else 0.0
  }

  /** `Math.round`: the nearest integer, halves rounded towards +infinity. */
  function MathRound(x: real): (r: int)
    ensures r as real - 0.5 <= x < r as real + 0.5
  {
    (x + 0.5).Floor
  }

  /** The contract of `MathRound` pins down its result: no other integer is
      within the same half-open window around `x`. */
  lemma MathRoundUnique(x: real, n: int)
    requires n as real - 0.5 <= x < n as real + 0.5
    ensures n == MathRound(x)
  {
  }
}
