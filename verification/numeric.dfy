/** Numeric helpers that stand for JavaScript's `Math` functions and for the
    `parseFloat(x) || 0` idiom, over exact reals. */
module Numeric {
  import opened Wrappers

  /** `parseFloat`, as an abstract partial parser: `None` is `NaN`. */
  type Parser = string -> Option<real>

  /** `parseInt`, as an abstract partial parser: `None` is `NaN`. */
  type IntParser = string -> Option<int>

  /** `parseFloat(x) || 0`: a value that did not parse counts as zero. */
  function OrZero(p: Option<real>): (r: real)
    ensures p.None? ==> r == 0.0
    ensures p.Some? ==> r == p.value
  {
    p.GetOr(0.0)
  }

  /** `Math.round`: the nearest integer, halves rounded towards +infinity. */
  function Round(x: real): (n: int)
    ensures n as real - 0.5 <= x < n as real + 0.5
  {
    (x + 0.5).Floor
  }

  /** `Math.round` is determined by its defining inequality. */
  lemma RoundUnique(x: real, n: int)
    requires n as real - 0.5 <= x < n as real + 0.5
    ensures Round(x) == n
  {
  }

  /** `Math.abs`. */
  function Abs(x: real): (r: real)
    ensures r >= 0.0
    ensures r == x || r == -x
  {
    if x < 0.0 then -x else x
  }

  /** `Math.min` on integers. */
  function MinInt(a: int, b: int): (r: int)
    ensures r <= a && r <= b
    ensures r == a || r == b
  {
    if a <= b then a else b
  }

  /** `Math.max` on integers. */
  function MaxInt(a: int, b: int): (r: int)
    ensures r >= a && r >= b
    ensures r == a || r == b
  {
    if a >= b then a else b
  }
}
