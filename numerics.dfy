/**
 * The two pieces of Swift numeric behaviour the graph engine depends on,
 * written out over Dafny's unbounded `int` and exact `real` (which stands
 * for `Double` without its rounding error).
 */
module Numerics {

  /** `Int(round(x))`: the nearest integer, halfway cases rounded away from zero. */
  function Round(x: real): (r: int)
    ensures x - 0.5 <= r as real <= x + 0.5
    ensures r as real == x + 0.5 ==> x > 0.0
    ensures r as real == x - 0.5 ==> x < 0.0
  {
    if x >= 0.0 then (x + 0.5).Floor else -((-x + 0.5).Floor)
  }

  /** Rounding never reverses the order of two values. */
  lemma RoundMonotone(x: real, y: real)
    requires x <= y
    ensures Round(x) <= Round(y)
  {
  }

  /** `n / 2` on Swift's `Int`: the quotient is truncated toward zero. */
  function Half(n: int): (q: int)
    ensures n >= 0 ==> 0 <= 2 * q <= n <= 2 * q + 1
    ensures n < 0 ==> 2 * q - 1 <= n <= 2 * q <= 0
  {
    if n >= 0 then n / 2 else -((-n) / 2)
  }

  function Min(a: real, b: real): real { if a <= b then a else b }

  function Max(a: real, b: real): real { if a >= b then a else b }
}
