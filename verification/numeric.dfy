/**
 * Small numeric vocabulary shared by every part of the model: an Option
 * type for optional fields, the clamp used throughout the source
 * (`Math.max(lo, Math.min(hi, x))`), and the JavaScript remainder by 1,
 * which truncates toward zero rather than flooring.
 */
module Numeric {

  datatype Option<+T> = None | Some(value: T)

  function Min(a: real, b: real): real { if a <= b then a else b }

  function Max(a: real, b: real): real { if a >= b then a else b }

  function Abs(x: real): real { if x < 0.0 then -x else x }

  /** `Math.max(lo, Math.min(hi, x))`: never below `lo`, inside [lo, hi]
      whenever that interval is non-empty, and the identity on it. */
  function Clamp(x: real, lo: real, hi: real): (r: real)
    ensures r >= lo
    ensures lo <= hi ==> lo <= r <= hi
    ensures lo <= x <= hi ==> r == x
    ensures lo <= hi && x < lo ==> r == lo
    ensures lo <= hi && x > hi ==> r == hi
  {
    Max(lo, Min(hi, x))
  }

  /** Distance covered at speed `v` (laps per second) in `dt` seconds.
      Kept as a function so that the product is one term to the prover. */
  function Travel(v: real, dt: real): real { v * dt }

  /** A real number with no fractional part. */
  predicate IsInteger(x: real) { x == x.Floor as real }

  lemma IntegerDifference(a: real, b: real)
    requires IsInteger(a) && IsInteger(b)
    ensures IsInteger(a - b)
  {
    assert a - b == (a.Floor - b.Floor) as real;
  }

  /** The only integer strictly between -1 and 1 is 0. */
  lemma SmallIntegerIsZero(x: real)
    requires IsInteger(x) && -1.0 < x < 1.0
    ensures x == 0.0
  {
  }

  /** JavaScript's truncation toward zero (the integer part of `x % 1`). */
  function Trunc(x: real): (n: int)
    ensures 0.0 <= x ==> 0.0 <= x - n as real < 1.0
    ensures x < 0.0 ==> -1.0 < x - n as real <= 0.0
  {
    if x >= 0.0 then x.Floor else -((-x).Floor)
  }

  /** JavaScript `x % 1`: the fractional part, carrying the sign of `x`. */
  function JsRem1(x: real): (r: real)
    ensures 0.0 <= x ==> 0.0 <= r < 1.0
    ensures x < 0.0 ==> -1.0 < r <= 0.0
  {
    x - Trunc(x) as real
  }

  /** `x % 1` differs from `x` by a whole number. */
  lemma JsRem1Congruent(x: real)
    ensures IsInteger(x - JsRem1(x))
  {
    assert x - JsRem1(x) == Trunc(x) as real;
  }
}
