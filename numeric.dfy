/** The two arithmetic helpers of app.js (`clamp` and `round`, lines 124-125) and the
    `Math.*` operations the engine uses, on exact reals and mathematical integers. */
module Numeric {

  function Min(a: real, b: real): real { if a <= b then a else b }
  function Max(a: real, b: real): real { if a >= b then a else b }
  function MinInt(a: int, b: int): int { if a <= b then a else b }
  function MaxInt(a: int, b: int): int { if a >= b then a else b }
  function Abs(x: real): real { if x < 0.0 then -x else x }

  /** `clamp(v, a, b) = Math.max(a, Math.min(b, v))`. */
  function Clamp(v: real, lo: real, hi: real): (r: real)
    ensures lo <= hi ==> lo <= r <= hi
    ensures lo <= v <= hi ==> r == v
    ensures v < lo ==> r == lo
    ensures lo <= hi && hi < v ==> r == hi
  {
    Max(lo, Min(hi, v))
  }

  /** The same `clamp` applied to the integer coherence score. */
  function ClampInt(v: int, lo: int, hi: int): (r: int)
    ensures lo <= hi ==> lo <= r <= hi
    ensures lo <= v <= hi ==> r == v
    ensures v < lo ==> r == lo
    ensures lo <= hi && hi < v ==> r == hi
  {
    MaxInt(lo, MinInt(hi, v))
  }

  /** `Math.round`: the nearest integer, a half rounded toward +infinity. */
  function Round(x: real): (n: int)
    ensures x - 0.5 < n as real <= x + 0.5
  {
    (x + 0.5).Floor
  }

  /** `Math.ceil`: the least integer not below `x`. */
  function Ceil(x: real): (n: int)
    ensures x <= n as real < x + 1.0
  {
    -((-x).Floor)
  }

  /** Rounding an integer gives it back. */
  lemma RoundInt(k: int)
    ensures Round(k as real) == k
  {
  }

  /** Rounding commutes with shifting by a whole number. */
  lemma RoundShift(x: real, k: int)
    ensures Round(x + k as real) == Round(x) + k
  {
    var a, b := Round(x + k as real), Round(x) + k;
    assert x + k as real - 0.5 < a as real <= x + k as real + 0.5;
    assert x + k as real - 0.5 < b as real <= x + k as real + 0.5;
  }

  /** `Math.round` is monotone. */
  lemma RoundMonotone(x: real, y: real)
    requires x <= y
    ensures Round(x) <= Round(y)
  {
  }

  /** Two arguments at least one apart round at least one apart. */
  lemma RoundStrict(x: real, y: real)
    requires x + 1.0 <= y
    ensures Round(x) < Round(y)
  {
    RoundMonotone(x + 1.0, y);
    RoundShift(x, 1);
  }
}
