/**
 * Numeric helpers shared by the model: JavaScript's Math.min/max/floor/round,
 * the truncating remainder operator `%`, and Math.pow with a whole exponent.
 * JavaScript numbers are modelled as exact reals.
 */
module Numeric {

  function Min(a: real, b: real): real { if a <= b then a else b }

  function Max(a: real, b: real): real { if a >= b then a else b }

  function MinInt(a: int, b: int): int { if a <= b then a else b }

  function MaxInt(a: int, b: int): int { if a >= b then a else b }

  function Abs(x: real): real { if x < 0.0 then -x else x }

  /** Math.max(lo, Math.min(v, hi)) */
  function Clamp(v: real, lo: real, hi: real): (r: real)
    requires lo <= hi
    ensures lo <= r <= hi
    ensures lo <= v <= hi ==> r == v
  {
    Max(lo, Min(v, hi))
  }

  /** Math.floor */
  function Floor(x: real): int { x.Floor }

  /** Math.round: the nearest integer, halves rounded up. */
  function Round(x: real): (n: int)
    ensures x - 0.5 < n as real <= x + 0.5
  {
    (x + 0.5).Floor
  }

  /** Math.sign, restricted to the values the model needs. */
  function Sign(x: real): real { if x > 0.0 then 1.0 else if x < 0.0 then -1.0 else 0.0 }

  /** Truncation toward zero. */
  function Trunc(x: real): int { if x >= 0.0 then x.Floor else -((-x).Floor) }

  /** JavaScript's `x % m`: the remainder takes the sign of the dividend. */
  function JsMod(x: real, m: real): real
    requires m != 0.0
  {
    x - m * Trunc(x / m) as real
  }

  /** Math.pow(b, n) for a whole exponent n >= 0. */
  function Pow(b: real, n: nat): real
  {
    if n == 0 then 1.0 else b * Pow(b, n - 1)
  }

  /** Math.pow(b, n) for any whole exponent, b > 0. */
  function PowInt(b: real, n: int): real
    requires b > 0.0
  {
    if n >= 0 then Pow(b, n) else PowPositive(b, -n); 1.0 / Pow(b, -n)
  }

  lemma FloorMonotone(x: real, y: real)
    requires x <= y
    ensures Floor(x) <= Floor(y)
  {
  }

  lemma RoundMonotone(x: real, y: real)
    requires x <= y
    ensures Round(x) <= Round(y)
  {
  }

  lemma {:induction false} PowPositive(b: real, n: nat)
    requires b > 0.0
    ensures Pow(b, n) > 0.0
  {
    if n > 0 {
      PowPositive(b, n - 1);
    }
  }

  lemma {:induction false} PowAtLeastOne(b: real, n: nat)
    requires b >= 1.0
    ensures Pow(b, n) >= 1.0
  {
    if n > 0 {
      PowAtLeastOne(b, n - 1);
      assert b * Pow(b, n - 1) >= 1.0 * Pow(b, n - 1);
    }
  }

  /** A base above one makes Math.pow non-decreasing in its exponent. */
  lemma {:induction false} PowMonotone(b: real, m: nat, n: nat)
    requires b >= 1.0 && m <= n
    ensures Pow(b, m) <= Pow(b, n)
  {
    if m < n {
      PowMonotone(b, m, n - 1);
      PowAtLeastOne(b, n - 1);
      assert Pow(b, n) == b * Pow(b, n - 1) >= 1.0 * Pow(b, n - 1);
    }
  }

  /** m * f <= m * q < m * f + m whenever f <= q < f + 1 and m > 0. */
  lemma ScaledFloorBounds(x: real, m: real, q: real, f: real)
    requires m > 0.0 && x == m * q && f <= q < f + 1.0
    ensures 0.0 <= x - m * f < m
  {
    var below := q - f;
    assert m * below >= 0.0;
    assert m * q - m * f == m * below;
    var above := f + 1.0 - q;
    assert m * above > 0.0;
    assert m * f + m - m * q == m * above;
  }

  /** A non-negative dividend leaves a remainder in [0, m). */
  lemma JsModNonNegative(x: real, m: real)
    requires x >= 0.0 && m > 0.0
    ensures 0.0 <= JsMod(x, m) < m
  {
    var q := x / m;
    var f := q.Floor as real;
    assert Trunc(q) as real == f;
    ScaledFloorBounds(x, m, q, f);
  }

  /** Any remainder lies strictly between -m and m. */
  lemma JsModBounded(x: real, m: real)
    requires m > 0.0
    ensures -m < JsMod(x, m) < m
  {
    if x >= 0.0 {
      JsModNonNegative(x, m);
    } else {
      JsModNonNegative(-x, m);
      assert (-x) / m == -(x / m);
      assert Trunc(x / m) == -Trunc((-x) / m);
      assert JsMod(x, m) == -JsMod(-x, m);
    }
  }
}
