/**
 * Python's numeric conversions, written out for the real-valued model:
 * `int(x)` on a float truncates toward zero, and `min`/`max` pick one of
 * their arguments.
 */
module Numeric {

  /** `int(x)` for a float `x`: truncation toward zero. */
  function Trunc(x: real): (n: int)
    ensures x >= 0.0 ==> n as real <= x < n as real + 1.0
    ensures x < 0.0 ==> n as real - 1.0 < x <= n as real
  {
    if x >= 0.0 then x.Floor else -((-x).Floor)
  }

  /** On a non-negative value truncation is the floor, so it keeps `<=`. */
  lemma TruncMonotone(x: real, y: real)
    requires 0.0 <= x <= y
    ensures 0 <= Trunc(x) <= Trunc(y)
  {
  }

  /** Truncating a fraction in [0, 1] of a non-negative whole number `n` gives a number in [0, n]. */
  lemma TruncOfFraction(n: int, f: real)
    ensures 0 <= n && 0.0 <= f <= 1.0 ==> 0 <= Trunc(f * n as real) <= n
  {
    if 0 <= n && 0.0 <= f <= 1.0 {
      assert n as real * (1.0 - f) >= 0.0;
      assert 0.0 <= f * n as real <= n as real;
      TruncMonotone(f * n as real, n as real);
      TruncOfInt(n);
    }
  }

  /** The product of two non-negative reals is non-negative. */
  lemma MulNonNegative(a: real, b: real)
    requires 0.0 <= a && 0.0 <= b
    ensures 0.0 <= a * b
  {
  }

  /** A fraction of a non-negative amount lies between 0 and the amount. */
  lemma ScaleWithin(a: real, f: real)
    requires 0.0 <= a && 0.0 <= f <= 1.0
    ensures 0.0 <= a * f <= a
  {
    assert a * (1.0 - f) >= 0.0;
  }

  /** An integer-valued float survives `int(...)` unchanged. */
  lemma TruncOfInt(n: int)
    ensures Trunc(n as real) == n
  {
  }

  function MinInt(a: int, b: int): (m: int)
    ensures m <= a && m <= b && (m == a || m == b)
  {
    if a <= b then a else b
  }

  function MaxInt(a: int, b: int): (m: int)
    ensures m >= a && m >= b && (m == a || m == b)
  {
    if a >= b then a else b
  }

  /** `max(lo, min(hi, v))`. */
  function Clamp(lo: int, hi: int, v: int): (r: int)
    ensures lo <= r
    ensures lo <= hi ==> r <= hi
    ensures lo <= v <= hi ==> r == v
    ensures hi < lo ==> r == lo
  {
    MaxInt(lo, MinInt(hi, v))
  }

  /**
   * `min` and `max` on floats. `int` and `real` share no ordering Dafny can
   * abstract over, so the real versions are written out beside the integer ones.
   */
  function MinReal(a: real, b: real): (m: real)
    ensures m <= a && m <= b && (m == a || m == b)
  {
    if a <= b then a else b
  }

  function MaxReal(a: real, b: real): (m: real)
    ensures m >= a && m >= b && (m == a || m == b)
  {
    if a >= b then a else b
  }

  function AbsReal(a: real): (m: real)
    ensures m >= 0.0 && (m == a || m == -a)
  {
    if a >= 0.0 then a else -a
  }

  /**
   * One easing step `v + (target - v) * min(step, 1)`, where `step` is a
   * speed times the frame length: for a non-negative step it moves `v`
   * toward `target` without passing it, and a step of 1 or more lands on
   * `target`.
   */
  function Approach(v: real, target: real, step: real): (r: real)
    ensures step >= 0.0 && v <= target ==> v <= r <= target
    ensures step >= 0.0 && target <= v ==> target <= r <= v
    ensures step >= 1.0 ==> r == target
  {
    var f := MinReal(step, 1.0);
    var d := target - v;
    FractionBounds(d, f);
    assert f == 1.0 ==> d * f == d;
    v + d * f
  }

  /** An easing step with a step below 1 shrinks the distance to the target by the factor 1 - step. */
  lemma ApproachDistance(v: real, target: real, step: real)
    requires 0.0 <= step <= 1.0
    ensures AbsReal(Approach(v, target, step) - target) == (1.0 - step) * AbsReal(v - target)
  {
    var d := target - v;
    assert MinReal(step, 1.0) == step;
    assert Approach(v, target, step) - target == -(d * (1.0 - step));
    if d >= 0.0 {
      assert d * (1.0 - step) >= 0.0;
    } else {
      assert d * (1.0 - step) <= 0.0;
    }
  }

  /** A fraction in [0, 1] of `d` lies between 0 and `d`. */
  lemma FractionBounds(d: real, f: real)
    ensures 0.0 <= f <= 1.0 && d >= 0.0 ==> 0.0 <= d * f <= d
    ensures 0.0 <= f <= 1.0 && d <= 0.0 ==> d <= d * f <= 0.0
  {
    if 0.0 <= f <= 1.0 {
      assert d * (1.0 - f) == d - d * f;
    }
  }

  /** Total length of a run of frames. */
  function Sum(dts: seq<real>): real {
    if dts == [] then 0.0 else dts[0] + Sum(dts[1..])
  }

  lemma {:induction false} SumNonNegative(dts: seq<real>)
    requires forall i :: 0 <= i < |dts| ==> dts[i] >= 0.0
    ensures Sum(dts) >= 0.0
  {
    if dts != [] {
      SumNonNegative(dts[1..]);
    }
  }
}
