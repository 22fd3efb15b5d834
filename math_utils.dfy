/** three.js's `MathUtils.lerp`, the smoothing law of both progress updates. */
module MathUtils {

  /** Linear interpolation from `x` towards `y` by factor `t`, with no clamping.
      three.js computes `(1 - t) * x + t * y`; over the reals that is the same
      value as the form written here (see `LerpThreeJsForm`). */
  function Lerp(x: real, y: real, t: real): real
  {
    x + (y - x) * t
  }

  /** The interpolation is exactly three.js's formula. */
  lemma LerpThreeJsForm(x: real, y: real, t: real)
    ensures Lerp(x, y, t) == (1.0 - t) * x + t * y
  {
    assert (y - x) * t == t * y - t * x;
  }

  /** The distance left to `y` after one interpolation step is the old distance
      scaled by `1 - t`. */
  lemma LerpRemaining(x: real, y: real, t: real)
    ensures y - Lerp(x, y, t) == (y - x) * (1.0 - t)
  {
    var a := y - x;
    assert a * (1.0 - t) == a - a * t;
  }

  /** Interpolating towards 0 scales the value by `1 - t`. */
  lemma LerpToZero(x: real, t: real)
    ensures Lerp(x, 0.0, t) == x * (1.0 - t)
  {
    assert (0.0 - x) * t == -(x * t);
    assert x * (1.0 - t) == x - x * t;
  }

  /** A non-negative number scaled by a factor in [0, 1] lies between 0 and itself. */
  lemma ScaleBounds(a: real, t: real)
    requires 0.0 <= a && 0.0 <= t <= 1.0
    ensures 0.0 <= a * t <= a
  {
    assert a - a * t == a * (1.0 - t);
  }

  /** A non-positive number scaled by a factor in [0, 1] lies between itself and 0. */
  lemma ScaleBoundsNonPositive(a: real, t: real)
    requires a <= 0.0 && 0.0 <= t <= 1.0
    ensures a <= a * t <= 0.0
  {
    assert a * t - a == -a * (1.0 - t);
  }

  /** Moving upwards with a factor in [0, 1] the value never drops below its start. */
  lemma LerpNotBelowStart(x: real, y: real, t: real)
    requires x <= y && 0.0 <= t <= 1.0
    ensures x <= Lerp(x, y, t)
  {
    ScaleBounds(y - x, t);
  }

  /** Moving upwards with a factor in [0, 1] the value never passes the target. */
  lemma LerpNotAboveTarget(x: real, y: real, t: real)
    requires x <= y && 0.0 <= t <= 1.0
    ensures Lerp(x, y, t) <= y
  {
    ScaleBounds(y - x, t);
  }

  /** Moving downwards with a factor in [0, 1] the value never rises above its start. */
  lemma LerpNotAboveStart(x: real, y: real, t: real)
    requires y <= x && 0.0 <= t <= 1.0
    ensures Lerp(x, y, t) <= x
  {
    ScaleBoundsNonPositive(y - x, t);
  }

  /** Moving downwards with a factor in [0, 1] the value never passes the target. */
  lemma LerpNotBelowTarget(x: real, y: real, t: real)
    requires y <= x && 0.0 <= t <= 1.0
    ensures y <= Lerp(x, y, t)
  {
    ScaleBoundsNonPositive(y - x, t);
  }

  /** Interpolating upwards with a factor in [0, 1] lands between the two ends. */
  lemma LerpUp(x: real, y: real, t: real)
    requires x <= y && 0.0 <= t <= 1.0
    ensures x <= Lerp(x, y, t) <= y
  {
    LerpNotBelowStart(x, y, t);
    LerpNotAboveTarget(x, y, t);
  }

  /** Interpolating downwards with a factor in [0, 1] lands between the two ends. */
  lemma LerpDown(x: real, y: real, t: real)
    requires y <= x && 0.0 <= t <= 1.0
    ensures y <= Lerp(x, y, t) <= x
  {
    LerpNotAboveStart(x, y, t);
    LerpNotBelowTarget(x, y, t);
  }

  /** A product with a positive factor keeps a strict order. */
  lemma ScaleStrict(a: real, b: real, c: real)
    requires a < b && 0.0 < c
    ensures a * c < b * c
  {
    assert b * c - a * c == (b - a) * c;
  }

  /** A product with a non-negative factor on the left keeps a non-strict order. */
  lemma ScaleMonotone(c: real, a: real, b: real)
    requires a <= b && 0.0 <= c
    ensures c * a <= c * b
  {
    assert c * b - c * a == c * (b - a);
  }

  /** A product with a positive factor on the left keeps a strict order. */
  lemma ScaleStrictLeft(c: real, a: real, b: real)
    requires a < b && 0.0 < c
    ensures c * a < c * b
  {
    assert c * b - c * a == c * (b - a);
  }

  /** `k` raised to the `n`-th power. */
  function Pow(k: real, n: nat): real
  {
    if n == 0 then 1.0 else k * Pow(k, n - 1)
  }

  /** `n` frames with the same delta. */
  function Repeat(delta: real, n: nat): (ds: seq<real>)
    ensures |ds| == n
    ensures forall k | 0 <= k < n :: ds[k] == delta
  {
    if n == 0 then [] else [delta] + Repeat(delta, n - 1)
  }

  /** Scalings of the distance `t - x` compose: if one step scales it by `k`
      and the following `n - 1` steps by `k^(n-1)`, together they scale it by `k^n`. */
  lemma ScalingsCompose(t: real, x: real, y: real, z: real, k: real, n: nat)
    requires 0 < n
    requires t - y == (t - x) * k
    requires t - z == (t - y) * Pow(k, n - 1)
    ensures t - z == (t - x) * Pow(k, n)
  {
    assert (t - x) * k * Pow(k, n - 1) == (t - x) * (k * Pow(k, n - 1));
  }

  /** For a base in [0, 1] every power is non-negative. */
  lemma {:induction false} PowNonNegative(k: real, n: nat)
    requires 0.0 <= k <= 1.0
    ensures 0.0 <= Pow(k, n)
  {
    if n > 0 {
      PowNonNegative(k, n - 1);
      ScaleBounds(Pow(k, n - 1), k);
    }
  }

  /** For a base in [0, 1] every power is at most 1. */
  lemma {:induction false} PowAtMostOne(k: real, n: nat)
    requires 0.0 <= k <= 1.0
    ensures Pow(k, n) <= 1.0
  {
    if n > 0 {
      PowNonNegative(k, n - 1);
      PowAtMostOne(k, n - 1);
      ScaleBounds(Pow(k, n - 1), k);
      assert Pow(k, n) == Pow(k, n - 1) * k;
    }
  }

  /** For a base in [0, 1] the powers never grow with the exponent. */
  lemma PowNonIncreasing(k: real, n: nat)
    requires 0.0 <= k <= 1.0
    ensures Pow(k, n + 1) <= Pow(k, n)
  {
    PowNonNegative(k, n);
    ScaleBounds(Pow(k, n), k);
  }

  /** The value after one interpolation towards `target` per factor in `ts`,
      the progress after a run of frames of either smoother. */
  function Smooth(p: real, target: real, ts: seq<real>): real
    decreases |ts|
  {
    if ts == [] then p else Smooth(Lerp(p, target, ts[0]), target, ts[1..])
  }

  /** Every factor of the run lies in [0, 1]. */
  ghost predicate UnitFactors(ts: seq<real>)
  {
    forall k | 0 <= k < |ts| :: 0.0 <= ts[k] <= 1.0
  }

  /** Dropping the first frame of a run keeps its factors in [0, 1]. */
  lemma UnitFactorsTail(ts: seq<real>)
    requires ts != [] && UnitFactors(ts)
    ensures UnitFactors(ts[1..])
  {
    forall k | 0 <= k < |ts[1..]| ensures 0.0 <= ts[1..][k] <= 1.0 {
      assert ts[1..][k] == ts[k + 1];
    }
  }

  /** Moving upwards with factors in [0, 1], the value stays between its start
      and the target throughout a run. */
  lemma {:induction false} SmoothUp(p: real, target: real, ts: seq<real>)
    requires p <= target && UnitFactors(ts)
    ensures p <= Smooth(p, target, ts) <= target
    decreases |ts|
  {
    if ts != [] {
      LerpUp(p, target, ts[0]);
      UnitFactorsTail(ts);
      SmoothUp(Lerp(p, target, ts[0]), target, ts[1..]);
    }
  }

  /** Moving downwards with factors in [0, 1], the value stays between the
      target and its start throughout a run. */
  lemma {:induction false} SmoothDown(p: real, target: real, ts: seq<real>)
    requires target <= p && UnitFactors(ts)
    ensures target <= Smooth(p, target, ts) <= p
    decreases |ts|
  {
    if ts != [] {
      LerpDown(p, target, ts[0]);
      UnitFactorsTail(ts);
      SmoothDown(Lerp(p, target, ts[0]), target, ts[1..]);
    }
  }

  /** The first of `n` equal frames is one interpolation. */
  lemma SmoothRepeatUnfold(p: real, target: real, t: real, n: nat)
    requires 0 < n
    ensures Smooth(p, target, Repeat(t, n)) == Smooth(Lerp(p, target, t), target, Repeat(t, n - 1))
  {
    var ts := Repeat(t, n);
    assert ts[0] == t && ts[1..] == Repeat(t, n - 1);
  }

  /** After `n` frames with the same factor `t` the distance to the target is the
      initial distance scaled by `(1 - t)^n`. */
  lemma {:induction false} SmoothRepeatRemaining(p: real, target: real, t: real, n: nat)
    ensures target - Smooth(p, target, Repeat(t, n)) == (target - p) * Pow(1.0 - t, n)
    decreases n
  {
    if n > 0 {
      var q := Lerp(p, target, t);
      SmoothRepeatUnfold(p, target, t, n);
      LerpRemaining(p, target, t);
      SmoothRepeatRemaining(q, target, t, n - 1);
      ScalingsCompose(target, p, q, Smooth(q, target, Repeat(t, n - 1)), 1.0 - t, n);
    } else {
      assert Repeat(t, n) == [];
      assert Pow(1.0 - t, n) == 1.0;
    }
  }

  /** With a factor in [0, 1] the scale on the remaining distance lies in
      [0, 1] and one more frame never enlarges it. */
  lemma SmoothRepeatMonotone(t: real, n: nat)
    requires 0.0 <= t <= 1.0
    ensures 0.0 <= Pow(1.0 - t, n + 1) <= Pow(1.0 - t, n) <= 1.0
  {
    PowNonNegative(1.0 - t, n + 1);
    PowNonIncreasing(1.0 - t, n);
    PowAtMostOne(1.0 - t, n);
  }

  /** Bernoulli's inequality in the form `(1 - t)^n <= 1 / (1 + n * t)`. */
  lemma {:induction false} PowBernoulli(t: real, n: nat)
    requires 0.0 <= t <= 1.0
    ensures Pow(1.0 - t, n) * (1.0 + (n as real) * t) <= 1.0
  {
    if n > 0 {
      var k, m := 1.0 - t, (n - 1) as real;
      PowNonNegative(k, n - 1);
      PowBernoulli(t, n - 1);
      BernoulliStep(t, m);
      ScaleMonotone(Pow(k, n - 1), k * (1.0 + m * t + t), 1.0 + m * t);
      Regroup(k, Pow(k, n - 1), 1.0 + (n as real) * t, 1.0 + m * t + t);
    }
  }

  /** One step of Bernoulli's inequality: `(1 - t) * (1 + (m + 1) * t) <= 1 + m * t`. */
  lemma BernoulliStep(t: real, m: real)
    requires 0.0 <= t <= 1.0 && 0.0 <= m
    ensures (1.0 - t) * (1.0 + m * t + t) <= 1.0 + m * t
  {
    assert (1.0 - t) * (1.0 + m * t + t) == 1.0 + m * t - t * t * (m + 1.0);
    assert 0.0 <= t * t * (m + 1.0);
  }

  /** `(k * q) * a == q * (k * b)` when `a == b`. */
  lemma Regroup(k: real, q: real, a: real, b: real)
    requires a == b
    ensures k * q * a == q * (k * b)
  {
  }

  /** The absolute value of a real. */
  function Abs(x: real): real
  {
    if x < 0.0 then -x else x
  }

  /** Repeated frames converge to the target: with a factor `t` in [0, 1], the
      distance left after `n` frames is at most the initial distance divided by
      `1 + n * t`, which tends to 0 as `n` grows when `t > 0`. */
  lemma {:induction false} SmoothRepeatConverges(p: real, target: real, t: real, n: nat)
    requires 0.0 <= t <= 1.0
    ensures Abs(target - Smooth(p, target, Repeat(t, n))) * (1.0 + (n as real) * t)
         <= Abs(target - p)
  {
    SmoothRepeatRemaining(p, target, t, n);
    ScaledDistanceBound(target - p, target - Smooth(p, target, Repeat(t, n)), t, n);
  }

  /** A distance `e` that is `d` scaled by `(1 - t)^n`, with `t` in [0, 1],
      satisfies `|e| * (1 + n * t) <= |d|`. */
  lemma {:induction false} ScaledDistanceBound(d: real, e: real, t: real, n: nat)
    requires 0.0 <= t <= 1.0 && e == d * Pow(1.0 - t, n)
    ensures Abs(e) * (1.0 + (n as real) * t) <= Abs(d)
  {
    PowNonNegative(1.0 - t, n);
    PowBernoulli(t, n);
    DistanceBound(d, e, Pow(1.0 - t, n), 1.0 + (n as real) * t);
  }

  /** A distance `e` that is `d` scaled by `k >= 0`, where `k * b <= 1`,
      satisfies `|e| * b <= |d|`. */
  lemma DistanceBound(d: real, e: real, k: real, b: real)
    requires e == d * k && 0.0 <= k && k * b <= 1.0
    ensures Abs(e) * b <= Abs(d)
  {
    var a := Abs(d);
    ScaleMonotone(a, 0.0, k);
    assert Abs(e) == a * k by {
      if d < 0.0 {
        assert e == -(a * k);
      }
    }
    ScaleMonotone(a, k * b, 1.0);
    assert a * k * b == a * (k * b);
  }
}
