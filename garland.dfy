/** The garland ribbon: the spiral of control points its tube follows, and the
    per-frame progress uniform that reveals and hides it. */
module Garland {
  import opened JsMath
  import opened Types
  import MathUtils

  /** Number of spiral segments; the loop emits one point more. */
  const Segments: nat := 384
  /** Normalised height at which the spiral starts. */
  const BaseYNorm: real := 0.55
  /** Constant outward displacement of the ribbon from the cone. */
  const OuterOffset: real := 3.5
  /** Default values of the `turns`, `height` and `radius` properties. */
  const DefaultTurns: real := 8.0
  const DefaultHeight: real := 12.0
  const DefaultRadius: real := 8.0

  /** One sample of the spiral: its normalised height, height, radius and angle,
      and the x and z of the control point `(x, y, z)` pushed for it. */
  datatype SpiralPoint = SpiralPoint(yNorm: real, y: real, r: real, angle: real, x: real, z: real)

  /** Normalised height of sample `i`: from 0.55 at the first sample to 1 at the last. */
  function YNorm(i: int): (v: real)
    ensures 0 <= i <= Segments ==> BaseYNorm <= v <= 1.0
  {
    BaseYNorm + (i as real / Segments as real) * (1.0 - BaseYNorm)
  }

  /** Radius at normalised height `yNorm`: the cone's radius there plus the offset. */
  function Radius(radius: real, yNorm: real): (r: real)
    ensures 0.0 <= radius && yNorm <= 1.0 ==> OuterOffset <= r
  {
    radius * (1.0 - yNorm) + OuterOffset
  }

  /** Angle at normalised height `yNorm`: `turns` full revolutions over the whole height. */
  function Angle(turns: real, yNorm: real): real
  {
    yNorm * turns * PI * 2.0
  }

  /** The sample the loop produces for index `i`. */
  function PointAt(i: int, turns: real, height: real, radius: real, m: Functions): SpiralPoint
  {
    var yNorm := YNorm(i);
    var r := Radius(radius, yNorm);
    var angle := Angle(turns, yNorm);
    SpiralPoint(yNorm, yNorm * height, r, angle, m.cos(angle) * r, m.sin(angle) * r)
  }

  /** Computes the control points of the spiral, one per index `0..384` in
      increasing order, and the number of tubular segments of the tube built
      along them. */
  method BuildSpiral(turns: real, height: real, radius: real, m: Functions)
    returns (pts: seq<SpiralPoint>, tubularSegments: nat)
    ensures |pts| == Segments + 1
    ensures forall i | 0 <= i < |pts| :: pts[i] == PointAt(i, turns, height, radius, m)
    ensures tubularSegments == 2 * Segments == 768
  {
    pts := [];
    var segments := Segments;
    var baseYNorm := BaseYNorm;
    var i := 0;
    while i <= segments
      invariant 0 <= i <= segments + 1
      invariant |pts| == i
      invariant forall j | 0 <= j < i :: pts[j] == PointAt(j, turns, height, radius, m)
    {
      var t := i as real / segments as real;
      var yNorm := baseYNorm + t * (1.0 - baseYNorm);
      var y := yNorm * height;
      var r := radius * (1.0 - yNorm) + OuterOffset;
      var angle := yNorm * turns * PI * 2.0;
      var x := m.cos(angle) * r;
      var z := m.sin(angle) * r;
      assert yNorm == YNorm(i) && r == Radius(radius, yNorm) && angle == Angle(turns, yNorm);
      assert SpiralPoint(yNorm, y, r, angle, x, z) == PointAt(i, turns, height, radius, m);
      pts := pts + [SpiralPoint(yNorm, y, r, angle, x, z)];
      i := i + 1;
    }
    tubularSegments := segments * 2;
  }

  /** The first sample sits at 55% of the height, the last exactly at the top. */
  lemma YNormEndpoints()
    ensures YNorm(0) == BaseYNorm
    ensures YNorm(Segments) == 1.0
  {
  }

  /** Normalised height strictly increases with the sample index. */
  lemma YNormStrictlyIncreasing(i: int, j: int)
    requires i < j
    ensures YNorm(i) < YNorm(j)
  {
  }

  /** For a positive height the points climb strictly, and the last one sits at
      the full height. */
  lemma HeightIncreasing(i: int, j: int, turns: real, height: real, radius: real, m: Functions)
    requires i < j && 0.0 < height
    ensures PointAt(i, turns, height, radius, m).y < PointAt(j, turns, height, radius, m).y
    ensures PointAt(Segments, turns, height, radius, m).y == height
  {
    YNormStrictlyIncreasing(i, j);
    MathUtils.ScaleStrict(YNorm(i), YNorm(j), height);
  }

  /** For a non-negative radius the radius does not grow with the normalised
      height, and up to the top it stays at least the offset. */
  lemma RadiusMonotone(radius: real, a: real, b: real)
    requires a <= b <= 1.0 && 0.0 <= radius
    ensures Radius(radius, b) <= Radius(radius, a)
    ensures OuterOffset <= Radius(radius, b)
  {
    MathUtils.ScaleMonotone(radius, 1.0 - b, 1.0 - a);
  }

  /** For a non-negative radius the radius never grows along the curve and never
      drops below the offset 3.5. */
  lemma RadiusNonIncreasing(i: int, j: int, turns: real, height: real, radius: real, m: Functions)
    requires 0 <= i <= j <= Segments && 0.0 <= radius
    ensures PointAt(j, turns, height, radius, m).r <= PointAt(i, turns, height, radius, m).r
    ensures OuterOffset <= PointAt(j, turns, height, radius, m).r
  {
    if i < j {
      YNormStrictlyIncreasing(i, j);
    }
    RadiusMonotone(radius, YNorm(i), YNorm(j));
    assert PointAt(i, turns, height, radius, m).r == Radius(radius, YNorm(i));
    assert PointAt(j, turns, height, radius, m).r == Radius(radius, YNorm(j));
  }

  /** The last point's radius is exactly the offset 3.5 and the first point's is
      `radius * 0.45 + 3.5`. */
  lemma RadiusEndpoints(turns: real, height: real, radius: real, m: Functions)
    ensures PointAt(Segments, turns, height, radius, m).r == OuterOffset
    ensures PointAt(0, turns, height, radius, m).r == radius * 0.45 + OuterOffset
  {
    YNormEndpoints();
  }

  /** For a positive number of turns the angle strictly increases with the
      normalised height. */
  lemma AngleMonotone(turns: real, a: real, b: real)
    requires a < b && 0.0 < turns
    ensures Angle(turns, a) < Angle(turns, b)
  {
    MathUtils.ScaleStrict(a, b, turns);
    MathUtils.ScaleStrict(a * turns, b * turns, PI);
    MathUtils.ScaleStrict(a * turns * PI, b * turns * PI, 2.0);
  }

  /** For a positive number of turns the angle strictly increases along the curve. */
  lemma AngleIncreasing(i: int, j: int, turns: real, height: real, radius: real, m: Functions)
    requires i < j && 0.0 < turns
    ensures PointAt(i, turns, height, radius, m).angle < PointAt(j, turns, height, radius, m).angle
  {
    YNormStrictlyIncreasing(i, j);
    AngleMonotone(turns, YNorm(i), YNorm(j));
    assert PointAt(i, turns, height, radius, m).angle == Angle(turns, YNorm(i));
    assert PointAt(j, turns, height, radius, m).angle == Angle(turns, YNorm(j));
  }

  /** The angle runs from `0.55 * turns * 2π` at the first point to `turns * 2π`
      at the last. */
  lemma AngleEndpoints(turns: real, height: real, radius: real, m: Functions)
    ensures PointAt(0, turns, height, radius, m).angle == BaseYNorm * turns * PI * 2.0
    ensures PointAt(Segments, turns, height, radius, m).angle == turns * PI * 2.0
  {
    YNormEndpoints();
  }

  /** With the default properties the spiral runs from radius 7.1 at height 6.6
      to radius 3.5 at height 12, over eight full turns. */
  lemma DefaultSpiral(m: Functions)
    ensures PointAt(0, DefaultTurns, DefaultHeight, DefaultRadius, m).r == 7.1
    ensures PointAt(0, DefaultTurns, DefaultHeight, DefaultRadius, m).y == 6.6
    ensures PointAt(Segments, DefaultTurns, DefaultHeight, DefaultRadius, m).r == 3.5
    ensures PointAt(Segments, DefaultTurns, DefaultHeight, DefaultRadius, m).y == 12.0
    ensures PointAt(Segments, DefaultTurns, DefaultHeight, DefaultRadius, m).angle == 8.0 * 2.0 * PI
  {
    YNormEndpoints();
  }

  /** The lerp factor of one frame: `10 * delta` while hiding, `delta` while revealing. */
  function Rate(mode: TreeMode, delta: real): (s: real)
    ensures mode == Formed ==> s == delta * 1.0
    ensures mode != Formed ==> s == delta * 10.0
  {
    var target := ProgressTarget(mode);
    if target == 0.0 then delta * 10.0 else delta * 1.0
  }

  /** One frame of the progress update: lerp towards the target by the
      direction-dependent factor. */
  function Step(p: real, mode: TreeMode, delta: real): real
  {
    MathUtils.Lerp(p, ProgressTarget(mode), Rate(mode, delta))
  }

  /** With progress in [0, 1] and a factor in [0, 1], one frame keeps progress in
      [0, 1] and moves it towards the target without passing it. */
  lemma StepBounds(p: real, mode: TreeMode, delta: real)
    requires 0.0 <= p <= 1.0
    requires 0.0 <= Rate(mode, delta) <= 1.0
    ensures 0.0 <= Step(p, mode, delta) <= 1.0
    ensures mode == Formed ==> p <= Step(p, mode, delta)
    ensures mode != Formed ==> Step(p, mode, delta) <= p
  {
    if mode == Formed {
      MathUtils.LerpUp(p, 1.0, Rate(mode, delta));
    } else {
      MathUtils.LerpDown(p, 0.0, Rate(mode, delta));
    }
  }

  /** A hide step scales the distance `p` to 0 by `1 - 10 * delta`. */
  lemma HideRemaining(p: real, delta: real)
    ensures Step(p, Chaos, delta) == p * (1.0 - delta * 10.0)
  {
    MathUtils.LerpToZero(p, Rate(Chaos, delta));
  }

  /** A reveal step scales the distance `d` to 1 by `1 - delta`. */
  lemma RevealRemaining(d: real, delta: real)
    ensures 1.0 - Step(1.0 - d, Formed, delta) == d * (1.0 - delta * 1.0)
  {
    MathUtils.LerpRemaining(1.0 - d, 1.0, Rate(Formed, delta));
    assert 1.0 - (1.0 - d) == d;
  }

  /** Hiding contracts faster than revealing: for the same frame delta and the
      same distance `d > 0` still to go, a hide step leaves strictly less of it
      than a reveal step. */
  lemma HidingContractsFaster(d: real, delta: real)
    requires 0.0 < delta && delta * 10.0 <= 1.0
    requires 0.0 < d
    ensures 0.0 <= Step(d, Chaos, delta) < 1.0 - Step(1.0 - d, Formed, delta)
  {
    HideRemaining(d, delta);
    RevealRemaining(d, delta);
    MathUtils.ScaleBounds(d, 1.0 - delta * 10.0);
    MathUtils.ScaleStrictLeft(d, 1.0 - delta * 10.0, 1.0 - delta * 1.0);
  }

  /** Three frames at 60 frames per second starting hidden: in `Chaos` nothing
      changes, in `Formed` progress rises to 1/60, and back in `Chaos` it falls
      to 1/72. */
  lemma ModeFlipFrames()
    ensures Step(0.0, Chaos, 1.0 / 60.0) == 0.0
    ensures Step(0.0, Formed, 1.0 / 60.0) == 1.0 / 60.0
    ensures Step(1.0 / 60.0, Chaos, 1.0 / 60.0) == 1.0 / 72.0
  {
    assert Rate(Chaos, 1.0 / 60.0) == 1.0 / 6.0;
    assert Rate(Formed, 1.0 / 60.0) == 1.0 / 60.0;
    assert (1.0 - 1.0 / 6.0) * (1.0 / 60.0) == 1.0 / 72.0;
  }

  /** The lerp factors of a run of frames in `mode`. */
  function Factors(mode: TreeMode, deltas: seq<real>): seq<real>
  {
    seq(|deltas|, k requires 0 <= k < |deltas| => Rate(mode, deltas[k]))
  }

  /** Progress after one frame per element of `deltas`, all in the same mode. */
  function After(p: real, mode: TreeMode, deltas: seq<real>): real
  {
    MathUtils.Smooth(p, ProgressTarget(mode), Factors(mode, deltas))
  }

  /** A run of frames is its first frame followed by the rest, so `n` calls of
      `Uniforms.Frame` take progress to `After` of their deltas. */
  lemma AfterFirstFrame(p: real, mode: TreeMode, deltas: seq<real>)
    requires deltas != []
    ensures After(p, mode, deltas) == After(Step(p, mode, deltas[0]), mode, deltas[1..])
  {
    assert Factors(mode, deltas)[0] == Rate(mode, deltas[0]);
    assert Factors(mode, deltas)[1..] == Factors(mode, deltas[1..]);
  }

  /** Every frame delta keeps the lerp factor of `mode` in [0, 1]. */
  ghost predicate ValidDeltas(mode: TreeMode, deltas: seq<real>)
  {
    forall k | 0 <= k < |deltas| :: 0.0 <= Rate(mode, deltas[k]) <= 1.0
  }

  /** Over any run of frames with valid deltas progress stays in [0, 1]; in
      `Formed` it never decreases and otherwise it never increases. */
  lemma AfterBounds(p: real, mode: TreeMode, deltas: seq<real>)
    requires 0.0 <= p <= 1.0
    requires ValidDeltas(mode, deltas)
    ensures 0.0 <= After(p, mode, deltas) <= 1.0
    ensures mode == Formed ==> p <= After(p, mode, deltas)
    ensures mode != Formed ==> After(p, mode, deltas) <= p
  {
    assert MathUtils.UnitFactors(Factors(mode, deltas));
    if mode == Formed {
      MathUtils.SmoothUp(p, 1.0, Factors(mode, deltas));
    } else {
      MathUtils.SmoothDown(p, 0.0, Factors(mode, deltas));
    }
  }

  /** After `n` frames in the same mode with the same delta the distance to the
      target is the initial distance scaled by `(1 - factor)^n`; with a factor in
      [0, 1] that scale lies in [0, 1] and shrinks frame by frame
      (`MathUtils.SmoothRepeatMonotone`). */
  lemma AfterRepeatRemaining(p: real, mode: TreeMode, delta: real, n: nat)
    ensures ProgressTarget(mode) - After(p, mode, MathUtils.Repeat(delta, n))
         == (ProgressTarget(mode) - p) * MathUtils.Pow(1.0 - Rate(mode, delta), n)
  {
    FactorsRepeat(mode, delta, n);
    MathUtils.SmoothRepeatRemaining(p, ProgressTarget(mode), Rate(mode, delta), n);
  }

  /** Progress converges to the target: with the factor of `mode` in [0, 1],
      the distance left after `n` equal frames is at most the initial distance
      divided by `1 + n * factor`, so for a positive factor it tends to 0 as
      `n` grows. */
  lemma {:induction false} AfterRepeatConverges(p: real, mode: TreeMode, delta: real, n: nat)
    requires 0.0 <= Rate(mode, delta) <= 1.0
    ensures MathUtils.Abs(ProgressTarget(mode) - After(p, mode, MathUtils.Repeat(delta, n)))
              * (1.0 + (n as real) * Rate(mode, delta))
         <= MathUtils.Abs(ProgressTarget(mode) - p)
  {
    FactorsRepeat(mode, delta, n);
    assert After(p, mode, MathUtils.Repeat(delta, n))
        == MathUtils.Smooth(p, ProgressTarget(mode), MathUtils.Repeat(Rate(mode, delta), n));
    MathUtils.SmoothRepeatConverges(p, ProgressTarget(mode), Rate(mode, delta), n);
  }

  /** `n` equal frames have `n` equal factors. */
  lemma FactorsRepeat(mode: TreeMode, delta: real, n: nat)
    ensures Factors(mode, MathUtils.Repeat(delta, n)) == MathUtils.Repeat(Rate(mode, delta), n)
  {
    var ds := MathUtils.Repeat(delta, n);
    forall k | 0 <= k < n ensures Factors(mode, ds)[k] == MathUtils.Repeat(Rate(mode, delta), n)[k] {
      assert ds[k] == delta;
    }
  }

  /** Progress is not clamped: a hide frame longer than 0.1 s overshoots 0, as
      a 0.2 s frame from full progress shows. */
  lemma LongHideFrameOvershoots()
    ensures Rate(Chaos, 0.2) == 2.0
    ensures Step(1.0, Chaos, 0.2) == -1.0
  {
  }

  /** The two uniforms of the ribbon material. */
  class Uniforms {
    var time: real
    var progress: real

    constructor ()
      ensures time == 0.0 && progress == 0.0
    {
      time := 0.0;
      progress := 0.0;
    }

    /** The per-frame callback: copy the clock into the time uniform and advance
        progress one step towards the mode's target, fast when hiding and slowly
        when revealing. */
    method Frame(mode: TreeMode, elapsed: real, delta: real)
      modifies this
      ensures time == elapsed
      ensures progress == Step(old(progress), mode, delta)
      ensures 0.0 <= old(progress) <= 1.0 && 0.0 <= Rate(mode, delta) <= 1.0 ==>
        0.0 <= progress <= 1.0
    {
      time := elapsed;
      var target := ProgressTarget(mode);
      var speed := if target == 0.0 then delta * 10.0 else delta * 1.0;
      progress := MathUtils.Lerp(progress, target, speed);
      if 0.0 <= old(progress) <= 1.0 && 0.0 <= Rate(mode, delta) <= 1.0 {
        StepBounds(old(progress), mode, delta);
      }
    }
  }
}
