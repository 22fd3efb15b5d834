/** The snowflake particle field: the static per-particle attribute buffers built
    once per particle count, and the per-frame progress uniform that blends the
    scattered "chaos" positions into the falling ones. */
module Snowflakes {
  import opened JsMath
  import opened Types
  import MathUtils

  /** Inner and outer radius of the spherical shell of chaos positions. */
  const InnerRadius: real := 8.0
  const MaxRadius: real := 30.0
  /** Half extent of the square fall plane. */
  const MaxXZ: real := 18.0

  /** The eight values one particle stores across the five buffers:
      three chaos coordinates, the fall-plane x and z, the fall start height,
      the speed and the per-particle random value. */
  datatype Particle = Particle(
    chaosX: real, chaosY: real, chaosZ: real,
    fallX: real, fallZ: real,
    startY: real, speed: real, random: real)

  /** Radius of a chaos position, from the first draw. */
  function ChaosRadius(u: real, m: Functions): (r: real)
    ensures 0.0 <= u < 1.0 && CbrtMapsUnit(m) ==> InnerRadius <= r < MaxRadius
  {
    InnerRadius + m.cbrt(u) * (MaxRadius - InnerRadius)
  }

  /** Azimuth of a chaos position, from the second draw. */
  function Theta(u: real): (theta: real)
    ensures 0.0 <= u < 1.0 ==> 0.0 <= theta < 2.0 * PI
  {
    u * PI * 2.0
  }

  /** Polar angle of a chaos position, from the third draw. */
  function Phi(u: real, m: Functions): real
  {
    m.acos(2.0 * u - 1.0)
  }

  /** One fall-plane coordinate, from the fourth or fifth draw. */
  function FallCoord(u: real): (c: real)
    ensures 0.0 <= u < 1.0 ==> -MaxXZ <= c < MaxXZ
  {
    (u - 0.5) * MaxXZ * 2.0
  }

  /** Height at which a particle's fall starts, from the sixth draw. */
  function StartY(u: real): (y: real)
    ensures 0.0 <= u < 1.0 ==> 14.0 <= y < 24.0
  {
    14.0 + u * 10.0
  }

  /** Fall speed of a particle, from the seventh draw. */
  function Speed(u: real): (s: real)
    ensures 0.0 <= u < 1.0 ==> 0.1 <= s < 0.6
  {
    0.1 + u * 0.5
  }

  /** The fall attributes and the random value lie in their configured ranges. */
  ghost predicate AttributesInRange(p: Particle)
  {
    -MaxXZ <= p.fallX < MaxXZ && -MaxXZ <= p.fallZ < MaxXZ &&
    14.0 <= p.startY < 24.0 && 0.1 <= p.speed < 0.6 &&
    0.0 <= p.random < 1.0
  }

  /** The particle built from its eight draws, consumed in the order radius,
      theta, phi, fall x, fall z, start height, speed, random value. */
  function ParticleOf(w: seq<real>, m: Functions): (p: Particle)
    requires |w| == 8
    ensures UnitDraws(w) ==> AttributesInRange(p)
    ensures p.random == w[7]
  {
    var radius := ChaosRadius(w[0], m);
    var theta := Theta(w[1]);
    var phi := Phi(w[2], m);
    Particle(
      radius * m.sin(phi) * m.cos(theta),
      radius * m.sin(phi) * m.sin(theta),
      radius * m.cos(phi),
      FallCoord(w[3]), FallCoord(w[4]),
      StartY(w[5]), Speed(w[6]), w[7])
  }

  /** The draws of particle `j` when generation starts at cursor `start`. */
  function Window(d: seq<real>, start: nat, j: nat): (w: seq<real>)
    requires start + 8 * j + 8 <= |d|
    ensures |w| == 8
  {
    d[start + 8 * j .. start + 8 * j + 8]
  }

  /** The `count` particles generated from the draws that start at `start`. */
  function Particles(d: seq<real>, start: nat, count: nat, m: Functions): (ps: seq<Particle>)
    requires start + 8 * count <= |d|
  {
    seq(count, j requires 0 <= j < count => ParticleOf(Window(d, start, j), m))
  }

  /** Particle `j` as read back from the five buffers at its strided slots. */
  function StoredAt(chaos: array<real>, fxz: array<real>, fsy: array<real>,
                    sp: array<real>, rnd: array<real>, j: nat): Particle
    requires 3 * j + 2 < chaos.Length && 2 * j + 1 < fxz.Length
    requires j < fsy.Length && j < sp.Length && j < rnd.Length
    reads chaos, fxz, fsy, sp, rnd
  {
    Particle(chaos[3 * j], chaos[3 * j + 1], chaos[3 * j + 2],
             fxz[2 * j], fxz[2 * j + 1], fsy[j], sp[j], rnd[j])
  }

  /** The chaos buffer holds the coordinates of the first `i` particles of `ps` at
      stride 3. */
  ghost predicate ChaosFilled(chaos: array<real>, ps: seq<Particle>, i: nat)
    reads chaos
  {
    i <= |ps| && chaos.Length == 3 * |ps| &&
    (forall j | 0 <= j < i ::
       chaos[3 * j] == ps[j].chaosX && chaos[3 * j + 1] == ps[j].chaosY &&
       chaos[3 * j + 2] == ps[j].chaosZ)
  }

  /** The fall-plane buffer holds the x and z of the first `i` particles at
      stride 2. */
  ghost predicate FallXZFilled(fxz: array<real>, ps: seq<Particle>, i: nat)
    reads fxz
  {
    i <= |ps| && fxz.Length == 2 * |ps| &&
    (forall j | 0 <= j < i :: fxz[2 * j] == ps[j].fallX && fxz[2 * j + 1] == ps[j].fallZ)
  }

  /** The three buffers of one value per particle. */
  datatype Column = StartYColumn | SpeedColumn | RandomColumn

  function ColumnOf(p: Particle, c: Column): real
  {
    match c
    case StartYColumn => p.startY
    case SpeedColumn => p.speed
    case RandomColumn => p.random
  }

  /** Buffer `a` holds column `c` of the first `i` particles, one slot each. */
  ghost predicate ColumnFilled(a: array<real>, c: Column, ps: seq<Particle>, i: nat)
    reads a
  {
    i <= |ps| && a.Length == |ps| &&
    (forall j | 0 <= j < i :: a[j] == ColumnOf(ps[j], c))
  }

  /** All five buffers hold their slots of the first `i` particles of `ps`. */
  ghost predicate Filled(chaos: array<real>, fxz: array<real>, fsy: array<real>,
                         sp: array<real>, rnd: array<real>, ps: seq<Particle>, i: nat)
    reads chaos, fxz, fsy, sp, rnd
  {
    ChaosFilled(chaos, ps, i) && FallXZFilled(fxz, ps, i) &&
    ColumnFilled(fsy, StartYColumn, ps, i) && ColumnFilled(sp, SpeedColumn, ps, i) &&
    ColumnFilled(rnd, RandomColumn, ps, i)
  }

  /** Builds the five attribute buffers for `count` particles, drawing eight
      random numbers per particle from `rng`. Every slot of every buffer holds the
      value of the particle that owns it, and generation consumes exactly
      `8 * count` draws. */
  method GenerateAttributes(count: nat, rng: RandomSource, m: Functions)
    returns (chaos: array<real>, fxz: array<real>, fsy: array<real>,
             sp: array<real>, rnd: array<real>)
    requires rng.pos + 8 * count <= |rng.draws|
    modifies rng
    ensures fresh(chaos) && fresh(fxz) && fresh(fsy) && fresh(sp) && fresh(rnd)
    ensures chaos.Length == 3 * count && fxz.Length == 2 * count
    ensures fsy.Length == count && sp.Length == count && rnd.Length == count
    ensures rng.pos == old(rng.pos) + 8 * count
    ensures forall j | 0 <= j < count ::
      StoredAt(chaos, fxz, fsy, sp, rnd, j) == Particles(rng.draws, old(rng.pos), count, m)[j]
  {
    chaos := new real[count * 3];
    fxz := new real[count * 2];
    fsy := new real[count];
    sp := new real[count];
    rnd := new real[count];
    ghost var ps := Particles(rng.draws, rng.pos, count, m);
    ghost var start := rng.pos;

    var i := 0;
    while i < count
      invariant 0 <= i <= count
      invariant rng.pos == start + 8 * i
      invariant Filled(chaos, fxz, fsy, sp, rnd, ps, i)
    {
      var p := NextParticle(rng, m);
      assert p == ps[i];
      StoreParticle(chaos, fxz, fsy, sp, rnd, i, p, ps);
      i := i + 1;
    }
    forall j | 0 <= j < count
      ensures StoredAt(chaos, fxz, fsy, sp, rnd, j) == ps[j]
    {
      assert ColumnOf(ps[j], StartYColumn) == ps[j].startY;
      assert ColumnOf(ps[j], SpeedColumn) == ps[j].speed;
      assert ColumnOf(ps[j], RandomColumn) == ps[j].random;
    }
  }

  /** The stores of iteration `i`: particle `i` goes to its own slots
      `chaos[3i..3i+2]`, `fxz[2i..2i+1]`, `fsy[i]`, `sp[i]` and `rnd[i]`, the
      slots of the particles before it keep their values, and no other slot of
      any buffer changes. */
  method StoreParticle(chaos: array<real>, fxz: array<real>, fsy: array<real>,
                       sp: array<real>, rnd: array<real>, i: nat, p: Particle,
                       ghost ps: seq<Particle>)
    requires i < |ps| && ps[i] == p
    requires chaos != fxz && chaos != fsy && chaos != sp && chaos != rnd
    requires fxz != fsy && fxz != sp && fxz != rnd
    requires fsy != sp && fsy != rnd && sp != rnd
    requires Filled(chaos, fxz, fsy, sp, rnd, ps, i)
    modifies chaos, fxz, fsy, sp, rnd
    ensures Filled(chaos, fxz, fsy, sp, rnd, ps, i + 1)
    ensures forall k | 0 <= k < chaos.Length && !(3 * i <= k < 3 * i + 3) :: chaos[k] == old(chaos[k])
    ensures forall k | 0 <= k < fxz.Length && !(2 * i <= k < 2 * i + 2) :: fxz[k] == old(fxz[k])
    ensures forall k | 0 <= k < fsy.Length && k != i :: fsy[k] == old(fsy[k])
    ensures forall k | 0 <= k < sp.Length && k != i :: sp[k] == old(sp[k])
    ensures forall k | 0 <= k < rnd.Length && k != i :: rnd[k] == old(rnd[k])
  {
    StoreChaos(chaos, i, p, ps);
    StoreFallXZ(fxz, i, p, ps);
    StoreColumn(fsy, StartYColumn, i, p.startY, ps);
    StoreColumn(sp, SpeedColumn, i, p.speed, ps);
    StoreColumn(rnd, RandomColumn, i, p.random, ps);
  }

  /** The chaos position of particle `i` goes to `chaos[3i..3i+2]`. */
  method StoreChaos(chaos: array<real>, i: nat, p: Particle, ghost ps: seq<Particle>)
    requires i < |ps| && ps[i] == p
    requires ChaosFilled(chaos, ps, i)
    modifies chaos
    ensures ChaosFilled(chaos, ps, i + 1)
    ensures forall k | 0 <= k < chaos.Length && !(3 * i <= k < 3 * i + 3) :: chaos[k] == old(chaos[k])
  {
    chaos[i * 3] := p.chaosX;
    chaos[i * 3 + 1] := p.chaosY;
    chaos[i * 3 + 2] := p.chaosZ;
  }

  /** The fall-plane x and z of particle `i` go to `fxz[2i..2i+1]`. */
  method StoreFallXZ(fxz: array<real>, i: nat, p: Particle, ghost ps: seq<Particle>)
    requires i < |ps| && ps[i] == p
    requires FallXZFilled(fxz, ps, i)
    modifies fxz
    ensures FallXZFilled(fxz, ps, i + 1)
    ensures forall k | 0 <= k < fxz.Length && !(2 * i <= k < 2 * i + 2) :: fxz[k] == old(fxz[k])
  {
    fxz[i * 2] := p.fallX;
    fxz[i * 2 + 1] := p.fallZ;
  }

  /** Column `c` of particle `i`, the value `v`, goes to slot `i` of buffer `a`. */
  method StoreColumn(a: array<real>, c: Column, i: nat, v: real, ghost ps: seq<Particle>)
    requires i < |ps| && v == ColumnOf(ps[i], c)
    requires ColumnFilled(a, c, ps, i)
    modifies a
    ensures ColumnFilled(a, c, ps, i + 1)
    ensures forall k | 0 <= k < a.Length && k != i :: a[k] == old(a[k])
  {
    a[i] := v;
  }

  /** The draws of one loop iteration: eight calls to `Math.random()`, in the
      order the particle's attributes are computed. */
  method NextParticle(rng: RandomSource, m: Functions) returns (p: Particle)
    requires rng.pos + 8 <= |rng.draws|
    modifies rng`pos
    ensures rng.pos == old(rng.pos) + 8
    ensures p == ParticleOf(rng.draws[old(rng.pos) .. old(rng.pos) + 8], m)
  {
    var u0 := rng.Random();
    var u1 := rng.Random();
    var u2 := rng.Random();
    var u3 := rng.Random();
    var u4 := rng.Random();
    var u5 := rng.Random();
    var u6 := rng.Random();
    var u7 := rng.Random();
    assert [u0, u1, u2, u3, u4, u5, u6, u7] == rng.draws[old(rng.pos) .. old(rng.pos) + 8];
    p := ParticleOf([u0, u1, u2, u3, u4, u5, u6, u7], m);
  }

  /** Generation depends only on the `8 * count` draws it consumes: two draw
      sequences that agree there give the same particles. */
  lemma ParticlesDependOnConsumedDraws(d1: seq<real>, d2: seq<real>, start: nat, count: nat, m: Functions)
    requires start + 8 * count <= |d1| && start + 8 * count <= |d2|
    requires d1[start .. start + 8 * count] == d2[start .. start + 8 * count]
    ensures Particles(d1, start, count, m) == Particles(d2, start, count, m)
  {
    var ps1, ps2 := Particles(d1, start, count, m), Particles(d2, start, count, m);
    forall j | 0 <= j < count ensures ps1[j] == ps2[j] {
      var w1, w2 := Window(d1, start, j), Window(d2, start, j);
      forall n | 0 <= n < 8 ensures w1[n] == w2[n] {
        assert w1[n] == d1[start .. start + 8 * count][8 * j + n];
        assert w2[n] == d2[start .. start + 8 * count][8 * j + n];
      }
      assert w1 == w2;
    }
  }

  /** With draws from `Math.random()`, every particle has its fall attributes and
      its random value in range, and the radius of its chaos position in [8, 30). */
  lemma ParticleInRange(d: seq<real>, start: nat, count: nat, j: nat, m: Functions)
    requires start + 8 * count <= |d| && j < count
    requires UnitDraws(d) && CbrtMapsUnit(m)
    ensures AttributesInRange(Particles(d, start, count, m)[j])
    ensures InnerRadius <= ChaosRadius(Window(d, start, j)[0], m) < MaxRadius
  {
    var w := Window(d, start, j);
    forall n | 0 <= n < 8 ensures 0.0 <= w[n] < 1.0 {
      assert w[n] == d[start + 8 * j + n];
    }
  }

  /** One frame of the progress update: lerp towards the target by `delta * 1.5`. */
  function Step(p: real, mode: TreeMode, delta: real): real
  {
    MathUtils.Lerp(p, ProgressTarget(mode), delta * 1.5)
  }

  /** With progress in [0, 1] and a factor `1.5 * delta` in [0, 1], one frame keeps
      progress in [0, 1] and moves it towards the target without passing it. */
  lemma StepBounds(p: real, mode: TreeMode, delta: real)
    requires 0.0 <= p <= 1.0
    requires 0.0 <= delta * 1.5 <= 1.0
    ensures 0.0 <= Step(p, mode, delta) <= 1.0
    ensures mode == Formed ==> p <= Step(p, mode, delta)
    ensures mode != Formed ==> Step(p, mode, delta) <= p
  {
    if mode == Formed {
      MathUtils.LerpUp(p, 1.0, delta * 1.5);
    } else {
      MathUtils.LerpDown(p, 0.0, delta * 1.5);
    }
  }

  /** The lerp factors `1.5 * delta` of a run of frames. */
  function Factors(deltas: seq<real>): seq<real>
  {
    seq(|deltas|, k requires 0 <= k < |deltas| => deltas[k] * 1.5)
  }

  /** Progress after one frame per element of `deltas`, all in the same mode. */
  function After(p: real, mode: TreeMode, deltas: seq<real>): real
  {
    MathUtils.Smooth(p, ProgressTarget(mode), Factors(deltas))
  }

  /** A run of frames is its first frame followed by the rest, so `n` calls of
      `Uniforms.Frame` take progress to `After` of their deltas. */
  lemma AfterFirstFrame(p: real, mode: TreeMode, deltas: seq<real>)
    requires deltas != []
    ensures After(p, mode, deltas) == After(Step(p, mode, deltas[0]), mode, deltas[1..])
  {
    assert Factors(deltas)[0] == deltas[0] * 1.5;
    assert Factors(deltas)[1..] == Factors(deltas[1..]);
  }

  /** Every frame delta keeps the factor `1.5 * delta` in [0, 1]. */
  ghost predicate ValidDeltas(deltas: seq<real>)
  {
    forall k | 0 <= k < |deltas| :: 0.0 <= deltas[k] * 1.5 <= 1.0
  }

  /** Over any run of frames with valid deltas progress stays in [0, 1]; in
      `Formed` it never decreases and otherwise it never increases. */
  lemma AfterBounds(p: real, mode: TreeMode, deltas: seq<real>)
    requires 0.0 <= p <= 1.0
    requires ValidDeltas(deltas)
    ensures 0.0 <= After(p, mode, deltas) <= 1.0
    ensures mode == Formed ==> p <= After(p, mode, deltas)
    ensures mode != Formed ==> After(p, mode, deltas) <= p
  {
    assert MathUtils.UnitFactors(Factors(deltas));
    if mode == Formed {
      MathUtils.SmoothUp(p, 1.0, Factors(deltas));
    } else {
      MathUtils.SmoothDown(p, 0.0, Factors(deltas));
    }
  }

  /** After `n` frames with the same delta the distance to the target is the
      initial distance scaled by `(1 - 1.5 * delta)^n`; with a factor in [0, 1]
      that scale lies in [0, 1] and shrinks frame by frame
      (`MathUtils.SmoothRepeatMonotone`). */
  lemma AfterRepeatRemaining(p: real, mode: TreeMode, delta: real, n: nat)
    ensures ProgressTarget(mode) - After(p, mode, MathUtils.Repeat(delta, n))
         == (ProgressTarget(mode) - p) * MathUtils.Pow(1.0 - delta * 1.5, n)
  {
    FactorsRepeat(delta, n);
    MathUtils.SmoothRepeatRemaining(p, ProgressTarget(mode), delta * 1.5, n);
  }

  /** Progress converges to the target: with the factor `1.5 * delta` in [0, 1],
      the distance left after `n` equal frames is at most the initial distance
      divided by `1 + n * factor`, so for a positive factor it tends to 0 as
      `n` grows. */
  lemma {:induction false} AfterRepeatConverges(p: real, mode: TreeMode, delta: real, n: nat)
    requires 0.0 <= delta * 1.5 <= 1.0
    ensures MathUtils.Abs(ProgressTarget(mode) - After(p, mode, MathUtils.Repeat(delta, n)))
              * (1.0 + (n as real) * delta * 1.5)
         <= MathUtils.Abs(ProgressTarget(mode) - p)
  {
    FactorsRepeat(delta, n);
    assert After(p, mode, MathUtils.Repeat(delta, n))
        == MathUtils.Smooth(p, ProgressTarget(mode), MathUtils.Repeat(delta * 1.5, n));
    MathUtils.SmoothRepeatConverges(p, ProgressTarget(mode), delta * 1.5, n);
  }

  /** `n` equal frames have `n` equal factors. */
  lemma FactorsRepeat(delta: real, n: nat)
    ensures Factors(MathUtils.Repeat(delta, n)) == MathUtils.Repeat(delta * 1.5, n)
  {
    var ds := MathUtils.Repeat(delta, n);
    forall k | 0 <= k < n ensures Factors(ds)[k] == MathUtils.Repeat(delta * 1.5, n)[k] {
      assert ds[k] == delta;
    }
  }

  /** Progress is not clamped: a frame longer than 2/3 s overshoots the target,
      as a one-second frame from 0 in `Formed` shows. */
  lemma LongFrameOvershoots()
    ensures Step(0.0, Formed, 1.0) == 1.5
  {
  }

  /** The two uniforms of the particle material. */
  class Uniforms {
    var time: real
    var progress: real

    constructor ()
      ensures time == 0.0 && progress == 0.0
    {
      time := 0.0;
      progress := 0.0;
    }

    /** The per-frame callback: copy the clock into the time uniform and advance
        progress one smoothing step towards the mode's target. */
    method Frame(mode: TreeMode, elapsed: real, delta: real)
      modifies this
      ensures time == elapsed
      ensures progress == Step(old(progress), mode, delta)
      ensures 0.0 <= old(progress) <= 1.0 && 0.0 <= delta * 1.5 <= 1.0 ==>
        0.0 <= progress <= 1.0
    {
      time := elapsed;
      var target := ProgressTarget(mode);
      progress := MathUtils.Lerp(progress, target, delta * 1.5);
      if 0.0 <= old(progress) <= 1.0 && 0.0 <= delta * 1.5 <= 1.0 {
        StepBounds(old(progress), mode, delta);
      }
    }
  }
}
