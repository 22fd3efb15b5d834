# Garland and snowflakes: a verified model

This project models the procedural core of two decorative animation
components of a conical "tree" scene:

- **The particle attribute generator** of the snowflake field
  (`components/Snowflakes.tsx`). For `count` particles it allocates five
  parallel buffers:
  - chaos positions, three entries per particle;
  - fall-plane x and z, two entries per particle;
  - fall start heights, one per particle;
  - speeds, one per particle;
  - per-particle random values, one per particle.

  One loop fills the buffers at strided slots and consumes eight
  `Math.random()` draws per particle, in a fixed order.
- **The spiral control-point generator** of the garland ribbon
  (`components/Garland.tsx`). For `i = 0..384` it computes:
  - the normalised height `yNorm`, which runs from 0.55 to 1;
  - the height `y`;
  - the radius, which follows the cone plus an outward offset of 3.5;
  - the angle, `turns` revolutions over the full height;

  and it pushes one point `(cos(angle) r, y, sin(angle) r)` per sample. It
  also reports `2 * 384` tubular segments for the tube built along the curve.
- **The per-frame progress smoothers** of both components. Each frame:
  - the target is 1 in the `FORMED` mode and 0 otherwise;
  - progress is moved towards the target with three.js's `lerp`;
  - the factor is `1.5 * delta` for the snowflakes;
  - for the ribbon it is `10 * delta` when hiding and `delta` when revealing;
  - the elapsed time is copied into a second uniform.

Modules:

| module | contents |
|---|---|
| `JsMath` (`js_math.dfy`) | `Math.PI`; `Math.cbrt`/`sin`/`cos`/`acos` as a record of uninterpreted total functions; `Math.random()` as an injected `RandomSource` object, a fixed sequence of draws with a cursor |
| `Types` (`types.dfy`) | the mode and its progress target |
| `MathUtils` (`math_utils.dfy`) | three.js `lerp`, the arithmetic facts about it, and the smoothing theory shared by both components: runs of frames, their bounds and their geometric convergence |
| `Snowflakes` (`snowflakes.dfy`) | the particle record, the per-draw attribute formulas, the imperative buffer-filling loop over five `array<real>` buffers, the progress step and a `Uniforms` class |
| `Garland` (`garland.dfy`) | the spiral sample record, the per-sample formulas, the imperative point loop, the direction-dependent progress step and a `Uniforms` class |

Numbers are mathematical reals. The only assumption the model makes about
the transcendental functions is that the cube root maps [0, 1) into itself.
It is a precondition, `JsMath.CbrtMapsUnit`, of the lemmas that need it.

## Model

| member | source | states |
|---|---|---|
| `JsMath.RandomSource.Random` | components/Snowflakes.tsx:80-98 | each `Math.random()` call returns the next unconsumed draw and advances the cursor by exactly one |
| `Types.ProgressTarget` | components/Snowflakes.tsx:119 | the target is 1 exactly when the mode is `FORMED` and 0 exactly when it is not (both directions) |
| `MathUtils.LerpThreeJsForm` | components/Snowflakes.tsx:121 | the interpolation equals three.js's `(1 - t) * x + t * y` |
| `MathUtils.LerpRemaining` | components/Snowflakes.tsx:121 | after one step the distance left to the target `y` is the old distance scaled by `1 - t` |
| `MathUtils.LerpToZero` | components/Garland.tsx:51 | interpolating towards 0 scales the value by `1 - t` |
| `MathUtils.LerpUp` | components/Snowflakes.tsx:121 | moving upwards with a factor in [0, 1], the result lies between the start and the target |
| `MathUtils.LerpDown` | components/Snowflakes.tsx:121 | moving downwards with a factor in [0, 1], the result lies between the target and the start |
| `MathUtils.SmoothUp` | components/Snowflakes.tsx:115-123 | over a run of frames towards a higher target, each with a lerp factor in [0, 1], the value never drops below its start and never passes the target |
| `MathUtils.SmoothDown` | components/Garland.tsx:43-53 | over a run of frames towards a lower target, each with a lerp factor in [0, 1], the value never rises above its start and never passes the target |
| `MathUtils.SmoothRepeatUnfold` | components/Snowflakes.tsx:115-123 | the first of `n` equal frames is exactly one lerp step |
| `MathUtils.SmoothRepeatRemaining` | components/Snowflakes.tsx:115-123 | after `n` frames with the same factor `t`, the distance to the target is the initial distance times `(1 - t)^n` |
| `MathUtils.PowNonNegative` | components/Snowflakes.tsx:115-123 | for a base in [0, 1], every power of it is non-negative |
| `MathUtils.PowAtMostOne` | components/Snowflakes.tsx:115-123 | for a base in [0, 1], every power of it is at most 1 |
| `MathUtils.PowNonIncreasing` | components/Snowflakes.tsx:115-123 | for a base in [0, 1], raising the exponent never increases the power |
| `MathUtils.SmoothRepeatMonotone` | components/Snowflakes.tsx:115-123 | for a factor in [0, 1], the scale `(1 - t)^n` on the remaining distance lies in [0, 1] and never grows from one frame to the next |
| `MathUtils.PowBernoulli` | components/Snowflakes.tsx:115-123 | Bernoulli's inequality: for `t` in [0, 1], `(1 - t)^n * (1 + n * t) <= 1` |
| `MathUtils.SmoothRepeatConverges` | components/Snowflakes.tsx:115-123 | convergence: with a factor `t` in [0, 1], the distance to the target after `n` equal frames, times `1 + n * t`, is at most the initial distance, so for `t > 0` the distance tends to 0 |
| `Snowflakes.ChaosRadius` | components/Snowflakes.tsx:79-80 | for a draw in [0, 1), and a cube root mapping [0, 1) into itself, the chaos radius `8 + cbrt(u) * 22` lies in [8, 30) |
| `Snowflakes.Theta` | components/Snowflakes.tsx:81 | for a draw in [0, 1), the azimuth lies in [0, 2π) |
| `Snowflakes.FallCoord` | components/Snowflakes.tsx:89-91 | for a draw in [0, 1), a fall-plane coordinate `(u - 0.5) * 18 * 2` lies in [-18, 18) |
| `Snowflakes.StartY` | components/Snowflakes.tsx:94 | for a draw in [0, 1), the fall start height lies in [14, 24) |
| `Snowflakes.Speed` | components/Snowflakes.tsx:97 | for a draw in [0, 1), the speed lies in [0.1, 0.6) |
| `Snowflakes.ParticleOf` | components/Snowflakes.tsx:80-98 | a particle built from eight unit draws has every fall attribute in range, and its random value is its eighth draw (over the reals, before the buffer's single-precision rounding) |
| `Snowflakes.NextParticle` | components/Snowflakes.tsx:80-98 | one iteration consumes exactly eight draws, and its particle is the one determined by those eight draws in the order radius, theta, phi, x, z, start height, speed, random value |
| `Snowflakes.StoreParticle` | components/Snowflakes.tsx:84-98 | iteration `i` writes particle `i` into `chaos[3i..3i+2]`, `fxz[2i..2i+1]`, `fsy[i]`, `sp[i]` and `rnd[i]`; every earlier particle's slots keep their values, and no other slot of any buffer changes |
| `Snowflakes.StoreChaos` | components/Snowflakes.tsx:84-86 | the chaos position of particle `i` lands in `chaos[3i..3i+2]`, and every other chaos slot is unchanged |
| `Snowflakes.StoreFallXZ` | components/Snowflakes.tsx:89-91 | the fall x and z of particle `i` land in `fxz[2i]` and `fxz[2i+1]`, and every other slot is unchanged |
| `Snowflakes.StoreColumn` | components/Snowflakes.tsx:94-98 | the start height, speed or random value of particle `i` lands in slot `i` of its buffer, and every other slot is unchanged |
| `Snowflakes.GenerateAttributes` | components/Snowflakes.tsx:70-108 | for `count = N` it returns five fresh buffers of lengths 3N, 2N, N, N and N (all empty for N = 0) and consumes exactly 8N draws; every slot of every buffer holds the value of the particle that owns it, particle `j` being the one determined by draws `8j..8j+7` |
| `Snowflakes.ParticlesDependOnConsumedDraws` | components/Snowflakes.tsx:77-98 | generation is deterministic and depends only on the draws it consumes: two draw sequences that agree on those `8 * count` draws give the same particles |
| `Snowflakes.ParticleInRange` | components/Snowflakes.tsx:79-98 | with unit draws, every generated particle has its fall x and z in [-18, 18), its start height in [14, 24), its speed in [0.1, 0.6) and its random value in [0, 1), and its chaos radius lies in [8, 30) |
| `Snowflakes.StepBounds` | components/Snowflakes.tsx:121 | with progress in [0, 1] and `0 <= 1.5 * delta <= 1`, one frame keeps progress in [0, 1] and moves it towards the target without passing it: it does not decrease in `FORMED` and does not increase otherwise |
| `Snowflakes.AfterFirstFrame` | components/Snowflakes.tsx:115-123 | a run of frames is its first frame (one `Uniforms.Frame` step) followed by the rest, so successive frames compose into `After` |
| `Snowflakes.FactorsRepeat` | components/Snowflakes.tsx:121 | `n` equal frame deltas give `n` equal lerp factors `1.5 * delta` |
| `Snowflakes.AfterBounds` | components/Snowflakes.tsx:115-123 | over any run of frames with valid deltas in one mode, progress stays in [0, 1] and moves monotonically towards the target |
| `Snowflakes.AfterRepeatRemaining` | components/Snowflakes.tsx:115-123 | after `n` equal frames the distance to the target is exactly the initial distance scaled by `(1 - 1.5 * delta)^n` |
| `Snowflakes.AfterRepeatConverges` | components/Snowflakes.tsx:115-123 | progress converges to the target: for `0 <= 1.5 * delta <= 1`, the distance after `n` equal frames is at most the initial distance divided by `1 + 1.5 * n * delta`, so for a positive delta it tends to 0 (to 1 when forming, to 0 when scattering) |
| `Snowflakes.LongFrameOvershoots` | components/Snowflakes.tsx:121 | without a clamp, a one-second frame from 0 in `FORMED` sets progress to 1.5 |
| `Snowflakes.Uniforms.constructor` | components/Snowflakes.tsx:110-113 | both uniforms start at 0 |
| `Snowflakes.Uniforms.Frame` | components/Snowflakes.tsx:115-123 | the time uniform becomes the elapsed time, progress takes one smoothing step, and it stays in [0, 1] when it started there and the factor is in [0, 1] |
| `Garland.YNorm` | components/Garland.tsx:22-26 | for every sample index `0..384`, the normalised height lies in [0.55, 1] |
| `Garland.Radius` | components/Garland.tsx:29 | for a non-negative cone radius and a normalised height at most 1, the spiral radius is at least the offset 3.5 |
| `Garland.BuildSpiral` | components/Garland.tsx:18-38 | the loop emits exactly `384 + 1 = 385` points, point `i` being sample `i` (increasing index order), and reports `2 * 384 = 768` tubular segments |
| `Garland.YNormEndpoints` | components/Garland.tsx:22-26 | the normalised height is 0.55 at the first sample and exactly 1 at the last |
| `Garland.YNormStrictlyIncreasing` | components/Garland.tsx:24-26 | the normalised height strictly increases with the sample index |
| `Garland.HeightIncreasing` | components/Garland.tsx:27 | for a positive height, the points climb strictly, and the last one sits exactly at the full height |
| `Garland.RadiusMonotone` | components/Garland.tsx:29 | for a non-negative cone radius, the spiral radius does not grow with the normalised height and stays at least 3.5 up to the top |
| `Garland.RadiusNonIncreasing` | components/Garland.tsx:29 | for a non-negative cone radius, the radius never grows along the curve and never drops below 3.5 |
| `Garland.RadiusEndpoints` | components/Garland.tsx:29 | the radius is exactly 3.5 at the last point and `radius * 0.45 + 3.5` at the first |
| `Garland.AngleMonotone` | components/Garland.tsx:31 | for a positive number of turns, the angle strictly increases with the normalised height |
| `Garland.AngleIncreasing` | components/Garland.tsx:31 | for a positive number of turns, the angle strictly increases along the curve |
| `Garland.AngleEndpoints` | components/Garland.tsx:31 | the angle runs from `0.55 * turns * 2π` at the first point to `turns * 2π` at the last |
| `Garland.DefaultSpiral` | components/Garland.tsx:13-31 | with turns 8, height 12 and radius 8, the first point has radius 7.1 at height 6.6, and the last has radius 3.5 at height 12 and angle `8 * 2π` |
| `Garland.Rate` | components/Garland.tsx:48-50 | the lerp factor is `delta * 1` when revealing (`FORMED`) and `delta * 10` when hiding |
| `Garland.StepBounds` | components/Garland.tsx:50-51 | with progress in [0, 1] and the factor in [0, 1], one frame keeps progress in [0, 1] and moves it towards the target without passing it |
| `Garland.HideRemaining` | components/Garland.tsx:50-51 | a hide step leaves `p * (1 - 10 * delta)` of the distance `p` to 0 |
| `Garland.RevealRemaining` | components/Garland.tsx:50-51 | a reveal step leaves `d * (1 - delta)` of the distance `d` to 1 |
| `Garland.HidingContractsFaster` | components/Garland.tsx:49-51 | for a positive delta with `10 * delta <= 1` and equal distances `d > 0` still to go, a hide step leaves strictly less distance than a reveal step, and does not overshoot 0 |
| `Garland.ModeFlipFrames` | components/Garland.tsx:48-51 | at 60 frames per second, starting from 0 and going `CHAOS`, `FORMED`, `CHAOS`: progress stays 0, rises to 1/60, then falls to 1/72 |
| `Garland.AfterFirstFrame` | components/Garland.tsx:43-53 | a run of frames is its first frame (one `Uniforms.Frame` step) followed by the rest, so successive frames compose into `After` |
| `Garland.FactorsRepeat` | components/Garland.tsx:50 | `n` equal frame deltas in one mode give `n` equal lerp factors |
| `Garland.AfterBounds` | components/Garland.tsx:43-53 | over any run of frames with valid deltas in one mode, progress stays in [0, 1] and moves monotonically towards the target |
| `Garland.AfterRepeatRemaining` | components/Garland.tsx:43-53 | after `n` equal frames in one mode the distance to the target is exactly the initial distance scaled by `(1 - factor)^n` |
| `Garland.AfterRepeatConverges` | components/Garland.tsx:43-53 | progress converges to the target: for a factor in [0, 1], the distance after `n` equal frames is at most the initial distance divided by `1 + n * factor`, so for a positive delta it tends to 0 (reveal to 1, hide to 0) |
| `Garland.LongHideFrameOvershoots` | components/Garland.tsx:50-51 | without a clamp, a 0.2 s hide frame from full progress gives factor 2 and progress -1 |
| `Garland.Uniforms.constructor` | components/Garland.tsx:41 | both uniforms start at 0 |
| `Garland.Uniforms.Frame` | components/Garland.tsx:43-53 | the time uniform becomes the elapsed time, progress takes one direction-dependent step, and it stays in [0, 1] when it started there and the factor is in [0, 1] |

Specification functions and plain formulas that the contracts and lemmas
above are stated against:
- `Snowflakes.Particles`: particle `j` of a generation, built from draws `8j..8j+7` after the start.
- `Snowflakes.After`, `Garland.After`: progress after a run of frames in one mode, one frame per delta.
- `MathUtils.Smooth`: the shared value after one lerp per factor.
- `MathUtils.Abs`: the absolute value, used to state distances to the target.
- `MathUtils.Lerp`, `MathUtils.Pow`, `Snowflakes.Step`, `Garland.Step`, `Snowflakes.Factors`, `Garland.Factors`: one lerp; a power; one frame of each smoother; the lerp factors of a run of frames.
- `MathUtils.Repeat`: `n` equal deltas (its contract gives the length and the elements).
- `Snowflakes.Phi`, `Garland.Angle`, `Garland.PointAt`: the polar angle of the chaos point; the spiral angle; a full spiral sample.

## Design decisions

- **No clamp.** The code applies `lerp` with the raw factor and clamps nothing
  (Snowflakes.tsx:121, Garland.tsx:50-51). The model follows it:
  - the bounds lemmas require the factor to lie in [0, 1];
  - `Snowflakes.LongFrameOvershoots` and `Garland.LongHideFrameOvershoots`
    show that progress leaves [0, 1] when the factor does not.
- **Order of intermediate values.** `Math.random()` is an object with a
  cursor (`JsMath.RandomSource`). Each particle therefore takes its draws in
  the code's order:
  1. radius
  2. theta
  3. phi
  4. x
  5. z
  6. start height
  7. speed
  8. random value

  `Snowflakes.NextParticle` performs the eight calls.
- **One smoothing theory.** Both smoothers are three.js `lerp` towards the
  mode's target; they differ only in the factor. `MathUtils.Smooth` and its
  lemmas state the theory once, over a target and a sequence of factors. Each
  component's `After` instantiates it:
  - `Snowflakes.After` with the factors `1.5 * delta`;
  - `Garland.After` with the factors `Garland.Rate(mode, delta)`.
- **The form of `lerp`.** The interpolation is written `x + (y - x) * t`.
  `MathUtils.LerpThreeJsForm` proves that this equals three.js's
  `(1 - t) * x + t * y`.

## Left out

- GLSL vertex and fragment shaders (Snowflakes.tsx:11-65, Garland.tsx:56-115): GPU floating-point code that the components only pass as strings.
- `THREE.CatmullRomCurve3` and `tubeGeometry` (Garland.tsx:36, Garland.tsx:120): library internals. Only the control points and the segment count passed to the tube are modelled.
- React and three-fiber plumbing:
  - `useMemo`, `useRef` and `useFrame` registration;
  - the ref and material null checks, under which a frame does nothing;
  - the JSX buffer attributes and material settings;
  - memoisation on `[count]` and `[turns, height, radius]`.
- The frame clock: `state.clock.elapsedTime` and `delta` are parameters of `Frame`.
- Floating point:
  - numbers are reals;
  - the `Float32Array` rounding of stored values is not modelled;
  - `Math.PI` is the real 3.141592653589793;
  - `Math.cbrt`, `sin`, `cos` and `acos` are uninterpreted.

  The chaos point is therefore not proved to have norm `radius`, which would need trigonometric identities.
- `Snowflakes.ParticleOf`, `Snowflakes.ParticleInRange`, `Snowflakes.StartY`, `Snowflakes.Speed`, `Snowflakes.FallCoord`: the half-open ranges ([0, 1), [14, 24), [0.1, 0.6), [-18, 18)) hold for the values computed over the reals, not for the single-precision values the buffers store. Rounding to single precision can close an open upper bound:
  - a draw of at least 1 − 2^-25 is stored in `rnd` as 1.0;
  - a start height just below 24 is stored in `fsy` as 24.0.

  Likewise the stored random value is the rounded eighth draw, not the draw itself.
- `Snowflakes.GenerateAttributes`: `count` is a natural number. A negative or fractional `count` (on which `Float32Array` throws or truncates) is not modelled. The zero-initialisation of the buffers is not modelled either, because the loop overwrites every slot before the buffers are returned.
- `Snowflakes.GenerateAttributes`: `Math.random()` is a finite sequence of draws that must hold `8 * count` unconsumed values. An unbounded generator is not modelled.
- Statistical uniformity of the shell and sphere sampling: a distributional claim, not a property of one run.
- Modes other than `CHAOS` and `FORMED`: only these two are modelled, because the mode's type definition (`types.ts`) is not part of this model. Every mode other than `FORMED` behaves as `CHAOS` in both components.
