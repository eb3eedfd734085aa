# Particle-filter core of slam3d, in Dafny

This project models the estimator at the heart of slam3d. It is a particle
filter that fuses visual-inertial odometry (VIO) with UWB range readings
to beacons, and it proves properties of that model. The model covers the
deterministic bookkeeping around the random draws:

- **The filter** (`ParticleFilter.dfy`, after `particleFilter.c`):
  - the odometry accumulator with its `first*` and `last*` snapshots and its cumulative path length;
  - the singly linked list of known beacons and the `_haveBcn` membership walk;
  - the range-reading update `depositUwb`, which registers a new beacon or runs the joint update for a known one;
  - the two weighted-mean queries `getTagLoc` and `getBcnLoc`.
- **The measurement model** (`PfMeasurement.dfy`, after `pfMeasurement.c`):
  - `MIN_WEIGHT`;
  - the odometry propagation `applyVio`;
  - the 3-sigma range gating against a beacon at a known position, `applyRange`;
  - the joint tag/beacon update `applyRangeSlam`.
- **The initializer** (`PfInit.dfy`, after `slam3d/particlefilter/pfInit.c`):
  - the degenerate tag ensemble;
  - the beacon grid spawned on a shell around each tag particle, with its bounded radius-retry loop;
  - the jittered-copy constructors.
- **Shared definitions**:
  - `Particles.dfy` holds the particle records, weighted sums in loop order, rows of a beacon grid, and bounds on weighted means.
  - `MathLib.dfy` holds the C maths library as uninterpreted functions, plus the exact `fmodf` remainder.

The code is imperative in the same places the C code is:
- The tag ensemble is an `array` and each beacon's grid an `array2`.
- The filter and its beacons are classes; the beacon list is a real `firstBcn`/`nextBcn` list.
- Each loop is a `while` loop proved against a specification function.

Floats and doubles are reals. `sqrtf`, `sinf`, `cosf`, `asinf`, `atan2f`
and `fmodf` are fields of a `Libm` value passed in. The predicate `Lawful`
lists the only facts the proofs use:
- square roots of non-negative numbers are non-negative;
- `sqrt(0) = 0`;
- `cos² + sin² = 1`;
- `fmodf` is the truncated remainder that C requires.

The random draws of `pfRandom_*` are parameters: `NormalDraws` per tag particle and `SphereDraws` per grid cell.
`PF_N_TAG` and `PF_N_BCN` come from a header that is not part of this model, so they are the lengths of the arrays.

## Model

| member | source | states |
|---|---|---|
| MathLib.FModFRange | particlefilter/src/pfMeasurement.c:42 | fmodf(x, y) lies in (-y, y) and has the sign of x. It leaves a value already in (-y, y) unchanged. |
| MathLib.NegativeHeadingStaysNegative | particlefilter/src/pfMeasurement.c:42 | fmodf(-0.5, 2π) = -0.5: a heading that noise pushes below zero is not wrapped into [0, 2π). |
| PfMeasurement.MinWeight | particlefilter/src/pfMeasurement.c:17 | MIN_WEIGHT(range) lies in (0, 1). It is 0.1 exactly when range < 3, and 0.5 when range ≥ 3. |
| PfMeasurement.GateWeight | particlefilter/src/pfMeasurement.c:60-61 | A non-gated weight is kept. A non-zero weight changes exactly when gated. A positive weight stays positive and does not grow, and never drops below MIN_WEIGHT times itself. |
| PfMeasurement.Propagated | particlefilter/src/pfMeasurement.c:30-42 | Propagating a tag particle never changes its weight. |
| PfMeasurement.ApplyVio | particlefilter/src/pfMeasurement.c:19-44 | Every tag particle i, and nothing else, is replaced by its propagation with noise scales sqrt(ddist)·1e-3 and sqrt(dt)·1e-6 and the draws for i. |
| PfMeasurement.PropagatedHeading | particlefilter/src/pfMeasurement.c:42 | Every propagated heading lies in (-2π, 2π) and keeps the sign of heading plus noise. |
| PfMeasurement.RotationKeepsLength | particlefilter/src/pfMeasurement.c:31-34 | Rotating (dx, dy) by a heading's cosine and sine preserves its length. |
| PfMeasurement.NoiselessMove | particlefilter/src/pfMeasurement.c:26-43 | With zero draws a particle moves by (dx·c − dy·s, dx·s + dy·c, dz), where c and s are the cosine and sine of its own heading. The step is as long as (dx, dy), the weight is kept, and the heading becomes fmodf(θ, 2π). |
| PfMeasurement.StillIntervalKeepsParticle | particlefilter/src/pfMeasurement.c:26-42 | An interval with no time, distance or displacement leaves a particle with heading in (-2π, 2π) unchanged, whatever the draws. |
| PfMeasurement.RangeWeighted | particlefilter/src/pfMeasurement.c:55-61 | The position and heading are kept. A non-zero weight changes exactly when \|pRange − range\| > 3·std. A positive weight stays positive and does not grow. |
| PfMeasurement.ApplyRange | particlefilter/src/pfMeasurement.c:46-63 | Every tag particle is reweighted against the beacon at (bx, by, bz). |
| PfMeasurement.GatedBcn | particlefilter/src/pfMeasurement.c:79-85 | A beacon particle keeps its position. A non-zero weight changes exactly when the particle is gated against its row's tag particle. A positive weight stays positive and does not grow. |
| PfMeasurement.GatedRowAt | particlefilter/src/pfMeasurement.c:77-86 | Cell j of a gated row is cell j gated against the row's tag particle. |
| PfMeasurement.SlamWeighted | particlefilter/src/pfMeasurement.c:75-88 | The joint update of a tag particle keeps its position and heading. |
| PfMeasurement.GateCell | particlefilter/src/pfMeasurement.c:79-85 | Cell (i, j) is gated against the tag particle, and no other cell changes. |
| PfMeasurement.GateRow | particlefilter/src/pfMeasurement.c:76-87 | Row i is gated cell by cell, and the returned bcnSum is the sum of the row's new weights. Other rows are unchanged. |
| PfMeasurement.GatedRowFromCells | particlefilter/src/pfMeasurement.c:77-87 | A row gated cell by cell equals the gated row. |
| PfMeasurement.SlamRow | particlefilter/src/pfMeasurement.c:75-88 | Row i is gated against the old tag particle i, whose weight is then multiplied by the new row sum. Every other tag particle and row is unchanged. |
| PfMeasurement.ApplyRangeSlam | particlefilter/src/pfMeasurement.c:65-90 | Each cell (i, j) is gated against tag particle i only. Tag particle i becomes its joint update with the old row i. |
| PfMeasurement.GatedRowSumBounds | particlefilter/src/pfMeasurement.c:84-86 | For non-negative weights, the gated row sum lies between MIN_WEIGHT times and once the sum before gating. |
| PfMeasurement.SlamKeepsWeightPositive | particlefilter/src/pfMeasurement.c:84-88 | A positive tag weight with a non-empty row of positive weights stays positive through the joint update. |
| PfInit.SpawnTagParticle | slam3d/particlefilter/pfInit.c:37-44 | A spawned tag particle has weight 1, every coordinate 0, and a heading already in (-2π, 2π), the range fmodf keeps. |
| PfInit.InitTag | slam3d/particlefilter/pfInit.c:15-22 | Every slot of the tag ensemble holds a freshly spawned particle. |
| PfInit.InitialEnsemble | slam3d/particlefilter/pfInit.c:37-44 | Spawned particles (w = 1 at the origin) have total weight equal to their number and zero position moments. |
| PfInit.SpawnTagParticleFromOther | slam3d/particlefilter/pfInit.c:46-57 | A jittered tag copy has weight 1. |
| PfInit.TagCopyWithoutJitter | slam3d/particlefilter/pfInit.c:52-56 | With zero bandwidths the copy keeps the position and its heading is fmodf(θ, 2π). It is exactly the original with w = 1 when θ is in (-2π, 2π). |
| PfInit.TagCopyHeading | slam3d/particlefilter/pfInit.c:56 | A copy's heading always lies in (-2π, 2π). |
| PfInit.RadiusFrom | slam3d/particlefilter/pfInit.c:65-73 | The radius the retry loop settles on is never negative. |
| PfInit.RadiusIsCandidate | slam3d/particlefilter/pfInit.c:65-73 | The radius is 0 or the candidate range + 3·std·(2u − 1) of one of the ten attempts. |
| PfInit.RadiusIsFirstAccepted | slam3d/particlefilter/pfInit.c:66-72 | The radius is the candidate of the first attempt whose candidate is not negative. |
| PfInit.RadiusFallback | slam3d/particlefilter/pfInit.c:65-73 | When all ten candidates are negative, the radius is 0. |
| PfInit.CandidateInShell | slam3d/particlefilter/pfInit.c:68 | For u in [0, 1] a candidate lies in [range − 3·std, range + 3·std]. |
| PfInit.RadiusInShell | slam3d/particlefilter/pfInit.c:65-73 | With draws in [0, 1], the radius is 0 or lies in the 3-sigma shell. |
| PfInit.PlacedBcn | slam3d/particlefilter/pfInit.c:75-86 | A spawned beacon particle has weight 1. |
| PfInit.PlacedAtRadius | slam3d/particlefilter/pfInit.c:78-86 | A spawned beacon particle lies exactly rdist from its tag particle. |
| PfInit.SpawnedBcn | slam3d/particlefilter/pfInit.c:59-87 | A beacon particle spawned from its draws has weight 1. |
| PfInit.SpawnedInShell | slam3d/particlefilter/pfInit.c:65-86 | With draws in [0, 1] and std ≥ 0, a spawned beacon particle's squared distance to its tag particle is r², where r is the radius the retry loop settles on. r is 0 or lies in [range − 3·std, range + 3·std]. |
| PfInit.SpawnBcnParticle | slam3d/particlefilter/pfInit.c:59-87 | The loop of at most ten attempts, with continue/break, writes the cell as the spec function of its draws, and no other cell changes. |
| PfInit.SpawnBcnParticleFromOther | slam3d/particlefilter/pfInit.c:89-99 | A beacon copy has weight 1. With hXyz = 0 it is the original with w = 1. |
| PfInit.SpawnRow | slam3d/particlefilter/pfInit.c:31-33 | Every cell of row i is spawned around the given tag particle, and other rows are unchanged. |
| PfInit.InitBcn | slam3d/particlefilter/pfInit.c:24-35 | Every cell (i, j) is spawned around tag particle i with draws (i, j). The tag ensemble is only read. |
| PfInit.SpawnedRowWeight | slam3d/particlefilter/pfInit.c:83 | A freshly spawned row has total weight equal to its length. |
| ParticleFilter.Deposited | particlefilter/src/particleFilter.c:34-68 | An unseeded accumulator takes the sample as both snapshots. A seeded one keeps `first`, takes the sample's t, x, y and z as `last`, and never decreases lastDist. lastDist ends at least at the sample's dist, and firstDist ≤ lastDist is preserved. |
| ParticleFilter.StepLength | particlefilter/src/particleFilter.c:59-62 | The Euclidean step between consecutive samples is non-negative. |
| ParticleFilter.SeededDepositsKeepFirst | particlefilter/src/particleFilter.c:53-67 | After any sequence of samples a seeded accumulator keeps its `first` snapshot, and its path length has not decreased. |
| ParticleFilter.DepositsKeepDistOrdered | particlefilter/src/particleFilter.c:38-67 | After any sequence of samples, firstDist ≤ lastDist still holds, so the ddist handed to applyVio at line 78 is never negative. |
| ParticleFilter.MonotonePathLengthStep | particlefilter/src/particleFilter.c:38-67 | When the supplied dist values never decrease, lastDist does not decrease from one sample to the next, seeded or not. |
| ParticleFilter.MonotonePathLength | particlefilter/src/particleFilter.c:38-67 | When the supplied dist values never decrease, lastDist after i samples is at most lastDist after j ≥ i samples, from any starting state. |
| ParticleFilter.ZeroTimeSamplesDoNotSeed | particlefilter/src/particleFilter.c:38-51 | Samples at t = 0 never seed the accumulator. Each one overwrites both snapshots. |
| ParticleFilter.TimeZeroSampleIsOverwritten | particlefilter/src/particleFilter.c:38-51 | A sample at t = 0 followed by one at t = 1 leaves the accumulator seeded by the second alone, with no pending motion. |
| ParticleFilter.Pending | particlefilter/src/particleFilter.c:74-78 | The pending motion is zero exactly when the two snapshots agree. Its ddist is non-negative exactly when firstDist ≤ lastDist. |
| ParticleFilter.Consumed | particlefilter/src/particleFilter.c:79-83 | After a range reading, `last` is kept, the pending motion is zero and firstDist ≤ lastDist holds. |
| ParticleFilter.SecondReadingDoesNotMove | particlefilter/src/particleFilter.c:74-84 | A second range reading with no VIO sample in between leaves every particle with heading in (-2π, 2π) where it was. |
| ParticleFilter.TagLoc | particlefilter/src/particleFilter.c:104-135 | The tag estimate carries the latest sample's time. With nothing pending, its position is the weighted mean Σw·p / Σw of the particles. |
| ParticleFilter.TagLocWithinParticles | particlefilter/src/particleFilter.c:104-124 | With no pending motion, each coordinate of the tag estimate lies within the range its particles span. |
| ParticleFilter.TagLocAddsPendingMotion | particlefilter/src/particleFilter.c:127-135 | The estimate moves off the weighted mean by a horizontal step as long as the pending (dx, dy), and vertically by the pending dz. |
| ParticleFilter.InitialTagLoc | particlefilter/src/particleFilter.c:104-135 | A freshly spawned ensemble with nothing pending is estimated at the origin. |
| ParticleFilter.BcnLoc | particlefilter/src/particleFilter.c:147-175 | The beacon estimate is the weighted mean of the rows' weighted means, each weighted by its tag particle's weight. The tag weights' total is the total weight of those row means. |
| ParticleFilter.BcnLocWithinParticles | particlefilter/src/particleFilter.c:147-175 | When every beacon particle lies within [lo, hi] on an axis, so does the beacon estimate. |
| ParticleFilter.RowSums | particlefilter/src/particleFilter.c:155-167 | The inner loop returns the weight sum and the three weighted coordinate sums of row i. |
| ParticleFilter.RowMeanStep | particlefilter/src/particleFilter.c:168-170 | Adding w1·sum2/s2 advances the outer sum by the next row mean's moment. |
| ParticleFilter.Filter.constructor | particlefilter/src/particleFilter.c:18-32 | The list is empty, every accumulator field is 0, and every tag slot holds a spawned particle. |
| ParticleFilter.Filter.DepositVio | particlefilter/src/particleFilter.c:34-68 | The accumulator fields become Deposited(old, sample). The list and the ensemble are untouched. |
| ParticleFilter.Filter.HaveBcn | particlefilter/src/particleFilter.c:178-186 | Returns true exactly when bcn is reachable from firstBcn. |
| ParticleFilter.Filter.Consume | particlefilter/src/particleFilter.c:74-83 | Returns last − first and sets first := last. The list is kept. |
| ParticleFilter.Filter.Register | particlefilter/src/particleFilter.c:92-93 | Prepends bcn to the list, keeping the list well formed. |
| ParticleFilter.Filter.DepositUwb | particlefilter/src/particleFilter.c:70-96 | The accumulator is consumed and the ensemble propagated by the pending motion. For a known beacon the list is kept and the joint update is run against the propagated particles. For an unknown beacon it is prepended and its grid spawned around them. Either way the beacon is known afterwards. |
| ParticleFilter.Filter.GetTagLoc | particlefilter/src/particleFilter.c:98-136 | Returns TagLoc: t = lastT, the weighted mean plus the pending motion rotated by the mean heading atan2(Σw·sin, Σw·cos). |
| ParticleFilter.Filter.GetBcnLoc | particlefilter/src/particleFilter.c:138-176 | An unknown beacon leaves the outputs as passed in. A known beacon gets t = lastT and the tag-weighted mean of its rows' weighted means. |

## Left out

- Resampling (`pfResample_resample`, particlefilter/src/particleFilter.c:88): its body is not part of this model. Its declaration in particlefilter/include/pfResample.h:17 takes six arguments, but the call passes five.
- ParticleFilter.Filter.DepositUwb: for a known beacon, the state it states is the state just before that resampling call.
- `particleFilter.c:87` calls `pfMeasurement_applyUwb`, which pfMeasurement.c does not define. The call is modelled as `pfMeasurement_applyRangeSlam`, whose arguments it matches.
- Random number generation (`pfRandom_init`, `pfRandom_uniform`, `pfRandom_normal2`) is not part of this model. Every draw is a parameter.
  - Draws are indexed by the particle or cell that uses them, which abstracts from the order in which one shared generator would produce them.
  - The fourth normal draw of `spawnBcnParticleFromOther` is drawn and then discarded; the model takes it but does not use it.
- Floating-point rounding is not modelled: every value is real. Nor is the `(float)` narrowing of `pf->lastT - pf->firstT` at particleFilter.c:74.
- The maths functions are uninterpreted. Only the facts listed under `Lawful` are assumed, and none of NaN, infinities or `atan2(0, 0)` is modelled.
- ParticleFilter.Filter.GetTagLoc: requires a positive total tag weight. The C code divides by it and would yield infinities or NaN.
- ParticleFilter.Filter.GetBcnLoc: for a known beacon it requires positive total tag and row weights, for the same reason.
- The inner loops of `applyRangeSlam` and `initBcn`, and the inner loop of `getBcnLoc`, are separate methods (`GateRow` with `GateCell`, `SpawnRow`, `RowSums`). The start and the new-beacon branch of `depositUwb` are `Consume` and `Register`. They run the same statements in the same order.
- `PF_N_TAG` and `PF_N_BCN`: the header that defines them is not part of this model, so they are the array lengths, chosen when the filter and each beacon grid are created.
- Allocation of beacons and the JNI glue (ArSlam/app/src/main/jni/slam3d-jni.c) are not part of this model. A `Beacon` is created with its grid already allocated.
- The older draft slam3d/particlefilter/particleFilter.c is not part of this model. Its live logic duplicates the files modelled here.
- Statistical behaviour (convergence, calibration of the noise constants) is not modelled.

Where the filter's documented behaviour and its code differ, the model follows the code:
- **Headings.** The documented behaviour wraps every heading into [0, 2π) after propagation and copying. The code reduces headings with `fmodf`, which keeps the sign of its dividend, so a heading lies in (-2π, 2π) and can be negative (`NegativeHeadingStaysNegative`, `PropagatedHeading`).
- **The first sample.** The documented behaviour seeds both snapshots from the first sample ever received. The code tests for it with the sentinel `firstT == 0.0`, so a sample stamped t = 0 does not seed the accumulator.
  - A documented end-to-end example deposits (t = 0, x = 0, y = 0, z = 0, dist = 0) and then (t = 1, x = 1, y = 0, z = 0, dist = 1) before the first range reading. In the code the second sample then seeds both snapshots, and no motion is pending at that reading (`TimeZeroSampleIsOverwritten`).
  - In the same way, a range reading taken while `lastT` is 0 leaves the accumulator unseeded.
