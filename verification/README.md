# BIM-Helipoliedral 10D drafting core in Dafny

This project models the logic at the core of the BIM-Helipoliedral 10D drafting tool and proves properties of it. The rest of the application is React and three.js presentation around this core.

- **The drafting session** (`hooks/useBIMState.ts`). This is a record `Session` plus one pure transition function per handler:
  - `addPoint`, which is gated by domain selection, applies optional polar snapping, and detects loop closure;
  - `continueDrawing`, `saveToISOStock`, `instantiate`, `undo`, `clear` and `addObject`;
  - the plain state setters.

  A `Step` datatype and `Run` replay any sequence of handler calls. The draft invariant is proved over every such sequence.
- **NeuroCore transmutation** (`services/NeuroCore.ts`). An AI action token is validated and becomes either nothing or a ghost `StagedObject`. The model covers:
  - generator dispatch and the radius fallback;
  - rejection of an empty point set;
  - field defaulting and the `isLathe` derivation.
- **Procedural generators** (`utils/math/generators.ts`). These are the spiral-helix and lattice lists of polar points.
- **Topology and scoring** (`utils/math/topology.ts`, `utils/math/analysis.ts`, `src/utils/math/analysis.ts`):
  - loop closure;
  - the face normal;
  - the centroid;
  - the clamped complexity score;
  - the volume estimate.
- **Polar utilities** (`utils/math/polar.ts`):
  - `toVec3` and `toPolar`, including its zero-length guard;
  - snapping to multiples of 2π/divisions;
  - snapping to precision lines;
  - domain classification.
- **10D projection bookkeeping** (`utils/math/ProjectionEngine.ts`):
  - padding or truncation of the input to 10 dimensions;
  - folding phi into [0, π);
  - rounding to the 1e-8 grid;
  - projecting a sequence;
  - the bounds of the harmonic stability score.

## Modules

| file | module | models |
|---|---|---|
| wrappers.dfy | `Wrappers` | `Option` with `GetOr`, which stands for the source's `??` |
| numerics.dfy | `Numerics` | vectors over `real`, JavaScript `Math.round`, and `MathOps`, which holds the transcendental functions as parameters |
| types.dfy | `Types` | the enumerations, `PolarPoint`, `StagedObject` and `AssemblyInstance` from `types.ts` |
| topology.dfy | `Topology` | `isClosedLoop`, `calculateFaceNormal`, `getCentroid` |
| analysis.dfy | `Analysis`, `SourceAnalysis` | the two copies of `analyzeDisassembly`, and `calculateVolume` |
| polar.dfy | `Polar` | `toVec3`, `toPolar`, `snapPolar`, `snapToPrecisionLines`, `determineDomain` |
| generators.dfy | `Generators` | `generateSpiralHelix`, `generateLattice` |
| text.dfy | `Text` | decimal rendering of the face count, and the upper-cased eight-character uuid tag |
| neurocore.dfy | `NeuroCore` | `transmuteIntentToGeometry` |
| session.dfy | `Session` | `useBIMState` |
| projection.dfy | `Projection` | `ProjectionEngine` |

### Numeric conventions

- All numbers are `real`.
- `sin`, `cos`, `atan2`, `acos` and `sqrt` are fields of a `MathOps` value that every geometric function takes as a parameter.
  - `MathOps.Valid()` states the only identities the proofs use: `sqrt` returns the non-negative root of a non-negative argument, and `sin² + cos² = 1`.
  - `MathOps.Atan2ScaleFree()` states that `atan2(k·z, k·x) = atan2(z, x)` for `k > 0`.
  - A lemma or contract assumes these predicates only where it needs them.
- Distances are compared squared: `WithinDistance(a, b, t)` means `0 < t` and `|a − b|² < t²`. The lemma `Topology.WithinDistanceIsDistance` shows this agrees with the source's `distanceTo(a, b) < t` under `Valid()`.
- JavaScript operations are written out explicitly:
  - `Math.round(x)` is `⌊x + 0.5⌋`;
  - `%` on a non-negative dividend is `a − π·⌊a/π⌋`;
  - `x || d` on numbers and strings uses the truthiness predicates `TruthyNumber` and `TruthyString`;
  - `x ?? d` is `GetOr`.
- Each random id (`uuidv4()`) and each clock reading (`Date.now()`) becomes a parameter.

### Behaviour worth noting

- **The closing click is not stored.** When a click closes the loop, `addPoint` sets the closed flag and leaves the stored points unextended (`hooks/useBIMState.ts:46-53`). The invariant `Session.StoredDraftNeverClosed` depends on this behaviour.
- **Object ids are random.** The code uses `payload.id` when present and a random uuid tag otherwise (`services/NeuroCore.ts:68`, `hooks/useBIMState.ts:72`). The model passes the uuid in as a parameter.

## Model

| member | source | states |
|---|---|---|
| Topology.IsClosedLoop | utils/math/topology.ts:11-16 | a closed loop has at least 3 points, and no list is closed under a threshold that is not positive |
| Topology.CoincidentEndsClose | utils/math/topology.ts:11-16 | a list of at least 3 points whose last point is its first is closed exactly when the threshold is positive |
| Topology.IsClosedLoopMatchesDistance | utils/math/topology.ts:11-16 | a list is a closed loop iff it has at least 3 points and the distance from its first point to its last is below the threshold |
| Topology.WithinDistanceIsDistance | utils/math/topology.ts:15 | comparing squared distance with the squared threshold agrees with comparing `distanceTo` with the threshold, for every threshold |
| Topology.ShortListNeverClosed | utils/math/topology.ts:12 | fewer than 3 points are never a closed loop, whatever the threshold |
| Topology.ClosureIgnoresMiddle | utils/math/topology.ts:13-15 | two lists of at least 3 points with the same first and last points are both closed or both open; the middle points do not matter |
| Topology.ClosureMonotoneInThreshold | utils/math/topology.ts:15 | a list closed at threshold t is closed at every larger threshold |
| Topology.Normalize | utils/math/topology.ts:27 | three.js `normalize` keeps every orthogonality of its argument, maps the zero vector to itself, and otherwise gives a unit vector that is a positive multiple of its argument, so the direction is kept |
| Topology.FaceNormal | utils/math/topology.ts:21-28 | fewer than 3 points give (0,1,0); otherwise the normal is a positive multiple of the cross product (p1−p0)×(p2−p0), so it keeps the right-hand orientation, is orthogonal to both edges, and has unit length exactly when that cross product is non-zero |
| Numerics.Round | utils/math/polar.ts:22-23 | JavaScript `Math.round`: the result is the integer within half a unit of its argument, with halves rounded up |
| Topology.Centroid | utils/math/topology.ts:33-37 | the centroid exists exactly for a non-empty list, and n times it is the componentwise sum of the points |
| Topology.CentroidOfCopies | utils/math/topology.ts:33-37 | the centroid of n ≥ 1 copies of p is p |
| Topology.SumOfCopies | utils/math/topology.ts:35 | the accumulated sum of n copies of p is n·p |
| Topology.CentroidTranslate | utils/math/topology.ts:33-37 | translating every point by t translates the centroid by t |
| Analysis.AnalyzeDisassembly | utils/math/analysis.ts:4-7 | the score always lies in [0.1, 1.0], is 1.0 for up to 10 points (including 0, where 1/0 is clamped) and 0.1 for 100 or more |
| Analysis.ScoreDependsOnlyOnCount | utils/math/analysis.ts:5-6 | two point lists of the same length get the same score, whatever their coordinates |
| Analysis.ScoreBetweenClamps | utils/math/analysis.ts:6 | between 10 and 100 points the score is exactly 1/(n·0.1) = 10/n |
| Analysis.ScoreNonIncreasing | utils/math/analysis.ts:6 | more points never raise the score |
| SourceAnalysis.AnalyzeDisassembly | src/utils/math/analysis.ts:16-21 | the second copy computes the same score as the first for every input |
| SourceAnalysis.CalculateVolume | src/utils/math/analysis.ts:4-8 | the volume is 0 below 3 points and 0.05·radius otherwise, so it is non-negative whenever the radius is |
| SourceAnalysis.VolumeLinearInRadius | src/utils/math/analysis.ts:6-7 | scaling the radius by k scales the volume by k |
| SourceAnalysis.VolumeIgnoresCoordinates | src/utils/math/analysis.ts:6 | the volume depends on the point count only |
| Polar.ToVec3 | utils/math/polar.ts:5-11 | the Cartesian point lies on the sphere of the given radius |
| Polar.PolarDivisor | utils/math/polar.ts:16 | the divisor in `acos(y / (r \|\| 1))` is never zero; it is 1 for the zero vector and the vector's length otherwise |
| Polar.ToPolar | utils/math/polar.ts:13-18 | `r` is the vector's length and is non-negative |
| Polar.ToPolarScaleFree | utils/math/polar.ts:13-18 | scaling a vector by k > 0 leaves both of its polar angles unchanged |
| Polar.SnapAngle | utils/math/polar.ts:21-23 | the snapped angle is an integer multiple of 2π/divisions and lies within π/divisions (half a step) of its input |
| Polar.SnapPolar | utils/math/polar.ts:20-25 | both snapped angles lie on the 2π/divisions grid, each within half a step of its input |
| Polar.SnapIdempotent | utils/math/polar.ts:20-25 | snapping an already snapped pair returns that pair |
| Polar.SnapOfGridPoint | utils/math/polar.ts:22-23 | every multiple of the step snaps to itself |
| Polar.SnapIndependent | utils/math/polar.ts:22-23 | the snapped theta does not depend on phi, and the snapped phi does not depend on theta |
| Polar.SnapNearest | utils/math/polar.ts:22-23 | no multiple of the step is closer to the input than the snapped angle is |
| Polar.SnapToPrecisionLines | utils/math/polar.ts:27-31 | the result lies on the sphere of the session radius, at the angles obtained by snapping the clicked vector's own theta and phi to the 24-division grid, each within half a step of the click's angle |
| Polar.SnapToPrecisionLinesScaleFree | utils/math/polar.ts:27-31 | scaling the clicked vector by k > 0 does not change the snapped point, so the click's own length never matters |
| Polar.DetermineDomain | utils/math/polar.ts:33-40 | fewer than 3 points give CHIP; otherwise the result is BIM or AUTO, and BIM exactly when the mean consecutive distance exceeds 50 |
| Polar.LongStepsMeanBIM | utils/math/polar.ts:35-39 | a path of 3 or more points whose every step is longer than 50 is classified BIM |
| Polar.ShortStepsMeanAUTO | utils/math/polar.ts:35-39 | a path of 3 or more points whose every step is at most 50 is classified AUTO |
| Polar.PathLengthBounds | utils/math/polar.ts:35-38 | if every segment is longer than b, the summed path exceeds b times the number of segments; if every segment is at most b, the summed path is at most that product |
| Generators.GenerateSpiralHelix | utils/math/generators.ts:13-32 | there are ⌊turns·pointsPerTurn⌋ + 1 points, each of radius 1; when there is at least one segment, the first point is (startTheta, startPhi) and the last is (startTheta + turns·2π, startPhi + totalHeight) |
| Generators.SpiralEqualSteps | utils/math/generators.ts:23-27 | with at least one segment, consecutive points differ by exactly turns·2π/segments in theta and totalHeight/segments in phi, so both angles advance linearly |
| Generators.SpiralThetaIncreasing | utils/math/generators.ts:23-27 | with turns > 0, theta strictly increases along the list |
| Generators.DefaultSpiralHas49Points | utils/math/generators.ts:13-23 | the default parameters give 49 points |
| Generators.GenerateLattice | utils/math/generators.ts:38-57 | there are ⌈resolution⌉² points when resolution > 0 and none otherwise, each of radius 1, and point k is the lattice point of row k / rows and column k % rows |
| Generators.LatticeAt | utils/math/generators.ts:45-53 | in row-major order, point i·rows + j has theta = centerTheta + i·step − size/2 and phi = centerPhi + j·step − size/2 |
| Generators.LatticeCardinalityExamples | utils/math/generators.ts:42-48 | resolution 4 (the default) gives 16 points and resolution 3 gives 9 |
| Generators.LatticeCorners | utils/math/generators.ts:45-53 | for resolution n ≥ 2 there are n² points; the first is at center − size/2 on both angles and the last at center + size/2 |
| Generators.LatticeWithinSpan | utils/math/generators.ts:45-53 | for resolution n ≥ 2 and size ≥ 0, every lattice angle lies in [center − size/2, center + size/2] |
| Text.ParseNatToString | hooks/useBIMState.ts:73 | the decimal rendering of a face count parses back to that count |
| Text.IdTag | hooks/useBIMState.ts:72 | the tag is the first eight characters of the uuid (or all of them if there are fewer), each upper-cased (ASCII letters only, which is exact for a uuid) |
| NeuroCore.SafeRadius | services/NeuroCore.ts:25 | the radius is positive: it is `radiusFactor` when that is positive, and 10.0 when it is absent, zero or negative |
| NeuroCore.KindOf | services/NeuroCore.ts:35-49 | a generator call dispatches to the spiral exactly for `generateSpiralHelix` and to the lattice exactly for `generateLattice` |
| NeuroCore.PointSource | services/NeuroCore.ts:22-53 | without a generator call, or with an unrecognised one, the points are `payload.points` (or none); a spiral or lattice call gives exactly the generator's output at the call's parameters, each missing one taking the generator's default; generated points all have radius 1 |
| NeuroCore.MissingParamsDefault | services/NeuroCore.ts:35-48 | a generator call without parameters gives the same points as one with an empty parameter object and as one that spells out every default |
| NeuroCore.RadiusMultiplier | services/NeuroCore.ts:61 | `p.radius \|\| 1` is never zero: it is the point's radius when present and non-zero, and 1 otherwise |
| NeuroCore.IsLathe | services/NeuroCore.ts:65 | an object is a lathe when its manifestation is Volume, and otherwise exactly when a non-zero revolution angle is present |
| NeuroCore.CartesianPoints | services/NeuroCore.ts:59-63 | there is one Cartesian point per polar point, in order |
| NeuroCore.GhostObject | services/NeuroCore.ts:59-82 | the Cartesian points correspond one-to-one with the polar list; `polarInstructions` is that list; `ghostMode` is true and the score is 0.95; `isLathe` iff manifestation is Volume or the revolution angle is truthy; the revolution angle defaults to 360 only when absent; the domain defaults to BIM; the id is `payload.id` when truthy, else "ISO-SYNTH-" and the uuid tag; the name and description are the payload's when truthy, else "AI_SYNTH_OBJECT" and "Sovereign Synthesis via NeuroCore"; the layer is `baseLayer` when truthy, else safeRadius/2.5 |
| NeuroCore.Transmute | services/NeuroCore.ts:17-83 | nothing is returned exactly when the action is not DRAW_OBJECT, the payload is absent, or the final polar list is empty; otherwise the result is the ghost object built from that list |
| NeuroCore.RadiusFallback | services/NeuroCore.ts:25-28 | an absent, zero or negative radius factor gives the same result as 10.0 |
| NeuroCore.UnknownGeneratorIgnored | services/NeuroCore.ts:31-49 | an unrecognised generator name gives the same result as having no generator call |
| NeuroCore.PointsOnShell | services/NeuroCore.ts:59-63 | point i lies at distance (radius multiplier · safe radius) from the origin, that is, at the safe radius when the polar radius is 1 |
| NeuroCore.GeneratedPointsOnSafeShell | services/NeuroCore.ts:31-63 | every point of a generated ghost object lies on the sphere of the safe radius |
| NeuroCore.LatticeTokenScenario | services/NeuroCore.ts:42-82 | a lattice token with resolution 3 and base layer 20 gives a 9-point BIM ghost object that is not a lathe and sits on layer 20 |
| NeuroCore.DefaultSpiralScenario | services/NeuroCore.ts:35-41 | a spiral call without parameters gives a 49-point object |
| NeuroCore.NegativeTurnsRejected | services/NeuroCore.ts:35-55 | a spiral with negative turns yields no points, so the token is rejected |
| Session.ActiveRadius | hooks/useBIMState.ts:28 | the active radius is the one whose layer (radius/2.5, as NeuroCore computes it) is the session's layer, and it is positive exactly when the layer is |
| Session.Drafted | hooks/useBIMState.ts:37 | without precision lines the click is used as is; with them it is the click snapped by `snapToPrecisionLines` at the active radius, and so lies on the sphere of that radius |
| Session.AddPoint | hooks/useBIMState.ts:30-54 | with no domain only the domain modal opens; on a closed draft nothing changes; otherwise a click that closes the loop at threshold 2.0 sets the closed flag and opens the workflow modal with nothing else changed (the point is not stored), and any other click is appended with nothing else changed |
| Session.ContinueDrawing | hooks/useBIMState.ts:56-64 | a draft of more than 2 points is appended to the faces and then emptied, and the closed flag and modal are reset, with no other field changed; a shorter draft leaves everything unchanged |
| Session.LongFaces | hooks/useBIMState.ts:67 | the kept faces are exactly those of the input with more than 2 points |
| Session.LongFacesAppend | hooks/useBIMState.ts:67 | filtering a list with one more face gives the old result followed by that face exactly when it has more than 2 points, so order and multiplicity are kept |
| Session.LongFacesConcat | hooks/useBIMState.ts:67 | the filter distributes over concatenation |
| Session.Flatten | hooks/useBIMState.ts:70 | no faces flatten to no points, and a single face flattens to itself |
| Session.FlattenConcat | hooks/useBIMState.ts:70 | flattening distributes over concatenation, so the points appear face by face in order |
| Session.UnitFor | hooks/useBIMState.ts:81 | the unit is "m" iff the sub-folder is "m", "μm" iff it is "Micrometer", and "mm" otherwise |
| Session.UnitNameRoundTrip | hooks/useBIMState.ts:73 | the name is "UNIT-", then a decimal that parses back to the face count, then "F" |
| Session.SaveToISOStock | hooks/useBIMState.ts:66-90 | with no face of more than 2 points nothing changes; otherwise exactly one object is prepended, holding the qualifying faces concatenated in order, named after their count, with the id, layer, domain, sub-folder, unit, description and timestamp as written, no polar instructions, revolution angle, lathe flag or ghost mode, and scored by `analyzeDisassembly` of its points; the draft and faces are emptied and the closed flag and modal reset, and no other field changes |
| Session.SavedObjectSize | hooks/useBIMState.ts:67-74 | a saved object holds at least 3 points per face |
| Session.ContinueThenSave | hooks/useBIMState.ts:56-90 | caching a long draft as a face before saving gives the same session as saving directly |
| Session.Instantiate | hooks/useBIMState.ts:92-94 | exactly one instance is appended, with the given blueprint id and position, rotation 0, and the session's layer, render mode and manifestation; no other field changes |
| Session.Undo | hooks/useBIMState.ts:106 | exactly the last draft point is removed (nothing on an empty draft) and no other field changes |
| Session.UndoRevertsAddPoint | hooks/useBIMState.ts:106 | undoing a click that extended the draft restores the session exactly |
| Session.Clear | hooks/useBIMState.ts:107 | the draft and faces are emptied and the closed flag and modal reset, and no other field changes |
| Session.ClearIdempotent | hooks/useBIMState.ts:107 | clearing twice is clearing once, and saving after clearing changes nothing |
| Session.AddObject | hooks/useBIMState.ts:109 | the object is prepended to the stock and nothing else changes |
| Session.Set | hooks/useBIMState.ts:105-113 | a plain setter stores its value in its own field, leaves every field written by another kind of setter as it was, and never touches the draft, the faces, the closed flag, the stock or the instances |
| Session.SetRestore | hooks/useBIMState.ts:105-113 | writing back the value a setter replaced restores the session exactly, so a setter is undone by the same setter with the old value |
| Session.SetOverwrite | hooks/useBIMState.ts:105-113 | of two setters of the same field, the second one wins |
| Session.StepKeepsInvariant | hooks/useBIMState.ts:30-113 | every handler keeps the draft open and every cached face longer than 2 points |
| Session.RunKeepsInvariant | hooks/useBIMState.ts:30-113 | any sequence of handler calls keeps that invariant |
| Session.StoredDraftNeverClosed | hooks/useBIMState.ts:46-53 | in every session reachable from the initial one, the stored draft is itself not a closed loop |
| Session.ScenarioDraft | hooks/useBIMState.ts:30-54 | the clicks (0,0,1), (1,0,0), (0,0,−1) and (0,0,0.5) without snapping store the first three points; the fourth click closes the draft without being stored |
| Session.ScenarioSave | hooks/useBIMState.ts:66-90 | saving that closed draft gives one object with those three points, named for one face, with score 1.0 and unit "m" |
| Projection.NormalizeDims | utils/math/ProjectionEngine.ts:20 | there are always exactly 10 dimensions; the input's first 10 values are kept and shorter inputs are padded with zeros |
| Projection.PaddingInvariant | utils/math/ProjectionEngine.ts:20 | appending a zero to an input shorter than 10 changes nothing |
| Projection.TruncationInvariant | utils/math/ProjectionEngine.ts:20 | values after the tenth never matter |
| Projection.FoldPhi | utils/math/ProjectionEngine.ts:43 | the folded phi lies in [0, π) and differs from \|v\| by a non-negative multiple of π |
| Projection.FoldPhiSymmetric | utils/math/ProjectionEngine.ts:43 | folding −v gives the same result as folding v |
| Projection.FoldPhiPeriodic | utils/math/ProjectionEngine.ts:43 | for v ≥ 0, folding v + π gives the same result as folding v |
| Projection.FoldPhiIdempotent | utils/math/ProjectionEngine.ts:43 | folding twice is the same as folding once |
| Projection.ClampPrecision | utils/math/ProjectionEngine.ts:69-71 | the result lies on the 1e-8 grid, within half a grid step of the input |
| Projection.ClampPrecisionFixesGrid | utils/math/ProjectionEngine.ts:69-71 | values already on the grid are unchanged |
| Projection.ClampPrecisionIdempotent | utils/math/ProjectionEngine.ts:69-71 | clamping twice is the same as clamping once |
| Projection.Unclamped | utils/math/ProjectionEngine.ts:52-57 | the unrounded projection lies on the sphere of the effective radius |
| Projection.EffectiveRadius | utils/math/ProjectionEngine.ts:46-52 | with the four radial dimensions zero, the effective radius is the layer radius |
| Projection.Ramanujan10DTo3D | utils/math/ProjectionEngine.ts:18-64 | every coordinate is on the 1e-8 grid, within half a grid step of the unrounded projection of the normalised dimensions |
| Projection.ShortInputOnLayer | utils/math/ProjectionEngine.ts:20-52 | an input of at most 6 values projects with the layer radius itself |
| Projection.ProjectionPaddingInvariant | utils/math/ProjectionEngine.ts:20 | the projection ignores trailing zero padding of a short input and everything after the tenth value of a long one |
| Projection.ProjectTopologySequence | utils/math/ProjectionEngine.ts:76-78 | the output has the input's length and order: element k is the projection of input vector k |
| Projection.ProjectConcat | utils/math/ProjectionEngine.ts:76-78 | projecting a concatenation is concatenating the projections |
| Projection.HarmonicStability | utils/math/ProjectionEngine.ts:83-91 | fewer than 3 points score 0, and no score exceeds 1 |
| Projection.HarmonicStabilityRange | utils/math/ProjectionEngine.ts:83-91 | the score lies in [0, 1] |
| Projection.CollapsedFaceUnstable | utils/math/ProjectionEngine.ts:83-91 | a face of 3 or more copies of one point scores 0 |
| Projection.HarmonicStabilityTranslate | utils/math/ProjectionEngine.ts:83-91 | translating every point by the same vector leaves the score unchanged |

## Left out

- Rendering, React state plumbing, status strings, `console` logging and the `toFixed` formatting of log messages in `useBIMState` and `NeuroCore`: none of them affects the session data.
- `handleNavTarget` is modelled as the setter `NavTargetSetting`; the status string it also sets is not modelled.
- `calculateCurvature` in `src/utils/math/analysis.ts` is not modelled: it needs three.js `angleTo`, an `acos` of a clamped quotient of floating-point values.
- The transcendental functions `sin`, `cos`, `atan2`, `acos` and `sqrt` are uninterpreted parameters. Only the identities in `MathOps.Valid()` and `MathOps.Atan2ScaleFree()` are assumed, and only by the members that need them.
- IEEE floating point, NaN and infinity are not modelled. Where the source can produce NaN, the model substitutes a defined value:
  - a spiral with ⌊turns·pointsPerTurn⌋ = 0 divides 0 by 0 for its single point;
  - a lattice of resolution 1 divides the size by 0;
  - `getCentroid` of an empty list divides by 0.

  The model uses a quotient of 0 for the first two and `None` for the centroid. The generator lemmas about ordering, endpoints and span require at least one segment or a resolution of at least 2.
- `analyzeDisassembly` of an empty list computes 1/0 = ∞ in the source, which the clamp turns into 1.0. The model returns 1.0 directly.
- Untyped JSON is not modelled. A token field that is `null`, of the wrong type, or a non-string `function` name is modelled as absent or as an unrecognised name. Exceptions raised inside a generator (the source's `catch`) cannot occur in the model.
- `Generators.GenerateLattice`: a non-integer resolution r runs the loops ⌈r⌉ times each (as the source does), but the step uses r itself. The lemmas about span and corners are stated for integer resolutions.
- `NeuroCore.GhostObject`: the revolution-angle default follows `??`, so a present value of 0 is kept; `baseLayer`, `id`, `name` and `description` follow `||`, so 0 or the empty string falls back to the default. Both are modelled as written.
- `Projection.Ramanujan10DTo3D`: the harmonic sums use the uninterpreted `sin` and `cos` of multiples of φ ≈ 1.618. The contract states the rounding and the normalisation of the dimensions, not the values of those sums.
- `Text.UpperChar`: `toUpperCase` is modelled on ASCII letters only. The source applies it to a uuid slice, which holds only hexadecimal digits and dashes, so nothing is lost there; general Unicode case mapping is not modelled.
- `Session.SaveToISOStock`: the description includes the domain's display name; nothing beyond string equality is proved about it.
- The App-level wiring that feeds AI results into the stock, and any deploy-by-id or proposal approval, are not part of this model. Their definitions are not in the session hook.
