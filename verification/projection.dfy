/**
 * The structural parts of the 10D projection engine
 * (utils/math/ProjectionEngine.ts): normalising the input to ten
 * dimensions, folding the latitude into [0, pi), rounding to the 1e-8 grid,
 * mapping a sequence of inputs, and the harmonic stability of a face.
 */
module Projection {
  import opened Numerics
  import opened Polar
  import opened Topology

  /** The number of dimensions a projected vector has. */
  const DIMENSIONS: nat := 10
  /** Decimal places kept by `clampPrecision`, as a scale. */
  const PRECISION_SCALE: real := 100000000.0

  /** The first ten entries, or all entries padded with zeros up to ten. */
  function NormalizeDims(input: seq<real>): (dims: seq<real>)
    ensures |dims| == DIMENSIONS
    ensures forall i :: 0 <= i < |input| && i < DIMENSIONS ==> dims[i] == input[i]
    ensures forall i :: |input| <= i < DIMENSIONS ==> dims[i] == 0.0
  {
    if |input| >= DIMENSIONS then input[..DIMENSIONS]
    else input + seq(DIMENSIONS - |input|, _ => 0.0)
  }

  /** Padding a short input with one more zero does not change it. */
  lemma PaddingInvariant(input: seq<real>)
    requires |input| < DIMENSIONS
    ensures NormalizeDims(input + [0.0]) == NormalizeDims(input)
  {
    var a, b := NormalizeDims(input + [0.0]), NormalizeDims(input);
    assert forall i :: 0 <= i < DIMENSIONS ==> a[i] == b[i];
  }

  /** Entries past the tenth are ignored. */
  lemma TruncationInvariant(input: seq<real>, extra: seq<real>)
    requires |input| >= DIMENSIONS
    ensures NormalizeDims(input + extra) == NormalizeDims(input)
  {
    var a, b := NormalizeDims(input + extra), NormalizeDims(input);
    assert forall i :: 0 <= i < DIMENSIONS ==> a[i] == b[i];
  }

  /**
   * `Math.abs(v) % Math.PI`. The dividend is never negative, so JavaScript's
   * truncating remainder agrees with the floor-based one written here.
   */
  function FoldPhi(v: real): (f: real)
    ensures 0.0 <= f < PI
    ensures exists k: int :: 0 <= k && Abs(v) == f + GridPoint(k, PI)
  {
    var a := Abs(v);
    var k := (a / PI).Floor;
    FloorBounds(a, PI);
    assert a == (a - PI * k as real) + GridPoint(k, PI);
    a - PI * k as real
  }

  /** `k * step <= a < (k + 1) * step` for `k` the floor of `a / step`. */
  lemma FloorBounds(a: real, step: real)
    requires 0.0 < step
    ensures var k := (a / step).Floor as real;
      k * step <= a < k * step + step
    ensures 0.0 <= a ==> 0 <= (a / step).Floor
  {
    var q := a / step;
    var k := q.Floor as real;
    assert q * step == a;
    assert k <= q < k + 1.0;
    MulLeRight(k, q, step);
    MulLtRight(q, k + 1.0, step);
    assert a < (k + 1.0) * step;
    assert (k + 1.0) * step == k * step + step;
  }

  lemma MulLeRight(x: real, y: real, c: real)
    requires x <= y && 0.0 < c
    ensures x * c <= y * c
  {
  }

  lemma MulLtRight(x: real, y: real, c: real)
    requires x < y && 0.0 < c
    ensures x * c < y * c
  {
  }

  /** An angle already in [0, pi) is left as it is. */
  lemma FoldPhiInRange(v: real)
    requires 0.0 <= v < PI
    ensures FoldPhi(v) == v
  {
    assert 0.0 <= v / PI < 1.0;
  }

  /** Only the magnitude matters. */
  lemma FoldPhiSymmetric(v: real)
    ensures FoldPhi(-v) == FoldPhi(v)
  {
  }

  /** Folding is periodic in pi. */
  lemma FoldPhiPeriodic(v: real)
    requires 0.0 <= v
    ensures FoldPhi(v + PI) == FoldPhi(v)
  {
    var q := v / PI;
    assert (v + PI) / PI == q + 1.0;
    assert (q + 1.0).Floor == q.Floor + 1;
    assert FoldPhi(v + PI) == (v + PI) - PI * (q.Floor + 1) as real;
  }

  /** Folding twice is folding once. */
  lemma FoldPhiIdempotent(v: real)
    ensures FoldPhi(FoldPhi(v)) == FoldPhi(v)
  {
    FoldPhiInRange(FoldPhi(v));
  }

  /** Whether `v` has at most eight decimal places. */
  predicate OnPrecisionGrid(v: real) {
    (v * PRECISION_SCALE).Floor as real == v * PRECISION_SCALE
  }

  /** `clampPrecision`: `Math.round(v * 1e8) / 1e8`. */
  function ClampPrecision(v: real): (c: real)
    ensures OnPrecisionGrid(c)
    ensures v - 0.5 / PRECISION_SCALE < c <= v + 0.5 / PRECISION_SCALE
  {
    var n := Round(v * PRECISION_SCALE);
    assert (n as real / PRECISION_SCALE) * PRECISION_SCALE == n as real;
    n as real / PRECISION_SCALE
  }

  /** Values on the grid are fixed points, so clamping is idempotent. */
  lemma ClampPrecisionFixesGrid(v: real)
    requires OnPrecisionGrid(v)
    ensures ClampPrecision(v) == v
  {
    RoundOfInteger((v * PRECISION_SCALE).Floor);
  }

  lemma ClampPrecisionIdempotent(v: real)
    ensures ClampPrecision(ClampPrecision(v)) == ClampPrecision(v)
  {
    ClampPrecisionFixesGrid(ClampPrecision(v));
  }

  /** The phase cluster: dims 0..2 weighted by cos((i + 1) * PHI). */
  function ThetaHarmonic(m: MathOps, dims: seq<real>): real
    requires |dims| == DIMENSIONS
  {
    dims[0] * m.cos(1.0 * PHI) + dims[1] * m.cos(2.0 * PHI) + dims[2] * m.cos(3.0 * PHI)
  }

  /** The frequency cluster: dims 3..5 weighted by sin((i + 1) * PHI). */
  function PhiHarmonic(m: MathOps, dims: seq<real>): real
    requires |dims| == DIMENSIONS
  {
    dims[3] * m.sin(1.0 * PHI) + dims[4] * m.sin(2.0 * PHI) + dims[5] * m.sin(3.0 * PHI)
  }

  /** The radial cluster: dims 6..9 divided by (i + PHI). */
  function HarmonicShell(dims: seq<real>): real
    requires |dims| == DIMENSIONS
  {
    dims[6] / (0.0 + PHI) + dims[7] / (1.0 + PHI) + dims[8] / (2.0 + PHI) + dims[9] / (3.0 + PHI)
  }

  /** The radius a vector is projected at: the layer radius plus the shell over PHI. */
  function EffectiveRadius(dims: seq<real>, radius: real): (r: real)
    requires |dims| == DIMENSIONS
    ensures dims[6] == 0.0 && dims[7] == 0.0 && dims[8] == 0.0 && dims[9] == 0.0 ==> r == radius
  {
    radius + HarmonicShell(dims) * (1.0 / PHI)
  }

  /** The projected point before rounding to the precision grid. */
  function Unclamped(m: MathOps, dims: seq<real>, radius: real): (u: Vec3)
    requires |dims| == DIMENSIONS
    ensures m.Valid() ==> NormSq(u) == EffectiveRadius(dims, radius) * EffectiveRadius(dims, radius)
  {
    var theta := ThetaHarmonic(m, dims) * PHI;
    var phi := FoldPhi(PhiHarmonic(m, dims) * PHI);
    ToVec3(m, EffectiveRadius(dims, radius), theta, phi)
  }

  /**
   * `ramanujan10DTo3D`: every coordinate lies on the 1e-8 grid within half a
   * grid step of the point on the sphere of the effective radius.
   */
  function Ramanujan10DTo3D(m: MathOps, input: seq<real>, radius: real): (v: Vec3)
    ensures OnPrecisionGrid(v.x) && OnPrecisionGrid(v.y) && OnPrecisionGrid(v.z)
    ensures var u := Unclamped(m, NormalizeDims(input), radius);
      && Abs(v.x - u.x) <= 0.5 / PRECISION_SCALE
      && Abs(v.y - u.y) <= 0.5 / PRECISION_SCALE
      && Abs(v.z - u.z) <= 0.5 / PRECISION_SCALE
  {
    var u := Unclamped(m, NormalizeDims(input), radius);
    Vec3(ClampPrecision(u.x), ClampPrecision(u.y), ClampPrecision(u.z))
  }

  /** An input of at most six entries has no radial part: it projects onto the layer's own sphere. */
  lemma ShortInputOnLayer(m: MathOps, input: seq<real>, radius: real)
    requires |input| <= 6
    ensures EffectiveRadius(NormalizeDims(input), radius) == radius
  {
  }

  /** The projection reads only the normalised dimensions. */
  lemma ProjectionPaddingInvariant(m: MathOps, input: seq<real>, extra: seq<real>, radius: real)
    ensures |input| < DIMENSIONS ==> Ramanujan10DTo3D(m, input + [0.0], radius) == Ramanujan10DTo3D(m, input, radius)
    ensures |input| >= DIMENSIONS ==> Ramanujan10DTo3D(m, input + extra, radius) == Ramanujan10DTo3D(m, input, radius)
  {
    if |input| < DIMENSIONS {
      PaddingInvariant(input);
    } else {
      TruncationInvariant(input, extra);
    }
  }

  /** `projectTopologySequence`: each input projected in place, in order. */
  function ProjectTopologySequence(m: MathOps, vectors: seq<seq<real>>, radius: real): (points: seq<Vec3>)
    ensures |points| == |vectors|
    ensures forall k :: 0 <= k < |vectors| ==> points[k] == Ramanujan10DTo3D(m, vectors[k], radius)
  {
    if |vectors| == 0 then []
    else ProjectTopologySequence(m, vectors[..|vectors| - 1], radius) + [Ramanujan10DTo3D(m, vectors[|vectors| - 1], radius)]
  }

  /** Projecting a concatenation concatenates the projections. */
  lemma ProjectConcat(m: MathOps, a: seq<seq<real>>, b: seq<seq<real>>, radius: real)
    ensures ProjectTopologySequence(m, a + b, radius)
         == ProjectTopologySequence(m, a, radius) + ProjectTopologySequence(m, b, radius)
  {
    var l, pa, pb := ProjectTopologySequence(m, a + b, radius),
                     ProjectTopologySequence(m, a, radius), ProjectTopologySequence(m, b, radius);
    forall k | 0 <= k < |a + b|
      ensures l[k] == (pa + pb)[k]
    {
      if k < |a| {
        assert (a + b)[k] == a[k];
      } else {
        assert (a + b)[k] == b[k - |a|];
      }
    }
  }

  /** The running total of distances to `c`, in order. */
  function DistanceSum(m: MathOps, points: seq<Vec3>, c: Vec3): real {
    if |points| == 0 then 0.0
    else DistanceSum(m, points[..|points| - 1], c) + DistanceTo(m, points[|points| - 1], c)
  }

  lemma {:induction false} DistanceSumNonNegative(m: MathOps, points: seq<Vec3>, c: Vec3)
    requires m.Valid()
    ensures 0.0 <= DistanceSum(m, points, c)
  {
    if |points| > 0 {
      DistanceSumNonNegative(m, points[..|points| - 1], c);
      DistanceNonNegative(m, points[|points| - 1], c);
    }
  }

  /**
   * `calculateHarmonicStability`: the mean distance to the centroid over
   * PHI, capped at 1; zero for fewer than three points.
   */
  function HarmonicStability(m: MathOps, points: seq<Vec3>): (s: real)
    ensures |points| < 3 ==> s == 0.0
    ensures s <= 1.0
  {
    if |points| < 3 then 0.0
    else
      var c := Centroid(points).value;
      var average := DistanceSum(m, points, c) / |points| as real;
      Min(1.0, average / PHI)
  }

  /** With a genuine square root the stability lies in [0, 1]. */
  lemma HarmonicStabilityRange(m: MathOps, points: seq<Vec3>)
    requires m.Valid()
    ensures 0.0 <= HarmonicStability(m, points) <= 1.0
  {
    if |points| >= 3 {
      DistanceSumNonNegative(m, points, Centroid(points).value);
    }
  }

  /** Distances to a point that all the points coincide with add up to zero. */
  lemma {:induction false} DistanceSumOfCopies(m: MathOps, points: seq<Vec3>, p: Vec3)
    requires m.sqrt(0.0) == 0.0
    requires forall i :: 0 <= i < |points| ==> points[i] == p
    ensures DistanceSum(m, points, p) == 0.0
  {
    if |points| > 0 {
      DistanceSumOfCopies(m, points[..|points| - 1], p);
      SelfDistanceZero(m, points[|points| - 1], p);
    }
  }

  lemma SelfDistanceZero(m: MathOps, q: Vec3, p: Vec3)
    requires m.sqrt(0.0) == 0.0 && q == p
    ensures DistanceTo(m, q, p) == 0.0
  {
    assert DistSq(p, p) == 0.0;
  }

  /** A genuine square root maps zero to zero. */
  lemma RootOfZero(m: MathOps)
    requires m.Valid()
    ensures m.sqrt(0.0) == 0.0
  {
    Sqrt(m, 0.0);
    RootZero(m.sqrt(0.0), 0.0);
  }

  /** A face collapsed onto a single point has no stability. */
  lemma CollapsedFaceUnstable(m: MathOps, p: Vec3, n: nat)
    requires m.Valid() && n >= 3
    ensures HarmonicStability(m, seq(n, _ => p)) == 0.0
  {
    CentroidOfCopies(p, n);
    RootOfZero(m);
    DistanceSumOfCopies(m, seq(n, _ => p), p);
  }

  /** Translating the points and the reference point together keeps every distance. */
  lemma {:induction false} DistanceSumTranslate(m: MathOps, points: seq<Vec3>, c: Vec3, t: Vec3)
    ensures DistanceSum(m, seq(|points|, i requires 0 <= i < |points| => Add(points[i], t)), Add(c, t))
         == DistanceSum(m, points, c)
  {
    var moved := seq(|points|, i requires 0 <= i < |points| => Add(points[i], t));
    if |points| > 0 {
      var init := points[..|points| - 1];
      assert moved[..|points| - 1] == seq(|init|, i requires 0 <= i < |init| => Add(init[i], t));
      DistanceSumTranslate(m, init, c, t);
      assert Sub(Add(points[|points| - 1], t), Add(c, t)) == Sub(points[|points| - 1], c);
    }
  }

  /** The stability of a face does not depend on where the face is. */
  lemma HarmonicStabilityTranslate(m: MathOps, points: seq<Vec3>, t: Vec3)
    ensures HarmonicStability(m, seq(|points|, i requires 0 <= i < |points| => Add(points[i], t)))
         == HarmonicStability(m, points)
  {
    if |points| >= 3 {
      CentroidTranslate(points, t);
      DistanceSumTranslate(m, points, Centroid(points).value, t);
    }
  }
}
