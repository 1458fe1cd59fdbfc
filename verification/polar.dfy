/**
 * Spherical coordinates, angular snapping and domain classification
 * (utils/math/polar.ts).
 */
module Polar {
  import opened Numerics
  import opened Types

  /** `snapPolar`'s default number of divisions of the full turn (15 degrees). */
  const DEFAULT_DIVISIONS: int := 24

  /** Mean segment length above which a sketch is classified as architectural. */
  const BIM_MEAN_SEGMENT: real := 50.0

  /** `toVec3`: physics-convention spherical coordinates to Cartesian. */
  function ToVec3(m: MathOps, radius: real, theta: real, phi: real): (v: Vec3)
    ensures m.Valid() ==> NormSq(v) == radius * radius
  {
    var v := Vec3(radius * m.sin(phi) * m.cos(theta),
                  radius * m.cos(phi),
                  radius * m.sin(phi) * m.sin(theta));
    SphereIdentity(m, radius, theta, phi);
    v
  }

  lemma SphereIdentity(m: MathOps, radius: real, theta: real, phi: real)
    ensures m.Valid() ==>
      NormSq(Vec3(radius * m.sin(phi) * m.cos(theta),
                  radius * m.cos(phi),
                  radius * m.sin(phi) * m.sin(theta))) == radius * radius
  {
    if m.Valid() {
      var s, c, a, b := m.sin(phi), m.cos(phi), m.cos(theta), m.sin(theta);
      assert s * s + c * c == 1.0;
      assert b * b + a * a == 1.0;
      UnitSphere(radius, s, c, a, b);
    }
  }

  lemma UnitSphere(r: real, s: real, c: real, a: real, b: real)
    requires s * s + c * c == 1.0 && a * a + b * b == 1.0
    ensures (r * s * a) * (r * s * a) + (r * c) * (r * c) + (r * s * b) * (r * s * b) == r * r
  {
    calc {
      (r * s * a) * (r * s * a) + (r * c) * (r * c) + (r * s * b) * (r * s * b);
    == (r * r) * ((s * s) * (a * a + b * b) + c * c);
    == (r * r) * (s * s + c * c);
    == r * r;
    }
  }

  datatype PolarCoords = PolarCoords(r: real, theta: real, phi: real)

  /** The divisor of `toPolar`'s `acos` argument: the length, or 1 for the zero vector. */
  function PolarDivisor(m: MathOps, v: Vec3): (d: real)
    ensures d != 0.0
    ensures m.Valid() && v == Origin ==> d == 1.0
    ensures m.Valid() && v != Origin ==> 0.0 < d && d * d == NormSq(v)
  {
    var l := Length(m, v);
    LengthFacts(m, v);
    if l == 0.0 then 1.0 else l
  }

  /** `toPolar`: length, azimuth `atan2(z, x)` and polar angle `acos(y / r)`. */
  function ToPolar(m: MathOps, v: Vec3): (p: PolarCoords)
    ensures p.r == Length(m, v)
    ensures m.Valid() ==> 0.0 <= p.r
  {
    LengthFacts(m, v);
    PolarCoords(Length(m, v), m.atan2(v.z, v.x), m.acos(v.y / PolarDivisor(m, v)))
  }

  /** Scaling a vector by a positive factor leaves its angles alone. */
  lemma ToPolarScaleFree(m: MathOps, v: Vec3, k: real)
    requires m.Valid() && m.Atan2ScaleFree() && 0.0 < k
    ensures ToPolar(m, Scale(v, k)).theta == ToPolar(m, v).theta
    ensures ToPolar(m, Scale(v, k)).phi == ToPolar(m, v).phi
  {
    AzimuthScaleFree(m, v, k);
    if v != Origin {
      PolarDivisorScale(m, v, k);
      CosineScaleFree(m, v, k);
    } else {
      assert Scale(v, k) == v;
    }
  }

  /** The `acos` argument `y / r` is unchanged when the divisor scales with the vector. */
  lemma CosineScaleFree(m: MathOps, v: Vec3, k: real)
    requires 0.0 < k && PolarDivisor(m, Scale(v, k)) == k * PolarDivisor(m, v)
    ensures Scale(v, k).y / PolarDivisor(m, Scale(v, k)) == v.y / PolarDivisor(m, v)
  {
    RatioScale(v.y, PolarDivisor(m, v), PolarDivisor(m, Scale(v, k)), k);
  }

  lemma AzimuthScaleFree(m: MathOps, v: Vec3, k: real)
    requires m.Atan2ScaleFree() && 0.0 < k
    ensures m.atan2(Scale(v, k).z, Scale(v, k).x) == m.atan2(v.z, v.x)
  {
    assert Scale(v, k).z == Times(k, v.z) && Scale(v, k).x == Times(k, v.x);
    assert m.atan2(Times(k, v.z), Times(k, v.x)) == m.atan2(v.z, v.x);
  }

  lemma PolarDivisorScale(m: MathOps, v: Vec3, k: real)
    requires m.Valid() && 0.0 < k && v != Origin
    ensures PolarDivisor(m, Scale(v, k)) == k * PolarDivisor(m, v)
  {
    var w := Scale(v, k);
    LengthScale(m, v, k);
    LengthZero(m, v);
    LengthZero(m, w);
    MulPositive(k, Length(m, v));
  }

  lemma RatioScale(y: real, d: real, d': real, k: real)
    requires d != 0.0 && k != 0.0 && d' == k * d
    ensures (k * y) / d' == y / d
  {
  }

  /** The snapping step `2*PI / divisions`. */
  function SnapStep(divisions: int): (step: real)
    requires 0 < divisions
    ensures 0.0 < step
  {
    (PI * 2.0) / divisions as real
  }

  /** `a` is an integer multiple of `step`. */
  predicate OnGrid(a: real, step: real)
    requires step != 0.0
  {
    (a / step).Floor as real == a / step
  }

  /** The grid point `k * step`. */
  function GridPoint(k: int, step: real): real {
    k as real * step
  }

  /** Rounds one angle to the nearest multiple of the step. */
  function SnapAngle(a: real, divisions: int): (s: real)
    requires 0 < divisions
    ensures OnGrid(s, SnapStep(divisions))
    ensures Abs(s - a) <= PI / divisions as real
  {
    var step := SnapStep(divisions);
    var n := Round(a / step);
    RoundedMultiple(a, step, n);
    assert step / 2.0 == PI / divisions as real;
    n as real * step
  }

  lemma RoundedMultiple(a: real, step: real, n: int)
    requires 0.0 < step
    requires a / step - 0.5 < n as real <= a / step + 0.5
    ensures (n as real * step) / step == n as real
    ensures Abs(n as real * step - a) <= step / 2.0
  {
    var q := a / step;
    var e := n as real - q;
    DivCancel(n as real, step);
    DivCancel(q, step);
    assert n as real * step - a == e * step by {
      assert a == q * step;
    }
    MulBound(e, step);
  }

  lemma DivCancel(x: real, step: real)
    requires step != 0.0
    ensures (x * step) / step == x
    ensures (x / step) * step == x
  {
  }

  lemma MulBound(e: real, step: real)
    requires 0.0 < step && -0.5 <= e <= 0.5
    ensures Abs(e * step) <= step / 2.0
  {
    if e >= 0.0 {
      assert e * step <= 0.5 * step;
    } else {
      assert (-e) * step <= 0.5 * step;
    }
  }

  datatype SnappedPair = SnappedPair(snappedTheta: real, snappedPhi: real)

  /** `snapPolar`: both angles snapped to the `2*PI / divisions` grid. */
  function SnapPolar(theta: real, phi: real, divisions: int): (r: SnappedPair)
    requires 0 < divisions
    ensures OnGrid(r.snappedTheta, SnapStep(divisions)) && OnGrid(r.snappedPhi, SnapStep(divisions))
    ensures Abs(r.snappedTheta - theta) <= PI / divisions as real
    ensures Abs(r.snappedPhi - phi) <= PI / divisions as real
  {
    SnappedPair(SnapAngle(theta, divisions), SnapAngle(phi, divisions))
  }

  /** Snapping an already snapped pair returns it unchanged. */
  lemma SnapIdempotent(theta: real, phi: real, divisions: int)
    requires 0 < divisions
    ensures var r := SnapPolar(theta, phi, divisions);
      SnapPolar(r.snappedTheta, r.snappedPhi, divisions) == r
  {
    SnapAngleIdempotent(theta, divisions);
    SnapAngleIdempotent(phi, divisions);
  }

  lemma SnapAngleIdempotent(a: real, divisions: int)
    requires 0 < divisions
    ensures SnapAngle(SnapAngle(a, divisions), divisions) == SnapAngle(a, divisions)
  {
    var n := Round(a / SnapStep(divisions));
    assert SnapAngle(a, divisions) == GridPoint(n, SnapStep(divisions));
    SnapOfGridPoint(n, divisions);
  }

  /** Grid points are fixed by snapping. */
  lemma SnapOfGridPoint(k: int, divisions: int)
    requires 0 < divisions
    ensures SnapAngle(GridPoint(k, SnapStep(divisions)), divisions) == GridPoint(k, SnapStep(divisions))
  {
    var step := SnapStep(divisions);
    var x := GridPoint(k, step);
    DivCancel(k as real, step);
    assert x / step == k as real;
    RoundOfInteger(k);
    assert Round(x / step) == k;
    assert SnapAngle(x, divisions) == Round(x / step) as real * step;
  }

  /** Each output angle depends on its own input angle only. */
  lemma SnapIndependent(theta: real, phi: real, theta': real, phi': real, divisions: int)
    requires 0 < divisions
    ensures SnapPolar(theta, phi, divisions).snappedTheta == SnapPolar(theta, phi', divisions).snappedTheta
    ensures SnapPolar(theta, phi, divisions).snappedPhi == SnapPolar(theta', phi, divisions).snappedPhi
  {
  }

  /** The snapped angle is a nearest grid point: no multiple of the step is closer. */
  lemma SnapNearest(a: real, divisions: int, k: int)
    requires 0 < divisions
    ensures Abs(SnapAngle(a, divisions) - a) <= Abs(GridPoint(k, SnapStep(divisions)) - a)
  {
    var step := SnapStep(divisions);
    var n := Round(a / step);
    assert SnapAngle(a, divisions) == n as real * step;
    assert GridPoint(k, step) == k as real * step;
    DivCancel(a, step);
    NearestScaled(a, a / step, step, n, k);
  }

  lemma NearestScaled(a: real, q: real, step: real, n: int, k: int)
    requires 0.0 < step && q * step == a
    requires q - 0.5 < n as real <= q + 0.5
    ensures Abs(n as real * step - a) <= Abs(k as real * step - a)
  {
    NearestInteger(q, n, k);
    var x, y := n as real, k as real;
    assert Abs(x - q) <= Abs(y - q);
    CloserAt(a, q, step, x, y);
  }

  /** `CloserScaled` with `q * step` written as `a`. */
  lemma CloserAt(a: real, q: real, step: real, x: real, y: real)
    requires 0.0 < step && q * step == a
    requires Abs(x - q) <= Abs(y - q)
    ensures Abs(x * step - a) <= Abs(y * step - a)
  {
    CloserScaled(q, step, x, y);
  }

  /** Scaling by a positive step preserves which of two points is closer. */
  lemma CloserScaled(q: real, step: real, x: real, y: real)
    requires 0.0 < step
    requires Abs(x - q) <= Abs(y - q)
    ensures Abs(x * step - q * step) <= Abs(y * step - q * step)
  {
    var dx, dy := Abs(x - q), Abs(y - q);
    ScaledDifference(x, q, step);
    ScaledDifference(y, q, step);
    MulLeLeft(step, dx, dy);
  }

  /** `|x*step - q*step| == step * |x - q|` for a positive step. */
  lemma ScaledDifference(x: real, q: real, step: real)
    requires 0.0 < step
    ensures Abs(x * step - q * step) == step * Abs(x - q)
  {
    assert x * step - q * step == (x - q) * step;
    AbsScale(x - q, step);
  }

  lemma NearestInteger(q: real, n: int, k: int)
    requires q - 0.5 < n as real <= q + 0.5
    ensures Abs(n as real - q) <= Abs(k as real - q)
  {
    if k > n {
      assert k as real >= n as real + 1.0;
    } else if k < n {
      assert k as real <= n as real - 1.0;
    }
  }

  lemma AbsScale(e: real, step: real)
    requires 0.0 < step
    ensures Abs(e * step) == step * Abs(e)
  {
  }

  lemma MulLeLeft(c: real, x: real, y: real)
    requires 0.0 <= c && x <= y
    ensures c * x <= c * y
  {
    MulNonNegative(c, y - x);
  }

  /**
   * `snapToPrecisionLines`: the point's angles are snapped and the point is
   * re-projected onto the sphere of the session radius.
   */
  function SnapToPrecisionLines(m: MathOps, vec: Vec3, radius: real): (v: Vec3)
    ensures m.Valid() ==> NormSq(v) == radius * radius
    ensures var pc := ToPolar(m, vec);
      exists st, sp ::
      && OnGrid(st, SnapStep(DEFAULT_DIVISIONS)) && Abs(st - pc.theta) <= PI / DEFAULT_DIVISIONS as real
      && OnGrid(sp, SnapStep(DEFAULT_DIVISIONS)) && Abs(sp - pc.phi) <= PI / DEFAULT_DIVISIONS as real
      && v == ToVec3(m, radius, st, sp)
    ensures var pc := ToPolar(m, vec);
      v == ToVec3(m, radius, SnapAngle(pc.theta, DEFAULT_DIVISIONS), SnapAngle(pc.phi, DEFAULT_DIVISIONS))
  {
    var p := ToPolar(m, vec);
    var s := SnapPolar(p.theta, p.phi, DEFAULT_DIVISIONS);
    ToVec3(m, radius, s.snappedTheta, s.snappedPhi)
  }

  /** The input's own length does not matter: any positive rescaling snaps to the same point. */
  lemma SnapToPrecisionLinesScaleFree(m: MathOps, vec: Vec3, k: real, radius: real)
    requires m.Valid() && m.Atan2ScaleFree() && 0.0 < k
    ensures SnapToPrecisionLines(m, Scale(vec, k), radius) == SnapToPrecisionLines(m, vec, radius)
  {
    ToPolarScaleFree(m, vec, k);
  }

  /** Sum of consecutive distances, accumulated left to right as `reduce` does. */
  function PathLength(m: MathOps, points: seq<Vec3>): real
    decreases |points|
  {
    if |points| < 2 then 0.0
    else PathLength(m, points[..|points| - 1]) + DistanceTo(m, points[|points| - 1], points[|points| - 2])
  }

  /**
   * `determineDomain`: micro for fewer than three points, otherwise
   * architectural exactly when the mean consecutive distance exceeds 50.
   */
  function DetermineDomain(m: MathOps, points: seq<Vec3>): (d: ISODomain)
    ensures |points| < 3 ==> d == CHIP
    ensures |points| >= 3 ==> d != CHIP
    ensures |points| >= 3 ==>
      (d == BIM <==> PathLength(m, points) > BIM_MEAN_SEGMENT * (|points| - 1) as real)
  {
    if |points| < 3 then CHIP
    else
      var avg := PathLength(m, points) / (|points| - 1) as real;
      MeanAbove(PathLength(m, points), (|points| - 1) as real, BIM_MEAN_SEGMENT);
      if avg > BIM_MEAN_SEGMENT then BIM else AUTO
  }

  lemma MeanAbove(total: real, n: real, bound: real)
    requires 0.0 < n
    ensures total / n > bound <==> total > bound * n
  {
    assert total == (total / n) * n;
    if total / n > bound {
      assert (total / n) * n > bound * n;
    } else {
      assert (total / n) * n <= bound * n;
    }
  }

  /** Every consecutive pair of points is farther apart than `bound`. */
  ghost predicate AllSegmentsLonger(m: MathOps, points: seq<Vec3>, bound: real) {
    forall i :: 1 <= i < |points| ==> DistanceTo(m, points[i], points[i - 1]) > bound
  }

  /** Every consecutive pair of points is at most `bound` apart. */
  ghost predicate AllSegmentsWithin(m: MathOps, points: seq<Vec3>, bound: real) {
    forall i :: 1 <= i < |points| ==> DistanceTo(m, points[i], points[i - 1]) <= bound
  }

  /** `bound` added to itself `n` times. */
  function Repeated(bound: real, n: nat): real {
    if n == 0 then 0.0 else Repeated(bound, n - 1) + bound
  }

  lemma {:induction false} RepeatedIsProduct(bound: real, n: nat)
    ensures Repeated(bound, n) == bound * n as real
  {
    if n > 0 {
      RepeatedIsProduct(bound, n - 1);
    }
  }

  lemma {:induction false} PathLengthBounds(m: MathOps, points: seq<Vec3>, bound: real)
    requires 2 <= |points|
    ensures AllSegmentsLonger(m, points, bound) ==> PathLength(m, points) > Repeated(bound, |points| - 1)
    ensures AllSegmentsWithin(m, points, bound) ==> PathLength(m, points) <= Repeated(bound, |points| - 1)
  {
    var n := |points|;
    var init := points[..n - 1];
    assert PathLength(m, points) == PathLength(m, init) + DistanceTo(m, points[n - 1], points[n - 2]);
    if n > 2 {
      if AllSegmentsLonger(m, points, bound) {
        assert AllSegmentsLonger(m, init, bound);
      }
      if AllSegmentsWithin(m, points, bound) {
        assert AllSegmentsWithin(m, init, bound);
      }
      PathLengthBounds(m, init, bound);
    }
  }

  /** A sketch whose every step exceeds 50 units is architectural. */
  lemma LongStepsMeanBIM(m: MathOps, points: seq<Vec3>)
    requires |points| >= 3 && AllSegmentsLonger(m, points, BIM_MEAN_SEGMENT)
    ensures DetermineDomain(m, points) == BIM
  {
    PathLengthBounds(m, points, BIM_MEAN_SEGMENT);
    RepeatedIsProduct(BIM_MEAN_SEGMENT, |points| - 1);
  }

  /** A sketch whose every step is at most 50 units is mechanical. */
  lemma ShortStepsMeanAUTO(m: MathOps, points: seq<Vec3>)
    requires |points| >= 3 && AllSegmentsWithin(m, points, BIM_MEAN_SEGMENT)
    ensures DetermineDomain(m, points) == AUTO
  {
    PathLengthBounds(m, points, BIM_MEAN_SEGMENT);
    RepeatedIsProduct(BIM_MEAN_SEGMENT, |points| - 1);
  }
}
