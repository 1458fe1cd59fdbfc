/**
 * Loop closure, face normal and centroid of a drafted point list
 * (utils/math/topology.ts).
 */
module Topology {
  import opened Wrappers
  import opened Numerics

  /**
   * `a.distanceTo(b) < threshold`, decided on squared distances: for a
   * non-negative `d`, `sqrt(d) < t` holds exactly when `0 < t` and `d < t*t`.
   */
  predicate WithinDistance(a: Vec3, b: Vec3, threshold: real) {
    0.0 < threshold && DistSq(a, b) < threshold * threshold
  }

  /** A non-negative root `l` of `d` lies below `t` exactly when `d` does below `t*t`. */
  lemma RootBelow(l: real, d: real, t: real)
    requires 0.0 <= l && l * l == d
    ensures (0.0 < t && d < t * t) <==> l < t
  {
    if l < t {
      SquareLess(l, t);
    } else if 0.0 < t && t < l {
      SquareLess(t, l);
    }
  }

  /** The squared comparison agrees with comparing the actual distance. */
  lemma WithinDistanceIsDistance(m: MathOps, a: Vec3, b: Vec3, threshold: real)
    requires m.Valid()
    ensures WithinDistance(a, b, threshold) <==> DistanceTo(m, a, b) < threshold
  {
    NormSqZero(Sub(a, b));
    Sqrt(m, DistSq(a, b));
    RootBelow(DistanceTo(m, a, b), DistSq(a, b), threshold);
  }

  /** `isClosedLoop`: at least three points, and the last lies near the first. */
  predicate IsClosedLoop(points: seq<Vec3>, threshold: real): (closed: bool)
    ensures closed ==> |points| >= 3
    ensures closed ==> 0.0 < threshold
  {
    |points| >= 3 && WithinDistance(points[0], points[|points| - 1], threshold)
  }

  lemma WithinSelf(a: Vec3, threshold: real)
    requires 0.0 < threshold
    ensures WithinDistance(a, a, threshold)
  {
    DistSqSelf(a);
    ZeroBelowSquare(DistSq(a, a), threshold);
  }

  lemma DistSqSelf(a: Vec3)
    ensures DistSq(a, a) == 0.0
  {
    assert Sub(a, a) == Origin;
  }

  /** A draft of at least three points that returns exactly to its start is closed under any positive threshold. */
  lemma CoincidentEndsClose(points: seq<Vec3>, threshold: real)
    requires |points| >= 3 && points[0] == points[|points| - 1]
    ensures IsClosedLoop(points, threshold) <==> 0.0 < threshold
  {
    var a := points[0];
    assert points[|points| - 1] == a;
    if 0.0 < threshold {
      WithinSelf(a, threshold);
    }
  }

  /** The squared-distance model decides closure exactly as the source's `distanceTo` test. */
  lemma IsClosedLoopMatchesDistance(m: MathOps, points: seq<Vec3>, threshold: real)
    requires m.Valid()
    ensures IsClosedLoop(points, threshold) <==>
      |points| >= 3 && DistanceTo(m, points[0], points[|points| - 1]) < threshold
  {
    if |points| >= 3 {
      WithinDistanceIsDistance(m, points[0], points[|points| - 1], threshold);
    }
  }

  /** Fewer than three points never form a loop, whatever the threshold. */
  lemma ShortListNeverClosed(points: seq<Vec3>, threshold: real)
    requires |points| < 3
    ensures !IsClosedLoop(points, threshold)
  {
  }

  /** Only the first and last points matter; the middle ones are irrelevant. */
  lemma ClosureIgnoresMiddle(a: seq<Vec3>, b: seq<Vec3>, threshold: real)
    requires |a| >= 3 && |b| >= 3
    requires a[0] == b[0] && a[|a| - 1] == b[|b| - 1]
    ensures IsClosedLoop(a, threshold) <==> IsClosedLoop(b, threshold)
  {
  }

  /** A loop closed at one threshold stays closed at any larger one. */
  lemma ClosureMonotoneInThreshold(points: seq<Vec3>, t: real, t': real)
    requires t <= t'
    ensures IsClosedLoop(points, t) ==> IsClosedLoop(points, t')
  {
    if IsClosedLoop(points, t) && t < t' {
      SquareLess(t, t');
    }
  }

  /** `Vector3.normalize()`: divides by the length, or by 1 for the zero vector. */
  function Normalize(m: MathOps, v: Vec3): (u: Vec3)
    ensures forall w :: Dot(v, w) == 0.0 ==> Dot(u, w) == 0.0
    ensures m.Valid() && v == Origin ==> u == Origin
    ensures m.Valid() && v != Origin ==> NormSq(u) == 1.0
    ensures m.Valid() ==> exists k :: 0.0 < k && u == Scale(v, k)
  {
    var l := Length(m, v);
    var divisor := if l == 0.0 then 1.0 else l;
    NormalizeFacts(m, v, divisor);
    Scale(v, 1.0 / divisor)
  }

  lemma NormalizeFacts(m: MathOps, v: Vec3, divisor: real)
    requires divisor == if Length(m, v) == 0.0 then 1.0 else Length(m, v)
    ensures divisor != 0.0
    ensures forall w :: Dot(v, w) == 0.0 ==> Dot(Scale(v, 1.0 / divisor), w) == 0.0
    ensures m.Valid() && v == Origin ==> Scale(v, 1.0 / divisor) == Origin
    ensures m.Valid() && v != Origin ==> NormSq(Scale(v, 1.0 / divisor)) == 1.0
    ensures m.Valid() ==> 0.0 < 1.0 / divisor
  {
    forall w | Dot(v, w) == 0.0
      ensures Dot(Scale(v, 1.0 / divisor), w) == 0.0
    {
      DotScale(v, 1.0 / divisor, w);
    }
    if m.Valid() {
      LengthZero(m, v);
      assert 0.0 < divisor;
      if v != Origin {
        NormSqScale(v, 1.0 / divisor);
        UnitAfterDivision(divisor, NormSq(v));
      }
    }
  }

  /** Dividing by a positive length leaves a unit squared norm. */
  lemma UnitAfterDivision(l: real, d: real)
    requires 0.0 < l && l * l == d
    ensures ((1.0 / l) * (1.0 / l)) * d == 1.0
  {
  }

  /**
   * `calculateFaceNormal`: the up vector for fewer than three points,
   * otherwise the normalised cross product of the first two edges.
   */
  function FaceNormal(m: MathOps, points: seq<Vec3>): (n: Vec3)
    ensures |points| < 3 ==> n == Vec3(0.0, 1.0, 0.0)
    ensures |points| >= 3 ==>
      && Dot(n, Sub(points[1], points[0])) == 0.0
      && Dot(n, Sub(points[2], points[0])) == 0.0
    ensures |points| >= 3 && m.Valid() ==>
      (NormSq(n) == 1.0 <==> Cross(Sub(points[1], points[0]), Sub(points[2], points[0])) != Origin)
    ensures |points| >= 3 && m.Valid() ==>
      exists k :: 0.0 < k && n == Scale(Cross(Sub(points[1], points[0]), Sub(points[2], points[0])), k)
  {
    if |points| < 3 then
      Vec3(0.0, 1.0, 0.0)
    else
      var e1 := Sub(points[1], points[0]);
      var e2 := Sub(points[2], points[0]);
      CrossOrthogonal(e1, e2);
      Normalize(m, Cross(e1, e2))
  }

  /** The running total `centroid.add(p)` over the list, in order. */
  function Sum(points: seq<Vec3>): Vec3 {
    if |points| == 0 then Origin else Add(Sum(points[..|points| - 1]), points[|points| - 1])
  }

  /**
   * `getCentroid`: the componentwise mean. The empty list divides by zero in
   * the source (a NaN vector), modelled as `None`.
   */
  function Centroid(points: seq<Vec3>): (c: Option<Vec3>)
    ensures c.None? <==> |points| == 0
    ensures c.Some? ==> Scale(c.value, |points| as real) == Sum(points)
  {
    if |points| == 0 then None
    else
      var n := |points| as real;
      var s := Sum(points);
      assert Scale(Scale(s, 1.0 / n), n) == s by {
        ScaleInverse(s.x, n);
        ScaleInverse(s.y, n);
        ScaleInverse(s.z, n);
      }
      Some(Scale(s, 1.0 / n))
  }

  lemma ScaleInverse(a: real, n: real)
    requires n != 0.0
    ensures n * ((1.0 / n) * a) == a
  {
  }

  lemma ScaleSucc(p: Vec3, k: real)
    ensures Add(Scale(p, k), p) == Scale(p, k + 1.0)
  {
  }

  lemma {:induction false} SumOfCopies(p: Vec3, n: nat)
    ensures Sum(seq(n, _ => p)) == Scale(p, n as real)
  {
    if n > 0 {
      var s := seq(n, _ => p);
      var init := seq(n - 1, _ => p);
      assert s[..n - 1] == init;
      assert s[n - 1] == p;
      SumOfCopies(p, n - 1);
      var k := (n - 1) as real;
      ScaleSucc(p, k);
      assert Sum(s) == Add(Sum(init), p);
    }
  }

  /** The centroid of n copies of one point is that point. */
  lemma CentroidOfCopies(p: Vec3, n: nat)
    requires 0 < n
    ensures Centroid(seq(n, _ => p)) == Some(p)
  {
    var c := Centroid(seq(n, _ => p));
    SumOfCopies(p, n);
    var k := n as real;
    assert Scale(c.value, k) == Scale(p, k);
    CancelFactor(c.value.x, p.x, k);
    CancelFactor(c.value.y, p.y, k);
    CancelFactor(c.value.z, p.z, k);
  }

  lemma CancelFactor(a: real, b: real, k: real)
    requires k != 0.0 && k * a == k * b
    ensures a == b
  {
    assert a == (1.0 / k) * (k * a);
  }

  lemma {:induction false} SumTranslate(points: seq<Vec3>, t: Vec3)
    ensures Sum(seq(|points|, i requires 0 <= i < |points| => Add(points[i], t)))
         == Add(Sum(points), Scale(t, |points| as real))
  {
    var moved := seq(|points|, i requires 0 <= i < |points| => Add(points[i], t));
    if |points| > 0 {
      var init := points[..|points| - 1];
      assert moved[..|points| - 1] == seq(|init|, i requires 0 <= i < |init| => Add(init[i], t));
      SumTranslate(init, t);
      TranslateStep(Sum(init), points[|points| - 1], t, |init| as real);
    }
  }

  lemma TranslateStep(s: Vec3, p: Vec3, t: Vec3, k: real)
    ensures Add(Add(s, Scale(t, k)), Add(p, t)) == Add(Add(s, p), Scale(t, k + 1.0))
  {
  }

  /** Translating every point translates the centroid by the same vector. */
  lemma CentroidTranslate(points: seq<Vec3>, t: Vec3)
    requires 0 < |points|
    ensures Centroid(seq(|points|, i requires 0 <= i < |points| => Add(points[i], t)))
         == Some(Add(Centroid(points).value, t))
  {
    var moved := seq(|points|, i requires 0 <= i < |points| => Add(points[i], t));
    var k := |points| as real;
    var c := Centroid(points).value;
    var c' := Centroid(moved).value;
    SumTranslate(points, t);
    TranslateCancel(c', c, t, k);
  }

  /** `c' * k == c * k + t * k` with `k` non-zero forces `c' == c + t`. */
  lemma TranslateCancel(c': Vec3, c: Vec3, t: Vec3, k: real)
    requires k != 0.0
    requires Scale(c', k) == Add(Scale(c, k), Scale(t, k))
    ensures c' == Add(c, t)
  {
    CancelSum(c'.x, c.x, t.x, k);
    CancelSum(c'.y, c.y, t.y, k);
    CancelSum(c'.z, c.z, t.z, k);
  }

  lemma CancelSum(a: real, b: real, d: real, k: real)
    requires k != 0.0 && k * a == k * b + k * d
    ensures a == b + d
  {
    assert k * a == k * (b + d);
    CancelFactor(a, b + d, k);
  }
}
