/**
 * Real-valued vector arithmetic shared by the geometry modules, the two
 * constants the source hard-codes, JavaScript's `Math.round`, and the
 * transcendental functions, which are kept uninterpreted.
 */
module Numerics {

  /** `Math.PI`. */
  const PI: real := 3.141592653589793
  /** The golden ratio as written in utils/math/polar.ts. */
  const PHI: real := 1.61803398875

  /** A three.js `Vector3` used as a value. */
  datatype Vec3 = Vec3(x: real, y: real, z: real)

  const Origin: Vec3 := Vec3(0.0, 0.0, 0.0)

  function Add(a: Vec3, b: Vec3): Vec3 {
    Vec3(a.x + b.x, a.y + b.y, a.z + b.z)
  }

  function Sub(a: Vec3, b: Vec3): Vec3 {
    Vec3(a.x - b.x, a.y - b.y, a.z - b.z)
  }

  function Scale(a: Vec3, k: real): Vec3 {
    Vec3(k * a.x, k * a.y, k * a.z)
  }

  function Dot(a: Vec3, b: Vec3): real {
    a.x * b.x + a.y * b.y + a.z * b.z
  }

  /** `Vector3.crossVectors(a, b)`. */
  function Cross(a: Vec3, b: Vec3): Vec3 {
    Vec3(a.y * b.z - a.z * b.y, a.z * b.x - a.x * b.z, a.x * b.y - a.y * b.x)
  }

  function NormSq(a: Vec3): real {
    Dot(a, a)
  }

  function DistSq(a: Vec3, b: Vec3): real {
    NormSq(Sub(a, b))
  }

  function Abs(x: real): real {
    if x < 0.0 then -x else x
  }

  function Min(a: real, b: real): real {
    if a <= b then a else b
  }

  function Max(a: real, b: real): real {
    if a >= b then a else b
  }

  /** `Math.round`: the nearest integer, halves rounded towards +infinity. */
  function Round(x: real): (n: int)
    ensures x - 0.5 < n as real <= x + 0.5
  {
    (x + 0.5).Floor
  }

  lemma RoundOfInteger(k: int)
    ensures Round(k as real) == k
  {
  }

  lemma MulPositive(a: real, b: real)
    requires 0.0 < a && 0.0 < b
    ensures 0.0 < a * b
  {
  }

  lemma ZeroBelowSquare(d: real, t: real)
    requires d == 0.0 && 0.0 < t
    ensures d < t * t
  {
    MulPositive(t, t);
    calc {
      d;
    ==
      0.0;
    <
      t * t;
    }
  }

  lemma MulNonNegative(a: real, b: real)
    requires 0.0 <= a && 0.0 <= b
    ensures 0.0 <= a * b
  {
  }

  /** Only zero squares to zero. */
  lemma SquareZero(a: real)
    requires a * a == 0.0
    ensures a == 0.0
  {
    if a != 0.0 {
      if 0.0 < a {
        MulPositive(a, a);
      } else {
        MulPositive(-a, -a);
      }
      calc {
        0.0;
      < a * a;
      == 0.0;
      }
    }
  }

  /** A squared norm is zero only at the origin. */
  lemma NormSqZero(a: Vec3)
    ensures 0.0 <= NormSq(a)
    ensures NormSq(a) == 0.0 <==> a == Origin
  {
    var xx, yy, zz := a.x * a.x, a.y * a.y, a.z * a.z;
    assert 0.0 <= xx && 0.0 <= yy && 0.0 <= zz;
    if NormSq(a) == 0.0 {
      assert xx == 0.0 && yy == 0.0 && zz == 0.0;
      SquareZero(a.x);
      SquareZero(a.y);
      SquareZero(a.z);
    }
  }

  lemma DotScale(a: Vec3, k: real, b: Vec3)
    ensures Dot(Scale(a, k), b) == k * Dot(a, b)
  {
  }

  /** The cross product is orthogonal to both of its factors. */
  lemma CrossOrthogonal(a: Vec3, b: Vec3)
    ensures Dot(Cross(a, b), a) == 0.0
    ensures Dot(Cross(a, b), b) == 0.0
  {
  }

  /**
   * The transcendental functions of JavaScript's `Math`, left uninterpreted.
   * A model that needs one of their identities states it through `Valid`.
   */
  datatype MathOps = MathOps(
    sin: real -> real,
    cos: real -> real,
    atan2: (real, real) -> real,
    acos: real -> real,
    sqrt: real -> real)
  {
    /** `sqrt` is the non-negative square root and `sin^2 + cos^2 = 1`. */
    ghost predicate Valid() {
      && (forall d :: 0.0 <= d ==> 0.0 <= sqrt(d) && sqrt(d) * sqrt(d) == d)
      && (forall t :: sin(t) * sin(t) + cos(t) * cos(t) == 1.0)
    }

    /** `atan2` depends only on the direction of its argument. */
    ghost predicate Atan2ScaleFree() {
      forall k, y, x :: 0.0 < k ==> atan2(Times(k, y), Times(k, x)) == atan2(y, x)
    }
  }

  /** Multiplication named as a function so that it may appear in a trigger. */
  function Times(k: real, a: real): real {
    k * a
  }

  /** `Vector3.length()`. */
  function Length(m: MathOps, v: Vec3): real {
    m.sqrt(NormSq(v))
  }

  /** `Vector3.distanceTo()`. */
  function DistanceTo(m: MathOps, a: Vec3, b: Vec3): real {
    m.sqrt(DistSq(a, b))
  }

  /** Squaring is strictly increasing on the non-negative reals. */
  lemma SquareLess(a: real, b: real)
    requires 0.0 <= a < b
    ensures a * a < b * b
  {
    MulNonNegative(a, b - a);
    MulPositive(b - a, b);
    calc {
      a * a;
    <= a * a + a * (b - a);
    <  a * a + a * (b - a) + (b - a) * b;
    == b * b;
    }
  }

  /** Two non-negative square roots of the same value agree. */
  lemma RootUnique(a: real, b: real)
    requires 0.0 <= a && 0.0 <= b && a * a == b * b
    ensures a == b
  {
    if a < b {
      SquareLess(a, b);
    } else if b < a {
      SquareLess(b, a);
    }
  }

  /** A distance is never negative. */
  lemma DistanceNonNegative(m: MathOps, a: Vec3, b: Vec3)
    requires m.Valid()
    ensures 0.0 <= DistanceTo(m, a, b)
  {
    NormSqZero(Sub(a, b));
  }

  /** The two facts `Valid` promises about one square root. */
  lemma Sqrt(m: MathOps, d: real)
    requires m.Valid() && 0.0 <= d
    ensures 0.0 <= m.sqrt(d) && m.sqrt(d) * m.sqrt(d) == d
  {
  }

  /** A non-negative square root is zero exactly when its square is. */
  lemma RootZero(l: real, d: real)
    requires 0.0 <= l && l * l == d
    ensures l == 0.0 <==> d == 0.0
  {
    if d == 0.0 {
      SquareZero(l);
    }
  }

  /** The length of a vector is zero exactly at the origin, and is positive elsewhere. */
  lemma LengthZero(m: MathOps, v: Vec3)
    requires m.Valid()
    ensures 0.0 <= Length(m, v)
    ensures Length(m, v) == 0.0 <==> v == Origin
    ensures Length(m, v) * Length(m, v) == NormSq(v)
  {
    NormSqZero(v);
    Sqrt(m, NormSq(v));
    RootZero(Length(m, v), NormSq(v));
  }

  /** `LengthZero` for a caller that does not know whether `m` is valid. */
  lemma LengthFacts(m: MathOps, v: Vec3)
    ensures m.Valid() ==> 0.0 <= Length(m, v)
    ensures m.Valid() ==> (Length(m, v) == 0.0 <==> v == Origin)
    ensures m.Valid() ==> Length(m, v) * Length(m, v) == NormSq(v)
  {
    if m.Valid() {
      LengthZero(m, v);
    }
  }

  /** Lengths scale with a positive factor. */
  lemma LengthScale(m: MathOps, v: Vec3, k: real)
    requires m.Valid() && 0.0 < k
    ensures Length(m, Scale(v, k)) == k * Length(m, v)
  {
    NormSqZero(v);
    NormSqScale(v, k);
    NormSqZero(Scale(v, k));
    Sqrt(m, NormSq(v));
    Sqrt(m, NormSq(Scale(v, k)));
    RootScale(Length(m, v), Length(m, Scale(v, k)), NormSq(v), k);
  }

  lemma NormSqScale(v: Vec3, k: real)
    ensures NormSq(Scale(v, k)) == (k * k) * NormSq(v)
  {
  }

  /** The root of `k*k*n` is `k` times the root of `n`. */
  lemma RootScale(l: real, l': real, n: real, k: real)
    requires 0.0 < k && 0.0 <= l && 0.0 <= l'
    requires l * l == n && l' * l' == (k * k) * n
    ensures l' == k * l
  {
    assert (k * l) * (k * l) == (k * k) * (l * l);
    MulNonNegative(k, l);
    RootUnique(l', k * l);
  }
}
