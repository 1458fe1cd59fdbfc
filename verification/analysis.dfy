/**
 * The recoverability heuristic of utils/math/analysis.ts: the more vertices,
 * the lower the assumed ease of disassembly.
 */
module Analysis {
  import opened Numerics

  const MIN_SCORE: real := 0.1
  const MAX_SCORE: real := 1.0
  /** Each vertex adds this much complexity; the raw score is its reciprocal total. */
  const COMPLEXITY_PER_POINT: real := 0.1

  /**
   * `analyzeDisassembly`: `1 / (count * 0.1)` clamped to `[0.1, 1.0]`. For the
   * empty list the source divides by zero, giving +Infinity, which the clamp
   * brings down to 1.0.
   */
  function AnalyzeDisassembly(points: seq<Vec3>): (score: real)
    ensures MIN_SCORE <= score <= MAX_SCORE
    ensures |points| <= 10 ==> score == MAX_SCORE
    ensures |points| >= 100 ==> score == MIN_SCORE
  {
    var complexity := |points|;
    if complexity == 0 then MAX_SCORE
    else
      var raw := 1.0 / (complexity as real * COMPLEXITY_PER_POINT);
      RawScoreBounds(complexity);
      Max(MIN_SCORE, Min(MAX_SCORE, raw))
  }

  lemma RawScoreBounds(n: nat)
    requires 0 < n
    ensures n <= 10 ==> 1.0 / (n as real * COMPLEXITY_PER_POINT) >= MAX_SCORE
    ensures n >= 100 ==> 1.0 / (n as real * COMPLEXITY_PER_POINT) <= MIN_SCORE
    ensures 1.0 / (n as real * COMPLEXITY_PER_POINT) == 10.0 / n as real
  {
    var d := n as real * COMPLEXITY_PER_POINT;
    assert d == n as real / 10.0;
    if n <= 10 {
      ReciprocalAntitone(d, 1.0);
    }
    if n >= 100 {
      ReciprocalAntitone(10.0, d);
    }
  }

  lemma ReciprocalAntitone(x: real, y: real)
    requires 0.0 < x <= y
    ensures 1.0 / y <= 1.0 / x
  {
    assert 1.0 / x - 1.0 / y == (y - x) / (x * y);
    MulPositive(x, y);
  }

  /** The score depends on the point count only, never on coordinates. */
  lemma ScoreDependsOnlyOnCount(a: seq<Vec3>, b: seq<Vec3>)
    requires |a| == |b|
    ensures AnalyzeDisassembly(a) == AnalyzeDisassembly(b)
  {
  }

  /** Between the two clamps the score is exactly `10 / count`. */
  lemma ScoreBetweenClamps(points: seq<Vec3>)
    requires 10 <= |points| <= 100
    ensures AnalyzeDisassembly(points) == 10.0 / |points| as real
  {
    var n := |points|;
    RawScoreBounds(n);
    ReciprocalAntitone(n as real * COMPLEXITY_PER_POINT, 10.0);
    ReciprocalAntitone(1.0, n as real * COMPLEXITY_PER_POINT);
  }

  /** More points never raise the score. */
  lemma ScoreNonIncreasing(a: seq<Vec3>, b: seq<Vec3>)
    requires |a| <= |b|
    ensures AnalyzeDisassembly(b) <= AnalyzeDisassembly(a)
  {
    if 0 < |a| {
      ReciprocalAntitone(|a| as real * COMPLEXITY_PER_POINT, |b| as real * COMPLEXITY_PER_POINT);
    }
  }
}

/**
 * The second copy of the analysis helpers (src/utils/math/analysis.ts): the
 * same recoverability heuristic plus a placeholder volume estimate.
 */
module SourceAnalysis {
  import opened Numerics
  import Analysis

  /** Area assumed for any face of three or more points. */
  const NOMINAL_AREA: real := 0.5
  const VOLUME_FACTOR: real := 0.1

  /** `calculateVolume`: a nominal area times the radius times 0.1. */
  function CalculateVolume(points: seq<Vec3>, radius: real): (volume: real)
    ensures |points| < 3 ==> volume == 0.0
    ensures |points| >= 3 ==> volume == 0.05 * radius
    ensures 0.0 <= radius ==> 0.0 <= volume
  {
    var area := if |points| > 2 then NOMINAL_AREA else 0.0;
    area * radius * VOLUME_FACTOR
  }

  /** The estimate is linear in the radius. */
  lemma VolumeLinearInRadius(points: seq<Vec3>, k: real, radius: real)
    ensures CalculateVolume(points, k * radius) == k * CalculateVolume(points, radius)
  {
  }

  /** Only the number of points matters, not where they are. */
  lemma VolumeIgnoresCoordinates(a: seq<Vec3>, b: seq<Vec3>, radius: real)
    requires |a| == |b|
    ensures CalculateVolume(a, radius) == CalculateVolume(b, radius)
  {
  }

  /** `analyzeDisassembly` as written in this copy: `1 / (count * 0.1)`, clamped. */
  function AnalyzeDisassembly(points: seq<Vec3>): (score: real)
    ensures score == Analysis.AnalyzeDisassembly(points)
  {
    var complexity := |points|;
    if complexity == 0 then 1.0
    else Max(0.1, Min(1.0, 1.0 / (complexity as real * 0.1)))
  }
}
