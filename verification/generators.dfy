/**
 * Procedural point generators in polar space (utils/math/generators.ts).
 * Every point carries the unit radius multiplier.
 */
module Generators {
  import opened Wrappers
  import opened Numerics
  import opened Types

  const DEFAULT_TURNS: real := 2.0
  const DEFAULT_TOTAL_HEIGHT: real := PI / 2.0
  const DEFAULT_START_PHI: real := PI / 4.0
  const DEFAULT_START_THETA: real := 0.0
  const DEFAULT_POINTS_PER_TURN: real := 24.0

  const DEFAULT_CENTER_THETA: real := 0.0
  const DEFAULT_CENTER_PHI: real := PI / 2.0
  const DEFAULT_SIZE: real := 0.5
  const DEFAULT_RESOLUTION: real := 4.0

  /** `Math.floor(turns * pointsPerTurn)`: the number of segments of the helix. */
  function SpiralSegments(turns: real, pointsPerTurn: real): int {
    (turns * pointsPerTurn).Floor
  }

  /**
   * `i / totalPoints`. With zero segments the source computes `0 / 0`;
   * the model takes that single point's progress as 0.
   */
  function Progress(i: int, segments: int): real {
    if segments == 0 then 0.0 else i as real / segments as real
  }

  function SpiralPoint(turns: real, totalHeight: real, startPhi: real, startTheta: real,
                       segments: int, i: int): PolarPoint
  {
    var progress := Progress(i, segments);
    PolarPoint(startTheta + progress * turns * 2.0 * PI, startPhi + progress * totalHeight, Some(1.0))
  }

  /**
   * `generateSpiralHelix`: one point per index `0..segments`, theta sweeping
   * `turns` full revolutions and phi rising by `totalHeight`.
   */
  function GenerateSpiralHelix(turns: real, totalHeight: real, startPhi: real, startTheta: real,
                               pointsPerTurn: real): (points: seq<PolarPoint>)
    ensures SpiralSegments(turns, pointsPerTurn) < 0 ==> |points| == 0
    ensures SpiralSegments(turns, pointsPerTurn) >= 0 ==> |points| == SpiralSegments(turns, pointsPerTurn) + 1
    ensures forall i :: 0 <= i < |points| ==> points[i].radius == Some(1.0)
    ensures SpiralSegments(turns, pointsPerTurn) > 0 ==>
      && points[0].theta == startTheta
      && points[0].phi == startPhi
      && points[|points| - 1].theta == startTheta + turns * 2.0 * PI
      && points[|points| - 1].phi == startPhi + totalHeight
  {
    var segments := SpiralSegments(turns, pointsPerTurn);
    var count := if segments < 0 then 0 else segments + 1;
    ProgressEnds(segments);
    seq(count, i requires 0 <= i < count => SpiralPoint(turns, totalHeight, startPhi, startTheta, segments, i))
  }

  /** With a positive number of turns theta strictly increases along the helix. */
  lemma SpiralThetaIncreasing(turns: real, totalHeight: real, startPhi: real, startTheta: real,
                              pointsPerTurn: real, i: int, j: int)
    requires 0.0 < turns
    requires 0 <= i < j < |GenerateSpiralHelix(turns, totalHeight, startPhi, startTheta, pointsPerTurn)|
    ensures var points := GenerateSpiralHelix(turns, totalHeight, startPhi, startTheta, pointsPerTurn);
      points[i].theta < points[j].theta
  {
    var segments := SpiralSegments(turns, pointsPerTurn);
    assert 0 < segments;
    ProgressIncreasing(i, j, segments);
    ScaleStrict(Progress(i, segments), Progress(j, segments), turns * 2.0 * PI);
  }

  /**
   * Both angles advance linearly: with at least one segment, consecutive
   * points differ by one segment's share of the full sweep, `turns·2π` for
   * theta and `totalHeight` for phi.
   */
  lemma SpiralEqualSteps(turns: real, totalHeight: real, startPhi: real, startTheta: real,
                         pointsPerTurn: real, i: int)
    requires SpiralSegments(turns, pointsPerTurn) > 0
    requires 0 < i < |GenerateSpiralHelix(turns, totalHeight, startPhi, startTheta, pointsPerTurn)|
    ensures var points := GenerateSpiralHelix(turns, totalHeight, startPhi, startTheta, pointsPerTurn);
      var segments := SpiralSegments(turns, pointsPerTurn) as real;
      && points[i].theta - points[i - 1].theta == turns * 2.0 * PI / segments
      && points[i].phi - points[i - 1].phi == totalHeight / segments
  {
    var segments := SpiralSegments(turns, pointsPerTurn);
    var points := GenerateSpiralHelix(turns, totalHeight, startPhi, startTheta, pointsPerTurn);
    var p, q := Progress(i - 1, segments), Progress(i, segments);
    assert points[i - 1] == SpiralPoint(turns, totalHeight, startPhi, startTheta, segments, i - 1);
    assert points[i] == SpiralPoint(turns, totalHeight, startPhi, startTheta, segments, i);
    ProgressStep(i, segments);
    var sweep := turns * 2.0 * PI;
    assert q * turns * 2.0 * PI == q * sweep;
    assert p * turns * 2.0 * PI == p * sweep;
    StepShare(p, q, sweep, segments as real);
    StepShare(p, q, totalHeight, segments as real);
  }

  lemma ProgressStep(i: int, segments: int)
    requires 0 < segments
    ensures Progress(i, segments) - Progress(i - 1, segments) == 1.0 / segments as real
  {
  }

  lemma StepShare(p: real, q: real, k: real, d: real)
    requires 0.0 < d && q - p == 1.0 / d
    ensures q * k - p * k == k / d
  {
    calc {
      q * k - p * k;
    ==
      (q - p) * k;
    ==
      (1.0 / d) * k;
    ==
      k / d;
    }
  }

  /** The helix starts at progress 0 and, with segments, ends at progress 1. */
  lemma ProgressEnds(segments: int)
    ensures Progress(0, segments) == 0.0
    ensures segments != 0 ==> Progress(segments, segments) == 1.0
  {
  }

  lemma ProgressIncreasing(i: int, j: int, segments: int)
    requires 0 < segments && i < j
    ensures Progress(i, segments) < Progress(j, segments)
  {
    assert Progress(j, segments) - Progress(i, segments) == (j - i) as real / segments as real;
  }

  lemma ScaleStrict(a: real, b: real, k: real)
    requires a < b && 0.0 < k
    ensures a * k < b * k
  {
    MulPositive(b - a, k);
  }

  /** The default helix (two turns of 24 points) has 49 points. */
  lemma DefaultSpiralHas49Points()
    ensures |GenerateSpiralHelix(DEFAULT_TURNS, DEFAULT_TOTAL_HEIGHT, DEFAULT_START_PHI,
                                 DEFAULT_START_THETA, DEFAULT_POINTS_PER_TURN)| == 49
  {
    assert SpiralSegments(DEFAULT_TURNS, DEFAULT_POINTS_PER_TURN) == 48;
  }

  /** The number of iterations of `for (i = 0; i < resolution; i++)`. */
  function RowCount(resolution: real): (rows: nat)
    ensures resolution <= 0.0 ==> rows == 0
    ensures 0.0 < resolution ==> (rows as real) - 1.0 < resolution <= rows as real
  {
    if resolution <= 0.0 then 0 else -((-resolution).Floor)
  }

  /**
   * `size / (resolution - 1)`. A resolution of exactly 1 divides by zero in
   * the source; the model uses a zero step there.
   */
  function LatticeStep(size: real, resolution: real): real {
    if resolution == 1.0 then 0.0 else size / (resolution - 1.0)
  }

  function LatticePoint(centerTheta: real, centerPhi: real, size: real, step: real, i: int, j: int): PolarPoint {
    PolarPoint(centerTheta + i as real * step - size / 2.0, centerPhi + j as real * step - size / 2.0, Some(1.0))
  }

  /**
   * `generateLattice`: a `rows x rows` grid around the centre, row `i`
   * varying theta and column `j` varying phi, laid out row-major.
   */
  function GenerateLattice(centerTheta: real, centerPhi: real, size: real, resolution: real)
    : (points: seq<PolarPoint>)
    ensures |points| == RowCount(resolution) * RowCount(resolution)
    ensures forall k :: 0 <= k < |points| ==> points[k].radius == Some(1.0)
    ensures forall k :: 0 <= k < |points| ==>
      points[k] == LatticePoint(centerTheta, centerPhi, size, LatticeStep(size, resolution),
                                k / RowCount(resolution), k % RowCount(resolution))
  {
    var rows := RowCount(resolution);
    var step := LatticeStep(size, resolution);
    seq(rows * rows, k requires 0 <= k < rows * rows =>
      LatticePoint(centerTheta, centerPhi, size, step, k / rows, k % rows))
  }

  lemma MulNonNegativeInt(a: int, b: int)
    requires 0 <= a && 0 <= b
    ensures 0 <= a * b
  {
  }

  /** Euclidean quotient and remainder are determined by `x == q*d + r`, `0 <= r < d`. */
  lemma DivModUnique(x: int, d: int, q: int, r: int)
    requires 0 < d && 0 <= r < d && x == q * d + r
    ensures x / d == q && x % d == r
  {
    var q', r' := x / d, x % d;
    assert x == q' * d + r';
    if q > q' {
      MulNonNegativeInt(q - q' - 1, d);
      assert false;
    } else if q < q' {
      MulNonNegativeInt(q' - q - 1, d);
      assert false;
    }
  }

  lemma RowMajor(i: int, j: int, rows: int)
    requires 0 <= i < rows && 0 <= j < rows
    ensures 0 <= i * rows + j < rows * rows
    ensures (i * rows + j) / rows == i && (i * rows + j) % rows == j
  {
    MulNonNegativeInt(i, rows);
    MulNonNegativeInt(rows - 1 - i, rows);
    assert rows * rows == i * rows + (rows - 1 - i) * rows + rows;
    DivModUnique(i * rows + j, rows, i, j);
  }

  /** Grid cell `(i, j)` sits at index `i * rows + j`. */
  lemma LatticeAt(centerTheta: real, centerPhi: real, size: real, resolution: real, i: int, j: int)
    requires 0 <= i < RowCount(resolution) && 0 <= j < RowCount(resolution)
    ensures var points := GenerateLattice(centerTheta, centerPhi, size, resolution);
      var rows := RowCount(resolution);
      && i * rows + j < |points|
      && points[i * rows + j].theta == centerTheta + i as real * LatticeStep(size, resolution) - size / 2.0
      && points[i * rows + j].phi == centerPhi + j as real * LatticeStep(size, resolution) - size / 2.0
  {
    RowMajor(i, j, RowCount(resolution));
  }

  /** An integer resolution `n` produces exactly `n` rows. */
  lemma RowCountOfInteger(n: nat)
    ensures RowCount(n as real) == n
  {
  }

  /** The default lattice has 16 points and resolution 3 gives 9. */
  lemma LatticeCardinalityExamples(centerTheta: real, centerPhi: real, size: real)
    ensures |GenerateLattice(centerTheta, centerPhi, size, DEFAULT_RESOLUTION)| == 16
    ensures |GenerateLattice(centerTheta, centerPhi, size, 3.0)| == 9
  {
    RowCountOfInteger(4);
    RowCountOfInteger(3);
  }

  /**
   * For an integer resolution of at least 2 the grid spans exactly
   * `center +/- size/2` on both axes: the first point is the low corner and
   * the last the high corner.
   */
  lemma LatticeCorners(centerTheta: real, centerPhi: real, size: real, n: nat)
    requires 2 <= n
    ensures var points := GenerateLattice(centerTheta, centerPhi, size, n as real);
      && |points| == n * n
      && points[0].theta == centerTheta - size / 2.0
      && points[0].phi == centerPhi - size / 2.0
      && points[n * n - 1].theta == centerTheta + size / 2.0
      && points[n * n - 1].phi == centerPhi + size / 2.0
  {
    RowCountOfInteger(n);
    RowMajor(0, 0, n);
    RowMajor(n - 1, n - 1, n);
    assert (n - 1) * n + (n - 1) == n * n - 1;
    EndOfRow(size, n);
  }

  /** With a non-negative size no lattice point leaves `center +/- size/2`. */
  lemma LatticeWithinSpan(centerTheta: real, centerPhi: real, size: real, n: nat, k: int)
    requires 2 <= n && 0 <= k < n * n && 0.0 <= size
    ensures var points := GenerateLattice(centerTheta, centerPhi, size, n as real);
      && k < |points|
      && centerTheta - size / 2.0 <= points[k].theta <= centerTheta + size / 2.0
      && centerPhi - size / 2.0 <= points[k].phi <= centerPhi + size / 2.0
  {
    RowCountOfInteger(n);
    QuotientBelow(k, n);
    var points := GenerateLattice(centerTheta, centerPhi, size, n as real);
    var step := LatticeStep(size, n as real);
    assert points[k] == LatticePoint(centerTheta, centerPhi, size, step, k / n, k % n);
    WithinRow(size, n, k / n);
    WithinRow(size, n, k % n);
  }

  lemma QuotientBelow(k: int, n: int)
    requires 0 < n && 0 <= k < n * n
    ensures 0 <= k / n < n && 0 <= k % n < n
  {
    assert k == (k / n) * n + k % n;
    if k / n >= n {
      MulNonNegativeInt(k / n - n, n);
      assert false;
    }
  }

  /** The last row lies `size` beyond the first. */
  lemma EndOfRow(size: real, n: nat)
    requires 2 <= n
    ensures (n - 1) as real * LatticeStep(size, n as real) == size
  {
    assert LatticeStep(size, n as real) == size / (n as real - 1.0);
  }

  lemma WithinRow(size: real, n: nat, i: int)
    requires 2 <= n && 0 <= i < n && 0.0 <= size
    ensures 0.0 <= i as real * LatticeStep(size, n as real) <= size
  {
    var step := LatticeStep(size, n as real);
    EndOfRow(size, n);
    MulNonNegative(i as real, step);
    MulNonNegative((n - 1 - i) as real, step);
    assert (n - 1) as real * step == i as real * step + (n - 1 - i) as real * step;
  }
}
