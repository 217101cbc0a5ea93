/** The connection lines drawLines computes: for every pair i < j of points,
    visited row by row (i ascending, then j ascending), a line is drawn when the
    two points are closer than maxDistance, with an opacity that falls linearly
    from lineOpacity at distance 0 to 0 at maxDistance. connectionCount is the
    number of lines drawn in the frame. The canvas drawing itself (gradient,
    stroke) is not modelled; a Line records which pair was joined and how opaque
    the line is. */
module Connections {
  import opened Kinematics

  /** One line of drawLines: the indices of its two points and its opacity. */
  datatype Line = Line(i: nat, j: nat, opacity: real)

  /** Math.sqrt(dx * dx + dy * dy) with dx = point1.x - point2.x, dy = point1.y - point2.y. */
  function PairDistance(ps: seq<Point>, i: nat, j: nat, sqrt: real -> NonNeg): NonNeg
    requires i < |ps| && j < |ps|
  {
    sqrt(Norm2(Vec(ps[i].x - ps[j].x, ps[i].y - ps[j].y)))
  }

  predicate Connected(ps: seq<Point>, i: nat, j: nat, maxDistance: int, sqrt: real -> NonNeg)
    requires i < |ps| && j < |ps|
  {
    PairDistance(ps, i, j, sqrt) < maxDistance as real
  }

  /** With the square root exact at the pair's squared distance, the test
      distance < maxDistance is the same as dx * dx + dy * dy < maxDistance^2. */
  lemma ConnectedBySquares(ps: seq<Point>, i: nat, j: nat, maxDistance: int, sqrt: real -> NonNeg)
    requires i < |ps| && j < |ps| && 0 <= maxDistance
    requires IsRootAt(sqrt, Norm2(Vec(ps[i].x - ps[j].x, ps[i].y - ps[j].y)))
    ensures Connected(ps, i, j, maxDistance, sqrt)
      <==> Norm2(Vec(ps[i].x - ps[j].x, ps[i].y - ps[j].y)) < (maxDistance * maxDistance) as real
  {
    var d := PairDistance(ps, i, j, sqrt);
    assert d * d == Norm2(Vec(ps[i].x - ps[j].x, ps[i].y - ps[j].y));
    SquaresOrdered(d, maxDistance as real);
  }

  /** For non-negative a and b, a < b exactly when a * a < b * b. */
  lemma SquaresOrdered(a: real, b: real)
    requires 0.0 <= a && 0.0 <= b
    ensures a < b <==> a * a < b * b
  {
    assert b * b - a * a == (b - a) * (b + a);
    if a < b {
      PositiveProduct(b - a, b + a);
    } else {
      NonNegProduct(a - b, a + b);
    }
  }

  /** (maxDistance - distance) / maxDistance * lineOpacity. */
  function Opacity(d: real, maxDistance: int, lineOpacity: real): real
    requires 0 < maxDistance
  {
    Force(d, maxDistance as real) * lineOpacity
  }

  /** A line closer than maxDistance is visible and never more opaque than
      lineOpacity; it is exactly lineOpacity when the two points coincide. */
  lemma OpacityRange(d: real, maxDistance: int, lineOpacity: real)
    requires 0.0 <= d < maxDistance as real && 0.0 < lineOpacity
    ensures 0.0 < Opacity(d, maxDistance, lineOpacity) <= lineOpacity
    ensures d == 0.0 ==> Opacity(d, maxDistance, lineOpacity) == lineOpacity
  {
    var f := Force(d, maxDistance as real);
    assert Opacity(d, maxDistance, lineOpacity) == f * lineOpacity;
    ForceRange(d, maxDistance as real);
    UnitFactor(f, lineOpacity);
  }

  /** Scaling by a factor in (0, 1] keeps a positive value positive and no larger;
      by exactly 1 it keeps it. */
  lemma UnitFactor(f: real, v: real)
    requires 0.0 < f <= 1.0 && 0.0 < v
    ensures 0.0 < f * v <= v
    ensures f == 1.0 ==> f * v == v
  {
    PositiveProduct(f, v);
    NonNegProduct(1.0 - f, v);
    assert v - f * v == (1.0 - f) * v;
  }

  /** Closer pairs get more opaque lines. */
  lemma OpacityDecreasing(d1: real, d2: real, maxDistance: int, lineOpacity: real)
    requires d1 < d2 && 0 < maxDistance && 0.0 < lineOpacity
    ensures Opacity(d1, maxDistance, lineOpacity) > Opacity(d2, maxDistance, lineOpacity)
  {
    var f1, f2 := Force(d1, maxDistance as real), Force(d2, maxDistance as real);
    ForceDecreasing(d1, d2, maxDistance as real);
    PositiveProduct(f1 - f2, lineOpacity);
    assert f1 * lineOpacity - f2 * lineOpacity == (f1 - f2) * lineOpacity;
  }

  lemma PositiveProduct(a: real, b: real)
    requires 0.0 < a && 0.0 < b
    ensures 0.0 < a * b
  {
  }

  /** The line drawLines draws for the pair (i, j) when it is connected. */
  function LineFor(ps: seq<Point>, i: nat, j: nat, maxDistance: int, lineOpacity: real, sqrt: real -> NonNeg): Line
    requires i < |ps| && j < |ps| && Connected(ps, i, j, maxDistance, sqrt)
  {
    Line(i, j, Opacity(PairDistance(ps, i, j, sqrt), maxDistance, lineOpacity))
  }

  /** The lines of row i drawn by the inner loop before it reaches j: pairs (i, k)
      for i < k < j, in order. */
  function RowLines(ps: seq<Point>, i: nat, j: nat, maxDistance: int, lineOpacity: real, sqrt: real -> NonNeg): seq<Line>
    requires i < |ps| && j <= |ps|
    decreases j
  {
    if j <= i + 1 then []
    else
      RowLines(ps, i, j - 1, maxDistance, lineOpacity, sqrt)
      + (if Connected(ps, i, j - 1, maxDistance, sqrt)
         then [LineFor(ps, i, j - 1, maxDistance, lineOpacity, sqrt)] else [])
  }

  /** The distance the inner loop computes from dx and dy is the pair's distance. */
  lemma LoopDistance(ps: seq<Point>, i: nat, j: nat, dx: real, dy: real, sqrt: real -> NonNeg)
    requires i < |ps| && j < |ps| && dx == ps[i].x - ps[j].x && dy == ps[i].y - ps[j].y
    ensures sqrt(dx * dx + dy * dy) == PairDistance(ps, i, j, sqrt)
  {
    assert dx * dx + dy * dy == Norm2(Vec(ps[i].x - ps[j].x, ps[i].y - ps[j].y));
  }

  /** The lines drawn so far at (i, j) followed by the line of (i, j), when that
      pair is connected, are the lines drawn so far at (i, j + 1). */
  lemma DrawPair(ps: seq<Point>, i: nat, j: nat, lines: seq<Line>, distance: real,
                  maxDistance: int, lineOpacity: real, sqrt: real -> NonNeg)
    requires i < j < |ps| && distance == PairDistance(ps, i, j, sqrt)
    requires lines == LinesBefore(ps, i, maxDistance, lineOpacity, sqrt) + RowLines(ps, i, j, maxDistance, lineOpacity, sqrt)
    ensures distance < maxDistance as real ==>
      && 0 < maxDistance
      && lines + [Line(i, j, Opacity(distance, maxDistance, lineOpacity))]
         == LinesBefore(ps, i, maxDistance, lineOpacity, sqrt) + RowLines(ps, i, j + 1, maxDistance, lineOpacity, sqrt)
    ensures !(distance < maxDistance as real) ==>
      lines == LinesBefore(ps, i, maxDistance, lineOpacity, sqrt) + RowLines(ps, i, j + 1, maxDistance, lineOpacity, sqrt)
  {
    var before := LinesBefore(ps, i, maxDistance, lineOpacity, sqrt);
    var row := RowLines(ps, i, j, maxDistance, lineOpacity, sqrt);
    if Connected(ps, i, j, maxDistance, sqrt) {
      var l := LineFor(ps, i, j, maxDistance, lineOpacity, sqrt);
      assert RowLines(ps, i, j + 1, maxDistance, lineOpacity, sqrt) == row + [l];
      assert before + row + [l] == before + (row + [l]);
    } else {
      assert RowLines(ps, i, j + 1, maxDistance, lineOpacity, sqrt) == row + [];
      assert row + [] == row;
    }
  }

  /** The rows 0 .. i - 1 of the outer loop, each with all its lines. */
  function Rows(ps: seq<Point>, i: nat, maxDistance: int, lineOpacity: real, sqrt: real -> NonNeg): seq<seq<Line>>
    requires i <= |ps|
  {
    seq(i, r requires 0 <= r < i => RowLines(ps, r, |ps|, maxDistance, lineOpacity, sqrt))
  }

  /** The sequences of rows, one after the other. */
  function Concat(rows: seq<seq<Line>>): seq<Line>
    decreases |rows|
  {
    if rows == [] then [] else Concat(rows[..|rows| - 1]) + rows[|rows| - 1]
  }

  /** The lines of rows 0 .. i - 1, as the outer loop finds them. */
  function LinesBefore(ps: seq<Point>, i: nat, maxDistance: int, lineOpacity: real, sqrt: real -> NonNeg): seq<Line>
    requires i <= |ps|
  {
    Concat(Rows(ps, i, maxDistance, lineOpacity, sqrt))
  }

  /** No row has been visited before the outer loop starts. */
  lemma LinesBeforeStart(ps: seq<Point>, maxDistance: int, lineOpacity: real, sqrt: real -> NonNeg)
    ensures LinesBefore(ps, 0, maxDistance, lineOpacity, sqrt) == []
  {
    assert Rows(ps, 0, maxDistance, lineOpacity, sqrt) == [];
  }

  /** One more turn of the outer loop appends the lines of row i. */
  lemma LinesBeforeStep(ps: seq<Point>, i: nat, maxDistance: int, lineOpacity: real, sqrt: real -> NonNeg)
    requires i < |ps|
    ensures LinesBefore(ps, i + 1, maxDistance, lineOpacity, sqrt)
         == LinesBefore(ps, i, maxDistance, lineOpacity, sqrt) + RowLines(ps, i, |ps|, maxDistance, lineOpacity, sqrt)
  {
    var rows := Rows(ps, i + 1, maxDistance, lineOpacity, sqrt);
    assert rows[..i] == Rows(ps, i, maxDistance, lineOpacity, sqrt);
    assert rows[i] == RowLines(ps, i, |ps|, maxDistance, lineOpacity, sqrt);
  }

  /** Every line of one call of drawLines. */
  function DrawnLines(ps: seq<Point>, maxDistance: int, lineOpacity: real, sqrt: real -> NonNeg): seq<Line> {
    LinesBefore(ps, |ps|, maxDistance, lineOpacity, sqrt)
  }

  /** Line a comes before line b in the loops' visiting order. */
  predicate Before(a: Line, b: Line) {
    a.i < b.i || (a.i == b.i && a.j < b.j)
  }

  predicate InVisitOrder(lines: seq<Line>) {
    forall k1, k2 | 0 <= k1 < k2 < |lines| :: Before(lines[k1], lines[k2])
  }

  /** The line is the one drawn for its own pair, which is a connected pair i < j. */
  predicate Drawn(ps: seq<Point>, l: Line, maxDistance: int, lineOpacity: real, sqrt: real -> NonNeg) {
    && l.i < l.j < |ps|
    && Connected(ps, l.i, l.j, maxDistance, sqrt)
    && l == LineFor(ps, l.i, l.j, maxDistance, lineOpacity, sqrt)
  }

  /** The pairs i < j closer than maxDistance. */
  ghost function ClosePairs(ps: seq<Point>, maxDistance: int, sqrt: real -> NonNeg): set<(nat, nat)> {
    set i: nat, j: nat | i < j < |ps| && Connected(ps, i, j, maxDistance, sqrt) :: (i, j)
  }

  ghost function PairsOf(lines: seq<Line>): set<(nat, nat)> {
    set k | 0 <= k < |lines| :: (lines[k].i, lines[k].j)
  }

  /** Every line is drawn for its own connected pair. */
  predicate AllDrawn(ps: seq<Point>, lines: seq<Line>, maxDistance: int, lineOpacity: real, sqrt: real -> NonNeg) {
    forall k | 0 <= k < |lines| :: Drawn(ps, lines[k], maxDistance, lineOpacity, sqrt)
  }

  predicate InRow(lines: seq<Line>, i: nat) {
    forall k | 0 <= k < |lines| :: lines[k].i == i
  }

  predicate RowsBelow(lines: seq<Line>, i: nat) {
    forall k | 0 <= k < |lines| :: lines[k].i < i
  }

  lemma {:induction false} RowLinesShape(ps: seq<Point>, i: nat, j: nat, maxDistance: int, lineOpacity: real, sqrt: real -> NonNeg)
    requires i < |ps| && j <= |ps|
    ensures var r := RowLines(ps, i, j, maxDistance, lineOpacity, sqrt);
      && InVisitOrder(r) && InRow(r, i) && AllDrawn(ps, r, maxDistance, lineOpacity, sqrt)
      && (forall k | 0 <= k < |r| :: r[k].j < j)
      && |r| <= (if j <= i + 1 then 0 else j - i - 1)
    decreases j
  {
    if j > i + 1 {
      var a := RowLines(ps, i, j - 1, maxDistance, lineOpacity, sqrt);
      RowLinesShape(ps, i, j - 1, maxDistance, lineOpacity, sqrt);
      if Connected(ps, i, j - 1, maxDistance, sqrt) {
        RowPush(ps, a, i, j - 1, maxDistance, lineOpacity, sqrt);
      }
    }
  }

  /** The line for (i, m) goes after lines of row i that end before m. */
  lemma RowPush(ps: seq<Point>, a: seq<Line>, i: nat, m: nat, maxDistance: int, lineOpacity: real, sqrt: real -> NonNeg)
    requires i < m < |ps| && Connected(ps, i, m, maxDistance, sqrt)
    requires InVisitOrder(a) && InRow(a, i) && AllDrawn(ps, a, maxDistance, lineOpacity, sqrt)
    requires forall k | 0 <= k < |a| :: a[k].j < m
    ensures var r := a + [LineFor(ps, i, m, maxDistance, lineOpacity, sqrt)];
      && InVisitOrder(r) && InRow(r, i) && AllDrawn(ps, r, maxDistance, lineOpacity, sqrt)
      && (forall k | 0 <= k < |r| :: r[k].j < m + 1)
  {
    var l := LineFor(ps, i, m, maxDistance, lineOpacity, sqrt);
    var r := a + [l];
    forall k1, k2 | 0 <= k1 < k2 < |r| ensures Before(r[k1], r[k2]) {
      assert r[k1] == a[k1];
      if k2 < |a| {
        assert r[k2] == a[k2];
      }
    }
    forall k | 0 <= k < |r|
      ensures r[k].i == i && r[k].j < m + 1 && Drawn(ps, r[k], maxDistance, lineOpacity, sqrt)
    {
      if k < |a| {
        assert r[k] == a[k];
      }
    }
  }

  /** Row i holds a line for every connected pair (i, k) with i < k < j. */
  lemma {:induction false} RowLinesComplete(ps: seq<Point>, i: nat, j: nat, k: nat, maxDistance: int, lineOpacity: real, sqrt: real -> NonNeg)
    requires i < k < j <= |ps| && Connected(ps, i, k, maxDistance, sqrt)
    ensures LineFor(ps, i, k, maxDistance, lineOpacity, sqrt) in RowLines(ps, i, j, maxDistance, lineOpacity, sqrt)
    decreases j
  {
    if k < j - 1 {
      RowLinesComplete(ps, i, j - 1, k, maxDistance, lineOpacity, sqrt);
    }
  }

  /** Appending the lines of row i to lines of earlier rows keeps the visiting order. */
  lemma ConcatRow(ps: seq<Point>, a: seq<Line>, b: seq<Line>, i: nat, maxDistance: int, lineOpacity: real, sqrt: real -> NonNeg)
    requires InVisitOrder(a) && RowsBelow(a, i) && AllDrawn(ps, a, maxDistance, lineOpacity, sqrt)
    requires InVisitOrder(b) && InRow(b, i) && AllDrawn(ps, b, maxDistance, lineOpacity, sqrt)
    ensures InVisitOrder(a + b) && RowsBelow(a + b, i + 1) && AllDrawn(ps, a + b, maxDistance, lineOpacity, sqrt)
  {
    var r := a + b;
    forall k1, k2 | 0 <= k1 < k2 < |r| ensures Before(r[k1], r[k2]) {
      if k2 < |a| {
        assert r[k1] == a[k1] && r[k2] == a[k2];
      } else if k1 < |a| {
        assert r[k1] == a[k1] && r[k2] == b[k2 - |a|];
      } else {
        assert r[k1] == b[k1 - |a|] && r[k2] == b[k2 - |a|];
      }
    }
    forall k | 0 <= k < |r| ensures r[k].i < i + 1 && Drawn(ps, r[k], maxDistance, lineOpacity, sqrt) {
      if k < |a| {
        assert r[k] == a[k];
      } else {
        assert r[k] == b[k - |a|];
      }
    }
  }

  lemma {:induction false} LinesBeforeShape(ps: seq<Point>, i: nat, maxDistance: int, lineOpacity: real, sqrt: real -> NonNeg)
    requires i <= |ps|
    ensures var r := LinesBefore(ps, i, maxDistance, lineOpacity, sqrt);
      && InVisitOrder(r) && RowsBelow(r, i) && AllDrawn(ps, r, maxDistance, lineOpacity, sqrt)
      && 2 * |r| <= i * (2 * |ps| - i - 1)
  {
    if i == 0 {
      LinesBeforeStart(ps, maxDistance, lineOpacity, sqrt);
    } else {
      var n := |ps|;
      var a := LinesBefore(ps, i - 1, maxDistance, lineOpacity, sqrt);
      var b := RowLines(ps, i - 1, n, maxDistance, lineOpacity, sqrt);
      LinesBeforeStep(ps, i - 1, maxDistance, lineOpacity, sqrt);
      LinesBeforeShape(ps, i - 1, maxDistance, lineOpacity, sqrt);
      RowLinesShape(ps, i - 1, n, maxDistance, lineOpacity, sqrt);
      ConcatRow(ps, a, b, i - 1, maxDistance, lineOpacity, sqrt);
      RowCountStep(n, i, |a|, |b|);
    }
  }

  /** After row i - 1, at most (i - 1)(2n - i) / 2 + (n - i) = i (2n - i - 1) / 2 lines. */
  lemma RowCountStep(n: nat, i: nat, a: nat, b: nat)
    requires 0 < i <= n && 2 * a <= (i - 1) * (2 * n - (i - 1) - 1) && b <= n - i
    ensures 2 * (a + b) <= i * (2 * n - i - 1)
  {
    assert (i - 1) * (2 * n - (i - 1) - 1) + 2 * (n - i) == i * (2 * n - i - 1);
  }

  /** Every line of row r is in the concatenation of the rows. */
  lemma {:induction false} InRows(rows: seq<seq<Line>>, r: nat, x: Line)
    requires r < |rows| && x in rows[r]
    ensures x in Concat(rows)
    decreases |rows|
  {
    var front := rows[..|rows| - 1];
    if r < |rows| - 1 {
      assert front[r] == rows[r];
      InRows(front, r, x);
    }
    InConcat(x, Concat(front), rows[|rows| - 1]);
  }

  lemma LinesBeforeComplete(ps: seq<Point>, i: nat, r: nat, k: nat, maxDistance: int, lineOpacity: real, sqrt: real -> NonNeg)
    requires r < i <= |ps| && r < k < |ps| && Connected(ps, r, k, maxDistance, sqrt)
    ensures LineFor(ps, r, k, maxDistance, lineOpacity, sqrt) in LinesBefore(ps, i, maxDistance, lineOpacity, sqrt)
  {
    RowLinesComplete(ps, r, |ps|, k, maxDistance, lineOpacity, sqrt);
    InRows(Rows(ps, i, maxDistance, lineOpacity, sqrt), r, LineFor(ps, r, k, maxDistance, lineOpacity, sqrt));
  }

  lemma InConcat<T>(x: T, a: seq<T>, b: seq<T>)
    requires x in a || x in b
    ensures x in a + b
  {
    if x in a {
      var k :| 0 <= k < |a| && a[k] == x;
      assert (a + b)[k] == x;
    } else {
      var k :| 0 <= k < |b| && b[k] == x;
      assert (a + b)[|a| + k] == x;
    }
  }

  lemma PrefixInOrder(lines: seq<Line>)
    requires InVisitOrder(lines) && lines != []
    ensures InVisitOrder(lines[..|lines| - 1])
  {
    var front := lines[..|lines| - 1];
    forall k1, k2 | 0 <= k1 < k2 < |front| ensures Before(front[k1], front[k2]) {
      assert front[k1] == lines[k1] && front[k2] == lines[k2];
    }
  }

  lemma PairsOfSnoc(front: seq<Line>, last: Line)
    ensures PairsOf(front + [last]) == PairsOf(front) + {(last.i, last.j)}
  {
    var lines := front + [last];
    forall q | q in PairsOf(lines) ensures q in PairsOf(front) + {(last.i, last.j)} {
      var k :| 0 <= k < |lines| && q == (lines[k].i, lines[k].j);
      if k < |front| {
        assert lines[k] == front[k];
      }
    }
    forall q | q in PairsOf(front) ensures q in PairsOf(lines) {
      var k :| 0 <= k < |front| && q == (front[k].i, front[k].j);
      assert lines[k] == front[k];
    }
    assert lines[|front|] == last;
  }

  lemma LastPairNew(lines: seq<Line>)
    requires InVisitOrder(lines) && lines != []
    ensures var last := lines[|lines| - 1];
      (last.i, last.j) !in PairsOf(lines[..|lines| - 1])
  {
    var front := lines[..|lines| - 1];
    var last := lines[|lines| - 1];
    forall k | 0 <= k < |front| ensures (front[k].i, front[k].j) != (last.i, last.j) {
      assert front[k] == lines[k];
      assert Before(lines[k], lines[|lines| - 1]);
    }
  }

  /** Lines listed in visiting order join pairwise different pairs, so there are
      as many lines as joined pairs. */
  lemma {:induction false} DistinctPairs(lines: seq<Line>)
    requires InVisitOrder(lines)
    ensures |PairsOf(lines)| == |lines|
  {
    if lines != [] {
      var front := lines[..|lines| - 1];
      var last := lines[|lines| - 1];
      PrefixInOrder(lines);
      DistinctPairs(front);
      assert lines == front + [last];
      PairsOfSnoc(front, last);
      LastPairNew(lines);
    }
  }

  /** What one call of drawLines draws: each connected pair i < j exactly once, in
      visiting order, with the opacity of its distance; so connectionCount is the
      number of pairs closer than maxDistance, at most n (n - 1) / 2, and 0 for
      fewer than two points. */
  lemma DrawnLinesSpec(ps: seq<Point>, maxDistance: int, lineOpacity: real, sqrt: real -> NonNeg)
    ensures var r := DrawnLines(ps, maxDistance, lineOpacity, sqrt);
      && InVisitOrder(r)
      && AllDrawn(ps, r, maxDistance, lineOpacity, sqrt)
      && (forall i: nat, j: nat | i < j < |ps| && Connected(ps, i, j, maxDistance, sqrt) ::
            LineFor(ps, i, j, maxDistance, lineOpacity, sqrt) in r)
      && PairsOf(r) == ClosePairs(ps, maxDistance, sqrt)
      && |r| == |ClosePairs(ps, maxDistance, sqrt)|
      && 2 * |r| <= |ps| * (|ps| - 1)
      && (|ps| < 2 ==> r == [])
  {
    var n := |ps|;
    var r := DrawnLines(ps, maxDistance, lineOpacity, sqrt);
    LinesBeforeShape(ps, n, maxDistance, lineOpacity, sqrt);
    assert n * (2 * n - n - 1) == n * (n - 1);
    forall i: nat, j: nat | i < j < n && Connected(ps, i, j, maxDistance, sqrt)
      ensures LineFor(ps, i, j, maxDistance, lineOpacity, sqrt) in r
    {
      LinesBeforeComplete(ps, n, i, j, maxDistance, lineOpacity, sqrt);
    }
    forall q | q in ClosePairs(ps, maxDistance, sqrt) ensures q in PairsOf(r) {
      var i: nat, j: nat :| i < j < n && Connected(ps, i, j, maxDistance, sqrt) && q == (i, j);
      var l := LineFor(ps, i, j, maxDistance, lineOpacity, sqrt);
      assert l in r;
      var k :| 0 <= k < |r| && r[k] == l;
      assert q == (r[k].i, r[k].j);
    }
    forall q | q in PairsOf(r) ensures q in ClosePairs(ps, maxDistance, sqrt) {
      var k :| 0 <= k < |r| && q == (r[k].i, r[k].j);
      assert Drawn(ps, r[k], maxDistance, lineOpacity, sqrt);
    }
    DistinctPairs(r);
  }

  /** connectionCount after drawLines: the number of pairs closer than
      maxDistance, at most n (n - 1) / 2, and 0 for fewer than two points. */
  lemma DrawnCount(ps: seq<Point>, maxDistance: int, lineOpacity: real, sqrt: real -> NonNeg)
    ensures var c := |DrawnLines(ps, maxDistance, lineOpacity, sqrt)|;
      && c == |ClosePairs(ps, maxDistance, sqrt)|
      && 2 * c <= |ps| * (|ps| - 1)
      && (|ps| < 2 ==> c == 0)
  {
    DrawnLinesSpec(ps, maxDistance, lineOpacity, sqrt);
  }

  /** Every drawn line is visible and at most lineOpacity opaque. */
  lemma DrawnOpacity(ps: seq<Point>, maxDistance: int, lineOpacity: real, sqrt: real -> NonNeg)
    requires 0.0 < lineOpacity
    ensures var r := DrawnLines(ps, maxDistance, lineOpacity, sqrt);
      forall k | 0 <= k < |r| :: 0.0 < r[k].opacity <= lineOpacity
  {
    var r := DrawnLines(ps, maxDistance, lineOpacity, sqrt);
    DrawnLinesSpec(ps, maxDistance, lineOpacity, sqrt);
    forall k | 0 <= k < |r| ensures 0.0 < r[k].opacity <= lineOpacity {
      assert Drawn(ps, r[k], maxDistance, lineOpacity, sqrt);
      OpacityRange(PairDistance(ps, r[k].i, r[k].j, sqrt), maxDistance, lineOpacity);
    }
  }
}
