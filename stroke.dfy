/**
 * `buildLine`: the polygon mode of the line builder. The flat coordinate
 * list of the path is first rewritten when the path is closed, then cut at
 * the midpoints of its segments; a join is built at every interior point,
 * round caps at both ends, and every resulting vertex is written out with
 * the line colour, followed by one index per vertex.
 */
module Stroke {
  import opened Geometry
  import opened RoundCap
  import opened Buffers
  import opened Joins

  /** The `k`-th point `(c[2k], c[2k + 1])` of a flat coordinate list. */
  function PointAt(c: seq<real>, k: nat): Point
    requires 2 * k + 1 < |c|
  {
    Point(c[2 * k], c[2 * k + 1])
  }

  /** The last two points of a flat coordinate list. */
  lemma LastPoints(c: seq<real>)
    requires |c| % 2 == 0 && |c| >= 4
    ensures PointAt(c, |c| / 2 - 1) == Point(c[|c| - 2], c[|c| - 1])
    ensures PointAt(c, |c| / 2 - 2) == Point(c[|c| - 4], c[|c| - 3])
  {
  }

  /** The path ends where it starts. */
  predicate IsClosed(c: seq<real>)
    requires |c| >= 2
  {
    c[0] == c[|c| - 2] && c[1] == c[|c| - 1]
  }

  /** The synthetic point of a closed path, `last + (first - last) * 0.5`:
      halfway between its first point and the point before its duplicated
      last one. */
  function ClosingMidpoint(first: Point, last: Point): (r: Point)
    ensures AddPoints(r, r) == AddPoints(first, last)
  {
    Point(last.x + ((first.x - last.x) * 0.5), last.y + ((first.y - last.y) * 0.5))
  }

  /** The coordinate list `buildLine` works on (lines 56-76): a closed path
      loses its duplicated last point and gains its closing midpoint at both
      ends; any other path is used as it is. */
  function ClosedPath(c: seq<real>): (r: seq<real>)
    requires |c| >= 4
    ensures |r| % 2 == |c| % 2 && |r| >= |c|
  {
    if IsClosed(c) then
      var mid := ClosingMidpoint(Point(c[0], c[1]), Point(c[|c| - 4], c[|c| - 3]));
      [mid.x, mid.y] + c[..|c| - 2] + [mid.x, mid.y]
    else c
  }

  /** A closed path of `n` points becomes one of `n + 1` points: the closing
      midpoint, the first `n - 1` points and the closing midpoint again, so
      it is still closed. An open path is unchanged. */
  lemma ClosedPathShape(c: seq<real>)
    requires |c| >= 4 && |c| % 2 == 0
    ensures !IsClosed(c) ==> ClosedPath(c) == c
    ensures IsClosed(c) ==>
              var r := ClosedPath(c);
              var mid := ClosingMidpoint(PointAt(c, 0), PointAt(c, |c| / 2 - 2));
              && |r| / 2 == |c| / 2 + 1
              && PointAt(r, 0) == mid
              && PointAt(r, |r| / 2 - 1) == mid
              && (forall k :: 1 <= k < |r| / 2 - 1 ==> PointAt(r, k) == PointAt(c, k - 1))
              && IsClosed(r)
  {
    if IsClosed(c) {
      var r := ClosedPath(c);
      forall k | 1 <= k < |r| / 2 - 1
        ensures PointAt(r, k) == PointAt(c, k - 1)
      {
        assert r[2 * k] == c[2 * k - 2];
        assert r[2 * k + 1] == c[2 * k - 1];
      }
    }
  }

  /** Lines 56-76: the working coordinate list, read from the caller's array.
      The array itself is never written (the closed branch edits a copy). */
  method WorkingPoints(points: array<real>) returns (c: seq<real>)
    requires points.Length >= 4
    ensures c == ClosedPath(points[..])
  {
    c := points[..];
    var firstPoint := Point(c[0], c[1]);
    var lastPoint := Point(c[|c| - 2], c[|c| - 1]);
    if firstPoint.x == lastPoint.x && firstPoint.y == lastPoint.y {
      // points.slice(); points.pop(); points.pop();
      c := points[..];
      c := c[..|c| - 1];
      c := c[..|c| - 1];
      lastPoint := Point(c[|c| - 2], c[|c| - 1]);
      var midPointX := lastPoint.x + ((firstPoint.x - lastPoint.x) * 0.5);
      var midPointY := lastPoint.y + ((firstPoint.y - lastPoint.y) * 0.5);
      // points.unshift(midPointX, midPointY); points.push(midPointX, midPointY);
      c := [midPointX, midPointY] + c;
      c := c + [midPointX, midPointY];
      assert c[2..|c| - 2] == points[..][..points.Length - 2];
    }
  }

  /** The midpoint of a segment as lines 123-126 compute it. */
  function Midpoint(a: Point, b: Point): (r: Point)
    ensures AddPoints(r, r) == AddPoints(a, b)
  {
    Point((a.x + b.x) * 0.5, (a.y + b.y) * 0.5)
  }

  /** Entry `k` of `middlePoints` for a path of `|c| / 2` points: the first
      point, the last point, or the midpoint of segment `k`. */
  function MiddleEntry(c: seq<real>, k: nat): Point
    requires |c| % 2 == 0 && 2 * k + 3 < |c|
  {
    if k == 0 then PointAt(c, 0)
    else if 2 * k == |c| - 4 then PointAt(c, |c| / 2 - 1)
    else Midpoint(PointAt(c, k), PointAt(c, k + 1))
  }

  /** The `middlePoints` list of lines 109-128. */
  function MiddlePoints(c: seq<real>): seq<Point>
    requires |c| % 2 == 0 && |c| >= 4
  {
    seq(|c| / 2 - 1, k requires 0 <= k < |c| / 2 - 1 => MiddleEntry(c, k))
  }

  /** For a path of `n >= 3` points there are `n - 1` middle points: the
      first point, the midpoints of the interior segments in order, and the
      last point. */
  lemma MiddlePointsShape(c: seq<real>)
    requires |c| % 2 == 0 && |c| >= 6
    ensures var mp := MiddlePoints(c);
            var n := |c| / 2;
            && |mp| == n - 1
            && mp[0] == PointAt(c, 0)
            && mp[n - 2] == PointAt(c, n - 1)
            && (forall k :: 0 < k < n - 2 ==> mp[k] == Midpoint(PointAt(c, k), PointAt(c, k + 1)))
  {
  }

  /** The three points a call of `buildTriangles` is made with. */
  datatype Corner = Corner(p0: Point, p1: Point, p2: Point)

  /** Everything the call of `buildTriangles` at a corner appends. */
  function CornerPoints(k: Corner, width: real, m: MathLib): seq<Point>
    requires FiniteLengths(m)
  {
    JoinPoints(k.p0, k.p1, k.p2, width, m)
  }

  /** The corner of round `i + 1` of the loop of lines 130-138: point
      `i + 1` between middle points `i` and `i + 1`. */
  function CornerAt(mp: seq<Point>, c: seq<real>, i: nat): Corner
    requires i + 1 < |mp| && 2 * |mp| <= |c|
  {
    Corner(mp[i], PointAt(c, i + 1), mp[i + 1])
  }

  /** The corners of the join loop in terms of the path: round `i + 1`
      joins at point `i + 1`, coming from the first point or the midpoint of
      segment `i`, and going to the last point or the midpoint of segment
      `i + 1`. */
  lemma LoopCorner(c: seq<real>, i: nat)
    requires |c| % 2 == 0 && |c| >= 6 && i + 2 < |c| / 2
    ensures var n := |c| / 2;
            var k := CornerAt(MiddlePoints(c), c, i);
            && k.p0 == (if i == 0 then PointAt(c, 0) else Midpoint(PointAt(c, i), PointAt(c, i + 1)))
            && k.p1 == PointAt(c, i + 1)
            && k.p2 == (if i == n - 3 then PointAt(c, n - 1) else Midpoint(PointAt(c, i + 1), PointAt(c, i + 2)))
  {
    var mp := MiddlePoints(c);
    assert mp[i] == MiddleEntry(c, i) && mp[i + 1] == MiddleEntry(c, i + 1);
  }

  /** The joins that `join` builds at the corners `0 .. k - 2`, laid end to
      end. */
  function Chain(join: Corner -> seq<Point>, mp: seq<Point>, c: seq<real>, k: nat): seq<Point>
    requires 1 <= k <= |mp| && 2 * |mp| <= |c|
  {
    if k == 1 then [] else Chain(join, mp, c, k - 1) + join(CornerAt(mp, c, k - 2))
  }

  /** `buildTriangles` at a corner, as a function of the corner. */
  function CornerJoin(width: real, m: MathLib): Corner -> seq<Point>
    requires FiniteLengths(m)
  {
    q => CornerPoints(q, width, m)
  }

  /** What the rounds `1 .. k - 1` of the loop of lines 130-138 append:
      round `i` builds the join at point `i` between middle points `i - 1`
      and `i`. */
  function InteriorJoins(mp: seq<Point>, c: seq<real>, k: nat, width: real, m: MathLib): seq<Point>
    requires FiniteLengths(m)
    requires 1 <= k <= |mp| && 2 * |mp| <= |c|
  {
    Chain(CornerJoin(width, m), mp, c, k)
  }

  /** After round `k` of the loop the vertices hold one more join. */
  lemma JoinsGrow(before: seq<Point>, mp: seq<Point>, c: seq<real>, k: nat, width: real, m: MathLib)
    requires FiniteLengths(m)
    requires 1 <= k < |mp| && 2 * |mp| <= |c|
    ensures before + InteriorJoins(mp, c, k, width, m) + JoinPoints(mp[k - 1], PointAt(c, k), mp[k], width, m) ==
            before + InteriorJoins(mp, c, k + 1, width, m)
  {
    var jp := JoinPoints(mp[k - 1], PointAt(c, k), mp[k], width, m);
    assert CornerAt(mp, c, k - 1) == Corner(mp[k - 1], PointAt(c, k), mp[k]);
    assert CornerJoin(width, m)(CornerAt(mp, c, k - 1)) == jp;
    AppendAssoc(before, InteriorJoins(mp, c, k, width, m), jp);
  }

  lemma WholeTriangles(a: nat, b: nat)
    requires a % 3 == 0 && b % 3 == 0
    ensures (a + b) % 3 == 0
  {
  }

  /** Whole triangles followed by whole triangles open like the first run
      and close like the second. */
  lemma AppendShape(all: seq<Point>, piece: seq<Point>)
    requires |all| % 3 == 0 && |all| >= 12 && |piece| % 3 == 0 && |piece| >= 12
    ensures var s := all + piece;
            && |s| % 3 == 0 && |s| >= 12
            && s[..2] == all[..2]
            && s[|s| - 3..] == piece[|piece| - 3..]
  {
    WholeTriangles(|all|, |piece|);
  }

  /** The one corner of a two-point path: its midpoint between its two
      points (lines 95-106). */
  function PairCorner(c: seq<real>): Corner
    requires |c| >= 4
  {
    Corner(PointAt(c, 0), Midpoint(PointAt(c, 0), PointAt(c, 1)), PointAt(c, 1))
  }

  /** The body of the stroke, lines 95-139, for the join `join` builds at
      a corner: for two points, the one join at the midpoint of the segment;
      otherwise the joins at every interior point. */
  function BodyOf(join: Corner -> seq<Point>, c: seq<real>): seq<Point>
    requires |c| % 2 == 0 && |c| >= 4
  {
    if |c| == 4 then join(PairCorner(c))
    else
      var mp := MiddlePoints(c);
      Chain(join, mp, c, |mp|)
  }

  /** The body of the stroke with `buildTriangles` at every corner. */
  function Body(c: seq<real>, width: real, m: MathLib): seq<Point>
    requires FiniteLengths(m)
    requires |c| % 2 == 0 && |c| >= 4
  {
    BodyOf(CornerJoin(width, m), c)
  }

  /** The corner of the first join of the body, and of the last one: the
      same one for a two-point path. */
  function FirstCorner(c: seq<real>): (k: Corner)
    requires |c| % 2 == 0 && |c| >= 4
    ensures k.p0 == PointAt(c, 0)
  {
    if |c| == 4 then PairCorner(c)
    else CornerAt(MiddlePoints(c), c, 0)
  }

  function LastCorner(c: seq<real>): (k: Corner)
    requires |c| % 2 == 0 && |c| >= 4
    ensures k.p2 == PointAt(c, |c| / 2 - 1)
  {
    if |c| == 4 then PairCorner(c)
    else CornerAt(MiddlePoints(c), c, |MiddlePoints(c)| - 2)
  }

  /** Whole triangles, at least a bevel's worth, that open like `first`
      and close like `last`. */
  ghost predicate Framed(b: seq<Point>, first: seq<Point>, last: seq<Point>)
  {
    && |b| % 3 == 0 && |b| >= 12 && |first| >= 12 && |last| >= 12
    && b[..2] == first[..2]
    && b[|b| - 3..] == last[|last| - 3..]
  }

  /** Joins of whole triangles, at least a bevel's worth each, laid end to
      end are whole triangles too; they open like the first join and close
      like the last. */
  lemma {:induction false} ChainShape(join: Corner -> seq<Point>, mp: seq<Point>, c: seq<real>, k: nat)
    requires 2 <= k <= |mp| && 2 * |mp| <= |c|
    requires forall q :: |join(q)| % 3 == 0 && |join(q)| >= 12
    ensures Framed(Chain(join, mp, c, k), join(CornerAt(mp, c, 0)), join(CornerAt(mp, c, k - 2)))
  {
    var last := join(CornerAt(mp, c, k - 2));
    if k == 2 {
      assert Chain(join, mp, c, k) == last;
    } else {
      ChainShape(join, mp, c, k - 1);
      AppendShape(Chain(join, mp, c, k - 1), last);
    }
  }

  /** Every join is whole triangles, at least a bevel's worth. */
  lemma CornerJoinWhole(width: real, m: MathLib)
    requires FiniteLengths(m)
    ensures forall q :: |CornerJoin(width, m)(q)| % 3 == 0 && |CornerJoin(width, m)(q)| >= 12
  {
    forall q: Corner
      ensures |CornerJoin(width, m)(q)| % 3 == 0 && |CornerJoin(width, m)(q)| >= 12
    {
      JoinWhole(q.p0, q.p1, q.p2, width, m);
    }
  }

  /** The joins of the first `k - 1` rounds laid end to end are whole
      triangles, at least one bevel's worth; they open like the first join
      and close like the last. */
  lemma JoinsShape(mp: seq<Point>, c: seq<real>, k: nat, width: real, m: MathLib)
    requires FiniteLengths(m)
    requires 2 <= k <= |mp| && 2 * |mp| <= |c|
    ensures Framed(InteriorJoins(mp, c, k, width, m), CornerPoints(CornerAt(mp, c, 0), width, m), CornerPoints(CornerAt(mp, c, k - 2), width, m))
  {
    CornerJoinWhole(width, m);
    ChainShape(CornerJoin(width, m), mp, c, k);
    assert CornerJoin(width, m)(CornerAt(mp, c, 0)) == CornerPoints(CornerAt(mp, c, 0), width, m);
    assert CornerJoin(width, m)(CornerAt(mp, c, k - 2)) == CornerPoints(CornerAt(mp, c, k - 2), width, m);
  }

  /** A body made of joins of whole triangles, at least a bevel's worth
      each, is whole triangles too; it opens like its first join and closes
      like its last. */
  lemma BodyOfShape(join: Corner -> seq<Point>, c: seq<real>)
    requires |c| % 2 == 0 && |c| >= 4
    requires forall q :: |join(q)| % 3 == 0 && |join(q)| >= 12
    ensures Framed(BodyOf(join, c), join(FirstCorner(c)), join(LastCorner(c)))
  {
    if |c| == 4 {
      PairBodyOfShape(join, c);
    } else {
      LoopBodyOfShape(join, c);
    }
  }

  /** `BodyOfShape` for a two-point path: the body is its one join. */
  lemma PairBodyOfShape(join: Corner -> seq<Point>, c: seq<real>)
    requires |c| == 4
    requires forall q :: |join(q)| % 3 == 0 && |join(q)| >= 12
    ensures Framed(BodyOf(join, c), join(FirstCorner(c)), join(LastCorner(c)))
  {
    var b := join(PairCorner(c));
    assert BodyOf(join, c) == b;
    assert FirstCorner(c) == PairCorner(c) && LastCorner(c) == PairCorner(c);
    assert |b| % 3 == 0 && |b| >= 12;
  }

  /** `BodyOfShape` for three or more points: the body is the chain of the
      joins of the loop. */
  lemma LoopBodyOfShape(join: Corner -> seq<Point>, c: seq<real>)
    requires |c| % 2 == 0 && |c| >= 6
    requires forall q :: |join(q)| % 3 == 0 && |join(q)| >= 12
    ensures Framed(BodyOf(join, c), join(FirstCorner(c)), join(LastCorner(c)))
  {
    var mp := MiddlePoints(c);
    assert |mp| >= 2;
    assert BodyOf(join, c) == Chain(join, mp, c, |mp|);
    assert FirstCorner(c) == CornerAt(mp, c, 0);
    assert LastCorner(c) == CornerAt(mp, c, |mp| - 2);
    ChainShape(join, mp, c, |mp|);
  }

  /** The body is whole triangles, at least one bevel's worth; it opens like
      its first join and closes like its last. */
  lemma BodyShape(c: seq<real>, width: real, m: MathLib)
    requires FiniteLengths(m)
    requires |c| % 2 == 0 && |c| >= 4
    ensures Framed(Body(c, width, m), CornerPoints(FirstCorner(c), width, m), CornerPoints(LastCorner(c), width, m))
  {
    CornerJoinWhole(width, m);
    BodyOfShape(CornerJoin(width, m), c);
    assert CornerJoin(width, m)(FirstCorner(c)) == CornerPoints(FirstCorner(c), width, m);
    assert CornerJoin(width, m)(LastCorner(c)) == CornerPoints(LastCorner(c), width, m);
  }

  /** The first two body vertices are the first point of the path shifted
      by the first join's offset either way; the third-last and the last
      are its last point shifted by the last join's second offset. */
  lemma BodyEnds(c: seq<real>, width: real, m: MathLib)
    requires FiniteLengths(m)
    requires |c| % 2 == 0 && |c| >= 4
    ensures var b := Body(c, width, m);
            var n := |c| / 2;
            var first := FirstCorner(c);
            var last := LastCorner(c);
            var t0 := PlanJoin(first.p0, first.p1, first.p2, width, m).t0;
            var t2 := PlanJoin(last.p0, last.p1, last.p2, width, m).t2;
            && |b| >= 12
            && b[0] == AddPoints(PointAt(c, 0), t0)
            && b[1] == SubtractPoints(PointAt(c, 0), t0)
            && b[|b| - 3] == AddPoints(PointAt(c, n - 1), t2)
            && b[|b| - 1] == SubtractPoints(PointAt(c, n - 1), t2)
  {
    var first, last := FirstCorner(c), LastCorner(c);
    BodyShape(c, width, m);
    JoinEnds(first.p0, first.p1, first.p2, width, m);
    JoinEnds(last.p0, last.p1, last.p2, width, m);
    SameEnds(Body(c, width, m), CornerPoints(first, width, m), CornerPoints(last, width, m));
  }

  lemma SameEnds(b: seq<Point>, first: seq<Point>, last: seq<Point>)
    requires |b| >= 3 && |first| >= 3 && |last| >= 3
    requires b[..2] == first[..2] && b[|b| - 3..] == last[|last| - 3..]
    ensures b[0] == first[0] && b[1] == first[1]
    ensures b[|b| - 3] == last[|last| - 3] && b[|b| - 1] == last[|last| - 1]
  {
    assert b[0] == b[..2][0] && b[1] == b[..2][1];
    assert b[|b| - 3] == b[|b| - 3..][0] && b[|b| - 1] == b[|b| - 3..][2];
  }

  /** The round cap at the start of the line (line 150): around the first
      point, between the first two body vertices, facing away from point 1. */
  function StartCap(c: seq<real>, b: seq<Point>, m: MathLib): seq<Point>
    requires |c| % 2 == 0 && |c| >= 4 && |b| >= 3
  {
    CapPoints(PointAt(c, 0), b[0], b[1], PointAt(c, 1), m)
  }

  /** The round cap at the end of the line (line 151): around the last
      point, between the last and the third-last body vertices, facing away
      from the point before it. */
  function EndCap(c: seq<real>, b: seq<Point>, m: MathLib): seq<Point>
    requires |c| % 2 == 0 && |c| >= 4 && |b| >= 3
  {
    var n := |c| / 2;
    CapPoints(PointAt(c, n - 1), b[|b| - 1], b[|b| - 3], PointAt(c, n - 2), m)
  }

  /** Every vertex of the stroke in the order they reach the buffer: the
      start cap, then the body with the end cap appended to it. */
  function Stroke(c: seq<real>, width: real, m: MathLib): seq<Point>
    requires FiniteLengths(m)
    requires |c| % 2 == 0 && |c| >= 4
  {
    BodyShape(c, width, m);
    Capped(c, Body(c, width, m), m)
  }

  /** The body `b` with the start cap before it and the end cap after it. */
  function Capped(c: seq<real>, b: seq<Point>, m: MathLib): seq<Point>
    requires |c| % 2 == 0 && |c| >= 4 && |b| >= 3
  {
    StartCap(c, b, m) + b + EndCap(c, b, m)
  }

  /** Each end cap has the length of the offset it starts from as its
      radius: the caps continue the edges of the stroke. With `BodyEnds`,
      these are the offsets of the first and the last join. */
  lemma CapRadii(c: seq<real>, b: seq<Point>, t0: Point, t2: Point, m: MathLib)
    requires |c| % 2 == 0 && |c| >= 4 && |b| >= 3
    requires b[0] == AddPoints(PointAt(c, 0), t0)
    requires b[|b| - 1] == SubtractPoints(PointAt(c, |c| / 2 - 1), t2)
    ensures CapSweep(PointAt(c, 0), b[0], b[1], PointAt(c, 1), m).radius == ToLength(t0, m)
    ensures CapSweep(PointAt(c, |c| / 2 - 1), b[|b| - 1], b[|b| - 3], PointAt(c, |c| / 2 - 2), m).radius == ToLength(t2, m)
  {
    var p, q := PointAt(c, 0), PointAt(c, |c| / 2 - 1);
    assert SubtractPoints(p, AddPoints(p, t0)) == Invert(t0);
    assert SubtractPoints(q, SubtractPoints(q, t2)) == t2;
  }

  /** Whole triangles whose first `startLen` points fan out from `p` and
      whose last `endLen` points fan out from `q`. */
  ghost predicate FannedEnds(s: seq<Point>, startLen: nat, endLen: nat, p: Point, q: Point)
  {
    && |s| % 3 == 0
    && startLen + endLen <= |s|
    && (forall i :: 0 <= i < startLen && i % 3 == 0 ==> s[i] == p)
    && (forall i :: |s| - endLen <= i < |s| && i % 3 == 0 ==> s[i] == q)
  }

  lemma {:induction false} ThreeRuns(start: seq<Point>, body: seq<Point>, end: seq<Point>, p: Point, q: Point)
    requires Fanned(start, p) && |body| % 3 == 0 && Fanned(end, q)
    ensures FannedEnds(start + body + end, |start|, |end|, p, q)
  {
    var s := start + body + end;
    WholeTriangles(|start|, |body|);
    WholeTriangles(|start| + |body|, |end|);
    forall i | |s| - |end| <= i < |s| && i % 3 == 0
      ensures s[i] == q
    {
      assert s[i] == end[i - (|s| - |end|)];
      assert (i - (|s| - |end|)) % 3 == 0;
    }
  }

  /** The stroke around any body of whole triangles is whole triangles: the
      start cap's, the body's and the end cap's, every cap triangle fanned
      out from its end point. */
  lemma StrokeShape(c: seq<real>, b: seq<Point>, m: MathLib)
    requires |c| % 2 == 0 && |c| >= 4 && |b| >= 3 && |b| % 3 == 0
    ensures FannedEnds(Capped(c, b, m), |StartCap(c, b, m)|, |EndCap(c, b, m)|, PointAt(c, 0), PointAt(c, |c| / 2 - 1))
  {
    StartCapFanned(c, b, m);
    EndCapFanned(c, b, m);
    ThreeRuns(StartCap(c, b, m), b, EndCap(c, b, m), PointAt(c, 0), PointAt(c, |c| / 2 - 1));
  }

  /** The whole polygon-mode output is whole triangles: the start cap, a
      body of at least four triangles and the end cap, the caps fanned out
      from the first and the last point of the path. */
  lemma StrokeWhole(c: seq<real>, width: real, m: MathLib)
    requires FiniteLengths(m)
    requires |c| % 2 == 0 && |c| >= 4
    ensures var b := Body(c, width, m);
            && |b| >= 12
            && |Stroke(c, width, m)| % 3 == 0
            && FannedEnds(Stroke(c, width, m), |StartCap(c, b, m)|, |EndCap(c, b, m)|, PointAt(c, 0), PointAt(c, |c| / 2 - 1))
  {
    BodyShape(c, width, m);
    StrokeShape(c, Body(c, width, m), m);
  }

  /** The start cap fans out from the first point of the path. */
  lemma StartCapFanned(c: seq<real>, b: seq<Point>, m: MathLib)
    requires |c| % 2 == 0 && |c| >= 4 && |b| >= 3
    ensures Fanned(StartCap(c, b, m), PointAt(c, 0))
  {
    CapPointsShape(PointAt(c, 0), b[0], b[1], PointAt(c, 1), m);
  }

  /** The end cap fans out from the last point of the path. */
  lemma EndCapFanned(c: seq<real>, b: seq<Point>, m: MathLib)
    requires |c| % 2 == 0 && |c| >= 4 && |b| >= 3
    ensures Fanned(EndCap(c, b, m), PointAt(c, |c| / 2 - 1))
  {
    CapPointsShape(PointAt(c, |c| / 2 - 1), b[|b| - 1], b[|b| - 3], PointAt(c, |c| / 2 - 2), m);
  }

  /** The numbers the stroke writes: six per vertex, the start cap's
      vertices first, then the body's, then the end cap's, every vertex
      with the same colour attributes. */
  lemma StrokeLayout(c: seq<real>, width: real, color: Rgb, alpha: real, m: MathLib)
    requires FiniteLengths(m)
    requires |c| % 2 == 0 && |c| >= 4
    ensures var b := Body(c, width, m);
            var s := Stroke(c, width, m);
            && |b| >= 3
            && |VertexData(s, color, alpha)| == 6 * |s|
            && VertexData(s, color, alpha) ==
                 VertexData(StartCap(c, b, m), color, alpha) + VertexData(b, color, alpha) + VertexData(EndCap(c, b, m), color, alpha)
            && forall i :: 0 <= i < |s| ==> VertexData(s, color, alpha)[6 * i + 2..6 * i + 6] == Attributes(color, alpha)
  {
    BodyShape(c, width, m);
    var b := Body(c, width, m);
    var start, end := StartCap(c, b, m), EndCap(c, b, m);
    assert Stroke(c, width, m) == start + b + end;
    VertexDataAppend(start, b, color, alpha);
    VertexDataAppend(start + b, end, color, alpha);
    VertexDataLayout(start + b + end, color, alpha);
  }

  /** Lines 109-128 for a path of three or more points: the middle points,
      pushed one per segment. */
  method CollectMiddlePoints(c: seq<real>, middlePoints: PointList)
    requires |c| % 2 == 0 && |c| >= 6
    modifies middlePoints
    ensures middlePoints.items == old(middlePoints.items) + MiddlePoints(c)
  {
    ghost var before := middlePoints.items;
    var i := 0;
    while i < |c| - 2
      invariant 0 <= i <= |c| - 2 && i % 2 == 0
      invariant middlePoints.items == before + MiddlePoints(c)[..i / 2]
    {
      if i == 0 {
        middlePoints.Push(Point(c[0], c[1]));
      } else if i == |c| - 4 {
        middlePoints.Push(Point(c[|c| - 2], c[|c| - 1]));
      } else {
        middlePoints.Push(Point((c[i] + c[i + 2]) * 0.5, (c[i + 1] + c[i + 3]) * 0.5));
      }
      assert MiddlePoints(c)[..i / 2 + 1] == MiddlePoints(c)[..i / 2] + [MiddleEntry(c, i / 2)];
      i := i + 2;
    }
    assert MiddlePoints(c)[..i / 2] == MiddlePoints(c);
  }

  /** Lines 130-138: one join per interior point of the path. */
  method BuildInteriorJoins(c: seq<real>, mp: seq<Point>, width: real, m: MathLib, vertices: PointList)
    requires FiniteLengths(m)
    requires |mp| >= 1 && 2 * |mp| <= |c|
    modifies vertices
    ensures vertices.items == old(vertices.items) + InteriorJoins(mp, c, |mp|, width, m)
  {
    ghost var before := vertices.items;
    for i := 1 to |mp|
      invariant vertices.items == before + InteriorJoins(mp, c, i, width, m)
    {
      BuildJoinAt(c, mp, i, width, m, vertices, before);
    }
  }

  /** Round `i` of the loop of lines 130-138: the join at point `i`. */
  method BuildJoinAt(c: seq<real>, mp: seq<Point>, i: nat, width: real, m: MathLib, vertices: PointList, ghost before: seq<Point>)
    requires FiniteLengths(m)
    requires 1 <= i < |mp| && 2 * |mp| <= |c|
    requires vertices.items == before + InteriorJoins(mp, c, i, width, m)
    modifies vertices
    ensures vertices.items == before + InteriorJoins(mp, c, i + 1, width, m)
  {
    var p1 := Point(c[i * 2], c[(i * 2) + 1]);
    assert p1 == PointAt(c, i);
    BuildTriangles(mp[i - 1], p1, mp[i], width, m, vertices);
    JoinsGrow(before, mp, c, i, width, m);
  }

  /** Lines 95-139: the body of the stroke, into `vertices`. */
  method BuildBody(c: seq<real>, width: real, m: MathLib, vertices: PointList)
    requires FiniteLengths(m)
    requires |c| % 2 == 0 && |c| >= 4
    modifies vertices
    ensures vertices.items == old(vertices.items) + Body(c, width, m)
  {
    if |c| == 4 {
      var p0 := Point(c[0], c[1]);
      var p1 := Point((c[0] + c[2]) * 0.5, (c[1] + c[3]) * 0.5);
      var p2 := Point(c[2], c[3]);
      assert Corner(p0, p1, p2) == PairCorner(c);
      BuildTriangles(p0, p1, p2, width, m, vertices);
      assert CornerJoin(width, m)(PairCorner(c)) == JoinPoints(p0, p1, p2, width, m);
    } else {
      var middlePoints := new PointList();
      CollectMiddlePoints(c, middlePoints);
      assert middlePoints.items == MiddlePoints(c);
      BuildInteriorJoins(c, middlePoints.items, width, m, vertices);
    }
  }

  /** Lines 153-158: six numbers per vertex into the vertex buffer; the
      number of vertices written. */
  method WriteVertices(all: seq<Point>, color: Rgb, alpha: real, data: WebGLData) returns (vertexCount: nat)
    modifies data
    ensures vertexCount == |all|
    ensures data.points == old(data.points) + VertexData(all, color, alpha)
    ensures data.indices == old(data.indices)
  {
    vertexCount := 0;
    while vertexCount < |all|
      invariant 0 <= vertexCount <= |all|
      invariant data.points == old(data.points) + VertexData(all[..vertexCount], color, alpha)
      invariant data.indices == old(data.indices)
    {
      var vertex := all[vertexCount];
      data.PushVertex(vertex, color, alpha);
      VertexDataAppend(all[..vertexCount], [vertex], color, alpha);
      assert all[..vertexCount + 1] == all[..vertexCount] + [vertex];
      vertexCount := vertexCount + 1;
    }
    assert all[..vertexCount] == all;
  }

  /** Lines 161-164: the indices `0 .. vertexCount - 1`. */
  method WriteIndices(vertexCount: nat, data: WebGLData)
    modifies data
    ensures data.indices == old(data.indices) + Iota(vertexCount)
    ensures data.points == old(data.points)
  {
    var i := 0;
    while i < vertexCount
      invariant 0 <= i <= vertexCount
      invariant data.indices == old(data.indices) + Iota(i)
      invariant data.points == old(data.points)
    {
      data.PushIndex(i);
      i := i + 1;
    }
  }

  /** Lines 141-151: the start cap into its own list, the end cap after
      the body. */
  method BuildCaps(c: seq<real>, m: MathLib, vertices: PointList, startCapVertices: PointList)
    requires |c| % 2 == 0 && |c| >= 4 && |vertices.items| >= 3
    requires startCapVertices.items == [] && vertices != startCapVertices
    modifies vertices, startCapVertices
    ensures startCapVertices.items == StartCap(c, old(vertices.items), m)
    ensures vertices.items == old(vertices.items) + EndCap(c, old(vertices.items), m)
  {
    ghost var body := vertices.items;
    var p00 := vertices.items[0];
    var p01 := vertices.items[1];
    var p02 := Point(c[2], c[3]);
    var p10 := vertices.items[|vertices.items| - 1];
    var p11 := vertices.items[|vertices.items| - 3];
    var p12 := Point(c[|c| - 4], c[|c| - 3]);
    var first := Point(c[0], c[1]);
    var last := Point(c[|c| - 2], c[|c| - 1]);
    assert first == PointAt(c, 0) && p02 == PointAt(c, 1);
    LastPoints(c);
    BuildRoundCap(first, p00, p01, p02, m, startCapVertices);
    BuildRoundCap(last, p10, p11, p12, m, vertices);
  }

  /** Lines 141-164 for a body already in `vertices`: the caps around it,
      then the vertex data and the indices. */
  method FinishStroke(c: seq<real>, color: Rgb, alpha: real, m: MathLib, vertices: PointList, startCapVertices: PointList, data: WebGLData)
    requires |c| % 2 == 0 && |c| >= 4 && |vertices.items| >= 3
    requires startCapVertices.items == [] && vertices != startCapVertices
    modifies vertices, startCapVertices, data
    ensures var s := Capped(c, old(vertices.items), m);
            && data.points == old(data.points) + VertexData(s, color, alpha)
            && data.indices == old(data.indices) + Iota(|s|)
  {
    ghost var body := vertices.items;
    BuildCaps(c, m, vertices, startCapVertices);
    var all := startCapVertices.items + vertices.items;
    AppendAssoc(StartCap(c, body, m), body, EndCap(c, body, m));
    var vertexCount := WriteVertices(all, color, alpha, data);
    WriteIndices(vertexCount, data);
  }

  /** Lines 78-164 on the working coordinate list: the body, the two
      caps, then the vertex data and the indices. */
  method BuildStroke(c: seq<real>, width: real, color: Rgb, alpha: real, m: MathLib, data: WebGLData)
    requires FiniteLengths(m)
    requires |c| % 2 == 0 && |c| >= 4
    modifies data
    ensures var s := Stroke(c, width, m);
            && data.points == old(data.points) + VertexData(s, color, alpha)
            && data.indices == old(data.indices) + Iota(|s|)
  {
    var vertices := new PointList();
    var startCapVertices := new PointList();
    BuildBody(c, width, m, vertices);
    BodyShape(c, width, m);
    assert vertices.items == Body(c, width, m);
    assert Stroke(c, width, m) == Capped(c, vertices.items, m);
    FinishStroke(c, color, alpha, m, vertices, startCapVertices, data);
  }

  /** Line 83: the stroke extends half the line width to either side. */
  function HalfWidth(lineWidth: real): real
  {
    lineWidth / 2.0
  }

  /** `buildLine(graphicsData, webGLData)`: the stroke of the path, as
      vertex data in the line colour, followed by one index per vertex. An
      empty path adds nothing. The caller's coordinate array is only read. */
  method BuildLine(points: array<real>, lineWidth: real, color: Rgb, alpha: real, m: MathLib, data: WebGLData)
    requires FiniteLengths(m)
    requires points.Length == 0 || (points.Length >= 4 && points.Length % 2 == 0)
    modifies data
    ensures points.Length == 0 ==> data.points == old(data.points) && data.indices == old(data.indices)
    ensures points.Length > 0 ==>
              var s := Stroke(ClosedPath(points[..]), HalfWidth(lineWidth), m);
              && data.points == old(data.points) + VertexData(s, color, alpha)
              && data.indices == old(data.indices) + Iota(|s|)
  {
    if points.Length == 0 {
      return;
    }
    var c := WorkingPoints(points);
    var width := HalfWidth(lineWidth);
    BuildStroke(c, width, color, alpha, m, data);
  }
}
