/**
 * `buildTriangles`: the geometry emitted around one joint `p1` of the path,
 * between the edge from `p0` and the edge to `p2`. It offsets both edges by
 * the half width, turns both offsets to the outer side of the turn,
 * intersects the two offset lines and then emits either a bevel (two
 * separate quads bridged by a round cap) or a miter (two quads meeting at
 * the reflected intersection point, with a round cap on the outside).
 */
module Joins {
  import opened Wrappers
  import opened Geometry
  import opened RoundCap
  import opened Buffers

  /** The offset of the edge from `a` to `b` before any flip: its
      perpendicular, normalized and scaled by the half width. */
  function EdgeOffset(a: Point, b: Point, width: real, m: MathLib): Point
  {
    MultiplyPoint(Normalize(Perpendicular(SubtractPoints(b, a)), m), width)
  }

  /** What `buildTriangles` decides at a joint: the two offsets, the
      intersection of the offset lines (`null` as `None`) and whether it
      takes the bevel branch. */
  datatype Join = Join(t0: Point, t2: Point, intersection: Option<Point>, bevel: bool)

  /** The anchor length of `buildTriangles`: the distance from the joint to
      the intersection, or `Number.MAX_VALUE` when there is none. */
  function AnchorLength(intersection: Option<Point>, p1: Point, m: MathLib): real
  {
    if intersection.Some? then ToLength(SubtractPoints(intersection.value, p1), m) else MAX_VALUE
  }

  lemma InvertScaled(v: Point, width: real)
    ensures MultiplyPoint(Invert(v), width) == Invert(MultiplyPoint(v, width))
  {
    assert (-v.x) * width == -(v.x * width);
    assert (-v.y) * width == -(v.y * width);
  }

  /** The offset lines through `p0 + t0, p1 + t0` and `p2 + t2, p1 + t2`
      are parallel to the two edges, so their determinant is the signed area
      of the corner with the sign changed, whatever the offsets. */
  lemma OffsetLinesDeterminant(p0: Point, p1: Point, p2: Point, t0: Point, t2: Point)
    ensures Determinant(AddPoints(t0, p0), AddPoints(t0, p1), AddPoints(t2, p2), AddPoints(t2, p1)) == -SignedArea(p0, p1, p2)
  {
    var a, b, c, d := AddPoints(t0, p0), AddPoints(t0, p1), AddPoints(t2, p2), AddPoints(t2, p1);
    assert b.y - a.y == p1.y - p0.y && a.x - b.x == p0.x - p1.x;
    assert d.y - c.y == p1.y - p2.y && c.x - d.x == p2.x - p1.x;
    assert Determinant(a, b, c, d) == ((p1.y - p0.y) * (p2.x - p1.x)) - ((p1.y - p2.y) * (p0.x - p1.x));
  }

  /** Lines 213-252 of `buildTriangles`. */
  function PlanJoin(p0: Point, p1: Point, p2: Point, width: real, m: MathLib): (j: Join)
    requires FiniteLengths(m)
    ensures !j.bevel ==> j.intersection.Some?
  {
    var n0 := Perpendicular(SubtractPoints(p1, p0));
    var n2 := Perpendicular(SubtractPoints(p2, p1));
    var flip := SignedArea(p0, p1, p2) > 0.0;
    var u0 := if flip then Invert(n0) else n0;
    var u2 := if flip then Invert(n2) else n2;
    var t0 := MultiplyPoint(Normalize(u0, m), width);
    var t2 := MultiplyPoint(Normalize(u2, m), width);
    var pintersect := LineIntersection(AddPoints(t0, p0), AddPoints(t0, p1), AddPoints(t2, p2), AddPoints(t2, p1));
    var anchorLength := AnchorLength(pintersect, p1, m);
    assert ToLength(SubtractPoints(p0, p1), m) < MAX_VALUE && ToLength(SubtractPoints(p1, p2), m) < MAX_VALUE;
    Join(t0, t2, pintersect, anchorLength > ToLength(SubtractPoints(p0, p1), m) || anchorLength > ToLength(SubtractPoints(p1, p2), m))
  }

  /** The condition under which `buildTriangles` bevels (line 252). */
  predicate BevelCase(p0: Point, p1: Point, p2: Point, intersection: Option<Point>, m: MathLib)
  {
    intersection.None? ||
    ToLength(SubtractPoints(intersection.value, p1), m) > ToLength(SubtractPoints(p0, p1), m) ||
    ToLength(SubtractPoints(intersection.value, p1), m) > ToLength(SubtractPoints(p1, p2), m)
  }

  /** What `buildTriangles` decides at a joint. */
  lemma PlanJoinSpec(p0: Point, p1: Point, p2: Point, width: real, m: MathLib)
    requires FiniteLengths(m)
    ensures var j := PlanJoin(p0, p1, p2, width, m);
            // both offsets are negated exactly when the signed area is positive
            && j.t0 == (if SignedArea(p0, p1, p2) > 0.0 then Invert(EdgeOffset(p0, p1, width, m)) else EdgeOffset(p0, p1, width, m))
            && j.t2 == (if SignedArea(p0, p1, p2) > 0.0 then Invert(EdgeOffset(p1, p2, width, m)) else EdgeOffset(p1, p2, width, m))
            // the offset lines miss each other exactly when the corner is nearly straight
            && (j.intersection.None? <==> -EPSILON < SignedArea(p0, p1, p2) < EPSILON)
            && (j.intersection.Some? ==>
                  OnLine(j.intersection.value, AddPoints(j.t0, p0), AddPoints(j.t0, p1)) &&
                  OnLine(j.intersection.value, AddPoints(j.t2, p2), AddPoints(j.t2, p1)))
            // bevel exactly when there is no intersection or it lies beyond either edge's length
            && (j.bevel <==> BevelCase(p0, p1, p2, j.intersection, m))
  {
    var n0 := Perpendicular(SubtractPoints(p1, p0));
    var n2 := Perpendicular(SubtractPoints(p2, p1));
    var j := PlanJoin(p0, p1, p2, width, m);
    NormalizeInvert(n0, m);
    NormalizeInvert(n2, m);
    InvertScaled(Normalize(n0, m), width);
    InvertScaled(Normalize(n2, m), width);
    OffsetLinesDeterminant(p0, p1, p2, j.t0, j.t2);
    IntersectionOnLines(AddPoints(j.t0, p0), AddPoints(j.t0, p1), AddPoints(j.t2, p2), AddPoints(j.t2, p1));
    assert ToLength(SubtractPoints(p0, p1), m) < MAX_VALUE && ToLength(SubtractPoints(p1, p2), m) < MAX_VALUE;
  }

  lemma MulNonNegative(a: real, b: real)
    requires a >= 0.0 && b >= 0.0
    ensures a * b >= 0.0
  {
  }

  /** Dividing by a positive number keeps a vector on the same side. */
  lemma CrossDivided(d: Point, q: Point, s: real)
    requires s > 0.0 && Cross(d, q) >= 0.0
    ensures Cross(d, Point(q.x / s, q.y / s)) >= 0.0
  {
    assert Cross(d, Point(q.x / s, q.y / s)) == Cross(d, q) / s;
  }

  /** Scaling by a non-negative number keeps a vector on the same side. */
  lemma CrossScaled(d: Point, n: Point, w: real)
    requires w >= 0.0 && Cross(d, n) >= 0.0
    ensures Cross(d, MultiplyPoint(n, w)) >= 0.0
  {
    assert Cross(d, MultiplyPoint(n, w)) == w * Cross(d, n);
    MulNonNegative(w, Cross(d, n));
  }

  /** With a non-negative half width, the unflipped offset of an edge lies on
      its left (non-negative cross product). */
  lemma EdgeOffsetLeft(a: Point, b: Point, width: real, m: MathLib)
    requires FiniteLengths(m)
    requires width >= 0.0
    ensures Cross(SubtractPoints(b, a), EdgeOffset(a, b, width, m)) >= 0.0
  {
    var d := SubtractPoints(b, a);
    var q := Perpendicular(d);
    var mod := ToLength(q, m);
    assert Cross(d, q) >= 0.0 by {
      assert Cross(d, q) == SquaredLength(d);
      assert d.x * d.x >= 0.0 && d.y * d.y >= 0.0;
    }
    if mod != 0.0 {
      assert mod > 0.0;
      CrossDivided(d, q, mod);
    }
    CrossScaled(d, Normalize(q, m), width);
  }

  /** An offset on the left of `d`, negated exactly when `area` is
      positive, ends up on the side opposite to the sign of `area`. */
  lemma FlippedOffsetOpposes(d: Point, e: Point, f: Point, area: real)
    requires Cross(d, e) >= 0.0
    requires f == if area > 0.0 then Invert(e) else e
    ensures Cross(d, f) * area <= 0.0
  {
    if area > 0.0 {
      assert Cross(d, Invert(e)) == -Cross(d, e);
      MulNonNegative(area, Cross(d, e));
    } else {
      MulNonNegative(-area, Cross(d, e));
    }
  }

  /** The signed area of a corner, measured from either end. */
  lemma CornerArea(p0: Point, p1: Point, p2: Point)
    ensures Cross(SubtractPoints(p1, p0), SubtractPoints(p2, p0)) == SignedArea(p0, p1, p2)
    ensures Cross(SubtractPoints(p2, p1), SubtractPoints(p0, p1)) == SignedArea(p0, p1, p2)
  {
  }

  /** The flip puts both offsets on the outer side of the turn: `t0` never
      points to the side of the edge `p0 p1` where `p2` lies, and `t2` never
      to the side of the edge `p1 p2` where `p0` lies (the signed area gives
      both of those sides, by `CornerArea`). */
  lemma OffsetsPointOutward(p0: Point, p1: Point, p2: Point, width: real, m: MathLib)
    requires FiniteLengths(m)
    requires width >= 0.0
    ensures Cross(SubtractPoints(p1, p0), PlanJoin(p0, p1, p2, width, m).t0) * SignedArea(p0, p1, p2) <= 0.0
    ensures Cross(SubtractPoints(p2, p1), PlanJoin(p0, p1, p2, width, m).t2) * SignedArea(p0, p1, p2) <= 0.0
  {
    var area := SignedArea(p0, p1, p2);
    var j := PlanJoin(p0, p1, p2, width, m);
    PlanJoinSpec(p0, p1, p2, width, m);
    EdgeOffsetLeft(p0, p1, width, m);
    EdgeOffsetLeft(p1, p2, width, m);
    FlippedOffsetOpposes(SubtractPoints(p1, p0), EdgeOffset(p0, p1, width, m), j.t0, area);
    FlippedOffsetOpposes(SubtractPoints(p2, p1), EdgeOffset(p1, p2, width, m), j.t2, area);
  }

  /** Where `Math.sqrt` is exact, the offset of an edge of non-zero length
      is the half width long. */
  lemma EdgeOffsetLength(a: Point, b: Point, width: real, m: MathLib)
    requires FiniteLengths(m)
    requires SquaredLength(SubtractPoints(b, a)) > 0.0
    requires m.sqrt(SquaredLength(SubtractPoints(b, a))) * m.sqrt(SquaredLength(SubtractPoints(b, a))) == SquaredLength(SubtractPoints(b, a))
    ensures SquaredLength(EdgeOffset(a, b, width, m)) == width * width
  {
    var q := Perpendicular(SubtractPoints(b, a));
    NormalizeUnit(q, m);
    assert SquaredLength(EdgeOffset(a, b, width, m)) == width * width * SquaredLength(Normalize(q, m));
  }

  /** Where `Math.sqrt` is exact, the offsets of edges of non-zero length are
      exactly the half width long: the stroke extends `width` to either
      side of the path. */
  lemma OffsetsHalfWidth(p0: Point, p1: Point, p2: Point, width: real, m: MathLib)
    requires FiniteLengths(m)
    requires SquaredLength(SubtractPoints(p1, p0)) > 0.0
    requires m.sqrt(SquaredLength(SubtractPoints(p1, p0))) * m.sqrt(SquaredLength(SubtractPoints(p1, p0))) == SquaredLength(SubtractPoints(p1, p0))
    requires SquaredLength(SubtractPoints(p2, p1)) > 0.0
    requires m.sqrt(SquaredLength(SubtractPoints(p2, p1))) * m.sqrt(SquaredLength(SubtractPoints(p2, p1))) == SquaredLength(SubtractPoints(p2, p1))
    ensures SquaredLength(PlanJoin(p0, p1, p2, width, m).t0) == width * width
    ensures SquaredLength(PlanJoin(p0, p1, p2, width, m).t2) == width * width
  {
    PlanJoinSpec(p0, p1, p2, width, m);
    EdgeOffsetLength(p0, p1, width, m);
    EdgeOffsetLength(p1, p2, width, m);
  }

  /** A nearly straight corner (in particular a straight one) always takes the
      bevel branch, whatever the width. */
  lemma StraightJoinIsBevel(p0: Point, p1: Point, p2: Point, width: real, m: MathLib)
    requires FiniteLengths(m)
    requires -EPSILON < SignedArea(p0, p1, p2) < EPSILON
    ensures PlanJoin(p0, p1, p2, width, m).bevel
  {
    PlanJoinSpec(p0, p1, p2, width, m);
  }

  /** The intersection of a join is that of its two offset lines. */
  lemma PlanJoinIntersection(p0: Point, p1: Point, p2: Point, width: real, m: MathLib)
    requires FiniteLengths(m)
    ensures var j := PlanJoin(p0, p1, p2, width, m);
            j.intersection == LineIntersection(AddPoints(j.t0, p0), AddPoints(j.t0, p1), AddPoints(j.t2, p2), AddPoints(j.t2, p1))
  {
  }

  /** A corner with a positive signed area (so both offsets are flipped)
      whose flipped offset lines meet at `q`, no farther from the joint than
      either edge is long, takes the miter branch with `q` as its
      intersection. */
  lemma FlippedMiter(p0: Point, p1: Point, p2: Point, width: real, m: MathLib, q: Point)
    requires FiniteLengths(m)
    requires SignedArea(p0, p1, p2) > 0.0
    requires var t0, t2 := Invert(EdgeOffset(p0, p1, width, m)), Invert(EdgeOffset(p1, p2, width, m));
             LineIntersection(AddPoints(t0, p0), AddPoints(t0, p1), AddPoints(t2, p2), AddPoints(t2, p1)) == Some(q)
    requires ToLength(SubtractPoints(q, p1), m) <= ToLength(SubtractPoints(p0, p1), m)
    requires ToLength(SubtractPoints(q, p1), m) <= ToLength(SubtractPoints(p1, p2), m)
    ensures var j := PlanJoin(p0, p1, p2, width, m);
            j.intersection == Some(q) && !j.bevel
  {
    PlanJoinSpec(p0, p1, p2, width, m);
    PlanJoinIntersection(p0, p1, p2, width, m);
  }

  /* A witness that the miter branch is reachable (a straight corner shows
     that the bevel branch is, by StraightJoinIsBevel). The corner runs from
     (1, 2) by (20, 15) to (21, 17) and on by (-8.8, 23.4) to (12.2, 40.4):
     both edges have length 25 and the signed area is 600, so both offsets
     are flipped. At half width 4 the offset lines meet at (25.8, 15.6),
     (4.8, -1.4) away from the joint, at distance 5. `Math.sqrt` need only
     be exact at the two squared lengths involved. */

  /** At half width 4 the witness corner takes the miter branch. */
  lemma NarrowCornerIsMiter(m: MathLib)
    requires FiniteLengths(m)
    requires m.sqrt(625.0) == 25.0 && m.sqrt(25.0) == 5.0
    ensures var j := PlanJoin(Point(1.0, 2.0), Point(21.0, 17.0), Point(12.2, 40.4), 4.0, m);
            j.intersection == Some(Point(25.8, 15.6)) && !j.bevel
  {
    WitnessArea();
    WitnessFirstOffset(m);
    WitnessSecondOffset(m);
    NarrowCornerLines();
    WitnessFirstLength(m);
    WitnessSecondLength(m);
    WitnessAnchorLength(m);
    FlippedMiter(Point(1.0, 2.0), Point(21.0, 17.0), Point(12.2, 40.4), 4.0, m, Point(25.8, 15.6));
  }

  lemma WitnessArea()
    ensures SignedArea(Point(1.0, 2.0), Point(21.0, 17.0), Point(12.2, 40.4)) == 600.0
  {
  }

  /** The first edge, (20, 15), has the normal (-15, 20); flipped and at
      half width 4 its offset is (2.4, -3.2). */
  lemma WitnessFirstOffset(m: MathLib)
    requires m.sqrt(625.0) == 25.0
    ensures Invert(EdgeOffset(Point(1.0, 2.0), Point(21.0, 17.0), 4.0, m)) == Point(2.4, -3.2)
  {
    assert Perpendicular(SubtractPoints(Point(21.0, 17.0), Point(1.0, 2.0))) == Point(-15.0, 20.0);
    WitnessNormal(Point(-15.0, 20.0), m);
  }

  /** The second edge, (-8.8, 23.4), has the normal (-23.4, -8.8); flipped
      and at half width 4 its offset is (3.744, 1.408). */
  lemma WitnessSecondOffset(m: MathLib)
    requires m.sqrt(625.0) == 25.0
    ensures Invert(EdgeOffset(Point(21.0, 17.0), Point(12.2, 40.4), 4.0, m)) == Point(3.744, 1.408)
  {
    assert Perpendicular(SubtractPoints(Point(12.2, 40.4), Point(21.0, 17.0))) == Point(-23.4, -8.8);
    WitnessNormal(Point(-23.4, -8.8), m);
  }

  /** A normal of squared length 625 normalizes to a twenty-fifth of itself. */
  lemma WitnessNormal(n: Point, m: MathLib)
    requires SquaredLength(n) == 625.0 && m.sqrt(625.0) == 25.0
    ensures Normalize(n, m) == Point(n.x / 25.0, n.y / 25.0)
  {
  }

  lemma WitnessFirstLength(m: MathLib)
    requires m.sqrt(625.0) == 25.0
    ensures ToLength(SubtractPoints(Point(1.0, 2.0), Point(21.0, 17.0)), m) == 25.0
  {
    assert SquaredLength(SubtractPoints(Point(1.0, 2.0), Point(21.0, 17.0))) == 625.0;
  }

  lemma WitnessSecondLength(m: MathLib)
    requires m.sqrt(625.0) == 25.0
    ensures ToLength(SubtractPoints(Point(21.0, 17.0), Point(12.2, 40.4)), m) == 25.0
  {
    assert SquaredLength(SubtractPoints(Point(21.0, 17.0), Point(12.2, 40.4))) == 625.0;
  }

  lemma WitnessAnchorLength(m: MathLib)
    requires m.sqrt(25.0) == 5.0
    ensures ToLength(SubtractPoints(Point(25.8, 15.6), Point(21.0, 17.0)), m) == 5.0
  {
    assert SquaredLength(SubtractPoints(Point(25.8, 15.6), Point(21.0, 17.0))) == 25.0;
  }

  /** The two offset lines meet at (25.8, 15.6). */
  lemma NarrowCornerLines()
    ensures LineIntersection(AddPoints(Point(2.4, -3.2), Point(1.0, 2.0)), AddPoints(Point(2.4, -3.2), Point(21.0, 17.0)),
                             AddPoints(Point(3.744, 1.408), Point(12.2, 40.4)), AddPoints(Point(3.744, 1.408), Point(21.0, 17.0)))
            == Some(Point(25.8, 15.6))
  {
    var e0 := LineThrough(Point(3.4, -1.2), Point(23.4, 13.8));
    var e1 := LineThrough(Point(15.944, 41.808), Point(24.744, 18.408));
    assert e0 == Equation(15.0, -20.0, 75.0);
    assert e1 == Equation(-23.4, -8.8, -741.0);
    assert Det(e0, e1) == -600.0;
    assert Solve(e0, e1) == Point(25.8, 15.6);
  }

  /** The bevel branch (lines 252-271): a quad on the first edge, a round
      cap around the joint from `p1 + t0` to `p1 + t2`, a quad on the second
      edge. */
  function BevelPoints(p0: Point, p1: Point, p2: Point, t0: Point, t2: Point, m: MathLib): seq<Point>
  {
    [AddPoints(p0, t0), SubtractPoints(p0, t0), AddPoints(p1, t0)]
    + [SubtractPoints(p0, t0), AddPoints(p1, t0), SubtractPoints(p1, t0)]
    + CapPoints(p1, AddPoints(p1, t0), AddPoints(p1, t2), p2, m)
    + [AddPoints(p2, t2), SubtractPoints(p1, t2), AddPoints(p1, t2)]
    + [AddPoints(p2, t2), SubtractPoints(p1, t2), SubtractPoints(p2, t2)]
  }

  /** The inner point of a miter: the intersection reflected through the
      joint, `p1 - (intersection - p1)`. */
  function InnerPoint(p1: Point, intersection: Point): (a: Point)
    ensures AddPoints(a, intersection) == AddPoints(p1, p1)
  {
    SubtractPoints(p1, SubtractPoints(intersection, p1))
  }

  /** The miter branch (lines 272-304): both quads meet at the inner point
      `a`; the outside of the corner is filled by the triangle
      `p1 + t0, p1, a`, a round cap and the triangle `p1, p1 + t2, a`. */
  function MiterPoints(p0: Point, p1: Point, p2: Point, t0: Point, t2: Point, a: Point, m: MathLib): seq<Point>
  {
    [AddPoints(p0, t0), SubtractPoints(p0, t0), a]
    + [AddPoints(p0, t0), a, AddPoints(p1, t0)]
    + [AddPoints(p1, t0), p1, a]
    + CapPoints(p1, AddPoints(p1, t0), AddPoints(p1, t2), a, m)
    + [p1, AddPoints(p1, t2), a]
    + [AddPoints(p2, t2), a, AddPoints(p1, t2)]
    + [AddPoints(p2, t2), a, SubtractPoints(p2, t2)]
  }

  /** Everything `buildTriangles(p0, p1, p2, width, vertices)` appends. */
  function JoinPoints(p0: Point, p1: Point, p2: Point, width: real, m: MathLib): seq<Point>
    requires FiniteLengths(m)
  {
    var j := PlanJoin(p0, p1, p2, width, m);
    if j.bevel then BevelPoints(p0, p1, p2, j.t0, j.t2, m)
    else MiterPoints(p0, p1, p2, j.t0, j.t2, InnerPoint(p1, j.intersection.value), m)
  }

  /** The size of the round cap a join builds around its joint. */
  function JoinCapSegments(p0: Point, p1: Point, p2: Point, width: real, m: MathLib): nat
    requires FiniteLengths(m)
  {
    var j := PlanJoin(p0, p1, p2, width, m);
    var next := if j.bevel then p2 else InnerPoint(p1, j.intersection.value);
    CapSegments(CapSweep(p1, AddPoints(p1, j.t0), AddPoints(p1, j.t2), next, m))
  }

  /** Whole triangles only, opening with the offsets `a + t` and `a - t` of
      the start, closing with `b + u` and `b - u` at the end, and `k` cap
      triangles from index `first` on, each fanned out from `center`. */
  ghost predicate JoinShaped(pts: seq<Point>, a: Point, t: Point, b: Point, u: Point, center: Point, first: nat, k: nat)
  {
    && |pts| % 3 == 0
    && first + 3 * k + 6 <= |pts|
    && pts[0] == AddPoints(a, t) && pts[1] == SubtractPoints(a, t)
    && pts[|pts| - 3] == AddPoints(b, u) && pts[|pts| - 1] == SubtractPoints(b, u)
    && (forall i :: first <= i < first + 3 * k && i % 3 == 0 ==> pts[i] == center)
  }

  /** Two runs of whole triangles around a fan: the fan keeps its place
      and the ends of the outer runs stay the ends of the whole. */
  lemma FramedFan(head: seq<Point>, cap: seq<Point>, tail: seq<Point>, center: Point)
    requires |head| % 3 == 0 && |head| >= 3 && |tail| % 3 == 0 && |tail| >= 3
    requires Fanned(cap, center)
    ensures var pts := head + cap + tail;
            && |pts| % 3 == 0
            && pts[0] == head[0] && pts[1] == head[1]
            && pts[|pts| - 3] == tail[|tail| - 3] && pts[|pts| - 1] == tail[|tail| - 1]
            && forall i :: |head| <= i < |head| + |cap| && i % 3 == 0 ==> pts[i] == center
  {
    var pts := head + cap + tail;
    forall i | |head| <= i < |head| + |cap| && i % 3 == 0
      ensures pts[i] == center
    {
      assert pts[i] == cap[i - |head|];
      assert (i - |head|) % 3 == 0;
    }
  }

  /** The shape of a bevel: 12 points around a cap fanned from `p1`. */
  lemma BevelShape(p0: Point, p1: Point, p2: Point, t0: Point, t2: Point, m: MathLib)
    ensures var k := CapSegments(CapSweep(p1, AddPoints(p1, t0), AddPoints(p1, t2), p2, m));
            |BevelPoints(p0, p1, p2, t0, t2, m)| == 12 + 3 * k &&
            JoinShaped(BevelPoints(p0, p1, p2, t0, t2, m), p0, t0, p2, t2, p1, 6, k)
  {
    var tri1 := [AddPoints(p0, t0), SubtractPoints(p0, t0), AddPoints(p1, t0)];
    var tri2 := [SubtractPoints(p0, t0), AddPoints(p1, t0), SubtractPoints(p1, t0)];
    var cap := CapPoints(p1, AddPoints(p1, t0), AddPoints(p1, t2), p2, m);
    var tri3 := [AddPoints(p2, t2), SubtractPoints(p1, t2), AddPoints(p1, t2)];
    var tri4 := [AddPoints(p2, t2), SubtractPoints(p1, t2), SubtractPoints(p2, t2)];
    AppendFive([], tri1, tri2, cap, tri3, tri4);
    var head, tail := tri1 + tri2, tri3 + tri4;
    CapPointsShape(p1, AddPoints(p1, t0), AddPoints(p1, t2), p2, m);
    FramedFan(head, cap, tail, p1);
  }

  /** The shape of a miter: 18 points, the cap after the first three
      triangles. */
  lemma MiterShape(p0: Point, p1: Point, p2: Point, t0: Point, t2: Point, a: Point, m: MathLib)
    ensures var k := CapSegments(CapSweep(p1, AddPoints(p1, t0), AddPoints(p1, t2), a, m));
            |MiterPoints(p0, p1, p2, t0, t2, a, m)| == 18 + 3 * k &&
            JoinShaped(MiterPoints(p0, p1, p2, t0, t2, a, m), p0, t0, p2, t2, p1, 9, k)
  {
    var tri1 := [AddPoints(p0, t0), SubtractPoints(p0, t0), a];
    var tri2 := [AddPoints(p0, t0), a, AddPoints(p1, t0)];
    var tri3 := [AddPoints(p1, t0), p1, a];
    var cap := CapPoints(p1, AddPoints(p1, t0), AddPoints(p1, t2), a, m);
    var tri4 := [p1, AddPoints(p1, t2), a];
    var tri5 := [AddPoints(p2, t2), a, AddPoints(p1, t2)];
    var tri6 := [AddPoints(p2, t2), a, SubtractPoints(p2, t2)];
    AppendSeven([], tri1, tri2, tri3, cap, tri4, tri5, tri6);
    var head, tail := tri1 + tri2 + tri3, tri4 + tri5 + tri6;
    CapPointsShape(p1, AddPoints(p1, t0), AddPoints(p1, t2), a, m);
    FramedFan(head, cap, tail, p1);
  }

  /** The shape of a join: whole triangles only (12 points plus the cap for
      a bevel, 18 plus the cap for a miter), starting with the first edge's
      offset points at `p0` and ending with the second edge's at `p2`, and
      every cap triangle fanned out from the joint. */
  lemma JoinShape(p0: Point, p1: Point, p2: Point, width: real, m: MathLib)
    requires FiniteLengths(m)
    ensures var j := PlanJoin(p0, p1, p2, width, m);
            var k := JoinCapSegments(p0, p1, p2, width, m);
            |JoinPoints(p0, p1, p2, width, m)| == (if j.bevel then 12 else 18) + 3 * k &&
            JoinShaped(JoinPoints(p0, p1, p2, width, m), p0, j.t0, p2, j.t2, p1, if j.bevel then 6 else 9, k)
  {
    var j := PlanJoin(p0, p1, p2, width, m);
    if j.bevel {
      assert JoinPoints(p0, p1, p2, width, m) == BevelPoints(p0, p1, p2, j.t0, j.t2, m);
      BevelShape(p0, p1, p2, j.t0, j.t2, m);
    } else {
      var a := InnerPoint(p1, j.intersection.value);
      assert JoinPoints(p0, p1, p2, width, m) == MiterPoints(p0, p1, p2, j.t0, j.t2, a, m);
      MiterShape(p0, p1, p2, j.t0, j.t2, a, m);
    }
  }

  /** A join is whole triangles, at least the twelve points of a bevel. */
  lemma JoinWhole(p0: Point, p1: Point, p2: Point, width: real, m: MathLib)
    requires FiniteLengths(m)
    ensures |JoinPoints(p0, p1, p2, width, m)| % 3 == 0
    ensures |JoinPoints(p0, p1, p2, width, m)| >= 12
  {
    JoinShape(p0, p1, p2, width, m);
  }

  /** A join opens with the first offset applied to `p0` either way and
      closes with the second offset applied to `p2`. */
  lemma JoinEnds(p0: Point, p1: Point, p2: Point, width: real, m: MathLib)
    requires FiniteLengths(m)
    ensures var pts := JoinPoints(p0, p1, p2, width, m);
            var j := PlanJoin(p0, p1, p2, width, m);
            && |pts| >= 12
            && pts[0] == AddPoints(p0, j.t0) && pts[1] == SubtractPoints(p0, j.t0)
            && pts[|pts| - 3] == AddPoints(p2, j.t2) && pts[|pts| - 1] == SubtractPoints(p2, j.t2)
  {
    JoinShape(p0, p1, p2, width, m);
  }

  /** Lines 213-252, step by step: the offsets, the intersection and the
      bevel test. */
  method MeasureJoin(p0: Point, p1: Point, p2: Point, width: real, m: MathLib)
    returns (t0: Point, t2: Point, pintersect: Option<Point>, bevel: bool)
    requires FiniteLengths(m)
    ensures Join(t0, t2, pintersect, bevel) == PlanJoin(p0, p1, p2, width, m)
  {
    t0 := SubtractPoints(p1, p0);
    t2 := SubtractPoints(p2, p1);
    t0 := Perpendicular(t0);
    t2 := Perpendicular(t2);
    if SignedArea(p0, p1, p2) > 0.0 {
      t0 := Invert(t0);
      t2 := Invert(t2);
    }
    t0 := Normalize(t0, m);
    t2 := Normalize(t2, m);
    t0 := MultiplyPoint(t0, width);
    t2 := MultiplyPoint(t2, width);
    pintersect := LineIntersection(AddPoints(t0, p0), AddPoints(t0, p1), AddPoints(t2, p2), AddPoints(t2, p1));
    var anchorLength := MAX_VALUE;
    if pintersect.Some? {
      var anchor := SubtractPoints(pintersect.value, p1);
      anchorLength := ToLength(anchor, m);
    }
    var p0p1 := SubtractPoints(p0, p1);
    var p0p1Length := ToLength(p0p1, m);
    var p1p2 := SubtractPoints(p1, p2);
    var p1p2Length := ToLength(p1p2, m);
    bevel := anchorLength > p0p1Length || anchorLength > p1p2Length;
  }

  /** `buildTriangles`, appending to the caller's list. */
  method BuildTriangles(p0: Point, p1: Point, p2: Point, width: real, m: MathLib, vertices: PointList)
    requires FiniteLengths(m)
    modifies vertices
    ensures vertices.items == old(vertices.items) + JoinPoints(p0, p1, p2, width, m)
  {
    var t0, t2, pintersect, bevel := MeasureJoin(p0, p1, p2, width, m);
    if bevel {
      PushBevel(p0, p1, p2, t0, t2, m, vertices);
    } else {
      // with no intersection the anchor length is `Number.MAX_VALUE`, which
      // under `FiniteLengths` is longer than any edge, so the miter branch
      // always has an anchor
      var anchor := SubtractPoints(pintersect.value, p1);
      PushMiter(p0, p1, p2, t0, t2, SubtractPoints(p1, anchor), m, vertices);
    }
  }

  /** Appending five runs one after the other appends them all at once. */
  lemma AppendFive(s: seq<Point>, t1: seq<Point>, t2: seq<Point>, cap: seq<Point>, t3: seq<Point>, t4: seq<Point>)
    ensures s + t1 + t2 + cap + t3 + t4 == s + (t1 + t2 + cap + t3 + t4)
    ensures t1 + t2 + cap + t3 + t4 == (t1 + t2) + cap + (t3 + t4)
  {
  }

  /** Appending seven runs one after the other appends them all at once. */
  lemma AppendSeven(s: seq<Point>, t1: seq<Point>, t2: seq<Point>, t3: seq<Point>, cap: seq<Point>, t4: seq<Point>, t5: seq<Point>, t6: seq<Point>)
    ensures s + t1 + t2 + t3 + cap + t4 + t5 + t6 == s + (t1 + t2 + t3 + cap + t4 + t5 + t6)
    ensures t1 + t2 + t3 + cap + t4 + t5 + t6 == (t1 + t2 + t3) + cap + (t4 + t5 + t6)
  {
  }

  /** Lines 254-270: the pushes of the bevel branch. */
  method PushBevel(p0: Point, p1: Point, p2: Point, t0: Point, t2: Point, m: MathLib, vertices: PointList)
    modifies vertices
    ensures vertices.items == old(vertices.items) + BevelPoints(p0, p1, p2, t0, t2, m)
  {
    ghost var s := vertices.items;
    PushTriangle(AddPoints(p0, t0), SubtractPoints(p0, t0), AddPoints(p1, t0), vertices);
    PushTriangle(SubtractPoints(p0, t0), AddPoints(p1, t0), SubtractPoints(p1, t0), vertices);
    BuildRoundCap(p1, AddPoints(p1, t0), AddPoints(p1, t2), p2, m, vertices);
    PushTriangle(AddPoints(p2, t2), SubtractPoints(p1, t2), AddPoints(p1, t2), vertices);
    PushTriangle(AddPoints(p2, t2), SubtractPoints(p1, t2), SubtractPoints(p2, t2), vertices);
    AppendFive(s, [AddPoints(p0, t0), SubtractPoints(p0, t0), AddPoints(p1, t0)],
                 [SubtractPoints(p0, t0), AddPoints(p1, t0), SubtractPoints(p1, t0)],
                 CapPoints(p1, AddPoints(p1, t0), AddPoints(p1, t2), p2, m),
                 [AddPoints(p2, t2), SubtractPoints(p1, t2), AddPoints(p1, t2)],
                 [AddPoints(p2, t2), SubtractPoints(p1, t2), SubtractPoints(p2, t2)]);
  }

  /** Lines 274-303: the pushes of the miter branch, with `a` the inner
      point `p1 - anchor`. */
  method PushMiter(p0: Point, p1: Point, p2: Point, t0: Point, t2: Point, a: Point, m: MathLib, vertices: PointList)
    modifies vertices
    ensures vertices.items == old(vertices.items) + MiterPoints(p0, p1, p2, t0, t2, a, m)
  {
    ghost var s := vertices.items;
    PushTriangle(AddPoints(p0, t0), SubtractPoints(p0, t0), a, vertices);
    PushTriangle(AddPoints(p0, t0), a, AddPoints(p1, t0), vertices);

    var p0' := AddPoints(p1, t0);
    var p1' := AddPoints(p1, t2);
    var p2' := a;
    var center := p1;

    PushTriangle(p0', center, p2', vertices);
    BuildRoundCap(center, p0', p1', p2', m, vertices);
    PushTriangle(center, p1', p2', vertices);

    PushTriangle(AddPoints(p2, t2), a, AddPoints(p1, t2), vertices);
    PushTriangle(AddPoints(p2, t2), a, SubtractPoints(p2, t2), vertices);
    AppendSeven(s, [AddPoints(p0, t0), SubtractPoints(p0, t0), a], [AddPoints(p0, t0), a, AddPoints(p1, t0)],
                 [p0', center, p2'], CapPoints(center, p0', p1', p2', m), [center, p1', p2'],
                 [AddPoints(p2, t2), a, AddPoints(p1, t2)], [AddPoints(p2, t2), a, SubtractPoints(p2, t2)]);
  }
}
