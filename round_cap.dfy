/**
 * `buildRoundCap`: a fan of triangles around a centre that closes the gap
 * between two points at the same distance from it. The arc coordinates
 * depend on `Math.cos` / `Math.sin` and are not interpreted; what is proved
 * is the number of triangles and the shape of the fan.
 */
module RoundCap {
  import opened Geometry
  import opened Buffers

  /** `Math.PI` as a double, written out exactly. */
  const PI: real := 3.141592653589793115997963468544185161590576171875

  const TWO_POW_31: int := 0x8000_0000
  const TWO_POW_32: int := 0x1_0000_0000

  function Abs(x: real): real
  {
    if x < 0.0 then -x else x
  }

  /** Rounding toward zero. */
  function Truncate(x: real): int
  {
    if x >= 0.0 then x.Floor else -((-x).Floor)
  }

  /** Truncation drops the fractional part, toward zero on either side. */
  lemma TruncateBounds(x: real)
    ensures 0.0 <= x ==> Truncate(x) as real <= x < Truncate(x) as real + 1.0
    ensures x < 0.0 ==> Truncate(x) as real - 1.0 < x <= Truncate(x) as real
  {
  }

  /** The ToInt32 conversion of ECMAScript (section 7.1.6 of ECMA-262) on a
      finite number, which is what `x >> 0` computes: truncate, then wrap
      into the signed 32-bit range. */
  function ToInt32(x: real): (r: int)
    ensures -TWO_POW_31 <= r < TWO_POW_31
    ensures (r - Truncate(x)) % TWO_POW_32 == 0
  {
    var w := Truncate(x) % TWO_POW_32;
    if w >= TWO_POW_31 then w - TWO_POW_32 else w
  }

  /** Below 2^31 a non-negative number converts to its floor. */
  lemma ToInt32Small(x: real)
    requires 0.0 <= x < TWO_POW_31 as real
    ensures ToInt32(x) == x.Floor
  {
    TruncateBounds(x);
    assert 0 <= Truncate(x) < TWO_POW_31;
  }

  /** The polar angle of `p` seen from `center`, by `Math.atan2`. */
  function PolarAngle(center: Point, p: Point, m: MathLib): real
  {
    m.atan2(p.y - center.y, p.x - center.x)
  }

  /** The angular difference `angle1 - angle0` after one of the two angles
      has been moved by a full turn when they are at least half a turn
      (less `EPSILON`) apart. It differs from `angle1 - angle0` by at most one
      full turn. */
  function UnwrappedDiff(angle0: real, angle1: real): (d: real)
    ensures d == angle1 - angle0 || d == angle1 - angle0 - 2.0 * PI || d == angle1 - angle0 + 2.0 * PI
  {
    if angle1 > angle0 then
      if angle1 - angle0 >= PI - EPSILON then (angle1 - 2.0 * PI) - angle0 else angle1 - angle0
    else if angle0 - angle1 >= PI - EPSILON then angle1 - (angle0 - 2.0 * PI)
    else angle1 - angle0
  }

  /** For two angles in the range of `Math.atan2`, the sweep never exceeds
      half a turn (plus `EPSILON`). */
  lemma UnwrappedDiffBounded(angle0: real, angle1: real)
    requires -PI <= angle0 <= PI && -PI <= angle1 <= PI
    ensures Abs(UnwrappedDiff(angle0, angle1)) <= PI + EPSILON
  {
  }

  /** The sweep is within `EPSILON` of half a turn, where its direction is
      ambiguous. */
  predicate NearHalfTurn(d: real)
  {
    Abs(d) >= PI - EPSILON && Abs(d) <= PI + EPSILON
  }

  /** The tie-break of a near half turn: reverse the sweep when the
      reference point lies on the side selected by the sign of `r1.x`. */
  predicate ReverseHalfTurn(center: Point, nextPointInLine: Point)
  {
    var r1 := SubtractPoints(center, nextPointInLine);
    if r1.x == 0.0 then r1.y > 0.0 else r1.x >= -EPSILON
  }

  /** The radius, start angle and signed angular sweep of a round cap. */
  datatype Sweep = Sweep(radius: real, start: real, diff: real)

  /** Lines 309-346 of `buildRoundCap`: the cap turns from the polar angle of
      `p1` toward that of `p0`, the near-half-turn case reversed by the
      tie-break. */
  function CapSweep(center: Point, p0: Point, p1: Point, nextPointInLine: Point, m: MathLib): (s: Sweep)
    ensures s.radius == ToLength(SubtractPoints(center, p0), m)
    ensures s.start == PolarAngle(center, p1, m)
    ensures Abs(s.diff) == Abs(UnwrappedDiff(PolarAngle(center, p1, m), PolarAngle(center, p0, m)))
    ensures !NearHalfTurn(UnwrappedDiff(PolarAngle(center, p1, m), PolarAngle(center, p0, m))) ==>
              s.diff == UnwrappedDiff(PolarAngle(center, p1, m), PolarAngle(center, p0, m))
  {
    var angle0 := PolarAngle(center, p1, m);
    var d := UnwrappedDiff(angle0, PolarAngle(center, p0, m));
    var diff := if NearHalfTurn(d) && ReverseHalfTurn(center, nextPointInLine) then -d else d;
    Sweep(ToLength(SubtractPoints(center, p0), m), angle0, diff)
  }

  /** The signed length of the arc, `angleDiff * radius`. */
  function ArcLength(s: Sweep): real
  {
    s.diff * s.radius
  }

  /** `nsegments`: the integer part of the arc length, plus one. */
  function Segments(s: Sweep): int
  {
    ToInt32(Abs(ArcLength(s))) + 1
  }

  /** While the arc length stays below 2^31 the cap has
      `floor(|sweep * radius|) + 1 >= 1` triangles. */
  lemma SegmentsInRange(s: Sweep)
    requires Abs(ArcLength(s)) < TWO_POW_31 as real
    ensures Segments(s) == Abs(ArcLength(s)).Floor + 1
    ensures Segments(s) >= 1
  {
    ToInt32Small(Abs(ArcLength(s)));
  }

  /** There is no upper bound on the number of triangles: a sweep of one
      radian with radius `k` gives `k + 1` of them. */
  lemma SegmentsUnbounded(k: nat)
    requires k < TWO_POW_31
    ensures Segments(Sweep(k as real, 0.0, 1.0)) == k + 1
  {
    assert ArcLength(Sweep(k as real, 0.0, 1.0)) == k as real;
    ToInt32Small(k as real);
  }

  /** The `i`-th point of the arc. */
  function ArcPoint(center: Point, radius: real, start: real, inc: real, i: int, m: MathLib): Point
  {
    Point(center.x + (radius * m.cos(start + (inc * i as real))),
          center.y + (radius * m.sin(start + (inc * i as real))))
  }

  /** The first `n` triangles of the fan: `center`, arc point `i`, arc point
      `i + 1` for each `i < n`. */
  function Fan(center: Point, radius: real, start: real, inc: real, n: nat, m: MathLib): seq<Point>
  {
    if n == 0 then []
    else Fan(center, radius, start, inc, n - 1, m)
         + [center, ArcPoint(center, radius, start, inc, n - 1, m), ArcPoint(center, radius, start, inc, n, m)]
  }

  /** One more round of the loop of lines 354-365, as an unfolding of
      `Fan`: it appends the centre, arc point `n` and arc point `n + 1`. */
  lemma FanStep(center: Point, radius: real, start: real, inc: real, n: nat, m: MathLib)
    ensures Fan(center, radius, start, inc, n + 1, m) ==
            Fan(center, radius, start, inc, n, m) + [center, ArcPoint(center, radius, start, inc, n, m), ArcPoint(center, radius, start, inc, n + 1, m)]
  {
  }

  /** The fan has three points per triangle; every triangle starts at the
      centre, and triangle `i` spans arc points `i` and `i + 1`, so
      consecutive triangles share an edge. */
  lemma {:induction false} FanShape(center: Point, radius: real, start: real, inc: real, n: nat, m: MathLib)
    ensures |Fan(center, radius, start, inc, n, m)| == 3 * n
    ensures forall i :: 0 <= i < 3 * n ==>
              Fan(center, radius, start, inc, n, m)[i] ==
                if i % 3 == 0 then center
                else if i % 3 == 1 then ArcPoint(center, radius, start, inc, i / 3, m)
                else ArcPoint(center, radius, start, inc, i / 3 + 1, m)
  {
    if n > 0 {
      FanShape(center, radius, start, inc, n - 1, m);
      var f := Fan(center, radius, start, inc, n, m);
      var g := Fan(center, radius, start, inc, n - 1, m);
      assert f == g + [center, ArcPoint(center, radius, start, inc, n - 1, m), ArcPoint(center, radius, start, inc, n, m)];
      forall i | 3 * (n - 1) <= i < 3 * n
        ensures i / 3 == n - 1 && i % 3 == i - 3 * (n - 1)
      {
      }
    }
  }

  /** The number of triangles `buildRoundCap` emits: its loop runs
      `nsegments` times, and not at all when the conversion wrapped to a
      negative count. */
  function CapSegments(s: Sweep): nat
  {
    if Segments(s) > 0 then Segments(s) else 0
  }

  /** The angle step between consecutive arc points (unused when the loop
      does not run). */
  function AngleStep(s: Sweep): real
  {
    if Segments(s) == 0 then 0.0 else s.diff / Segments(s) as real
  }

  /** The points `buildRoundCap` appends. */
  function CapPoints(center: Point, p0: Point, p1: Point, nextPointInLine: Point, m: MathLib): seq<Point>
  {
    var s := CapSweep(center, p0, p1, nextPointInLine, m);
    Fan(center, s.radius, s.start, AngleStep(s), CapSegments(s), m)
  }

  lemma CapPointsUnfold(center: Point, p0: Point, p1: Point, nextPointInLine: Point, m: MathLib)
    ensures var s := CapSweep(center, p0, p1, nextPointInLine, m);
            CapPoints(center, p0, p1, nextPointInLine, m) == Fan(center, s.radius, s.start, AngleStep(s), CapSegments(s), m)
  {
  }

  /** A run of whole triangles, each fanned out from `center`. */
  ghost predicate Fanned(run: seq<Point>, center: Point)
  {
    |run| % 3 == 0 && forall i :: 0 <= i < |run| && i % 3 == 0 ==> run[i] == center
  }

  /** A round cap appends three points per triangle, each triangle starting
      with a copy of the centre. */
  lemma CapPointsShape(center: Point, p0: Point, p1: Point, nextPointInLine: Point, m: MathLib)
    ensures |CapPoints(center, p0, p1, nextPointInLine, m)| == 3 * CapSegments(CapSweep(center, p0, p1, nextPointInLine, m))
    ensures Fanned(CapPoints(center, p0, p1, nextPointInLine, m), center)
  {
    var s := CapSweep(center, p0, p1, nextPointInLine, m);
    FanShape(center, s.radius, s.start, AngleStep(s), CapSegments(s), m);
  }

  /** Lines 309-346 of `buildRoundCap`, step by step: the radius, the
      start angle and the sweep of the cap. */
  method MeasureCap(center: Point, p0: Point, p1: Point, nextPointInLine: Point, m: MathLib)
    returns (radius: real, originalAngle0: real, angleDiff: real)
    ensures Sweep(radius, originalAngle0, angleDiff) == CapSweep(center, p0, p1, nextPointInLine, m)
  {
    var outerRadiusPoint := SubtractPoints(center, p0);
    radius := ToLength(outerRadiusPoint, m);
    var angle0 := m.atan2(p1.y - center.y, p1.x - center.x);
    var angle1 := m.atan2(p0.y - center.y, p0.x - center.x);
    originalAngle0 := angle0;
    if angle1 > angle0 {
      if angle1 - angle0 >= PI - EPSILON {
        angle1 := angle1 - (2.0 * PI);
      }
    } else if angle0 - angle1 >= PI - EPSILON {
      angle0 := angle0 - (2.0 * PI);
    }
    angleDiff := angle1 - angle0;
    if Abs(angleDiff) >= PI - EPSILON && Abs(angleDiff) <= PI + EPSILON {
      var r1 := SubtractPoints(center, nextPointInLine);
      if r1.x == 0.0 {
        if r1.y > 0.0 {
          angleDiff := -angleDiff;
        }
      } else if r1.x >= -EPSILON {
        angleDiff := -angleDiff;
      }
    }
  }

  /** Lines 348-352: the number of triangles and the angle between them. */
  method CountSegments(radius: real, originalAngle0: real, angleDiff: real) returns (nsegments: int, angleInc: real)
    ensures nsegments == Segments(Sweep(radius, originalAngle0, angleDiff))
    ensures angleInc == AngleStep(Sweep(radius, originalAngle0, angleDiff))
  {
    assert ArcLength(Sweep(radius, originalAngle0, angleDiff)) == angleDiff * radius;
    nsegments := ToInt32(Abs(angleDiff * radius));
    nsegments := nsegments + 1;
    angleInc := if nsegments == 0 then 0.0 else angleDiff / nsegments as real;
  }

  /** `buildRoundCap(center, _p0, _p1, nextPointInLine, vertices)`. */
  method BuildRoundCap(center: Point, p0: Point, p1: Point, nextPointInLine: Point, m: MathLib, vertices: PointList)
    modifies vertices
    ensures vertices.items == old(vertices.items) + CapPoints(center, p0, p1, nextPointInLine, m)
  {
    var radius, originalAngle0, angleDiff := MeasureCap(center, p0, p1, nextPointInLine, m);
    var nsegments, angleInc := CountSegments(radius, originalAngle0, angleDiff);
    CapPointsUnfold(center, p0, p1, nextPointInLine, m);
    PushFan(center, radius, originalAngle0, angleInc, nsegments, m, vertices);
  }

  /** Lines 354-365: the loop that pushes the triangles of the fan. */
  method PushFan(center: Point, radius: real, originalAngle0: real, angleInc: real, nsegments: int, m: MathLib, vertices: PointList)
    modifies vertices
    ensures vertices.items == old(vertices.items) + Fan(center, radius, originalAngle0, angleInc, if nsegments > 0 then nsegments else 0, m)
  {
    ghost var before := vertices.items;
    var i := 0;
    while i < nsegments
      invariant 0 <= i <= (if nsegments > 0 then nsegments else 0)
      invariant vertices.items == before + Fan(center, radius, originalAngle0, angleInc, i, m)
    {
      ghost var f := Fan(center, radius, originalAngle0, angleInc, i, m);
      PushTriangle(Point(center.x, center.y),
                   ArcPoint(center, radius, originalAngle0, angleInc, i, m),
                   ArcPoint(center, radius, originalAngle0, angleInc, i + 1, m), vertices);
      FanStep(center, radius, originalAngle0, angleInc, i, m);
      AppendAssoc(before, f, [center, ArcPoint(center, radius, originalAngle0, angleInc, i, m), ArcPoint(center, radius, originalAngle0, angleInc, i + 1, m)]);
      i := i + 1;
    }
  }
}
