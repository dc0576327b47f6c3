/** Optional values: the `null` that `lineIntersection` returns for near-parallel lines. */
module Wrappers {
  datatype Option<+T> = None | Some(value: T)
}

/**
 * The vector helpers of the line builder: points as pairs of reals, the
 * perpendicular / invert / normalize / multiply / add / subtract helpers,
 * the signed area of a triangle and the intersection of two lines.
 *
 * `Math.sqrt`, `Math.atan2`, `Math.cos` and `Math.sin` are not interpreted:
 * they are passed around as a `MathLib` value, and every property proved
 * holds for any functions in their place unless a lemma states a premise.
 */
module Geometry {
  import opened Wrappers

  /** A point or a vector, the `{ x, y }` objects of the line builder. */
  datatype Point = Point(x: real, y: real)

  const Origin: Point := Point(0.0, 0.0)

  /** The tolerance of the intersection test and of the round-cap angle checks. */
  const EPSILON: real := 0.0001

  /** `Number.MAX_VALUE`, the largest finite double, written out exactly. */
  const MAX_VALUE: real := 179769313486231570814527423731704356798070567525844996598917476803157260780028538760589558632766878171540458953514382464234321326889464182768467546703537516986049910576551282076245490090389328944075868508455133942304583236903222948165808559332123348274797826204144723168738177180919299881250404026184124858368.0

  /** The host's transcendental functions, left uninterpreted. */
  datatype MathLib = MathLib(sqrt: real -> real, atan2: (real, real) -> real, cos: real -> real, sin: real -> real)

  /** Every length the builder computes is a finite, non-negative double
      (`Math.sqrt` of a number is never negative; overflow to `Infinity`
      and `NaN` are outside the model). */
  ghost predicate FiniteLengths(m: MathLib)
  {
    forall s :: 0.0 <= m.sqrt(s) < MAX_VALUE
  }

  function Dot(u: Point, v: Point): real
  {
    u.x * v.x + u.y * v.y
  }

  /** The z-component of the cross product: positive when `v` is turned
      counter-clockwise from `u` (in a y-up frame). */
  function Cross(u: Point, v: Point): real
  {
    u.x * v.y - u.y * v.x
  }

  function SquaredLength(v: Point): real
  {
    v.x * v.x + v.y * v.y
  }

  /** `perpendicular(x, y)`: the vector turned by a right angle. */
  function Perpendicular(v: Point): (r: Point)
    ensures Dot(v, r) == 0.0
    ensures SquaredLength(r) == SquaredLength(v)
    ensures Cross(v, r) == SquaredLength(v)
  {
    Point(-v.y, v.x)
  }

  /** `invert(x, y)`: the opposite vector. */
  function Invert(v: Point): (r: Point)
    ensures AddPoints(v, r) == Origin
    ensures SquaredLength(r) == SquaredLength(v)
  {
    Point(-v.x, -v.y)
  }

  /** `addPoints(p1, p2)`. */
  function AddPoints(p: Point, q: Point): Point
  {
    Point(p.x + q.x, p.y + q.y)
  }

  /** `subtractPoints(p1, p2)`: the vector that leads from `q` to `p`. */
  function SubtractPoints(p: Point, q: Point): (r: Point)
    ensures AddPoints(q, r) == p
  {
    Point(p.x - q.x, p.y - q.y)
  }

  /** Adding and subtracting the same point undo each other, in either
      order. */
  lemma AddSubtract(p: Point, q: Point)
    ensures SubtractPoints(AddPoints(p, q), q) == p
    ensures AddPoints(q, SubtractPoints(p, q)) == p
    ensures AddPoints(p, q) == AddPoints(q, p)
  {
  }

  /** `multiplyPoint(x, y, times)`: scaling keeps the direction line and
      scales the length by `|times|`. */
  function MultiplyPoint(v: Point, times: real): (r: Point)
    ensures Cross(v, r) == 0.0
    ensures Dot(v, r) == times * SquaredLength(v)
    ensures SquaredLength(r) == times * times * SquaredLength(v)
  {
    Point(v.x * times, v.y * times)
  }

  /** `toLength(x, y)`. */
  function ToLength(v: Point, m: MathLib): real
  {
    m.sqrt(SquaredLength(v))
  }

  /** `normalize(x, y)`: divides by the length, and returns the zero vector
      instead of dividing by a zero length. */
  function Normalize(v: Point, m: MathLib): (r: Point)
    ensures ToLength(v, m) == 0.0 ==> r == Origin
    ensures v == Origin ==> r == Origin
    ensures Cross(v, r) == 0.0
  {
    var mod := ToLength(v, m);
    if mod == 0.0 then Origin
    else
      assert Cross(v, Point(v.x / mod, v.y / mod)) == (v.x * v.y - v.y * v.x) / mod;
      Point(v.x / mod, v.y / mod)
  }

  /** Where `Math.sqrt` returns the true square root, a non-zero vector
      normalizes to a unit vector pointing the same way. */
  lemma NormalizeUnit(v: Point, m: MathLib)
    requires SquaredLength(v) > 0.0
    requires m.sqrt(SquaredLength(v)) >= 0.0
    requires m.sqrt(SquaredLength(v)) * m.sqrt(SquaredLength(v)) == SquaredLength(v)
    ensures SquaredLength(Normalize(v, m)) == 1.0
    ensures Dot(v, Normalize(v, m)) > 0.0
  {
    var s := SquaredLength(v);
    var mod := m.sqrt(s);
    assert mod != 0.0;
    assert mod > 0.0;
    var r := Normalize(v, m);
    assert r == Point(v.x / mod, v.y / mod);
    assert SquaredLength(r) == s / (mod * mod);
    assert s / (mod * mod) == s / s;
    assert s / s == 1.0;
    assert Dot(v, r) == s / mod;
  }

  /** Inverting before normalizing is inverting after it. */
  lemma NormalizeInvert(v: Point, m: MathLib)
    ensures Normalize(Invert(v), m) == Invert(Normalize(v, m))
  {
    assert (-v.x) * (-v.x) + (-v.y) * (-v.y) == v.x * v.x + v.y * v.y;
  }

  /** `signedArea(p0, p1, p2)`: twice the signed area of the triangle, which
      is the cross product of the two consecutive edges, i.e. the direction
      in which the path turns at `p1`. */
  function SignedArea(p0: Point, p1: Point, p2: Point): (a: real)
    ensures a == Cross(SubtractPoints(p1, p0), SubtractPoints(p2, p1))
  {
    ((p1.x - p0.x) * (p2.y - p0.y)) - ((p2.x - p0.x) * (p1.y - p0.y))
  }

  /** Swapping the last two points reverses the orientation; rotating the
      three points keeps it. */
  lemma SignedAreaSwap(p0: Point, p1: Point, p2: Point)
    ensures SignedArea(p0, p2, p1) == -SignedArea(p0, p1, p2)
    ensures SignedArea(p1, p2, p0) == SignedArea(p0, p1, p2)
  {
  }

  /** `q` lies on the infinite line through `a` and `b`. */
  ghost predicate OnLine(q: Point, a: Point, b: Point)
  {
    Cross(SubtractPoints(b, a), SubtractPoints(q, a)) == 0.0
  }

  /** A line as the equation `a*x + b*y == c`. */
  datatype Equation = Equation(a: real, b: real, c: real)

  /** The equation `lineIntersection` sets up for the line through `p` and
      `p'`. */
  function LineThrough(p: Point, p': Point): Equation
  {
    var a := p'.y - p.y;
    var b := p.x - p'.x;
    Equation(a, b, (a * p.x) + (b * p.y))
  }

  predicate Satisfies(q: Point, e: Equation)
  {
    e.a * q.x + e.b * q.y == e.c
  }

  /** The points that satisfy the equation of the line through `p` and `p'`
      are exactly the points on it. */
  lemma SatisfiesOnLine(q: Point, p: Point, p': Point)
    ensures Satisfies(q, LineThrough(p, p')) <==> OnLine(q, p, p')
  {
    var e := LineThrough(p, p');
    assert Cross(SubtractPoints(p', p), SubtractPoints(q, p)) == -e.b * (q.y - p.y) - e.a * (q.x - p.x);
    assert -e.b * (q.y - p.y) - e.a * (q.x - p.x) == e.c - (e.a * q.x + e.b * q.y);
  }

  /** The determinant of a system of two line equations. */
  function Det(e0: Equation, e1: Equation): real
  {
    (e0.a * e1.b) - (e1.a * e0.b)
  }

  /** The determinant `lineIntersection` computes for the line through
      `p0`, `p1` and the line through `p2`, `p3`. */
  function Determinant(p0: Point, p1: Point, p2: Point, p3: Point): real
  {
    Det(LineThrough(p0, p1), LineThrough(p2, p3))
  }

  /** The solution of two line equations by Cramer's rule, as the last lines
      of `lineIntersection` compute it. */
  function Solve(e0: Equation, e1: Equation): Point
    requires Det(e0, e1) != 0.0
  {
    var det := Det(e0, e1);
    Point(((e1.b * e0.c) - (e0.b * e1.c)) / det, ((e0.a * e1.c) - (e1.a * e0.c)) / det)
  }

  /** Cramer's rule solves a two-by-two system with a non-zero determinant. */
  lemma Cramer(e0: Equation, e1: Equation)
    requires Det(e0, e1) != 0.0
    ensures Satisfies(Solve(e0, e1), e0) && Satisfies(Solve(e0, e1), e1)
  {
    var det := Det(e0, e1);
    var nx := e1.b * e0.c - e0.b * e1.c;
    var ny := e0.a * e1.c - e1.a * e0.c;
    CramerRow(e0.a, e0.b, e0.c, e1.a, e1.b, e1.c);
    CramerRow(e1.b, e1.a, e1.c, e0.b, e0.a, e0.c);
    assert e1.a * nx + e1.b * ny == e1.c * det;
    ScaledRow(e0.a, e0.b, nx, ny, det, e0.c);
    ScaledRow(e1.a, e1.b, nx, ny, det, e1.c);
  }

  /** The numerators of Cramer's rule satisfy the first equation, scaled by
      the determinant. */
  lemma CramerRow(a0: real, b0: real, c0: real, a1: real, b1: real, c1: real)
    ensures a0 * (b1 * c0 - b0 * c1) + b0 * (a0 * c1 - a1 * c0) == c0 * (a0 * b1 - a1 * b0)
  {
    assert a0 * (b1 * c0 - b0 * c1) == a0 * b1 * c0 - a0 * b0 * c1;
    assert b0 * (a0 * c1 - a1 * c0) == a0 * b0 * c1 - a1 * b0 * c0;
  }

  /** Dividing both numerators by the determinant divides the sum by it. */
  lemma ScaledRow(a: real, b: real, nx: real, ny: real, det: real, c: real)
    requires det != 0.0
    requires a * nx + b * ny == c * det
    ensures a * (nx / det) + b * (ny / det) == c
  {
    assert a * (nx / det) + b * (ny / det) == (a * nx + b * ny) / det;
  }

  /** With a non-zero determinant the solution is the only one. */
  lemma SolveUnique(e0: Equation, e1: Equation, q: Point)
    requires Det(e0, e1) != 0.0
    requires Satisfies(q, e0) && Satisfies(q, e1)
    ensures q == Solve(e0, e1)
  {
    var r := Solve(e0, e1);
    Cramer(e0, e1);
    var det := Det(e0, e1);
    var dx := q.x - r.x;
    var dy := q.y - r.y;
    // the difference of two solutions solves the homogeneous system
    assert e0.a * dx + e0.b * dy == 0.0;
    assert e1.a * dx + e1.b * dy == 0.0;
    assert det * dx == e1.b * (e0.a * dx + e0.b * dy) - e0.b * (e1.a * dx + e1.b * dy);
    assert det * dy == e0.a * (e1.a * dx + e1.b * dy) - e1.a * (e0.a * dx + e0.b * dy);
  }

  /** `lineIntersection(p0, p1, p2, p3)`: the crossing point of the line
      through `p0`, `p1` with the line through `p2`, `p3`, or `None` when the
      determinant lies strictly between `-EPSILON` and `EPSILON`. */
  function LineIntersection(p0: Point, p1: Point, p2: Point, p3: Point): (r: Option<Point>)
    ensures r.None? <==> -EPSILON < Determinant(p0, p1, p2, p3) < EPSILON
    ensures r.Some? ==> Satisfies(r.value, LineThrough(p0, p1)) && Satisfies(r.value, LineThrough(p2, p3))
  {
    var e0 := LineThrough(p0, p1);
    var e1 := LineThrough(p2, p3);
    var det := Det(e0, e1);
    if det > -EPSILON && det < EPSILON then None
    else
      Cramer(e0, e1);
      Some(Solve(e0, e1))
  }

  /** The point returned lies on both lines. */
  lemma IntersectionOnLines(p0: Point, p1: Point, p2: Point, p3: Point)
    ensures var r := LineIntersection(p0, p1, p2, p3);
            r.Some? ==> OnLine(r.value, p0, p1) && OnLine(r.value, p2, p3)
  {
    var r := LineIntersection(p0, p1, p2, p3);
    if r.Some? {
      SatisfiesOnLine(r.value, p0, p1);
      SatisfiesOnLine(r.value, p2, p3);
    }
  }

  /** The point returned is the only point on both lines. */
  lemma IntersectionUnique(p0: Point, p1: Point, p2: Point, p3: Point, q: Point)
    requires LineIntersection(p0, p1, p2, p3).Some?
    requires OnLine(q, p0, p1) && OnLine(q, p2, p3)
    ensures q == LineIntersection(p0, p1, p2, p3).value
  {
    SatisfiesOnLine(q, p0, p1);
    SatisfiesOnLine(q, p2, p3);
    SolveUnique(LineThrough(p0, p1), LineThrough(p2, p3), q);
  }
}
