# A model of pixi.js's line builder

pixi.js draws a stroked polyline by turning its flat coordinate list
`[x0, y0, x1, y1, ...]` into geometry for WebGL. The module
`src/core/graphics/webgl/utils/buildLine.js` has two modes.

- **Native mode.** Each segment of the path is written as its two end
  points, to be drawn with `gl.LINES`.
- **Polygon mode** (the default). The path is first rewritten when it is
  closed. It is then cut at the midpoints of its segments. At every
  interior point `buildTriangles` emits a *join*: two quads that follow
  the edges, plus a round cap around the joint. The join is either a
  *bevel* or, when the offset edges meet close enough to the joint, a
  *miter*. Round caps are added at both ends of the line. Each vertex is
  written as six numbers: x, y, then the colour premultiplied by the
  alpha, then the alpha. One index is written per vertex.

The model is written in Dafny over exact `real` numbers.

- The local vertex lists (`PointList`) and the caller's WebGL buffers
  (`WebGLData`) are classes whose methods append.
- The caller's coordinate list is an `array<real>`.
- Each imperative function of the source is a method with its loops. Its
  postcondition ties the new buffer contents to a specification function.
  The specification functions are pure: `ClosedPath`, `MiddlePoints`,
  `PlanJoin`, `JoinPoints`, `CapPoints`, `Body`, `Stroke`, `NativeData`
  and `VertexData`.
- The lemmas about those functions state what the builder promises:
  - vertex counts, and whole triangles only;
  - bevel versus miter, and the flip of the offsets;
  - the fan shape of each cap;
  - the buffer layout and the indices.

`Math.sqrt`, `Math.atan2`, `Math.cos` and `Math.sin` are left
uninterpreted. They are fields of a `MathLib` value passed to every
operation. Most lemmas hold for any functions in their place. Some rely
on the premise `FiniteLengths`: every length is a non-negative number
below `Number.MAX_VALUE`. Where a lemma needs `Math.sqrt` to be the exact
square root, it says so in its `requires`.

Modules:

- `Geometry`: the vector helpers, `signedArea` and `lineIntersection`.
- `Buffers`: the appendable lists and the vertex-data layout.
- `RoundCap`: `buildRoundCap`.
- `Joins`: `buildTriangles`.
- `Stroke`: the polygon-mode `buildLine`.
- `NativeLine`: `buildNativeLine`.
- `LineBuilder`: the exported dispatcher.

Four behaviours of the code that a reader might not expect:

- **Straight corners are always bevels.** The determinant the
  intersection test computes for the two offset lines is, in exact
  arithmetic, minus the signed area of the corner (`Joins.OffsetLinesDeterminant`). So a
  nearly straight corner, with `|signedArea| < EPSILON`, never finds an
  intersection and always takes the bevel branch
  (`Joins.StraightJoinIsBevel`). This covers the join a two-point line
  builds at its own midpoint: a two-point line is a bevel join plus two
  caps, not a single quad.
- **No limit on cap triangles.** The number of triangles in a round cap
  is `floor(|angleDiff * radius|) + 1` with no upper bound
  (`RoundCap.SegmentsUnbounded`).
- **Indices start at 0.** They run from 0 for every call, with no offset
  by the vertices already in the buffer.
- **Both caps are always built.** There is no cap-style switch: a round
  cap is added at both ends of every polygon-mode line.

## Model

| member | source | states |
|---|---|---|
| Geometry.Perpendicular | src/core/graphics/webgl/utils/buildLine.js:167-170 | the result is orthogonal to the input, as long, and turned counter-clockwise from it |
| Geometry.Invert | src/core/graphics/webgl/utils/buildLine.js:172-175 | the result added to the input gives the zero vector, and it has the same length |
| Geometry.SubtractPoints | src/core/graphics/webgl/utils/buildLine.js:204-207 | the difference is the vector that leads from the second point to the first |
| Geometry.AddPoints | src/core/graphics/webgl/utils/buildLine.js:199-202 | builds the coordinate-wise sum of two points; Geometry.AddSubtract states that subtracting the second point undoes it |
| Geometry.AddSubtract | src/core/graphics/webgl/utils/buildLine.js:199-207 | adding q and then subtracting q gives back p, subtracting q and then adding it gives back p, and the sum does not depend on the order |
| Geometry.ToLength | src/core/graphics/webgl/utils/buildLine.js:189-192 | builds the length of a vector as the host square root of x*x + y*y |
| Geometry.MultiplyPoint | src/core/graphics/webgl/utils/buildLine.js:194-197 | scaling keeps the vector on its line and scales its length by the factor |
| Geometry.Normalize | src/core/graphics/webgl/utils/buildLine.js:177-187 | a zero length (in particular the zero vector) gives (0, 0); otherwise the result stays on the input's line |
| Geometry.NormalizeUnit | src/core/graphics/webgl/utils/buildLine.js:177-192 | with an exact square root, a non-zero vector normalizes to a unit vector in the same direction |
| Geometry.NormalizeInvert | src/core/graphics/webgl/utils/buildLine.js:224-229 | inverting before normalizing equals inverting after it |
| Geometry.SignedArea | src/core/graphics/webgl/utils/buildLine.js:368-371 | the signed area is the cross product of the two consecutive edges |
| Geometry.SignedAreaSwap | src/core/graphics/webgl/utils/buildLine.js:368-371 | swapping p1 and p2 negates the signed area; rotating the three points keeps it |
| Geometry.LineThrough | src/core/graphics/webgl/utils/buildLine.js:375-389 | builds the coefficients of the line through two points: a = p1.y - p0.y, b = p0.x - p1.x and c = a*p0.x + b*p0.y |
| Geometry.Det | src/core/graphics/webgl/utils/buildLine.js:381 | builds the determinant a0*b1 - a1*b0 of two line equations |
| Geometry.Determinant | src/core/graphics/webgl/utils/buildLine.js:381 | builds the determinant a0*b1 - a1*b0 of the line through p0, p1 and the line through p2, p3 |
| Geometry.Solve | src/core/graphics/webgl/utils/buildLine.js:390-392 | builds the point Cramer's rule gives for two line equations whose determinant is not zero |
| Geometry.SatisfiesOnLine | src/core/graphics/webgl/utils/buildLine.js:375-389 | a point satisfies the equation set up for a line iff it lies on that line |
| Geometry.Cramer | src/core/graphics/webgl/utils/buildLine.js:388-394 | with a non-zero determinant, Cramer's solution satisfies both equations |
| Geometry.SolveUnique | src/core/graphics/webgl/utils/buildLine.js:388-394 | with a non-zero determinant, any point satisfying both equations is Cramer's solution |
| Geometry.LineIntersection | src/core/graphics/webgl/utils/buildLine.js:373-395 | the result is null iff -EPSILON < det < EPSILON; otherwise it satisfies a0*x + b0*y = c0 and a1*x + b1*y = c1 |
| Geometry.IntersectionOnLines | src/core/graphics/webgl/utils/buildLine.js:373-395 | a returned point lies on both lines |
| Geometry.IntersectionUnique | src/core/graphics/webgl/utils/buildLine.js:373-395 | a returned point is the only point on both lines |
| Buffers.PointList.constructor | src/core/graphics/webgl/utils/buildLine.js:92-93 | a new local list is empty |
| Buffers.PointList.Push | src/core/graphics/webgl/utils/buildLine.js:254-256 | push appends exactly the one point |
| Buffers.WebGLData.PushVertex | src/core/graphics/webgl/utils/buildLine.js:155-156 | one vertex appends its six numbers and leaves the indices alone |
| Buffers.WebGLData.PushIndex | src/core/graphics/webgl/utils/buildLine.js:163 | one index is appended and the vertex numbers are left alone |
| Buffers.Attributes | src/core/graphics/webgl/utils/buildLine.js:86-90 | four numbers ending in the alpha; at alpha 1 they are the colour itself, at alpha 0 all zero |
| Buffers.VertexData | src/core/graphics/webgl/utils/buildLine.js:153-158 | builds the numbers the loop writes for a list of vertices: x and y, then the four colour numbers, vertex after vertex |
| Buffers.PushTriangle | src/core/graphics/webgl/utils/buildLine.js:254-256 | three pushes append the triangle's three points in order |
| Buffers.VertexDataLayout | src/core/graphics/webgl/utils/buildLine.js:153-158 | six numbers per vertex in vertex order: x, y, then the same four colour numbers for every vertex |
| Buffers.VertexDataEntry | src/core/graphics/webgl/utils/buildLine.js:153-158 | vertex j is written at positions 6j .. 6j+5 |
| Buffers.VertexDataAppend | src/core/graphics/webgl/utils/buildLine.js:153-158 | the data of two vertex lists laid end to end is the two data runs laid end to end |
| Buffers.Iota | src/core/graphics/webgl/utils/buildLine.js:161-164 | the indices are exactly 0, 1, ..., n-1 in order |
| RoundCap.TruncateBounds | src/core/graphics/webgl/utils/buildLine.js:348 | truncation drops the fractional part toward zero on both sides |
| RoundCap.ToInt32 | src/core/graphics/webgl/utils/buildLine.js:348 | `x >> 0` is a signed 32-bit value congruent to the truncation modulo 2^32 |
| RoundCap.ToInt32Small | src/core/graphics/webgl/utils/buildLine.js:348 | below 2^31, `x >> 0` of a non-negative number is its floor |
| RoundCap.Abs | src/core/graphics/webgl/utils/buildLine.js:348 | builds `Math.abs`: the value with its sign dropped |
| RoundCap.Truncate | src/core/graphics/webgl/utils/buildLine.js:348 | builds the rounding toward zero that `>> 0` starts with; RoundCap.TruncateBounds states its bounds |
| RoundCap.UnwrappedDiff | src/core/graphics/webgl/utils/buildLine.js:315-329 | the unwrapped sweep differs from angle1 - angle0 by zero or one full turn |
| RoundCap.UnwrappedDiffBounded | src/core/graphics/webgl/utils/buildLine.js:312-329 | for angles in the range of atan2, the sweep is at most half a turn plus EPSILON |
| RoundCap.PolarAngle | src/core/graphics/webgl/utils/buildLine.js:312-313 | builds the polar angle of a point seen from the centre: `Math.atan2` of the y difference and the x difference |
| RoundCap.NearHalfTurn | src/core/graphics/webgl/utils/buildLine.js:331 | holds when abs(angleDiff) lies within EPSILON of `Math.PI`, where the direction of the sweep is ambiguous |
| RoundCap.ReverseHalfTurn | src/core/graphics/webgl/utils/buildLine.js:333-345 | the tie-break on a near half turn, with r1 = center - nextPointInLine: reverse when r1.x is 0 and r1.y > 0, or when r1.x is not 0 and r1.x >= -EPSILON |
| RoundCap.CapSweep | src/core/graphics/webgl/utils/buildLine.js:309-346 | the radius is the distance from the centre to p0; the start is the polar angle of p1; the tie-break only changes the sign of the sweep, and only near a half turn |
| RoundCap.SegmentsInRange | src/core/graphics/webgl/utils/buildLine.js:348-350 | when the arc length is below 2^31, nsegments is floor(abs(angleDiff * radius)) + 1, which is at least 1 |
| RoundCap.SegmentsUnbounded | src/core/graphics/webgl/utils/buildLine.js:348-350 | there is no upper bound: radius k and a one-radian sweep give k + 1 triangles |
| RoundCap.ArcLength | src/core/graphics/webgl/utils/buildLine.js:348 | builds angleDiff * radius, the signed arc length that nsegments is taken from |
| RoundCap.Segments | src/core/graphics/webgl/utils/buildLine.js:348-350 | builds nsegments: the ToInt32 conversion of abs(angleDiff * radius), plus one |
| RoundCap.CapSegments | src/core/graphics/webgl/utils/buildLine.js:354 | builds the number of rounds of the loop: nsegments, or 0 when the conversion wrapped to a negative count |
| RoundCap.AngleStep | src/core/graphics/webgl/utils/buildLine.js:352 | builds angleInc = angleDiff / nsegments, the angle between consecutive arc points |
| RoundCap.ArcPoint | src/core/graphics/webgl/utils/buildLine.js:357-364 | builds arc point i: the centre plus radius times the cosine and sine of originalAngle0 + angleInc * i |
| RoundCap.Fan | src/core/graphics/webgl/utils/buildLine.js:354-365 | builds the first n rounds of the loop: the centre, arc point i and arc point i+1 for each i < n |
| RoundCap.CapPoints | src/core/graphics/webgl/utils/buildLine.js:307-366 | builds everything buildRoundCap appends: the fan of CapSegments triangles with the radius, start angle and step of CapSweep |
| RoundCap.FanStep | src/core/graphics/webgl/utils/buildLine.js:354-365 | an unfolding of Fan, used as a proof step: one more round of the loop appends the centre and the two consecutive arc points n and n+1 |
| RoundCap.FanShape | src/core/graphics/webgl/utils/buildLine.js:354-365 | n rounds give 3n points; each triple is the centre, arc point i and arc point i+1 |
| RoundCap.CapPointsShape | src/core/graphics/webgl/utils/buildLine.js:307-366 | a cap appends 3 * nsegments points, and the first of every triple is the centre |
| RoundCap.MeasureCap | src/core/graphics/webgl/utils/buildLine.js:309-346 | the loop-free steps compute exactly CapSweep |
| RoundCap.CountSegments | src/core/graphics/webgl/utils/buildLine.js:348-352 | nsegments and angleInc are exactly the specification's values |
| RoundCap.BuildRoundCap | src/core/graphics/webgl/utils/buildLine.js:307-366 | the list grows by exactly CapPoints |
| RoundCap.PushFan | src/core/graphics/webgl/utils/buildLine.js:354-365 | the loop appends exactly the fan of nsegments triangles, or nothing when nsegments < 1 |
| Joins.InvertScaled | src/core/graphics/webgl/utils/buildLine.js:224-231 | inverting before scaling equals inverting after it |
| Joins.OffsetLinesDeterminant | src/core/graphics/webgl/utils/buildLine.js:233 | the determinant of the two offset lines is minus the signed area of the corner, whatever the offsets |
| Joins.PlanJoin | src/core/graphics/webgl/utils/buildLine.js:213-252 | the miter branch always has an intersection |
| Joins.PlanJoinSpec | src/core/graphics/webgl/utils/buildLine.js:213-252 | both offsets are negated iff signedArea > 0; there is no intersection iff the corner is nearly straight; an intersection lies on both offset lines; bevel iff there is no intersection or the anchor is longer than either edge |
| Joins.EdgeOffset | src/core/graphics/webgl/utils/buildLine.js:213-231 | builds an edge's offset before any flip: its perpendicular, normalized and scaled by the half width |
| Joins.AnchorLength | src/core/graphics/webgl/utils/buildLine.js:235-242 | builds anchorLength: the distance from p1 to the intersection, or Number.MAX_VALUE when there is none |
| Joins.EdgeOffsetLeft | src/core/graphics/webgl/utils/buildLine.js:213-231 | before the flip, an edge's offset lies on its left |
| Joins.FlippedOffsetOpposes | src/core/graphics/webgl/utils/buildLine.js:222-226 | the flip moves an offset to the side opposite the sign of the area |
| Joins.CornerArea | src/core/graphics/webgl/utils/buildLine.js:368-371 | the signed area of a corner is the same measured from either end |
| Joins.OffsetsPointOutward | src/core/graphics/webgl/utils/buildLine.js:213-231 | after the flip, both offsets point to the outer side of the turn |
| Joins.EdgeOffsetLength | src/core/graphics/webgl/utils/buildLine.js:213-231 | with an exact square root, an edge of non-zero length has an offset of length width |
| Joins.OffsetsHalfWidth | src/core/graphics/webgl/utils/buildLine.js:213-231 | with an exact square root, both offsets of a corner whose edges have non-zero length have length width |
| Joins.StraightJoinIsBevel | src/core/graphics/webgl/utils/buildLine.js:222-252 | a nearly straight corner always takes the bevel branch |
| Joins.FlippedMiter | src/core/graphics/webgl/utils/buildLine.js:222-252 | a corner with signedArea > 0 whose flipped offset lines meet at q, no farther from p1 than either edge is long, takes the miter branch with q as its intersection |
| Joins.NarrowCornerIsMiter | src/core/graphics/webgl/utils/buildLine.js:213-252 | the miter branch is reachable: with an exact square root at 625 and 25, the corner (1, 2), (21, 17), (12.2, 40.4) at half width 4 has its intersection at (25.8, 15.6) and is not a bevel |
| Joins.InnerPoint | src/core/graphics/webgl/utils/buildLine.js:240-284 | the inner point of a miter is the intersection reflected through the joint |
| Joins.BevelShape | src/core/graphics/webgl/utils/buildLine.js:252-271 | the bevel branch appends 12 + 3k points in whole triangles, with the k cap triangles fanned from the joint after the first 6 |
| Joins.MiterShape | src/core/graphics/webgl/utils/buildLine.js:272-304 | the miter branch appends 18 + 3k points in whole triangles, with the k cap triangles fanned from the joint after the first 9 |
| Joins.BevelPoints | src/core/graphics/webgl/utils/buildLine.js:252-271 | builds the bevel branch's points: a quad on the first edge, the round cap around p1 from p1 + t0 to p1 + t2, then a quad on the second edge |
| Joins.MiterPoints | src/core/graphics/webgl/utils/buildLine.js:272-304 | builds the miter branch's points: both quads meet at the inner point a, and the triangles p1 + t0, p1, a and p1, p1 + t2, a enclose the round cap |
| Joins.JoinPoints | src/core/graphics/webgl/utils/buildLine.js:211-305 | builds everything buildTriangles appends: BevelPoints or MiterPoints, as PlanJoin decides |
| Joins.JoinCapSegments | src/core/graphics/webgl/utils/buildLine.js:254-291 | builds the number of triangles in the round cap a join builds around p1: CapSegments of the sweep from p1 + t0 to p1 + t2, with p2 (bevel, line 262) or the inner point (miter, line 291) as the reference point |
| Joins.JoinShape | src/core/graphics/webgl/utils/buildLine.js:211-305 | a join appends 12 + 3k points (bevel) or 18 + 3k (miter), opens with p0 ± t0, closes with p2 ± t2, and fans its cap from p1 |
| Joins.JoinWhole | src/core/graphics/webgl/utils/buildLine.js:211-305 | every join is whole triangles, at least 12 points |
| Joins.JoinEnds | src/core/graphics/webgl/utils/buildLine.js:211-305 | the first two points of a join are p0 + t0 and p0 - t0; the third-last and last are p2 + t2 and p2 - t2 |
| Joins.MeasureJoin | src/core/graphics/webgl/utils/buildLine.js:213-252 | the step-by-step offsets, intersection and bevel test are exactly PlanJoin |
| Joins.BuildTriangles | src/core/graphics/webgl/utils/buildLine.js:211-305 | the list grows by exactly JoinPoints |
| Joins.PushBevel | src/core/graphics/webgl/utils/buildLine.js:254-270 | the bevel branch appends exactly BevelPoints, in push order |
| Joins.PushMiter | src/core/graphics/webgl/utils/buildLine.js:274-303 | the miter branch appends exactly MiterPoints, in push order |
| Stroke.LastPoints | src/core/graphics/webgl/utils/buildLine.js:145-151 | the last and second-last coordinate pairs are points n-1 and n-2 |
| Stroke.PointAt | src/core/graphics/webgl/utils/buildLine.js:134 | builds point k of the flat coordinate list: (c[2k], c[2k+1]) |
| Stroke.IsClosed | src/core/graphics/webgl/utils/buildLine.js:57-61 | holds when the first and the last coordinate pairs are equal |
| Stroke.ClosingMidpoint | src/core/graphics/webgl/utils/buildLine.js:69-72 | M is halfway between the first point and the new last point |
| Stroke.ClosedPath | src/core/graphics/webgl/utils/buildLine.js:56-76 | the rewrite never shortens the list and keeps it even |
| Stroke.ClosedPathShape | src/core/graphics/webgl/utils/buildLine.js:56-76 | an open path is used as is; a closed path of n points becomes M, P0 .. P(n-2), M: n + 1 points, still closed |
| Stroke.WorkingPoints | src/core/graphics/webgl/utils/buildLine.js:56-76 | the pop/unshift/push edits on the copy give exactly ClosedPath, and the caller's array is not written |
| Stroke.Midpoint | src/core/graphics/webgl/utils/buildLine.js:123-126 | the middle point is halfway between the two points |
| Stroke.MiddleEntry | src/core/graphics/webgl/utils/buildLine.js:113-127 | builds entry k of middlePoints: P0 for k = 0, P(n-1) for the last entry, otherwise the midpoint of P(k) and P(k+1) |
| Stroke.MiddlePoints | src/core/graphics/webgl/utils/buildLine.js:109-128 | builds the middlePoints list: one MiddleEntry per segment, n-1 entries |
| Stroke.MiddlePointsShape | src/core/graphics/webgl/utils/buildLine.js:109-128 | n >= 3 points give n-1 middle points: P0, the interior segment midpoints in order, then P(n-1) |
| Stroke.CornerAt | src/core/graphics/webgl/utils/buildLine.js:132-136 | builds the three points round i+1 of the join loop passes to buildTriangles: middle point i, point i+1, middle point i+1 |
| Stroke.CornerPoints | src/core/graphics/webgl/utils/buildLine.js:132-137 | builds what the call of buildTriangles at a corner appends: JoinPoints of its three points |
| Stroke.CornerJoin | src/core/graphics/webgl/utils/buildLine.js:130-138 | builds buildTriangles at the stroke's half width as a function of the corner: the join the loop builds at every round |
| Stroke.LoopCorner | src/core/graphics/webgl/utils/buildLine.js:111-138 | round i+1 of the join loop joins at P(i+1), coming from P0 (i = 0) or the midpoint of P(i) and P(i+1), and going to P(n-1) (i = n-3) or the midpoint of P(i+1) and P(i+2) |
| Stroke.Chain | src/core/graphics/webgl/utils/buildLine.js:130-138 | builds the joins a given join function builds at the corners 0 .. k-2, laid end to end |
| Stroke.InteriorJoins | src/core/graphics/webgl/utils/buildLine.js:130-138 | builds what the rounds 1 .. k-1 of the join loop append: Chain with buildTriangles as the join |
| Stroke.PairCorner | src/core/graphics/webgl/utils/buildLine.js:95-106 | builds the one corner of a two-point path: P0, the midpoint of the segment, P1 |
| Stroke.BodyOf | src/core/graphics/webgl/utils/buildLine.js:95-139 | builds the body for a given join function: the join at PairCorner for two points, otherwise the Chain over all middle points |
| Stroke.Body | src/core/graphics/webgl/utils/buildLine.js:95-139 | builds the vertices list after lines 95-139: BodyOf with buildTriangles at every corner |
| Stroke.JoinsGrow | src/core/graphics/webgl/utils/buildLine.js:130-138 | an unfolding of InteriorJoins, used as a proof step: one more round of the join loop appends exactly the join at the next point |
| Stroke.ChainShape | src/core/graphics/webgl/utils/buildLine.js:130-138 | joins of whole triangles laid end to end are whole triangles; they open like the first join and close like the last |
| Stroke.CornerJoinWhole | src/core/graphics/webgl/utils/buildLine.js:130-138 | the join at any corner is whole triangles, at least 12 points |
| Stroke.JoinsShape | src/core/graphics/webgl/utils/buildLine.js:130-138 | the joins of the loop are whole triangles; they open like the first join and close like the last |
| Stroke.FirstCorner | src/core/graphics/webgl/utils/buildLine.js:95-139 | the first join starts at the first point of the path |
| Stroke.LastCorner | src/core/graphics/webgl/utils/buildLine.js:95-139 | the last join ends at the last point of the path |
| Stroke.BodyOfShape | src/core/graphics/webgl/utils/buildLine.js:95-139 | for any join of whole triangles (at least 12 points), the body is whole triangles opening like its first join and closing like its last |
| Stroke.PairBodyOfShape | src/core/graphics/webgl/utils/buildLine.js:95-106 | a two-point path's body is its one join, which is both its first and its last |
| Stroke.LoopBodyOfShape | src/core/graphics/webgl/utils/buildLine.js:107-139 | for three or more points the body is the chain of the loop's joins, opening like the first and closing like the last |
| Stroke.BodyShape | src/core/graphics/webgl/utils/buildLine.js:95-139 | the body is whole triangles, at least 12 points, opening like its first join and closing like its last |
| Stroke.BodyEnds | src/core/graphics/webgl/utils/buildLine.js:141-147 | the vertices the caps read are P0 ± t0 of the first join and P(n-1) + t2, P(n-1) - t2 of the last |
| Stroke.CapRadii | src/core/graphics/webgl/utils/buildLine.js:141-151 | each end cap's radius is the length of the offset of its end join |
| Stroke.ThreeRuns | src/core/graphics/webgl/utils/buildLine.js:141-153 | a fan, whole triangles and a fan laid end to end are whole triangles with both fans in place |
| Stroke.StrokeShape | src/core/graphics/webgl/utils/buildLine.js:141-153 | start cap, body, end cap: whole triangles, the start cap fanned from P0 and the end cap from P(n-1) |
| Stroke.StrokeWhole | src/core/graphics/webgl/utils/buildLine.js:95-153 | the whole polygon-mode output is whole triangles: a body of at least 12 points between the start cap, fanned from P0, and the end cap, fanned from P(n-1) |
| Stroke.StartCap | src/core/graphics/webgl/utils/buildLine.js:150 | builds the start cap: CapPoints around P0 from vertices[0] to vertices[1], facing away from P1 |
| Stroke.EndCap | src/core/graphics/webgl/utils/buildLine.js:151 | builds the end cap: CapPoints around P(n-1) from the last vertex to the third-last, facing away from P(n-2) |
| Stroke.Capped | src/core/graphics/webgl/utils/buildLine.js:141-153 | builds a body with the start cap before it and the end cap after it, in the order of startCapVertices.concat(vertices) |
| Stroke.Stroke | src/core/graphics/webgl/utils/buildLine.js:141-153 | builds every vertex polygon mode writes: Capped around Body |
| Stroke.StartCapFanned | src/core/graphics/webgl/utils/buildLine.js:150 | the start cap fans out from the first point |
| Stroke.EndCapFanned | src/core/graphics/webgl/utils/buildLine.js:151 | the end cap fans out from the last point |
| Stroke.StrokeLayout | src/core/graphics/webgl/utils/buildLine.js:141-158 | the buffer gets 6 numbers per stroke vertex: the start cap's data, then the body's, then the end cap's, every vertex with the same colour |
| Stroke.CollectMiddlePoints | src/core/graphics/webgl/utils/buildLine.js:109-128 | the loop pushes exactly MiddlePoints |
| Stroke.BuildInteriorJoins | src/core/graphics/webgl/utils/buildLine.js:130-138 | the loop appends exactly the joins at points 1 .. n-2 in order |
| Stroke.BuildJoinAt | src/core/graphics/webgl/utils/buildLine.js:132-137 | one round of the loop keeps the loop invariant |
| Stroke.BuildBody | src/core/graphics/webgl/utils/buildLine.js:95-139 | the vertices grow by exactly Body: one join at the midpoint for two points, else the interior joins |
| Stroke.WriteVertices | src/core/graphics/webgl/utils/buildLine.js:153-158 | the buffer grows by the vertex data of the list, the indices are untouched, and vertexCount is the list's length |
| Stroke.WriteIndices | src/core/graphics/webgl/utils/buildLine.js:161-164 | the indices grow by exactly 0 .. vertexCount-1 |
| Stroke.BuildCaps | src/core/graphics/webgl/utils/buildLine.js:141-151 | the start cap goes to its own list and the end cap is appended to the body |
| Stroke.FinishStroke | src/core/graphics/webgl/utils/buildLine.js:141-164 | the buffer grows by the data of start cap + body + end cap, then by one index per vertex |
| Stroke.BuildStroke | src/core/graphics/webgl/utils/buildLine.js:78-164 | the buffer grows by the data of exactly Stroke, then by one index per stroke vertex, from 0 |
| Stroke.BuildLine | src/core/graphics/webgl/utils/buildLine.js:37-165 | an empty path adds nothing; otherwise the buffers grow by the stroke of ClosedPath at half the line width, plus its indices |
| Stroke.HalfWidth | src/core/graphics/webgl/utils/buildLine.js:83 | builds the half width lineWidth / 2 that the stroke extends to either side |
| NativeLine.LinePairs | src/core/graphics/webgl/utils/buildLine.js:424-437 | k points give 2(k-1) line end points |
| NativeLine.LinePairsEntries | src/core/graphics/webgl/utils/buildLine.js:424-437 | entry 2i is P(i) and entry 2i+1 is P(i+1) |
| NativeLine.NativeDataLength | src/core/graphics/webgl/utils/buildLine.js:407-438 | n points append 12(n-1) numbers |
| NativeLine.NativeDataSegment | src/core/graphics/webgl/utils/buildLine.js:424-437 | segment i is written as P(i), rgb·α, α, P(i+1), rgb·α, α |
| NativeLine.LinePairsGrow | src/core/graphics/webgl/utils/buildLine.js:424-437 | one more round appends the data of the segment ending at the new point |
| NativeLine.NativeData | src/core/graphics/webgl/utils/buildLine.js:407-438 | builds the numbers native mode appends: VertexData of LinePairs over all the points |
| NativeLine.PushSegment | src/core/graphics/webgl/utils/buildLine.js:426-436 | one round appends the data of the segment's two end points and no index |
| NativeLine.BuildNativeLine | src/core/graphics/webgl/utils/buildLine.js:407-438 | the buffer grows by exactly NativeData; no index is written; zero or one point appends nothing |
| LineBuilder.BuildLine | src/core/graphics/webgl/utils/buildLine.js:15-25 | native mode writes only the native-lines data with no indices; polygon mode writes only the other buffer; an empty path adds nothing; the caller's array is unchanged |

## Left out

- `hex2rgb` and the `Point` class come from other modules and are not part of this model. The colour is taken as its decoded triple `Rgb`, and points are pairs of reals.
- Floating point is not modelled. Arithmetic is exact over `real`, and `NaN` and `Infinity` are excluded by the premise `FiniteLengths`.
- Joins.BuildTriangles: does not model the one path on which the source throws. Take `[0,0, 1e155,0, 2e155,0]`: both edge lengths overflow to `Infinity`, and the straight corner has a zero determinant, so there is no intersection. `Number.MAX_VALUE > Infinity` is false, so the miter branch runs, and `subtractPoints(p1, null)` at line 276 raises a TypeError. The premise `FiniteLengths` (every length below `Number.MAX_VALUE`) rules this input out.
- The values of `Math.sqrt`, `Math.atan2`, `Math.cos` and `Math.sin` are not modelled. They are parameters, so the arc coordinates and the wrap-around tests on the angles are stated only as what they compute from those values.
- The WebGL graphics data objects are not modelled. Only their `points` and `indices` arrays are, as append-only sequences. `lineWidth`, `lineColor`, `lineAlpha` and `nativeLines` are passed in as a `LineStyle`.
- Stroke.BuildLine: does not accept a one-point path or a coordinate list of odd length, because the source has no well-defined output for them:
  - A one-point path `[a, b]`. Its first and last points coincide, so it is rewritten as closed. After the two pops (lines 66-67) the new last point is read from an empty list, so the midpoint is `NaN`. The path becomes `[NaN, NaN, NaN, NaN]`, and the two-point branch builds one join over `NaN`.
  - An open list of one or three coordinates. It gives at most one middle point, so no join is built and `vertices` stays empty. The start cap at line 150 then calls `subtractPoints(center, undefined)` (lines 309 and 206), which raises a TypeError.
  - The closed three-coordinate list `[a, a, a]`. The pops leave `[a]`. The unshift and the push (lines 69-75) give `[NaN, a, a, NaN, a]`, whose middle points are `(NaN, a)` and `(a, NaN)`, so the join loop builds one join over `NaN`.
  - Five or more coordinates, odd in number. The middle-point loop reads one coordinate past the end of the list and computes with `undefined`.
- LineBuilder.BuildLine: does not accept a coordinate list of odd length in either mode, nor a one-point path (two coordinates) in polygon mode. The reasons are those given for Stroke.BuildLine and NativeLine.BuildNativeLine.
- NativeLine.BuildNativeLine: does not accept a coordinate list of odd length. With `2k + 1` coordinates `length` is `k + 0.5`, so the last round reads `points[2k + 1]` past the end and pushes `undefined` as the y coordinate.
- Joins.PlanJoin: its own postcondition only states that the miter branch has an intersection. The full classification is stated by `Joins.PlanJoinSpec`.
- The `>> 0` conversion is modelled exactly as ECMAScript's ToInt32 (section 7.1.6 of ECMA-262). The lemmas about the number of cap triangles assume an arc length below 2^31.
- Some loops and branches of the source are split into helper methods to keep each proof small: `MeasureJoin`, `PushBevel`, `PushMiter`, `MeasureCap`, `CountSegments`, `PushFan`, `BuildJoinAt`, `BuildCaps`, `FinishStroke`, `WriteVertices`, `WriteIndices` and `PushSegment`. Every step of the source is kept, in order.
