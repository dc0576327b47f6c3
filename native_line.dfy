/**
 * `buildNativeLine`: the native-lines mode of the line builder. Every
 * segment of the path becomes its two end points, drawn later as a
 * separate GL line; no triangles and no indices are produced.
 */
module NativeLine {
  import opened Geometry
  import opened Buffers
  import opened Stroke

  /** The end points of the first `k - 1` segments of the path, each segment
      as its start point followed by its end point. */
  function LinePairs(c: seq<real>, k: nat): (r: seq<Point>)
    requires 2 * k <= |c|
    ensures |r| == if k == 0 then 0 else 2 * (k - 1)
  {
    if k <= 1 then [] else LinePairs(c, k - 1) + [PointAt(c, k - 2), PointAt(c, k - 1)]
  }

  /** Entry `2i` is point `i` and entry `2i + 1` is point `i + 1`. */
  lemma {:induction false} LinePairsEntries(c: seq<real>, k: nat)
    requires 2 * k <= |c|
    ensures forall i :: 0 <= i && i + 1 < k ==>
              LinePairs(c, k)[2 * i] == PointAt(c, i) && LinePairs(c, k)[2 * i + 1] == PointAt(c, i + 1)
  {
    if k > 1 {
      LinePairsEntries(c, k - 1);
      var r := LinePairs(c, k);
      var init := LinePairs(c, k - 1);
      assert r == init + [PointAt(c, k - 2), PointAt(c, k - 1)];
      forall i | 0 <= i && i + 1 < k
        ensures r[2 * i] == PointAt(c, i) && r[2 * i + 1] == PointAt(c, i + 1)
      {
        if i + 2 < k {
          assert r[2 * i] == init[2 * i] && r[2 * i + 1] == init[2 * i + 1];
        }
      }
    }
  }

  /** The numbers native mode appends for a path of `|c| / 2` points. */
  function NativeData(c: seq<real>, color: Rgb, alpha: real): seq<real>
    requires |c| % 2 == 0
  {
    VertexData(LinePairs(c, |c| / 2), color, alpha)
  }

  /** A path of `n >= 1` points gives `12 * (n - 1)` numbers. */
  lemma NativeDataLength(c: seq<real>, color: Rgb, alpha: real)
    requires |c| % 2 == 0 && |c| >= 2
    ensures |NativeData(c, color, alpha)| == 12 * (|c| / 2 - 1)
  {
    VertexDataLayout(LinePairs(c, |c| / 2), color, alpha);
  }

  /** Segment `i` is written as point `i` and then point `i + 1`, each
      followed by the colour attributes. */
  lemma NativeDataSegment(c: seq<real>, color: Rgb, alpha: real, i: nat)
    requires |c| % 2 == 0 && i + 1 < |c| / 2
    ensures 12 * i + 12 <= |NativeData(c, color, alpha)|
    ensures var d := NativeData(c, color, alpha);
            && d[12 * i] == PointAt(c, i).x && d[12 * i + 1] == PointAt(c, i).y
            && d[12 * i + 2..12 * i + 6] == Attributes(color, alpha)
            && d[12 * i + 6] == PointAt(c, i + 1).x && d[12 * i + 7] == PointAt(c, i + 1).y
            && d[12 * i + 8..12 * i + 12] == Attributes(color, alpha)
  {
    var vs := LinePairs(c, |c| / 2);
    LinePairsEntries(c, |c| / 2);
    var k := 2 * i;
    assert vs[k] == PointAt(c, i) && vs[k + 1] == PointAt(c, i + 1);
    VertexDataEntry(vs, color, alpha, k);
    VertexDataEntry(vs, color, alpha, k + 1);
    assert 12 * i == 6 * k && 12 * i + 6 == 6 * (k + 1);
  }

  /** One more point adds the pair of the segment that ends at it. */
  lemma LinePairsGrow(c: seq<real>, k: nat, color: Rgb, alpha: real)
    requires 1 <= k && 2 * (k + 1) <= |c|
    ensures VertexData(LinePairs(c, k + 1), color, alpha)
            == VertexData(LinePairs(c, k), color, alpha) + VertexData([PointAt(c, k - 1), PointAt(c, k)], color, alpha)
  {
    VertexDataAppend(LinePairs(c, k), [PointAt(c, k - 1), PointAt(c, k)], color, alpha);
  }

  /** Lines 426-436: segment `i` of the path, its start point and then its
      end point, each followed by the colour attributes. */
  method PushSegment(points: array<real>, i: int, color: Rgb, alpha: real, data: WebGLData)
    requires 1 <= i && 2 * i + 1 < points.Length
    modifies data
    ensures data.points == old(data.points) + VertexData([PointAt(points[..], i - 1), PointAt(points[..], i)], color, alpha)
    ensures data.indices == old(data.indices)
  {
    var p1x := points[(i - 1) * 2];
    var p1y := points[((i - 1) * 2) + 1];
    var p2x := points[i * 2];
    var p2y := points[(i * 2) + 1];
    data.PushVertex(Point(p1x, p1y), color, alpha);
    data.PushVertex(Point(p2x, p2y), color, alpha);
    VertexDataAppend([Point(p1x, p1y)], [Point(p2x, p2y)], color, alpha);
    assert [Point(p1x, p1y)] + [Point(p2x, p2y)] == [Point(p1x, p1y), Point(p2x, p2y)];
  }

  /** Lines 407-438. */
  method BuildNativeLine(points: array<real>, color: Rgb, alpha: real, data: WebGLData)
    requires points.Length % 2 == 0
    modifies data
    ensures data.points == old(data.points) + NativeData(points[..], color, alpha)
    ensures data.indices == old(data.indices)
    ensures points.Length <= 2 ==> data.points == old(data.points)
  {
    if points.Length == 0 {
      return;
    }
    ghost var c := points[..];
    var length := points.Length / 2;
    for i := 1 to length
      invariant data.points == old(data.points) + VertexData(LinePairs(c, i), color, alpha)
      invariant data.indices == old(data.indices)
    {
      PushSegment(points, i, color, alpha, data);
      LinePairsGrow(c, i, color, alpha);
    }
  }
}
