/**
 * The growing arrays the line builder appends to: the local vertex lists it
 * hands to its helpers, and the caller-owned WebGL buffers.
 */
module Buffers {
  import opened Geometry

  /** A JavaScript array of points that the builder pushes to. */
  class PointList {
    var items: seq<Point>

    constructor ()
      ensures items == []
    {
      items := [];
    }

    /** `vertices.push(p)`. */
    method Push(p: Point)
      modifies this
      ensures items == old(items) + [p]
    {
      items := items + [p];
    }
  }

  /** The `points` (vertex numbers) and `indices` arrays of a WebGL graphics
      data object, owned by the caller and only ever appended to. */
  class WebGLData {
    var points: seq<real>
    var indices: seq<int>

    /** `verts.push(x, y); verts.push(r, g, b, alpha)`: one vertex, six numbers. */
    method PushVertex(v: Point, color: Rgb, alpha: real)
      modifies this
      ensures points == old(points) + VertexData([v], color, alpha)
      ensures indices == old(indices)
    {
      points := points + [v.x, v.y];
      points := points + Attributes(color, alpha);
    }

    /** `indices.push(i)`. */
    method PushIndex(i: int)
      modifies this
      ensures indices == old(indices) + [i]
      ensures points == old(points)
    {
      indices := indices + [i];
    }
  }

  /** A line colour as the three components `hex2rgb` decodes it into. */
  datatype Rgb = Rgb(red: real, green: real, blue: real)

  /** The four colour numbers that follow each vertex position: the colour
      premultiplied by the alpha, then the alpha itself. */
  function Attributes(color: Rgb, alpha: real): (a: seq<real>)
    ensures |a| == 4 && a[3] == alpha
    ensures alpha == 1.0 ==> a[..3] == [color.red, color.green, color.blue]
    ensures alpha == 0.0 ==> a == [0.0, 0.0, 0.0, 0.0]
  {
    [color.red * alpha, color.green * alpha, color.blue * alpha, alpha]
  }

  /** `vertices.push(a, b, c)`: one triangle. */
  method PushTriangle(a: Point, b: Point, c: Point, vertices: PointList)
    modifies vertices
    ensures vertices.items == old(vertices.items) + [a, b, c]
  {
    vertices.Push(a);
    vertices.Push(b);
    vertices.Push(c);
  }

  lemma AppendAssoc(a: seq<Point>, b: seq<Point>, c: seq<Point>)
    ensures (a + b) + c == a + (b + c)
  {
  }

  /** The numbers a list of vertices adds to a vertex buffer: for each, its
      two coordinates and the colour attributes. */
  function VertexData(vs: seq<Point>, color: Rgb, alpha: real): seq<real>
  {
    if vs == [] then []
    else VertexData(vs[..|vs| - 1], color, alpha) + [vs[|vs| - 1].x, vs[|vs| - 1].y] + Attributes(color, alpha)
  }

  /** The vertex data is six numbers per vertex, in the order of the
      vertices, each vertex carrying the same four colour numbers. */
  lemma {:induction false} VertexDataLayout(vs: seq<Point>, color: Rgb, alpha: real)
    ensures |VertexData(vs, color, alpha)| == 6 * |vs|
    ensures forall i :: 0 <= i < |vs| ==>
              VertexData(vs, color, alpha)[6 * i] == vs[i].x &&
              VertexData(vs, color, alpha)[6 * i + 1] == vs[i].y &&
              VertexData(vs, color, alpha)[6 * i + 2..6 * i + 6] == Attributes(color, alpha)
  {
    if vs != [] {
      var init := vs[..|vs| - 1];
      VertexDataLayout(init, color, alpha);
      var d := VertexData(vs, color, alpha);
      assert d[..6 * |init|] == VertexData(init, color, alpha);
      forall i | 0 <= i < |vs|
        ensures d[6 * i] == vs[i].x && d[6 * i + 1] == vs[i].y && d[6 * i + 2..6 * i + 6] == Attributes(color, alpha)
      {
        if i < |init| {
          assert d[6 * i] == VertexData(init, color, alpha)[6 * i];
          assert d[6 * i + 1] == VertexData(init, color, alpha)[6 * i + 1];
          assert d[6 * i + 2..6 * i + 6] == VertexData(init, color, alpha)[6 * i + 2..6 * i + 6];
        }
      }
    }
  }

  /** Vertex `j` of the list is written at `6 * j`. */
  lemma VertexDataEntry(vs: seq<Point>, color: Rgb, alpha: real, j: nat)
    requires j < |vs|
    ensures 6 * j + 6 <= |VertexData(vs, color, alpha)|
    ensures var d := VertexData(vs, color, alpha);
            d[6 * j] == vs[j].x && d[6 * j + 1] == vs[j].y && d[6 * j + 2..6 * j + 6] == Attributes(color, alpha)
  {
    VertexDataLayout(vs, color, alpha);
  }

  /** The vertex data of two lists laid end to end. */
  lemma {:induction false} VertexDataAppend(us: seq<Point>, vs: seq<Point>, color: Rgb, alpha: real)
    ensures VertexData(us + vs, color, alpha) == VertexData(us, color, alpha) + VertexData(vs, color, alpha)
    decreases |vs|
  {
    if vs != [] {
      var init := vs[..|vs| - 1];
      assert (us + vs)[..|us + vs| - 1] == us + init;
      VertexDataAppend(us, init, color, alpha);
    } else {
      assert us + vs == us;
    }
  }

  /** The indices `0, 1, ..., n - 1`. */
  function Iota(n: nat): (r: seq<int>)
    ensures |r| == n
    ensures forall i :: 0 <= i < n ==> r[i] == i
  {
    if n == 0 then [] else Iota(n - 1) + [n - 1]
  }
}
