/**
 * The entry point of the line builder: the graphics data's `nativeLines`
 * flag chooses between the native-lines mode, which writes its vertices to
 * the native-lines WebGL data, and the polygon mode, which writes vertices
 * and indices to the ordinary WebGL data.
 */
module LineBuilder {
  import opened Geometry
  import opened Buffers
  import opened Stroke
  import opened NativeLine

  /** The line style of a graphics data object, with the colour already
      decoded into its three components. */
  datatype LineStyle = LineStyle(nativeLines: bool, lineWidth: real, lineColor: Rgb, lineAlpha: real)

  /** Lines 15-25: the dispatcher. Either mode only reads the caller's
      coordinate array, and an empty one adds nothing to either buffer. */
  method BuildLine(style: LineStyle, points: array<real>, m: MathLib, webGLData: WebGLData, webGLDataNativeLines: WebGLData)
    requires FiniteLengths(m)
    requires points.Length % 2 == 0
    requires !style.nativeLines ==> points.Length == 0 || points.Length >= 4
    modifies webGLData, webGLDataNativeLines
    ensures style.nativeLines ==>
              && webGLDataNativeLines.points == old(webGLDataNativeLines.points) + NativeData(points[..], style.lineColor, style.lineAlpha)
              && webGLDataNativeLines.indices == old(webGLDataNativeLines.indices)
              && (webGLData != webGLDataNativeLines ==> webGLData.points == old(webGLData.points) && webGLData.indices == old(webGLData.indices))
    ensures style.nativeLines && points.Length == 0 ==> webGLDataNativeLines.points == old(webGLDataNativeLines.points)
    ensures !style.nativeLines && points.Length > 0 ==>
              var s := Stroke.Stroke(ClosedPath(points[..]), HalfWidth(style.lineWidth), m);
              && webGLData.points == old(webGLData.points) + VertexData(s, style.lineColor, style.lineAlpha)
              && webGLData.indices == old(webGLData.indices) + Iota(|s|)
              && (webGLData != webGLDataNativeLines ==>
                    webGLDataNativeLines.points == old(webGLDataNativeLines.points) && webGLDataNativeLines.indices == old(webGLDataNativeLines.indices))
    ensures !style.nativeLines && points.Length == 0 ==>
              && webGLData.points == old(webGLData.points) && webGLData.indices == old(webGLData.indices)
              && webGLDataNativeLines.points == old(webGLDataNativeLines.points)
              && webGLDataNativeLines.indices == old(webGLDataNativeLines.indices)
    ensures points[..] == old(points[..])
  {
    if style.nativeLines {
      BuildNativeLine(points, style.lineColor, style.lineAlpha, webGLDataNativeLines);
    } else {
      Stroke.BuildLine(points, style.lineWidth, style.lineColor, style.lineAlpha, m, webGLData);
    }
  }
}
