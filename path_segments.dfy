/** The typed path commands produced by the path-data tokenizer, and the
    curve flattener the interpreter hands Bezier curves to. */
module PathSegments {
  import opened Geometry

  /** One path-data command (the `PathSegment` variants of the tokenizer). */
  datatype Segment =
    | MoveTo(abs: bool, x: real, y: real)
    | LineTo(abs: bool, x: real, y: real)
    | HorizontalLineTo(abs: bool, x: real)
    | VerticalLineTo(abs: bool, y: real)
    | CurveTo(abs: bool, x1: real, y1: real, x2: real, y2: real, x: real, y: real)
    | SmoothCurveTo(abs: bool, x2: real, y2: real, x: real, y: real)
    | Quadratic(abs: bool, x1: real, y1: real, x: real, y: real)
    | SmoothQuadratic(abs: bool, x: real, y: real)
    | EllipticalArc(abs: bool, rx: real, ry: real, xAxisRotation: real,
                    largeArc: bool, sweep: bool, x: real, y: real)
    | ClosePath(abs: bool)

  /** A cubic Bezier curve with absolute control points. */
  datatype CubicBezier = CubicBezier(start: Pair, ctrl1: Pair, ctrl2: Pair, end: Pair)

  /** A quadratic Bezier curve with absolute control points. */
  datatype QuadraticBezier = QuadraticBezier(start: Pair, ctrl: Pair, end: Pair)

  /** The curve-flattening library: given a curve and a tolerance, the points
      of a line-segment approximation of the curve. Its numerics are not part
      of this model, so both operations are parameters. */
  datatype Flattener = Flattener(
    cubic: (CubicBezier, real) -> seq<Pair>,
    quadratic: (QuadraticBezier, real) -> seq<Pair>)

  /** The tolerance every curve is flattened with. */
  const FlatteningTolerance: real := 0.15

  /** The approximation of a cubic curve is non-empty and its last point is
      the curve's end point, as the flattening library guarantees. */
  ghost predicate CubicLandsOnEnd(f: Flattener)
  {
    forall c: CubicBezier ::
      f.cubic(c, FlatteningTolerance) != [] && Last(f.cubic(c, FlatteningTolerance)) == c.end
  }
}
