/** The path-data interpreter of svg2polylines/src/lib.rs: one step per
    command (`parse_path_segment`, `_handle_cubic_curve`), the driver over
    one path expression (`parse_path`) and the concatenation over all path
    expressions (`parse`). */
module Interpreter {
  import opened Wrappers
  import opened Geometry
  import opened PathSegments
  import opened LineBuffer

  /** Why a path expression could not be turned into polylines. */
  datatype PathError =
    | Invalid(message: string)       // the command needs a state the buffer is not in
    | Unsupported(segment: Segment)  // a command the interpreter does not handle
    | Syntax(detail: string)         // the tokenizer rejected the path data

  const HorizontalOnEmpty: string := "Invalid state: HorizontalLineTo on emtpy CurrentLine"
  const VerticalOnEmpty: string := "Invalid state: VerticalLineTo on emtpy CurrentLine"
  const CurveOnEmpty: string := "Invalid state: CurveTo or SmoothCurveTo on empty CurrentLine"
  const SmoothWithoutReference: string := "Invalid state: SmoothCurveTo without a reference point"
  const QuadraticOnEmpty: string := "Invalid state: Quadratic on empty CurrentLine"
  const InvalidStatePrefix: string := "Invalid state: "
  const SyntaxPrefix: string := "Could not parse path segment: "

  /** What the tokenizer yields for one command: a segment or a syntax error. */
  type Token = Result<Segment, string>

  /** The interpreter's state: the line buffer and the finished lines. */
  datatype PathState = PathState(current: LineState, lines: seq<Polyline>)

  /*** One command ***/

  /** The cubic curve from `current`; relative control and end points are
      offsets from `current`. */
  function CubicCurve(current: Pair, abs: bool, c1: Pair, c2: Pair, end: Pair): CubicBezier
  {
    if abs then CubicBezier(current, c1, c2, end)
    else CubicBezier(current, Offset(current, c1), Offset(current, c2), Offset(current, end))
  }

  function QuadraticCurve(current: Pair, abs: bool, c: Pair, end: Pair): QuadraticBezier
  {
    if abs then QuadraticBezier(current, c, end)
    else QuadraticBezier(current, Offset(current, c), Offset(current, end))
  }

  /** `_handle_cubic_curve`: flatten the curve from the current point and
      append the approximation. */
  function CubicStep(st: LineState, abs: bool, c1: Pair, c2: Pair, end: Pair, flat: Flattener)
    : Result<LineState, PathError>
  {
    match st.LastPair()
    case None => Failure(Invalid(CurveOnEmpty))
    case Some(current) =>
      Success(st.AddAllAbsolute(flat.cubic(CubicCurve(current, abs, c1, c2, end), FlatteningTolerance)))
  }

  /** For a `CurveTo` or `SmoothCurveTo` predecessor, the offset
      (x - x2, y - y2) from its second control point to its end point. */
  function Reflection(prev: Option<Segment>): Option<Pair>
  {
    match prev
    case Some(CurveTo(_, _, _, x2, y2, x, y)) => Some(Pair(x - x2, y - y2))
    case Some(SmoothCurveTo(_, x2, y2, x, y)) => Some(Pair(x - x2, y - y2))
    case _ => None
  }

  function SmoothStep(st: LineState, abs: bool, c2: Pair, end: Pair, prev: Option<Segment>, flat: Flattener)
    : Result<LineState, PathError>
  {
    match Reflection(prev)
    case Some(d) =>
      if abs then
        match st.LastPair()
        case None => Failure(Invalid(CurveOnEmpty))
        case Some(current) => CubicStep(st, abs, Offset(current, d), c2, end, flat)
      else
        CubicStep(st, abs, d, c2, end, flat)
    case None =>
      match st.LastPair()
      case None => Failure(Invalid(SmoothWithoutReference))
      case Some(current) => CubicStep(st, abs, current, c2, end, flat)
  }

  function WithCurrent(ps: PathState, r: Result<LineState, PathError>): Result<PathState, PathError>
  {
    match r
    case Failure(e) => Failure(e)
    case Success(st) => Success(ps.(current := st))
  }

  /** `parse_path_segment`: the effect of one command, given the command
      before it. */
  function Step(seg: Segment, prev: Option<Segment>, ps: PathState, flat: Flattener)
    : Result<PathState, PathError>
  {
    var st := ps.current;
    match seg
    case MoveTo(abs, x, y) =>
      if st.IsValid() then
        Success(PathState(st.Finish().1.Add(abs, Pair(x, y)), ps.lines + [st.Finish().0]))
      else
        Success(PathState(st.Add(abs, Pair(x, y)), ps.lines))
    case LineTo(abs, x, y) =>
      Success(ps.(current := st.Add(abs, Pair(x, y))))
    case HorizontalLineTo(abs, x) =>
      (match st.LastY()
       case None => Failure(Invalid(HorizontalOnEmpty))
       case Some(y) =>
         if abs then Success(ps.(current := st.AddAbsolute(Pair(x, y))))
         else Success(ps.(current := st.AddRelative(Pair(x, 0.0)))))
    case VerticalLineTo(abs, y) =>
      (match st.LastX()
       case None => Failure(Invalid(VerticalOnEmpty))
       case Some(x) =>
         if abs then Success(ps.(current := st.AddAbsolute(Pair(x, y))))
         else Success(ps.(current := st.AddRelative(Pair(0.0, y)))))
    case CurveTo(abs, x1, y1, x2, y2, x, y) =>
      WithCurrent(ps, CubicStep(st, abs, Pair(x1, y1), Pair(x2, y2), Pair(x, y), flat))
    case SmoothCurveTo(abs, x2, y2, x, y) =>
      WithCurrent(ps, SmoothStep(st, abs, Pair(x2, y2), Pair(x, y), prev, flat))
    case Quadratic(abs, x1, y1, x, y) =>
      (match st.LastPair()
       case None => Failure(Invalid(QuadraticOnEmpty))
       case Some(current) =>
         var curve := QuadraticCurve(current, abs, Pair(x1, y1), Pair(x, y));
         Success(ps.(current := st.AddAllAbsolute(flat.quadratic(curve, FlatteningTolerance)))))
    case ClosePath(_) =>
      (match st.Close()
       case Failure(e) => Failure(Invalid(InvalidStatePrefix + e))
       case Success(closed) => Success(ps.(current := closed)))
    case _ =>
      Failure(Unsupported(seg))
  }

  /*** One path expression ***/

  /** The interpreter's state between commands: the state and the command
      just interpreted. */
  datatype Walk = Walk(state: PathState, prev: Option<Segment>)

  const Start: Walk := Walk(PathState(Fresh, []), None)

  /** The loop of `parse_path`: interpret the commands in order and stop at
      the first error. */
  function Run(tokens: seq<Token>, w: Walk, flat: Flattener): Result<Walk, PathError>
    decreases |tokens|
  {
    if tokens == [] then Success(w)
    else
      match tokens[0]
      case Failure(e) => Failure(Syntax(SyntaxPrefix + e))
      case Success(seg) =>
        match Step(seg, w.prev, w.state, flat)
        case Failure(e) => Failure(e)
        case Success(ps) => Run(tokens[1..], Walk(ps, Some(seg)), flat)
  }

  /** The end of `parse_path`: the buffer is emitted only if it is valid. */
  function Flush(ps: PathState): seq<Polyline>
  {
    if ps.current.IsValid() then ps.lines + [ps.current.Finish().0] else ps.lines
  }

  /** The polylines of one path expression. */
  function PathPolylines(tokens: seq<Token>, flat: Flattener): Result<seq<Polyline>, PathError>
  {
    match Run(tokens, Start, flat)
    case Failure(e) => Failure(e)
    case Success(w) => Success(Flush(w.state))
  }

  /*** All path expressions ***/

  /** `parse`: the polylines of every path expression in document order, or
      the first error. */
  function AllPolylines(paths: seq<seq<Token>>, flat: Flattener): Result<seq<Polyline>, PathError>
    decreases |paths|
  {
    if paths == [] then Success([])
    else
      match PathPolylines(paths[0], flat)
      case Failure(e) => Failure(e)
      case Success(lines) => Prepend(lines, AllPolylines(paths[1..], flat))
  }

  /*** The imperative interpreter ***/

  /** The `for point in curve.flattened(..)` loop: append each point. */
  method AddFlattened(current: CurrentLine, points: seq<Pair>)
    modifies current
    ensures current.State() == old(current.State()).AddAllAbsolute(points)
  {
    for i := 0 to |points|
      invariant current.State() == old(current.State()).AddAllAbsolute(points[..i])
    {
      current.AddAbsolute(points[i]);
      assert points[..i + 1] == points[..i] + [points[i]];
    }
    assert points[..|points|] == points;
  }

  method HandleCubicCurve(current: CurrentLine, abs: bool, x1: real, y1: real, x2: real, y2: real,
                          x: real, y: real, flat: Flattener) returns (r: Outcome<PathError>)
    modifies current
    ensures CubicStep(old(current.State()), abs, Pair(x1, y1), Pair(x2, y2), Pair(x, y), flat)
         == (if r.Pass? then Success(current.State()) else Failure(r.error))
    ensures r.Fail? ==> current.State() == old(current.State())
  {
    if current.line == [] {
      return Fail(Invalid(CurveOnEmpty));
    }
    var p := current.line[|current.line| - 1];
    var curve := if abs then CubicBezier(p, Pair(x1, y1), Pair(x2, y2), Pair(x, y))
                 else CubicBezier(p, Pair(p.x + x1, p.y + y1), Pair(p.x + x2, p.y + y2), Pair(p.x + x, p.y + y));
    AddFlattened(current, flat.cubic(curve, FlatteningTolerance));
    r := Pass;
  }

  /** `parse_path_segment`: interpret one command against the buffer and
      the finished lines (passed in and handed back). */
  method ParsePathSegment(segment: Segment, prev: Option<Segment>, current: CurrentLine,
                          lines: seq<Polyline>, flat: Flattener)
    returns (newLines: seq<Polyline>, r: Outcome<PathError>)
    modifies current
    ensures Step(segment, prev, PathState(old(current.State()), lines), flat)
         == (if r.Pass? then Success(PathState(current.State(), newLines)) else Failure(r.error))
    ensures r.Fail? ==> current.State() == old(current.State()) && newLines == lines
  {
    newLines := lines;
    r := Pass;
    match segment {
      case MoveTo(abs, x, y) =>
        if |current.line| > 1 {
          var finished := current.Finish();
          newLines := newLines + [finished];
        }
        current.Add(abs, Pair(x, y));
      case LineTo(abs, x, y) =>
        current.Add(abs, Pair(x, y));
      case HorizontalLineTo(abs, x) =>
        if current.line == [] {
          r := Fail(Invalid(HorizontalOnEmpty));
        } else if abs {
          current.AddAbsolute(Pair(x, current.line[|current.line| - 1].y));
        } else {
          current.AddRelative(Pair(x, 0.0));
        }
      case VerticalLineTo(abs, y) =>
        if current.line == [] {
          r := Fail(Invalid(VerticalOnEmpty));
        } else if abs {
          current.AddAbsolute(Pair(current.line[|current.line| - 1].x, y));
        } else {
          current.AddRelative(Pair(0.0, y));
        }
      case CurveTo(abs, x1, y1, x2, y2, x, y) =>
        r := HandleCubicCurve(current, abs, x1, y1, x2, y2, x, y, flat);
      case SmoothCurveTo(abs, x2, y2, x, y) =>
        match prev {
          case Some(CurveTo(_, _, _, prevX2, prevY2, prevX, prevY)) =>
            r := SmoothWithReflection(current, abs, prevX - prevX2, prevY - prevY2, x2, y2, x, y, flat);
          case Some(SmoothCurveTo(_, prevX2, prevY2, prevX, prevY)) =>
            r := SmoothWithReflection(current, abs, prevX - prevX2, prevY - prevY2, x2, y2, x, y, flat);
          case _ =>
            if current.line == [] {
              r := Fail(Invalid(SmoothWithoutReference));
            } else {
              var pair := current.line[|current.line| - 1];
              r := HandleCubicCurve(current, abs, pair.x, pair.y, x2, y2, x, y, flat);
            }
        }
      case Quadratic(abs, x1, y1, x, y) =>
        if current.line == [] {
          r := Fail(Invalid(QuadraticOnEmpty));
        } else {
          var p := current.line[|current.line| - 1];
          var curve := if abs then QuadraticBezier(p, Pair(x1, y1), Pair(x, y))
                       else QuadraticBezier(p, Pair(p.x + x1, p.y + y1), Pair(p.x + x, p.y + y));
          AddFlattened(current, flat.quadratic(curve, FlatteningTolerance));
        }
      case ClosePath(_) =>
        var closed := current.Close();
        if closed.Fail? {
          r := Fail(Invalid(InvalidStatePrefix + closed.error));
        }
      case _ =>
        r := Fail(Unsupported(segment));
    }
  }

  /** The `SmoothCurveTo` arm with a curve predecessor: the reflected first
      control point is (dx, dy) from the current point, given absolutely or
      relatively as the command is. */
  method SmoothWithReflection(current: CurrentLine, abs: bool, dx: real, dy: real,
                              x2: real, y2: real, x: real, y: real, flat: Flattener)
    returns (r: Outcome<PathError>)
    modifies current
    ensures (if abs then
               match old(current.State()).LastPair()
               case None => Failure(Invalid(CurveOnEmpty))
               case Some(p) => CubicStep(old(current.State()), abs, Offset(p, Pair(dx, dy)), Pair(x2, y2), Pair(x, y), flat)
             else CubicStep(old(current.State()), abs, Pair(dx, dy), Pair(x2, y2), Pair(x, y), flat))
         == (if r.Pass? then Success(current.State()) else Failure(r.error))
    ensures r.Fail? ==> current.State() == old(current.State())
  {
    if abs {
      if current.line == [] {
        return Fail(Invalid(CurveOnEmpty));
      }
      var p := current.line[|current.line| - 1];
      r := HandleCubicCurve(current, abs, p.x + dx, p.y + dy, x2, y2, x, y, flat);
    } else {
      r := HandleCubicCurve(current, abs, dx, dy, x2, y2, x, y, flat);
    }
  }

  /** `parse_path`: interpret one path expression's commands, stopping at
      the first error, then emit the last line if it is valid. */
  method ParsePath(tokens: seq<Token>, flat: Flattener) returns (r: Result<seq<Polyline>, PathError>)
    ensures r == PathPolylines(tokens, flat)
  {
    var lines: seq<Polyline> := [];
    var line := new CurrentLine();
    var prevStore: Option<Segment> := None;
    for i := 0 to |tokens|
      invariant Run(tokens, Start, flat) == Run(tokens[i..], Walk(PathState(line.State(), lines), prevStore), flat)
    {
      assert tokens[i..][1..] == tokens[i + 1..];
      if tokens[i].Failure? {
        return Failure(Syntax(SyntaxPrefix + tokens[i].error));
      }
      var segment := tokens[i].value;
      var prev := prevStore;
      prevStore := Some(segment);
      var out;
      lines, out := ParsePathSegment(segment, prev, line, lines, flat);
      if out.Fail? {
        return Failure(out.error);
      }
    }
    if |line.line| > 1 {
      var finished := line.Finish();
      lines := lines + [finished];
    }
    r := Success(lines);
  }

  /** `parse`: concatenate the polylines of every path expression. */
  method Parse(paths: seq<seq<Token>>, flat: Flattener) returns (r: Result<seq<Polyline>, PathError>)
    ensures r == AllPolylines(paths, flat)
  {
    var polylines: seq<Polyline> := [];
    assert paths[0..] == paths;
    PrependNothing(AllPolylines(paths, flat));
    for i := 0 to |paths|
      invariant AllPolylines(paths, flat) == Prepend(polylines, AllPolylines(paths[i..], flat))
    {
      assert paths[i..][0] == paths[i] && paths[i..][1..] == paths[i + 1..];
      var lines := ParsePath(paths[i], flat);
      if lines.Failure? {
        assert AllPolylines(paths[i..], flat) == Failure(lines.error);
        return Failure(lines.error);
      }
      PrependTwice(polylines, lines.value, AllPolylines(paths[i + 1..], flat));
      polylines := polylines + lines.value;
    }
    assert paths[|paths|..] == [];
    assert polylines + [] == polylines;
    r := Success(polylines);
  }
}
