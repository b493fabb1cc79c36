/** What the interpreter of svg2polylines/src/lib.rs guarantees: the effect
    of each command, abort on the first error, and that every emitted
    polyline has at least two points. */
module InterpreterProperties {
  import opened Wrappers
  import opened Geometry
  import opened PathSegments
  import opened LineBuffer
  import opened Interpreter

  /** The commands that need a current point to start from. */
  predicate NeedsCurrentPoint(seg: Segment)
  {
    seg.HorizontalLineTo? || seg.VerticalLineTo? || seg.CurveTo? || seg.SmoothCurveTo? || seg.Quadratic?
  }

  /** The commands the interpreter handles at all. */
  predicate Supported(seg: Segment)
  {
    !seg.SmoothQuadratic? && !seg.EllipticalArc?
  }

  /** Every polyline has at least two points. */
  predicate AllValid(lines: seq<Polyline>)
  {
    forall k :: 0 <= k < |lines| ==> |lines[k]| >= 2
  }

  /*** Single commands ***/

  /** A command fails exactly when it is unsupported, needs a current point
      on an empty buffer, or closes a line shorter than two points. */
  lemma StepFailsExactlyWhen(seg: Segment, prev: Option<Segment>, ps: PathState, flat: Flattener)
    ensures Step(seg, prev, ps, flat).Failure? <==>
              !Supported(seg)
              || (NeedsCurrentPoint(seg) && ps.current.line == [])
              || (seg.ClosePath? && |ps.current.line| < 2)
    ensures !Supported(seg) ==> Step(seg, prev, ps, flat) == Failure(Unsupported(seg))
  {
  }

  /** A successful command keeps the finished lines; only a `MoveTo` on a
      valid buffer adds one, and what it adds is that buffer. */
  lemma StepKeepsFinishedLines(seg: Segment, prev: Option<Segment>, ps: PathState, flat: Flattener)
    requires Step(seg, prev, ps, flat).Success?
    ensures var lines := Step(seg, prev, ps, flat).value.lines;
            if seg.MoveTo? && ps.current.IsValid() then lines == ps.lines + [ps.current.line]
            else lines == ps.lines
  {
  }

  /** `MoveTo` finishes the buffer only when it has two or more points; a
      one-point buffer is continued with the new point. */
  lemma MoveToStep(abs: bool, x: real, y: real, prev: Option<Segment>, ps: PathState, flat: Flattener)
    ensures var r := Step(MoveTo(abs, x, y), prev, ps, flat);
            var line := ps.current.line;
            r.Success?
            && (|line| >= 2 ==>
                  r.value.lines == ps.lines + [line]
                  && r.value.current.prevEnd == Some(Last(line))
                  && r.value.current.line == [if abs then Pair(x, y) else Offset(Last(line), Pair(x, y))])
            && (|line| < 2 ==>
                  r.value.lines == ps.lines
                  && r.value.current == ps.current.Add(abs, Pair(x, y))
                  && |r.value.current.line| == |line| + 1)
  {
  }

  /** Absolute `H` keeps the last y, relative `h` moves x; both fail on an
      empty buffer. */
  lemma HorizontalLineToStep(abs: bool, x: real, prev: Option<Segment>, ps: PathState, flat: Flattener)
    ensures var r := Step(HorizontalLineTo(abs, x), prev, ps, flat);
            (r.Failure? <==> ps.current.line == [])
            && (r.Failure? ==> r.error == Invalid(HorizontalOnEmpty))
            && (r.Success? ==>
                  var last := Last(ps.current.line);
                  r.value.lines == ps.lines
                  && r.value.current.prevEnd == ps.current.prevEnd
                  && r.value.current.line
                     == ps.current.line + [if abs then Pair(x, last.y) else Pair(last.x + x, last.y)])
  {
  }

  /** Absolute `V` keeps the last x, relative `v` moves y; both fail on an
      empty buffer. */
  lemma VerticalLineToStep(abs: bool, y: real, prev: Option<Segment>, ps: PathState, flat: Flattener)
    ensures var r := Step(VerticalLineTo(abs, y), prev, ps, flat);
            (r.Failure? <==> ps.current.line == [])
            && (r.Failure? ==> r.error == Invalid(VerticalOnEmpty))
            && (r.Success? ==>
                  var last := Last(ps.current.line);
                  r.value.lines == ps.lines
                  && r.value.current.prevEnd == ps.current.prevEnd
                  && r.value.current.line
                     == ps.current.line + [if abs then Pair(last.x, y) else Pair(last.x, last.y + y)])
  {
  }

  /** `CurveTo` appends exactly the flattener's points for the curve from the
      current point; relative points are measured from the current point. */
  lemma CurveToStep(abs: bool, x1: real, y1: real, x2: real, y2: real, x: real, y: real,
                    prev: Option<Segment>, ps: PathState, flat: Flattener)
    ensures var r := Step(CurveTo(abs, x1, y1, x2, y2, x, y), prev, ps, flat);
            (r.Failure? <==> ps.current.line == [])
            && (r.Failure? ==> r.error == Invalid(CurveOnEmpty))
            && (r.Success? ==>
                  var p := Last(ps.current.line);
                  var base := if abs then Origin else p;
                  var curve := CubicBezier(p, Offset(base, Pair(x1, y1)), Offset(base, Pair(x2, y2)), Offset(base, Pair(x, y)));
                  r.value == ps.(current := LineState(ps.current.line + flat.cubic(curve, FlatteningTolerance), ps.current.prevEnd)))
  {
  }

  /** `Quadratic` appends exactly the flattener's points for the curve from
      the current point. */
  lemma QuadraticStep(abs: bool, x1: real, y1: real, x: real, y: real,
                      prev: Option<Segment>, ps: PathState, flat: Flattener)
    ensures var r := Step(Quadratic(abs, x1, y1, x, y), prev, ps, flat);
            (r.Failure? <==> ps.current.line == [])
            && (r.Failure? ==> r.error == Invalid(QuadraticOnEmpty))
            && (r.Success? ==>
                  var p := Last(ps.current.line);
                  var base := if abs then Origin else p;
                  var curve := QuadraticBezier(p, Offset(base, Pair(x1, y1)), Offset(base, Pair(x, y)));
                  r.value == ps.(current := LineState(ps.current.line + flat.quadratic(curve, FlatteningTolerance), ps.current.prevEnd)))
  {
  }

  /** The first control point of a smooth curve: after a curve predecessor
      it is the current point moved by that curve's end-minus-second-control
      offset, whether the command is absolute or relative. Otherwise the
      current point's coordinates are used as given, so a relative `s`
      measures them from the current point again. */
  function SmoothFirstControl(prev: Option<Segment>, abs: bool, p: Pair): Pair
  {
    match Reflection(prev)
    case Some(d) => Offset(p, d)
    case None => if abs then p else Offset(p, p)
  }

  lemma SmoothCurveToStep(abs: bool, x2: real, y2: real, x: real, y: real,
                          prev: Option<Segment>, ps: PathState, flat: Flattener)
    ensures var r := Step(SmoothCurveTo(abs, x2, y2, x, y), prev, ps, flat);
            (r.Failure? <==> ps.current.line == [])
            && (r.Failure? ==>
                  r.error == Invalid(if Reflection(prev).Some? then CurveOnEmpty else SmoothWithoutReference))
            && (r.Success? ==>
                  var p := Last(ps.current.line);
                  var base := if abs then Origin else p;
                  var curve := CubicBezier(p, SmoothFirstControl(prev, abs, p), Offset(base, Pair(x2, y2)), Offset(base, Pair(x, y)));
                  r.value == ps.(current := LineState(ps.current.line + flat.cubic(curve, FlatteningTolerance), ps.current.prevEnd)))
  {
  }

  /** After an absolute `C` whose end is the current point, the first
      control point of `S`/`s` is the reflection of that curve's second
      control point about the current point. */
  lemma SmoothReflectsPreviousControl(px1: real, py1: real, px2: real, py2: real, px: real, py: real,
                                      abs: bool, x2: real, y2: real, x: real, y: real,
                                      ps: PathState, flat: Flattener)
    requires ps.current.line != [] && Last(ps.current.line) == Pair(px, py)
    ensures var r := Step(SmoothCurveTo(abs, x2, y2, x, y), Some(CurveTo(true, px1, py1, px2, py2, px, py)), ps, flat);
            var base := if abs then Origin else Pair(px, py);
            var mirror := Pair(2.0 * px - px2, 2.0 * py - py2);
            r == Success(ps.(current := ps.current.AddAllAbsolute(
                   flat.cubic(CubicBezier(Pair(px, py), mirror, Offset(base, Pair(x2, y2)), Offset(base, Pair(x, y))),
                              FlatteningTolerance))))
  {
    SmoothCurveToStep(abs, x2, y2, x, y, Some(CurveTo(true, px1, py1, px2, py2, px, py)), ps, flat);
  }

  /** After any `C`/`c`/`S`/`s` whose end is the current point, the first
      control point of `S`/`s` is the reflection of that curve's second
      control point about the current point. `base` is the point the
      predecessor's coordinates are measured from: the origin for an
      absolute command, its start point for a relative one. */
  lemma SmoothMirrorsAnyCurve(prev: Segment, base: Pair, abs: bool, x2: real, y2: real, x: real, y: real,
                              ps: PathState, flat: Flattener)
    requires prev.CurveTo? || prev.SmoothCurveTo?
    requires ps.current.line != [] && Last(ps.current.line) == Offset(base, Pair(prev.x, prev.y))
    ensures var r := Step(SmoothCurveTo(abs, x2, y2, x, y), Some(prev), ps, flat);
            var p := Last(ps.current.line);
            var control := Offset(base, Pair(prev.x2, prev.y2));
            var mirror := Offset(p, Difference(p, control));
            var origin := if abs then Origin else p;
            r == Success(ps.(current := ps.current.AddAllAbsolute(
                   flat.cubic(CubicBezier(p, mirror, Offset(origin, Pair(x2, y2)), Offset(origin, Pair(x, y))),
                              FlatteningTolerance))))
  {
    SmoothCurveToStep(abs, x2, y2, x, y, Some(prev), ps, flat);
  }

  /** `ClosePath` appends the first point again and makes it `prevEnd`; on a
      line shorter than two points it fails. */
  lemma ClosePathStep(abs: bool, prev: Option<Segment>, ps: PathState, flat: Flattener)
    ensures var r := Step(ClosePath(abs), prev, ps, flat);
            var line := ps.current.line;
            (r.Failure? <==> |line| < 2)
            && (r.Failure? ==> r.error == Invalid(InvalidStatePrefix + CloseTooShort))
            && (r.Success? ==> r.value == PathState(LineState(line + [line[0]], Some(line[0])), ps.lines))
  {
  }

  /*** One path expression ***/

  function Continue(r: Result<Walk, PathError>, rest: seq<Token>, flat: Flattener): Result<Walk, PathError>
  {
    match r
    case Failure(e) => Failure(e)
    case Success(w) => Run(rest, w, flat)
  }

  /** Interpreting `a + b` is interpreting `a` and then, unless it failed, `b`. */
  lemma {:induction false} RunAppend(a: seq<Token>, b: seq<Token>, w: Walk, flat: Flattener)
    ensures Run(a + b, w, flat) == Continue(Run(a, w, flat), b, flat)
    decreases |a|
  {
    if a == [] {
      assert a + b == b;
    } else {
      assert (a + b)[0] == a[0];
      assert (a + b)[1..] == a[1..] + b;
      match a[0]
      case Failure(_) =>
      case Success(seg) =>
        match Step(seg, w.prev, w.state, flat)
        case Failure(_) =>
        case Success(ps) => RunAppend(a[1..], b, Walk(ps, Some(seg)), flat);
    }
  }

  /** The first failing command decides the result: nothing after it is
      interpreted and no polylines are returned. */
  lemma FirstErrorAborts(tokens: seq<Token>, i: nat, w: Walk, seg: Segment, e: PathError, flat: Flattener)
    requires i < |tokens|
    requires Run(tokens[..i], Start, flat) == Success(w)
    requires tokens[i] == Success(seg) && Step(seg, w.prev, w.state, flat) == Failure(e)
    ensures PathPolylines(tokens, flat) == Failure(e)
  {
    assert tokens == tokens[..i] + tokens[i..];
    RunAppend(tokens[..i], tokens[i..], Start, flat);
    assert tokens[i..][0] == tokens[i];
  }

  /** A syntax error or an unsupported command (`T`, `A`) anywhere in a path
      makes the whole path fail, whatever comes before it. */
  lemma UnsupportedAnywhereFails(tokens: seq<Token>, i: nat, flat: Flattener)
    requires i < |tokens|
    requires tokens[i].Failure? || !Supported(tokens[i].value)
    ensures PathPolylines(tokens, flat).Failure?
  {
    assert tokens == tokens[..i] + tokens[i..];
    RunAppend(tokens[..i], tokens[i..], Start, flat);
    assert tokens[i..][0] == tokens[i];
  }

  /** Finished lines are never changed, only added to, and each one added
      has at least two points. */
  lemma {:induction false} RunExtendsValidLines(tokens: seq<Token>, w: Walk, flat: Flattener)
    requires Run(tokens, w, flat).Success?
    ensures var lines := Run(tokens, w, flat).value.state.lines;
            |w.state.lines| <= |lines| && lines[..|w.state.lines|] == w.state.lines
            && (forall k :: |w.state.lines| <= k < |lines| ==> |lines[k]| >= 2)
    decreases |tokens|
  {
    if tokens != [] {
      var seg := tokens[0].value;
      var ps := Step(seg, w.prev, w.state, flat).value;
      StepKeepsFinishedLines(seg, w.prev, w.state, flat);
      RunExtendsValidLines(tokens[1..], Walk(ps, Some(seg)), flat);
    }
  }

  /** Every polyline of a path has at least two points. */
  lemma PathPolylinesAreValid(tokens: seq<Token>, flat: Flattener)
    requires PathPolylines(tokens, flat).Success?
    ensures AllValid(PathPolylines(tokens, flat).value)
  {
    RunExtendsValidLines(tokens, Start, flat);
  }

  /*** All path expressions ***/

  /** `parse` fails exactly when one of the path expressions fails. */
  lemma {:induction false} AllPolylinesFailsIff(paths: seq<seq<Token>>, flat: Flattener)
    ensures AllPolylines(paths, flat).Failure?
            <==> exists i :: 0 <= i < |paths| && PathPolylines(paths[i], flat).Failure?
    decreases |paths|
  {
    if paths != [] {
      AllPolylinesFailsIff(paths[1..], flat);
      if PathPolylines(paths[0], flat).Success? {
        if exists i :: 0 <= i < |paths| && PathPolylines(paths[i], flat).Failure? {
          var i :| 0 <= i < |paths| && PathPolylines(paths[i], flat).Failure?;
          assert paths[1..][i - 1] == paths[i];
        }
        if exists j :: 0 <= j < |paths[1..]| && PathPolylines(paths[1..][j], flat).Failure? {
          var j :| 0 <= j < |paths[1..]| && PathPolylines(paths[1..][j], flat).Failure?;
          assert paths[j + 1] == paths[1..][j];
        }
      }
    }
  }

  /** The polylines of `a + b` are those of `a` followed by those of `b`. */
  lemma {:induction false} AllPolylinesAppend(a: seq<seq<Token>>, b: seq<seq<Token>>, flat: Flattener)
    ensures AllPolylines(a + b, flat)
            == match AllPolylines(a, flat)
               case Failure(e) => Failure(e)
               case Success(first) => Prepend(first, AllPolylines(b, flat))
    decreases |a|
  {
    if a == [] {
      assert a + b == b;
      PrependNothing(AllPolylines(b, flat));
    } else {
      assert (a + b)[0] == a[0];
      assert (a + b)[1..] == a[1..] + b;
      AllPolylinesAppend(a[1..], b, flat);
      if PathPolylines(a[0], flat).Success? && AllPolylines(a[1..], flat).Success? {
        PrependTwice(PathPolylines(a[0], flat).value, AllPolylines(a[1..], flat).value, AllPolylines(b, flat));
      }
    }
  }

  /** Every polyline `parse` returns has at least two points. */
  lemma {:induction false} AllPolylinesAreValid(paths: seq<seq<Token>>, flat: Flattener)
    requires AllPolylines(paths, flat).Success?
    ensures AllValid(AllPolylines(paths, flat).value)
    decreases |paths|
  {
    if paths != [] {
      PathPolylinesAreValid(paths[0], flat);
      AllPolylinesAreValid(paths[1..], flat);
    }
  }
}
