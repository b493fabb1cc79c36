/** The polyline buffer `CurrentLine` (svg2polylines/src/lib.rs:64-149): the
    line being built plus the end point of the line finished before it. */
module LineBuffer {
  import opened Wrappers
  import opened Geometry

  /** The error `close` reports for a line with fewer than two points. */
  const CloseTooShort: string := "Lines with less than 2 coordinate pairs cannot be closed."

  /** The value of a `CurrentLine`: its buffer and `prev_end`. The functions
      below are the meaning of the methods of the class `CurrentLine`. */
  datatype LineState = LineState(line: Polyline, prevEnd: Option<Pair>)
  {
    /** The point a relative coordinate is measured from: the buffer's last
        point, else the end of the previously finished line, else the origin. */
    function Reference(): Pair
    {
      if line != [] then Last(line)
      else if prevEnd.Some? then prevEnd.value
      else Origin
    }

    function AddAbsolute(pair: Pair): LineState
    {
      this.(line := line + [pair])
    }

    /** Resolves `delta` in three tiers and appends the result. */
    function AddRelative(delta: Pair): (r: LineState)
      ensures r == AddAbsolute(Offset(Reference(), delta))
      ensures Difference(Last(r.line), Reference()) == delta
    {
      if line != [] then
        var last := Last(line);
        AddAbsolute(Pair(last.x + delta.x, last.y + delta.y))
      else if prevEnd.Some? then
        var last := prevEnd.value;
        AddAbsolute(Pair(last.x + delta.x, last.y + delta.y))
      else
        AddAbsolute(delta)
    }

    function Add(abs: bool, pair: Pair): LineState
    {
      if abs then AddAbsolute(pair) else AddRelative(pair)
    }

    /** Appends a run of absolute points, one after the other. */
    function AddAllAbsolute(points: seq<Pair>): LineState
    {
      this.(line := line + points)
    }

    /** A line is worth emitting only with more than one point. */
    predicate IsValid()
    {
      |line| > 1
    }

    function LastPair(): Option<Pair>
    {
      if line == [] then None else Some(Last(line))
    }

    function LastX(): Option<real>
    {
      if line == [] then None else Some(Last(line).x)
    }

    function LastY(): Option<real>
    {
      if line == [] then None else Some(Last(line).y)
    }

    /** Closes the line by repeating its first point at the end. */
    function Close(): (r: Result<LineState, string>)
      ensures r.Failure? <==> |line| < 2
      ensures r.Failure? ==> r.error == CloseTooShort
      ensures r.Success? ==> |r.value.line| == |line| + 1 && r.value.line[..|line|] == line
      ensures r.Success? ==> Last(r.value.line) == r.value.line[0] == line[0]
      ensures r.Success? ==> r.value.prevEnd == Some(line[0])
    {
      if |line| < 2 then Failure(CloseTooShort)
      else
        var first := line[0];
        Success(LineState(line + [first], Some(first)))
    }

    /** Hands off the buffer: returns it and leaves an empty buffer whose
        `prevEnd` is the returned line's last point (None if it was empty). */
    function Finish(): (r: (Polyline, LineState))
      ensures r.0 == line && r.1.line == []
      ensures r.1.prevEnd == LastPair()
    {
      (line, LineState([], LastPair()))
    }
  }

  /** The empty buffer a path expression starts with. */
  const Fresh: LineState := LineState([], None)

  /** Relative and absolute addition agree once the reference point is known. */
  lemma RelativeIsAbsoluteFromReference(st: LineState, delta: Pair)
    ensures st.Add(false, delta) == st.Add(true, Offset(st.Reference(), delta))
    ensures st.Add(true, delta) == st.AddRelative(Difference(delta, st.Reference()))
  {
    var d := Difference(delta, st.Reference());
    assert Offset(st.Reference(), d) == delta;
  }

  /** After a line is finished, a relative coordinate continues from the
      finished line's last point, not from the origin. */
  lemma RelativeAfterFinish(st: LineState, delta: Pair)
    requires st.line != []
    ensures st.Finish().1.AddRelative(delta).line == [Offset(Last(st.line), delta)]
    ensures st.Finish().1.AddRelative(delta).prevEnd == Some(Last(st.line))
  {
  }

  /** After a close, a relative coordinate continues from the closing point,
      which is the line's first point. */
  lemma RelativeAfterClose(st: LineState, delta: Pair)
    requires |st.line| >= 2
    ensures st.Close().Success?
    ensures Last(st.Close().value.AddRelative(delta).line) == Offset(st.line[0], delta)
  {
  }

  /** The in-place buffer. Its methods change `line` and `prevEnd` as the
      functions of `LineState` say. */
  class CurrentLine {
    var line: Polyline
    var prevEnd: Option<Pair>

    function State(): LineState
      reads this
    {
      LineState(line, prevEnd)
    }

    constructor ()
      ensures line == [] && prevEnd == None
    {
      line := [];
      prevEnd := None;
    }

    method AddAbsolute(pair: Pair)
      modifies this
      ensures line == old(line) + [pair] && prevEnd == old(prevEnd)
    {
      line := line + [pair];
    }

    method AddRelative(pair: Pair)
      modifies this
      ensures State() == old(State()).AddRelative(pair)
      ensures line == old(line) + [Offset(old(State()).Reference(), pair)] && prevEnd == old(prevEnd)
    {
      if line != [] {
        var last := line[|line| - 1];
        AddAbsolute(Pair(last.x + pair.x, last.y + pair.y));
      } else if prevEnd.Some? {
        var last := prevEnd.value;
        AddAbsolute(Pair(last.x + pair.x, last.y + pair.y));
      } else {
        AddAbsolute(pair);
      }
    }

    method Add(abs: bool, pair: Pair)
      modifies this
      ensures State() == old(State()).Add(abs, pair)
    {
      if abs {
        AddAbsolute(pair);
      } else {
        AddRelative(pair);
      }
    }

    method Close() returns (r: Outcome<string>)
      modifies this
      ensures r.Fail? <==> |old(line)| < 2
      ensures r.Fail? ==> r.error == CloseTooShort && line == old(line) && prevEnd == old(prevEnd)
      ensures r.Pass? ==> line == old(line) + [old(line)[0]] && prevEnd == Some(old(line)[0])
      ensures old(State()).Close() == (if r.Pass? then Success(State()) else Failure(r.error))
    {
      if |line| < 2 {
        r := Fail(CloseTooShort);
      } else {
        var first := line[0];
        line := line + [first];
        prevEnd := Some(first);
        r := Pass;
      }
    }

    method Finish() returns (finished: Polyline)
      modifies this
      ensures finished == old(line) && line == []
      ensures prevEnd == (if old(line) == [] then None else Some(Last(old(line))))
      ensures old(State()).Finish() == (finished, State())
    {
      prevEnd := if line == [] then None else Some(line[|line| - 1]);
      finished := line;
      line := [];
    }
  }
}
