/** Concrete command sequences whose outcome the test suite of
    svg2polylines/src/lib.rs pins, stated for every flattener, except the
    smooth-curve scenario, which assumes `CubicLandsOnEnd`; and `M a L b M c
    L d` for all points and relative flags. */
module InterpreterScenarios {
  import opened Wrappers
  import opened Geometry
  import opened PathSegments
  import opened LineBuffer
  import opened Interpreter
  import InterpreterProperties

  /** Building a buffer point by point and handing it off. */
  lemma CurrentLineTrace()
    ensures !Fresh.IsValid() && Fresh.LastX().None? && Fresh.LastY().None?
    ensures var one := Fresh.AddAbsolute(Pair(1.0, 2.0));
            !one.IsValid() && one.LastX() == Some(1.0) && one.LastY() == Some(2.0)
            && one.Close() == Failure(CloseTooShort)
    ensures var two := Fresh.AddAbsolute(Pair(1.0, 2.0)).AddAbsolute(Pair(2.0, 3.0));
            two.IsValid() && two.LastX() == Some(2.0) && two.LastY() == Some(3.0)
            && two.Finish().0 == [Pair(1.0, 2.0), Pair(2.0, 3.0)] && !two.Finish().1.IsValid()
            && two.Close().Success?
            && two.Close().value.Finish().0 == [Pair(1.0, 2.0), Pair(2.0, 3.0), Pair(1.0, 2.0)]
  {
  }

  /** One command of a run, when its step is known. */
  lemma RunCons(seg: Segment, rest: seq<Token>, w: Walk, ps: PathState, flat: Flattener)
    requires Step(seg, w.prev, w.state, flat) == Success(ps)
    ensures Run([Success(seg)] + rest, w, flat) == Run(rest, Walk(ps, Some(seg)), flat)
  {
    assert ([Success(seg)] + rest)[1..] == rest;
  }

  /** `M 1,2 L 2,3 L 3,2`, one command at a time: no line is finished and
      the buffer holds the three points. */
  lemma SegmentDataSteps(flat: Flattener)
    ensures var s1 := PathState(LineState([Pair(1.0, 2.0)], None), []);
            var s2 := PathState(LineState([Pair(1.0, 2.0), Pair(2.0, 3.0)], None), []);
            var s3 := PathState(LineState([Pair(1.0, 2.0), Pair(2.0, 3.0), Pair(3.0, 2.0)], None), []);
            Step(MoveTo(true, 1.0, 2.0), None, PathState(Fresh, []), flat) == Success(s1)
            && Step(LineTo(true, 2.0, 3.0), None, s1, flat) == Success(s2)
            && Step(LineTo(true, 3.0, 2.0), None, s2, flat) == Success(s3)
  {
    assert [] + [Pair(1.0, 2.0)] == [Pair(1.0, 2.0)];
    assert [Pair(1.0, 2.0)] + [Pair(2.0, 3.0)] == [Pair(1.0, 2.0), Pair(2.0, 3.0)];
    assert [Pair(1.0, 2.0), Pair(2.0, 3.0)] + [Pair(3.0, 2.0)] == [Pair(1.0, 2.0), Pair(2.0, 3.0), Pair(3.0, 2.0)];
  }

  /** `M 1,2 H 3 V -1`, one command at a time: the horizontal line keeps the
      last y, the vertical line the last x. */
  lemma HorizontalVerticalSteps(flat: Flattener)
    ensures var s1 := PathState(LineState([Pair(1.0, 2.0)], None), []);
            var s2 := PathState(LineState([Pair(1.0, 2.0), Pair(3.0, 2.0)], None), []);
            var s3 := PathState(LineState([Pair(1.0, 2.0), Pair(3.0, 2.0), Pair(3.0, -1.0)], None), []);
            Step(MoveTo(true, 1.0, 2.0), None, PathState(Fresh, []), flat) == Success(s1)
            && Step(HorizontalLineTo(true, 3.0), None, s1, flat) == Success(s2)
            && Step(VerticalLineTo(true, -1.0), None, s2, flat) == Success(s3)
  {
    assert [] + [Pair(1.0, 2.0)] == [Pair(1.0, 2.0)];
    assert [Pair(1.0, 2.0)] + [Pair(3.0, 2.0)] == [Pair(1.0, 2.0), Pair(3.0, 2.0)];
    assert [Pair(1.0, 2.0), Pair(3.0, 2.0)] + [Pair(3.0, -1.0)] == [Pair(1.0, 2.0), Pair(3.0, 2.0), Pair(3.0, -1.0)];
  }

  /** The states of `M 1,2 L 2,3 M 1,3 L 2,4 M 1,4 L 2,5 M 1,5`. */
  const MovesA: Polyline := [Pair(1.0, 2.0), Pair(2.0, 3.0)]
  const MovesB: Polyline := [Pair(1.0, 3.0), Pair(2.0, 4.0)]
  const MovesC: Polyline := [Pair(1.0, 4.0), Pair(2.0, 5.0)]
  const Moves0 := PathState(LineState([], None), [])
  const Moves1 := PathState(LineState([Pair(1.0, 2.0)], None), [])
  const Moves2 := PathState(LineState(MovesA, None), [])
  const Moves3 := PathState(LineState([Pair(1.0, 3.0)], Some(Pair(2.0, 3.0))), [MovesA])
  const Moves4 := PathState(LineState(MovesB, Some(Pair(2.0, 3.0))), [MovesA])
  const Moves5 := PathState(LineState([Pair(1.0, 4.0)], Some(Pair(2.0, 4.0))), [MovesA, MovesB])
  const Moves6 := PathState(LineState(MovesC, Some(Pair(2.0, 4.0))), [MovesA, MovesB])
  const Moves7 := PathState(LineState([Pair(1.0, 5.0)], Some(Pair(2.0, 5.0))), [MovesA, MovesB, MovesC])

  lemma MovesSteps(flat: Flattener)
    ensures Step(MoveTo(true, 1.0, 2.0), None, Moves0, flat) == Success(Moves1)
    ensures Step(LineTo(true, 2.0, 3.0), Some(MoveTo(true, 1.0, 2.0)), Moves1, flat) == Success(Moves2)
    ensures Step(MoveTo(true, 1.0, 3.0), Some(LineTo(true, 2.0, 3.0)), Moves2, flat) == Success(Moves3)
    ensures Step(LineTo(true, 2.0, 4.0), Some(MoveTo(true, 1.0, 3.0)), Moves3, flat) == Success(Moves4)
    ensures Step(MoveTo(true, 1.0, 4.0), Some(LineTo(true, 2.0, 4.0)), Moves4, flat) == Success(Moves5)
    ensures Step(LineTo(true, 2.0, 5.0), Some(MoveTo(true, 1.0, 4.0)), Moves5, flat) == Success(Moves6)
    ensures Step(MoveTo(true, 1.0, 5.0), Some(LineTo(true, 2.0, 5.0)), Moves6, flat) == Success(Moves7)
  {
    assert [] + [Pair(1.0, 2.0)] == [Pair(1.0, 2.0)] && [Pair(1.0, 2.0)] + [Pair(2.0, 3.0)] == MovesA;
    assert [] + [Pair(1.0, 3.0)] == [Pair(1.0, 3.0)] && [Pair(1.0, 3.0)] + [Pair(2.0, 4.0)] == MovesB;
    assert [] + [Pair(1.0, 4.0)] == [Pair(1.0, 4.0)] && [Pair(1.0, 4.0)] + [Pair(2.0, 5.0)] == MovesC;
    assert [] + [Pair(1.0, 5.0)] == [Pair(1.0, 5.0)];
    assert [] + [MovesA] == [MovesA] && [MovesA] + [MovesB] == [MovesA, MovesB];
    assert [MovesA, MovesB] + [MovesC] == [MovesA, MovesB, MovesC];
  }

  /** Four absolute `MoveTo`s around three `LineTo`s finish three lines and
      leave a one-point buffer. */
  lemma MultipleMoveTos(flat: Flattener)
    ensures Run([Success(MoveTo(true, 1.0, 2.0)), Success(LineTo(true, 2.0, 3.0)),
                 Success(MoveTo(true, 1.0, 3.0)), Success(LineTo(true, 2.0, 4.0)),
                 Success(MoveTo(true, 1.0, 4.0)), Success(LineTo(true, 2.0, 5.0)),
                 Success(MoveTo(true, 1.0, 5.0))], Start, flat)
            == Success(Walk(PathState(LineState([Pair(1.0, 5.0)], Some(Pair(2.0, 5.0))),
                                      [[Pair(1.0, 2.0), Pair(2.0, 3.0)],
                                       [Pair(1.0, 3.0), Pair(2.0, 4.0)],
                                       [Pair(1.0, 4.0), Pair(2.0, 5.0)]]),
                            Some(MoveTo(true, 1.0, 5.0))))
  {
    MovesSteps(flat);
    var m1, l1, m2, l2 := MoveTo(true, 1.0, 2.0), LineTo(true, 2.0, 3.0), MoveTo(true, 1.0, 3.0), LineTo(true, 2.0, 4.0);
    var m3, l3, m4 := MoveTo(true, 1.0, 4.0), LineTo(true, 2.0, 5.0), MoveTo(true, 1.0, 5.0);
    var t6: seq<Token> := [Success(m4)];
    var t5 := [Success(l3)] + t6;
    var t4 := [Success(m3)] + t5;
    var t3 := [Success(l2)] + t4;
    var t2 := [Success(m2)] + t3;
    var t1 := [Success(l1)] + t2;
    assert t6 == [Success(m4)] + [];
    RunCons(m4, [], Walk(Moves6, Some(l3)), Moves7, flat);
    RunCons(l3, t6, Walk(Moves5, Some(m3)), Moves6, flat);
    RunCons(m3, t5, Walk(Moves4, Some(l2)), Moves5, flat);
    RunCons(l2, t4, Walk(Moves3, Some(m2)), Moves4, flat);
    RunCons(m2, t3, Walk(Moves2, Some(l1)), Moves3, flat);
    RunCons(l1, t2, Walk(Moves1, Some(m1)), Moves2, flat);
    RunCons(m1, t1, Walk(Moves0, None), Moves1, flat);
    assert Start == Walk(Moves0, None);
  }

  /** A point added to the fresh buffer is the point itself, relative or not. */
  lemma AddToFresh(abs: bool, p: Pair)
    ensures Fresh.Add(abs, Pair(p.x, p.y)) == LineState([p], None)
  {
  }

  /** A point added to a non-empty buffer follows its last point. */
  lemma AddAfterLast(st: LineState, abs: bool, p: Pair)
    requires st.line != []
    ensures st.Add(abs, Pair(p.x, p.y))
            == LineState(st.line + [if abs then p else Offset(Last(st.line), p)], st.prevEnd)
  {
  }

  /** A point added to an emptied buffer follows the finished line's end. */
  lemma AddAfterFinished(q: Pair, abs: bool, p: Pair)
    ensures LineState([], Some(q)).Add(abs, Pair(p.x, p.y))
            == LineState([if abs then p else Offset(q, p)], Some(q))
  {
  }

  /** The four steps of `M a L b M c L d`, with each command absolute or
      relative. */
  lemma TwoMoveTosSteps(a1: bool, a2: bool, a3: bool, a4: bool, a: Pair, b: Pair, c: Pair, d: Pair, flat: Flattener)
    ensures var pb := if a2 then b else Offset(a, b);
            var pc := if a3 then c else Offset(pb, c);
            var pd := if a4 then d else Offset(pc, d);
            var m1, l1, m2, l2 := MoveTo(a1, a.x, a.y), LineTo(a2, b.x, b.y), MoveTo(a3, c.x, c.y), LineTo(a4, d.x, d.y);
            var s1 := PathState(LineState([a], None), []);
            var s2 := PathState(LineState([a, pb], None), []);
            var s3 := PathState(LineState([pc], Some(pb)), [[a, pb]]);
            Step(m1, None, PathState(Fresh, []), flat) == Success(s1)
            && Step(l1, Some(m1), s1, flat) == Success(s2)
            && Step(m2, Some(l1), s2, flat) == Success(s3)
            && Step(l2, Some(m2), s3, flat) == Success(PathState(LineState([pc, pd], Some(pb)), [[a, pb]]))
  {
    var pb := if a2 then b else Offset(a, b);
    var pc := if a3 then c else Offset(pb, c);
    var pd := if a4 then d else Offset(pc, d);
    var m1, l1, m2, l2 := MoveTo(a1, a.x, a.y), LineTo(a2, b.x, b.y), MoveTo(a3, c.x, c.y), LineTo(a4, d.x, d.y);
    var s1 := PathState(LineState([a], None), []);
    var s2 := PathState(LineState([a, pb], None), []);
    var s3 := PathState(LineState([pc], Some(pb)), [[a, pb]]);
    assert Step(m1, None, PathState(Fresh, []), flat) == Success(s1) by {
      AddToFresh(a1, a);
    }
    assert Step(l1, Some(m1), s1, flat) == Success(s2) by {
      AddAfterLast(s1.current, a2, b);
      assert [a] + [pb] == [a, pb];
    }
    assert Step(m2, Some(l1), s2, flat) == Success(s3) by {
      assert s2.current.IsValid() && s2.current.Finish() == ([a, pb], LineState([], Some(pb)));
      AddAfterFinished(pb, a3, c);
      assert [] + [[a, pb]] == [[a, pb]];
    }
    assert Step(l2, Some(m2), s3, flat) == Success(PathState(LineState([pc, pd], Some(pb)), [[a, pb]])) by {
      AddAfterLast(s3.current, a4, d);
      assert [pc] + [pd] == [pc, pd];
    }
  }

  /** `M a L b M c L d`, with each command absolute or relative: two lines
      of two points. The first point is `a` either way (relative to the
      origin), a relative `L` continues from the point before it, and the
      second relative `M` continues from the end of the finished line. */
  lemma TwoMoveTos(a1: bool, a2: bool, a3: bool, a4: bool, a: Pair, b: Pair, c: Pair, d: Pair, flat: Flattener)
    ensures var pb := if a2 then b else Offset(a, b);
            var pc := if a3 then c else Offset(pb, c);
            var pd := if a4 then d else Offset(pc, d);
            PathPolylines([Success(MoveTo(a1, a.x, a.y)), Success(LineTo(a2, b.x, b.y)),
                           Success(MoveTo(a3, c.x, c.y)), Success(LineTo(a4, d.x, d.y))], flat)
            == Success([[a, pb], [pc, pd]])
  {
    var pb := if a2 then b else Offset(a, b);
    var pc := if a3 then c else Offset(pb, c);
    var pd := if a4 then d else Offset(pc, d);
    var m1, l1, m2, l2 := MoveTo(a1, a.x, a.y), LineTo(a2, b.x, b.y), MoveTo(a3, c.x, c.y), LineTo(a4, d.x, d.y);
    var s0 := PathState(Fresh, []);
    var s1 := PathState(LineState([a], None), []);
    var s2 := PathState(LineState([a, pb], None), []);
    var s3 := PathState(LineState([pc], Some(pb)), [[a, pb]]);
    var s4 := PathState(LineState([pc, pd], Some(pb)), [[a, pb]]);
    var tokens := [Success(m1), Success(l1), Success(m2), Success(l2)];
    assert Run(tokens, Start, flat) == Success(Walk(s4, Some(l2))) by {
      TwoMoveTosSteps(a1, a2, a3, a4, a, b, c, d, flat);
      RunFour(m1, l1, m2, l2, s0, s1, s2, s3, s4, flat);
      assert Start == Walk(s0, None);
    }
    assert Flush(s4) == [[a, pb], [pc, pd]] by {
      assert s4.current.IsValid();
      assert [[a, pb]] + [[pc, pd]] == [[a, pb], [pc, pd]];
    }
  }

  /** The states of `M 113,35 H 40 L -39,49 H 40`. */
  const Absolute0 := PathState(LineState([], None), [])
  const Absolute1 := PathState(LineState([Pair(113.0, 35.0)], None), [])
  const Absolute2 := PathState(LineState([Pair(113.0, 35.0), Pair(40.0, 35.0)], None), [])
  const Absolute3 := PathState(LineState([Pair(113.0, 35.0), Pair(40.0, 35.0), Pair(-39.0, 49.0)], None), [])
  const Absolute4 := PathState(LineState([Pair(113.0, 35.0), Pair(40.0, 35.0), Pair(-39.0, 49.0), Pair(40.0, 49.0)], None), [])

  lemma AbsoluteSteps(flat: Flattener)
    ensures Step(MoveTo(true, 113.0, 35.0), None, Absolute0, flat) == Success(Absolute1)
    ensures Step(HorizontalLineTo(true, 40.0), Some(MoveTo(true, 113.0, 35.0)), Absolute1, flat)
            == Success(Absolute2)
    ensures Step(LineTo(true, -39.0, 49.0), Some(HorizontalLineTo(true, 40.0)), Absolute2, flat)
            == Success(Absolute3)
    ensures Step(HorizontalLineTo(true, 40.0), Some(LineTo(true, -39.0, 49.0)), Absolute3, flat)
            == Success(Absolute4)
  {
    assert [] + [Pair(113.0, 35.0)] == Absolute1.current.line;
    assert Absolute1.current.line + [Pair(40.0, 35.0)] == Absolute2.current.line;
    assert Absolute2.current.line + [Pair(-39.0, 49.0)] == Absolute3.current.line;
    assert Absolute3.current.line + [Pair(40.0, 49.0)] == Absolute4.current.line;
  }

  /** `M 113,35 H 40 L -39,49 H 40`. */
  lemma AbsoluteNonClosed(flat: Flattener)
    ensures PathPolylines([Success(MoveTo(true, 113.0, 35.0)), Success(HorizontalLineTo(true, 40.0)),
                           Success(LineTo(true, -39.0, 49.0)), Success(HorizontalLineTo(true, 40.0))], flat)
            == Success([[Pair(113.0, 35.0), Pair(40.0, 35.0), Pair(-39.0, 49.0), Pair(40.0, 49.0)]])
  {
    AbsoluteSteps(flat);
    var m, h1, l, h2 := MoveTo(true, 113.0, 35.0), HorizontalLineTo(true, 40.0), LineTo(true, -39.0, 49.0), HorizontalLineTo(true, 40.0);
    var t3: seq<Token> := [Success(h2)];
    var t2 := [Success(l)] + t3;
    var t1 := [Success(h1)] + t2;
    assert t3 == [Success(h2)] + [];
    RunCons(h2, [], Walk(Absolute3, Some(l)), Absolute4, flat);
    RunCons(l, t3, Walk(Absolute2, Some(h1)), Absolute3, flat);
    RunCons(h1, t2, Walk(Absolute1, Some(m)), Absolute2, flat);
    RunCons(m, t1, Walk(Absolute0, None), Absolute1, flat);
    assert Start == Walk(Absolute0, None);
    assert [] + [Absolute4.current.line] == [Absolute4.current.line];
  }

  /** The states of `M 10,10 20,15 10,20 Z m 0,40 H 0`. */
  const Issue5Closed: Polyline := [Pair(10.0, 10.0), Pair(20.0, 15.0), Pair(10.0, 20.0), Pair(10.0, 10.0)]
  const Issue5s0 := PathState(LineState([], None), [])
  const Issue5s1 := PathState(LineState([Pair(10.0, 10.0)], None), [])
  const Issue5s2 := PathState(LineState([Pair(10.0, 10.0), Pair(20.0, 15.0)], None), [])
  const Issue5s3 := PathState(LineState([Pair(10.0, 10.0), Pair(20.0, 15.0), Pair(10.0, 20.0)], None), [])
  const Issue5s4 := PathState(LineState(Issue5Closed, Some(Pair(10.0, 10.0))), [])
  const Issue5s5 := PathState(LineState([Pair(10.0, 50.0)], Some(Pair(10.0, 10.0))), [Issue5Closed])
  const Issue5s6 := PathState(LineState([Pair(10.0, 50.0), Pair(0.0, 50.0)], Some(Pair(10.0, 10.0))), [Issue5Closed])

  lemma Issue5Outline(flat: Flattener)
    ensures Step(MoveTo(true, 10.0, 10.0), None, Issue5s0, flat) == Success(Issue5s1)
    ensures Step(LineTo(true, 20.0, 15.0), Some(MoveTo(true, 10.0, 10.0)), Issue5s1, flat) == Success(Issue5s2)
    ensures Step(LineTo(true, 10.0, 20.0), Some(LineTo(true, 20.0, 15.0)), Issue5s2, flat) == Success(Issue5s3)
  {
    assert [] + [Pair(10.0, 10.0)] == Issue5s1.current.line;
    assert Issue5s1.current.line + [Pair(20.0, 15.0)] == Issue5s2.current.line;
    assert Issue5s2.current.line + [Pair(10.0, 20.0)] == Issue5s3.current.line;
  }

  lemma Issue5Restart(flat: Flattener)
    ensures Step(ClosePath(true), Some(LineTo(true, 10.0, 20.0)), Issue5s3, flat) == Success(Issue5s4)
    ensures Step(MoveTo(false, 0.0, 40.0), Some(ClosePath(true)), Issue5s4, flat) == Success(Issue5s5)
    ensures Step(HorizontalLineTo(true, 0.0), Some(MoveTo(false, 0.0, 40.0)), Issue5s5, flat) == Success(Issue5s6)
  {
    assert Issue5s3.current.line + [Pair(10.0, 10.0)] == Issue5Closed;
    assert [] + [Pair(10.0, 50.0)] == Issue5s5.current.line;
    assert [] + [Issue5Closed] == [Issue5Closed];
    assert Issue5s5.current.line + [Pair(0.0, 50.0)] == Issue5s6.current.line;
  }

  /** `M 10,10 20,15 10,20 Z m 0,40 H 0`: the relative move after the close
      starts from the closing point. */
  lemma RegressionIssue5(flat: Flattener)
    ensures PathPolylines([Success(MoveTo(true, 10.0, 10.0)), Success(LineTo(true, 20.0, 15.0)),
                           Success(LineTo(true, 10.0, 20.0)), Success(ClosePath(true)),
                           Success(MoveTo(false, 0.0, 40.0)), Success(HorizontalLineTo(true, 0.0))], flat)
            == Success([[Pair(10.0, 10.0), Pair(20.0, 15.0), Pair(10.0, 20.0), Pair(10.0, 10.0)],
                        [Pair(10.0, 50.0), Pair(0.0, 50.0)]])
  {
    Issue5Outline(flat);
    Issue5Restart(flat);
    var m1, l1, l2, z := MoveTo(true, 10.0, 10.0), LineTo(true, 20.0, 15.0), LineTo(true, 10.0, 20.0), ClosePath(true);
    var m2, h := MoveTo(false, 0.0, 40.0), HorizontalLineTo(true, 0.0);
    var t5: seq<Token> := [Success(h)];
    var t4 := [Success(m2)] + t5;
    var t3 := [Success(z)] + t4;
    var t2 := [Success(l2)] + t3;
    var t1 := [Success(l1)] + t2;
    assert t5 == [Success(h)] + [];
    RunCons(h, [], Walk(Issue5s5, Some(m2)), Issue5s6, flat);
    RunCons(m2, t5, Walk(Issue5s4, Some(z)), Issue5s5, flat);
    RunCons(z, t4, Walk(Issue5s3, Some(l2)), Issue5s4, flat);
    RunCons(l2, t3, Walk(Issue5s2, Some(l1)), Issue5s3, flat);
    RunCons(l1, t2, Walk(Issue5s1, Some(m1)), Issue5s2, flat);
    RunCons(m1, t1, Walk(Issue5s0, None), Issue5s1, flat);
    assert Start == Walk(Issue5s0, None);
    assert Issue5s6.lines + [Issue5s6.current.line] == [Issue5Closed, Issue5s6.current.line];
  }

  /** The states of `M 10,100 40,70 h 10 m -20,40 10,-20`. */
  const Issue7First: Polyline := [Pair(10.0, 100.0), Pair(40.0, 70.0), Pair(50.0, 70.0)]
  const Issue7s0 := PathState(LineState([], None), [])
  const Issue7s1 := PathState(LineState([Pair(10.0, 100.0)], None), [])
  const Issue7s2 := PathState(LineState([Pair(10.0, 100.0), Pair(40.0, 70.0)], None), [])
  const Issue7s3 := PathState(LineState(Issue7First, None), [])
  const Issue7s4 := PathState(LineState([Pair(30.0, 110.0)], Some(Pair(50.0, 70.0))), [Issue7First])
  const Issue7s5 := PathState(LineState([Pair(30.0, 110.0), Pair(40.0, 90.0)], Some(Pair(50.0, 70.0))), [Issue7First])

  /** The three commands that build the first line of issue 7. */
  lemma Issue7Outline(flat: Flattener)
    ensures Step(MoveTo(true, 10.0, 100.0), None, Issue7s0, flat) == Success(Issue7s1)
    ensures Step(LineTo(true, 40.0, 70.0), Some(MoveTo(true, 10.0, 100.0)), Issue7s1, flat) == Success(Issue7s2)
    ensures Step(HorizontalLineTo(false, 10.0), Some(LineTo(true, 40.0, 70.0)), Issue7s2, flat) == Success(Issue7s3)
  {
    assert Step(MoveTo(true, 10.0, 100.0), None, Issue7s0, flat) == Success(Issue7s1) by {
      assert [] + [Pair(10.0, 100.0)] == Issue7s1.current.line;
    }
    assert Step(LineTo(true, 40.0, 70.0), Some(MoveTo(true, 10.0, 100.0)), Issue7s1, flat) == Success(Issue7s2) by {
      assert Issue7s1.current.line + [Pair(40.0, 70.0)] == Issue7s2.current.line;
    }
    assert Issue7s2.current.line + [Pair(50.0, 70.0)] == Issue7First;
  }

  /** The relative move after the first line of issue 7 and the line after it. */
  lemma Issue7Restart(flat: Flattener)
    ensures Step(MoveTo(false, -20.0, 40.0), Some(HorizontalLineTo(false, 10.0)), Issue7s3, flat) == Success(Issue7s4)
    ensures Step(LineTo(false, 10.0, -20.0), Some(MoveTo(false, -20.0, 40.0)), Issue7s4, flat) == Success(Issue7s5)
  {
    assert Step(MoveTo(false, -20.0, 40.0), Some(HorizontalLineTo(false, 10.0)), Issue7s3, flat) == Success(Issue7s4) by {
      assert [] + [Pair(30.0, 110.0)] == Issue7s4.current.line;
      assert [] + [Issue7First] == [Issue7First];
    }
    assert Issue7s4.current.line + [Pair(40.0, 90.0)] == Issue7s5.current.line;
  }

  lemma Issue7Run(flat: Flattener)
    ensures Run([Success(MoveTo(true, 10.0, 100.0)), Success(LineTo(true, 40.0, 70.0)),
                 Success(HorizontalLineTo(false, 10.0)), Success(MoveTo(false, -20.0, 40.0)),
                 Success(LineTo(false, 10.0, -20.0))], Start, flat)
            == Success(Walk(Issue7s5, Some(LineTo(false, 10.0, -20.0))))
  {
    var m1, l1, h, m2, l2 := MoveTo(true, 10.0, 100.0), LineTo(true, 40.0, 70.0), HorizontalLineTo(false, 10.0),
                             MoveTo(false, -20.0, 40.0), LineTo(false, 10.0, -20.0);
    var t4: seq<Token> := [Success(l2)];
    var t3 := [Success(m2)] + t4;
    var t2 := [Success(h)] + t3;
    var t1 := [Success(l1)] + t2;
    assert t4 == [Success(l2)] + [];
    Issue7Outline(flat);
    Issue7Restart(flat);
    RunCons(l2, [], Walk(Issue7s4, Some(m2)), Issue7s5, flat);
    RunCons(m2, t4, Walk(Issue7s3, Some(h)), Issue7s4, flat);
    RunCons(h, t3, Walk(Issue7s2, Some(l1)), Issue7s3, flat);
    RunCons(l1, t2, Walk(Issue7s1, Some(m1)), Issue7s2, flat);
    RunCons(m1, t1, Walk(Issue7s0, None), Issue7s1, flat);
    assert Start == Walk(Issue7s0, None);
  }

  /** `M 10,100 40,70 h 10 m -20,40 10,-20`: the relative move starts from
      the finished line's last point. */
  lemma RegressionIssue7(flat: Flattener)
    ensures PathPolylines([Success(MoveTo(true, 10.0, 100.0)), Success(LineTo(true, 40.0, 70.0)),
                           Success(HorizontalLineTo(false, 10.0)), Success(MoveTo(false, -20.0, 40.0)),
                           Success(LineTo(false, 10.0, -20.0))], flat)
            == Success([[Pair(10.0, 100.0), Pair(40.0, 70.0), Pair(50.0, 70.0)],
                        [Pair(30.0, 110.0), Pair(40.0, 90.0)]])
  {
    Issue7Run(flat);
    assert Issue7s5.lines + [Issue7s5.current.line] == [Issue7First, Issue7s5.current.line];
  }

  /** `T` after a valid `M` fails and leaves everything as it was. */
  lemma SmoothQuadraticRejected(flat: Flattener)
    ensures var ps := Step(MoveTo(true, 1.0, 2.0), None, PathState(Fresh, []), flat).value;
            ps == PathState(LineState([Pair(1.0, 2.0)], None), [])
            && Step(SmoothQuadratic(true, 3.0, 4.0), None, ps, flat).Failure?
  {
    assert [] + [Pair(1.0, 2.0)] == [Pair(1.0, 2.0)];
  }

  /** The one polyline of the closed smooth path: the start, both
      approximations and the closing point. */
  function SmoothOutcome(flat: Flattener): Result<seq<Polyline>, PathError>
  {
    Success([SmoothLine(flat) + [Pair(10.0, 20.0)]])
  }

  /** `C 10,20 11,17 12,15` or its relative spelling `c 0,0 1,-3 2,-5` from (10,20). */
  function SmoothFirst(cAbs: bool): Segment
  {
    if cAbs then CurveTo(true, 10.0, 20.0, 11.0, 17.0, 12.0, 15.0)
    else CurveTo(false, 0.0, 0.0, 1.0, -3.0, 2.0, -5.0)
  }

  /** `S 2,7 10,20` or its relative spelling `s -10,-8 -2,5` from (12,15). */
  function SmoothSecond(sAbs: bool): Segment
  {
    if sAbs then SmoothCurveTo(true, 2.0, 7.0, 10.0, 20.0)
    else SmoothCurveTo(false, -10.0, -8.0, -2.0, 5.0)
  }

  /** The two curves every spelling describes. */
  const SmoothCurve1 := CubicBezier(Pair(10.0, 20.0), Pair(10.0, 20.0), Pair(11.0, 17.0), Pair(12.0, 15.0))
  const SmoothCurve2 := CubicBezier(Pair(12.0, 15.0), Pair(13.0, 13.0), Pair(2.0, 7.0), Pair(10.0, 20.0))

  /** The states of `M 10,20`, the curve, the smooth curve and `Z`. */
  const Smooth0 := PathState(LineState([], None), [])
  const Smooth1 := PathState(LineState([Pair(10.0, 20.0)], None), [])

  function Smooth2(flat: Flattener): PathState
  {
    PathState(LineState([Pair(10.0, 20.0)] + flat.cubic(SmoothCurve1, FlatteningTolerance), None), [])
  }

  function SmoothLine(flat: Flattener): Polyline
  {
    [Pair(10.0, 20.0)] + flat.cubic(SmoothCurve1, FlatteningTolerance) + flat.cubic(SmoothCurve2, FlatteningTolerance)
  }

  function Smooth3(flat: Flattener): PathState
  {
    PathState(LineState(SmoothLine(flat), None), [])
  }

  function Smooth4(flat: Flattener): PathState
  {
    PathState(LineState(SmoothLine(flat) + [Pair(10.0, 20.0)], Some(Pair(10.0, 20.0))), [])
  }

  lemma SmoothMoveStep(flat: Flattener)
    ensures Step(MoveTo(true, 10.0, 20.0), None, Smooth0, flat) == Success(Smooth1)
  {
    assert [] + [Pair(10.0, 20.0)] == [Pair(10.0, 20.0)];
  }

  lemma SmoothAbsoluteCurveStep(flat: Flattener)
    ensures Step(CurveTo(true, 10.0, 20.0, 11.0, 17.0, 12.0, 15.0), Some(MoveTo(true, 10.0, 20.0)), Smooth1, flat)
            == Success(Smooth2(flat))
  {
  }

  lemma SmoothRelativeCurveStep(flat: Flattener)
    ensures Step(CurveTo(false, 0.0, 0.0, 1.0, -3.0, 2.0, -5.0), Some(MoveTo(true, 10.0, 20.0)), Smooth1, flat)
            == Success(Smooth2(flat))
  {
  }

  lemma SmoothCurveStep(cAbs: bool, flat: Flattener)
    ensures Step(SmoothFirst(cAbs), Some(MoveTo(true, 10.0, 20.0)), Smooth1, flat) == Success(Smooth2(flat))
  {
    if cAbs {
      SmoothAbsoluteCurveStep(flat);
    } else {
      SmoothRelativeCurveStep(flat);
    }
  }

  lemma SmoothSmoothStep(cAbs: bool, sAbs: bool, flat: Flattener)
    requires CubicLandsOnEnd(flat)
    ensures Step(SmoothSecond(sAbs), Some(SmoothFirst(cAbs)), Smooth2(flat), flat)
            == Success(Smooth3(flat))
  {
    var first := flat.cubic(SmoothCurve1, FlatteningTolerance);
    assert first != [] && Last(first) == Pair(12.0, 15.0);
    assert Last(Smooth2(flat).current.line) == Pair(12.0, 15.0);
    assert Reflection(Some(SmoothFirst(cAbs))) == Some(Pair(1.0, -2.0));
  }

  lemma SmoothCloseStep(sAbs: bool, flat: Flattener)
    requires CubicLandsOnEnd(flat)
    ensures Step(ClosePath(false), Some(SmoothSecond(sAbs)), Smooth3(flat), flat)
            == Success(Smooth4(flat))
  {
    var line := SmoothLine(flat);
    assert flat.cubic(SmoothCurve1, FlatteningTolerance) != [];
    assert |line| >= 2 && line[0] == Pair(10.0, 20.0);
  }

  /** Four commands that each step successfully run to the last state. */
  lemma RunFour(a: Segment, b: Segment, c: Segment, d: Segment,
                s0: PathState, s1: PathState, s2: PathState, s3: PathState, s4: PathState, flat: Flattener)
    requires Step(a, None, s0, flat) == Success(s1)
    requires Step(b, Some(a), s1, flat) == Success(s2)
    requires Step(c, Some(b), s2, flat) == Success(s3)
    requires Step(d, Some(c), s3, flat) == Success(s4)
    ensures Run([Success(a), Success(b), Success(c), Success(d)], Walk(s0, None), flat)
            == Success(Walk(s4, Some(d)))
  {
    var t3: seq<Token> := [Success(d)];
    var t2 := [Success(c)] + t3;
    var t1 := [Success(b)] + t2;
    assert t3 == [Success(d)] + [];
    RunCons(d, [], Walk(s3, Some(c)), s4, flat);
    RunCons(c, t3, Walk(s2, Some(b)), s3, flat);
    RunCons(b, t2, Walk(s1, Some(a)), s2, flat);
    RunCons(a, t1, Walk(s0, None), s1, flat);
    assert [Success(a)] + t1 == [Success(a), Success(b), Success(c), Success(d)];
  }

  lemma SmoothRun(cAbs: bool, sAbs: bool, flat: Flattener)
    requires CubicLandsOnEnd(flat)
    ensures Run([Success(MoveTo(true, 10.0, 20.0)), Success(SmoothFirst(cAbs)),
                 Success(SmoothSecond(sAbs)), Success(ClosePath(false))], Start, flat)
            == Success(Walk(Smooth4(flat), Some(ClosePath(false))))
  {
    SmoothMoveStep(flat);
    SmoothCurveStep(cAbs, flat);
    SmoothSmoothStep(cAbs, sAbs, flat);
    SmoothCloseStep(sAbs, flat);
    RunFour(MoveTo(true, 10.0, 20.0), SmoothFirst(cAbs), SmoothSecond(sAbs), ClosePath(false),
            Smooth0, Smooth1, Smooth2(flat), Smooth3(flat), Smooth4(flat), flat);
    assert Start == Walk(Smooth0, None);
  }

  /** The four spellings of one smooth curve, absolute or relative `C` and
      `S`, produce the same polyline. */
  lemma SmoothSpellingsAgree(cAbs: bool, sAbs: bool, flat: Flattener)
    requires CubicLandsOnEnd(flat)
    ensures PathPolylines([Success(MoveTo(true, 10.0, 20.0)), Success(SmoothFirst(cAbs)),
                           Success(SmoothSecond(sAbs)), Success(ClosePath(false))], flat)
            == SmoothOutcome(flat)
  {
    SmoothRun(cAbs, sAbs, flat);
    assert flat.cubic(SmoothCurve1, FlatteningTolerance) != [];
    assert Smooth4(flat).current.IsValid();
    assert [] + [Smooth4(flat).current.line] == [Smooth4(flat).current.line];
  }
}
