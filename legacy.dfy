/** The first interpreter of the repository, src/lib.rs: only `MoveTo` and
    `LineTo` draw, every coordinate is taken as written, and the line under
    construction when the path data ends is never emitted. */
module LegacyInterpreter {
  import opened Wrappers
  import opened Geometry
  import opened PathSegments

  /** What the path tokenizer yields: a command, or the end of the data. */
  datatype PathToken = Command(segment: Segment) | EndOfPath

  /** One tokenizer result: a token or a syntax error. */
  type PathItem = Result<PathToken, string>

  /** What the markup tokenizer yields: an attribute with its path data
      already tokenized, any other markup, or the end of the document. */
  datatype MarkupToken = Attribute(name: string, value: seq<PathItem>) | OtherMarkup | EndOfDocument

  type MarkupItem = Result<MarkupToken, string>

  /** Only the `d` attribute holds path data. */
  const PathAttribute: string := "d"

  /** The tokens that end `parse_path`'s loop: the end of the data or a
      syntax error. */
  predicate Stops(item: PathItem)
  {
    item.Failure? || item.value == EndOfPath
  }

  predicate AllLong(lines: seq<Polyline>)
  {
    forall k | 0 <= k < |lines| :: |lines[k]| > 1
  }

  /** The loop of `parse_path`, from buffer `line` with finished `lines`:
      a `MoveTo` emits the buffer if it has more than one point and starts a
      new one, a `LineTo` appends, anything else is skipped, and the loop
      ends at the first stopping token with the buffer discarded. */
  function Fold(items: seq<PathItem>, line: Polyline, lines: seq<Polyline>): (r: seq<Polyline>)
    ensures lines <= r
    ensures AllLong(r[|lines|..])
    decreases |items|
  {
    if items == [] || Stops(items[0]) then lines
    else
      match items[0].value.segment
      case MoveTo(_, x, y) =>
        var next := if |line| > 1 then lines + [line] else lines;
        var r := Fold(items[1..], [Pair(x, y)], next);
        assert r[|lines|..] == next[|lines|..] + r[|next|..];
        r
      case LineTo(_, x, y) => Fold(items[1..], line + [Pair(x, y)], lines)
      case _ => Fold(items[1..], line, lines)
  }

  /** The polylines of one path expression. */
  function PathPolylines(items: seq<PathItem>): seq<Polyline>
  {
    Fold(items, [], [])
  }

  /** `parse`: the polylines of every `d` attribute in document order, up to
      the end of the document; a markup error discards them all. */
  function Collect(items: seq<MarkupItem>): Result<seq<Polyline>, string>
    decreases |items|
  {
    if items == [] then Success([])
    else
      match items[0]
      case Failure(e) => Failure(e)
      case Success(EndOfDocument) => Success([])
      case Success(OtherMarkup) => Collect(items[1..])
      case Success(Attribute(name, value)) =>
        if name == PathAttribute then Prepend(PathPolylines(value), Collect(items[1..]))
        else Collect(items[1..])
  }

  /** `parse_path`. */
  method ParsePath(items: seq<PathItem>) returns (lines: seq<Polyline>)
    ensures lines == PathPolylines(items)
  {
    lines := [];
    var line: Polyline := [];
    var i := 0;
    while i < |items|
      invariant 0 <= i <= |items|
      invariant PathPolylines(items) == Fold(items[i..], line, lines)
    {
      assert items[i..][0] == items[i] && items[i..][1..] == items[i + 1..];
      if Stops(items[i]) {
        break;
      }
      match items[i].value.segment {
        case MoveTo(_, x, y) =>
          if |line| > 1 {
            lines := lines + [line];
          }
          line := [Pair(x, y)];
        case LineTo(_, x, y) =>
          line := line + [Pair(x, y)];
        case _ =>
      }
      i := i + 1;
    }
  }

  /** `parse`. */
  method Parse(items: seq<MarkupItem>) returns (r: Result<seq<Polyline>, string>)
    ensures r == Collect(items)
  {
    var polylines: seq<Polyline> := [];
    assert items[0..] == items;
    PrependNothing(Collect(items));
    var i := 0;
    while i < |items|
      invariant 0 <= i <= |items|
      invariant Collect(items) == Prepend(polylines, Collect(items[i..]))
    {
      assert items[i..][0] == items[i] && items[i..][1..] == items[i + 1..];
      if items[i].Failure? {
        return Failure(items[i].error);
      }
      match items[i].value {
        case Attribute(name, value) =>
          if name == PathAttribute {
            var lines := ParsePath(value);
            PrependTwice(polylines, lines, Collect(items[i + 1..]));
            polylines := polylines + lines;
          }
        case EndOfDocument =>
          break;
        case OtherMarkup =>
      }
      i := i + 1;
    }
    assert polylines + [] == polylines;
    r := Success(polylines);
  }

  /*** Properties ***/

  /** Every polyline of a path expression has at least two points. */
  lemma PathPolylinesAreLong(items: seq<PathItem>)
    ensures AllLong(PathPolylines(items))
  {
    var r := PathPolylines(items);
    assert r[0..] == r;
  }

  /** A stopping token discards everything after it, whatever it is. */
  lemma {:induction false} StopDiscardsRest(items: seq<PathItem>, stop: PathItem, rest: seq<PathItem>,
                                            line: Polyline, lines: seq<Polyline>)
    requires Stops(stop)
    ensures Fold(items + [stop] + rest, line, lines) == Fold(items, line, lines)
    decreases |items|
  {
    var all := items + [stop] + rest;
    if items == [] {
      assert all[0] == stop;
    } else {
      assert all[0] == items[0];
      assert all[1..] == items[1..] + [stop] + rest;
      if !Stops(items[0]) {
        match items[0].value.segment
        case MoveTo(_, x, y) =>
          StopDiscardsRest(items[1..], stop, rest, [Pair(x, y)], if |line| > 1 then lines + [line] else lines);
        case LineTo(_, x, y) =>
          StopDiscardsRest(items[1..], stop, rest, line + [Pair(x, y)], lines);
        case _ =>
          StopDiscardsRest(items[1..], stop, rest, line, lines);
      }
    }
  }

  predicate IsMoveTo(item: PathItem)
  {
    item.Success? && item.value.Command? && item.value.segment.MoveTo?
  }

  /** The buffer is emitted only by a later `MoveTo`: without one, no line
      is added, however long the buffer grows. */
  lemma {:induction false} BufferNeedsMoveTo(items: seq<PathItem>, line: Polyline, lines: seq<Polyline>)
    requires forall k | 0 <= k < |items| :: !IsMoveTo(items[k])
    ensures Fold(items, line, lines) == lines
    decreases |items|
  {
    if items != [] && !Stops(items[0]) {
      assert !IsMoveTo(items[0]);
      assert forall k | 0 <= k < |items[1..]| :: !IsMoveTo(items[1..][k]) by {
        forall k | 0 <= k < |items[1..]| ensures !IsMoveTo(items[1..][k]) {
          assert items[1..][k] == items[k + 1];
        }
      }
      var segment := items[0].value.segment;
      if segment.LineTo? {
        BufferNeedsMoveTo(items[1..], line + [Pair(segment.x, segment.y)], lines);
      } else {
        BufferNeedsMoveTo(items[1..], line, lines);
      }
    }
  }

  /** A command other than `MoveTo` and `LineTo` is skipped: taking it out
      of the data, wherever it stands before the loop stops, changes
      nothing. */
  lemma {:induction false} OtherCommandSkipped(items: seq<PathItem>, i: nat, line: Polyline, lines: seq<Polyline>)
    requires i < |items|
    requires forall k | 0 <= k < i :: !Stops(items[k])
    requires !Stops(items[i]) && !items[i].value.segment.MoveTo? && !items[i].value.segment.LineTo?
    ensures Fold(items[..i] + items[i + 1..], line, lines) == Fold(items, line, lines)
    decreases i
  {
    var without := items[..i] + items[i + 1..];
    if i == 0 {
      assert without == items[1..];
    } else {
      assert without[0] == items[0] && without[1..] == items[1..][..i - 1] + items[1..][i..];
      assert forall k | 0 <= k < i - 1 :: !Stops(items[1..][k]) by {
        forall k | 0 <= k < i - 1 ensures !Stops(items[1..][k]) {
          assert items[1..][k] == items[k + 1];
        }
      }
      var segment := items[0].value.segment;
      var nextLine, nextLines :=
        if segment.MoveTo? then [Pair(segment.x, segment.y)]
        else if segment.LineTo? then line + [Pair(segment.x, segment.y)]
        else line,
        if segment.MoveTo? && |line| > 1 then lines + [line] else lines;
      assert Fold(items, line, lines) == Fold(items[1..], nextLine, nextLines);
      assert Fold(without, line, lines) == Fold(without[1..], nextLine, nextLines);
      OtherCommandSkipped(items[1..], i - 1, nextLine, nextLines);
    }
  }

  /** A command with its relative flag cleared. */
  function AsAbsolute(item: PathItem): (r: PathItem)
    ensures Stops(r) == Stops(item)
  {
    match item
    case Success(Command(MoveTo(_, x, y))) => Success(Command(MoveTo(true, x, y)))
    case Success(Command(LineTo(_, x, y))) => Success(Command(LineTo(true, x, y)))
    case _ => item
  }

  /** Relative `m` and `l` are taken as absolute: clearing every relative
      flag does not change the polylines. */
  lemma {:induction false} RelativeFlagIgnored(items: seq<PathItem>, line: Polyline, lines: seq<Polyline>)
    ensures Fold(seq(|items|, k requires 0 <= k < |items| => AsAbsolute(items[k])), line, lines)
            == Fold(items, line, lines)
    decreases |items|
  {
    var absolute := seq(|items|, k requires 0 <= k < |items| => AsAbsolute(items[k]));
    if items != [] {
      assert absolute[0] == AsAbsolute(items[0]);
      var tail := seq(|items[1..]|, k requires 0 <= k < |items[1..]| => AsAbsolute(items[1..][k]));
      assert absolute[1..] == tail;
      if !Stops(items[0]) {
        match items[0].value.segment
        case MoveTo(_, x, y) =>
          RelativeFlagIgnored(items[1..], [Pair(x, y)], if |line| > 1 then lines + [line] else lines);
        case LineTo(_, x, y) =>
          RelativeFlagIgnored(items[1..], line + [Pair(x, y)], lines);
        case _ =>
          RelativeFlagIgnored(items[1..], line, lines);
      }
    }
  }

  /** A document is rejected exactly when a markup error comes before the
      end of the document. */
  lemma {:induction false} CollectFailsIff(items: seq<MarkupItem>)
    ensures Collect(items).Failure?
            <==> exists k | 0 <= k < |items| :: items[k].Failure?
                   && forall j | 0 <= j < k :: items[j] != Success(EndOfDocument)
    decreases |items|
  {
    if items != [] {
      CollectFailsIff(items[1..]);
      if items[0].Success? && items[0].value != EndOfDocument {
        if Collect(items).Failure? {
          var k :| 0 <= k < |items[1..]| && items[1..][k].Failure?
                   && forall j | 0 <= j < k :: items[1..][j] != Success(EndOfDocument);
          assert items[k + 1].Failure?;
          assert forall j | 0 <= j < k + 1 :: items[j] != Success(EndOfDocument) by {
            forall j | 0 <= j < k + 1 ensures items[j] != Success(EndOfDocument) {
              if j > 0 {
                assert items[j] == items[1..][j - 1];
              }
            }
          }
        } else {
          forall k | 0 <= k < |items| && items[k].Failure?
            ensures exists j | 0 <= j < k :: items[j] == Success(EndOfDocument)
          {
            assert k > 0;
            assert items[1..][k - 1].Failure?;
            var j :| 0 <= j < k - 1 && items[1..][j] == Success(EndOfDocument);
            assert items[j + 1] == Success(EndOfDocument);
          }
        }
      }
    }
  }

  /** Every polyline of a document has at least two points. */
  lemma {:induction false} CollectedPolylinesAreLong(items: seq<MarkupItem>)
    requires Collect(items).Success?
    ensures AllLong(Collect(items).value)
    decreases |items|
  {
    if items != [] && items[0] != Success(EndOfDocument) {
      CollectedPolylinesAreLong(items[1..]);
      if items[0].value.Attribute? && items[0].value.name == PathAttribute {
        PathPolylinesAreLong(items[0].value.value);
      }
    }
  }
}
