/** The command-line tool's output (svg2polylines/src/main.rs): the
    polylines written as a three-level JSON array, one point per line, with
    CRLF line ends. How an `f64` is printed is a parameter, `fmt`. */
module JsonOutput {
  import opened Geometry

  /** Where the comma after a polyline that is not the last one goes. */
  datatype CommaPlacement =
    | BeforeBracket  // on the line of the closing bracket, before it
    | AfterBracket   // after the closing bracket

  /** One point: four spaces of indent, `[x, y]`, a comma unless it is the
      last point of its polyline, and a line end. */
  function PointText(p: Pair, last: bool, fmt: real -> string): string
  {
    "    [" + fmt(p.x) + ", " + fmt(p.y) + "]" + (if last then "" else ",") + "\r\n"
  }

  /** The first `n` points of `line`. */
  function PointsText(line: Polyline, n: nat, fmt: real -> string): string
    requires n <= |line|
  {
    if n == 0 then ""
    else PointsText(line, n - 1, fmt) + PointText(line[n - 1], n == |line|, fmt)
  }

  /** One polyline: an opening bracket line, its points, and a closing
      bracket line, with the separating comma placed as `comma` says. */
  function PolylineText(line: Polyline, last: bool, fmt: real -> string, comma: CommaPlacement): string
  {
    var separator := if last then "" else ",";
    "  [\r\n" + PointsText(line, |line|, fmt)
    + (if comma.BeforeBracket? then separator + "  ]\r\n" else "  ]" + separator + "\r\n")
  }

  /** The first `n` polylines of `lines`. */
  function LinesText(lines: seq<Polyline>, n: nat, fmt: real -> string, comma: CommaPlacement): string
    requires n <= |lines|
  {
    if n == 0 then ""
    else LinesText(lines, n - 1, fmt, comma) + PolylineText(lines[n - 1], n == |lines|, fmt, comma)
  }

  function RenderWith(lines: seq<Polyline>, fmt: real -> string, comma: CommaPlacement): string
  {
    "[\r\n" + LinesText(lines, |lines|, fmt, comma) + "]"
  }

  /** The text the tool prints, as main.rs builds it. */
  function Render(lines: seq<Polyline>, fmt: real -> string): string
  {
    RenderWith(lines, fmt, BeforeBracket)
  }

  /** The text with the comma after a polyline's closing bracket. */
  function CorrectedRender(lines: seq<Polyline>, fmt: real -> string): string
  {
    RenderWith(lines, fmt, AfterBracket)
  }

  lemma AppendAssociates(o: string, a: string, b: string, c: string, d: string, e: string)
    ensures o + a + b + c + d + e == o + (a + b + c + d + e)
  {
  }

  /** Pushing a point's pieces one by one appends its text. */
  lemma AppendPoint(o: string, p: Pair, last: bool, fmt: real -> string)
    ensures o + "    [" + fmt(p.x) + ", " + fmt(p.y) + "]" + (if last then "" else ",") + "\r\n"
            == o + PointText(p, last, fmt)
  {
    AppendAssociates(o, "    [", fmt(p.x), ", ", fmt(p.y), "]");
    var comma := if last then "" else ",";
    assert o + "    [" + fmt(p.x) + ", " + fmt(p.y) + "]" + comma + "\r\n"
        == o + ("    [" + fmt(p.x) + ", " + fmt(p.y) + "]" + comma + "\r\n");
  }

  lemma AppendGroups(o: string, a: string, b: string, c: string, d: string)
    ensures o + a + b + c + d == o + (a + b + (c + d))
  {
  }

  /** Pushing a polyline's closing pieces appends its text. */
  lemma AppendPolyline(before: string, line: Polyline, last: bool, fmt: real -> string)
    ensures before + "  [\r\n" + PointsText(line, |line|, fmt) + (if last then "" else ",") + "  ]\r\n"
            == before + PolylineText(line, last, fmt, BeforeBracket)
  {
    AppendGroups(before, "  [\r\n", PointsText(line, |line|, fmt), if last then "" else ",", "  ]\r\n");
  }

  lemma AppendAfter(a: string, b: string, c: string)
    ensures a + b + c == a + (b + c)
  {
  }

  /** The output loop of main.rs. */
  method WriteJson(lines: seq<Polyline>, fmt: real -> string) returns (out: string)
    ensures out == Render(lines, fmt)
  {
    out := "[\r\n";
    for idx := 0 to |lines|
      invariant out == "[\r\n" + LinesText(lines, idx, fmt, BeforeBracket)
    {
      var line := lines[idx];
      ghost var before := out;
      out := out + "  [\r\n";
      ghost var start := out;
      assert start + PointsText(line, 0, fmt) == start;
      for j := 0 to |line|
        invariant out == start + PointsText(line, j, fmt)
      {
        ghost var previous := out;
        AppendPoint(previous, line[j], j == |line| - 1, fmt);
        AppendAfter(start, PointsText(line, j, fmt), PointText(line[j], j == |line| - 1, fmt));
        out := out + "    [" + fmt(line[j].x) + ", " + fmt(line[j].y) + "]";
        if j != |line| - 1 {
          out := out + ",";
        } else {
          assert out + "" == out;
        }
        out := out + "\r\n";
        assert out == previous + PointText(line[j], j == |line| - 1, fmt);
      }
      AppendPolyline(before, line, idx == |lines| - 1, fmt);
      AppendAfter("[\r\n", LinesText(lines, idx, fmt, BeforeBracket), PolylineText(line, idx == |lines| - 1, fmt, BeforeBracket));
      if idx != |lines| - 1 {
        out := out + ",";
      } else {
        assert out + "" == out;
      }
      out := out + "  ]\r\n";
      assert out == before + PolylineText(line, idx == |lines| - 1, fmt, BeforeBracket);
    }
    out := out + "]";
  }

  /*** JSON without whitespace ***/

  predicate IsWhitespace(c: char)
  {
    c == ' ' || c == '\r' || c == '\n'
  }

  function Keep(c: char): string
  {
    if IsWhitespace(c) then [] else [c]
  }

  /** The first `n` characters of `s` with spaces and line ends removed. */
  function StripPrefix(s: string, n: nat): string
    requires n <= |s|
  {
    if n == 0 then [] else StripPrefix(s, n - 1) + Keep(s[n - 1])
  }

  /** `s` with its spaces and line ends removed. */
  function Strip(s: string): string
  {
    StripPrefix(s, |s|)
  }

  predicate NoWhitespace(s: string)
  {
    forall k | 0 <= k < |s| :: !IsWhitespace(s[k])
  }

  /** A number formatter that never prints whitespace, as `f64`'s does not. */
  ghost predicate Compact(fmt: real -> string)
  {
    forall r: real :: NoWhitespace(fmt(r))
  }

  /** The elements separated by commas. */
  function Join(items: seq<string>): string
  {
    if |items| == 0 then ""
    else if |items| == 1 then items[0]
    else Join(items[..|items| - 1]) + "," + items[|items| - 1]
  }

  function Array(items: seq<string>): string
  {
    "[" + Join(items) + "]"
  }

  function PointJson(p: Pair, fmt: real -> string): string
  {
    Array([fmt(p.x), fmt(p.y)])
  }

  function PolylineJson(line: Polyline, fmt: real -> string): string
  {
    Array(PointsJson(line, fmt))
  }

  /** The polylines as a compact three-level JSON array. */
  function DocumentJson(lines: seq<Polyline>, fmt: real -> string): string
  {
    Array(PolylinesJson(lines, fmt))
  }

  /** Only the characters counted matter. */
  lemma {:induction false} StripPrefixAgrees(s: string, t: string, n: nat)
    requires n <= |s| && n <= |t|
    requires s[..n] == t[..n]
    ensures StripPrefix(s, n) == StripPrefix(t, n)
  {
    if n > 0 {
      assert s[n - 1] == s[..n][n - 1] == t[..n][n - 1] == t[n - 1];
      assert s[..n - 1] == s[..n][..n - 1];
      assert t[..n - 1] == t[..n][..n - 1];
      StripPrefixAgrees(s, t, n - 1);
    }
  }

  lemma {:induction false} StripPrefixAppend(a: string, b: string, k: nat)
    requires k <= |b|
    ensures StripPrefix(a + b, |a| + k) == Strip(a) + StripPrefix(b, k)
  {
    if k == 0 {
      assert (a + b)[..|a|] == a[..|a|];
      StripPrefixAgrees(a + b, a, |a|);
      assert Strip(a) + [] == Strip(a);
    } else {
      StripPrefixAppend(a, b, k - 1);
      assert (a + b)[|a| + k - 1] == b[k - 1];
    }
  }

  lemma StripAppend(a: string, b: string)
    ensures Strip(a + b) == Strip(a) + Strip(b)
  {
    StripPrefixAppend(a, b, |b|);
  }

  lemma {:induction false} StripPrefixNoWhitespace(s: string, n: nat)
    requires NoWhitespace(s)
    requires n <= |s|
    ensures StripPrefix(s, n) == s[..n]
  {
    if n > 0 {
      StripPrefixNoWhitespace(s, n - 1);
      assert s[..n - 1] + [s[n - 1]] == s[..n];
    }
  }

  lemma StripNoWhitespace(s: string)
    requires NoWhitespace(s)
    ensures Strip(s) == s
  {
    StripPrefixNoWhitespace(s, |s|);
    assert s[..|s|] == s;
  }

  /** `s` without whitespace, from its whitespace-free pieces. */
  lemma StripPieces(a: string, b: string, a': string, b': string)
    requires Strip(a) == a' && Strip(b) == b'
    ensures Strip(a + b) == a' + b'
  {
    StripAppend(a, b);
  }

  lemma AppendEmpty(s: string)
    ensures s + "" == s
  {
  }

  /** What the writer's fixed pieces of text keep without whitespace. */
  lemma StripDocumentOpen()
    ensures Strip("[\r\n") == "["
  {
    var s := "[\r\n";
    assert StripPrefix(s, 1) == "[";
    assert StripPrefix(s, 2) == "[" + [];
  }

  lemma StripPolylineOpen()
    ensures Strip("  [\r\n") == "["
  {
    var s := "  [\r\n";
    assert StripPrefix(s, 1) == [];
    assert StripPrefix(s, 2) == [];
    assert StripPrefix(s, 3) == "[";
    assert StripPrefix(s, 4) == "[" + [];
  }

  lemma StripPointOpen()
    ensures Strip("    [") == "["
  {
    var s := "    [";
    assert StripPrefix(s, 1) == [];
    assert StripPrefix(s, 2) == [];
    assert StripPrefix(s, 3) == [];
    assert StripPrefix(s, 4) == [];
  }

  lemma StripPointSeparator()
    ensures Strip(", ") == ","
  {
    var s := ", ";
    assert StripPrefix(s, 1) == ",";
  }

  lemma StripLineEnd()
    ensures Strip("\r\n") == ""
  {
    var s := "\r\n";
    assert StripPrefix(s, 1) == [];
  }

  lemma StripBracketLine()
    ensures Strip("  ]") == "]"
  {
    var s := "  ]";
    assert StripPrefix(s, 1) == [];
    assert StripPrefix(s, 2) == [];
  }

  lemma StripPolylineClose()
    ensures Strip("  ]\r\n") == "]"
  {
    var s := "  ]\r\n";
    assert StripPrefix(s, 1) == [];
    assert StripPrefix(s, 2) == [];
    assert StripPrefix(s, 3) == "]";
    assert StripPrefix(s, 4) == "]" + [];
  }

  /** The separator after a point or a polyline is kept as it is. */
  lemma StripSeparator(separator: string)
    requires separator == "" || separator == ","
    ensures Strip(separator) == separator
  {
    StripNoWhitespace(separator);
  }

  lemma PairJoin(x: string, y: string)
    ensures Join([x, y]) == x + "," + y
  {
    assert [x, y][..1] == [x];
  }

  /** A point written from whitespace-free numbers. */
  lemma StripPointPieces(x: string, y: string, comma: string)
    requires NoWhitespace(x) && NoWhitespace(y)
    requires comma == "" || comma == ","
    ensures Strip("    [" + x + ", " + y + "]" + comma + "\r\n") == "[" + Join([x, y]) + "]" + comma
  {
    StripPointOpen();
    StripPointSeparator();
    StripLineEnd();
    StripNoWhitespace(x);
    StripNoWhitespace(y);
    StripNoWhitespace("]");
    StripSeparator(comma);
    StripPieces("    [", x, "[", x);
    StripPieces("    [" + x, ", ", "[" + x, ",");
    StripPieces("    [" + x + ", ", y, "[" + x + ",", y);
    StripPieces("    [" + x + ", " + y, "]", "[" + x + "," + y, "]");
    StripPieces("    [" + x + ", " + y + "]", comma, "[" + x + "," + y + "]", comma);
    StripPieces("    [" + x + ", " + y + "]" + comma, "\r\n", "[" + x + "," + y + "]" + comma, "");
    AppendEmpty("[" + x + "," + y + "]" + comma);
    PairJoin(x, y);
    AppendAfter("[", x, ",");
    AppendAfter("[", x + ",", y);
  }

  /** A point's text without whitespace is its JSON array and its comma. */
  lemma StripPoint(p: Pair, last: bool, fmt: real -> string)
    requires Compact(fmt)
    ensures Strip(PointText(p, last, fmt)) == PointJson(p, fmt) + (if last then "" else ",")
  {
    StripPointPieces(fmt(p.x), fmt(p.y), if last then "" else ",");
  }

  /** The JSON array of a point sequence. */
  function PointsJson(line: Polyline, fmt: real -> string): (r: seq<string>)
    ensures |r| == |line|
    ensures forall k | 0 <= k < |line| :: r[k] == PointJson(line[k], fmt)
  {
    seq(|line|, k requires 0 <= k < |line| => PointJson(line[k], fmt))
  }

  /** Appending the next element and its separator to the first elements
      joined (each but the last followed by a comma) joins one more. */
  lemma JoinExtend(items: seq<string>, n: nat, before: string, separator: string)
    requires 0 < n <= |items|
    requires before == Join(items[..n - 1]) + (if n > 1 then "," else "")
    requires separator == if n == |items| then "" else ","
    ensures before + (items[n - 1] + separator) == Join(items[..n]) + (if 0 < n < |items| then "," else "")
  {
    var item := items[n - 1];
    if n == 1 {
      assert items[..n] == [item];
      assert before == [];
      assert [] + (item + separator) == item + separator;
    } else {
      var head := Join(items[..n - 1]);
      assert items[..n][..n - 1] == items[..n - 1];
      assert Join(items[..n]) == head + "," + item;
      AppendAfter(head + ",", item, separator);
    }
  }

  /** The first `n` points without whitespace: their JSON arrays joined by
      commas, and the comma of the `n`th point unless it is the last. */
  lemma {:induction false} StripPoints(line: Polyline, n: nat, fmt: real -> string)
    requires Compact(fmt)
    requires n <= |line|
    ensures Strip(PointsText(line, n, fmt)) == Join(PointsJson(line, fmt)[..n]) + (if 0 < n < |line| then "," else "")
  {
    if n == 0 {
      assert Strip([]) == [];
    } else {
      var comma := if n == |line| then "" else ",";
      StripAppend(PointsText(line, n - 1, fmt), PointText(line[n - 1], n == |line|, fmt));
      StripPoint(line[n - 1], n == |line|, fmt);
      StripPoints(line, n - 1, fmt);
      JoinExtend(PointsJson(line, fmt), n, Strip(PointsText(line, n - 1, fmt)), comma);
    }
  }

  /** Bracketed, the points' text without whitespace is the polyline's
      JSON array. */
  lemma StripPointsAll(line: Polyline, fmt: real -> string)
    requires Compact(fmt)
    ensures "[" + Strip(PointsText(line, |line|, fmt)) + "]" == PolylineJson(line, fmt)
  {
    var points := PointsJson(line, fmt);
    StripPoints(line, |line|, fmt);
    assert points[..|line|] == points;
    AppendEmpty(Join(points));
  }

  /** A polyline's text without whitespace. */
  lemma StripPolyline(line: Polyline, last: bool, fmt: real -> string, comma: CommaPlacement)
    ensures var separator := if last then "" else ",";
            Strip(PolylineText(line, last, fmt, comma))
            == "[" + Strip(PointsText(line, |line|, fmt))
               + (if comma.BeforeBracket? then separator + "]" else "]" + separator)
  {
    var separator := if last then "" else ",";
    var points := PointsText(line, |line|, fmt);
    var inner := Strip(points);
    StripPolylineOpen();
    StripSeparator(separator);
    StripPieces("  [\r\n", points, "[", inner);
    if comma.BeforeBracket? {
      StripPolylineClose();
      StripPieces(separator, "  ]\r\n", separator, "]");
      StripPieces("  [\r\n" + points, separator + "  ]\r\n", "[" + inner, separator + "]");
    } else {
      StripBracketLine();
      StripLineEnd();
      StripPieces("  ]", separator, "]", separator);
      StripPieces("  ]" + separator, "\r\n", "]" + separator, "");
      AppendEmpty("]" + separator);
      StripPieces("  [\r\n" + points, "  ]" + separator + "\r\n", "[" + inner, "]" + separator);
    }
  }

  /** The JSON arrays of the polylines. */
  function PolylinesJson(lines: seq<Polyline>, fmt: real -> string): (r: seq<string>)
    ensures |r| == |lines|
    ensures forall k | 0 <= k < |lines| :: r[k] == PolylineJson(lines[k], fmt)
  {
    seq(|lines|, k requires 0 <= k < |lines| => PolylineJson(lines[k], fmt))
  }

  /** With the comma after the bracket, a polyline without whitespace is
      its JSON array and its comma. */
  lemma StripCorrectedPolyline(line: Polyline, last: bool, fmt: real -> string)
    requires Compact(fmt)
    ensures Strip(PolylineText(line, last, fmt, AfterBracket)) == PolylineJson(line, fmt) + (if last then "" else ",")
  {
    var bracketed := "[" + Strip(PointsText(line, |line|, fmt));
    StripPolyline(line, last, fmt, AfterBracket);
    StripPointsAll(line, fmt);
    AppendAfter(bracketed, "]", if last then "" else ",");
  }

  /** The first `n` polylines, with the comma after the bracket, without
      whitespace. */
  lemma {:induction false} StripLines(lines: seq<Polyline>, n: nat, fmt: real -> string)
    requires Compact(fmt)
    requires n <= |lines|
    ensures Strip(LinesText(lines, n, fmt, AfterBracket))
            == Join(PolylinesJson(lines, fmt)[..n]) + (if 0 < n < |lines| then "," else "")
  {
    var polylines := PolylinesJson(lines, fmt);
    if n == 0 {
      assert Strip([]) == [];
    } else {
      var separator := if n == |lines| then "" else ",";
      var before := Strip(LinesText(lines, n - 1, fmt, AfterBracket));
      StripAppend(LinesText(lines, n - 1, fmt, AfterBracket), PolylineText(lines[n - 1], n == |lines|, fmt, AfterBracket));
      StripCorrectedPolyline(lines[n - 1], n == |lines|, fmt);
      StripLines(lines, n - 1, fmt);
      JoinExtend(polylines, n, before, separator);
    }
  }

  lemma StripFrame(lines: seq<Polyline>, fmt: real -> string, comma: CommaPlacement)
    ensures Strip(RenderWith(lines, fmt, comma)) == "[" + Strip(LinesText(lines, |lines|, fmt, comma)) + "]"
  {
    var body := LinesText(lines, |lines|, fmt, comma);
    StripDocumentOpen();
    StripNoWhitespace("]");
    StripPieces("[\r\n", body, "[", Strip(body));
    StripPieces("[\r\n" + body, "]", "[" + Strip(body), "]");
  }

  /** With the comma after the closing bracket, the text is the polylines'
      JSON array once its whitespace is removed. */
  lemma CorrectedRenderIsJson(lines: seq<Polyline>, fmt: real -> string)
    requires Compact(fmt)
    ensures Strip(CorrectedRender(lines, fmt)) == DocumentJson(lines, fmt)
  {
    var polylines := PolylinesJson(lines, fmt);
    StripFrame(lines, fmt, AfterBracket);
    StripLines(lines, |lines|, fmt);
    assert polylines[..|lines|] == polylines;
    assert polylines == seq(|lines|, k requires 0 <= k < |lines| => PolylineJson(lines[k], fmt));
    AppendEmpty(Join(polylines));
  }

  /** The last polyline carries no comma, so where the comma goes does not
      matter for it. */
  lemma LastPolylineAgrees(line: Polyline, fmt: real -> string)
    ensures PolylineText(line, true, fmt, BeforeBracket) == PolylineText(line, true, fmt, AfterBracket)
  {
    assert "" + "  ]\r\n" == "  ]" + "" + "\r\n";
  }

  /** As written, the text is JSON when there is at most one polyline ... */
  lemma RenderIsJsonForOnePolyline(lines: seq<Polyline>, fmt: real -> string)
    requires Compact(fmt)
    requires |lines| <= 1
    ensures Strip(Render(lines, fmt)) == DocumentJson(lines, fmt)
  {
    if |lines| == 1 {
      LastPolylineAgrees(lines[0], fmt);
      assert LinesText(lines, 1, fmt, BeforeBracket) == LinesText(lines, 1, fmt, AfterBracket);
    }
    CorrectedRenderIsJson(lines, fmt);
  }

  /** Two bracketed texts that end with the same piece differ when what
      comes before that piece ends differently. */
  lemma EndsDiffer(m: string, k: string, last: string)
    requires |m| > 0 && |k| > 0 && m[|m| - 1] != k[|k| - 1]
    ensures "[" + (m + last) + "]" != "[" + (k + last) + "]"
  {
    var s, t := "[" + (m + last) + "]", "[" + (k + last) + "]";
    assert s[|s| - |last| - 2] == m[|m| - 1];
    assert t[|t| - |last| - 2] == k[|k| - 1];
  }

  /** The last polyline, without whitespace, is its JSON array. */
  lemma StripLastPolyline(line: Polyline, fmt: real -> string)
    requires Compact(fmt)
    ensures Strip(PolylineText(line, true, fmt, BeforeBracket)) == PolylineJson(line, fmt)
  {
    StripPolyline(line, true, fmt, BeforeBracket);
    StripPointsAll(line, fmt);
    assert "" + "]" == "]";
  }

  /** As written, a polyline followed by another one, without whitespace,
      ends in its closing bracket. */
  lemma StripInnerPolyline(line: Polyline, fmt: real -> string)
    ensures var text := Strip(PolylineText(line, false, fmt, BeforeBracket));
            |text| > 0 && text[|text| - 1] == ']'
  {
    StripPolyline(line, false, fmt, BeforeBracket);
  }

  /** As written, the text without whitespace ends with the last polyline's
      array, right after a `]`. */
  lemma WrittenEnding(lines: seq<Polyline>, fmt: real -> string)
    requires Compact(fmt)
    requires |lines| >= 2
    ensures var written := Strip(LinesText(lines, |lines| - 1, fmt, BeforeBracket));
            && |written| > 0 && written[|written| - 1] == ']'
            && Strip(Render(lines, fmt)) == "[" + (written + PolylineJson(lines[|lines| - 1], fmt)) + "]"
  {
    var n := |lines|;
    var head := LinesText(lines, n - 2, fmt, BeforeBracket);
    var inner := PolylineText(lines[n - 2], false, fmt, BeforeBracket);
    var body := LinesText(lines, n - 1, fmt, BeforeBracket);
    var final := PolylineText(lines[n - 1], true, fmt, BeforeBracket);
    StripFrame(lines, fmt, BeforeBracket);
    assert LinesText(lines, n, fmt, BeforeBracket) == body + final;
    StripAppend(body, final);
    StripLastPolyline(lines[n - 1], fmt);
    assert body == head + inner;
    StripAppend(head, inner);
    StripInnerPolyline(lines[n - 2], fmt);
  }

  /** The JSON array ends with the last polyline's array, right after a `,`. */
  lemma JsonEnding(lines: seq<Polyline>, fmt: real -> string)
    requires |lines| >= 2
    ensures var joined := Join(PolylinesJson(lines, fmt)[..|lines| - 1]) + ",";
            DocumentJson(lines, fmt) == "[" + (joined + PolylineJson(lines[|lines| - 1], fmt)) + "]"
  {
  }

  /** ... and is not JSON once there are two: the comma after every polyline
      but the last lands inside that polyline's brackets. */
  lemma RenderIsNotJsonForTwoPolylines(lines: seq<Polyline>, fmt: real -> string)
    requires Compact(fmt)
    requires |lines| >= 2
    ensures Strip(Render(lines, fmt)) != DocumentJson(lines, fmt)
  {
    WrittenEnding(lines, fmt);
    JsonEnding(lines, fmt);
    EndsDiffer(Strip(LinesText(lines, |lines| - 1, fmt, BeforeBracket)),
               Join(PolylinesJson(lines, fmt)[..|lines| - 1]) + ",",
               PolylineJson(lines[|lines| - 1], fmt));
  }

  /*** The text as written ***/

  /** One polyline as written, without whitespace: its points' arrays and,
      unless it is the last, a comma before its closing bracket. */
  function WrittenPolyline(line: Polyline, last: bool, fmt: real -> string): string
  {
    "[" + Join(PointsJson(line, fmt)) + ((if last then "" else ",") + "]")
  }

  /** The first `n` polylines as written, without whitespace, one after the
      other. */
  function WrittenBody(lines: seq<Polyline>, n: nat, fmt: real -> string): string
    requires n <= |lines|
  {
    if n == 0 then "" else WrittenBody(lines, n - 1, fmt) + WrittenPolyline(lines[n - 1], n == |lines|, fmt)
  }

  lemma StripWrittenPolyline(line: Polyline, last: bool, fmt: real -> string)
    requires Compact(fmt)
    ensures Strip(PolylineText(line, last, fmt, BeforeBracket)) == WrittenPolyline(line, last, fmt)
  {
    var points := PointsJson(line, fmt);
    StripPolyline(line, last, fmt, BeforeBracket);
    StripPoints(line, |line|, fmt);
    assert points[..|line|] == points;
    AppendEmpty(Join(points));
  }

  /** The polylines as written, without whitespace, are the polylines'
      written texts one after the other. */
  lemma {:induction false} StripWrittenLines(lines: seq<Polyline>, n: nat, fmt: real -> string)
    requires Compact(fmt)
    requires n <= |lines|
    ensures Strip(LinesText(lines, n, fmt, BeforeBracket)) == WrittenBody(lines, n, fmt)
  {
    if n == 0 {
      assert Strip([]) == [];
    } else {
      StripWrittenPolyline(lines[n - 1], n == |lines|, fmt);
      StripWrittenLines(lines, n - 1, fmt);
      StripPieces(LinesText(lines, n - 1, fmt, BeforeBracket), PolylineText(lines[n - 1], n == |lines|, fmt, BeforeBracket),
                  WrittenBody(lines, n - 1, fmt), WrittenPolyline(lines[n - 1], n == |lines|, fmt));
    }
  }

  /** The text main.rs prints, without whitespace: the written polylines
      between the document's brackets. */
  lemma StripRenderIsWritten(lines: seq<Polyline>, fmt: real -> string)
    requires Compact(fmt)
    ensures Strip(Render(lines, fmt)) == "[" + WrittenBody(lines, |lines|, fmt) + "]"
  {
    StripFrame(lines, fmt, BeforeBracket);
    StripWrittenLines(lines, |lines|, fmt);
  }

  /*** One line per point ***/

  /** The number of line ends in `s`. */
  function LineEnds(s: string): nat
  {
    if |s| == 0 then 0
    else LineEnds(s[..|s| - 1]) + (if s[|s| - 1] == '\n' then 1 else 0)
  }

  lemma {:induction false} LineEndsAppend(a: string, b: string)
    ensures LineEnds(a + b) == LineEnds(a) + LineEnds(b)
  {
    if |b| > 0 {
      assert (a + b)[..|a + b| - 1] == a + b[..|b| - 1];
      LineEndsAppend(a, b[..|b| - 1]);
    } else {
      assert a + b == a;
    }
  }

  /** The number of points of the first `n` polylines. */
  function PointCount(lines: seq<Polyline>, n: nat): nat
    requires n <= |lines|
  {
    if n == 0 then 0 else PointCount(lines, n - 1) + |lines[n - 1]|
  }

  lemma {:induction false} NoLineEnd(s: string)
    requires forall k | 0 <= k < |s| :: s[k] != '\n'
    ensures LineEnds(s) == 0
  {
    if |s| > 0 {
      NoLineEnd(s[..|s| - 1]);
    }
  }

  lemma OneLineEnd(s: string)
    requires |s| > 0 && s[|s| - 1] == '\n'
    requires forall k | 0 <= k < |s| - 1 :: s[k] != '\n'
    ensures LineEnds(s) == 1
  {
    NoLineEnd(s[..|s| - 1]);
  }

  /** A point is written on a line of its own. */
  lemma PointLineEnds(p: Pair, last: bool, fmt: real -> string)
    requires Compact(fmt)
    ensures LineEnds(PointText(p, last, fmt)) == 1
  {
    var x, y := fmt(p.x), fmt(p.y);
    var comma := if last then "" else ",";
    NoLineEnd("    [");
    NoLineEnd(x);
    NoLineEnd(", ");
    NoLineEnd(y);
    NoLineEnd("]");
    NoLineEnd(comma);
    OneLineEnd("\r\n");
    LineEndsAppend("    [", x);
    LineEndsAppend("    [" + x, ", ");
    LineEndsAppend("    [" + x + ", ", y);
    LineEndsAppend("    [" + x + ", " + y, "]");
    LineEndsAppend("    [" + x + ", " + y + "]", comma);
    LineEndsAppend("    [" + x + ", " + y + "]" + comma, "\r\n");
  }

  lemma {:induction false} PointsLineEnds(line: Polyline, n: nat, fmt: real -> string)
    requires Compact(fmt)
    requires n <= |line|
    ensures LineEnds(PointsText(line, n, fmt)) == n
  {
    if n == 0 {
      assert PointsText(line, n, fmt) == [];
    } else {
      PointsLineEnds(line, n - 1, fmt);
      PointLineEnds(line[n - 1], n == |line|, fmt);
      LineEndsAppend(PointsText(line, n - 1, fmt), PointText(line[n - 1], n == |line|, fmt));
    }
  }

  /** A polyline takes a line for each point and one for each bracket,
      wherever its comma goes. */
  lemma PolylineLineEnds(line: Polyline, last: bool, fmt: real -> string, comma: CommaPlacement)
    requires Compact(fmt)
    ensures LineEnds(PolylineText(line, last, fmt, comma)) == |line| + 2
  {
    var separator := if last then "" else ",";
    var points := PointsText(line, |line|, fmt);
    var close := if comma.BeforeBracket? then separator + "  ]\r\n" else "  ]" + separator + "\r\n";
    PointsLineEnds(line, |line|, fmt);
    OneLineEnd("  [\r\n");
    NoLineEnd(separator);
    assert LineEnds(close) == 1 by {
      OneLineEnd("  ]\r\n");
      OneLineEnd("\r\n");
      NoLineEnd("  ]");
      if comma.BeforeBracket? {
        LineEndsAppend(separator, "  ]\r\n");
      } else {
        LineEndsAppend("  ]", separator);
        LineEndsAppend("  ]" + separator, "\r\n");
      }
    }
    LineEndsAppend("  [\r\n", points);
    LineEndsAppend("  [\r\n" + points, close);
  }

  lemma {:induction false} LinesLineEnds(lines: seq<Polyline>, n: nat, fmt: real -> string, comma: CommaPlacement)
    requires Compact(fmt)
    requires n <= |lines|
    ensures LineEnds(LinesText(lines, n, fmt, comma)) == 2 * n + PointCount(lines, n)
  {
    if n == 0 {
      assert LinesText(lines, n, fmt, comma) == [];
    } else {
      LinesLineEnds(lines, n - 1, fmt, comma);
      PolylineLineEnds(lines[n - 1], n == |lines|, fmt, comma);
      LineEndsAppend(LinesText(lines, n - 1, fmt, comma), PolylineText(lines[n - 1], n == |lines|, fmt, comma));
    }
  }

  /** The printed text, wherever the commas go, has one line per point, two
      per polyline for its brackets and one for the document's opening
      bracket; the closing bracket ends the text without a line end. */
  lemma RenderLineEnds(lines: seq<Polyline>, fmt: real -> string, comma: CommaPlacement)
    requires Compact(fmt)
    ensures LineEnds(RenderWith(lines, fmt, comma)) == 1 + 2 * |lines| + PointCount(lines, |lines|)
  {
    LinesLineEnds(lines, |lines|, fmt, comma);
    DocumentBracketLineEnds();
    FramedLineEnds("[\r\n", LinesText(lines, |lines|, fmt, comma), "]");
  }

  lemma DocumentBracketLineEnds()
    ensures LineEnds("[\r\n") == 1 && LineEnds("]") == 0
  {
    OneLineEnd("[\r\n");
    NoLineEnd("]");
  }

  lemma FramedLineEnds(open: string, body: string, close: string)
    ensures LineEnds(open + body + close) == LineEnds(open) + LineEnds(body) + LineEnds(close)
  {
    LineEndsAppend(open, body);
    LineEndsAppend(open + body, close);
  }
}
