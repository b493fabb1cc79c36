# svg2polylines in Dafny

svg2polylines turns the `d` attributes of the `<path>` elements of an SVG document
into polylines: sequences of coordinate pairs, with Bezier curves approximated by
line segments. This project models the interpreter at its core and proves
properties of it:

- `CurrentLine` is the buffer for the polyline being built. It remembers the
  end point of the previously finished line, so that relative coordinates
  continue from there.
- `parse_path_segment` and `_handle_cubic_curve` interpret one path command.
  The commands are moves, lines, horizontal and vertical lines, cubic and
  smooth cubic curves, quadratic curves and close-path.
- `parse_path` interprets one path expression and stops at its first error.
- `parse` concatenates the polylines of all path expressions.
- The first, legacy interpreter (`src/lib.rs`) only draws `MoveTo` and
  `LineTo`.
- The command-line tool writes the polylines as a JSON array
  (`svg2polylines/src/main.rs`).

Files:

- `wrappers.dfy`: `Option`, `Result` and `Outcome`.
- `geometry.dfy`: coordinate pairs and polylines.
- `path_segments.dfy`: the typed path commands and the curve flattener.
- `line_buffer.dfy`: the `CurrentLine` buffer.
  - The value `LineState` is the specification.
  - The class `CurrentLine` updates its `line` and `prevEnd` fields in place.
- `interpreter.dfy`:
  - the functions `Step`, `Run`, `PathPolylines` and `AllPolylines`, which specify the interpreter;
  - the imperative methods `ParsePathSegment`, `ParsePath` and `Parse`, proved against those functions.
- `interpreter_properties.dfy`:
  - the effect of each command;
  - abort on the first error;
  - every emitted polyline has at least two points.
- `interpreter_scenarios.dfy`: the command sequences the test suite pins, for any flattener, except the smooth-curve scenario, which assumes `CubicLandsOnEnd`; and `M a L b M c L d` for all points and relative flags.
- `legacy.dfy`: the legacy interpreter.
- `json_output.dfy`: the JSON writer, what its text is once whitespace is removed, and how many lines it has.

Coordinates are exact `real`s. A relative coordinate is resolved by exact
addition.

Curve flattening (the `lyon_geom` library) is a parameter of type `Flattener`:
a function per curve kind. Where a property needs to know where an
approximation ends, it is stated under `CubicLandsOnEnd`. This predicate says
that the approximation of a cubic curve is non-empty and ends at the curve's
end point.

The quirks of the code are modelled as written:

- A `MoveTo` on a buffer with exactly one point appends to that buffer.
- A smooth cubic curve without a curve before it takes the current point's
  coordinates as its first control point, even when the command is relative.
- Elliptical arcs and smooth quadratic curves are rejected as unsupported.
- The message text "emtpy" is kept.

The comment on `prev_end` (svg2polylines/src/lib.rs:69-70) says it holds the
*start* of the previous polyline. `finish` (svg2polylines/src/lib.rs:143-148)
stores its *last* point. The model follows the code.

## Model

| member | source | states |
|---|---|---|
| Geometry.Offset | svg2polylines/src/lib.rs:89-98 | the point reached lies exactly `delta` away from the base point (`Difference` undoes `Offset`) |
| LineBuffer.LineState.AddAbsolute | svg2polylines/src/lib.rs:84-86 | the buffer with the point appended at its end; `prevEnd` unchanged |
| LineBuffer.LineState.AddRelative | svg2polylines/src/lib.rs:89-98 | a relative point is appended as the reference point moved by `delta`. The reference is the last buffered point, else the previous line's end, else the origin |
| LineBuffer.LineState.Add | svg2polylines/src/lib.rs:101-107 | `AddAbsolute` of the point when `abs` holds, otherwise `AddRelative` of it |
| LineBuffer.LineState.IsValid | svg2polylines/src/lib.rs:110-112 | a buffer is worth emitting exactly when it holds more than one point |
| LineBuffer.LineState.LastPair | svg2polylines/src/lib.rs:115-117 | the last buffered point, or none on an empty buffer |
| LineBuffer.LineState.LastX | svg2polylines/src/lib.rs:120-122 | the last buffered point's x, or none on an empty buffer |
| LineBuffer.LineState.LastY | svg2polylines/src/lib.rs:125-127 | the last buffered point's y, or none on an empty buffer |
| LineBuffer.LineState.Close | svg2polylines/src/lib.rs:129-139 | closing fails exactly when the buffer has fewer than two points, with the source's message. Otherwise it appends the first point, keeps the rest, and sets `prevEnd` to the first point |
| LineBuffer.LineState.Finish | svg2polylines/src/lib.rs:141-148 | hands back the whole buffer and leaves it empty, with `prevEnd` set to the returned line's last point (none if empty) |
| LineBuffer.RelativeIsAbsoluteFromReference | svg2polylines/src/lib.rs:100-107 | relative and absolute addition agree, in both directions, once the reference point is accounted for |
| LineBuffer.RelativeAfterFinish | svg2polylines/src/lib.rs:143-148 | after `finish`, a relative point starts the new line from the finished line's last point, not from the origin |
| LineBuffer.RelativeAfterClose | svg2polylines/src/lib.rs:129-139 | after a successful `close`, a relative point continues from the line's first point |
| LineBuffer.CurrentLine.constructor | svg2polylines/src/lib.rs:76-81 | a new buffer is empty and has no previous end |
| LineBuffer.CurrentLine.AddAbsolute | svg2polylines/src/lib.rs:84-86 | pushes the point and changes nothing else |
| LineBuffer.CurrentLine.AddRelative | svg2polylines/src/lib.rs:89-98 | the new state is `LineState.AddRelative` of the old one: one point pushed, offset from the reference |
| LineBuffer.CurrentLine.Add | svg2polylines/src/lib.rs:101-107 | dispatches on `abs`; the new state is `LineState.Add` of the old one |
| LineBuffer.CurrentLine.Close | svg2polylines/src/lib.rs:130-139 | fails exactly on a buffer shorter than two points, leaving it unchanged. Otherwise it appends the first point and records it as `prevEnd`; agrees with `LineState.Close` |
| LineBuffer.CurrentLine.Finish | svg2polylines/src/lib.rs:143-148 | returns the old buffer, empties it, and sets `prevEnd` to its last point; agrees with `LineState.Finish` |
| Interpreter.CubicStep | svg2polylines/src/lib.rs:225-257 | fails on an empty buffer with the source's message. Otherwise the buffer with the flattener's points for the curve from the current point appended, relative points offset from it |
| Interpreter.Reflection | svg2polylines/src/lib.rs:318-335 | for a `C`/`c`/`S`/`s` predecessor, the offset (x − x2, y − y2) from its second control point to its end; none for any other predecessor or none |
| Interpreter.SmoothStep | svg2polylines/src/lib.rs:311-364 | with a reflection: the cubic step with first control point current + offset (absolute) or the offset itself (relative). Without: the current point's coordinates. Fails on an empty buffer, with the message that depends on the branch |
| Interpreter.Step | svg2polylines/src/lib.rs:260-398 | the new buffer and finished lines after one command, or its error: `MoveTo` finishes a valid buffer, lines and curves append, `ClosePath` closes, `T` and arcs are unsupported |
| Interpreter.Run | svg2polylines/src/lib.rs:208-213 | the commands interpreted in order, each with its predecessor, stopping at the first syntax error or failing command |
| Interpreter.Flush | svg2polylines/src/lib.rs:215-218 | the finished lines, plus the buffer when it holds more than one point |
| Interpreter.PathPolylines | svg2polylines/src/lib.rs:201-221 | `Run` from the fresh buffer, then `Flush`; the first error otherwise |
| Interpreter.AllPolylines | svg2polylines/src/lib.rs:401-418 | every path expression's polylines concatenated in document order, or the first error |
| Interpreter.AddFlattened | svg2polylines/src/lib.rs:253-255 | the loop over the flattened points appends all of them, in order |
| Interpreter.HandleCubicCurve | svg2polylines/src/lib.rs:225-257 | fails on an empty buffer without changing it. Otherwise it appends the flattener's approximation of the curve from the current point, with relative points offset from it. Agrees with `CubicStep` |
| Interpreter.SmoothWithReflection | svg2polylines/src/lib.rs:333-345 | the reflected first control point is the current point plus (dx, dy) when absolute, (dx, dy) itself when relative; then as `HandleCubicCurve` |
| Interpreter.ParsePathSegment | svg2polylines/src/lib.rs:260-398 | the buffer and finished lines after one command are exactly those `Step` gives, including every error. A failing command changes neither |
| Interpreter.ParsePath | svg2polylines/src/lib.rs:201-221 | the result is `PathPolylines`: the commands interpreted in order, a syntax error or command error returned at once, and the last buffer emitted only if it has two or more points |
| Interpreter.Parse | svg2polylines/src/lib.rs:401-418 | the result is `AllPolylines`: every path expression's polylines in document order, or the first error |
| InterpreterProperties.StepFailsExactlyWhen | svg2polylines/src/lib.rs:267-398 | a command fails if and only if it is unsupported, or needs a current point and the buffer is empty, or closes a line of fewer than two points |
| InterpreterProperties.StepKeepsFinishedLines | svg2polylines/src/lib.rs:268-274 | only a `MoveTo` on a buffer with two or more points adds a finished line, and that line is the buffer |
| InterpreterProperties.MoveToStep | svg2polylines/src/lib.rs:268-274 | on a valid buffer: finish it and start a new one at the (possibly relative) point. On a buffer of fewer than two points: append to it |
| InterpreterProperties.HorizontalLineToStep | svg2polylines/src/lib.rs:279-288 | fails exactly on an empty buffer, with the source's message. Otherwise it appends a point with the last y and the new (absolute or offset) x |
| InterpreterProperties.VerticalLineToStep | svg2polylines/src/lib.rs:289-298 | fails exactly on an empty buffer. Otherwise it appends a point with the last x and the new (absolute or offset) y |
| InterpreterProperties.CurveToStep | svg2polylines/src/lib.rs:299-310 | fails exactly on an empty buffer. Otherwise it appends the approximation of the curve from the current point, with relative control and end points offset from it |
| InterpreterProperties.QuadraticStep | svg2polylines/src/lib.rs:365-386 | fails exactly on an empty buffer. Otherwise it appends the approximation of the quadratic curve from the current point |
| InterpreterProperties.SmoothCurveToStep | svg2polylines/src/lib.rs:311-364 | fails exactly on an empty buffer, with the message that depends on the predecessor. The first control point is reflected from a curve predecessor, else the current point |
| InterpreterProperties.SmoothReflectsPreviousControl | svg2polylines/src/lib.rs:333-345 | after an absolute `C` ending at the current point, the first control point of `S` is the mirror image (2px − x2, 2py − y2) of the previous second control point |
| InterpreterProperties.SmoothMirrorsAnyCurve | svg2polylines/src/lib.rs:318-345 | after any `C`, `c`, `S` or `s` ending at the current point, measured from any base point, the first control point of `S`/`s` is the previous second control point mirrored about the current point |
| InterpreterProperties.ClosePathStep | svg2polylines/src/lib.rs:387-392 | fails exactly below two points, with the prefixed message. Otherwise it appends the first point and records it as `prevEnd` |
| InterpreterProperties.RunAppend | svg2polylines/src/lib.rs:208-213 | interpreting `a + b` is interpreting `a`, then `b` from where `a` left off, unless `a` failed |
| InterpreterProperties.FirstErrorAborts | svg2polylines/src/lib.rs:208-213 | the first failing command's error is the path's result, whatever follows it |
| InterpreterProperties.UnsupportedAnywhereFails | svg2polylines/src/lib.rs:393-395 | a syntax error or unsupported command anywhere makes the whole path fail |
| InterpreterProperties.RunExtendsValidLines | svg2polylines/src/lib.rs:208-213 | finished lines are only appended to, never changed, and each appended line has at least two points |
| InterpreterProperties.PathPolylinesAreValid | svg2polylines/src/lib.rs:215-220 | every polyline of a path has at least two points |
| InterpreterProperties.AllPolylinesFailsIff | svg2polylines/src/lib.rs:412-414 | `parse` fails if and only if some path expression fails |
| InterpreterProperties.AllPolylinesAppend | svg2polylines/src/lib.rs:409-417 | the polylines of two runs of path expressions are the first run's followed by the second's |
| InterpreterProperties.AllPolylinesAreValid | svg2polylines/src/lib.rs:401-418 | every polyline `parse` returns has at least two points |
| InterpreterScenarios.CurrentLineTrace | svg2polylines/src/lib.rs:426-464 | validity and last coordinates as points are added. Close fails on one point. `finish` hands back two points, or three after a close that repeats the first |
| InterpreterScenarios.SegmentDataSteps | svg2polylines/src/lib.rs:468-511 | `M 1,2 L 2,3 L 3,2` finishes no line and buffers the three points |
| InterpreterScenarios.HorizontalVerticalSteps | svg2polylines/src/lib.rs:515-550 | `M 1,2 H 3 V -1` buffers (1,2), (3,2), (3,−1) |
| InterpreterScenarios.SmoothQuadraticRejected | svg2polylines/src/lib.rs:553-582 | after `M 1,2` a smooth quadratic fails; no line is finished and the buffer is the one point |
| InterpreterScenarios.MultipleMoveTos | svg2polylines/src/lib.rs:586-670 | four moves with lines between them finish three two-point lines and leave a one-point buffer |
| InterpreterScenarios.AddToFresh | svg2polylines/src/lib.rs:89-107 | the first point of a fresh buffer is the point itself, absolute or relative (relative to the origin) |
| InterpreterScenarios.AddAfterLast | svg2polylines/src/lib.rs:89-107 | on a non-empty buffer a point is appended as given, or offset from the last point when relative |
| InterpreterScenarios.AddAfterFinished | svg2polylines/src/lib.rs:89-107 | on a buffer emptied by `finish` a relative point is offset from the finished line's end |
| InterpreterScenarios.TwoMoveTosSteps | svg2polylines/src/lib.rs:268-278 | the buffer and finished lines after each command of `M a L b M c L d`, for every combination of relative flags |
| InterpreterScenarios.TwoMoveTos | svg2polylines/src/lib.rs:201-221 | `M a L b M c L d`, each absolute or relative, gives exactly the two polylines [a, b′] and [c′, d′], with b′, c′, d′ resolved from the point before |
| InterpreterScenarios.AbsoluteNonClosed | svg2polylines/src/lib.rs:673-688 | `M 113,35 H 40 L -39,49 H 40` gives one four-point polyline |
| InterpreterScenarios.RegressionIssue5 | svg2polylines/src/lib.rs:718-737 | after a close, a relative move continues from the closing point: two polylines, the second from (10,50) |
| InterpreterScenarios.RegressionIssue7 | svg2polylines/src/lib.rs:740-763 | after a finished line, a relative move continues from its last point: (30,110), (40,90) |
| InterpreterScenarios.SmoothSpellingsAgree | svg2polylines/src/lib.rs:766-782 | the four absolute/relative spellings of `C … S … z` give the same single polyline |
| LegacyInterpreter.PathPolylines | src/lib.rs:12-52 | the polylines the loop emits from an empty buffer: a buffer of more than one point at each later `MoveTo`, the final buffer never |
| LegacyInterpreter.Fold | src/lib.rs:19-49 | the result extends the lines given, and every line it adds has more than one point |
| LegacyInterpreter.ParsePath | src/lib.rs:12-52 | the loop's result is `PathPolylines`: moves and lines only, stopping at the end or at an error, with the last buffer dropped |
| LegacyInterpreter.Parse | src/lib.rs:54-81 | the loop's result is `Collect`: every `d` attribute's polylines in order up to the end of the document, or the first markup error |
| LegacyInterpreter.PathPolylinesAreLong | src/lib.rs:26-32 | every emitted polyline has more than one point |
| LegacyInterpreter.StopDiscardsRest | src/lib.rs:41-47 | the end of the data or a syntax error discards everything after it |
| LegacyInterpreter.BufferNeedsMoveTo | src/lib.rs:26-51 | without a later `MoveTo` no line is emitted, so the final buffer is always dropped |
| LegacyInterpreter.OtherCommandSkipped | src/lib.rs:36-38 | a command other than `MoveTo` and `LineTo` before the loop stops is skipped: removing it leaves the polylines unchanged |
| LegacyInterpreter.RelativeFlagIgnored | src/lib.rs:25-35 | clearing every relative flag does not change the polylines: relative moves and lines are taken as absolute |
| LegacyInterpreter.Collect | src/lib.rs:54-81 | the polylines of every `d` attribute concatenated up to the end of the document, or the first markup error |
| LegacyInterpreter.CollectFailsIff | src/lib.rs:59-78 | a document fails if and only if a markup error comes before the end of the document |
| LegacyInterpreter.CollectedPolylinesAreLong | src/lib.rs:54-81 | every polyline of a document has more than one point |
| JsonOutput.Render | svg2polylines/src/main.rs:41-62 | the text the tool prints: brackets on lines of their own, one point per line, CRLF line ends, the comma between polylines before the closing `  ]` |
| JsonOutput.CorrectedRender | svg2polylines/src/main.rs:41-62 | the same text with the comma between polylines after the closing `  ]`, as the help text's 3D array needs |
| JsonOutput.WriteJson | svg2polylines/src/main.rs:41-62 | the nested loops build exactly `Render`: brackets, one point per line, CRLF line ends, commas as placed in the source |
| JsonOutput.StripPoint | svg2polylines/src/main.rs:50-55 | a point's line without whitespace is `[x,y]` followed by its comma, unless it is the last point |
| JsonOutput.StripPoints | svg2polylines/src/main.rs:50-56 | a polyline's point lines without whitespace are the points' arrays joined by commas |
| JsonOutput.StripPolyline | svg2polylines/src/main.rs:48-60 | a polyline's text without whitespace, for either comma placement: `[points,]` as written, `[points],` corrected |
| JsonOutput.StripLines | svg2polylines/src/main.rs:47-61 | with the comma after the bracket, the polylines without whitespace are their arrays joined by commas |
| JsonOutput.StripWrittenPolyline | svg2polylines/src/main.rs:48-60 | a polyline as written, without whitespace, is `[`, its points' arrays joined by commas, then `,]` unless it is the last, else `]` |
| JsonOutput.StripWrittenLines | svg2polylines/src/main.rs:47-61 | the polylines as written, without whitespace, are their written texts one after the other, with no separator between them |
| JsonOutput.StripRenderIsWritten | svg2polylines/src/main.rs:41-62 | the printed text without whitespace is `[`, the written polylines concatenated, then `]` |
| JsonOutput.PointLineEnds | svg2polylines/src/main.rs:50-55 | each point takes exactly one line |
| JsonOutput.PointsLineEnds | svg2polylines/src/main.rs:49-56 | the points of a polyline take one line each |
| JsonOutput.PolylineLineEnds | svg2polylines/src/main.rs:48-60 | a polyline takes one line per point plus two for its brackets, wherever its comma goes |
| JsonOutput.LinesLineEnds | svg2polylines/src/main.rs:47-61 | the polylines take two lines each plus one line per point |
| JsonOutput.RenderLineEnds | svg2polylines/src/main.rs:41-62 | the printed text has 1 + 2·(number of polylines) + (number of points) line ends, with either comma placement |
| JsonOutput.LastPolylineAgrees | svg2polylines/src/main.rs:57-60 | the last polyline is written the same with either comma placement |
| JsonOutput.RenderIsJsonForOnePolyline | svg2polylines/src/main.rs:41-62 | with at most one polyline, the text is the compact JSON three-level array once whitespace is removed |
| JsonOutput.RenderIsNotJsonForTwoPolylines | svg2polylines/src/main.rs:57-60 | with two or more polylines, the text without whitespace is not the JSON array |
| JsonOutput.CorrectedRenderIsJson | svg2polylines/src/main.rs:57-60 | with the comma after the closing bracket, the text is the JSON array of the polylines for every input |

## Left out

- XML parsing (`parse_xml`, quick-xml) and path-data tokenizing (`svgtypes`, `svgparser`) are inputs: a path expression is a sequence of tokens, each a command or a syntax error. The legacy markup is a sequence of markup tokens.
- Curve flattening (`lyon_geom`, `flattened`) is a function parameter. `CubicLandsOnEnd` is the one fact about it the smooth-curve scenario needs. The pinned coordinates of the flattening tests (svg2polylines/src/lib.rs:854-934) depend on the library's numerics and are not modelled.
- `f64` arithmetic, rounding and `NaN` are not modelled: coordinates are exact reals.
- JsonOutput.WriteJson: how an `f64` is printed (`format!`) is a parameter `fmt`. The JSON properties assume only that it prints no spaces or line ends (`Compact`).
- Logging (`trace!`, `debug!`, `warn!`), the legacy `println!` of unsupported commands and errors, and the tool's argument handling, file reading and printing (svg2polylines/src/main.rs:11-39, 64-72) are output or I/O and are left out.
- The FFI crate, the examples, `error.rs` and the `serde` feature are not part of this model.
- The path tokenizer's iterator ending is modelled as the end of the token sequence. The legacy tokenizer's `EndOfStream` and errors become stop tokens.
- `lines: &mut Vec<Polyline>` of `parse_path_segment` is an input sequence plus a returned one, not an aliased vector.
- `parse_path_segment` reports errors as strings. The model uses a `PathError` datatype with the same message texts. The formatted detail of unsupported and syntax errors (`{:?}` and `{}`) is kept as the segment or the tokenizer's text.
- InterpreterScenarios.SmoothSpellingsAgree: stated for every flattener whose cubic approximations end at the curve's end point, as `lyon_geom`'s do. With exact reals the relative spellings name the same curves; `f64` sums could differ in the last bit.
- InterpreterScenarios.MultipleMoveTos: the test passes `None` as every predecessor. The model passes the actual previous command, which no move or line command reads.

## Findings

| source | as written | input that shows it | evidently intended | confidence | as-written member | corrected member |
|---|---|---|---|---|---|---|
| svg2polylines/src/main.rs:57-60 | the comma between two polylines is pushed before the closing `  ]` of the earlier one, so it lands inside its brackets | the polylines [[(0,0),(1,1)],[(2,2),(3,3)]] produce `[[[0,0],[1,1],][[2,2],[3,3]]]` once whitespace is removed: a trailing comma and no comma between the arrays | the tool's help text promises a 3D JSON array (svg2polylines/src/main.rs:9): the comma belongs after the closing bracket | not executed | JsonOutput.RenderIsNotJsonForTwoPolylines | JsonOutput.CorrectedRenderIsJson |
