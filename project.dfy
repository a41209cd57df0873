/**
 * The scene-file parser and generator of generator/project.ts. A scene file is a
 * list of lines; each line is trimmed, blank and `#` lines are skipped, and every
 * other line is lowered and split on single spaces into a record whose first
 * token names its kind. `parseFloat` is taken as a parameter, `parseNumber`.
 */
module Projects {
  import opened Wrappers
  import opened Text
  import opened Geometry

  datatype ParseError =
    | InvalidCamera(parts: seq<string>)
    | InvalidBox(parts: seq<string>)
    | PlaneNotImplemented
    | UnknownShape(name: string)
    | MissingCamera

  /** A line that trims to nothing or starts with `#` is not a record. */
  predicate IsSkipped(line: string)
    ensures (forall k :: 0 <= k < |line| ==> IsSpace(line[k])) ==> IsSkipped(line)
    ensures |line| > 0 && line[0] == '#' ==> IsSkipped(line)
  {
    TrimEmptyIff(line);
    var t := Trim(line);
    t == [] || t[0] == '#'
  }

  /** The tokens of a record line: `trimmed.toLowerCase().split(" ")`. */
  function Tokens(line: string): (parts: seq<string>)
    ensures |parts| >= 1
  {
    Split(Lower(Trim(line)), ' ')
  }

  /** `parts.slice(from, to).map(parseFloat)`. */
  function Numbers(parts: seq<string>, from: nat, to: nat, parseNumber: string -> real): (r: seq<real>)
    requires from <= to <= |parts|
    ensures |r| == to - from
    ensures forall k :: 0 <= k < to - from ==> r[k] == parseNumber(parts[from + k])
  {
    seq(to - from, k requires 0 <= k < to - from => parseNumber(parts[from + k]))
  }

  /** What `parseCamera` builds from a record: exactly seven tokens, the position from
    * tokens 1..3 and the rotation from tokens 4..6. */
  function CameraRecord(parts: seq<string>, parseNumber: string -> real): (r: Result<Camera, ParseError>)
    ensures r.Ok? <==> |parts| == 7
    ensures r.Err? ==> r.error == InvalidCamera(parts)
    ensures r.Ok? ==>
      r.value.pos == [parseNumber(parts[1]), parseNumber(parts[2]), parseNumber(parts[3])] &&
      r.value.rot == [parseNumber(parts[4]), parseNumber(parts[5]), parseNumber(parts[6])]
  {
    if |parts| != 7 then Err(InvalidCamera(parts))
    else Ok(Camera(Numbers(parts, 1, 4, parseNumber), Numbers(parts, 4, 7, parseNumber)))
  }

  /** `parseBox`: exactly seventeen tokens; position from tokens 1..3, size from 4..6, the
    * axis-angle rotation (angle first) from 7..10 and the six face colours from 11..16. The
    * record carries no keyframes, so the box is static. */
  function ParseBox(parts: seq<string>, index: int, parseNumber: string -> real): (r: Result<Box, ParseError>)
    ensures r.Ok? <==> |parts| == 17
    ensures r.Err? ==> r.error == InvalidBox(parts)
    ensures r.Ok? ==>
      var b := r.value;
      b.index == index &&
      b.pos == [parseNumber(parts[1]), parseNumber(parts[2]), parseNumber(parts[3])] &&
      b.size == [parseNumber(parts[4]), parseNumber(parts[5]), parseNumber(parts[6])] &&
      b.rot == [parseNumber(parts[7]), parseNumber(parts[8]), parseNumber(parts[9]), parseNumber(parts[10])] &&
      b.faceColors == parts[11..17] && |b.faceColors| == 6 &&
      b.keyframes == [] && b.totalFrames == 0 &&
      WellFormedBox(b)
  {
    if |parts| != 17 then Err(InvalidBox(parts))
    else
      Ok(NewBox(Numbers(parts, 1, 4, parseNumber), Numbers(parts, 4, 7, parseNumber),
                Numbers(parts, 7, 11, parseNumber), parts[11..], [], index, 0))
  }

  /** The tokens of a record: never empty, since a split has at least one piece. */
  type Parts = p: seq<string> | |p| >= 1 witness [""]

  /** A line as the loop sees it once trimmed: skipped, or a record and its tokens. */
  datatype Line = Skipped | Record(parts: Parts)

  /** How the loop of `parseShapesFile` reads one line. */
  function Classify(line: string): (l: Line)
    ensures l.Skipped? <==> IsSkipped(line)
    ensures l.Record? ==> l.parts == Tokens(line)
  {
    if IsSkipped(line) then Skipped else Record(Tokens(line))
  }

  /** Classifying a line is trimming it, skipping it if blank or a comment, and otherwise
    * lowering and splitting what is left. */
  lemma ClassifyTrimmed(line: string)
    ensures var t := Trim(line);
      Classify(line) == if t == [] || t[0] == '#' then Skipped else Record(Split(Lower(t), ' '))
  {
  }

  /** Every line read as the loop reads it, in order. */
  function ClassifyAll(raw: seq<string>): (ls: seq<Line>)
    ensures |ls| == |raw|
  {
    if raw == [] then [] else [Classify(raw[0])] + ClassifyAll(raw[1..])
  }

  /** Line `k` of the classified lines is line `k` of the text, classified. */
  lemma {:induction false} ClassifyAllAt(raw: seq<string>, k: nat)
    requires k < |raw|
    ensures ClassifyAll(raw)[k] == Classify(raw[k])
    decreases k
  {
    if k > 0 {
      ClassifyAllAt(raw[1..], k - 1);
    }
  }

  /** The lines of a scene file, each read as the loop reads it. */
  function Lines(content: string): seq<Line>
  {
    ClassifyAll(Split(content, '\n'))
  }

  /** The state of the pass over the lines: the shapes so far, the camera so far, and the
    * running record index. */
  datatype ScanState = ScanState(shapes: seq<Shape>, camera: Option<Camera>, index: int)

  /** Where the pass stopped: the state it reached and, if it stopped early, why. */
  datatype Stopped = Stopped(state: ScanState, error: Option<ParseError>)

  /** The `switch` on a record's first token. */
  function Dispatch(st: ScanState, parts: Parts, parseNumber: string -> real): (r: Result<ScanState, ParseError>)
    ensures r.Ok? <==> (parts[0] == "camera" && |parts| == 7) || (parts[0] == "box" && |parts| == 17)
    ensures r.Ok? ==> r.value.index == st.index + 1
  {
    if parts[0] == "camera" then
      match CameraRecord(parts, parseNumber)
      case Err(e) => Err(e)
      case Ok(c) => Ok(st.(camera := Some(c), index := st.index + 1))
    else if parts[0] == "box" then
      match ParseBox(parts, st.index, parseNumber)
      case Err(e) => Err(e)
      case Ok(b) => Ok(st.(shapes := st.shapes + [BoxShape(b)], index := st.index + 1))
    else if parts[0] == "plane" then Err(PlaneNotImplemented)
    else Err(UnknownShape(parts[0]))
  }

  /** One iteration of the loop of `parseShapesFile`. */
  function Step(st: ScanState, l: Line, parseNumber: string -> real): (r: Result<ScanState, ParseError>)
    ensures l.Skipped? ==> r == Ok(st)
    ensures r.Ok? ==> r.value.index == st.index + RecordCount(l)
  {
    match l
    case Skipped => Ok(st)
    case Record(parts) => Dispatch(st, parts, parseNumber)
  }

  /** The whole loop: steps through the lines until one fails. */
  function ScanLines(ls: seq<Line>, st: ScanState, parseNumber: string -> real): (s: Stopped)
    ensures st.index <= s.state.index <= st.index + |ls|
    ensures s.error.Some? ==> ls != []
    decreases |ls|
  {
    if ls == [] then Stopped(st, None)
    else
      match Step(st, ls[0], parseNumber)
      case Err(e) => Stopped(st, Some(e))
      case Ok(next) => ScanLines(ls[1..], next, parseNumber)
  }

  /** The same on the text: the pass over the lines from `i` on is the step on line `i`,
    * classified, followed by the pass over the lines from `i + 1` on. */
  lemma ScanTextUnfold(raw: seq<string>, i: nat, st: ScanState, parseNumber: string -> real)
    requires i < |raw|
    ensures var r := Step(st, Classify(raw[i]), parseNumber);
      ScanLines(ClassifyAll(raw[i..]), st, parseNumber)
      == if r.Err? then Stopped(st, Some(r.error)) else ScanLines(ClassifyAll(raw[i + 1..]), r.value, parseNumber)
  {
    assert raw[i..][0] == raw[i] && raw[i..][1..] == raw[i + 1..];
  }

  /** What `parseShapesFile` returns once the loop is over: the first error, or a missing
    * camera, or the shapes. */
  function Outcome(s: Stopped): (r: Result<seq<Shape>, ParseError>)
    ensures r.Ok? <==> s.error.None? && s.state.camera.Some?
    ensures r.Ok? ==> r.value == s.state.shapes
    ensures s.error.Some? ==> r == Err(s.error.value)
    ensures s.error.None? && s.state.camera.None? ==> r == Err(MissingCamera)
  {
    if s.error.Some? then Err(s.error.value)
    else if s.state.camera.None? then Err(MissingCamera)
    else Ok(s.state.shapes)
  }

  /** The pass `parseShapesFile(content)` makes, starting from the current camera. */
  function Parse(content: string, camera: Option<Camera>, parseNumber: string -> real): (s: Stopped)
    ensures s.state.index >= 0
    ensures content == "" ==> s == Stopped(ScanState([], camera, 0), None)
  {
    ScanLines(Lines(content), ScanState([], camera, 0), parseNumber)
  }

  /** The lines that are records, in file order. */
  function Records(ls: seq<Line>): (r: seq<Line>)
    ensures |r| <= |ls|
    ensures forall k :: 0 <= k < |r| ==> r[k].Record?
  {
    if ls == [] then []
    else if ls[0].Skipped? then Records(ls[1..])
    else [ls[0]] + Records(ls[1..])
  }

  /** `Records` is the filter keeping the record lines: it keeps a lone record, drops a lone
    * skipped line, and distributes over concatenation. */
  lemma {:induction false} RecordsIsFilter(a: seq<Line>, b: seq<Line>, l: Line)
    ensures Records([l]) == if l.Record? then [l] else []
    ensures Records(a + b) == Records(a) + Records(b)
    decreases |a|
  {
    assert [l][1..] == [];
    if a == [] {
      assert a + b == b;
    } else {
      assert (a + b)[0] == a[0] && (a + b)[1..] == a[1..] + b;
      RecordsIsFilter(a[1..], b, l);
    }
  }

  /** A record line is kept, at the position that counts the records before it. */
  lemma RecordKept(ls: seq<Line>, k: nat)
    requires k < |ls| && ls[k].Record?
    ensures |Records(ls[..k])| < |Records(ls)| && Records(ls)[|Records(ls[..k])|] == ls[k]
  {
    assert ls == ls[..k] + ([ls[k]] + ls[k + 1..]);
    RecordsIsFilter(ls[..k], [ls[k]] + ls[k + 1..], ls[k]);
    RecordsIsFilter([ls[k]], ls[k + 1..], ls[k]);
  }

  /** The boxes the records of `ls` describe, in order, each tagged with the running record
    * index that starts at `index`: the shapes a pass is expected to return. */
  function BoxesOf(ls: seq<Line>, index: int, parseNumber: string -> real): (r: seq<Shape>)
    ensures |r| <= |ls|
    ensures forall k :: 0 <= k < |r| ==> r[k].BoxShape?
    decreases |ls|
  {
    if ls == [] then []
    else BoxOfLine(ls[0], index, parseNumber) + BoxesOf(ls[1..], index + RecordCount(ls[0]), parseNumber)
  }

  /** The box a single line describes, if it is a well-sized box record. */
  function BoxOfLine(l: Line, index: int, parseNumber: string -> real): (r: seq<Shape>)
    ensures |r| <= 1 && (r != [] <==> l.Record? && l.parts[0] == "box" && |l.parts| == 17)
    ensures forall k :: 0 <= k < |r| ==> r[k].BoxShape? && r[k].box.index == index
  {
    if l.Record? && l.parts[0] == "box" && |l.parts| == 17 then [BoxShape(ParseBox(l.parts, index, parseNumber).value)] else []
  }

  /** One for a record line, zero for a skipped one. */
  function RecordCount(l: Line): nat
  {
    if l.Record? then 1 else 0
  }

  // ------------------------------------------------------------ per-line facts

  /** A blank or comment line changes nothing. */
  lemma SkippedLineIsIgnored(st: ScanState, line: string, parseNumber: string -> real)
    requires IsSkipped(line)
    ensures Step(st, Classify(line), parseNumber) == Ok(st)
  {
  }

  /** An accepted record advances the index by exactly one and adds at most one shape, its
    * box, at the end. */
  lemma StepAdvances(st: ScanState, l: Line, parseNumber: string -> real)
    requires l.Record? && Step(st, l, parseNumber).Ok?
    ensures var next := Step(st, l, parseNumber).value;
      next.index == st.index + 1 &&
      (next.shapes == st.shapes || next.shapes == st.shapes + [BoxShape(ParseBox(l.parts, st.index, parseNumber).value)])
  {
  }

  /** A valid camera record replaces whatever camera came before, adds no shape, and still
    * counts as a record. */
  lemma CameraLineOverwrites(st: ScanState, line: string, parseNumber: string -> real)
    requires !IsSkipped(line) && Tokens(line)[0] == "camera" && |Tokens(line)| == 7
    ensures Step(st, Classify(line), parseNumber)
         == Ok(st.(camera := Some(CameraRecord(Tokens(line), parseNumber).value), index := st.index + 1))
  {
    assert Classify(line) == Record(Tokens(line));
  }

  /** A valid box record appends its box, tagged with the running index, after the shapes
    * read so far. */
  lemma BoxLineAppends(st: ScanState, line: string, parseNumber: string -> real)
    requires !IsSkipped(line) && Tokens(line)[0] == "box" && |Tokens(line)| == 17
    ensures Step(st, Classify(line), parseNumber)
         == Ok(st.(shapes := st.shapes + [BoxShape(ParseBox(Tokens(line), st.index, parseNumber).value)], index := st.index + 1))
  {
    assert Classify(line) == Record(Tokens(line));
  }

  /** A record whose kind is `plane` or unknown, or whose token count is wrong, fails the step. */
  lemma BadRecordFails(st: ScanState, line: string, parseNumber: string -> real)
    requires !IsSkipped(line)
    ensures var p := Tokens(line);
      (p[0] != "camera" && p[0] != "box") || (p[0] == "camera" && |p| != 7) || (p[0] == "box" && |p| != 17)
      <==> Step(st, Classify(line), parseNumber).Err?
    ensures Tokens(line)[0] == "plane" ==> Step(st, Classify(line), parseNumber) == Err(PlaneNotImplemented)
  {
  }

  // ------------------------------------------------------------ whole-file facts

  /** Blank and comment lines are irrelevant: the pass over all lines is the pass over the
    * records alone. */
  lemma {:induction false} ScanSkipsNonRecords(ls: seq<Line>, st: ScanState, parseNumber: string -> real)
    ensures ScanLines(ls, st, parseNumber) == ScanLines(Records(ls), st, parseNumber)
    decreases |ls|
  {
    if ls != [] {
      if ls[0].Skipped? {
        ScanSkipsNonRecords(ls[1..], st, parseNumber);
      } else {
        var r := Records(ls);
        assert r[0] == ls[0] && r[1..] == Records(ls[1..]);
        match Step(st, ls[0], parseNumber)
        case Err(e) =>
        case Ok(next) => ScanSkipsNonRecords(ls[1..], next, parseNumber);
      }
    }
  }

  /** When the pass gets through every line, the index has advanced once per record, camera
    * records included, and shapes have only been added at the end. */
  lemma {:induction false} ScanCountsRecords(ls: seq<Line>, st: ScanState, parseNumber: string -> real)
    ensures var s := ScanLines(ls, st, parseNumber);
      st.index <= s.state.index && |st.shapes| <= |s.state.shapes| && s.state.shapes[..|st.shapes|] == st.shapes
    ensures var s := ScanLines(ls, st, parseNumber);
      s.error.None? ==> s.state.index == st.index + |Records(ls)|
    decreases |ls|
  {
    if ls != [] {
      match Step(st, ls[0], parseNumber)
      case Err(e) =>
      case Ok(next) =>
        if ls[0].Record? {
          StepAdvances(st, ls[0], parseNumber);
        }
        ScanCountsRecords(ls[1..], next, parseNumber);
        var s := ScanLines(ls[1..], next, parseNumber);
        assert s.state.shapes[..|next.shapes|] == next.shapes;
        assert next.shapes[..|st.shapes|] == st.shapes;
        assert s.state.shapes[..|st.shapes|] == next.shapes[..|st.shapes|];
    }
  }

  /** A pass that gets through every line returns the shapes it started with followed by
    * exactly the boxes of the box records, in file order, and nothing else. */
  lemma {:induction false} ScanShapes(ls: seq<Line>, st: ScanState, parseNumber: string -> real)
    ensures var s := ScanLines(ls, st, parseNumber);
      s.error.None? ==> s.state.shapes == st.shapes + BoxesOf(ls, st.index, parseNumber)
    decreases |ls|
  {
    if ls == [] {
      assert st.shapes + [] == st.shapes;
    } else {
      var r := Step(st, ls[0], parseNumber);
      if r.Ok? {
        StepShapes(st, ls[0], parseNumber);
        ScanShapes(ls[1..], r.value, parseNumber);
        var one := BoxOfLine(ls[0], st.index, parseNumber);
        var rest := BoxesOf(ls[1..], r.value.index, parseNumber);
        assert ScanLines(ls, st, parseNumber) == ScanLines(ls[1..], r.value, parseNumber);
        assert BoxesOf(ls, st.index, parseNumber) == one + rest;
        AppendAssociates(st.shapes, one, rest);
      }
    }
  }

  lemma AppendAssociates<T>(a: seq<T>, b: seq<T>, c: seq<T>)
    ensures (a + b) + c == a + (b + c)
  {
  }

  /** A step that succeeds appends the box of its line, if any, and nothing else. */
  lemma StepShapes(st: ScanState, l: Line, parseNumber: string -> real)
    requires Step(st, l, parseNumber).Ok?
    ensures Step(st, l, parseNumber).value.shapes == st.shapes + BoxOfLine(l, st.index, parseNumber)
  {
    if l.Skipped? || l.parts[0] != "box" {
      assert st.shapes + [] == st.shapes;
    }
  }

  /** A parsed file's shapes are exactly the boxes of its box records, in file order. */
  lemma ParsedShapesAreBoxRecords(content: string, camera: Option<Camera>, parseNumber: string -> real)
    requires Outcome(Parse(content, camera, parseNumber)).Ok?
    ensures Outcome(Parse(content, camera, parseNumber)).value == BoxesOf(Lines(content), 0, parseNumber)
  {
    ScanShapes(Lines(content), ScanState([], camera, 0), parseNumber);
    assert [] + BoxesOf(Lines(content), 0, parseNumber) == BoxesOf(Lines(content), 0, parseNumber);
  }

  /** The box read from line `k` carries as its index the number of records before that
    * line (camera records included, blank and comment lines not), and it is among the shapes
    * the pass returns. */
  lemma BoxIndexCountsEarlierRecords(ls: seq<Line>, st: ScanState, k: nat, parseNumber: string -> real)
    requires k < |ls| && ls[k].Record? && ls[k].parts[0] == "box"
    requires ScanLines(ls, st, parseNumber).error.None?
    ensures |ls[k].parts| == 17
    ensures BoxShape(ParseBox(ls[k].parts, st.index + |Records(ls[..k])|, parseNumber).value)
            in ScanLines(ls, st, parseNumber).state.shapes
  {
    ScanSplitAt(ls, k, st, parseNumber);
    ScanCountsRecords(ls[..k], st, parseNumber);
    assert ls[k..][0] == ls[k];
    FirstBoxKept(ls[k..], ScanLines(ls[..k], st, parseNumber).state, parseNumber);
  }

  /** A pass that gets through every line gets through the first `k`, and goes on from there. */
  lemma ScanSplitAt(ls: seq<Line>, k: nat, st: ScanState, parseNumber: string -> real)
    requires k < |ls| && ScanLines(ls, st, parseNumber).error.None?
    ensures ScanLines(ls[..k], st, parseNumber).error.None?
    ensures ScanLines(ls, st, parseNumber) == ScanLines(ls[k..], ScanLines(ls[..k], st, parseNumber).state, parseNumber)
  {
    assert ls == ls[..k] + ls[k..];
    ScanAppend(ls[..k], ls[k..], st, parseNumber);
  }

  /** The box of a first line that is a box record survives the rest of the pass. */
  lemma FirstBoxKept(ls: seq<Line>, st: ScanState, parseNumber: string -> real)
    requires |ls| > 0 && ls[0].Record? && ls[0].parts[0] == "box"
    requires ScanLines(ls, st, parseNumber).error.None?
    ensures |ls[0].parts| == 17
    ensures BoxShape(ParseBox(ls[0].parts, st.index, parseNumber).value)
            in ScanLines(ls, st, parseNumber).state.shapes
  {
    var b := BoxShape(ParseBox(ls[0].parts, st.index, parseNumber).value);
    var next := st.(shapes := st.shapes + [b], index := st.index + 1);
    assert ScanLines(ls, st, parseNumber) == ScanLines(ls[1..], next, parseNumber);
    ScanCountsRecords(ls[1..], next, parseNumber);
    var fin := ScanLines(ls[1..], next, parseNumber).state.shapes;
    assert fin[..|next.shapes|] == next.shapes;
    assert fin[|st.shapes|] == next.shapes[|st.shapes|] == b;
  }

  /** Reading a file in two parts: once the first part goes through, the rest continues from
    * the state it reached, so shapes come out in file order; a first part that fails makes
    * the whole file fail with the same error and state. */
  lemma {:induction false} ScanAppend(a: seq<Line>, b: seq<Line>, st: ScanState, parseNumber: string -> real)
    ensures var s := ScanLines(a, st, parseNumber);
      ScanLines(a + b, st, parseNumber) == if s.error.None? then ScanLines(b, s.state, parseNumber) else s
    decreases |a|
  {
    if a != [] {
      assert (a + b)[0] == a[0] && (a + b)[1..] == a[1..] + b;
      match Step(st, a[0], parseNumber)
      case Err(e) =>
      case Ok(next) => ScanAppend(a[1..], b, next, parseNumber);
    } else {
      assert a + b == b;
    }
  }

  /** A record that cannot be read, such as a `plane` line or an unknown kind, fails the
    * whole pass wherever it appears. */
  lemma {:induction false} BadRecordFailsFile(ls: seq<Line>, st: ScanState, k: nat, parseNumber: string -> real)
    requires k < |ls| && ls[k].Record?
    requires ls[k].parts[0] != "camera" && ls[k].parts[0] != "box"
    ensures ScanLines(ls, st, parseNumber).error.Some?
    decreases |ls|
  {
    if k > 0 {
      match Step(st, ls[0], parseNumber)
      case Err(e) =>
      case Ok(next) => BadRecordFailsFile(ls[1..], next, k - 1, parseNumber);
    }
  }

  /** No line of `ls` is a camera record. */
  predicate NoCameraRecord(ls: seq<Line>)
  {
    forall k :: 0 <= k < |ls| && ls[k].Record? ==> ls[k].parts[0] != "camera"
  }

  /** Without any camera record the camera stays as it was. */
  lemma {:induction false} CameraNeedsCameraLine(ls: seq<Line>, st: ScanState, parseNumber: string -> real)
    requires NoCameraRecord(ls)
    ensures ScanLines(ls, st, parseNumber).state.camera == st.camera
    decreases |ls|
  {
    if ls != [] {
      match Step(st, ls[0], parseNumber)
      case Err(e) =>
      case Ok(next) =>
        assert next.camera == st.camera;
        assert NoCameraRecord(ls[1..]) by {
          forall k | 0 <= k < |ls| - 1 && ls[1..][k].Record? ensures ls[1..][k].parts[0] != "camera" {
            assert ls[1..][k] == ls[k + 1];
          }
        }
        CameraNeedsCameraLine(ls[1..], next, parseNumber);
    }
  }

  /** A file without a camera record is rejected: `parseShapesFile` never invents a camera. */
  lemma MissingCameraFails(content: string, parseNumber: string -> real)
    requires NoCameraRecord(Lines(content))
    ensures Outcome(Parse(content, None, parseNumber)).Err?
    ensures Parse(content, None, parseNumber).error.None? ==> Outcome(Parse(content, None, parseNumber)) == Err(MissingCamera)
  {
    CameraNeedsCameraLine(Lines(content), ScanState([], None, 0), parseNumber);
  }

  /** Once a camera is set, no later step takes it away. */
  lemma {:induction false} CameraKept(ls: seq<Line>, st: ScanState, parseNumber: string -> real)
    requires st.camera.Some?
    ensures ScanLines(ls, st, parseNumber).state.camera.Some?
    decreases |ls|
  {
    if ls != [] {
      match Step(st, ls[0], parseNumber)
      case Err(e) =>
      case Ok(next) =>
        assert next.camera.Some?;
        CameraKept(ls[1..], next, parseNumber);
    }
  }

  /** A pass that gets through every line and meets a camera record ends with a camera. */
  lemma CameraLineSuffices(ls: seq<Line>, st: ScanState, k: nat, parseNumber: string -> real)
    requires k < |ls| && ls[k].Record? && ls[k].parts[0] == "camera"
    requires ScanLines(ls, st, parseNumber).error.None?
    ensures ScanLines(ls, st, parseNumber).state.camera.Some?
  {
    ScanSplitAt(ls, k, st, parseNumber);
    var mid := ScanLines(ls[..k], st, parseNumber).state;
    var rest := ls[k..];
    assert rest[0] == ls[k] && rest[1..] == ls[k + 1..];
    var r := Step(mid, ls[k], parseNumber);
    assert r.Ok?;
    assert r.value.camera.Some?;
    CameraKept(ls[k + 1..], r.value, parseNumber);
  }

  /** The converse of `MissingCameraFails`: a file with a camera record in which no record
    * fails parses, so it is never rejected for a missing camera. */
  lemma CameraLineParses(content: string, k: nat, parseNumber: string -> real)
    requires k < |Lines(content)| && Lines(content)[k].Record? && Lines(content)[k].parts[0] == "camera"
    requires Parse(content, None, parseNumber).error.None?
    ensures Outcome(Parse(content, None, parseNumber)).Ok?
    ensures Outcome(Parse(content, None, parseNumber)).value == Parse(content, None, parseNumber).state.shapes
  {
    CameraLineSuffices(Lines(content), ScanState([], None, 0), k, parseNumber);
  }

  /** What every parsed shape list satisfies: only well-formed six-colour boxes, with indices
    * strictly increasing (so unique) and below the running index. */
  ghost predicate ParsedShapes(shapes: seq<Shape>, bound: int)
  {
    (forall i :: 0 <= i < |shapes| ==>
      shapes[i].BoxShape? && WellFormedBox(shapes[i].box) && |shapes[i].box.faceColors| == 6 &&
      0 <= shapes[i].box.index < bound)
    && (forall i, j :: 0 <= i < j < |shapes| ==> shapes[i].box.index < shapes[j].box.index)
  }

  ghost predicate GoodState(st: ScanState)
  {
    st.index >= 0 && ParsedShapes(st.shapes, st.index) && (st.camera.Some? ==> WellFormedCamera(st.camera.value))
  }

  lemma StepKeepsGoodState(st: ScanState, l: Line, parseNumber: string -> real)
    requires GoodState(st) && Step(st, l, parseNumber).Ok?
    ensures GoodState(Step(st, l, parseNumber).value)
  {
    if l.Record? && l.parts[0] == "box" {
      var next := Step(st, l, parseNumber).value;
      var b := ParseBox(l.parts, st.index, parseNumber).value;
      assert next.shapes == st.shapes + [BoxShape(b)] && next.index == st.index + 1;
      assert ParsedShapes(next.shapes, next.index);
    }
  }

  /** Every step, and so the whole pass, keeps the shapes parsed and the camera well-formed. */
  lemma {:induction false} ScanKeepsGoodState(ls: seq<Line>, st: ScanState, parseNumber: string -> real)
    requires GoodState(st)
    ensures GoodState(ScanLines(ls, st, parseNumber).state)
    decreases |ls|
  {
    if ls != [] {
      match Step(st, ls[0], parseNumber)
      case Err(e) =>
      case Ok(next) =>
        StepKeepsGoodState(st, ls[0], parseNumber);
        ScanKeepsGoodState(ls[1..], next, parseNumber);
    }
  }

  /** After a successful parse, box indices strictly increase in file order, so they are
    * unique. */
  lemma ParsedIndicesUnique(content: string, camera: Option<Camera>, parseNumber: string -> real)
    requires camera.Some? ==> WellFormedCamera(camera.value)
    requires Outcome(Parse(content, camera, parseNumber)).Ok?
    ensures var shapes := Outcome(Parse(content, camera, parseNumber)).value;
      forall i, j :: 0 <= i < |shapes| && 0 <= j < |shapes| && i != j ==>
        shapes[i].BoxShape? && shapes[j].BoxShape? && shapes[i].box.index != shapes[j].box.index
    ensures var shapes := Outcome(Parse(content, camera, parseNumber)).value;
      forall i, j :: 0 <= i < j < |shapes| ==>
        shapes[i].BoxShape? && shapes[j].BoxShape? && shapes[i].box.index < shapes[j].box.index
  {
    ScanKeepsGoodState(Lines(content), ScanState([], camera, 0), parseNumber);
  }

  // ------------------------------------------------------------ generation

  /** The shapes `generate` can compute styles for without reading a missing slot. */
  predicate Renderable(shapes: seq<Shape>, camera: Option<Camera>)
  {
    (forall i :: 0 <= i < |shapes| && shapes[i].BoxShape? ==> WellFormedBox(shapes[i].box))
    && (camera.Some? ==> WellFormedCamera(camera.value))
  }

  /** One shape's turn in the loop of `generate`: its markup first, then its styles against
    * the camera (reading the position of an absent camera fails). */
  function RenderOne(s: Shape, camera: Option<Camera>): (r: Result<(Element, BoxStyle), RenderError>)
    requires s.BoxShape? ==> WellFormedBox(s.box)
    requires camera.Some? ==> WellFormedCamera(camera.value)
    ensures r.Ok? <==> s.BoxShape? && camera.Some?
    ensures r.Ok? ==> r.value == (BoxToHtml(s.box), BoxToCss(s.box, camera.value))
    ensures s.PlaneShape? ==> r == Err(NotImplemented)
    ensures s.BoxShape? && camera.None? ==> r == Err(NoCamera)
  {
    match ShapeToHtml(s)
    case Err(e) => Err(e)
    case Ok(h) =>
      if camera.None? then Err(NoCamera)
      else
        match ShapeToCss(s, camera.value)
        case Err(e) => Err(e)
        case Ok(c) => Ok((h, c))
  }

  /** The markup and styles of the shapes, in order, or the first failure. */
  function Render(shapes: seq<Shape>, camera: Option<Camera>): (r: Result<(seq<Element>, seq<BoxStyle>), RenderError>)
    requires Renderable(shapes, camera)
    ensures r.Ok? ==> |r.value.0| == |shapes| && |r.value.1| == |shapes|
    ensures shapes != [] && shapes[|shapes| - 1].PlaneShape? ==> r.Err?
    decreases |shapes|
  {
    if shapes == [] then Ok(([], []))
    else
      var last := shapes[|shapes| - 1];
      match Render(shapes[..|shapes| - 1], camera)
      case Err(e) => Err(e)
      case Ok(done) =>
        match RenderOne(last, camera)
        case Err(e) => Err(e)
        case Ok(one) => Ok((done.0 + [one.0], done.1 + [one.1]))
  }

  /** `generate()`: the shapes' markup inside the `scene` container, and their styles. */
  function Generated(shapes: seq<Shape>, camera: Option<Camera>): (r: Result<(Element, seq<BoxStyle>), RenderError>)
    requires Renderable(shapes, camera)
    ensures r.Ok? <==> Render(shapes, camera).Ok?
    ensures r.Ok? ==> r.value.0.classes == [SceneClass] && |r.value.0.children| == |shapes| && |r.value.1| == |shapes|
    ensures shapes == [] ==> r == Ok((Div([SceneClass], []), []))
  {
    match Render(shapes, camera)
    case Err(e) => Err(e)
    case Ok(r) => Ok((Div([SceneClass], r.0), r.1))
  }

  /** With a camera and only boxes, generation succeeds and yields, shape by shape in order,
    * each box's markup and styles. */
  lemma {:induction false} RenderBoxes(shapes: seq<Shape>, camera: Option<Camera>)
    requires Renderable(shapes, camera) && camera.Some?
    requires forall i :: 0 <= i < |shapes| ==> shapes[i].BoxShape?
    ensures Render(shapes, camera).Ok?
    ensures var r := Render(shapes, camera).value;
      |r.0| == |shapes| && |r.1| == |shapes| &&
      forall i :: 0 <= i < |shapes| ==>
        r.0[i] == BoxToHtml(shapes[i].box) && r.1[i] == BoxToCss(shapes[i].box, camera.value)
    decreases |shapes|
  {
    if shapes != [] {
      var init := shapes[..|shapes| - 1];
      RenderBoxes(init, camera);
      var r := Render(shapes, camera).value;
      var d := Render(init, camera).value;
      forall i | 0 <= i < |shapes|
        ensures r.0[i] == BoxToHtml(shapes[i].box) && r.1[i] == BoxToCss(shapes[i].box, camera.value)
      {
        if i < |shapes| - 1 {
          assert r.0[i] == d.0[i] && shapes[i] == init[i];
        }
      }
    }
  }

  /** Failing is final: once some prefix of the shapes fails, the whole list fails with the
    * same error, as the exception `generate` throws leaves the loop. */
  lemma {:induction false} RenderFailureIsFinal(shapes: seq<Shape>, camera: Option<Camera>, n: nat)
    requires Renderable(shapes, camera)
    requires n <= |shapes| && Render(shapes[..n], camera).Err?
    ensures Render(shapes, camera) == Render(shapes[..n], camera)
    decreases |shapes| - n
  {
    if n < |shapes| {
      var init := shapes[..|shapes| - 1];
      assert init[..n] == shapes[..n];
      RenderFailureIsFinal(init, camera, n);
    } else {
      assert shapes[..n] == shapes;
    }
  }

  /** Any plane among the shapes makes generation fail. */
  lemma RenderFailsOnPlane(shapes: seq<Shape>, camera: Option<Camera>, k: nat)
    requires Renderable(shapes, camera)
    requires k < |shapes| && shapes[k].PlaneShape?
    ensures Render(shapes, camera).Err?
  {
    var p := shapes[..k + 1];
    assert p[..k] == shapes[..k] && p[k] == shapes[k];
    RenderFailureIsFinal(shapes, camera, k + 1);
  }

  /** A scene file that parses always generates: one box container per box record, in file
    * order, inside the scene container. */
  lemma ParsedSceneGenerates(content: string, parseNumber: string -> real)
    requires Outcome(Parse(content, None, parseNumber)).Ok?
    ensures var s := Parse(content, None, parseNumber);
      Renderable(s.state.shapes, s.state.camera) &&
      Generated(s.state.shapes, s.state.camera).Ok? &&
      var g := Generated(s.state.shapes, s.state.camera).value;
      g.0.classes == [SceneClass] && |g.0.children| == |s.state.shapes| &&
      |g.1| == |s.state.shapes| &&
      forall i :: 0 <= i < |s.state.shapes| ==>
        s.state.shapes[i].BoxShape? && g.0.children[i] == BoxToHtml(s.state.shapes[i].box) &&
        g.1[i] == BoxToCss(s.state.shapes[i].box, s.state.camera.value)
  {
    var s := Parse(content, None, parseNumber);
    ScanKeepsGoodState(Lines(content), ScanState([], None, 0), parseNumber);
    RenderBoxes(s.state.shapes, s.state.camera);
  }

  class Project {
    var shapes: seq<Shape>
    var camera: Option<Camera>
    const parseNumber: string -> real

    /** The fields as initialised, before any file is read. */
    constructor Empty(parseNumber: string -> real)
      ensures shapes == [] && camera == None && this.parseNumber == parseNumber
    {
      this.shapes := [];
      this.camera := None;
      this.parseNumber := parseNumber;
    }

    /** `parseCamera(parts)`: with seven tokens the camera is replaced; otherwise it fails and
      * the camera is left alone. */
    method ParseCamera(parts: seq<string>) returns (err: Option<ParseError>)
      modifies this`camera
      ensures var c := CameraRecord(parts, parseNumber);
        (c.Ok? ==> err == None && camera == Some(c.value)) &&
        (c.Err? ==> err == Some(c.error) && camera == old(camera))
    {
      if |parts| != 7 {
        return Some(InvalidCamera(parts));
      }
      camera := Some(Camera(Numbers(parts, 1, 4, parseNumber), Numbers(parts, 4, 7, parseNumber)));
      return None;
    }

    /** The `switch` on a record's first token: a camera record replaces the camera, a box
      * record yields the shapes with its box appended, anything else fails. */
    method ReadRecord(parts: Parts, shapes: seq<Shape>, index: int) returns (r: Result<seq<Shape>, ParseError>)
      modifies this`camera
      ensures var d := Dispatch(ScanState(shapes, old(camera), index), parts, parseNumber);
        (d.Err? ==> r == Err(d.error) && camera == old(camera)) &&
        (d.Ok? ==> r == Ok(d.value.shapes) && camera == d.value.camera && d.value.index == index + 1)
    {
      if parts[0] == "camera" {
        var err := ParseCamera(parts);
        if err.Some? {
          return Err(err.value);
        }
        return Ok(shapes);
      } else if parts[0] == "box" {
        var b := ParseBox(parts, index, parseNumber);
        if b.Err? {
          return Err(b.error);
        }
        return Ok(shapes + [BoxShape(b.value)]);
      } else if parts[0] == "plane" {
        return Err(PlaneNotImplemented);
      } else {
        return Err(UnknownShape(parts[0]));
      }
    }

    /** One turn of the loop of `parseShapesFile`: a blank or comment line is passed over,
      * anything else is lowered, split and read as a record, which moves the index on. */
    method ReadLine(line: string, shapes: seq<Shape>, index: int) returns (r: Result<(seq<Shape>, int), ParseError>)
      modifies this`camera
      ensures var s := Step(ScanState(shapes, old(camera), index), Classify(line), parseNumber);
        (s.Err? ==> r == Err(s.error) && camera == old(camera)) &&
        (s.Ok? ==> r == Ok((s.value.shapes, s.value.index)) && camera == s.value.camera)
    {
      ClassifyTrimmed(line);
      var trimmed := Trim(line);
      if trimmed == [] || trimmed[0] == '#' {
        return Ok((shapes, index));
      }
      var parts := Split(Lower(trimmed), ' ');
      var next := ReadRecord(parts, shapes, index);
      if next.Err? {
        return Err(next.error);
      }
      return Ok((next.value, index + 1));
    }

    /** `parseShapesFile(content)`: makes the pass over the lines, leaving in `camera` the
      * camera it reached, and returns the shapes or the reason it failed. */
    method ParseShapesFile(content: string) returns (r: Result<seq<Shape>, ParseError>)
      modifies this`camera
      ensures var s := Parse(content, old(camera), parseNumber);
        camera == s.state.camera && r == Outcome(s)
    {
      var lines := Split(content, '\n');
      ghost var start := ScanState([], camera, 0);
      ghost var target := ScanLines(ClassifyAll(lines), start, parseNumber);
      assert target == Parse(content, camera, parseNumber);
      assert lines[0..] == lines;
      var shapes: seq<Shape> := [];
      var index := 0;
      var i := 0;
      while i < |lines|
        invariant 0 <= i <= |lines|
        invariant ScanLines(ClassifyAll(lines[i..]), ScanState(shapes, camera, index), parseNumber) == target
      {
        ScanTextUnfold(lines, i, ScanState(shapes, camera, index), parseNumber);
        var next := ReadLine(lines[i], shapes, index);
        if next.Err? {
          return Err(next.error);
        }
        shapes, index := next.value.0, next.value.1;
        i := i + 1;
      }
      assert lines[i..] == [];
      if camera.None? {
        return Err(MissingCamera);
      }
      return Ok(shapes);
    }

    /** `generate()`: walks the shapes in order, appending each one's markup and styles. */
    method Generate() returns (r: Result<(Element, seq<BoxStyle>), RenderError>)
      requires Renderable(shapes, camera)
      ensures r == Generated(shapes, camera)
    {
      var html: seq<Element> := [];
      var styles: seq<BoxStyle> := [];
      for i := 0 to |shapes|
        invariant Render(shapes[..i], camera) == Ok((html, styles))
      {
        assert shapes[..i + 1][..i] == shapes[..i];
        match shapes[i]
        case PlaneShape =>
          RenderFailureIsFinal(shapes, camera, i + 1);
          return Err(NotImplemented);
        case BoxShape(b) =>
          if camera.None? {
            RenderFailureIsFinal(shapes, camera, i + 1);
            return Err(NoCamera);
          }
          html := html + [BoxToHtml(b)];
          styles := styles + [BoxToCss(b, camera.value)];
      }
      assert shapes[..|shapes|] == shapes;
      return Ok((Div([SceneClass], html), styles));
    }
  }

  /** `new Project(fileName)`, given the file's text: a project whose shapes and camera are
    * those of the parse, or the error the constructor throws. */
  method Open(content: string, parseNumber: string -> real) returns (r: Result<Project, ParseError>)
    ensures var s := Parse(content, None, parseNumber);
      r.Ok? <==> Outcome(s).Ok?
    ensures r.Err? ==> r.error == Outcome(Parse(content, None, parseNumber)).error
    ensures r.Ok? ==>
      var s := Parse(content, None, parseNumber);
      fresh(r.value) && r.value.shapes == s.state.shapes && r.value.camera == s.state.camera &&
      r.value.parseNumber == parseNumber
  {
    var p := new Project.Empty(parseNumber);
    var shapes := p.ParseShapesFile(content);
    if shapes.Err? {
      return Err(shapes.error);
    }
    p.shapes := shapes.value;
    return Ok(p);
  }
}
