/**
  What the event-stream parser delivers, said without its own steps (src/core/sse.cpp): bare lines one event each,
  and in either mode every frame with its id, its event name, its data and its retry hints.
*/
module SseModes {
  import opened Chunks
  import opened Sequences
  import opened Wrappers
  import opened Utf8
  import opened LineSplit
  import opened Sse
  import opened SseStandard

  // ---------------------------------------------------------------- lines by their bytes

  /** `data:`, `event:`, `id:` and `retry:`. */
  const NAMES: seq<Text> := [
    [0x64, 0x61, 0x74, 0x61, 0x3A], [0x65, 0x76, 0x65, 0x6E, 0x74, 0x3A], [0x69, 0x64, 0x3A],
    [0x72, 0x65, 0x74, 0x72, 0x79, 0x3A]]

  predicate IsComment(line: Text) { line != [] && line[0] == 0x3A }

  predicate IsNamed(line: Text) { exists k | 0 <= k < |NAMES| :: NAMES[k] <= line }

  /** A line that is neither blank nor a comment and begins with none of the four names and a colon. */
  predicate IsBare(line: Text) { line != [] && !IsComment(line) && !IsNamed(line) }

  lemma StartsAsNamed(line: Text)
    ensures StartsAField(line) <==> IsNamed(line)
  {
    StartsWith(line, DATA, NAMES[0]);
    StartsWith(line, EVENT, NAMES[1]);
    StartsWith(line, ID, NAMES[2]);
    StartsWith(line, RETRY, NAMES[3]);
    assert [DATA, EVENT, ID, RETRY][0] == DATA && [DATA, EVENT, ID, RETRY][1] == EVENT;
    assert [DATA, EVENT, ID, RETRY][2] == ID && [DATA, EVENT, ID, RETRY][3] == RETRY;
    hide StartsWithField;
  }

  lemma StartsWith(line: Text, field: Text, name: Text)
    requires name == field + [0x3A]
    ensures StartsWithField(line, field) <==> name <= line
  {
    if |line| > |field| { assert line[..|name|] == line[..|field|] + [line[|field|]]; }
  }

  // ---------------------------------------------------------------- a stream read frame by frame

  predicate HasField(line: Text, name: Text) { line != [] && ColonRule(line).0 == name }

  /** The value of the last line of a frame with this field. */
  function LastValue(frame: seq<Text>, name: Text): Text {
    if frame == [] then []
    else
      var last := frame[|frame| - 1];
      if HasField(last, name) then ColonRule(last).1 else LastValue(frame[..|frame| - 1], name)
  }

  /** The values of a frame's data lines. */
  function DataOf(frame: seq<Text>): seq<Text> {
    if frame == [] then []
    else
      var last := frame[|frame| - 1];
      DataOf(frame[..|frame| - 1]) + if HasField(last, DATA) then [ColonRule(last).1] else []
  }

  /** Lines with a newline between each two. */
  function JoinedLines(lines: seq<Text>): Text {
    if lines == [] then []
    else if |lines| == 1 then lines[0]
    else JoinedLines(lines[..|lines| - 1]) + [0x0A] + lines[|lines| - 1]
  }

  /** A frame is an event when it has data. */
  function Closing(frame: seq<Text>): seq<Output> {
    if DataOf(frame) == [] then []
    else [Delivered(Event(LastValue(frame, EVENT), LastValue(frame, ID), JoinedLines(DataOf(frame))))]
  }

  /** A retry line is reported at once when it says a number of milliseconds. */
  function Hint(mode: Mode, line: Text): seq<Output> {
    if mode.reportsRetry && HasField(line, RETRY) then
      match Stoi(ColonRule(line).1)
      case Some(n) => if n < 0 then [] else [Retry(n)]
      case None => []
    else []
  }

  /** A data line after a payload that is whole by itself begins the next frame. */
  predicate BeginsNext(mode: Mode, frame: seq<Text>, line: Text) {
    HasField(line, DATA) && DataOf(frame) != [] && ParsesAsOneValue(mode, JoinedLines(DataOf(frame)))
  }

  /** What the lines deliver after those of an open frame. */
  function Reading(mode: Mode, frame: seq<Text>, lines: seq<Text>): seq<Output>
    decreases |lines|
  {
    if lines == [] then []
    else
      var (line, rest) := (lines[0], lines[1..]);
      if line == [] then Closing(frame) + Reading(mode, [], rest)
      else if mode.bareLines && IsBare(line) then [Delivered(Event([], [], line))] + Reading(mode, frame, rest)
      else if BeginsNext(mode, frame, line) then Closing(frame) + Reading(mode, [line], rest)
      else Hint(mode, line) + Reading(mode, frame + [line], rest)
  }

  /** The parser holds just what the lines of the open frame say. */
  predicate Holds(s: State, frame: seq<Text>) {
    s == State(Event(LastValue(frame, EVENT), LastValue(frame, ID), JoinedLines(DataOf(frame))), DataOf(frame) != [])
  }

  lemma JoinedGrows(lines: seq<Text>, line: Text)
    ensures JoinedLines(lines + [line]) == (if lines == [] then [] else JoinedLines(lines) + [0x0A]) + line
  {
    if lines == [] {
      assert (lines + [line])[0] == line;
      assert [] + line == line;
    } else {
      assert (lines + [line])[..|lines|] == lines;
    }
  }

  lemma FrameGrows(frame: seq<Text>, line: Text)
    ensures LastValue(frame + [line], EVENT) == if HasField(line, EVENT) then ColonRule(line).1 else LastValue(frame, EVENT)
    ensures LastValue(frame + [line], ID) == if HasField(line, ID) then ColonRule(line).1 else LastValue(frame, ID)
    ensures DataOf(frame + [line]) == DataOf(frame) + if HasField(line, DATA) then [ColonRule(line).1] else []
    ensures JoinedLines(DataOf(frame + [line])) ==
      if HasField(line, DATA) then (if DataOf(frame) == [] then [] else JoinedLines(DataOf(frame)) + [0x0A]) + ColonRule(line).1
      else JoinedLines(DataOf(frame))
  {
    hide ColonRule;
    assert (frame + [line])[..|frame|] == frame;
    if HasField(line, DATA) {
      var data := DataOf(frame);
      var value := ColonRule(line).1;
      assert DataOf(frame + [line]) == data + [value];
      JoinedGrows(data, value);
    } else {
      assert DataOf(frame) + [] == DataOf(frame);
    }
  }

  lemma HoldsNothing()
    ensures Holds(START, [])
  {}

  lemma CommentsHaveNoField(line: Text)
    requires IsComment(line)
    ensures ColonRule(line).0 == []
  {}

  lemma NamesDiffer()
    ensures DATA != EVENT && DATA != ID && DATA != RETRY && EVENT != ID && EVENT != RETRY && ID != RETRY
  {
    assert |DATA| == 4 && |EVENT| == 5 && |ID| == 2 && |RETRY| == 5 && EVENT[0] != RETRY[0];
  }

  lemma ReadsData(mode: Mode, s: State, frame: seq<Text>, line: Text)
    requires Holds(s, frame) && HasField(line, DATA)
    ensures var step := TakeData(mode, s, ColonRule(line).1);
      if BeginsNext(mode, frame, line) then Holds(step.state, [line]) && step.out == Closing(frame)
      else Holds(step.state, frame + [line]) && step.out == []
  {
    NamesDiffer();
    FrameGrows(frame, line);
    FrameGrows([], line);
    assert [] + [line] == [line];
    hide ColonRule, LastValue, DataOf, JoinedLines, ParsesAsOneValue;
  }

  lemma ReadsOther(mode: Mode, s: State, frame: seq<Text>, line: Text)
    requires Holds(s, frame) && line != [] && !HasField(line, DATA)
    ensures var step := TakeField(mode, s, ColonRule(line).0, ColonRule(line).1);
      Holds(step.state, frame + [line]) && step.out == Hint(mode, line)
  {
    NamesDiffer();
    FrameGrows(frame, line);
    hide ColonRule, LastValue, DataOf, JoinedLines, Stoi;
  }

  /** One line of a frame, whatever it is. */
  lemma ReadsLine(mode: Mode, s: State, frame: seq<Text>, line: Text)
    requires Holds(s, frame) && line != [] && !(mode.bareLines && IsBare(line))
    ensures var step := TakeLine(mode, s, line);
      if BeginsNext(mode, frame, line) then Holds(step.state, [line]) && step.out == Closing(frame)
      else Holds(step.state, frame + [line]) && step.out == Hint(mode, line)
  {
    StartsAsNamed(line);
    SplitMeetsColonRule(line);
    if IsComment(line) {
      CommentsHaveNoField(line);
      FrameGrows(frame, line);
    } else if HasField(line, DATA) {
      NamesDiffer();
      ReadsData(mode, s, frame, line);
    } else {
      ReadsOther(mode, s, frame, line);
    }
    hide ColonRule, Field, FieldValue, LastValue, DataOf, JoinedLines, StartsAField, IsNamed, Stoi, ParsesAsOneValue, TakeData, Closing;
  }

  lemma {:induction false} ReadsLines(mode: Mode, s: State, frame: seq<Text>, lines: seq<Text>)
    requires Holds(s, frame)
    ensures TakeLines(mode, s, lines).out == Reading(mode, frame, lines)
    decreases |lines|
  {
    if lines != [] {
      var line := lines[0];
      StartsAsNamed(line);
      HoldsNothing();
      if line != [] && !(mode.bareLines && IsBare(line)) { ReadsLine(mode, s, frame, line); }
      var step := TakeLine(mode, s, line);
      hide IsBare, BeginsNext, Hint;
      var next := if line == [] then [] else if mode.bareLines && IsBare(line) then frame
                  else if BeginsNext(mode, frame, line) then [line] else frame + [line];
      assert Holds(step.state, next);
      ReadsLines(mode, step.state, next, lines[1..]);
    }
  }

  /**
    On a stream of valid text whose carriage returns end lines, in either line mode and however it is cut into
    chunks, what is delivered is what its lines say: every frame with the last event name and the last id it has
    and its data lines joined, every retry hint, and every bare line.
  */
  lemma DeliversFrames(mode: Mode, chunks: seq<Text>, s: Text)
    requires Joined(chunks) == s && Valid(s) && ReturnsEndLines(s)
    ensures Delivers(mode, chunks) == Reading(mode, [], ClosedLines(s))
  {
    hide Delivers, ClosedLines, Joined, Reading, TakeLines, Valid;
    JoinedOne(s);
    ChunkInvariance(mode, chunks, [s]);
    DeliversLines(mode, s);
    HoldsNothing();
    ReadsLines(mode, START, [], ClosedLines(s));
  }

  // ---------------------------------------------------------------- bare lines

  /** One event for each bare line, in order. */
  function BareEvents(lines: seq<Text>): seq<Output> {
    if lines == [] then []
    else (if IsBare(lines[0]) then [Delivered(Event([], [], lines[0]))] else []) + BareEvents(lines[1..])
  }

  lemma {:induction false} ReadingBare(mode: Mode, frame: seq<Text>, lines: seq<Text>)
    requires mode.bareLines && forall k | 0 <= k < |lines| :: !IsNamed(lines[k])
    requires forall k | 0 <= k < |frame| :: IsComment(frame[k])
    ensures Reading(mode, frame, lines) == BareEvents(lines)
    decreases |lines|
  {
    CommentsSayNothing(frame);
    if lines != [] {
      if IsComment(lines[0]) { CommentsHaveNoField(lines[0]); }
      hide IsNamed, HasField, DataOf;
      ReadingBare(mode, if lines[0] == [] then [] else if IsBare(lines[0]) then frame else frame + [lines[0]], lines[1..]);
    }
  }

  lemma {:induction false} CommentsSayNothing(frame: seq<Text>)
    requires forall k | 0 <= k < |frame| :: IsComment(frame[k])
    ensures DataOf(frame) == []
  {
    if frame != [] {
      CommentsSayNothing(frame[..|frame| - 1]);
      CommentsHaveNoField(frame[|frame| - 1]);
    }
  }

  /** Where no line begins as a field, every line that is neither blank nor a comment is one event, in order. */
  lemma BareLinesAreEvents(mode: Mode, chunks: seq<Text>, s: Text)
    requires Joined(chunks) == s && Valid(s) && ReturnsEndLines(s) && mode.bareLines
    requires forall k | 0 <= k < |ClosedLines(s)| :: !IsNamed(ClosedLines(s)[k])
    ensures Delivers(mode, chunks) == BareEvents(ClosedLines(s))
  {
    hide Delivers, ClosedLines, Joined, Reading, Valid, IsNamed;
    DeliversFrames(mode, chunks, s);
    ReadingBare(mode, [], ClosedLines(s));
  }

  lemma {:induction false} ReadingNamed(mode: Mode, frame: seq<Text>, lines: seq<Text>)
    requires forall k | 0 <= k < |lines| :: !IsBare(lines[k])
    ensures Reading(mode.(bareLines := true), frame, lines) == Reading(mode.(bareLines := false), frame, lines)
    decreases |lines|
  {
    if lines != [] {
      hide IsBare, IsNamed, Closing, HasField, DataOf;
      ReadingNamed(mode, [], lines[1..]);
      ReadingNamed(mode, frame + [lines[0]], lines[1..]);
      ReadingNamed(mode, [lines[0]], lines[1..]);
    }
  }

  /** Where every line is blank, a comment or begins as a field, both modes deliver the same. */
  lemma ModesAgreeOnFields(mode: Mode, chunks: seq<Text>, s: Text)
    requires Joined(chunks) == s && Valid(s) && ReturnsEndLines(s)
    requires forall k | 0 <= k < |ClosedLines(s)| :: !IsBare(ClosedLines(s)[k])
    ensures Delivers(mode.(bareLines := true), chunks) == Delivers(mode.(bareLines := false), chunks)
  {
    hide Delivers, ClosedLines, Joined, Reading, Valid, IsBare;
    DeliversFrames(mode.(bareLines := true), chunks, s);
    DeliversFrames(mode.(bareLines := false), chunks, s);
    ReadingNamed(mode, [], ClosedLines(s));
  }

  // ---------------------------------------------------------------- retry hints

  function Digit(d: nat): (b: byte)
    requires d < 10
    ensures 0x30 <= b <= 0x39 && b as int - 0x30 == d
  {
    (0x30 + d) as byte
  }

  function Printed(n: nat): (s: Text)
    ensures s != [] && 0x30 <= s[0] <= 0x39
  {
    if n < 10 then [Digit(n)] else Printed(n / 10) + [Digit(n % 10)]
  }

  lemma {:induction false} PrintedIsRead(n: nat, rest: Text)
    ensures DigitsValue(Printed(n) + rest, 0) == DigitsValue(rest, n)
  {
    hide Digit;
    if n < 10 {
      assert ([Digit(n)] + rest)[1..] == rest;
    } else {
      var last := [Digit(n % 10)] + rest;
      assert last[1..] == rest;
      PrintedIsRead(n / 10, last);
      assert Printed(n) + rest == Printed(n / 10) + last;
    }
  }

  /** `std::stoi` on digits, with a minus sign before them or none. */
  lemma StoiOfDigits(digits: Text, n: int)
    requires digits != [] && 0x30 <= digits[0] <= 0x39 && n == DigitsValue(digits, 0)
    ensures Stoi(digits) == if n < 0x8000_0000 then Some(n) else None
    ensures Stoi([0x2D] + digits) == if n <= 0x8000_0000 then Some(-n) else None
  {
    hide DigitsValue;
    var minus := [0x2D] + digits;
    assert minus[1..] == digits && minus[0] == 0x2D;
    assert !IsSpace(digits[0]) && !IsSpace(minus[0]) && digits[0] != 0x2D && digits[0] != 0x2B;
    assert SkipSpaces(digits) == digits && SkipSpaces(minus) == minus;
    hide SkipSpaces, IsSpace;
  }

  /** A printed number with anything after it that is no digit is read as itself within 32 bits, its sign kept. */
  lemma StoiReadsBack(n: int, rest: Text)
    requires n >= 0 && (rest != [] ==> !(0x30 <= rest[0] <= 0x39))
    ensures Stoi(Printed(n) + rest) == if n < 0x8000_0000 then Some(n) else None
    ensures Stoi([0x2D] + (Printed(n) + rest)) == if n <= 0x8000_0000 then Some(-n) else None
  {
    PrintedIsRead(n, rest);
    assert DigitsValue(rest, n) == n;
    hide Printed, DigitsValue, Stoi;
    var digits := Printed(n) + rest;
    assert digits[0] == Printed(n)[0];
    StoiOfDigits(digits, n);
  }
}
