/**
  What the event-stream parser promises: its deliveries do not depend on how the bytes were split,
  and on the streams a conforming server sends they are those of section 9.2.6 of the WHATWG HTML
  Living Standard.
*/
module SseStandard {
  import opened Chunks
  import opened Sequences
  import opened Wrappers
  import opened Utf8
  import opened LineSplit
  import opened Sse

  // ---------------------------------------------------------------- chunks

  lemma FindInAppend(a: Text, b: Text, s: Text)
    requires s == a + b && Find(a, 0) < |a|
    ensures Find(s, 0) == Find(a, 0)
  {
    var i := Find(a, 0);
    assert forall k | 0 <= k <= i :: s[k] == a[k];
    FindIs(s, 0, i);
  }

  /** Draining what has come, then what comes, is draining both. */
  lemma {:induction false} DrainAppend(mode: Mode, s: State, a: Text, b: Text)
    ensures var first := Drain(mode, s, a);
      var next := Drain(mode, first.state, first.buffer + b);
      Drain(mode, s, a + b) == Drained(next.state, first.out + next.out, next.buffer)
    decreases |a|
  {
    DrainOnce(mode, s, a);
    hide Drain, TakeLine, EndsPartial;
    var i := Find(a, 0);
    if i < |a| && !EndsPartial(Trimmed(a[..i])) {
      var step := TakeLine(mode, s, Trimmed(a[..i]));
      DrainAppend(mode, step.state, a[i + 1..], b);
      FindInAppend(a, b, a + b);
      CutAppend(a, b, i);
      DrainOnce(mode, s, a + b);
      var first := Drain(mode, step.state, a[i + 1..]);
      SeqAssoc(step.out, first.out, Drain(mode, first.state, first.buffer + b).out);
    }
  }

  /** A parser that holds no complete line it could take. */
  predicate Settled(mode: Mode, d: Drained) { Drain(mode, d.state, d.buffer) == Drained(d.state, [], d.buffer) }

  lemma {:induction false} DrainSettles(mode: Mode, s: State, buffer: Text)
    ensures Settled(mode, Drain(mode, s, buffer))
    decreases |buffer|
  {
    DrainOnce(mode, s, buffer);
    var i := Find(buffer, 0);
    if i < |buffer| && !EndsPartial(Trimmed(buffer[..i])) {
      DrainSettles(mode, TakeLine(mode, s, Trimmed(buffer[..i])).state, buffer[i + 1..]);
    }
  }

  /** Feeding chunks one by one is feeding them joined. */
  lemma {:induction false} FedAllJoined(mode: Mode, d: Drained, chunks: seq<Text>)
    requires Settled(mode, d)
    ensures FedAll(mode, d, chunks) == Fed(mode, d, Joined(chunks))
    decreases |chunks|
  {
    hide Drain;
    if chunks == [] {
      assert d.buffer + [] == d.buffer;
    } else {
      var first := Fed(mode, d, chunks[0]);
      DrainSettles(mode, d.state, d.buffer + chunks[0]);
      FedAllJoined(mode, first, chunks[1..]);
      var rest := Joined(chunks[1..]);
      DrainAppend(mode, d.state, d.buffer + chunks[0], rest);
      SeqAssoc(d.buffer, chunks[0], rest);
      var next := Drain(mode, d.state, d.buffer + chunks[0]);
      SeqAssoc(d.out, next.out, Drain(mode, next.state, next.buffer + rest).out);
    }
  }

  /**
    However a stream of bytes is cut into chunks, the events and retry hints delivered are the same:
    in either line mode, and with a line that ends inside a character.
  */
  lemma ChunkInvariance(mode: Mode, a: seq<Text>, b: seq<Text>)
    requires Joined(a) == Joined(b)
    ensures Delivers(mode, a) == Delivers(mode, b)
  {
    var start := Drained(START, [], []);
    assert Settled(mode, start) by { DrainOnce(mode, START, []); }
    FedAllJoined(mode, start, a);
    FedAllJoined(mode, start, b);
  }

  // ---------------------------------------------------------------- section 9.2.6

  const BOM: Text := [0xEF, 0xBB, 0xBF]

  /** The data buffer and the event type buffer. */
  datatype Buffers = Buffers(data: Text, eventType: Text)

  datatype Message = Message(eventType: Text, data: Text)

  datatype Interpreted = Interpreted(buffers: Buffers, sent: seq<Message>)

  /** The first end-of-line character, or the length when there is none. */
  function FindEol(s: Text): (i: nat)
    ensures i <= |s| && (i < |s| ==> s[i] == RETURN || s[i] == NEWLINE)
    ensures forall k | 0 <= k < i :: s[k] != RETURN && s[k] != NEWLINE
  {
    if s == [] || s[0] == RETURN || s[0] == NEWLINE then 0 else 1 + FindEol(s[1..])
  }

  /** Where the next line begins: past a CR LF pair, or past one character. */
  function AfterEol(s: Text): nat
    requires FindEol(s) < |s|
  {
    var i := FindEol(s);
    if s[i] == RETURN && i + 1 < |s| && s[i + 1] == NEWLINE then i + 2 else i + 1
  }

  /** The lines of a stream, and what is left after the last end of line. */
  function Parsed(s: Text): (r: (seq<Text>, Text))
    decreases |s|
  {
    if FindEol(s) == |s| then ([], s)
    else
      var rest := Parsed(s[AfterEol(s)..]);
      ([s[..FindEol(s)]] + rest.0, rest.1)
  }

  function DispatchEvent(b: Buffers): Interpreted {
    Interpreted(Buffers([], []), if b.data == [] then [] else [Message(b.eventType, b.data[..|b.data| - 1])])
  }

  function ProcessField(b: Buffers, field: Text, value: Text): Buffers {
    if field == EVENT then b.(eventType := value)
    else if field == DATA then b.(data := b.data + value + [NEWLINE])
    else b
  }

  /**
    A line's field and value: what comes before its first colon, and what comes after it without one leading
    space; without a colon the whole line is the field and the value is empty.
  */
  function ColonRule(line: Text): (r: (Text, Text)) {
    if line == [] then ([], [])
    else if line[0] == COLON then ([], if |line| > 1 && line[1] == SPACE then line[2..] else line[1..])
    else
      var rest := ColonRule(line[1..]);
      ([line[0]] + rest.0, rest.1)
  }

  function Interpret(b: Buffers, line: Text): Interpreted {
    if line == [] then DispatchEvent(b)
    else if line[0] == COLON then Interpreted(b, [])
    else Interpreted(ProcessField(b, ColonRule(line).0, ColonRule(line).1), [])
  }

  function InterpretAll(b: Buffers, lines: seq<Text>): Interpreted
    decreases |lines|
  {
    if lines == [] then Interpreted(b, [])
    else
      var first := Interpret(b, lines[0]);
      var rest := InterpretAll(first.buffers, lines[1..]);
      Interpreted(rest.buffers, first.sent + rest.sent)
  }

  /** The lines of the stream, with the unterminated one and the blank line that would close its frame. */
  function ClosedLines(s: Text): seq<Text> {
    var (lines, rest) := Parsed(s);
    lines + (if rest == [] then [] else [rest]) + [[]]
  }

  /** The messages of a stream after its leading byte order mark, the last frame closed. */
  function StandardMessages(s: Text): seq<Message> {
    InterpretAll(Buffers([], []), ClosedLines(if BOM <= s then s[3..] else s)).sent
  }

  // ---------------------------------------------------------------- the streams compared

  predicate IsDataLine(line: Text) { line != [] && line[0] != COLON && ColonRule(line).0 == DATA }

  /** A data line that continues a payload already whole. */
  predicate Splits(mode: Mode, b: Buffers, line: Text) {
    IsDataLine(line) && b.data != [] && ParsesAsOneValue(mode, b.data[..|b.data| - 1])
  }

  /** No beginning of a multi-line payload is already a whole value. */
  predicate NoSplit(mode: Mode, b: Buffers, lines: seq<Text>)
    decreases |lines|
  {
    lines == [] || (!Splits(mode, b, lines[0]) && NoSplit(mode, Interpret(b, lines[0]).buffers, lines[1..]))
  }

  predicate ReturnsEndLines(s: Text) {
    forall k | 0 <= k < |s| && s[k] == RETURN :: k + 1 < |s| && s[k + 1] == NEWLINE
  }

  /** Valid UTF-8 without a byte order mark, whose carriage returns all come before a newline. */
  predicate Plain(s: Text) { Valid(s) && !(BOM <= s) && ReturnsEndLines(s) }

  function MessagesOf(out: seq<Output>): seq<Message> {
    if out == [] then []
    else if out[0].Delivered? then [Message(out[0].event.event, out[0].event.data)] + MessagesOf(out[1..])
    else MessagesOf(out[1..])
  }

  lemma {:induction false} MessagesAppend(a: seq<Output>, b: seq<Output>)
    ensures MessagesOf(a + b) == MessagesOf(a) + MessagesOf(b)
  {
    if a == [] {
      assert a + b == b;
    } else {
      assert (a + b)[1..] == a[1..] + b;
      MessagesAppend(a[1..], b);
    }
  }

  /** The parser over lines. */
  function TakeLines(mode: Mode, s: State, lines: seq<Text>): Step
    decreases |lines|
  {
    if lines == [] then Step(s, [])
    else
      var first := TakeLine(mode, s, lines[0]);
      var rest := TakeLines(mode, first.state, lines[1..]);
      Step(rest.state, first.out + rest.out)
  }

  lemma {:induction false} TakeLinesAppend(mode: Mode, s: State, a: seq<Text>, b: seq<Text>)
    ensures var first := TakeLines(mode, s, a);
      var next := TakeLines(mode, first.state, b);
      TakeLines(mode, s, a + b) == Step(next.state, first.out + next.out)
    decreases |a|
  {
    if a == [] {
      assert a + b == b;
    } else {
      assert (a + b)[1..] == a[1..] + b;
      var step := TakeLine(mode, s, a[0]);
      TakeLinesAppend(mode, step.state, a[1..], b);
      var first := TakeLines(mode, step.state, a[1..]);
      hide TakeLine;
      SeqAssoc(step.out, first.out, TakeLines(mode, first.state, b).out);
    }
  }

  // ---------------------------------------------------------------- lines

  /** On a plain stream a line ends with a newline, at the standard's end of line or just after it. */
  lemma EolIsNewline(s: Text) returns (i: nat)
    requires ReturnsEndLines(s) && FindEol(s) < |s|
    ensures i < |s| && s[i] == NEWLINE && AfterEol(s) == i + 1
    ensures i == FindEol(s) || (i == FindEol(s) + 1 && s[FindEol(s)] == RETURN)
    ensures forall k | 0 <= k < i :: s[k] != NEWLINE
  {
    hide FindEol;
    var j := FindEol(s);
    i := if s[j] == RETURN then j + 1 else j;
  }

  lemma NoEol(s: Text)
    ensures FindEol(s) == |s| ==> Find(s, 0) == |s|
  {
    hide FindEol, Find;
  }

  /** On a plain stream the parser cuts the line the standard cuts. */
  lemma SameFirstLine(s: Text)
    requires ReturnsEndLines(s)
    ensures Find(s, 0) == |s| <==> FindEol(s) == |s|
    ensures FindEol(s) < |s| ==> AfterEol(s) == Find(s, 0) + 1 && Trimmed(s[..Find(s, 0)]) == s[..FindEol(s)]
    ensures FindEol(s) < |s| ==> ReturnsEndLines(s[AfterEol(s)..])
  {
    hide Trimmed, Find, FindEol, AfterEol, ReturnsEndLines;
    NoEol(s);
    if FindEol(s) < |s| {
      var i := EolIsNewline(s);
      FindIs(s, 0, i);
      TrimmedLine(s, FindEol(s), i);
      ReturnsEndRest(s, i + 1);
    }
  }

  lemma TrimmedLine(s: Text, j: nat, i: nat)
    requires j <= i < |s| && (forall k | 0 <= k < j :: s[k] != RETURN)
    requires i == j || (i == j + 1 && s[j] == RETURN)
    ensures Trimmed(s[..i]) == s[..j]
  {
    if i == j + 1 { TakeTake(s, j, i); }
  }

  lemma ReturnsEndRest(s: Text, k: nat)
    requires ReturnsEndLines(s) && k <= |s|
    ensures ReturnsEndLines(s[k..])
  {
    var t := s[k..];
    forall i | 0 <= i < |t| && t[i] == RETURN ensures i + 1 < |t| && t[i + 1] == NEWLINE {
      assert s[k + i] == RETURN;
    }
  }

  lemma ValidLine(s: Text)
    requires Valid(s) && ReturnsEndLines(s) && FindEol(s) < |s|
    ensures !EndsPartial(s[..FindEol(s)]) && Valid(s[AfterEol(s)..])
  {
    var j := FindEol(s);
    LeadClasses(s[j]);
    CutBeforeCharacter(s, j);
    PartialMeetsValid(s, j);
    var k := AfterEol(s);
    CutAfterAscii(s, k);
  }

  /** Draining a plain stream is taking the lines the standard parses, and keeping what is left. */
  lemma {:induction false} DrainTakesLines(mode: Mode, s: State, buffer: Text)
    requires Valid(buffer) && ReturnsEndLines(buffer)
    ensures var (lines, rest) := Parsed(buffer);
      Drain(mode, s, buffer) == Drained(TakeLines(mode, s, lines).state, TakeLines(mode, s, lines).out, rest)
    ensures Valid(Parsed(buffer).1) && OneLine(Parsed(buffer).1) && RETURN !in Parsed(buffer).1
    decreases |buffer|
  {
    hide Valid, TakeLine;
    SameFirstLine(buffer);
    DrainOnce(mode, s, buffer);
    if FindEol(buffer) < |buffer| {
      var line := buffer[..FindEol(buffer)];
      ValidLine(buffer);
      DrainTakesLines(mode, TakeLine(mode, s, line).state, buffer[AfterEol(buffer)..]);
      var (lines, rest) := Parsed(buffer[AfterEol(buffer)..]);
      hide Drain;
      assert ([line] + lines)[1..] == lines;
    }
  }

  /** Where text is valid and returns end lines, everything the parser delivers it delivers for the closed lines. */
  lemma DeliversLines(mode: Mode, s: Text)
    requires Valid(s) && ReturnsEndLines(s)
    ensures Delivers(mode, [s]) == TakeLines(mode, START, ClosedLines(s)).out
  {
    var (lines, rest) := Parsed(s);
    DrainTakesLines(mode, START, s);
    var d := Drained(TakeLines(mode, START, lines).state, TakeLines(mode, START, lines).out, rest);
    assert FedAll(mode, Drained(START, [], []), [s]) == d by {
      assert [] + s == s && [s][1..] == [];
    }
    PartialMeetsValid(rest, |rest|);
    assert rest[..|rest|] == rest;
    assert Trimmed(rest) == rest;
    var tail := (if rest == [] then [] else [rest]) + [[]];
    SeqAssoc(lines, if rest == [] then [] else [rest], [[]]);
    TakeLinesAppend(mode, START, lines, tail);
    FinishTakes(mode, d.state, rest);
  }

  /** The close of a stream takes the unterminated line, then a blank one. */
  lemma FinishTakes(mode: Mode, s: State, rest: Text)
    requires Trimmed(rest) == rest && !EndsPartial(rest)
    ensures Finished(mode, s, rest).out == TakeLines(mode, s, (if rest == [] then [] else [rest]) + [[]]).out
  {
    var blank: seq<Text> := [[]];
    assert blank[1..] == [];
    if rest == [] {
      assert [] + blank == blank;
    } else {
      assert ([rest] + blank)[1..] == blank;
    }
  }

  // ---------------------------------------------------------------- agreement

  /** The pending event is the standard's two buffers; only the newline after the last data line is not there yet. */
  predicate Agree(s: State, b: Buffers) {
    && s.pending.event == b.eventType
    && (if s.hasData then b.data == s.pending.data + [NEWLINE] else b.data == [] && s.pending.data == [])
  }

  /** The parser splits a line as the standard does. */
  lemma {:induction false} SplitMeetsColonRule(line: Text)
    ensures ColonRule(line) == (Field(line), FieldValue(line))
  {
    if line != [] && line[0] != COLON {
      var rest := line[1..];
      SplitMeetsColonRule(rest);
      assert FindColon(line) == 1 + FindColon(rest);
      assert line[..FindColon(line)] == [line[0]] + rest[..FindColon(rest)];
      if FindColon(rest) < |rest| { assert line[FindColon(line) + 1..] == rest[FindColon(rest) + 1..]; }
    }
  }

  lemma AgreeStep(mode: Mode, s: State, b: Buffers, line: Text)
    requires Agree(s, b) && !mode.bareLines && !Splits(mode, b, line)
    ensures var (p, q) := (TakeLine(mode, s, line), Interpret(b, line));
      Agree(p.state, q.buffers) && MessagesOf(p.out) == q.sent
  {
    SplitMeetsColonRule(line);
    hide ColonRule, Field, FieldValue, Dispatched, DispatchEvent;
    if IsDataLine(line) {
      AgreeData(mode, s, b, FieldValue(line));
    } else if line == [] {
      AgreeDispatch(s, b);
    }
  }

  lemma AgreeData(mode: Mode, s: State, b: Buffers, value: Text)
    requires Agree(s, b) && !(s.hasData && ParsesAsOneValue(mode, s.pending.data))
    ensures Agree(TakeData(mode, s, value).state, b.(data := b.data + value + [NEWLINE])) && TakeData(mode, s, value).out == []
  {
    if !s.hasData { assert [] + value == value; }
  }

  lemma AgreeDispatch(s: State, b: Buffers)
    requires Agree(s, b)
    ensures Agree(Dispatched(s).state, DispatchEvent(b).buffers) && MessagesOf(Dispatched(s).out) == DispatchEvent(b).sent
  {
    if s.hasData {
      assert (s.pending.data + [NEWLINE])[..|s.pending.data|] == s.pending.data;
      assert [Delivered(s.pending)][1..] == [];
    }
  }

  lemma {:induction false} AgreeAll(mode: Mode, s: State, b: Buffers, lines: seq<Text>)
    requires Agree(s, b) && !mode.bareLines && NoSplit(mode, b, lines)
    ensures MessagesOf(TakeLines(mode, s, lines).out) == InterpretAll(b, lines).sent
    decreases |lines|
  {
    if lines != [] {
      AgreeStep(mode, s, b, lines[0]);
      var (p, q) := (TakeLine(mode, s, lines[0]), Interpret(b, lines[0]));
      AgreeAll(mode, p.state, q.buffers, lines[1..]);
      hide TakeLine, Interpret, Agree, NoSplit;
      MessagesAppend(p.out, TakeLines(mode, p.state, lines[1..]).out);
    }
  }

  // ---------------------------------------------------------------- exactly when

  /** How many payloads were delivered by a data line rather than by a blank one. */
  function Extra(mode: Mode, s: State, lines: seq<Text>): nat
    decreases |lines|
  {
    if lines == [] then 0
    else
      (if IsDataLine(lines[0]) && s.hasData && ParsesAsOneValue(mode, s.pending.data) then 1 else 0)
        + Extra(mode, TakeLine(mode, s, lines[0]).state, lines[1..])
  }

  lemma CountStep(mode: Mode, s: State, b: Buffers, line: Text)
    requires s.hasData <==> b.data != []
    requires !mode.bareLines
    ensures var (p, q) := (TakeLine(mode, s, line), Interpret(b, line));
      && (p.state.hasData <==> q.buffers.data != [])
      && |MessagesOf(p.out)| == |q.sent| + if IsDataLine(line) && s.hasData && ParsesAsOneValue(mode, s.pending.data) then 1 else 0
  {
    SplitMeetsColonRule(line);
    hide FieldValue, Field, ColonRule;
    if s.hasData { assert [Delivered(s.pending)][1..] == []; }
  }

  lemma {:induction false} CountAll(mode: Mode, s: State, b: Buffers, lines: seq<Text>)
    requires s.hasData <==> b.data != []
    requires !mode.bareLines
    ensures |MessagesOf(TakeLines(mode, s, lines).out)| == |InterpretAll(b, lines).sent| + Extra(mode, s, lines)
    decreases |lines|
  {
    if lines != [] {
      CountStep(mode, s, b, lines[0]);
      var (p, q) := (TakeLine(mode, s, lines[0]), Interpret(b, lines[0]));
      CountAll(mode, p.state, q.buffers, lines[1..]);
      hide TakeLine, Interpret;
      MessagesAppend(p.out, TakeLines(mode, p.state, lines[1..]).out);
    }
  }

  lemma {:induction false} NoExtraNoSplit(mode: Mode, s: State, b: Buffers, lines: seq<Text>)
    requires Agree(s, b) && !mode.bareLines && Extra(mode, s, lines) == 0
    ensures NoSplit(mode, b, lines)
    decreases |lines|
  {
    if lines != [] {
      if s.hasData { assert b.data[..|b.data| - 1] == s.pending.data; }
      AgreeStep(mode, s, b, lines[0]);
      var (p, q) := (TakeLine(mode, s, lines[0]), Interpret(b, lines[0]));
      hide Agree, TakeLine, Interpret;
      NoExtraNoSplit(mode, p.state, q.buffers, lines[1..]);
    }
  }

  /**
    On a plain stream read without bare lines, however it is cut into chunks, the messages delivered are
    the standard's with the last frame closed exactly when no beginning of a payload is already whole.
  */
  lemma MeetsStandard(mode: Mode, chunks: seq<Text>, s: Text)
    requires Joined(chunks) == s && Plain(s) && !mode.bareLines
    ensures MessagesOf(Delivers(mode, chunks)) == StandardMessages(s)
            <==> NoSplit(mode, Buffers([], []), ClosedLines(s))
  {
    hide Delivers, ClosedLines, Joined, NoSplit, Extra, TakeLines, InterpretAll, Valid;
    assert Joined([s]) == s by { JoinedOne(s); }
    ChunkInvariance(mode, chunks, [s]);
    DeliversLines(mode, s);
    var (b, lines) := (Buffers([], []), ClosedLines(s));
    CountAll(mode, START, b, lines);
    if NoSplit(mode, b, lines) {
      AgreeAll(mode, START, b, lines);
    } else if Extra(mode, START, lines) == 0 {
      NoExtraNoSplit(mode, START, b, lines);
    }
  }
}
