/**
  The event-stream parser (src/core/sse.cpp) and the algorithm it follows.

  The parser's state is a value, its steps are functions of that value, and the class performs the
  steps in place. `Drain` is what `Feed` leaves of a buffer, and every claim about chunks is a claim
  about `Drain`. The reference is section 9.2.6 of the WHATWG HTML Living Standard, restated over bytes.
*/
module Sse {
  import opened Chunks
  import opened Sequences
  import opened Wrappers
  import opened Utf8
  import opened LineSplit

  datatype Event = Event(event: Text, id: Text, data: Text)

  const NO_EVENT := Event([], [], [])

  /** What a caller observes: an event delivered, or a retry hint reported. */
  datatype Output = Delivered(event: Event) | Retry(milliseconds: nat)

  /** The settings a caller makes before the stream: bare lines, a retry callback, and what a whole JSON value is. */
  datatype Mode = Mode(bareLines: bool, reportsRetry: bool, wholeJson: Text -> bool)

  datatype State = State(pending: Event, hasData: bool)

  const START := State(NO_EVENT, false)

  /** A step's state and what it delivers. */
  datatype Step = Step(state: State, out: seq<Output>)

  const COLON: byte := 0x3A
  const SPACE: byte := 0x20
  const DATA: Text := [0x64, 0x61, 0x74, 0x61]
  const EVENT: Text := [0x65, 0x76, 0x65, 0x6E, 0x74]
  const ID: Text := [0x69, 0x64]
  const RETRY: Text := [0x72, 0x65, 0x74, 0x72, 0x79]
  const DONE: Text := [0x5B, 0x44, 0x4F, 0x4E, 0x45, 0x5D]

  // ---------------------------------------------------------------- one line

  function FindColon(line: Text): (i: nat)
    ensures i <= |line| && (i < |line| ==> line[i] == COLON) && forall k | 0 <= k < i :: line[k] != COLON
  {
    if line == [] || line[0] == COLON then 0 else 1 + FindColon(line[1..])
  }

  function Field(line: Text): Text { line[..FindColon(line)] }

  function FieldValue(line: Text): Text {
    var i := FindColon(line);
    if i == |line| then []
    else
      var value := line[i + 1..];
      if value != [] && value[0] == SPACE then value[1..] else value
  }

  predicate StartsAField(line: Text) {
    exists field | field in [DATA, EVENT, ID, RETRY] :: StartsWithField(line, field)
  }

  predicate StartsWithField(line: Text, field: Text) {
    |line| > |field| && line[..|field|] == field && line[|field|] == COLON
  }

  predicate ParsesAsOneValue(mode: Mode, data: Text) {
    data != [] && (data == DONE || mode.wholeJson(data))
  }

  predicate IsSpace(b: byte) { b == 0x20 || 0x09 <= b <= 0x0D }

  function DigitsValue(s: Text, acc: nat): nat {
    if s == [] || !(0x30 <= s[0] <= 0x39) then acc else DigitsValue(s[1..], acc * 10 + (s[0] as int - 0x30))
  }

  function SkipSpaces(s: Text): Text {
    if s != [] && IsSpace(s[0]) then SkipSpaces(s[1..]) else s
  }

  /** `std::stoi`: spaces, a sign, digits, and whatever follows them; nothing without a digit or beyond 32 bits. */
  function Stoi(s: Text): Option<int> {
    var t := SkipSpaces(s);
    var negative := t != [] && t[0] == 0x2D;
    var digits := if t != [] && (t[0] == 0x2D || t[0] == 0x2B) then t[1..] else t;
    if digits == [] || !(0x30 <= digits[0] <= 0x39) then None
    else
      var value: int := if negative then -(DigitsValue(digits, 0) as int) else DigitsValue(digits, 0);
      if -0x8000_0000 <= value < 0x8000_0000 then Some(value) else None
  }

  function Dispatched(s: State): Step {
    Step(START, if s.hasData then [Delivered(s.pending)] else [])
  }

  /** A `data` line: a payload already whole is delivered first, otherwise the line continues it. */
  function TakeData(mode: Mode, s: State, value: Text): Step {
    var before := if s.hasData && ParsesAsOneValue(mode, s.pending.data) then Dispatched(s) else Step(s, []);
    var p := before.state.pending;
    var joined := (if before.state.hasData then p.data + [NEWLINE] else p.data) + value;
    Step(State(p.(data := joined), true), before.out)
  }

  function TakeField(mode: Mode, s: State, field: Text, value: Text): Step {
    if field == DATA then TakeData(mode, s, value)
    else if field == EVENT then Step(s.(pending := s.pending.(event := value)), [])
    else if field == ID then Step(s.(pending := s.pending.(id := value)), [])
    else if field == RETRY && mode.reportsRetry && Stoi(value).Some? && Stoi(value).value >= 0 then
      Step(s, [Retry(Stoi(value).value)])
    else Step(s, [])
  }

  function TakeLine(mode: Mode, s: State, line: Text): Step {
    if line == [] then Dispatched(s)
    else if line[0] == COLON then Step(s, [])
    else if mode.bareLines && !StartsAField(line) then Step(s, [Delivered(Event([], [], line))])
    else TakeField(mode, s, Field(line), FieldValue(line))
  }

  // ---------------------------------------------------------------- the buffer

  /** A line without the carriage return that came before its newline. */
  function Trimmed(line: Text): Text {
    if line != [] && line[|line| - 1] == RETURN then line[..|line| - 1] else line
  }

  /** The parser after the lines a buffer completes, up to one that ends inside a character. */
  datatype Drained = Drained(state: State, out: seq<Output>, buffer: Text)

  function Drain(mode: Mode, s: State, buffer: Text): Drained
    decreases |buffer|
  {
    var newline := Find(buffer, 0);
    if newline == |buffer| || EndsPartial(Trimmed(buffer[..newline])) then Drained(s, [], buffer)
    else
      var step := TakeLine(mode, s, Trimmed(buffer[..newline]));
      var rest := Drain(mode, step.state, buffer[newline + 1..]);
      Drained(rest.state, step.out + rest.out, rest.buffer)
  }

  lemma DrainOnce(mode: Mode, s: State, buffer: Text)
    ensures var newline := Find(buffer, 0);
      if newline == |buffer| || EndsPartial(Trimmed(buffer[..newline])) then Drain(mode, s, buffer) == Drained(s, [], buffer)
      else
        var step := TakeLine(mode, s, Trimmed(buffer[..newline]));
        var rest := Drain(mode, step.state, buffer[newline + 1..]);
        Drain(mode, s, buffer) == Drained(rest.state, step.out + rest.out, rest.buffer)
  {}

  /** The close of the stream: the buffer is one last line, and the frame it leaves is delivered. */
  function Finished(mode: Mode, s: State, buffer: Text): Step {
    var line := Trimmed(buffer);
    var last := if buffer == [] || EndsPartial(line) then Step(s, []) else TakeLine(mode, s, line);
    Step(START, last.out + Dispatched(last.state).out)
  }

  /** Feeding some bytes after what is already buffered. */
  function Fed(mode: Mode, d: Drained, data: Text): Drained {
    var next := Drain(mode, d.state, d.buffer + data);
    Drained(next.state, d.out + next.out, next.buffer)
  }

  function FedAll(mode: Mode, d: Drained, chunks: seq<Text>): Drained
    decreases |chunks|
  {
    if chunks == [] then d else FedAll(mode, Fed(mode, d, chunks[0]), chunks[1..])
  }

  /** Everything a stream of chunks delivers, the close included. */
  function Delivers(mode: Mode, chunks: seq<Text>): seq<Output> {
    var d := FedAll(mode, Drained(START, [], []), chunks);
    d.out + Finished(mode, d.state, d.buffer).out
  }

  // ---------------------------------------------------------------- the parser in place

  method SplitField(line: Text) returns (field: Text, value: Text)
    ensures field == Field(line) && value == FieldValue(line)
    ensures field <= line && COLON !in field
    ensures (field == line && value == []) || |field| + 1 + |value| == |line| || |field| + 2 + |value| == |line|
  {
    var colon := FindColon(line);
    if colon == |line| { return line, []; }
    field := line[..colon];
    value := line[colon + 1..];
    if |value| > 0 && value[0] == SPACE { value := value[1..]; }
  }

  class SseParser {
    const mode: Mode
    var buffer: Text
    var pending: Event
    var hasData: bool
    /** What the callbacks were given, in order. */
    var out: seq<Output>

    function Now(): State
      reads this
    {
      State(pending, hasData)
    }

    constructor (mode: Mode)
      ensures this.mode == mode && Now() == START && buffer == [] && out == []
    {
      this.mode := mode;
      buffer, pending, hasData, out := [], NO_EVENT, false, [];
    }

    method Dispatch()
      modifies this`pending, this`hasData, this`out
      ensures var step := Dispatched(old(Now())); Now() == step.state && out == old(out) + step.out
    {
      var carried := hasData;
      hasData := false;
      var event := pending;
      pending := NO_EVENT;
      if !carried { return; }
      out := out + [Delivered(event)];
    }

    method HandleLine(line: Text)
      modifies this`pending, this`hasData, this`out
      ensures var step := TakeLine(mode, old(Now()), line); Now() == step.state && out == old(out) + step.out
    {
      if |line| == 0 {
        Dispatch();
        return;
      }
      if line[0] == COLON { return; }
      if mode.bareLines && !StartsAField(line) {
        out := out + [Delivered(Event([], [], line))];
        return;
      }
      var field, value := SplitField(line);
      if field == DATA {
        if hasData && ParsesAsOneValue(mode, pending.data) { Dispatch(); }
        if hasData { pending := pending.(data := pending.data + [NEWLINE]); }
        pending := pending.(data := pending.data + value);
        hasData := true;
        return;
      }
      if field == EVENT {
        pending := pending.(event := value);
        return;
      }
      if field == ID {
        pending := pending.(id := value);
        return;
      }
      if field == RETRY {
        if mode.reportsRetry {
          var milliseconds := Stoi(value);
          if milliseconds.Some? && milliseconds.value >= 0 {
            out := out + [Retry(milliseconds.value)];
          }
        }
        return;
      }
    }

    method Feed(data: Text)
      modifies this
      ensures Drained(Now(), out, buffer) == Fed(mode, Drained(old(Now()), old(out), old(buffer)), data)
    {
      hide TakeLine, Drain;
      buffer := buffer + data;
      ghost var all := Drain(mode, Now(), buffer);
      while true
        invariant Drain(mode, Now(), buffer).state == all.state
        invariant Drain(mode, Now(), buffer).buffer == all.buffer
        invariant out + Drain(mode, Now(), buffer).out == old(out) + all.out
        decreases |buffer|
      {
        DrainOnce(mode, Now(), buffer);
        var newline := Find(buffer, 0);
        if newline == |buffer| { break; }
        var line := buffer[..newline];
        if |line| > 0 && line[|line| - 1] == RETURN { line := line[..|line| - 1]; }
        var partial := EndsWithPartialSequence(line);
        if partial { break; }
        ghost var (before, s) := (out, Now());
        buffer := buffer[newline + 1..];
        HandleLine(line);
        SeqAssoc(before, TakeLine(mode, s, line).out, Drain(mode, Now(), buffer).out);
      }
    }

    method Finish()
      modifies this
      ensures var last := Finished(mode, old(Now()), old(buffer));
        Now() == last.state && out == old(out) + last.out && buffer == []
    {
      if |buffer| > 0 {
        var line := buffer;
        if line[|line| - 1] == RETURN { line := line[..|line| - 1]; }
        buffer := [];
        var partial := EndsWithPartialSequence(line);
        if !partial { HandleLine(line); }
      }
      Dispatch();
    }
  }
}
