/**
  The bounded capture of a command's output (src/exec/run.cpp, include/pu/exec/run.hpp).

  A head-kept capture keeps the first `maxBytes` bytes and trims at hand-over; an end-kept one
  drops from the front whenever it holds a quarter too much. `Take` is specified against the
  whole stream, so nothing about the chunks the stream came in survives into its contract.
*/
module OutputCapture {
  import opened Sequences
  import opened Wrappers
  import opened Utf8
  import opened LineSplit

  datatype Keep = Head | End

  datatype Extent = Extent(lines: nat, bytes: nat, retained: nat, fromEnd: bool) {
    predicate Truncated() { retained < lines }
    function Skipped(): nat { if fromEnd && lines > retained then lines - retained else 0 }
  }

  datatype Captured = Captured(text: Text, extent: Extent)

  // ---------------------------------------------------------------- what is kept

  /** Where an end-kept stream is cut when it is cut once: after the first newline the excess reaches. */
  function FromCut(stream: Text, max: nat): (d: nat)
    requires max <= |stream|
    ensures |stream| - max <= d <= |stream|
  {
    var i := Find(stream, |stream| - max);
    if i == |stream| then |stream| - max else i + 1
  }

  /** The longest beginning that does not end in a partial sequence. */
  function DropPartial(s: Text): (r: Text)
    ensures r <= s
  {
    if s != [] && EndsPartial(s) then DropPartial(s[..|s| - 1]) else s
  }

  /** The length up to and with the last newline, the whole length when there is none. */
  function ThroughLastNewline(s: Text): (n: nat)
    ensures n <= |s|
    ensures Newlines(s) == 0 ==> n == |s|
  {
    if Newlines(s) == 0 then |s|
    else if s[|s| - 1] == NEWLINE then |s|
    else ThroughLastNewline(s[..|s| - 1])
  }

  function HeadText(stream: Text, max: nat): (t: Text)
    ensures t <= stream
  {
    if max == 0 || |stream| <= max then stream
    else
      var whole := DropPartial(stream[..max]);
      whole[..ThroughLastNewline(whole)]
  }

  predicate EndTruncated(stream: Text, max: nat) { max > 0 && |stream| * 4 > max * 5 }

  predicate CutBetweenLines(stream: Text, max: nat) {
    max < |stream| && stream[|stream| - max - 1] == NEWLINE
  }

  /**
    The streams whose capture depends on the chunks they came in: the cut falls exactly between two lines,
    a later line ends too, and the stream was over-full before its last byte, when a drop would make just that cut.
  */
  predicate ChunksMatter(stream: Text, max: nat) {
    && stream != [] && EndTruncated(stream[..|stream| - 1], max)
    && CutBetweenLines(stream, max) && Find(stream, |stream| - max) < |stream|
  }

  /** The text an end-kept capture hands over is the stream from one of at most two places. */
  ghost predicate EndText(stream: Text, max: nat, text: Text) {
    if !EndTruncated(stream, max) then text == stream
    else
      || text == stream[FromCut(stream, max)..]
      || (ChunksMatter(stream, max) && text == stream[|stream| - max..])
  }

  /** The end-kept buffer as a value: what a chunk makes of it, and what it hands over. */
  datatype EndBuffer = EndBuffer(text: Text, truncated: bool)

  function ToBudget(text: Text, max: nat): Text { if |text| > max then text[FromCut(text, max)..] else text }

  function EndAppended(b: EndBuffer, data: Text, max: nat): EndBuffer {
    if data == [] then b
    else if EndTruncated(b.text + data, max) then EndBuffer(ToBudget(b.text + data, max), true)
    else EndBuffer(b.text + data, b.truncated)
  }

  function EndHandedOver(b: EndBuffer, max: nat): Text { if b.truncated then ToBudget(b.text, max) else b.text }

  ghost predicate CapturedFrom(stream: Text, max: nat, keep: Keep, c: Captured) {
    && (if keep == Head then c.text == HeadText(stream, max) else EndText(stream, max, c.text))
    && c.extent == Extent(|Lines(stream)|, |stream|, |Lines(c.text)|, keep == End)
  }

  // ---------------------------------------------------------------- the buffer

  method CountLines(text: Text) returns (lines: nat)
    ensures lines == |Lines(text)|
  {
    LineCountMeetsLines(text);
    if |text| == 0 { return 0; }
    lines := 0;
    var i := 0;
    assert text[..|text|] == text;
    while i < |text|
      invariant 0 <= i <= |text|
      invariant lines == Newlines(text[..i])
    {
      assert text[..i + 1][..i] == text[..i];
      if text[i] == NEWLINE { lines := lines + 1; }
      i := i + 1;
    }
    if text[|text| - 1] != NEWLINE { lines := lines + 1; }
  }

  /** How the front of an end-kept stream came to be dropped: by the cut made when `at` bytes had come. */
  ghost predicate DroppedAt(stream: Text, max: nat, dropped: nat, at: nat) {
    && max <= at <= |stream| && at - max <= dropped <= |stream| && at * 4 > max * 5
    && (if at - max < dropped
        then dropped <= at && stream[dropped - 1] == NEWLINE
             && forall k | at - max <= k < dropped - 1 :: stream[k] != NEWLINE
        else forall k | at - max <= k < at :: stream[k] != NEWLINE)
  }

  ghost predicate Dropped(stream: Text, max: nat, dropped: nat) {
    exists at :: DroppedAt(stream, max, dropped, at)
  }

  /** What an end-kept buffer holds of the stream so far. */
  ghost predicate EndKept(stream: Text, max: nat, text: Text, truncated: bool) {
    && |text| <= |stream| && text == stream[|stream| - |text|..]
    && (truncated <==> EndTruncated(stream, max))
    && (if truncated then Dropped(stream, max, |stream| - |text|) else text == stream)
    && (max > 0 ==> |text| * 4 <= max * 5)
  }

  /** What a head-kept buffer holds of the stream so far. */
  ghost predicate HeadKept(stream: Text, max: nat, text: Text, truncated: bool) {
    && (truncated <==> max > 0 && |stream| > max)
    && text == if truncated then stream[..max] else stream
  }

  ghost predicate Kept(keep: Keep, stream: Text, max: nat, text: Text, truncated: bool) {
    if keep == End then EndKept(stream, max, text, truncated) else HeadKept(stream, max, text, truncated)
  }

  class Capture {
    const maxBytes: nat
    const keep: Keep
    var bytes: nat
    var newlines: nat
    var last: byte
    var text: Text
    var truncated: bool
    ghost var stream: Text

    ghost predicate Counted()
      reads this
    {
      && bytes == |stream|
      && newlines == Newlines(stream)
      && (stream != [] ==> last == stream[|stream| - 1])
    }

    ghost predicate Valid()
      reads this
    {
      Counted() && Kept(keep, stream, maxBytes, text, truncated)
    }

    constructor (maxBytes: nat, keep: Keep)
      ensures Valid() && stream == [] && this.maxBytes == maxBytes && this.keep == keep
    {
      this.maxBytes, this.keep := maxBytes, keep;
      bytes, newlines, last, text, truncated, stream := 0, 0, NEWLINE, [], false, [];
    }

    /** Drops the front of an over-full buffer, at a line boundary when the kept part has one. */
    method DropToBudget()
      requires maxBytes > 0 && |text| <= |stream| && text == stream[|stream| - |text|..]
      requires |text| > maxBytes || truncated
      modifies this`text, this`truncated
      ensures |text| <= maxBytes && truncated
      ensures old(|text|) <= maxBytes ==> text == old(text)
      ensures old(|text|) > maxBytes ==> text == stream[FromCut(stream, maxBytes)..]
      ensures text == ToBudget(old(text), maxBytes)
    {
      CutWithin(text, maxBytes);
      hide FromCut;
      while |text| > maxBytes
        invariant |text| <= maxBytes ==> truncated
        invariant text == old(text) || (old(|text|) > maxBytes >= |text| && text == old(text)[FromCut(old(text), maxBytes)..])
        invariant old(|text|) <= maxBytes ==> text == old(text)
        invariant old(|text|) > maxBytes ==>
          text == old(text) || (|text| <= maxBytes && text == stream[FromCut(stream, maxBytes)..])
        decreases |text|
      {
        var cut := |text| - maxBytes;
        var newline := Find(text, cut);
        var drop := if newline == |text| then cut else newline + 1;
        DropIsFromCut(stream, text, maxBytes);
        text := text[drop..];
        truncated := true;
      }
    }

    method CountNewlines(data: Text)
      modifies this`newlines
      ensures newlines == old(newlines) + Newlines(data)
    {
      var i := 0;
      while i < |data|
        invariant 0 <= i <= |data|
        invariant newlines == old(newlines) + Newlines(data[..i])
      {
        assert data[..i + 1][..i] == data[..i];
        if data[i] == NEWLINE { newlines := newlines + 1; }
        i := i + 1;
      }
      assert data[..|data|] == data;
    }

    method Append(data: Text)
      requires Valid()
      modifies this
      ensures Valid() && stream == old(stream) + data
      ensures keep == End ==> EndBuffer(text, truncated) == EndAppended(old(EndBuffer(text, truncated)), data, maxBytes)
    {
      if |data| == 0 {
        assert stream + data == stream;
        return;
      }
      hide Newlines, Kept;
      bytes := bytes + |data|;
      CountNewlines(data);
      NewlinesAppend(stream, data);
      last := data[|data| - 1];
      ghost var before := stream;
      stream := stream + data;
      if maxBytes == 0 {
        UnboundedAppend(keep, before, text, truncated, data);
        text := text + data;
        return;
      }
      if keep == Head {
        KeepHead(before, data);
      } else {
        KeepEnd(before, data);
      }
    }

    method KeepHead(ghost before: Text, data: Text)
      requires maxBytes > 0 && keep == Head && stream == before + data && Kept(Head, before, maxBytes, text, truncated)
      modifies this`text, this`truncated
      ensures Kept(keep, stream, maxBytes, text, truncated)
    {
      var room := if |text| < maxBytes then maxBytes - |text| else 0;
      var kept := if |data| < room then |data| else room;
      HeadAppend(before, maxBytes, text, truncated, data, kept);
      if kept > 0 { text := text + data[..kept]; } else { assert text + data[..0] == text; }
      if kept < |data| { truncated := true; }
    }

    method KeepEnd(ghost before: Text, data: Text)
      requires maxBytes > 0 && keep == End && stream == before + data && Kept(End, before, maxBytes, text, truncated)
      modifies this`text, this`truncated
      ensures Kept(keep, stream, maxBytes, text, truncated)
      ensures data != [] ==> EndBuffer(text, truncated) == EndAppended(old(EndBuffer(text, truncated)), data, maxBytes)
    {
      ghost var prior := text;
      AppendedSuffix(before, prior, data);
      text := text + data;
      if |text| * 4 > maxBytes * 5 {
        EndAppendDrops(before, maxBytes, prior, truncated, data, stream);
        hide EndKept, FromCut, ToBudget;
        DropToBudget();
      } else {
        EndAppendKeeps(before, maxBytes, prior, truncated, data, stream, text);
      }
    }

    method TrimHead()
      modifies this`text
      ensures var whole := DropPartial(old(text)); text == whole[..ThroughLastNewline(whole)]
    {
      while |text| > 0
        invariant DropPartial(text) == DropPartial(old(text))
        decreases |text|
      {
        var partial := EndsWithPartialSequence(text);
        if !partial { break; }
        text := text[..|text| - 1];
      }
      var keepTo := ThroughLastNewline(text);
      text := text[..keepTo];
    }

    /** The trimming that waits for the end of the stream. */
    method Settle()
      requires Valid()
      modifies this`text, this`truncated
      ensures if keep == Head then text == HeadText(stream, maxBytes) else EndText(stream, maxBytes, text)
      ensures keep == End ==> text == EndHandedOver(old(EndBuffer(text, truncated)), maxBytes)
    {
      if keep == Head {
        if truncated { TrimHead(); }
      } else if truncated {
        EndTake(stream, maxBytes, text);
        DropToBudget();
      }
    }

    /** Hands the kept bytes over, with what the whole stream was. */
    method Take() returns (c: Captured)
      requires Valid()
      modifies this
      ensures CapturedFrom(stream, maxBytes, keep, c) && stream == old(stream)
      ensures keep == End ==> c.text == EndHandedOver(old(EndBuffer(text, truncated)), maxBytes)
    {
      var lines := newlines + if bytes > 0 && last != NEWLINE then 1 else 0;
      LineCountMeetsLines(stream);
      Settle();
      var retained := CountLines(text);
      c := Captured(text, Extent(lines, bytes, retained, keep == End));
    }
  }

  lemma EndTake(stream: Text, max: nat, text: Text)
    requires EndKept(stream, max, text, true)
    ensures EndText(stream, max, stream[FromCut(stream, max)..])
    ensures |text| <= max ==> EndText(stream, max, text)
  {
    if |text| <= max {
      SettledCut(stream, max, |stream| - |text|);
    }
  }

  lemma {:induction false} FindInSuffix(s: Text, front: nat, from: nat)
    requires front <= |s| && from <= |s| - front
    ensures front + Find(s[front..], from) == Find(s, front + from)
    decreases |s| - from
  {
    var t := s[front..];
    if from < |t| && t[from] != NEWLINE { FindInSuffix(s, front, from + 1); }
  }

  /** The cut made on the kept end of a stream is the cut that would be made on the whole stream. */
  lemma DropIsFromCut(stream: Text, text: Text, max: nat)
    requires max < |text| <= |stream| && text == stream[|stream| - |text|..]
    ensures var newline := Find(text, |text| - max);
      var drop := if newline == |text| then |text| - max else newline + 1;
      text[drop..] == stream[FromCut(stream, max)..]
  {
    FindInSuffix(stream, |stream| - |text|, |text| - max);
  }

  /** The cut leaves no more than the budget, and is the one the loop makes. */
  lemma CutWithin(text: Text, max: nat)
    ensures |text| > max ==> |text[FromCut(text, max)..]| <= max
    ensures |text| > max ==> var newline := Find(text, |text| - max);
      FromCut(text, max) == if newline == |text| then |text| - max else newline + 1
  {}

  lemma FromCutIsDropped(stream: Text, max: nat)
    requires max <= |stream| && |stream| * 4 > max * 5
    ensures Dropped(stream, max, FromCut(stream, max))
  {
    assert DroppedAt(stream, max, FromCut(stream, max), |stream|);
  }

  lemma AppendedSuffix(before: Text, text: Text, data: Text)
    requires |text| <= |before| && text == before[|before| - |text|..]
    ensures var s := before + data; text + data == s[|s| - |text + data|..]
  {}

  lemma AppendedStillDropped(before: Text, data: Text, max: nat, dropped: nat)
    requires Dropped(before, max, dropped)
    ensures Dropped(before + data, max, dropped)
  {
    var at :| DroppedAt(before, max, dropped, at);
    var s := before + data;
    assert forall k | 0 <= k < |before| :: s[k] == before[k];
    assert DroppedAt(s, max, dropped, at);
  }

  lemma UnboundedAppend(keep: Keep, before: Text, text: Text, truncated: bool, data: Text)
    requires Kept(keep, before, 0, text, truncated)
    ensures Kept(keep, before + data, 0, text + data, truncated)
  {}

  lemma HeadAppend(before: Text, max: nat, text: Text, truncated: bool, data: Text, kept: nat)
    requires HeadKept(before, max, text, truncated) && max > 0 && kept <= |data|
    requires kept == if |text| >= max then 0 else if |data| < max - |text| then |data| else max - |text|
    ensures HeadKept(before + data, max, text + data[..kept], truncated || kept < |data|)
  {}

  lemma DropLength(s: Text, d: nat)
    requires d <= |s|
    ensures |s[d..]| == |s| - d && s[d..] == s[|s| - |s[d..]|..]
  {}

  /** An append that overfills the buffer, then the drop. */
  lemma EndAppendDrops(before: Text, max: nat, text: Text, truncated: bool, data: Text, s: Text)
    requires EndKept(before, max, text, truncated) && max > 0 && s == before + data
    requires (|text| + |data|) * 4 > max * 5
    ensures max <= |s| && EndKept(s, max, s[FromCut(s, max)..], true)
  {
    FromCutIsDropped(s, max);
    hide Dropped, FromCut;
    DropLength(s, FromCut(s, max));
  }

  lemma EndAppendKeeps(before: Text, max: nat, text: Text, truncated: bool, data: Text, s: Text, t: Text)
    requires EndKept(before, max, text, truncated) && max > 0 && s == before + data && t == text + data
    requires |t| * 4 <= max * 5
    ensures EndKept(s, max, t, truncated)
  {
    AppendedSuffix(before, text, data);
    if truncated {
      AppendedStillDropped(before, data, max, |before| - |text|);
    }
    hide Dropped;
  }

  /** A front already dropped, once no more is over the budget, is where one cut would have fallen. */
  lemma SettledCut(stream: Text, max: nat, dropped: nat)
    requires 0 < max <= |stream| && |stream| - max <= dropped
    requires Dropped(stream, max, dropped)
    ensures dropped == FromCut(stream, max) || (ChunksMatter(stream, max) && dropped == |stream| - max)
  {
    var at :| DroppedAt(stream, max, dropped, at);
    if |stream| - max < dropped {
      FindIs(stream, |stream| - max, dropped - 1);
    }
  }

  // ---------------------------------------------------------------- what the hand-over means

  /** Wherever chunks cannot matter, two captures of one stream are the same capture. */
  lemma ChunksLeaveNoTrace(stream: Text, max: nat, keep: Keep, a: Captured, b: Captured)
    requires CapturedFrom(stream, max, keep, a) && CapturedFrom(stream, max, keep, b)
    requires keep == Head || !ChunksMatter(stream, max)
    ensures a == b
  {}

  /** What is kept is within the budget, or within a quarter more of it when nothing was dropped. */
  lemma WithinBudget(stream: Text, max: nat, keep: Keep, c: Captured)
    requires CapturedFrom(stream, max, keep, c) && max > 0
    ensures keep == Head || EndTruncated(stream, max) ==> |c.text| <= max
    ensures |c.text| * 4 <= max * 5
  {}

  lemma {:induction false} DropPartialLongest(s: Text, k: nat)
    requires Valid(s) && k <= |s|
    ensures Valid(DropPartial(s[..k]))
    ensures forall j | |DropPartial(s[..k])| < j <= k :: !Valid(s[..k][..j])
  {
    PartialMeetsValid(s, k);
    hide EndsPartial, Valid;
    if EndsPartial(s[..k]) {
      TakeTake(s, k - 1, k);
      DropPartialLongest(s, k - 1);
      forall j | |DropPartial(s[..k])| < j <= k ensures !Valid(s[..k][..j]) {
        TakeTake(s, j, k);
        if j < k { TakeTake(s, j, k - 1); } else { TakeTake(s, k, k); }
      }
    }
  }

  lemma {:induction false} LastNewlineEnds(s: Text)
    ensures var n := ThroughLastNewline(s);
      && (Newlines(s) > 0 ==> n > 0 && s[n - 1] == NEWLINE)
      && (forall k | n <= k < |s| :: s[k] != NEWLINE)
  {
    if Newlines(s) > 0 && s[|s| - 1] != NEWLINE {
      LastNewlineEnds(s[..|s| - 1]);
    }
  }

  /**
    A truncated head capture of valid text is a valid beginning of it: `n` is the longest valid
    beginning within the budget, and the capture ends at the last newline of those `n` bytes, or is
    all of them when they hold none.
  */
  lemma HeadIsValidPrefix(stream: Text, max: nat) returns (n: nat)
    requires Valid(stream) && 0 < max < |stream|
    ensures n <= max && Valid(stream[..n]) && forall j | n < j <= max :: !Valid(stream[..max][..j])
    ensures var t := HeadText(stream, max);
      && |t| <= n && t == stream[..|t|] && Valid(t)
      && (forall k | |t| <= k < n :: stream[k] != NEWLINE)
      && (if OneLine(stream[..n]) then |t| == n else t != [] && t[|t| - 1] == NEWLINE)
  {
    DropPartialLongest(stream, max);
    n := |DropPartial(stream[..max])|;
    assert DropPartial(stream[..max]) == stream[..n];
    HeadTextIs(stream, max, n);
    var t := HeadText(stream, max);
    if !OneLine(stream[..n]) {
      LeadClasses(NEWLINE);
      CutAfterAscii(stream, |t|);
    }
  }

  lemma HeadTextIs(stream: Text, max: nat, n: nat)
    requires 0 < max < |stream| && n <= max && DropPartial(stream[..max]) == stream[..n]
    ensures var t := HeadText(stream, max);
      && |t| <= n && t == stream[..|t|]
      && (forall k | |t| <= k < n :: stream[k] != NEWLINE)
      && (if OneLine(stream[..n]) then |t| == n else t != [] && t[|t| - 1] == NEWLINE)
  {
    hide DropPartial;
    var whole := stream[..n];
    LastNewlineEnds(whole);
    NoNewlines(whole);
    var length := ThroughLastNewline(whole);
    TakeTake(stream, length, n);
  }

  lemma {:induction false} SuffixValid(s: Text, d: nat)
    requires Valid(s) && d <= |s|
    ensures Valid(s[d..]) <==> d == |s| || !IsContinuationByte(s[d])
  {
    if d == 0 {
      assert s[0..] == s;
      if s != [] { ValidStartsNoTail(s); }
    } else {
      var n := CharLength(s);
      if d < n {
        TailsAreContinuations(s[..n], d);
        assert s[..n][d] == s[d];
        if Valid(s[d..]) { ValidStartsNoTail(s[d..]); }
      } else {
        assert s[n..][d - n..] == s[d..];
        SuffixValid(s[n..], d - n);
      }
    }
  }

  /** The end-kept cut falls inside a character: nothing after it ends a line, and it is not a first byte. */
  predicate CutsCharacter(stream: Text, max: nat) {
    && EndTruncated(stream, max)
    && Find(stream, |stream| - max) == |stream|
    && IsContinuationByte(stream[|stream| - max])
  }

  lemma FromCutValid(stream: Text, max: nat)
    requires Valid(stream) && EndTruncated(stream, max)
    ensures Valid(stream[FromCut(stream, max)..]) <==> !CutsCharacter(stream, max)
  {
    var i := Find(stream, |stream| - max);
    if i < |stream| {
      CutAfterAscii(stream, i + 1);
    } else {
      SuffixValid(stream, |stream| - max);
    }
  }

  lemma BetweenLinesValid(stream: Text, max: nat)
    requires Valid(stream) && EndTruncated(stream, max) && CutBetweenLines(stream, max)
    ensures Valid(stream[|stream| - max..]) && !CutsCharacter(stream, max)
  {
    hide Utf8.Valid, IsContinuationByte, Find;
    var cut := |stream| - max;
    CutAfterAscii(stream, cut);
    SuffixValid(stream, cut);
  }

  /** An end capture of valid text is valid exactly when its cut does not fall inside a character. */
  lemma EndValidIff(stream: Text, max: nat, c: Captured)
    requires Valid(stream) && CapturedFrom(stream, max, End, c)
    ensures Valid(c.text) <==> !CutsCharacter(stream, max)
  {
    if EndTruncated(stream, max) {
      FromCutValid(stream, max);
      if CutBetweenLines(stream, max) {
        BetweenLinesValid(stream, max);
      }
    }
  }

  /** A two-byte character read into a one-byte end budget: half of it is handed over. */
  lemma EndCutsACharacter(c: Captured)
    requires CapturedFrom([0xC3, 0xA9], 1, End, c)
    ensures Valid([0xC3, 0xA9]) && !Valid(c.text) && c.text == [0xA9]
  {
    CharIsValid([0xC3, 0xA9]);
    LeadClasses(0xA9);
    assert Find([0xC3, 0xA9], 1) == 2;
    EndValidIff([0xC3, 0xA9], 1, c);
  }

  /** What is dropped from the front: nothing but for an end-kept capture. */
  function DroppedPrefix(stream: Text, c: Captured): Text
    requires |c.text| <= |stream|
  {
    if c.extent.fromEnd then stream[..|stream| - |c.text|] else []
  }

  lemma SuffixPart(stream: Text, d: nat, text: Text)
    requires d <= |stream| && text == stream[d..]
    ensures d == |stream| - |text| && stream == stream[..d] + text
  {}

  lemma CapturedIsPart(stream: Text, max: nat, keep: Keep, c: Captured)
    requires CapturedFrom(stream, max, keep, c)
    ensures |c.text| <= |stream|
    ensures keep == Head ==> stream == c.text + stream[|c.text|..]
    ensures keep == End ==> stream == stream[..|stream| - |c.text|] + c.text
    ensures keep == End ==> c.text == stream[|stream| - |c.text|..]
  {
    hide HeadText, FromCut;
    if keep == Head {
      Split(stream, |c.text|);
    } else if c.text == stream {
      SuffixPart(stream, 0, c.text);
    } else if c.text == stream[FromCut(stream, max)..] {
      SuffixPart(stream, FromCut(stream, max), c.text);
    } else {
      SuffixPart(stream, |stream| - max, c.text);
    }
  }

  /** `skipped` is the number of lines dropped from the front: the newlines in what was dropped. */
  lemma SkippedCountsDropped(stream: Text, max: nat, keep: Keep, c: Captured)
    requires CapturedFrom(stream, max, keep, c)
    ensures |c.text| <= |stream| && c.extent.Skipped() == Newlines(DroppedPrefix(stream, c))
  {
    CapturedIsPart(stream, max, keep, c);
    LineCountMeetsLines(stream);
    LineCountMeetsLines(c.text);
    if keep == End {
      var dropped := DroppedPrefix(stream, c);
      NewlinesAppend(dropped, c.text);
      if c.text == [] && dropped != [] {
        assert stream[|stream| - 1] == NEWLINE by { EmptyEndsLine(stream, max, c); }
      }
    }
  }

  lemma EmptyEndsLine(stream: Text, max: nat, c: Captured)
    requires CapturedFrom(stream, max, End, c) && c.text == [] && stream != []
    ensures stream[|stream| - 1] == NEWLINE
  {}

  /** A whole buffer that is `max` bytes of the last line of the stream. */
  ghost predicate LoneEndFragment(stream: Text, max: nat, text: Text) {
    && Lines(text) == [text] && 0 < max == |text| < |stream|
    && exists head :: Lines(stream)[|Lines(stream)| - 1] == head + text
  }

  /** A whole buffer that is a beginning of the first line of the stream. */
  ghost predicate LoneHeadFragment(stream: Text, max: nat, text: Text) {
    Lines(text) == [text] && 0 < max < |stream| && text <= Lines(stream)[0]
  }

  /** The only way a kept line is not a line of the stream: it is the whole buffer, and the budget had no boundary. */
  ghost predicate Fragment(stream: Text, max: nat, keep: Keep, c: Captured) {
    if keep == Head then LoneHeadFragment(stream, max, c.text) else LoneEndFragment(stream, max, c.text)
  }

  lemma HeadLines(stream: Text, max: nat, c: Captured)
    requires CapturedFrom(stream, max, Head, c)
    ensures |Lines(c.text)| <= |Lines(stream)|
    ensures || Fragment(stream, max, Head, c)
            || forall k | 0 <= k < |Lines(c.text)| :: Lines(c.text)[k] == Lines(stream)[k]
  {
    var d := |c.text|;
    assert c.text == stream[..d];
    if d < |stream| {
      HeadTextShape(stream, max);
      hide HeadText;
      if EndsLine(stream[..d]) {
        CutLines(stream, d);
      } else {
        HeadFragment(stream, max, c.text);
      }
    }
  }

  /** The lines of `stream` from `d` on, when `d` is where an end capture begins. */
  lemma EndLines(stream: Text, max: nat, d: nat)
    requires d <= |stream| && EndText(stream, max, stream[d..])
    ensures Newlines(stream[..d]) + |Lines(stream[d..])| <= |Lines(stream)|
    ensures || LoneEndFragment(stream, max, stream[d..])
            || forall k | 0 <= k < |Lines(stream[d..])| :: Lines(stream[d..])[k] == Lines(stream)[Newlines(stream[..d]) + k]
  {
    if EndsLine(stream[..d]) {
      CutLines(stream, d);
    } else {
      EndTextShape(stream, max, d);
      EndFragment(stream, d);
    }
  }

  lemma EndKeptLines(stream: Text, max: nat, c: Captured, d: nat)
    requires d <= |stream| && c.text == stream[d..] && EndText(stream, max, c.text)
    requires c.extent.Skipped() == Newlines(stream[..d])
    ensures c.extent.Skipped() + |Lines(c.text)| <= |Lines(stream)|
    ensures || LoneEndFragment(stream, max, c.text)
            || forall k | 0 <= k < |Lines(c.text)| :: Lines(c.text)[k] == Lines(stream)[c.extent.Skipped() + k]
  {
    hide Lines, Newlines, LoneEndFragment, EndText;
    EndLines(stream, max, d);
  }

  /** Each kept line is the line of the stream it is numbered as, unless it is a lone fragment of that line. */
  lemma KeptLinesAreStreamLines(stream: Text, max: nat, keep: Keep, c: Captured)
    requires CapturedFrom(stream, max, keep, c)
    ensures c.extent.Skipped() + |Lines(c.text)| <= |Lines(stream)|
    ensures || Fragment(stream, max, keep, c)
            || forall k | 0 <= k < |Lines(c.text)| :: Lines(c.text)[k] == Lines(stream)[c.extent.Skipped() + k]
  {
    hide Lines, Newlines, LoneEndFragment, LoneHeadFragment, HeadText, EndText;
    CapturedIsPart(stream, max, keep, c);
    SkippedCountsDropped(stream, max, keep, c);
    if keep == Head {
      HeadLines(stream, max, c);
      assert c.extent.Skipped() == 0;
    } else {
      EndKeptLines(stream, max, c, |stream| - |c.text|);
    }
  }

  /** A head capture is whole lines, or one line. */
  lemma HeadTextShape(stream: Text, max: nat)
    requires 0 < max < |stream|
    ensures var t := HeadText(stream, max);
      t <= stream && |t| <= max && (EndsLine(t) || OneLine(t))
  {
    var whole := DropPartial(stream[..max]);
    LastNewlineEnds(whole);
    NoNewlines(whole);
  }

  lemma HeadFragment(stream: Text, max: nat, text: Text)
    requires text < stream && OneLine(text) && text != []
    ensures Lines(text) == [text] && Lines(stream) != [] && text <= Lines(stream)[0]
  {
    LinesOfOneLine(text);
    assert stream == text + stream[|text|..];
    FirstLineBegins(text, stream[|text|..]);
  }

  /** An end capture that begins inside a line is `max` bytes of that line. */
  lemma EndTextShape(stream: Text, max: nat, d: nat)
    requires d <= |stream| && EndText(stream, max, stream[d..]) && !EndsLine(stream[..d])
    ensures max > 0 && d == |stream| - max && OneLine(stream[d..])
  {
    assert |stream[d..]| == |stream| - d;
    assert d == FromCut(stream, max) || d == |stream| - max;
    assert d == |stream| - max && Find(stream, d) == |stream|;
  }

  lemma EndFragment(stream: Text, d: nat)
    requires d < |stream| && OneLine(stream[d..])
    ensures |Lines(stream)| == Newlines(stream[..d]) + 1 && Lines(stream[d..]) == [stream[d..]]
    ensures exists head :: Lines(stream)[|Lines(stream)| - 1] == head + stream[d..]
  {
    assert stream == stream[..d] + stream[d..];
    LinesOfOneLine(stream[d..]);
    var head := LastLineContinues(stream[..d], stream[d..]);
  }
}
