/**
  Which streams an end-kept capture hands over differently as the chunks they came in differ (src/exec/run.cpp).
*/
module CaptureChunks {
  import opened Chunks
  import opened Sequences
  import opened Utf8
  import opened LineSplit
  import opened OutputCapture

  /** The buffer after the chunks, each appended in turn. */
  function EndFed(b: EndBuffer, chunks: seq<Text>, max: nat): EndBuffer
    decreases |chunks|
  {
    if chunks == [] then b else EndFed(EndAppended(b, chunks[0], max), chunks[1..], max)
  }

  const NOTHING := EndBuffer([], false)

  /** What a capture that keeps the end hands over of these chunks. */
  function EndOf(chunks: seq<Text>, max: nat): Text { EndHandedOver(EndFed(NOTHING, chunks, max), max) }

  // ---------------------------------------------------------------- every chunking

  lemma BudgetOfSuffix(stream: Text, text: Text, max: nat)
    requires max < |text| <= |stream| && text == stream[|stream| - |text|..]
    ensures ToBudget(text, max) == stream[FromCut(stream, max)..]
  {
    CutWithin(text, max);
    DropIsFromCut(stream, text, max);
    hide FromCut, Find;
  }

  lemma SuffixOf(before: Text, b: EndBuffer, max: nat)
    requires EndKept(before, max, b.text, b.truncated)
    ensures |b.text| <= |before| && b.text == before[|before| - |b.text|..]
  {
    hide Dropped;
  }

  lemma AppendedKept(before: Text, b: EndBuffer, data: Text, max: nat)
    requires EndKept(before, max, b.text, b.truncated) && max > 0
    ensures var c := EndAppended(b, data, max); EndKept(before + data, max, c.text, c.truncated)
  {
    hide EndKept, FromCut, ToBudget;
    var s := before + data;
    if data == [] {
      assert s == before;
    } else {
      SuffixOf(before, b, max);
      AppendedSuffix(before, b.text, data);
      if EndTruncated(b.text + data, max) {
        BudgetOfSuffix(s, b.text + data, max);
        EndAppendDrops(before, max, b.text, b.truncated, data, s);
      } else {
        EndAppendKeeps(before, max, b.text, b.truncated, data, s, b.text + data);
      }
    }
  }

  lemma {:induction false} FedKept(before: Text, b: EndBuffer, chunks: seq<Text>, max: nat)
    requires EndKept(before, max, b.text, b.truncated) && max > 0
    ensures var c := EndFed(b, chunks, max); EndKept(before + Joined(chunks), max, c.text, c.truncated)
    decreases |chunks|
  {
    hide EndKept, EndAppended;
    if chunks == [] {
      assert before + [] == before;
    } else {
      AppendedKept(before, b, chunks[0], max);
      FedKept(before + chunks[0], EndAppended(b, chunks[0], max), chunks[1..], max);
      SeqAssoc(before, chunks[0], Joined(chunks[1..]));
    }
  }

  lemma {:induction false} FedUnbounded(b: EndBuffer, chunks: seq<Text>)
    requires !b.truncated
    ensures EndFed(b, chunks, 0) == EndBuffer(b.text + Joined(chunks), false)
    decreases |chunks|
  {
    if chunks == [] {
      assert b.text + [] == b.text;
    } else {
      FedUnbounded(EndAppended(b, chunks[0], 0), chunks[1..]);
      SeqAssoc(b.text, chunks[0], Joined(chunks[1..]));
      if chunks[0] == [] { assert b.text + [] == b.text; }
    }
  }

  lemma HandedOverIsEndText(stream: Text, b: EndBuffer, max: nat)
    requires EndKept(stream, max, b.text, b.truncated)
    ensures EndText(stream, max, EndHandedOver(b, max))
  {
    SuffixOf(stream, b, max);
    if b.truncated {
      EndTake(stream, max, b.text);
      if |b.text| > max { BudgetOfSuffix(stream, b.text, max); } else { WithinToBudget(b.text, max); }
    } else {
      NotTruncated(stream, b, max);
    }
    hide EndKept, EndText, FromCut, ToBudget;
  }

  lemma WithinToBudget(text: Text, max: nat)
    requires |text| <= max
    ensures ToBudget(text, max) == text
  {}

  lemma NotTruncated(stream: Text, b: EndBuffer, max: nat)
    requires EndKept(stream, max, b.text, b.truncated) && !b.truncated
    ensures EndText(stream, max, b.text)
  {
    hide Dropped, FromCut;
  }

  /** However a stream is chunked, what is handed over is one of the texts allowed. */
  lemma EveryChunkingIsEndText(chunks: seq<Text>, max: nat)
    ensures EndText(Joined(chunks), max, EndOf(chunks, max))
  {
    assert [] + Joined(chunks) == Joined(chunks);
    if max == 0 {
      FedUnbounded(NOTHING, chunks);
    } else {
      FedKept([], NOTHING, chunks, max);
      HandedOverIsEndText(Joined(chunks), EndFed(NOTHING, chunks, max), max);
    }
  }

  // ---------------------------------------------------------------- both texts are handed over

  /** Fed whole, a stream is cut once. */
  lemma WholeIsCutOnce(stream: Text, max: nat)
    ensures EndOf([stream], max) == if EndTruncated(stream, max) then stream[FromCut(stream, max)..] else stream
  {
    assert [stream][1..] == [];
    assert [] + stream == stream;
    assert EndFed(NOTHING, [stream], max) == EndAppended(NOTHING, stream, max);
    if EndTruncated(stream, max) { CutWithin(stream, max); }
  }

  /** With its last byte apart, the drop before it makes the cut between two lines, and nothing more is dropped. */
  lemma LastByteApart(stream: Text, max: nat)
    requires ChunksMatter(stream, max)
    ensures var n := |stream| - 1;
      Joined([stream[..n], stream[n..]]) == stream && EndOf([stream[..n], stream[n..]], max) == stream[|stream| - max..]
  {
    var n := |stream| - 1;
    var (front, last) := (stream[..n], stream[n..]);
    var cut := |stream| - max;
    JoinedTwo(front, last);
    Split(stream, n);
    FrontDropped(stream, front, max);
    FedTwo(NOTHING, front, last, max);
    hide EndAppended, EndFed, EndHandedOver;
    assert front[cut..] + last == stream[cut..];
    LastKept(front[cut..], last, max);
  }

  lemma FedTwo(b: EndBuffer, x: Text, y: Text, max: nat)
    ensures EndFed(b, [x, y], max) == EndAppended(EndAppended(b, x, max), y, max)
  {
    hide EndAppended;
    var c := EndAppended(b, x, max);
    assert [x, y][1..] == [y] && [y][1..] == [];
    assert EndFed(c, [y], max) == EndFed(EndAppended(c, y, max), [], max);
  }

  lemma FrontDropped(stream: Text, front: Text, max: nat)
    requires ChunksMatter(stream, max) && front == stream[..|stream| - 1]
    ensures EndAppended(NOTHING, front, max) == EndBuffer(front[|stream| - max..], true)
  {
    CutOfFront(stream, front, max);
    assert [] + front == front;
    hide FromCut, Find;
  }

  lemma LastKept(text: Text, last: Text, max: nat)
    requires last != [] && |text + last| == max
    ensures EndHandedOver(EndAppended(EndBuffer(text, true), last, max), max) == text + last
  {
    hide FromCut;
  }

  lemma CutOfFront(stream: Text, front: Text, max: nat)
    requires stream != [] && front == stream[..|stream| - 1] && 0 < max < |front| && CutBetweenLines(stream, max)
    ensures FromCut(front, max) == |stream| - max
  {
    assert front[|front| - max] == NEWLINE;
    FindIs(front, |front| - max, |front| - max);
  }

  /** The texts an end-kept capture may hand over are just those that some chunking makes it hand over. */
  lemma EndTextIsSomeChunking(stream: Text, max: nat, text: Text)
    ensures EndText(stream, max, text) <==> exists chunks :: Joined(chunks) == stream && EndOf(chunks, max) == text
  {
    hide EndOf;
    if EndText(stream, max, text) {
      JoinedOne(stream);
      WholeIsCutOnce(stream, max);
      if text != EndOf([stream], max) {
        LastByteApart(stream, max);
        var n := |stream| - 1;
        assert Joined([stream[..n], stream[n..]]) == stream && EndOf([stream[..n], stream[n..]], max) == text;
      }
    }
    if chunks :| Joined(chunks) == stream && EndOf(chunks, max) == text { EveryChunkingIsEndText(chunks, max); }
  }

  lemma TwoTexts(stream: Text, max: nat)
    requires ChunksMatter(stream, max)
    ensures EndTruncated(stream, max) && stream[FromCut(stream, max)..] != stream[|stream| - max..]
  {
    assert |stream[FromCut(stream, max)..]| < |stream[|stream| - max..]|;
  }

  /**
    Two chunkings of a stream are handed over differently exactly when its cut falls between two lines, a
    later line ends too, and the stream was over-full before its last byte.
  */
  lemma ChunksMatterIff(stream: Text, max: nat)
    ensures ChunksMatter(stream, max) <==>
      exists a, b :: Joined(a) == stream && Joined(b) == stream && EndOf(a, max) != EndOf(b, max)
  {
    hide EndOf;
    if ChunksMatter(stream, max) {
      TwoTexts(stream, max);
      JoinedOne(stream);
      WholeIsCutOnce(stream, max);
      LastByteApart(stream, max);
      var n := |stream| - 1;
      assert Joined([stream]) == stream && Joined([stream[..n], stream[n..]]) == stream
        && EndOf([stream], max) != EndOf([stream[..n], stream[n..]], max);
    }
    if a, b :| Joined(a) == stream && Joined(b) == stream && EndOf(a, max) != EndOf(b, max) {
      EveryChunkingIsEndText(a, max);
      EveryChunkingIsEndText(b, max);
    }
  }

  /** `ab`, `c` and `de` on lines of their own under a budget of four: whole, `de` is kept; with the `e` apart, `c` as well. */
  lemma ChunksMatterHere()
    ensures var stream: Text := [0x61, 0x62, 0x0A, 0x63, 0x0A, 0x64, 0x65];
      && EndOf([stream], 4) == [0x64, 0x65]
      && EndOf([stream[..6], stream[6..]], 4) == [0x63, 0x0A, 0x64, 0x65]
  {
    var stream: Text := [0x61, 0x62, 0x0A, 0x63, 0x0A, 0x64, 0x65];
    assert stream[2] == NEWLINE && stream[3] == 0x63 && stream[4] == NEWLINE;
    FindIs(stream, 3, 4);
    WholeIsCutOnce(stream, 4);
    LastByteApart(stream, 4);
  }

  /** Cut between two lines, but over-full only at its last byte: every chunking keeps the last line alone. */
  lemma ChunksDoNotMatterHere(chunks: seq<Text>)
    requires Joined(chunks) == [0x61, 0x0A, 0x62, 0x0A, 0x63, 0x64]
    ensures CutBetweenLines(Joined(chunks), 4) && EndOf(chunks, 4) == [0x63, 0x64]
  {
    var stream := Joined(chunks);
    assert stream[1] == NEWLINE && stream[2] == 0x62 && stream[3] == NEWLINE;
    FindIs(stream, 2, 3);
    EveryChunkingIsEndText(chunks, 4);
  }
}
