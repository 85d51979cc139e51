/**
  Pages of a stored output (src/paging/paging.cpp): the line index, cursors as text, reading a page,
  and following the cursors a page carries.
*/
module Paging {
  import opened Sequences
  import opened Wrappers
  import opened Utf8
  import opened LineSplit
  import opened OutputCapture
  import opened Cursors

  datatype Page = Page(text: Text, first: nat, last: nat, earlier: Option<Cursor>, later: Option<Cursor>)

  const EMPTY_PAGE := Page([], 0, 0, None, None)

  /** One command's output, indexed by line and immutable once stored. */
  datatype Stored = Stored(id: string, source: string, text: Text, extent: Extent, rank: nat, starts: seq<nat>) {
    predicate Indexed() { IsIndex(text, starts) }
  }

  // ---------------------------------------------------------------- the line index

  /** Each start but the first is just past a newline, and the bytes between two starts hold no other. */
  predicate IsIndex(text: Text, starts: seq<nat>) {
    && (text == [] ==> starts == [])
    && (text != [] ==>
      && starts != [] && starts[0] == 0 && starts[|starts| - 1] < |text|
      && (forall k | 0 <= k < |starts| - 1 :: LineBetween(text, starts[k], starts[k + 1]))
      && LineBetween(text, starts[|starts| - 1], |text|))
  }

  /** `text[from..to]` is one line, with its newline unless it is the end of the text. */
  predicate LineBetween(text: Text, from: nat, to: nat) {
    && from < to <= |text|
    && OneLine(text[from..to - 1])
    && (to < |text| ==> text[to - 1] == NEWLINE)
  }

  method IndexLines(text: Text) returns (starts: seq<nat>)
    ensures IsIndex(text, starts)
  {
    starts := [0];
    var i := 0;
    while i + 1 < |text|
      invariant |text| > 0 ==> i < |text|
      invariant starts != [] && starts[0] == 0
      invariant starts[|starts| - 1] <= i
      invariant forall k | 0 <= k < |starts| - 1 :: LineBetween(text, starts[k], starts[k + 1])
      invariant |text| > 0 ==> OneLine(text[starts[|starts| - 1]..i])
    {
      var last := starts[|starts| - 1];
      assert text[last..i + 1] == text[last..i] + [text[i]];
      if text[i] == NEWLINE {
        assert LineBetween(text, last, i + 1);
        starts := starts + [i + 1];
        assert text[i + 1..i + 1] == [];
      }
      i := i + 1;
    }
    if |text| == 0 { starts := []; }
  }

  /** An index names the lines there are, in order. */
  lemma {:induction false} IndexNamesLines(text: Text, starts: seq<nat>, k: nat)
    requires IsIndex(text, starts) && k < |starts|
    ensures starts[k] < |text| && EndsLine(text[..starts[k]]) && Newlines(text[..starts[k]]) == k
    decreases k
  {
    if k > 0 {
      IndexNamesLines(text, starts, k - 1);
      var (from, to) := (starts[k - 1], starts[k]);
      assert LineBetween(text, from, to);
      TakeThenSlice(text, from, to);
      SliceSnoc(text, from, to);
      assert text[from..to - 1] + [NEWLINE] + [] == text[from..to - 1] + [NEWLINE];
      NewlinesUnfold(text[from..to - 1], []);
      NewlinesAppend(text[..from], text[from..to - 1] + [NEWLINE]);
      if k < |starts| - 1 { assert LineBetween(text, starts[k], starts[k + 1]); }
    }
  }

  /** The end of line `k`: the next start, or the end of the text. */
  function LineEnd(b: Stored, k: nat): nat
    requires k < |b.starts|
  {
    if k + 1 < |b.starts| then b.starts[k + 1] else |b.text|
  }

  lemma LineOfIndex(b: Stored, k: nat)
    requires b.Indexed() && k < |b.starts|
    ensures |b.starts| == |Lines(b.text)|
    ensures LineBetween(b.text, b.starts[k], LineEnd(b, k))
    ensures var raw := b.text[b.starts[k]..LineEnd(b, k)];
      Lines(b.text)[k] == if raw[|raw| - 1] == NEWLINE then raw[..|raw| - 1] else raw
  {
    hide Lines, Newlines;
    LinesPerIndex(b);
    IndexNamesLines(b.text, b.starts, k);
    var (from, to) := (b.starts[k], LineEnd(b, k));
    CutLines(b.text, from);
    FirstLineOfRest(b.text, from, to);
    assert Lines(b.text)[k] == Lines(b.text[from..])[0];
  }

  /** The first line of what is left after `from`. */
  lemma FirstLineOfRest(text: Text, from: nat, to: nat)
    requires LineBetween(text, from, to)
    ensures Lines(text[from..]) != []
    ensures var raw := text[from..to];
      Lines(text[from..])[0] == if raw[|raw| - 1] == NEWLINE then raw[..|raw| - 1] else raw
  {
    var line := text[from..to - 1];
    assert text[from..to] == line + [text[to - 1]];
    if text[to - 1] == NEWLINE {
      assert text[from..] == line + [NEWLINE] + text[to..];
      LinesUnfold(line, text[to..]);
    } else {
      assert text[from..] == text[from..to];
      assert OneLine(text[from..]);
      LinesOfOneLine(text[from..]);
    }
  }

  lemma OneLineLeft(text: Text, from: nat)
    requires LineBetween(text, from, |text|)
    ensures |Lines(text[from..])| == 1
  {
    var line := text[from..|text| - 1];
    assert text[from..] == line + [text[|text| - 1]];
    if text[|text| - 1] == NEWLINE {
      assert line + [NEWLINE] + [] == text[from..];
      LinesUnfold(line, []);
      assert Lines([]) == [];
    } else {
      assert OneLine(text[from..]);
      LinesOfOneLine(text[from..]);
    }
  }

  lemma LinesPerIndex(b: Stored)
    requires b.Indexed()
    ensures |b.starts| == |Lines(b.text)|
  {
    if b.text != [] {
      var last := |b.starts| - 1;
      IndexNamesLines(b.text, b.starts, last);
      hide Lines, Newlines;
      CutLines(b.text, b.starts[last]);
      OneLineLeft(b.text, b.starts[last]);
    }
  }

  method Line(b: Stored, index: nat) returns (line: Text)
    requires b.Indexed() && index < |b.starts|
    ensures index < |Lines(b.text)| && line == Lines(b.text)[index]
  {
    LineOfIndex(b, index);
    var begin := b.starts[index];
    var end := if index + 1 < |b.starts| then b.starts[index + 1] else |b.text|;
    line := b.text[begin..end];
    if |line| > 0 && line[|line| - 1] == NEWLINE { line := line[..|line| - 1]; }
  }

  method NewBuffer(id: string, source: string, c: Captured, rank: nat) returns (b: Stored)
    ensures b.Indexed() && b.id == id && b.source == source && b.text == c.text && b.extent == c.extent && b.rank == rank
  {
    var starts := IndexLines(c.text);
    b := Stored(id, source, c.text, c.extent, rank, starts);
  }

  // ---------------------------------------------------------------- a page

  /** The line a read starts at. */
  function Start(b: Stored, anchor: Anchor, lines: nat): nat {
    match anchor
    case At(c) => c.line
    case AtTail => if |Lines(b.text)| > lines then |Lines(b.text)| - lines else 0
    case AtHead => 0
  }

  /** Lines `from` up to `to` of the buffer, numbered against the command's whole output. */
  function PageOfLines(b: Stored, from: nat, to: nat, lines: nat): Page
    requires from < to <= |Lines(b.text)|
  {
    Page(Terminated(Lines(b.text)[from..to]), from + 1 + b.extent.Skipped(), to + b.extent.Skipped(),
         if from > 0 then Some(Cursor(b.id, if from > lines then from - lines else 0)) else None,
         if to < |Lines(b.text)| then Some(Cursor(b.id, to)) else None)
  }

  function PageAt(b: Stored, anchor: Anchor, lines: nat): Page {
    var (retained, start) := (|Lines(b.text)|, Start(b, anchor, lines));
    if lines == 0 || start >= retained then EMPTY_PAGE
    else PageOfLines(b, start, if start + lines < retained then start + lines else retained, lines)
  }

  lemma TerminatedSnoc(lines: seq<Text>, line: Text)
    ensures Terminated(lines + [line]) == Terminated(lines) + line + [NEWLINE]
  {
    TerminatedAppend(lines, [line]);
    assert [line] + [] == [line];
    TerminatedCons(line, []);
    assert Terminated([]) == [];
    SeqAssoc(Terminated(lines), line, [NEWLINE]);
    assert line + [NEWLINE] + [] == line + [NEWLINE];
  }

  /** The lines of a page, each ended by a newline whether or not the output ended the last one. */
  method PageText(b: Stored, start: nat, end: nat) returns (text: Text)
    requires b.Indexed() && start <= end <= |Lines(b.text)|
    ensures text == Terminated(Lines(b.text)[start..end])
  {
    hide Lines, Terminated;
    LinesPerIndex(b);
    text := [];
    var i := start;
    TerminatedNone(Lines(b.text)[start..start]);
    while i < end
      invariant start <= i <= end
      invariant text == Terminated(Lines(b.text)[start..i])
    {
      var line := Line(b, i);
      assert Lines(b.text)[start..i + 1] == Lines(b.text)[start..i] + [line];
      TerminatedSnoc(Lines(b.text)[start..i], line);
      text := text + line + [NEWLINE];
      i := i + 1;
    }
  }

  method Read(b: Stored, anchor: Anchor, lines: nat) returns (page: Page)
    requires b.Indexed()
    ensures page == PageAt(b, anchor, lines)
  {
    hide Lines, Terminated;
    LinesPerIndex(b);
    var retained := |b.starts|;
    if retained == 0 || lines == 0 { return EMPTY_PAGE; }
    var start := 0;
    if anchor.At? {
      start := anchor.cursor.line;
    } else if anchor == AtTail && retained > lines {
      start := retained - lines;
    }
    if start >= retained { return EMPTY_PAGE; }
    var end := if start + lines < retained then start + lines else retained;
    var skipped := b.extent.Skipped();
    var text := PageText(b, start, end);
    page := Page(text, start + 1 + skipped, end + skipped,
                 if start > 0 then Some(Cursor(b.id, if start > lines then start - lines else 0)) else None,
                 if end < retained then Some(Cursor(b.id, end)) else None);
  }

  lemma TerminatedNone(lines: seq<Text>)
    requires lines == []
    ensures Terminated(lines) == []
  {}
}
