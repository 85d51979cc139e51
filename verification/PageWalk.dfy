/**
  What a reader of pages gets: following the cursors a page carries reaches every line, and a page of
  a bounded capture numbers its lines as the command printed them.
*/
module PageWalk {
  import opened Sequences
  import opened Wrappers
  import opened Utf8
  import opened LineSplit
  import opened OutputCapture
  import opened Cursors
  import opened Paging

  /** Where a reader goes who prints a cursor and has it read back; nowhere when there is none. */
  function Follow(c: Option<Cursor>): (next: Option<Anchor>)
    ensures next.Some? ==> c.Some? && next.value == At(c.value)
    ensures c.Some? && c.value.buffer != "" && c.value.line < LINE_LIMIT ==> next.Some?
  {
    match c
    case None => None
    case Some(cursor) =>
      ParsePrinted(cursor);
      ParseAnchor(Print(cursor))
  }

  // ---------------------------------------------------------------- forwards

  /** The pages read by following each `later` cursor. */
  ghost function Forward(b: Stored, anchor: Anchor, lines: nat): seq<Page>
    decreases |Lines(b.text)| - Start(b, anchor, lines)
  {
    var page := PageAt(b, anchor, lines);
    match Follow(page.later)
    case None => [page]
    case Some(next) => [page] + Forward(b, next, lines)
  }

  function Texts(pages: seq<Page>): Text {
    if pages == [] then [] else pages[0].text + Texts(pages[1..])
  }

  /** The pages are consecutive, and number the lines from `from` to `to` once each. */
  predicate Tiles(pages: seq<Page>, from: nat, to: nat) {
    && pages != []
    && pages[0].first == from <= pages[0].last
    && if |pages| == 1 then pages[0].last == to else Tiles(pages[1..], pages[0].last + 1, to)
  }

  /** A page and the walk from its end are the walk from its start. */
  lemma TextsJoin(all: seq<Text>, from: nat, to: nat, page: Page, rest: seq<Page>)
    requires from <= to <= |all| && page.text == Terminated(all[from..to]) && Texts(rest) == Terminated(all[to..])
    ensures Texts([page] + rest) == Terminated(all[from..])
  {
    assert ([page] + rest)[1..] == rest;
    assert all[from..] == all[from..to] + all[to..];
    TerminatedAppend(all[from..to], all[to..]);
  }

  lemma TilesJoin(page: Page, rest: seq<Page>, to: nat)
    requires page.first <= page.last && Tiles(rest, page.last + 1, to)
    ensures Tiles([page] + rest, page.first, to)
  {
    assert ([page] + rest)[1..] == rest;
  }

  lemma {:induction false} ForwardReadsOn(b: Stored, anchor: Anchor, lines: nat)
    requires lines > 0 && b.id != "" && |Lines(b.text)| <= LINE_LIMIT
    requires Start(b, anchor, lines) < |Lines(b.text)|
    ensures Texts(Forward(b, anchor, lines)) == Terminated(Lines(b.text)[Start(b, anchor, lines)..])
    ensures Tiles(Forward(b, anchor, lines), Start(b, anchor, lines) + 1 + b.extent.Skipped(),
                  |Lines(b.text)| + b.extent.Skipped())
    decreases |Lines(b.text)| - Start(b, anchor, lines)
  {
    hide Lines, Terminated, Follow, Texts, Tiles;
    var (all, from) := (Lines(b.text), Start(b, anchor, lines));
    var page := PageAt(b, anchor, lines);
    if from + lines < |all| {
      var next := At(Cursor(b.id, from + lines));
      ForwardReadsOn(b, next, lines);
      TextsJoin(all, from, from + lines, page, Forward(b, next, lines));
      TilesJoin(page, Forward(b, next, lines), |all| + b.extent.Skipped());
    } else {
      OnePage(all, from, page);
    }
  }

  lemma OnePage(all: seq<Text>, from: nat, page: Page)
    requires from < |all| && page.text == Terminated(all[from..|all|]) && page.first <= page.last
    ensures Texts([page]) == Terminated(all[from..]) && Tiles([page], page.first, page.last)
  {
    assert all[from..|all|] == all[from..];
    assert [page][1..] == [];
    assert Texts([]) == [];
  }

  /** Starting at the head and following `later`, the pages are the whole buffer, each line once and in order. */
  lemma ForwardReadsAll(b: Stored, lines: nat)
    requires lines > 0 && b.id != "" && |Lines(b.text)| <= LINE_LIMIT
    ensures Texts(Forward(b, AtHead, lines)) == b.text + if EndsLine(b.text) then [] else [NEWLINE]
    ensures b.text != [] ==>
      Tiles(Forward(b, AtHead, lines), 1 + b.extent.Skipped(), |Lines(b.text)| + b.extent.Skipped())
  {
    TerminatedLines(b.text);
    if b.text == [] {
      assert PageAt(b, AtHead, lines) == EMPTY_PAGE;
      assert [EMPTY_PAGE][1..] == [];
    } else {
      LinesOfSome(b.text);
      hide Lines, Terminated, Tiles, Texts, Forward;
      assert Lines(b.text)[0..] == Lines(b.text);
      ForwardReadsOn(b, AtHead, lines);
    }
  }

  lemma LinesOfSome(s: Text)
    requires s != []
    ensures Lines(s) != []
  {}

  // ---------------------------------------------------------------- backwards

  /** The pages read by following each `earlier` cursor. */
  ghost function Backward(b: Stored, anchor: Anchor, lines: nat): seq<Page>
    decreases Start(b, anchor, lines)
  {
    var page := PageAt(b, anchor, lines);
    match Follow(page.earlier)
    case None => [page]
    case Some(next) => [page] + Backward(b, next, lines)
  }

  ghost predicate Shows(pages: seq<Page>, line: nat) {
    exists i | 0 <= i < |pages| :: pages[i].first <= line <= pages[i].last
  }

  /** Every line up to the end of the page read first is on one of the pages. */
  lemma {:induction false} BackwardShows(b: Stored, anchor: Anchor, lines: nat, line: nat)
    requires lines > 0 && b.id != "" && |Lines(b.text)| <= LINE_LIMIT
    requires Start(b, anchor, lines) < |Lines(b.text)|
    requires line < |Lines(b.text)| && line < Start(b, anchor, lines) + lines
    ensures Shows(Backward(b, anchor, lines), line + 1 + b.extent.Skipped())
    decreases Start(b, anchor, lines)
  {
    hide Lines, Terminated, Follow, Shows;
    var from := Start(b, anchor, lines);
    var page := PageAt(b, anchor, lines);
    if from <= line {
      ShownFirst(page, Backward(b, anchor, lines), line + 1 + b.extent.Skipped());
    } else {
      var next := At(Cursor(b.id, if from > lines then from - lines else 0));
      BackwardShows(b, next, lines, line);
      ShownLater(page, Backward(b, next, lines), line + 1 + b.extent.Skipped());
    }
  }

  lemma ShownFirst(page: Page, pages: seq<Page>, line: nat)
    requires pages != [] && pages[0] == page && page.first <= line <= page.last
    ensures Shows(pages, line)
  {}

  lemma ShownLater(page: Page, rest: seq<Page>, line: nat)
    requires Shows(rest, line)
    ensures Shows([page] + rest, line)
  {
    var i :| 0 <= i < |rest| && rest[i].first <= line <= rest[i].last;
    assert ([page] + rest)[i + 1] == rest[i];
  }

  /** Starting at the tail and following `earlier`, every line of the buffer is shown. */
  lemma BackwardShowsAll(b: Stored, lines: nat, line: nat)
    requires lines > 0 && b.id != "" && line < |Lines(b.text)| <= LINE_LIMIT
    ensures Shows(Backward(b, AtTail, lines), line + 1 + b.extent.Skipped())
  {
    BackwardShows(b, AtTail, lines, line);
  }

  // ---------------------------------------------------------------- against the command

  /** Lines written out and split again are the same lines. */
  lemma {:induction false} LinesOfTerminated(lines: seq<Text>)
    requires forall k | 0 <= k < |lines| :: OneLine(lines[k])
    ensures Lines(Terminated(lines)) == lines
  {
    if lines != [] {
      LinesOfTerminated(lines[1..]);
      LinesUnfold(lines[0], Terminated(lines[1..]));
      assert lines == [lines[0]] + lines[1..];
    }
  }

  /**
    Any page of a stored capture: its lines are numbered as lines of the whole command output, and are
    those lines byte for byte, unless the buffer is a lone fragment of one line.
  */
  lemma PageLinesAreCommandLines(stream: Text, max: nat, keep: Keep, b: Stored, anchor: Anchor, lines: nat)
    requires CapturedFrom(stream, max, keep, Captured(b.text, b.extent))
    requires PageAt(b, anchor, lines) != EMPTY_PAGE
    ensures var (page, shown) := (PageAt(b, anchor, lines), Lines(PageAt(b, anchor, lines).text));
      && 1 <= page.first <= page.last <= |Lines(stream)| && |shown| == page.last - page.first + 1
      && (|| Fragment(stream, max, keep, Captured(b.text, b.extent))
          || forall k | 0 <= k < |shown| :: shown[k] == Lines(stream)[page.first - 1 + k])
  {
    hide Lines, Terminated, Fragment, CapturedFrom;
    KeptLinesAreStreamLines(stream, max, keep, Captured(b.text, b.extent));
    EachIsOneLine(b.text);
    var from := Start(b, anchor, lines);
    var to := if from + lines < |Lines(b.text)| then from + lines else |Lines(b.text)|;
    LinesOfTerminated(Lines(b.text)[from..to]);
  }
}
