/**
  Where pages lie (src/paging/paging.cpp): how many lines each anchor shows and which, and how the page at a
  page's cursor lies beside it.
*/
module PagePlaces {
  import opened Sequences
  import opened Wrappers
  import opened Utf8
  import opened LineSplit
  import opened OutputCapture
  import opened Cursors
  import opened Paging
  import opened PageWalk

  function Least(m: nat, n: nat): nat { if m < n then m else n }

  /** There is no page exactly when no line is asked for, none is held, or the cursor is past the end. */
  lemma NoPageIff(b: Stored, anchor: Anchor, lines: nat)
    ensures PageAt(b, anchor, lines).text == [] <==>
      lines == 0 || b.text == [] || (anchor.At? && anchor.cursor.line >= |Lines(b.text)|)
    ensures PageAt(b, anchor, lines).text == [] ==> PageAt(b, anchor, lines) == Page([], 0, 0, None, None)
  {
    if b.text != [] { LinesOfSome(b.text); } else { assert Lines(b.text) == []; }
    hide Lines;
  }

  /** The tail is the last lines, as many as asked or as there are. */
  lemma TailPage(b: Stored, lines: nat)
    requires lines > 0 && b.text != []
    ensures var (all, page) := (Lines(b.text), PageAt(b, AtTail, lines));
      var n := Least(lines, |all|);
      && page.text == Terminated(all[|all| - n..]) && page.last == |all| + b.extent.Skipped()
      && page.first + n == page.last + 1 && page.later == None && (page.earlier == None <==> |all| <= lines)
  {
    LinesOfSome(b.text);
    hide Lines, Terminated;
    var all := Lines(b.text);
    assert all[|all| - Least(lines, |all|)..] == all[|all| - Least(lines, |all|)..|all|];
  }

  /** The head is the first. */
  lemma HeadPage(b: Stored, lines: nat)
    requires lines > 0 && b.text != []
    ensures var (all, page) := (Lines(b.text), PageAt(b, AtHead, lines));
      var n := Least(lines, |all|);
      && page.text == Terminated(all[..n]) && page.first == 1 + b.extent.Skipped() && page.last == n + b.extent.Skipped()
      && page.earlier == None && page.later == if n < |all| then Some(Cursor(b.id, lines)) else None
  {
    LinesOfSome(b.text);
    hide Lines, Terminated;
    var all := Lines(b.text);
    assert all[..Least(lines, |all|)] == all[0..Least(lines, |all|)];
  }

  /** A cursor's page begins at its line. */
  lemma CursorPage(b: Stored, c: Cursor, lines: nat)
    requires lines > 0 && c.line < |Lines(b.text)|
    ensures var (all, page) := (Lines(b.text), PageAt(b, At(c), lines));
      var n := Least(lines, |all| - c.line);
      && page.text == Terminated(all[c.line..c.line + n])
      && page.first == c.line + 1 + b.extent.Skipped() && page.last == c.line + n + b.extent.Skipped()
      && page.earlier == (if c.line == 0 then None else Some(Cursor(b.id, c.line - Least(lines, c.line))))
      && page.later == if c.line + n == |all| then None else Some(Cursor(b.id, c.line + n))
  {
    hide Lines, Terminated;
  }

  /** The page at `later` begins on the next line. */
  lemma LaterAbuts(b: Stored, anchor: Anchor, lines: nat)
    requires PageAt(b, anchor, lines).later.Some?
    ensures var page := PageAt(b, anchor, lines);
      var next := PageAt(b, At(page.later.value), lines);
      next.text != [] && next.first == page.last + 1
  {
    hide Lines, Terminated;
    NoPageIff(b, At(PageAt(b, anchor, lines).later.value), lines);
    assert b.text != [] by { if b.text == [] { NoLines(b.text); } }
  }

  lemma NoLines(s: Text)
    requires s == []
    ensures Lines(s) == []
  {}

  /**
    The page at `earlier` begins as many lines before this one as were asked for, or as there are; it ends just
    before this one exactly when there are that many, and else overlaps it.
  */
  lemma EarlierAbuts(b: Stored, anchor: Anchor, lines: nat)
    requires PageAt(b, anchor, lines).earlier.Some?
    ensures var page := PageAt(b, anchor, lines);
      var before := page.first - 1 - b.extent.Skipped();
      var next := PageAt(b, At(page.earlier.value), lines);
      && before > 0 && next.text != [] && next.first == page.first - Least(lines, before)
      && next.last + 1 >= page.first && (next.last + 1 == page.first <==> before >= lines)
  {
    hide Lines, Terminated;
    NoPageIff(b, At(PageAt(b, anchor, lines).earlier.value), lines);
    assert b.text != [] by { if b.text == [] { NoLines(b.text); } }
  }

  // ---------------------------------------------------------------- the walk backwards

  /** The pages, read from the last, number the lines from `from` to `to` once each. */
  predicate TilesBack(pages: seq<Page>, from: nat, to: nat) {
    && pages != []
    && pages[0].first <= pages[0].last == to
    && if |pages| == 1 then pages[0].first == from else pages[0].first > 0 && TilesBack(pages[1..], from, pages[0].first - 1)
  }

  lemma TilesBackJoin(page: Page, rest: seq<Page>, from: nat, to: nat)
    requires rest != []
    ensures TilesBack([page] + rest, from, to) <==>
      page.first <= page.last == to && page.first > 0 && TilesBack(rest, from, page.first - 1)
  {
    assert ([page] + rest)[1..] == rest;
  }

  lemma PageFrom(b: Stored, anchor: Anchor, lines: nat)
    requires lines > 0 && Start(b, anchor, lines) < |Lines(b.text)|
    ensures var (from, page) := (Start(b, anchor, lines), PageAt(b, anchor, lines));
      && page.first == from + 1 + b.extent.Skipped() && page.first <= page.last
      && page.earlier == if from == 0 then None else Some(Cursor(b.id, from - Least(lines, from)))
  {
    hide Lines, Terminated;
  }

  /** That many lines fill pages of this size. */
  predicate WholePages(n: nat, lines: nat)
    requires lines > 0
  {
    n % lines == 0
  }

  lemma BackwardUnfold(b: Stored, anchor: Anchor, lines: nat)
    requires lines > 0 && b.id != "" && |Lines(b.text)| <= LINE_LIMIT
    requires Start(b, anchor, lines) < |Lines(b.text)|
    ensures var (from, page) := (Start(b, anchor, lines), PageAt(b, anchor, lines));
      Backward(b, anchor, lines) ==
        if from == 0 then [page] else [page] + Backward(b, At(Cursor(b.id, from - Least(lines, from))), lines)
  {
    hide Lines, Terminated, Follow;
    PageFrom(b, anchor, lines);
    hide PageAt;
  }

  lemma {:induction false} BackwardTilesFrom(b: Stored, anchor: Anchor, lines: nat)
    requires lines > 0 && b.id != "" && |Lines(b.text)| <= LINE_LIMIT
    requires Start(b, anchor, lines) < |Lines(b.text)|
    ensures Backward(b, anchor, lines) != [] && Backward(b, anchor, lines)[0] == PageAt(b, anchor, lines)
    ensures TilesBack(Backward(b, anchor, lines), 1 + b.extent.Skipped(), PageAt(b, anchor, lines).last)
            <==> WholePages(Start(b, anchor, lines), lines)
    decreases Start(b, anchor, lines)
  {
    hide Lines, Terminated, TilesBack, WholePages, Backward;
    var (from, page) := (Start(b, anchor, lines), PageAt(b, anchor, lines));
    PageFrom(b, anchor, lines);
    BackwardUnfold(b, anchor, lines);
    if from == 0 {
      OneTile(page);
      StepBack(0, lines);
    } else {
      var next := At(Cursor(b.id, from - Least(lines, from)));
      BackwardTilesFrom(b, next, lines);
      EarlierAbuts(b, anchor, lines);
      hide PageAt;
      TileStep(page, PageAt(b, next, lines).last, Backward(b, next, lines), from, b.extent.Skipped(), lines);
    }
  }

  /** A page before others: they tile together when they abut and the others tile. */
  lemma TileStep(page: Page, last: nat, rest: seq<Page>, from: nat, skipped: nat, lines: nat)
    requires lines > 0 && from > 0 && rest != [] && rest[0].last == last
    requires page.first == from + 1 + skipped && page.first <= page.last
    requires last + 1 == page.first <==> from >= lines
    requires TilesBack(rest, 1 + skipped, last) <==> WholePages(from - Least(lines, from), lines)
    ensures TilesBack([page] + rest, 1 + skipped, page.last) <==> WholePages(from, lines)
  {
    hide TilesBack, WholePages;
    StepBack(from, lines);
    TilesBackJoin(page, rest, 1 + skipped, page.last);
    TilesEnd(rest, 1 + skipped, page.first - 1);
  }

  lemma TilesEnd(pages: seq<Page>, from: nat, to: nat)
    ensures TilesBack(pages, from, to) ==> pages != [] && pages[0].last == to
  {}

  lemma OneTile(page: Page)
    requires page.first <= page.last
    ensures TilesBack([page], page.first, page.last)
  {}

  lemma StepBack(n: nat, lines: nat)
    requires lines > 0
    ensures n >= lines ==> (WholePages(n, lines) <==> WholePages(n - lines, lines))
    ensures n < lines ==> (WholePages(n, lines) <==> n == 0)
  {
    if n >= lines {
      var (q, r) := ((n - lines) / lines, (n - lines) % lines);
      assert n - lines == q * lines + r;
      assert n == (q + 1) * lines + r by { assert (q + 1) * lines == q * lines + lines; }
      RemainderIs(n, lines, q + 1, r);
    } else {
      RemainderIs(n, lines, 0, n);
    }
  }

  lemma RemainderIs(n: int, m: int, q: int, r: int)
    requires n == q * m + r && 0 <= r < m
    ensures n % m == r
  {
    var d := n / m - q;
    assert n == (n / m) * m + n % m;
    assert d * m == (n / m) * m - q * m;
    Multiples(d, m);
  }

  lemma Multiples(d: int, m: int)
    requires m > 0
    ensures (d >= 1 ==> d * m >= m) && (d <= -1 ==> d * m <= -m)
  {
    if d >= 1 { assert (d - 1) * m >= 0; }
    if d <= -1 { assert (-1 - d) * m >= 0; }
  }

  /** From the tail along `earlier`, pages show each line once exactly when one page holds all or every page is full. */
  lemma BackwardTilesIff(b: Stored, lines: nat)
    requires lines > 0 && b.id != "" && b.text != [] && |Lines(b.text)| <= LINE_LIMIT
    ensures TilesBack(Backward(b, AtTail, lines), 1 + b.extent.Skipped(), |Lines(b.text)| + b.extent.Skipped())
            <==> |Lines(b.text)| <= lines || WholePages(|Lines(b.text)|, lines)
  {
    hide Lines, Terminated, TilesBack, Backward, WholePages, PageAt, Start;
    TailIs(b, lines);
    BackwardTilesFrom(b, AtTail, lines);
  }

  lemma TailIs(b: Stored, lines: nat)
    requires lines > 0 && b.text != []
    ensures Start(b, AtTail, lines) < |Lines(b.text)| && PageAt(b, AtTail, lines).last == |Lines(b.text)| + b.extent.Skipped()
    ensures WholePages(Start(b, AtTail, lines), lines) <==> |Lines(b.text)| <= lines || WholePages(|Lines(b.text)|, lines)
  {
    LinesOfSome(b.text);
    TailPage(b, lines);
    hide Lines, Terminated, WholePages, PageAt;
    StepBack(|Lines(b.text)|, lines);
    StepBack(0, lines);
  }
}
