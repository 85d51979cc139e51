/**
  Lines of a byte text, read three ways by the source: a running newline counter, a count over the
  finished buffer, and an index of line starts. `Lines` is the reference the three are compared to.
  A trailing newline ends the last line rather than starting an empty one.
*/
module LineSplit {
  import opened Sequences
  import opened Wrappers
  import opened Utf8

  /** The first newline at or after `from`, or the length when there is none. */
  function Find(s: Text, from: nat): (i: nat)
    requires from <= |s|
    ensures from <= i <= |s|
    ensures forall k | from <= k < i :: s[k] != NEWLINE
    ensures i < |s| ==> s[i] == NEWLINE
    decreases |s| - from
  {
    if from == |s| || s[from] == NEWLINE then from else Find(s, from + 1)
  }

  function Lines(s: Text): seq<Text>
    decreases |s|
  {
    if s == [] then []
    else if Find(s, 0) == |s| then [s]
    else [s[..Find(s, 0)]] + Lines(s[Find(s, 0) + 1..])
  }

  /** The lines written out, each ended by a newline. */
  function Terminated(lines: seq<Text>): Text {
    if lines == [] then [] else lines[0] + [NEWLINE] + Terminated(lines[1..])
  }

  function Newlines(s: Text): nat {
    if s == [] then 0 else Newlines(s[..|s| - 1]) + if s[|s| - 1] == NEWLINE then 1 else 0
  }

  function LineCount(s: Text): nat {
    Newlines(s) + if s != [] && s[|s| - 1] != NEWLINE then 1 else 0
  }

  predicate EndsLine(s: Text) { s == [] || s[|s| - 1] == NEWLINE }

  predicate OneLine(s: Text) { forall k | 0 <= k < |s| :: s[k] != NEWLINE }

  lemma FindIs(s: Text, from: nat, i: nat)
    requires from <= i < |s| && s[i] == NEWLINE && (forall k | from <= k < i :: s[k] != NEWLINE)
    ensures Find(s, from) == i
  {}

  lemma {:induction false} NewlinesAppend(a: Text, b: Text)
    ensures Newlines(a + b) == Newlines(a) + Newlines(b)
  {
    if b == [] {
      assert a + b == a;
    } else {
      assert (a + b)[..|a + b| - 1] == a + b[..|b| - 1];
      NewlinesAppend(a, b[..|b| - 1]);
    }
  }

  lemma {:induction false} NoNewlines(s: Text)
    ensures Newlines(s) == 0 <==> OneLine(s)
  {
    if s != [] {
      NoNewlines(s[..|s| - 1]);
      if OneLine(s[..|s| - 1]) && s[|s| - 1] != NEWLINE {
        assert forall k | 0 <= k < |s| - 1 :: s[k] == s[..|s| - 1][k];
      }
    }
  }

  /** A text cut after a newline: the lines of the two sides are the lines of the whole, in order. */
  lemma CutLines(s: Text, d: nat)
    requires d <= |s| && EndsLine(s[..d])
    ensures var n := Newlines(s[..d]);
      && |Lines(s[..d])| == n && |Lines(s)| == n + |Lines(s[d..])|
      && (forall k | 0 <= k < n :: Lines(s)[k] == Lines(s[..d])[k])
      && (forall k | 0 <= k < |Lines(s[d..])| :: Lines(s[d..])[k] == Lines(s)[n + k])
  {
    assert s == s[..d] + s[d..];
    LinesAppend(s[..d], s[d..]);
    LineCountMeetsLines(s[..d]);
  }

  /** One line and its newline count one newline. */
  lemma NewlinesUnfold(line: Text, rest: Text)
    requires OneLine(line)
    ensures Newlines(line + [NEWLINE] + rest) == 1 + Newlines(rest)
  {
    NewlinesAppend(line + [NEWLINE], rest);
    NewlinesAppend(line, [NEWLINE]);
    NoNewlines(line);
    assert [NEWLINE][..0] == [];
    assert Newlines([NEWLINE]) == 1;
  }

  lemma LinesUnfold(line: Text, rest: Text)
    requires OneLine(line)
    ensures Lines(line + [NEWLINE] + rest) == [line] + Lines(rest)
  {
    var s := line + [NEWLINE] + rest;
    assert s[|line|] == NEWLINE;
    assert forall k | 0 <= k < |line| :: s[k] == line[k];
    FindIs(s, 0, |line|);
    assert s[..|line|] == line && s[|line| + 1..] == rest;
  }

  /** A text is its first line, the newline, and the rest. */
  lemma FirstLine(s: Text) returns (line: Text, rest: Text)
    requires Find(s, 0) < |s|
    ensures OneLine(line) && s == line + [NEWLINE] + rest && |rest| < |s|
    ensures Lines(s) == [line] + Lines(rest)
  {
    line, rest := s[..Find(s, 0)], s[Find(s, 0) + 1..];
  }

  lemma {:induction false} LinesOfOneLine(s: Text)
    requires OneLine(s)
    ensures Lines(s) == if s == [] then [] else [s]
  {}

  lemma LinesAppendStep(line: Text, rest: Text, b: Text)
    requires OneLine(line) && Lines(rest + b) == Lines(rest) + Lines(b)
    ensures Lines(line + [NEWLINE] + rest + b) == Lines(line + [NEWLINE] + rest) + Lines(b)
  {
    calc {
      Lines(line + [NEWLINE] + rest + b);
      { SeqAssoc(line + [NEWLINE], rest, b); }
      Lines(line + [NEWLINE] + (rest + b));
      { LinesUnfold(line, rest + b); }
      [line] + (Lines(rest) + Lines(b));
      { SeqAssoc([line], Lines(rest), Lines(b)); }
      [line] + Lines(rest) + Lines(b);
      { LinesUnfold(line, rest); }
      Lines(line + [NEWLINE] + rest) + Lines(b);
    }
  }

  /** Texts cut after a newline have their lines side by side. */
  lemma {:induction false} LinesAppend(a: Text, b: Text)
    requires EndsLine(a)
    ensures Lines(a + b) == Lines(a) + Lines(b)
    decreases |a|
  {
    if a == [] {
      assert a + b == b;
    } else {
      var line, rest := FirstLine(a);
      hide Lines, Find, OneLine;
      assert EndsLine(rest) by { if rest != [] { assert rest[|rest| - 1] == a[|a| - 1]; } }
      LinesAppend(rest, b);
      LinesAppendStep(line, rest, b);
    }
  }

  /** The independent count agrees with the lines there are. */
  lemma {:induction false} LineCountMeetsLines(s: Text)
    ensures |Lines(s)| == LineCount(s)
    decreases |s|
  {
    if Find(s, 0) < |s| {
      var line, rest := FirstLine(s);
      LineCountMeetsLines(rest);
      NewlinesUnfold(line, rest);
      if rest != [] { assert s[|s| - 1] == rest[|rest| - 1]; }
    } else {
      NoNewlines(s);
    }
  }

  /** No line holds a newline. */
  lemma {:induction false} EachIsOneLine(s: Text)
    ensures forall k | 0 <= k < |Lines(s)| :: OneLine(Lines(s)[k])
    decreases |s|
  {
    if Find(s, 0) < |s| {
      var line, rest := FirstLine(s);
      EachIsOneLine(rest);
    }
  }

  lemma TerminatedCons(line: Text, rest: seq<Text>)
    ensures Terminated([line] + rest) == line + [NEWLINE] + Terminated(rest)
  {
    assert ([line] + rest)[1..] == rest;
  }

  /** Written out again, the lines are the text with its last line ended. */
  lemma {:induction false} TerminatedLines(s: Text)
    ensures Terminated(Lines(s)) == s + if EndsLine(s) then [] else [NEWLINE]
    decreases |s|
  {
    if s == [] {
      assert Terminated([]) == [];
    } else if Find(s, 0) < |s| {
      var line, rest := FirstLine(s);
      TerminatedLines(rest);
      TerminatedCons(line, Lines(rest));
      assert EndsLine(s) == EndsLine(rest) by {
        assert s[|s| - 1] == (line + [NEWLINE] + rest)[|s| - 1];
      }
      SeqAssoc(line + [NEWLINE], rest, if EndsLine(s) then [] else [NEWLINE]);
    } else {
      assert Lines(s) == [s] + [];
      TerminatedCons(s, []);
    }
  }

  lemma {:induction false} TerminatedAppend(a: seq<Text>, b: seq<Text>)
    ensures Terminated(a + b) == Terminated(a) + Terminated(b)
  {
    if a == [] {
      assert a + b == b;
    } else {
      assert (a + b)[1..] == a[1..] + b;
      TerminatedAppend(a[1..], b);
      SeqAssoc(a[0] + [NEWLINE], Terminated(a[1..]), Terminated(b));
    }
  }

  /** The last line of `a + b`, when `b` holds no newline, is an unfinished line of `a` continued by `b`. */
  lemma {:induction false} LastLineContinues(a: Text, b: Text) returns (head: Text)
    requires OneLine(b) && b != []
    ensures |Lines(a + b)| == Newlines(a) + 1
    ensures Lines(a + b)[Newlines(a)] == head + b
    decreases |a|
  {
    if Find(a, 0) < |a| {
      var line, rest := FirstLine(a);
      head := LastLineContinues(rest, b);
      SeqAssoc(line + [NEWLINE], rest, b);
      LinesUnfold(line, rest + b);
      NewlinesUnfold(line, rest);
    } else {
      NoNewlines(a);
      assert OneLine(a + b);
      LinesOfOneLine(a + b);
      head := a;
    }
  }

  /** The first line of `a + b`, when `a` holds no newline, begins with `a`. */
  lemma FirstLineBegins(a: Text, b: Text)
    requires OneLine(a) && a != []
    ensures Lines(a + b) != [] && a <= Lines(a + b)[0]
  {
    var s := a + b;
    assert forall k | 0 <= k < |a| :: s[k] == a[k];
    if Find(s, 0) < |s| {
      assert s[..Find(s, 0)][..|a|] == a;
    } else {
      assert s[..|a|] == a;
    }
  }
}
