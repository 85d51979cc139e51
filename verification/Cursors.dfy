/**
  A place in one command's output as text, `<buffer>:<line>` (src/paging/paging.cpp, `Cursor`,
  `Anchor`), and what survives printing it and reading it back.
*/
module Cursors {
  import opened Sequences
  import opened Wrappers

  datatype Cursor = Cursor(buffer: string, line: nat)

  datatype Anchor = AtHead | AtTail | At(cursor: Cursor)

  /** The largest line number a cursor is read back from: twelve digits. */
  const LINE_LIMIT: nat := 1_000_000_000_000

  predicate IsDigit(c: char) { '0' <= c <= '9' }

  predicate AllDigits(s: string) { forall k | 0 <= k < |s| :: IsDigit(s[k]) }

  function Digit(d: nat): (c: char)
    requires d < 10
    ensures IsDigit(c) && (c as int - '0' as int) == d
  {
    ('0' as int + d) as char
  }

  function Decimal(n: nat): (s: string)
    ensures s != "" && AllDigits(s)
  {
    if n < 10 then [Digit(n)] else Decimal(n / 10) + [Digit(n % 10)]
  }

  function Value(s: string): nat
    requires AllDigits(s)
  {
    if s == "" then 0 else Value(s[..|s| - 1]) * 10 + (s[|s| - 1] as int - '0' as int)
  }

  function Power10(k: nat): nat { if k == 0 then 1 else 10 * Power10(k - 1) }

  /** The last colon, or the length when there is none. */
  function LastColon(s: string): (i: nat)
    ensures i <= |s| && (i < |s| ==> s[i] == ':') && (forall k | i < k < |s| :: s[k] != ':')
    ensures i == |s| <==> ':' !in s
  {
    if s == "" then 0
    else if s[|s| - 1] == ':' then |s| - 1
    else
      var i := LastColon(s[..|s| - 1]);
      if i == |s| - 1 then |s| else i
  }

  function Print(c: Cursor): string { c.buffer + ":" + Decimal(c.line) }

  function ParseCursor(text: string): Option<Cursor> {
    var colon := LastColon(text);
    if colon == |text| || colon == 0 || colon + 1 >= |text| then None
    else
      var digits := text[colon + 1..];
      if |digits| > 12 || !AllDigits(digits) then None else Some(Cursor(text[..colon], Value(digits)))
  }

  function ParseAnchor(text: string): Option<Anchor> {
    if text == "head" then Some(AtHead)
    else if text == "tail" then Some(AtTail)
    else match ParseCursor(text)
      case Some(c) => Some(At(c))
      case None => None
  }

  method Parse(text: string) returns (r: Option<Cursor>)
    ensures r == ParseCursor(text)
  {
    var colon := LastColon(text);
    if colon == |text| || colon == 0 || colon + 1 >= |text| { return None; }
    var digits := text[colon + 1..];
    if |digits| > 12 { return None; }
    var line := 0;
    var i := 0;
    while i < |digits|
      invariant 0 <= i <= |digits|
      invariant AllDigits(digits[..i]) && line == Value(digits[..i])
    {
      var c := digits[i];
      if c < '0' || c > '9' { return None; }
      assert digits[..i + 1][..i] == digits[..i];
      line := line * 10 + (c as int - '0' as int);
      i := i + 1;
    }
    assert digits[..|digits|] == digits;
    return Some(Cursor(text[..colon], line));
  }

  lemma {:induction false} ValueOfDecimal(n: nat)
    ensures Value(Decimal(n)) == n
  {
    var s := Decimal(n);
    if n < 10 {
      assert s[..0] == "";
    } else {
      ValueOfDecimal(n / 10);
      assert s[..|s| - 1] == Decimal(n / 10);
    }
  }

  /** Different numbers are printed differently. */
  lemma DecimalInjective(m: nat, n: nat)
    requires Decimal(m) == Decimal(n)
    ensures m == n
  {
    ValueOfDecimal(m);
    ValueOfDecimal(n);
  }

  lemma {:induction false} DecimalLength(n: nat, k: nat)
    requires k > 0
    ensures |Decimal(n)| <= k <==> n < Power10(k)
  {
    if k == 1 {
      assert Power10(1) == 10 * Power10(0) == 10;
    } else if n < 10 {
      PowerPositive(k - 1);
    } else {
      DecimalLength(n / 10, k - 1);
    }
  }

  lemma {:induction false} PowerPositive(k: nat)
    ensures Power10(k) >= 1
  {
    if k > 0 { PowerPositive(k - 1); }
  }

  lemma LimitIsTwelveDigits()
    ensures Power10(12) == LINE_LIMIT
  {
    assert Power10(4) == 10_000 by { assert Power10(2) == 100; }
    assert Power10(8) == 100_000_000 by { assert Power10(6) == 1_000_000; }
    assert Power10(10) == 10_000_000_000;
  }

  lemma LastColonOfPrinted(c: Cursor)
    ensures LastColon(Print(c)) == |c.buffer|
  {
    var (s, n) := (Print(c), |c.buffer|);
    assert s[n] == ':';
    forall k | n < k < |s| ensures s[k] != ':' {
      assert s[k] == Decimal(c.line)[k - n - 1];
    }
  }

  /** A printed cursor reads back as itself exactly when it names a buffer and its line has at most twelve digits. */
  lemma ParsePrinted(c: Cursor)
    ensures ParseCursor(Print(c)) == if c.buffer != "" && c.line < LINE_LIMIT then Some(c) else None
    ensures ParseAnchor(Print(c)) == if c.buffer != "" && c.line < LINE_LIMIT then Some(At(c)) else None
  {
    var s := Print(c);
    LastColonOfPrinted(c);
    assert s[|c.buffer| + 1..] == Decimal(c.line) && s[..|c.buffer|] == c.buffer;
    ValueOfDecimal(c.line);
    DecimalLength(c.line, 12);
    LimitIsTwelveDigits();
    assert ':' in s;
  }
}
