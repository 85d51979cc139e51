/**
  UTF-8 as include/pu/core/text.hpp reads it: a table of lead-byte patterns, a payload fold, and
  three rejections (overlong, surrogate, beyond U+10FFFF).

  The independent reference is RFC 3629: `RfcChar` is the UTF8-char rule of section 4, and
  `RfcEncode` the table of section 3. The lemmas say that the bit tests and the grammar accept
  the same bytes, and that decoding and encoding are inverse.
*/
module Utf8 {
  import opened Sequences
  import opened Wrappers

  type byte = bv8
  type Text = seq<byte>

  const NEWLINE: byte := 0x0A
  const RETURN: byte := 0x0D
  const REPLACEMENT: Text := [0xEF, 0xBF, 0xBD]
  const MAX_CODE_POINT: bv32 := 0x10FFFF

  // ---------------------------------------------------------------- RFC 3629

  predicate Tail(b: byte) { 0x80 <= b <= 0xBF }

  /** UTF8-char of section 4 of RFC 3629. */
  predicate RfcChar(c: Text) {
    || (|c| == 1 && c[0] <= 0x7F)
    || (|c| == 2 && 0xC2 <= c[0] <= 0xDF && Tail(c[1]))
    || (|c| == 3 && Tail(c[2]) && (
          || (c[0] == 0xE0 && 0xA0 <= c[1] <= 0xBF)
          || (0xE1 <= c[0] <= 0xEC && Tail(c[1]))
          || (c[0] == 0xED && 0x80 <= c[1] <= 0x9F)
          || (0xEE <= c[0] <= 0xEF && Tail(c[1]))))
    || (|c| == 4 && Tail(c[2]) && Tail(c[3]) && (
          || (c[0] == 0xF0 && 0x90 <= c[1] <= 0xBF)
          || (0xF1 <= c[0] <= 0xF3 && Tail(c[1]))
          || (c[0] == 0xF4 && 0x80 <= c[1] <= 0x8F)))
  }

  predicate Scalar(cp: bv32) { cp <= MAX_CODE_POINT && !(0xD800 <= cp <= 0xDFFF) }

  /** The octets section 3 of RFC 3629 assigns to a scalar value. */
  function RfcEncode(cp: bv32): (c: Text)
    requires Scalar(cp)
  {
    if cp <= 0x7F then
      [(cp & 0x7F) as byte]
    else if cp <= 0x7FF then
      [0xC0 | ((cp >> 6) & 0x1F) as byte, 0x80 | (cp & 0x3F) as byte]
    else if cp <= 0xFFFF then
      [0xE0 | ((cp >> 12) & 0x0F) as byte, 0x80 | ((cp >> 6) & 0x3F) as byte, 0x80 | (cp & 0x3F) as byte]
    else
      [0xF0 | ((cp >> 18) & 0x07) as byte, 0x80 | ((cp >> 12) & 0x3F) as byte,
       0x80 | ((cp >> 6) & 0x3F) as byte, 0x80 | (cp & 0x3F) as byte]
  }

  /** UTF8-octets of section 4: a concatenation of UTF8-char. */
  ghost predicate RfcOctets(s: Text) {
    exists cs: seq<Text> :: AllChars(cs) && Flatten(cs) == s
  }

  ghost predicate AllChars(cs: seq<Text>) { forall i | 0 <= i < |cs| :: RfcChar(cs[i]) }

  ghost function Flatten(cs: seq<Text>): Text {
    if cs == [] then [] else cs[0] + Flatten(cs[1..])
  }

  // ---------------------------------------------------------------- the decoder

  predicate IsContinuationByte(b: byte) { b & 0xC0 == 0x80 }

  function SequenceLength(lead: byte): nat {
    if lead & 0x80 == 0x00 then 1
    else if lead & 0xE0 == 0xC0 then 2
    else if lead & 0xF0 == 0xE0 then 3
    else if lead & 0xF8 == 0xF0 then 4
    else 0
  }

  function LeadPayloadMask(length: nat): byte
    requires 1 <= length <= 4
  {
    if length == 1 then 0x7F else if length == 2 then 0x1F else if length == 3 then 0x0F else 0x07
  }

  /** One continuation byte appended to the payload collected so far. */
  function Extend(payload: bv32, b: byte): bv32 { (payload << 6) | (b & 0x3F) as bv32 }

  function Lead(b: byte, length: nat): bv32
    requires 1 <= length <= 4
  {
    (b & LeadPayloadMask(length)) as bv32
  }

  /** The payload of the first `n` bytes of the character `c`. */
  function Payload(c: Text, n: nat): bv32
    requires 1 <= n <= |c| <= 4
  {
    if n == 1 then Lead(c[0], |c|) else Extend(Payload(c, n - 1), c[n - 1])
  }

  function CodePoint(c: Text): bv32
    requires 1 <= |c| <= 4
  {
    Payload(c, |c|)
  }

  predicate IsOverlong(length: nat, cp: bv32) {
    (length == 2 && cp < 0x80) || (length == 3 && cp < 0x800) || (length == 4 && cp < 0x10000)
  }

  predicate IsSurrogate(cp: bv32) { 0xD800 <= cp <= 0xDFFF }

  method DecodeCodePoint(text: Text, index: nat, length: nat) returns (cp: bv32)
    requires 1 <= length <= 4 && index + length <= |text|
    ensures cp == CodePoint(text[index..index + length])
  {
    ghost var c := text[index..index + length];
    cp := Lead(text[index], length);
    var offset := 1;
    while offset < length
      invariant 1 <= offset <= length
      invariant cp == Payload(c, offset)
    {
      assert text[index + offset] == c[offset];
      cp := Extend(cp, text[index + offset]);
      offset := offset + 1;
    }
  }

  /** The tests the decoder makes on a candidate character. */
  predicate Decodes(c: Text) {
    && 1 <= |c| <= 4
    && SequenceLength(c[0]) == |c|
    && (forall i | 1 <= i < |c| :: IsContinuationByte(c[i]))
    && !IsOverlong(|c|, CodePoint(c)) && !IsSurrogate(CodePoint(c)) && CodePoint(c) <= MAX_CODE_POINT
  }

  function Point2(a: byte, b: byte): bv32 { Extend(Lead(a, 2), b) }
  function Point3(a: byte, b: byte, d: byte): bv32 { Extend(Extend(Lead(a, 3), b), d) }
  function Point4(a: byte, b: byte, d: byte, e: byte): bv32 { Extend(Extend(Extend(Lead(a, 4), b), d), e) }

  lemma PayloadUnfolds(c: Text)
    requires 2 <= |c| <= 4
    ensures |c| == 2 ==> CodePoint(c) == Point2(c[0], c[1])
    ensures |c| == 3 ==> CodePoint(c) == Point3(c[0], c[1], c[2])
    ensures |c| == 4 ==> CodePoint(c) == Point4(c[0], c[1], c[2], c[3])
  {
    assert Payload(c, 2) == Extend(Payload(c, 1), c[1]);
    if |c| >= 3 { assert Payload(c, 3) == Extend(Payload(c, 2), c[2]); }
    if |c| >= 4 { assert Payload(c, 4) == Extend(Payload(c, 3), c[3]); }
  }

  predicate Encodes(cp: bv32, c: Text) { Scalar(cp) && RfcEncode(cp) == c }

  lemma LeadClasses(a: byte)
    ensures SequenceLength(a) == 1 <==> a <= 0x7F
    ensures SequenceLength(a) == 2 <==> 0xC0 <= a <= 0xDF
    ensures SequenceLength(a) == 3 <==> 0xE0 <= a <= 0xEF
    ensures SequenceLength(a) == 4 <==> 0xF0 <= a <= 0xF7
    ensures IsContinuationByte(a) <==> Tail(a)
    ensures Tail(a) ==> SequenceLength(a) == 0
  {}

  lemma Decode1(a: byte)
    requires a <= 0x7F
    ensures Lead(a, 1) <= 0x7F && (Lead(a, 1) & 0x7F) as byte == a
  {}

  lemma Decode2(a: byte, b: byte)
    requires 0xC0 <= a <= 0xDF && Tail(b)
    ensures var cp := Point2(a, b);
      && (cp < 0x80 <==> a < 0xC2) && cp <= 0x7FF
      && 0xC0 | ((cp >> 6) & 0x1F) as byte == a && 0x80 | (cp & 0x3F) as byte == b
  {}

  lemma Decode3(a: byte, b: byte, d: byte)
    requires 0xE0 <= a <= 0xEF && Tail(b) && Tail(d)
    ensures var cp := Point3(a, b, d);
      && (cp < 0x800 <==> a == 0xE0 && b < 0xA0) && cp <= 0xFFFF
      && (IsSurrogate(cp) <==> a == 0xED && b >= 0xA0)
      && 0xE0 | ((cp >> 12) & 0x0F) as byte == a && 0x80 | ((cp >> 6) & 0x3F) as byte == b
      && 0x80 | (cp & 0x3F) as byte == d
  {}

  lemma Decode4Range(a: byte, b: byte, d: byte, e: byte)
    requires 0xF0 <= a <= 0xF7 && Tail(b) && Tail(d) && Tail(e)
    ensures Point4(a, b, d, e) < 0x10000 <==> a == 0xF0 && b < 0x90
    ensures Point4(a, b, d, e) <= 0x10FFFF <==> a < 0xF4 || (a == 0xF4 && b <= 0x8F)
  {
    assert (a & 0x07) as bv32 == Lead(a, 4);
    assert Point4(a, b, d, e) ==
      ((((((a & 0x07) as bv32 << 6) | (b & 0x3F) as bv32) << 6) | (d & 0x3F) as bv32) << 6) | (e & 0x3F) as bv32;
  }

  lemma Decode4Octets(a: byte, b: byte, d: byte, e: byte)
    requires 0xF0 <= a <= 0xF7 && Tail(b) && Tail(d) && Tail(e)
    ensures var cp := Point4(a, b, d, e);
      && 0xF0 | ((cp >> 18) & 0x07) as byte == a && 0x80 | ((cp >> 12) & 0x3F) as byte == b
      && 0x80 | ((cp >> 6) & 0x3F) as byte == d && 0x80 | (cp & 0x3F) as byte == e
  {}

  lemma Encode1(cp: bv32)
    requires cp <= 0x7F
    ensures (cp & 0x7F) as byte <= 0x7F && Lead((cp & 0x7F) as byte, 1) == cp
  {}

  lemma Encode2(cp: bv32)
    requires 0x80 <= cp <= 0x7FF
    ensures var a, b := 0xC0 | ((cp >> 6) & 0x1F) as byte, 0x80 | (cp & 0x3F) as byte;
      0xC2 <= a <= 0xDF && Tail(b) && Point2(a, b) == cp
  {}

  lemma Encode3(cp: bv32)
    requires 0x800 <= cp <= 0xFFFF && !IsSurrogate(cp)
    ensures var a, b, d := 0xE0 | ((cp >> 12) & 0x0F) as byte, 0x80 | ((cp >> 6) & 0x3F) as byte, 0x80 | (cp & 0x3F) as byte;
      0xE0 <= a <= 0xEF && Tail(b) && Tail(d) && (a == 0xE0 ==> 0xA0 <= b) && (a == 0xED ==> b <= 0x9F) && Point3(a, b, d) == cp
  {}

  lemma Encode4Octets(cp: bv32)
    requires 0x10000 <= cp <= 0x10FFFF
    ensures var a, b, d, e := 0xF0 | ((cp >> 18) & 0x07) as byte, 0x80 | ((cp >> 12) & 0x3F) as byte,
                              0x80 | ((cp >> 6) & 0x3F) as byte, 0x80 | (cp & 0x3F) as byte;
      && 0xF0 <= a <= 0xF4 && Tail(b) && Tail(d) && Tail(e)
      && (a == 0xF0 ==> 0x90 <= b) && (a == 0xF4 ==> b <= 0x8F)
  {}

  lemma Encode4Point(cp: bv32)
    requires 0x10000 <= cp <= 0x10FFFF
    ensures Point4(0xF0 | ((cp >> 18) & 0x07) as byte, 0x80 | ((cp >> 12) & 0x3F) as byte,
                   0x80 | ((cp >> 6) & 0x3F) as byte, 0x80 | (cp & 0x3F) as byte) == cp
  {}

  /** The mask tests accept exactly the UTF8-char rule of section 4 of RFC 3629. */
  lemma DecoderMeetsGrammar(c: Text)
    ensures Decodes(c) <==> RfcChar(c)
  {
    if 1 <= |c| <= 4 {
      LeadClasses(c[0]);
      if |c| == 1 {
        if c[0] <= 0x7F { Decode1(c[0]); }
      } else {
        PayloadUnfolds(c);
        LeadClasses(c[1]);
        if |c| >= 3 { LeadClasses(c[2]); }
        if |c| == 4 { LeadClasses(c[3]); }
        if SequenceLength(c[0]) == |c| && Tail(c[1]) && (|c| >= 3 ==> Tail(c[2])) && (|c| == 4 ==> Tail(c[3])) {
          if |c| == 2 { Decode2(c[0], c[1]); }
          else if |c| == 3 { Decode3(c[0], c[1], c[2]); }
          else { Decode4Range(c[0], c[1], c[2], c[3]); }
        }
      }
    }
  }

  lemma EncodeDecode1(a: byte)
    requires RfcChar([a])
    ensures Encodes(Lead(a, 1), [a])
  {
    Decode1(a);
  }

  lemma EncodeDecode2(a: byte, b: byte)
    requires RfcChar([a, b])
    ensures Encodes(Point2(a, b), [a, b])
  {
    Decode2(a, b);
  }

  lemma EncodeDecode3(a: byte, b: byte, d: byte)
    requires RfcChar([a, b, d])
    ensures Encodes(Point3(a, b, d), [a, b, d])
  {
    Decode3(a, b, d);
  }

  lemma EncodeDecode4(a: byte, b: byte, d: byte, e: byte)
    requires RfcChar([a, b, d, e])
    ensures Encodes(Point4(a, b, d, e), [a, b, d, e])
  {
    Decode4Range(a, b, d, e);
    Decode4Octets(a, b, d, e);
  }

  /** Decoding a character and encoding the code point gives the same octets back. */
  lemma EncodeDecode(c: Text)
    requires RfcChar(c)
    ensures Encodes(CodePoint(c), c)
  {
    if |c| > 1 { PayloadUnfolds(c); }
    hide Encodes;
    if |c| == 1 { assert c == [c[0]]; EncodeDecode1(c[0]); }
    else if |c| == 2 { assert c == [c[0], c[1]]; EncodeDecode2(c[0], c[1]); }
    else if |c| == 3 { assert c == [c[0], c[1], c[2]]; EncodeDecode3(c[0], c[1], c[2]); }
    else { assert c == [c[0], c[1], c[2], c[3]]; EncodeDecode4(c[0], c[1], c[2], c[3]); }
  }

  /** Encoding a scalar value and decoding the octets gives the same value back. */
  lemma DecodeEncode(cp: bv32)
    requires Scalar(cp)
    ensures RfcChar(RfcEncode(cp)) && CodePoint(RfcEncode(cp)) == cp
  {
    var c := RfcEncode(cp);
    if |c| == 1 { Encode1(cp); }
    else {
      PayloadUnfolds(c);
      if |c| == 2 { Encode2(cp); }
      else if |c| == 3 { Encode3(cp); }
      else { Encode4Octets(cp); Encode4Point(cp); }
    }
  }

  // ---------------------------------------------------------------- whole texts

  /** The length of the character a text begins with, 0 when it begins with none. */
  function CharLength(s: Text): nat {
    if |s| >= 1 && RfcChar(s[..1]) then 1
    else if |s| >= 2 && RfcChar(s[..2]) then 2
    else if |s| >= 3 && RfcChar(s[..3]) then 3
    else if |s| >= 4 && RfcChar(s[..4]) then 4
    else 0
  }

  predicate Valid(s: Text) {
    s == [] || (CharLength(s) > 0 && Valid(s[CharLength(s)..]))
  }

  function Sanitized(s: Text): Text {
    if s == [] then []
    else if CharLength(s) == 0 then REPLACEMENT + Sanitized(s[1..])
    else s[..CharLength(s)] + Sanitized(s[CharLength(s)..])
  }

  lemma CharLengthIs(s: Text, n: nat)
    requires 1 <= n <= |s| && RfcChar(s[..n])
    ensures CharLength(s) == n
  {
    assert forall k | 1 <= k <= |s| && k <= 4 :: s[..k][0] == s[0];
  }

  method ValidSequenceLength(text: Text, index: nat) returns (r: Option<nat>)
    requires index < |text|
    ensures r.None? <==> forall n | 1 <= n <= |text| - index :: !RfcChar(text[index..][..n])
    ensures r.Some? ==> 1 <= r.value <= |text| - index && RfcChar(text[index..][..r.value])
    ensures r == if CharLength(text[index..]) == 0 then None else Some(CharLength(text[index..]))
  {
    ghost var rest := text[index..];
    var length := SequenceLength(text[index]);
    forall n | 1 <= n <= |rest| && RfcChar(rest[..n]) ensures n == length && CharLength(rest) == n {
      DecoderMeetsGrammar(rest[..n]);
      CharLengthIs(rest, n);
    }
    if length == 0 || index + length > |text| {
      return None;
    }
    var offset := 1;
    while offset < length
      invariant 1 <= offset <= length
      invariant forall i | 1 <= i < offset :: IsContinuationByte(rest[i])
    {
      if !IsContinuationByte(text[index + offset]) {
        assert rest[..length][offset] == text[index + offset];
        DecoderMeetsGrammar(rest[..length]);
        return None;
      }
      offset := offset + 1;
    }
    assert text[index..index + length] == rest[..length];
    var cp := DecodeCodePoint(text, index, length);
    DecoderMeetsGrammar(rest[..length]);
    assert Decodes(rest[..length]) <==> !(IsOverlong(length, cp) || IsSurrogate(cp) || cp > MAX_CODE_POINT);
    if IsOverlong(length, cp) || IsSurrogate(cp) || cp > MAX_CODE_POINT {
      return None;
    }
    assert RfcChar(rest[..length]);
    return Some(length);
  }

  method IsValidUtf8(text: Text) returns (r: bool)
    ensures r == Valid(text)
  {
    var index := 0;
    assert text[0..] == text;
    hide CharLength;
    while index < |text|
      invariant index <= |text|
      invariant Valid(text) == Valid(text[index..])
    {
      var length := ValidSequenceLength(text, index);
      if length == None { return false; }
      assert text[index..][length.value..] == text[index + length.value..];
      index := index + length.value;
    }
    return true;
  }

  method SanitizeUtf8(text: Text) returns (result: Text)
    ensures result == Sanitized(text)
  {
    result := [];
    var index := 0;
    assert text[0..] == text && [] + Sanitized(text) == Sanitized(text);
    while index < |text|
      invariant index <= |text|
      invariant result + Sanitized(text[index..]) == Sanitized(text)
    {
      ghost var rest := text[index..];
      var length := ValidSequenceLength(text, index);
      if length == None {
        assert rest[1..] == text[index + 1..];
        SeqAssoc(result, REPLACEMENT, Sanitized(rest[1..]));
        result := result + REPLACEMENT;
        index := index + 1;
        continue;
      }
      assert rest[length.value..] == text[index + length.value..];
      assert rest[..length.value] == text[index..index + length.value];
      SeqAssoc(result, rest[..length.value], Sanitized(rest[length.value..]));
      result := result + text[index..index + length.value];
      index := index + length.value;
    }
  }

  lemma {:induction false} ValidAppend(a: Text, b: Text)
    requires Valid(a)
    ensures Valid(a + b) == Valid(b)
  {
    if a == [] {
      assert a + b == b;
    } else {
      var n := CharLength(a);
      assert (a + b)[..n] == a[..n];
      CharLengthIs(a + b, n);
      hide CharLength;
      assert (a + b)[n..] == a[n..] + b;
      ValidAppend(a[n..], b);
    }
  }

  /** `Valid` is the UTF8-octets rule of section 4 of RFC 3629. */
  lemma {:induction false} ValidMeetsGrammar(s: Text)
    ensures Valid(s) <==> RfcOctets(s)
  {
    if Valid(s) {
      var cs := Characters(s);
    }
    if cs: seq<Text> :| AllChars(cs) && Flatten(cs) == s {
      FlattenIsValid(cs);
    }
  }

  lemma {:induction false} Characters(s: Text) returns (cs: seq<Text>)
    requires Valid(s)
    ensures AllChars(cs) && Flatten(cs) == s
  {
    if s == [] {
      cs := [];
    } else {
      var n := CharLength(s);
      var rest := Characters(s[n..]);
      cs := [s[..n]] + rest;
      assert cs[1..] == rest;
    }
  }

  lemma {:induction false} FlattenIsValid(cs: seq<Text>)
    requires AllChars(cs)
    ensures Valid(Flatten(cs))
  {
    if cs != [] {
      FlattenIsValid(cs[1..]);
      CharIsValid(cs[0]);
      ValidAppend(cs[0], Flatten(cs[1..]));
    }
  }

  lemma CharIsValid(c: Text)
    requires RfcChar(c)
    ensures Valid(c)
  {
    assert c[..|c|] == c;
    CharLengthIs(c, |c|);
  }

  /** Whatever it is given, the sanitizer answers text the validator accepts. */
  lemma {:induction false} SanitizedIsValid(s: Text)
    ensures Valid(Sanitized(s))
  {
    if s != [] {
      if CharLength(s) == 0 {
        SanitizedIsValid(s[1..]);
        CharIsValid(REPLACEMENT);
        ValidAppend(REPLACEMENT, Sanitized(s[1..]));
      } else {
        var n := CharLength(s);
        SanitizedIsValid(s[n..]);
        CharIsValid(s[..n]);
        ValidAppend(s[..n], Sanitized(s[n..]));
      }
    }
  }

  /** The sanitizer changes a text exactly when the text is not valid. */
  lemma {:induction false} SanitizedIsIdentity(s: Text)
    ensures Sanitized(s) == s <==> Valid(s)
  {
    if Valid(s) {
      SanitizedKeepsValid(s);
    } else {
      SanitizedIsValid(s);
    }
  }

  lemma {:induction false} SanitizedKeepsValid(s: Text)
    requires Valid(s)
    ensures Sanitized(s) == s
  {
    if s != [] {
      SanitizedKeepsValid(s[CharLength(s)..]);
    }
  }

  lemma SanitizedIsIdempotent(s: Text)
    ensures Sanitized(Sanitized(s)) == Sanitized(s)
  {
    SanitizedIsValid(s);
    SanitizedKeepsValid(Sanitized(s));
  }

  // ---------------------------------------------------------------- cut texts

  /** How many continuation bytes a text ends with. */
  function TrailingTails(s: Text): (n: nat)
    ensures n <= |s|
  {
    if s != [] && IsContinuationByte(s[|s| - 1]) then 1 + TrailingTails(s[..|s| - 1]) else 0
  }

  /** The test the source makes: the last lead byte asks for more bytes than follow it. */
  predicate EndsPartial(s: Text) {
    s != [] && (TrailingTails(s) == |s| || AsksForMore(s[|s| - TrailingTails(s) - 1], TrailingTails(s) + 1))
  }

  predicate AsksForMore(lead: byte, held: nat) { SequenceLength(lead) > 1 && held < SequenceLength(lead) }

  method EndsWithPartialSequence(text: Text) returns (r: bool)
    ensures r == EndsPartial(text)
  {
    if |text| == 0 { return false; }
    var index := |text|;
    assert text[..index] == text;
    while index > 0 && IsContinuationByte(text[index - 1])
      invariant 0 <= index <= |text|
      invariant TrailingTails(text) == |text| - index + TrailingTails(text[..index])
    {
      assert text[..index][..index - 1] == text[..index - 1];
      index := index - 1;
    }
    if index == 0 { return true; }
    var length := SequenceLength(text[index - 1]);
    if length <= 1 { return false; }
    return |text| - (index - 1) < length;
  }

  lemma {:induction false} TailsOfAppend(a: Text, b: Text)
    requires b != [] && TrailingTails(b) < |b|
    ensures TrailingTails(a + b) == TrailingTails(b)
  {
    var s := a + b;
    assert s[|s| - 1] == b[|b| - 1];
    if IsContinuationByte(b[|b| - 1]) {
      assert s[..|s| - 1] == a + b[..|b| - 1];
      TailsOfAppend(a, b[..|b| - 1]);
    }
  }

  /** A nonempty beginning of a character: the lead byte, then continuation bytes. */
  lemma {:induction false} TailsOfCharPrefix(c: Text, k: nat)
    requires RfcChar(c) && 1 <= k <= |c|
    ensures TrailingTails(c[..k]) == k - 1 && SequenceLength(c[0]) == |c|
  {
    DecoderMeetsGrammar(c);
    LeadClasses(c[0]);
    if k > 1 {
      assert c[..k][..k - 1] == c[..k - 1];
      TailsOfCharPrefix(c, k - 1);
      assert IsContinuationByte(c[k - 1]);
    } else {
      assert c[..1][..0] == [];
    }
  }

  lemma CharPrefixIsInvalid(c: Text, k: nat)
    requires RfcChar(c) && 1 <= k < |c|
    ensures CharLength(c[..k]) == 0
  {
    assert c[..|c|] == c;
    CharLengthIs(c, |c|);
    var n := CharLength(c[..k]);
    assert c[..k][..n] == c[..n];
    if n > 0 {
      CharLengthIs(c, n);
    }
  }

  /** For a beginning of valid text, the partial-sequence test says exactly whether it is cut. */
  lemma {:induction false} PartialMeetsValid(s: Text, k: nat)
    requires Valid(s) && k <= |s|
    ensures EndsPartial(s[..k]) <==> !Valid(s[..k])
  {
    if k > 0 {
      var n := CharLength(s);
      if k < n {
        CutCharacter(s[..n], k);
        TakeTake(s, k, n);
      } else {
        TakeSplit(s, n, k);
        CharIsValid(s[..n]);
        PartialMeetsValid(s[n..], k - n);
        PartialOfAppend(s[..n], s[n..], k - n);
        hide Valid, EndsPartial;
        ValidAppend(s[..n], s[n..][..k - n]);
      }
    }
  }

  lemma CutCharacter(c: Text, k: nat)
    requires RfcChar(c) && 1 <= k < |c|
    ensures EndsPartial(c[..k]) && !Valid(c[..k])
  {
    TailsOfCharPrefix(c, k);
    CharPrefixIsInvalid(c, k);
  }

  lemma PartialDecidedByEnd(s: Text, b: Text, n: nat)
    requires b != [] && n < |b| <= |s| && s[|s| - n - 1] == b[|b| - n - 1]
    requires TrailingTails(s) == TrailingTails(b) == n
    ensures EndsPartial(s) <==> EndsPartial(b)
  {
    hide TrailingTails, AsksForMore;
  }

  lemma PartialOfNamedAppend(a: Text, b: Text, s: Text, n: nat)
    requires b != [] && n < |b| && s == a + b && TrailingTails(s) == TrailingTails(b) == n
    ensures EndsPartial(s) <==> EndsPartial(b)
  {
    CountedFromEnd(a, b, n);
    hide TrailingTails;
    hide EndsPartial;
    PartialDecidedByEnd(s, b, n);
  }

  /** Only the last character decides, once the end holds a lead byte of its own. */
  lemma PartialIgnoresFront(a: Text, b: Text)
    requires b != [] && TrailingTails(b) < |b|
    ensures EndsPartial(a + b) <==> EndsPartial(b)
  {
    PartialOfNamedAppend(a, b, a + b, TrailingTails(b)) by {
      TailsOfAppend(a, b);
    }
  }

  lemma PartialOfAppend(c: Text, rest: Text, k: nat)
    requires RfcChar(c) && Valid(rest) && k <= |rest|
    ensures EndsPartial(c + rest[..k]) <==> EndsPartial(rest[..k])
  {
    if k == 0 {
      assert c + rest[..k] == c && c[..|c|] == c;
      TailsOfCharPrefix(c, |c|);
    } else {
      ValidStartsNoTail(rest);
      hide Valid, RfcChar, EndsPartial;
      NotAllTails(rest[..k]);
      PartialIgnoresFront(c, rest[..k]);
    }
  }

  lemma ValidStartsNoTail(s: Text)
    requires Valid(s) && s != []
    ensures !IsContinuationByte(s[0])
  {
    var c := s[..CharLength(s)];
    assert c[0] == s[0];
    LeadClasses(s[0]);
    DecoderMeetsGrammar(c);
  }

  lemma {:induction false} NotAllTails(s: Text)
    requires s != [] && !IsContinuationByte(s[0])
    ensures TrailingTails(s) < |s|
  {
    if |s| > 1 {
      NotAllTails(s[..|s| - 1]);
    }
  }

  /** Valid text stays valid on both sides of a cut after an ASCII byte. */
  lemma {:induction false} CutAfterAscii(s: Text, k: nat)
    requires Valid(s) && 1 <= k <= |s| && s[k - 1] <= 0x7F
    ensures Valid(s[..k]) && Valid(s[k..])
  {
    PartialMeetsValid(s, k);
    LeadClasses(s[k - 1]);
    assert s[..k] + s[k..] == s;
    ValidAppend(s[..k], s[k..]);
  }

  /** Valid text stays valid on both sides of a cut before anything but a continuation byte. */
  lemma {:induction false} CutBeforeCharacter(s: Text, k: nat)
    requires Valid(s) && k < |s| && !IsContinuationByte(s[k])
    ensures Valid(s[..k]) && Valid(s[k..])
  {
    if k == 0 {
      assert s[0..] == s;
    } else {
      var n := CharLength(s);
      if k < n {
        TailsAreContinuations(s[..n], k);
      } else {
        CharIsValid(s[..n]);
        TakeSplit(s, n, k);
        DropDrop(s, n, k - n);
        if k > n {
          assert s[n..][k - n] == s[k];
        }
        CutBeforeCharacter(s[n..], k - n);
        hide Valid;
        ValidAppend(s[..n], s[n..][..k - n]);
      }
    }
  }

  lemma TailsAreContinuations(c: Text, i: nat)
    requires RfcChar(c) && 1 <= i < |c|
    ensures IsContinuationByte(c[i])
  {
    LeadClasses(c[i]);
  }
}
