/** The UTF-8 scanner of the help printer: decoding loops, word boundaries, display widths. */
module Utf8 {

  type Byte = bv8
  type Bytes = seq<Byte>
  type CodePoint = bv32

  // ---------------------------------------------------------------------------------------------
  // Encoding, as RFC 3629 defines it (section 3)

  predicate IsScalar(cp: CodePoint) {
    cp < 0xD800 || 0xDFFF < cp <= 0x10FFFF
  }

  function Encode(cp: CodePoint): (s: Bytes)
    requires IsScalar(cp)
    ensures s != []
  {
    if cp < 0x80 then [cp as bv8]
    else if cp < 0x800 then [Lead2(cp), Tail(cp)]
    else if cp < 0x1_0000 then [Lead3(cp), Tail(cp >> 6), Tail(cp)]
    else [Lead4(cp), Tail(cp >> 12), Tail(cp >> 6), Tail(cp)]
  }

  function Lead2(cp: CodePoint): Byte
    requires cp < 0x800
  {
    0xC0 | ((cp >> 6) as bv8)
  }

  function Lead3(cp: CodePoint): Byte
    requires cp < 0x1_0000
  {
    0xE0 | ((cp >> 12) as bv8)
  }

  function Lead4(cp: CodePoint): Byte
    requires cp <= 0x10FFFF
  {
    0xF0 | ((cp >> 18) as bv8)
  }

  function Tail(cp: CodePoint): Byte {
    0x80 | ((cp & 0x3F) as bv8)
  }

  function EncodeAll(cps: seq<CodePoint>): Bytes
    requires forall i :: 0 <= i < |cps| ==> IsScalar(cps[i])
  {
    if cps == [] then [] else Encode(cps[0]) + EncodeAll(cps[1..])
  }

  // ---------------------------------------------------------------------------------------------
  // Decoding, as the code does it

  // One turn of the decoding loops: the code point, if there is one, and how many bytes it took.
  datatype Decoded = Decoded(valid: bool, cp: CodePoint, size: nat)

  function Six(b: Byte): CodePoint {
    (b & 0x3F) as bv32
  }

  function Value2(b: Byte, t: Byte): CodePoint {
    (((b & 0x1F) as bv32) << 6) | Six(t)
  }

  function Value3(b: Byte, t: Byte, u: Byte): CodePoint {
    (((b & 0x0F) as bv32) << 12) | (Six(t) << 6) | Six(u)
  }

  function Value4(b: Byte, t: Byte, u: Byte, v: Byte): CodePoint {
    (((b & 0x07) as bv32) << 18) | (Six(t) << 12) | (Six(u) << 6) | Six(v)
  }

  function DecodeFirst(s: Bytes): (d: Decoded)
    requires s != []
    ensures 0 < d.size <= |s|
  {
    var b := s[0];
    if b < 0x80 then Decoded(true, b as bv32, 1)
    else if b < 0xE0 then
      if |s| > 1 then Decoded(true, Value2(b, s[1]), 2) else Decoded(false, 0, 1)
    else if b < 0xF0 then
      if |s| > 2 then Decoded(true, Value3(b, s[1], s[2]), 3) else Decoded(false, 0, 1)
    else if b < 0xF8 then
      if |s| > 3 then Decoded(true, Value4(b, s[1], s[2], s[3]), 4)
      else Decoded(false, 0, 1)
    else Decoded(false, 0, 1)
  }

  function Decode(s: Bytes): seq<CodePoint>
    decreases |s|
  {
    if s == [] then []
    else
      var d := DecodeFirst(s);
      (if d.valid then [d.cp] else []) + Decode(s[d.size..])
  }

  // The decoding loops never run into a truncated or illegal sequence.
  predicate Complete(s: Bytes)
    decreases |s|
  {
    s == [] || (DecodeFirst(s).valid && Complete(s[DecodeFirst(s).size..]))
  }

  lemma Bits2(cp: CodePoint)
    requires 0x80 <= cp < 0x800
    ensures 0x80 <= Lead2(cp) < 0xE0 && Value2(Lead2(cp), Tail(cp)) == cp
  {
  }

  lemma Bits3(cp: CodePoint)
    requires cp < 0x1_0000
    ensures 0xE0 <= Lead3(cp) < 0xF0 && Value3(Lead3(cp), Tail(cp >> 6), Tail(cp)) == cp
  {
  }

  lemma Bits4(cp: CodePoint)
    requires cp <= 0x10FFFF
    ensures 0xF0 <= Lead4(cp) < 0xF8 && Value4(Lead4(cp), Tail(cp >> 12), Tail(cp >> 6), Tail(cp)) == cp
  {
  }

  lemma Decode2(b: Byte, t: Byte, rest: Bytes)
    requires 0x80 <= b < 0xE0
    ensures DecodeFirst([b, t] + rest) == Decoded(true, Value2(b, t), 2)
  {
    hide Value2;
  }

  lemma Decode3(b: Byte, t: Byte, u: Byte, rest: Bytes)
    requires 0xE0 <= b < 0xF0
    ensures DecodeFirst([b, t, u] + rest) == Decoded(true, Value3(b, t, u), 3)
  {
    hide Value3;
  }

  lemma Decode4(b: Byte, t: Byte, u: Byte, v: Byte, rest: Bytes)
    requires 0xF0 <= b < 0xF8
    ensures DecodeFirst([b, t, u, v] + rest) == Decoded(true, Value4(b, t, u, v), 4)
  {
    hide Value4;
  }

  lemma DecodeAscii(cp: CodePoint, rest: Bytes)
    requires cp < 0x80
    ensures DecodeFirst([cp as bv8] + rest) == Decoded(true, cp, 1)
  {
  }

  // The decoder reads back what the encoder wrote.
  lemma DecodeEncoded(cp: CodePoint, rest: Bytes)
    requires IsScalar(cp)
    ensures DecodeFirst(Encode(cp) + rest) == Decoded(true, cp, |Encode(cp)|)
  {
    hide DecodeFirst, Lead2, Lead3, Lead4, Tail, Value2, Value3, Value4;
    if cp < 0x80 {
      DecodeAscii(cp, rest);
    } else if cp < 0x800 {
      Bits2(cp);
      Decode2(Lead2(cp), Tail(cp), rest);
    } else if cp < 0x1_0000 {
      Bits3(cp);
      Decode3(Lead3(cp), Tail(cp >> 6), Tail(cp), rest);
    } else {
      Bits4(cp);
      Decode4(Lead4(cp), Tail(cp >> 12), Tail(cp >> 6), Tail(cp), rest);
    }
  }

  predicate AllScalar(cps: seq<CodePoint>) {
    forall i :: 0 <= i < |cps| ==> IsScalar(cps[i])
  }

  /** Valid UTF-8 decodes to the code points it encodes, in order and without an ignored byte. */
  lemma {:induction false} DecodeAll(cps: seq<CodePoint>)
    requires AllScalar(cps)
    ensures Decode(EncodeAll(cps)) == cps && Complete(EncodeAll(cps))
    decreases |cps|
  {
    if cps != [] {
      hide Encode, DecodeFirst;
      var rest := EncodeAll(cps[1..]);
      DecodeAll(cps[1..]);
      DecodeEncoded(cps[0], rest);
      assert EncodeAll(cps)[|Encode(cps[0])|..] == rest;
      assert cps == [cps[0]] + cps[1..];
    }
  }

  lemma EncodeTwo(a: CodePoint, b: CodePoint)
    requires IsScalar(a) && IsScalar(b)
    ensures AllScalar([a, b]) && EncodeAll([a, b]) == Encode(a) + Encode(b)
  {
    hide Encode;
    assert [a, b][1..] == [b] && [b][1..] == [];
    assert EncodeAll([b]) == Encode(b) + EncodeAll([]);
  }

  /** The examples of RFC 3629 (section 7): characters of one, two, three and four bytes. */
  lemma StandardExamples()
    ensures EncodeAll([0x41, 0x2262]) == [0x41, 0xE2, 0x89, 0xA2]
    ensures EncodeAll([0x391, 0x2E]) == [0xCE, 0x91, 0x2E]
    ensures EncodeAll([0x65E5, 0x672C]) == [0xE6, 0x97, 0xA5, 0xE6, 0x9C, 0xAC]
    ensures EncodeAll([0xFEFF, 0x233B4]) == [0xEF, 0xBB, 0xBF, 0xF0, 0xA3, 0x8E, 0xB4]
  {
    EncodeTwo(0x41, 0x2262);
    EncodeTwo(0x391, 0x2E);
    EncodeTwo(0x65E5, 0x672C);
    EncodeTwo(0xFEFF, 0x233B4);
  }

  // ---------------------------------------------------------------------------------------------
  // Splitting between code points

  lemma FirstOfAppend(a: Bytes, b: Bytes)
    requires a != [] && DecodeFirst(a).valid
    ensures DecodeFirst(a + b) == DecodeFirst(a)
  {
    hide Value2, Value3, Value4;
  }

  lemma DecodeStep(s: Bytes)
    requires s != []
    ensures var d := DecodeFirst(s);
      && Decode(s) == (if d.valid then [d.cp] else []) + Decode(s[d.size..])
      && (Complete(s) <==> d.valid && Complete(s[d.size..]))
  {
    hide DecodeFirst;
  }

  lemma DecodeNothing()
    ensures Decode([]) == [] && Complete([])
  {
  }

  lemma {:induction false} DecodeAppend(a: Bytes, b: Bytes)
    requires Complete(a)
    ensures Decode(a + b) == Decode(a) + Decode(b)
    ensures Complete(a + b) <==> Complete(b)
    decreases |a|
  {
    hide DecodeFirst, Decode, Complete;
    if a == [] {
      DecodeNothing();
      assert a + b == b;
    } else {
      DecodeStep(a);
      DecodeStep(a + b);
      FirstOfAppend(a, b);
      var d := DecodeFirst(a);
      var rest := a[d.size..];
      assert (a + b)[d.size..] == rest + b;
      DecodeAppend(rest, b);
      assert [d.cp] + (Decode(rest) + Decode(b)) == [d.cp] + Decode(rest) + Decode(b);
    }
  }

  // ---------------------------------------------------------------------------------------------
  // Valid UTF-8

  predicate WellFormed(s: Bytes)
    decreases |s|
  {
    s == [] || (Leads(s) && WellFormed(s[DecodeFirst(s).size..]))
  }

  // The text starts with the encoding of a scalar value.
  predicate Leads(s: Bytes)
    requires s != []
  {
    var d := DecodeFirst(s);
    d.valid && IsScalar(d.cp) && s[..d.size] == Encode(d.cp)
  }

  /** The predicate accepts exactly the encodings of sequences of scalar values. */
  lemma {:induction false} EncodedIsWellFormed(cps: seq<CodePoint>)
    requires AllScalar(cps)
    ensures WellFormed(EncodeAll(cps))
    decreases |cps|
  {
    if cps != [] {
      hide Encode, DecodeFirst;
      var rest := EncodeAll(cps[1..]);
      EncodedIsWellFormed(cps[1..]);
      DecodeEncoded(cps[0], rest);
      var s := Encode(cps[0]) + rest;
      assert s[|Encode(cps[0])|..] == rest && s[..|Encode(cps[0])|] == Encode(cps[0]);
    }
  }

  lemma EncodeFirst(cp: CodePoint, rest: seq<CodePoint>)
    requires IsScalar(cp) && AllScalar(rest)
    ensures AllScalar([cp] + rest) && EncodeAll([cp] + rest) == Encode(cp) + EncodeAll(rest)
  {
    hide Encode;
    assert ([cp] + rest)[1..] == rest;
  }

  lemma {:induction false} WellFormedIsEncoded(s: Bytes)
    requires WellFormed(s)
    ensures Complete(s) && AllScalar(Decode(s)) && EncodeAll(Decode(s)) == s
    decreases |s|
  {
    hide Encode, DecodeFirst, EncodeAll;
    if s == [] {
      assert EncodeAll([]) == [] by { EncodeNothing(); }
    } else {
      var d := DecodeFirst(s);
      var rest := s[d.size..];
      WellFormedIsEncoded(rest);
      EncodeFirst(d.cp, Decode(rest));
      assert s == s[..d.size] + rest;
    }
  }

  lemma EncodeNothing()
    ensures EncodeAll([]) == []
  {
  }

  // In valid UTF-8 a newline is the newline byte and nothing else.
  lemma NewlineByte(s: Bytes)
    requires s != [] && WellFormed(s)
    ensures DecodeFirst(s).cp == NEWLINE <==> s[0] == 0x0A
    ensures s[0] == 0x0A ==> DecodeFirst(s) == Decoded(true, NEWLINE, 1) && WellFormed(s[1..])
  {
    hide Value2, Value3, Value4, Lead2, Lead3, Lead4, Tail;
    var d := DecodeFirst(s);
    if d.cp == NEWLINE {
      assert s[..d.size][0] == 0x0A;
    }
  }

  /** A turn of the wrapping loop in front of something else than a newline byte passes over a word and the
      space behind it. It moves on unless the code point there reads as a newline all the same. */
  lemma TurnStandsStill(s: Bytes)
    requires s != [] && s[0] != 0x0A
    ensures var word := Extent(true, s);
      word + Extent(false, s[word..]) == 0 <==> DecodeFirst(s).valid && DecodeFirst(s).cp == NEWLINE
  {
    hide DecodeFirst;
    assert s[0..] == s;
  }

  /** So it always moves on in valid UTF-8, and it stands still at a two-byte spelling of the newline. */
  lemma OverlongNewlineStalls(rest: Bytes)
    ensures var s := [0xC0, 0x8A] + rest;
      s[0] != 0x0A && Extent(true, s) == 0 && Extent(false, s) == 0 && !WellFormed(s)
  {
    var s := [0xC0, 0x8A] + rest;
    Decode2(0xC0, 0x8A, rest);
    assert Value2(0xC0, 0x8A) == NEWLINE;
    hide DecodeFirst, Value2;
    assert DecodeFirst(s).cp == NEWLINE;
    if WellFormed(s) {
      NewlineByte(s);
    }
  }

  lemma ValidTurnsMove(s: Bytes)
    requires s != [] && s[0] != 0x0A && WellFormed(s)
    ensures var word := Extent(true, s); word + Extent(false, s[word..]) > 0
  {
    hide DecodeFirst, Extent;
    NewlineByte(s);
    TurnStandsStill(s);
  }

  lemma DecodeOne(s: Bytes)
    requires s != [] && DecodeFirst(s).valid
    ensures var d := DecodeFirst(s); Complete(s[..d.size]) && Decode(s[..d.size]) == [d.cp]
  {
    var d := DecodeFirst(s);
    FirstOfPrefix(s);
    hide DecodeFirst;
    assert s[..d.size][d.size..] == [];
  }

  lemma FirstOfPrefix(s: Bytes)
    requires s != [] && DecodeFirst(s).valid
    ensures DecodeFirst(s[..DecodeFirst(s).size]) == DecodeFirst(s)
  {
    hide Value2, Value3, Value4;
  }

  // ---------------------------------------------------------------------------------------------
  // The decoding loops, one turn at a time

  function ByteAt(s: Bytes, i: nat): Byte {
    if i < |s| then s[i] else 0
  }

  // DECODE_UTF8: the text ends at `size`.
  method NextSized(s: Bytes, size: nat, start: nat) returns (d: Decoded)
    requires start < size <= |s|
    ensures d == DecodeFirst(s[start..size])
  {
    hide Value2, Value3, Value4;
    var index := start + 1;
    var byte1 := s[start];
    if byte1 < 0x80 {
      d := Decoded(true, byte1 as bv32, 1);
    } else if byte1 < 0xE0 {
      d := if index < size then Decoded(true, Value2(byte1, s[index]), 2) else Decoded(false, 0, 1);
    } else if byte1 < 0xF0 {
      d := if index + 1 < size then Decoded(true, Value3(byte1, s[index], s[index + 1]), 3) else Decoded(false, 0, 1);
    } else if byte1 < 0xF8 {
      d := if index + 2 < size then Decoded(true, Value4(byte1, s[index], s[index + 1], s[index + 2]), 4)
           else Decoded(false, 0, 1);
    } else {
      d := Decoded(false, 0, 1);
    }
  }

  // DECODE_UTF8Z: the text ends at its NUL byte.
  method NextZ(s: Bytes, start: nat) returns (d: Decoded)
    requires start < |s| && 0 !in s
    ensures d == DecodeFirst(s[start..])
  {
    hide Value2, Value3, Value4;
    var index := start + 1;
    var byte1 := s[start];
    if byte1 < 0x80 {
      d := Decoded(true, byte1 as bv32, 1);
    } else if byte1 < 0xE0 {
      d := if ByteAt(s, index) != 0 then Decoded(true, Value2(byte1, s[index]), 2) else Decoded(false, 0, 1);
    } else if byte1 < 0xF0 {
      d := if ByteAt(s, index) != 0 && ByteAt(s, index + 1) != 0
           then Decoded(true, Value3(byte1, s[index], s[index + 1]), 3) else Decoded(false, 0, 1);
    } else if byte1 < 0xF8 {
      d := if ByteAt(s, index) != 0 && ByteAt(s, index + 1) != 0 && ByteAt(s, index + 2) != 0
           then Decoded(true, Value4(byte1, s[index], s[index + 1], s[index + 2]), 4) else Decoded(false, 0, 1);
    } else {
      d := Decoded(false, 0, 1);
    }
  }

  // ---------------------------------------------------------------------------------------------
  // Words and spaces

  const NEWLINE: CodePoint := 0x0A

  predicate IsBreakingSpace(cp: CodePoint) {
    || cp == 0x20 || 0x09 <= cp <= 0x0D || cp == 0x2028 || cp == 0x2029
    || 0x2000 <= cp <= 0x200A || cp == 0x205F || cp == 0x3000
  }

  // Where a word stops, and where the space before a word or a newline stops.
  predicate EndsWord(cp: CodePoint) {
    IsBreakingSpace(cp)
  }

  predicate EndsSpace(cp: CodePoint) {
    !IsBreakingSpace(cp) || cp == NEWLINE
  }

  predicate Ends(word: bool, cp: CodePoint) {
    if word then EndsWord(cp) else EndsSpace(cp)
  }

  // How many bytes precede the first code point that ends a word (or a space).
  function Extent(word: bool, s: Bytes): (k: nat)
    ensures k <= |s|
    decreases |s|
  {
    if s == [] then 0
    else
      var d := DecodeFirst(s);
      if d.valid && Ends(word, d.cp) then 0 else d.size + Extent(word, s[d.size..])
  }

  predicate NoneEnds(word: bool, cps: seq<CodePoint>) {
    forall i :: 0 <= i < |cps| ==> !Ends(word, cps[i])
  }

  /** What was passed over ends nothing, what follows does, and the text is cut between code points. */
  lemma {:induction false} ExtentSplits(word: bool, s: Bytes)
    requires Complete(s)
    ensures var k := Extent(word, s);
      && Complete(s[..k]) && Complete(s[k..])
      && NoneEnds(word, Decode(s[..k]))
      && (k < |s| ==> Ends(word, DecodeFirst(s[k..]).cp))
    decreases |s|
  {
    hide DecodeFirst, Ends;
    var k := Extent(word, s);
    if k == 0 {
      assert s[..0] == [] && s[0..] == s;
    } else {
      var d := DecodeFirst(s);
      ExtentSplits(word, s[d.size..]);
      PassOver(word, s, Extent(word, s[d.size..]));
    }
  }

  lemma PassOver(word: bool, s: Bytes, j: nat)
    requires s != [] && Complete(s) && !Ends(word, DecodeFirst(s).cp)
    requires var rest := s[DecodeFirst(s).size..];
      j <= |rest| && Complete(rest[..j]) && NoneEnds(word, Decode(rest[..j]))
    ensures var k := DecodeFirst(s).size + j;
      && k <= |s| && s[k..] == s[DecodeFirst(s).size..][j..]
      && Complete(s[..k]) && NoneEnds(word, Decode(s[..k]))
  {
    hide DecodeFirst, Ends;
    var d := DecodeFirst(s);
    var first, front := s[..d.size], s[d.size..][..j];
    DecodeOne(s);
    DecodeAppend(first, front);
    assert s[..d.size + j] == first + front;
  }

  lemma {:induction false} WellFormedRest(word: bool, s: Bytes)
    requires WellFormed(s)
    ensures WellFormed(s[Extent(word, s)..])
    decreases |s|
  {
    hide DecodeFirst, Ends, Encode;
    var k := Extent(word, s);
    if k == 0 {
      assert s[0..] == s;
    } else {
      var rest := s[DecodeFirst(s).size..];
      WellFormedRest(word, rest);
      assert s[k..] == rest[Extent(word, rest)..];
    }
  }

  // find_word_end() and find_word_start() differ in the test only.
  method Scan(word: bool, text: Bytes, start: nat) returns (index: nat)
    requires 0 !in text && start <= |text|
    ensures index == start + Extent(word, text[start..])
  {
    hide DecodeFirst, Ends;
    index := start;
    while ByteAt(text, index) != 0
      invariant start <= index <= |text|
      invariant index + Extent(word, text[index..]) == start + Extent(word, text[start..])
      decreases |text| - index
    {
      var d := NextZ(text, index);
      if d.valid && Ends(word, d.cp) {
        return;
      }
      assert text[index..][d.size..] == text[index + d.size..];
      index := index + d.size;
    }
    assert text[index..] == [];
  }

  method FindWordEnd(text: Bytes, start: nat) returns (index: nat)
    requires 0 !in text && start <= |text|
    ensures index == start + Extent(true, text[start..])
  {
    index := Scan(true, text, start);
  }

  method FindWordStart(text: Bytes, start: nat) returns (index: nat)
    requires 0 !in text && start <= |text|
    ensures index == start + Extent(false, text[start..])
  {
    index := Scan(false, text, start);
  }

  // ---------------------------------------------------------------------------------------------
  // Display width

  predicate IsZeroWidth(cp: CodePoint) {
    || cp <= 0x19 || 0x1A <= cp <= 0x1F || 0x7F <= cp <= 0x9F || cp == 0x200B
    || 0x20D0 <= cp <= 0x20FF || 0xFE20 <= cp <= 0xFE2F || 0x0591 <= cp <= 0x05C7
    || 0x0610 <= cp <= 0x06ED || 0x0300 <= cp <= 0x036F || 0x2028 <= cp <= 0x2029
    || 0x1AB0 <= cp <= 0x1AFF || 0x1DC0 <= cp <= 0x1DFF
  }

  function Width(cp: CodePoint): nat {
    if cp == 0x09 then 8
    else if 0x20 <= cp <= 0x7E then 1
    else if IsZeroWidth(cp) then 0
    else 1
  }

  function TotalWidth(cps: seq<CodePoint>): nat {
    if cps == [] then 0 else Width(cps[0]) + TotalWidth(cps[1..])
  }

  lemma {:induction false} TotalWidthAppend(a: seq<CodePoint>, b: seq<CodePoint>)
    ensures TotalWidth(a + b) == TotalWidth(a) + TotalWidth(b)
    decreases |a|
  {
    hide Width;
    if a == [] {
      assert a + b == b;
    } else {
      assert (a + b)[1..] == a[1..] + b;
      TotalWidthAppend(a[1..], b);
    }
  }

  function TextWidth(s: Bytes): nat {
    TotalWidth(Decode(s))
  }

  /** Widths add up over a split between code points. */
  lemma TextWidthAppend(a: Bytes, b: Bytes)
    requires Complete(a)
    ensures TextWidth(a + b) == TextWidth(a) + TextWidth(b)
  {
    DecodeAppend(a, b);
    TotalWidthAppend(Decode(a), Decode(b));
  }

  method CountGraphemes(text: Bytes, start: nat, end: nat) returns (count: nat)
    requires start <= end <= |text|
    ensures count == TextWidth(text[start..end])
  {
    hide DecodeFirst, Width;
    count := 0;
    var index := start;
    while index < end
      invariant start <= index <= end
      invariant count + TextWidth(text[index..end]) == TextWidth(text[start..end])
    {
      var d := NextSized(text, end, index);
      assert text[index..end][d.size..] == text[index + d.size..end];
      if d.valid {
        WidthFirst(d.cp, Decode(text[index + d.size..end]));
        count := count + Width(d.cp);
      } else {
        assert [] + Decode(text[index + d.size..end]) == Decode(text[index + d.size..end]);
      }
      index := index + d.size;
    }
    assert text[index..end] == [];
  }

  lemma WidthFirst(cp: CodePoint, rest: seq<CodePoint>)
    ensures TotalWidth([cp] + rest) == Width(cp) + TotalWidth(rest)
  {
    assert ([cp] + rest)[1..] == rest;
  }

  lemma OneCharacter(cp: CodePoint, rest: Bytes)
    requires IsScalar(cp)
    ensures Encode(cp) + rest != [] && DecodeFirst(Encode(cp) + rest) == Decoded(true, cp, |Encode(cp)|)
    ensures Decode(Encode(cp)) == [cp]
  {
    hide Encode;
    DecodeEncoded(cp, rest);
    DecodeEncoded(cp, []);
    assert Encode(cp) + [] == Encode(cp);
    hide DecodeFirst;
    assert Encode(cp)[|Encode(cp)|..] == [];
  }

  /**
   * Character by character: a tab is eight columns wide; control characters, combining marks, Hebrew and
   * Arabic points, the zero width space and the Unicode line ends take no room; everything else takes one
   * column.
   */
  lemma CharacterWidths(cp: CodePoint)
    requires IsScalar(cp)
    ensures TextWidth(Encode(cp)) ==
      if cp == 0x09 then 8
      else if cp < 0x20 || 0x7F <= cp < 0xA0 then 0
      else if 0x300 <= cp < 0x370 || 0x591 <= cp < 0x5C8 || 0x610 <= cp < 0x6EE then 0
      else if 0x1AB0 <= cp < 0x1B00 || 0x1DC0 <= cp < 0x1E00 then 0
      else if cp == 0x200B || cp == 0x2028 || cp == 0x2029 || 0x20D0 <= cp < 0x2100 || 0xFE20 <= cp < 0xFE30 then 0
      else 1
  {
    hide Encode, DecodeFirst;
    OneCharacter(cp, []);
    WidthFirst(cp, []);
    assert [cp] + [] == [cp];
  }

  /** A word ends, and the space behind it goes on, at ASCII white space and at the wide and line-ending spaces. */
  lemma BreakingCharacters(cp: CodePoint, rest: Bytes)
    requires IsScalar(cp)
    ensures var space := cp == 0x20 || 0x09 <= cp <= 0x0D || 0x2000 <= cp <= 0x200A || cp == 0x2028 || cp == 0x2029
        || cp == 0x205F || cp == 0x3000;
      && (Extent(true, Encode(cp) + rest) == 0 <==> space)
      && (Extent(false, Encode(cp) + rest) == 0 <==> !space || cp == 0x0A)
  {
    hide Encode, DecodeFirst;
    OneCharacter(cp, rest);
  }
}
