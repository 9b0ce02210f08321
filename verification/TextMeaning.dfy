/** What a reader of wrapped text gets: the same words and newlines, on lines that fit, under a
    hang that lists, columns and definitions decide. */
module TextMeaning {
  import opened Utf8
  import opened TextLines

  // ---------------------------------------------------------------------------------------------
  // Words and newlines

  datatype Token = Word(cps: seq<CodePoint>) | Newline

  // Tokens read so far, and the word that has not ended yet.
  datatype Reading = Reading(tokens: seq<Token>, word: seq<CodePoint>)

  function Close(r: Reading): Reading {
    if r.word == [] then r else Reading(r.tokens + [Word(r.word)], [])
  }

  function Read(r: Reading, cp: CodePoint): Reading {
    if cp == NEWLINE then Reading(Close(r).tokens + [Newline], [])
    else if IsBreakingSpace(cp) then Close(r)
    else r.(word := r.word + [cp])
  }

  function ReadAll(r: Reading, cps: seq<CodePoint>): Reading
    decreases |cps|
  {
    if cps == [] then r else ReadAll(Read(r, cps[0]), cps[1..])
  }

  function Tokens(s: Bytes): seq<Token> {
    Close(ReadAll(Reading([], []), Decode(s))).tokens
  }

  lemma {:induction false} ReadAppend(r: Reading, a: seq<CodePoint>, b: seq<CodePoint>)
    ensures ReadAll(r, a + b) == ReadAll(ReadAll(r, a), b)
    decreases |a|
  {
    hide Read;
    if a == [] {
      assert a + b == b;
    } else {
      assert (a + b)[1..] == a[1..] + b;
      ReadAppend(Read(r, a[0]), a[1..], b);
    }
  }

  function ReadText(r: Reading, s: Bytes): Reading {
    ReadAll(r, Decode(s))
  }

  lemma ReadTextAppend(r: Reading, a: Bytes, b: Bytes)
    requires Complete(a)
    ensures ReadText(r, a + b) == ReadText(ReadText(r, a), b)
  {
    hide ReadAll, Decode;
    DecodeAppend(a, b);
    ReadAppend(r, Decode(a), Decode(b));
  }

  // Space only ends the word in front of it.
  lemma {:induction false} ReadSpace(r: Reading, cps: seq<CodePoint>)
    requires NoneEnds(false, cps)
    ensures ReadAll(r, cps) == if cps == [] then r else Close(r)
    decreases |cps|
  {
    if cps != [] {
      assert !Ends(false, cps[0]);
      assert forall i :: 0 <= i < |cps[1..]| ==> cps[1..][i] == cps[i + 1];
      ReadSpace(Close(r), cps[1..]);
    }
  }

  lemma ReadSpaceText(r: Reading, s: Bytes)
    requires IsSpace(s)
    ensures ReadText(r, s) == if s == [] then r else Close(r)
  {
    hide ReadAll, DecodeFirst, NoneEnds, Close;
    ReadSpace(r, Decode(s));
  }

  lemma ReadOne(r: Reading, cp: CodePoint)
    ensures ReadAll(r, [cp]) == Read(r, cp)
  {
    hide Read;
    assert [cp][1..] == [];
  }

  lemma OneByte(b: Byte)
    requires b == LF || b == SPACE
    ensures Complete([b]) && Decode([b]) == [if b == LF then NEWLINE else 0x20]
  {
    var cp: CodePoint := if b == LF then NEWLINE else 0x20;
    DecodeAscii(cp, []);
    assert cp as bv8 == b && [b] + [] == [b];
    hide DecodeFirst;
    assert [b][1..] == [];
  }

  lemma ReadByte(r: Reading, b: Byte)
    requires b == LF || b == SPACE
    ensures Complete([b]) && ReadText(r, [b]) == if b == LF then Read(r, NEWLINE) else Close(r)
  {
    hide ReadAll, Decode, Complete, Close;
    OneByte(b);
    ReadOne(r, if b == LF then NEWLINE else 0x20);
  }

  // ---------------------------------------------------------------------------------------------
  // Line by line

  lemma NoSpaceNoWord(r: Reading, s: Bytes)
    requires IsSpace(s) && r.word == []
    ensures ReadText(r, s) == r
  {
    hide ReadAll, IsSpace;
    ReadSpaceText(r, s);
  }

  // The words of a line read alike in the text and in the output.
  lemma VisibleReads(linelen: nat, l: Line, r: Reading)
    requires Formed(linelen, l) && r.word == []
    ensures Complete(l.lead + Flat(l.pieces)) && Complete(Visible(l))
    ensures ReadText(r, Visible(l)) == ReadText(r, l.lead + Flat(l.pieces))
    ensures Spaced(l.pieces) ==> ReadText(r, Visible(l)).word == []
  {
    hide ReadText, Complete, Decode, NoneEnds, Flat, PiecesFormed, Hang, Margin, Spaces, Spaced;
    var flat := Flat(l.pieces);
    FlatComplete(l.pieces);
    DecodeAppend(l.lead, flat);
    DecodeAppend(l.margin, flat);
    ReadTextAppend(r, l.lead, flat);
    ReadTextAppend(r, l.margin, flat);
    NoSpaceNoWord(r, l.lead);
    NoSpaceNoWord(r, l.margin);
    if Spaced(l.pieces) {
      SpacedReads(l.pieces, r);
    }
  }

  lemma SpacedReads(pieces: seq<Piece>, r: Reading)
    requires PiecesFormed(pieces) && Spaced(pieces)
    ensures ReadText(r, Flat(pieces)).word == []
  {
    hide ReadText, Complete, Decode, NoneEnds, PiecesFormed, Flat;
    var front, last := pieces[..|pieces| - 1], pieces[|pieces| - 1];
    SpacedParts(pieces);
    ReadTextAppend(r, Flat(front) + last.word, last.gap);
    ReadSpaceText(ReadText(r, Flat(front) + last.word), last.gap);
  }

  lemma SpacedParts(pieces: seq<Piece>)
    requires PiecesFormed(pieces) && pieces != []
    ensures var front, last := pieces[..|pieces| - 1], pieces[|pieces| - 1];
      && Complete(Flat(front) + last.word) && IsSpace(last.gap)
      && Flat(pieces) == Flat(front) + last.word + last.gap
  {
    hide Complete, Decode, NoneEnds;
    var front, last := pieces[..|pieces| - 1], pieces[|pieces| - 1];
    FlatComplete(front);
    DecodeAppend(Flat(front), last.word);
  }

  // A line and its part of the text read the same, whatever stood before.
  lemma LineReads(linelen: nat, l: Line, r: Reading)
    requires Formed(linelen, l) && r.word == []
    ensures Complete(Shown(l, SPACE)) && Complete(Source(l))
    ensures Close(ReadText(r, Shown(l, SPACE))) == Close(ReadText(r, Source(l)))
    ensures l.end != Last ==>
      ReadText(r, Shown(l, SPACE)) == ReadText(r, Source(l)) && ReadText(r, Source(l)).word == []
  {
    hide ReadText, Complete, Decode, NoneEnds, Flat, PiecesFormed, Hang, Margin, Spaces, Spaced, Visible;
    VisibleReads(linelen, l, r);
    var words := l.lead + Flat(l.pieces);
    var done := ReadText(r, words);
    DecodeAppend(words, l.dropped);
    ReadTextAppend(r, words, l.dropped);
    ReadSpaceText(done, l.dropped);
    match l.end {
      case Last =>
        assert words + l.dropped + [] == words + l.dropped && Visible(l) + [] == Visible(l);
      case Hard =>
        EndReads(r, Visible(l), LF);
        EndReads(r, words + l.dropped, LF);
      case Soft =>
        EndReads(r, Visible(l), SPACE);
        assert words + l.dropped + [] == words + l.dropped;
    }
  }

  lemma EndReads(r: Reading, s: Bytes, b: Byte)
    requires Complete(s) && (b == LF || b == SPACE)
    ensures Complete(s + [b])
    ensures ReadText(r, s + [b]) == if b == LF then Read(ReadText(r, s), NEWLINE) else Close(ReadText(r, s))
  {
    hide ReadText, Decode, Read, Close, Complete;
    ReadByte(ReadText(r, s), b);
    DecodeAppend(s, [b]);
    ReadTextAppend(r, s, [b]);
  }

  const FRESH := Reading([], [])

  lemma {:induction false} LinesRead(linelen: nat, lines: seq<Line>, start: bool, hang: nat)
    requires Laid(linelen, lines, start, hang)
    ensures Complete(ShownAll(lines, SPACE)) && Complete(Sources(lines))
    ensures ReadText(FRESH, ShownAll(lines, SPACE)) == ReadText(FRESH, Sources(lines))
    ensures ReadText(FRESH, Sources(lines)).word == []
    decreases |lines|
  {
    hide ReadText, Complete, Decode, Formed, Shown, Source;
    if lines == [] {
      NothingComplete();
      NoSpaceNoWord(FRESH, []);
    } else {
      var front, l := lines[..|lines| - 1], lines[|lines| - 1];
      LinesRead(linelen, front, l.start, l.hang);
      var r := ReadText(FRESH, Sources(front));
      LineReads(linelen, l, r);
      ReadTextAppend(FRESH, ShownAll(front, SPACE), Shown(l, SPACE));
      ReadTextAppend(FRESH, Sources(front), Source(l));
      DecodeAppend(ShownAll(front, SPACE), Shown(l, SPACE));
      DecodeAppend(Sources(front), Source(l));
    }
  }

  /** Taking the newlines put in by wrapping for spaces, the output has exactly the words and the
      newlines of the text, in order. */
  lemma TokensKept(linelen: nat, lay: Layout)
    requires LaidOut(linelen, lay)
    ensures Tokens(OutputOf(lay, SPACE)) == Tokens(SourceOf(lay))
  {
    hide ReadAll, Complete, Decode, Formed, Shown, Source, Sources, ShownAll, Laid;
    LinesRead(linelen, lay.lines, lay.cur.start, lay.cur.hang);
    var r := ReadText(FRESH, Sources(lay.lines));
    LineReads(linelen, lay.cur, r);
    ReadTextAppend(FRESH, ShownAll(lay.lines, SPACE), Shown(lay.cur, SPACE));
    ReadTextAppend(FRESH, Sources(lay.lines), Source(lay.cur));
  }

  // Two texts that differ only where one has a newline and the other a space.
  predicate SameButSoft(a: Bytes, b: Bytes) {
    |a| == |b| && forall i :: 0 <= i < |a| ==> a[i] == b[i] || (a[i] == LF && b[i] == SPACE)
  }

  lemma {:induction false} SoftLines(lines: seq<Line>)
    ensures SameButSoft(ShownAll(lines, LF), ShownAll(lines, SPACE))
    decreases |lines|
  {
    if lines != [] {
      hide Visible;
      SoftLines(lines[..|lines| - 1]);
    }
  }

  /** The output differs from that reading of it only in newlines that stand for spaces. */
  lemma OnlySoftNewlinesDiffer(lay: Layout)
    ensures SameButSoft(OutputOf(lay, LF), OutputOf(lay, SPACE))
  {
    hide Visible, ShownAll;
    SoftLines(lay.lines);
  }

  // ---------------------------------------------------------------------------------------------
  // Every line

  function AllLines(lay: Layout): seq<Line> {
    lay.lines + [lay.cur]
  }

  lemma {:induction false} LinesFormed(linelen: nat, lines: seq<Line>, start: bool, hang: nat, i: nat)
    requires Laid(linelen, lines, start, hang) && i < |lines|
    ensures Formed(linelen, lines[i]) && Earned(lines[i]) && lines[i].end != Last
    decreases |lines|
  {
    hide Formed;
    if i < |lines| - 1 {
      var front, l := lines[..|lines| - 1], lines[|lines| - 1];
      LinesFormed(linelen, front, l.start, l.hang, i);
    }
  }

  lemma {:induction false} LinesFit(linelen: nat, lines: seq<Line>, width: nat, i: nat)
    requires Tight(linelen, lines, width) && i < |lines|
    ensures Fits(linelen, lines[i])
    ensures i + 1 < |lines| ==> Full(linelen, lines[i], FirstWidth(lines[i + 1]))
    decreases |lines|
  {
    hide Fits, Full;
    if i < |lines| - 1 {
      var front, l := lines[..|lines| - 1], lines[|lines| - 1];
      LinesFit(linelen, front, FirstWidth(l), i);
      if i + 1 < |lines| - 1 {
        assert front[i + 1] == lines[i + 1];
      }
    }
  }

  /** No line is wider than the width unless it is one word behind indentation and list markers, and
      no line is broken before a word that would have fitted. */
  lemma EveryLineFits(linelen: nat, lay: Layout, i: nat)
    requires TightlyLaid(linelen, lay) && i < |AllLines(lay)|
    ensures Fits(linelen, AllLines(lay)[i])
    ensures i + 1 < |AllLines(lay)| ==> Full(linelen, AllLines(lay)[i], FirstWidth(AllLines(lay)[i + 1]))
  {
    hide Fits;
    if i < |lay.lines| {
      LinesFit(linelen, lay.lines, FirstWidth(lay.cur), i);
    }
  }

  // Lines are lines: there is no newline inside one.
  lemma NoNewlineInside(linelen: nat, l: Line)
    requires Formed(linelen, l)
    ensures NEWLINE !in Decode(Visible(l))
  {
    hide Decode, Complete, PiecesFormed, Flat, Hang, Margin, Spaces, NoneEnds;
    FlatComplete(l.pieces);
    DecodeAppend(l.margin, Flat(l.pieces));
    NoNewlineInPieces(l.pieces);
    NoNewlineInSpace(l.margin);
  }

  lemma NoNewlineInSpace(s: Bytes)
    requires IsSpace(s)
    ensures NEWLINE !in Decode(s)
  {
    hide Decode, Complete;
    assert Ends(false, NEWLINE);
  }

  lemma NoNewlineInWord(s: Bytes)
    requires IsWord(s)
    ensures NEWLINE !in Decode(s)
  {
    hide Decode, Complete;
    assert Ends(true, NEWLINE);
  }

  lemma {:induction false} NoNewlineInPieces(pieces: seq<Piece>)
    requires PiecesFormed(pieces)
    ensures NEWLINE !in Decode(Flat(pieces))
    decreases |pieces|
  {
    hide Complete, NoneEnds, DecodeFirst;
    if pieces != [] {
      hide Decode, Spaced;
      var front, last := pieces[..|pieces| - 1], pieces[|pieces| - 1];
      NoNewlineInPieces(front);
      NoNewlineInWord(last.word);
      NoNewlineInSpace(last.gap);
      FlatComplete(front);
      DecodeAppend(Flat(front), last.word);
      DecodeAppend(Flat(front) + last.word, last.gap);
    }
  }

  /** Wrapped lines are indented alike: each begins with as many spaces as the hang of the line that
      was broken, which is decided on the first line of the paragraph. */
  lemma {:induction false} HangIsShared(linelen: nat, lines: seq<Line>, start: bool, hang: nat, i: nat)
    requires Laid(linelen, lines, start, hang) && i < |lines| && lines[i].end == Soft
    ensures if i + 1 < |lines|
      then !lines[i + 1].start && lines[i + 1].hang == lines[i].hang && lines[i + 1].margin == Spaces(lines[i].hang)
      else !start && hang == lines[i].hang
    decreases |lines|
  {
    hide PiecesFormed, Hang, IsSpace, Margin, Spaces, Spaced;
    if i < |lines| - 1 {
      var front, l := lines[..|lines| - 1], lines[|lines| - 1];
      HangIsShared(linelen, front, l.start, l.hang, i);
      assert lines[i] == front[i];
    }
  }

  // ---------------------------------------------------------------------------------------------
  // Lists, marks and definitions

  // Nothing in front of word `k` makes an anchor of it, and it is no list marker.
  predicate Plain(lead: Bytes, pieces: seq<Piece>, k: nat)
    requires k < |pieces|
  {
    && !EndsInMark(lead + Flat(pieces[..k])) && !EndsInDots(pieces[..k])
    && !IsListMarker(pieces[k].word)
  }

  predicate PlainFrom(lead: Bytes, pieces: seq<Piece>, k: nat) {
    forall j :: k <= j < |pieces| ==> Plain(lead, pieces, j)
  }

  lemma {:induction false} HangSettles(margin: Bytes, lead: Bytes, pieces: seq<Piece>, k: nat)
    requires k <= |pieces| && PlainFrom(lead, pieces, k)
    ensures Hang(margin, lead, pieces) == Hang(margin, lead, pieces[..k])
    decreases |pieces|
  {
    hide EndsInMark, EndsInDots, Flat, TextWidth, IsListMarker, Hang;
    if k == |pieces| {
      assert pieces[..k] == pieces;
    } else {
      var front, last := pieces[..|pieces| - 1], pieces[|pieces| - 1];
      assert pieces == front + [last];
      assert Plain(lead, pieces, |pieces| - 1);
      HangSnoc(margin, lead, front, last);
      forall j | k <= j < |front| ensures Plain(lead, front, j) {
        assert Plain(lead, pieces, j) && front[..j] == pieces[..j];
      }
      HangSettles(margin, lead, front, k);
      assert front[..k] == pieces[..k];
    }
  }

  // The column of word `k` on its line.
  function Column(margin: Bytes, pieces: seq<Piece>, k: nat): nat
    requires k <= |pieces|
  {
    TextWidth(margin + Flat(pieces[..k]))
  }

  /** The rules of the manual: continuation lines hang from the last word that follows two spaces, a tab
      or three dots, two columns behind a list marker that begins the line, or under the first word. */
  lemma HangRules(margin: Bytes, lead: Bytes, pieces: seq<Piece>, k: nat)
    requires k < |pieces| && PlainFrom(lead, pieces, k + 1)
    ensures (EndsInMark(lead + Flat(pieces[..k])) || EndsInDots(pieces[..k])) && !IsListMarker(pieces[k].word)
      ==> Hang(margin, lead, pieces) == Column(margin, pieces, k)
    ensures k == 0 && IsListMarker(pieces[0].word) ==> Hang(margin, lead, pieces) == TextWidth(margin) + 2
    ensures k == 0 && !IsListMarker(pieces[0].word) ==> Hang(margin, lead, pieces) == TextWidth(margin)
  {
    hide EndsInMark, EndsInDots, TextWidth, IsListMarker, Hang, Flat;
    HangSettles(margin, lead, pieces, k + 1);
    assert pieces[..k + 1] == pieces[..k] + [pieces[k]];
    HangSnoc(margin, lead, pieces[..k], pieces[k]);
    if k == 0 {
      FlatNothing();
      HangNothing(margin, lead);
      assert margin + [] == margin;
    }
  }

  lemma HangNothing(margin: Bytes, lead: Bytes)
    ensures Hang(margin, lead, []) == TextWidth(margin)
  {
  }

  // ---------------------------------------------------------------------------------------------
  // Plain text

  predicate IsPlain(b: Byte) {
    b == LF || b == TAB || 0x20 <= b <= 0x7E
  }

  /** Printable ASCII, space, tab and newline are a case in point. */
  lemma {:induction false} PlainIsTame(s: Bytes)
    requires forall i :: 0 <= i < |s| ==> IsPlain(s[i])
    ensures WellFormed(s) && Tame(s)
    decreases |s|
  {
    if s != [] {
      var rest := s[1..];
      PlainIsTame(rest);
      assert IsPlain(s[0]);
      PlainFirst(s[0], rest);
      assert s == [s[0]] + rest;
    }
  }

  lemma PlainFirst(b: Byte, rest: Bytes)
    requires IsPlain(b) && WellFormed(rest) && Tame(rest)
    ensures WellFormed([b] + rest) && Tame([b] + rest)
  {
    var cp := b as CodePoint;
    assert cp as bv8 == b;
    var s := [b] + rest;
    DecodeAscii(cp, rest);
    assert cp == NEWLINE || Width(cp) >= 1;
    hide DecodeFirst, Width;
    assert s[1..] == rest && s[..1] == [b];
    assert Leads(s);
    assert Decode(s) == [cp] + Decode(rest);
  }
}
