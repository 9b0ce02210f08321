/** What wrapping does to plain text, in bytes: printable ASCII, where one byte is one column. */
module TextBytes {
  import opened Utf8
  import opened TextLines
  import opened TextMeaning
  import opened TextHang

  // ---------------------------------------------------------------------------------------------
  // Plain text

  predicate IsPrintable(b: Byte) {
    0x20 <= b <= 0x7E
  }

  predicate Printable(s: Bytes) {
    forall i :: 0 <= i < |s| ==> IsPrintable(s[i])
  }

  // Printable characters and newlines.
  predicate PlainText(s: Bytes) {
    forall i :: 0 <= i < |s| ==> IsPrintable(s[i]) || s[i] == 0x0A
  }

  lemma {:induction false} PlainDecoded(s: Bytes)
    requires PlainText(s)
    ensures Complete(s) && |Decode(s)| == |s|
    ensures forall i :: 0 <= i < |s| ==> Decode(s)[i] == s[i] as CodePoint
    decreases |s|
  {
    if s != [] {
      var rest := s[1..];
      PlainDecoded(rest);
      FirstPlain(s);
      hide DecodeFirst;
      assert Decode(s) == [s[0] as CodePoint] + Decode(rest);
    }
  }

  lemma FirstPlain(s: Bytes)
    requires s != [] && s[0] < 0x80
    ensures DecodeFirst(s) == Decoded(true, s[0] as CodePoint, 1)
  {
  }

  lemma {:induction false} OneColumnEach(cps: seq<CodePoint>)
    requires forall i :: 0 <= i < |cps| ==> 0x20 <= cps[i] <= 0x7E
    ensures TotalWidth(cps) == |cps|
    decreases |cps|
  {
    if cps != [] {
      assert Width(cps[0]) == 1;
      OneColumnEach(cps[1..]);
    }
  }

  /** Every printable character is one column wide, a tab is eight. */
  lemma PlainWidth(s: Bytes)
    ensures Printable(s) ==> TextWidth(s) == |s|
    ensures TextWidth([0x09]) == 8
  {
    hide DecodeFirst, Width;
    if Printable(s) {
      PlainDecoded(s);
      OneColumnEach(Decode(s));
    }
    TabWidth();
  }

  lemma TabWidth()
    ensures TextWidth([0x09]) == 8
  {
    FirstPlain([0x09]);
    hide DecodeFirst;
    assert [0x09][1..] == [];
    WidthFirst(0x09, []);
    assert [0x09] + [] == [0x09];
  }

  /** Words are what has no space in it, and space is what has nothing else. */
  lemma PlainWords(s: Bytes)
    requires PlainText(s)
    ensures IsWord(s) <==> s != [] && forall i :: 0 <= i < |s| ==> s[i] != 0x20 && s[i] != 0x0A
    ensures IsSpace(s) <==> forall i :: 0 <= i < |s| ==> s[i] == 0x20
  {
    PlainDecoded(s);
    forall i | 0 <= i < |s|
      ensures Ends(true, Decode(s)[i]) <==> s[i] == 0x20 || s[i] == 0x0A
      ensures Ends(false, Decode(s)[i]) <==> s[i] != 0x20
    {
      PlainEnds(s[i]);
    }
    hide Ends, Decode, Complete;
    var cps := Decode(s);
    assert NoneEnds(true, cps) <==> forall i :: 0 <= i < |s| ==> !Ends(true, cps[i]);
    assert NoneEnds(false, cps) <==> forall i :: 0 <= i < |s| ==> !Ends(false, cps[i]);
  }

  lemma PlainEnds(b: Byte)
    requires IsPrintable(b) || b == 0x0A
    ensures Ends(true, b as CodePoint) <==> b == 0x20 || b == 0x0A
    ensures Ends(false, b as CodePoint) <==> b != 0x20
  {
  }

  // ---------------------------------------------------------------------------------------------
  // The lines of a plain text are plain

  lemma PlainAppend(a: Bytes, b: Bytes)
    ensures PlainText(a + b) <==> PlainText(a) && PlainText(b)
  {
    hide IsPrintable;
    if PlainText(a + b) {
      assert forall i :: 0 <= i < |a| ==> a[i] == (a + b)[i];
      assert forall i :: 0 <= i < |b| ==> b[i] == (a + b)[|a| + i];
    }
  }

  lemma {:induction false} SourcePlain(lines: seq<Line>, i: nat)
    requires PlainText(Sources(lines)) && i < |lines|
    ensures PlainText(Source(lines[i]))
    decreases |lines|
  {
    hide Source, PlainText;
    var front, l := lines[..|lines| - 1], lines[|lines| - 1];
    PlainAppend(Sources(front), Source(l));
    if i < |front| {
      SourcePlain(front, i);
    }
  }

  lemma {:induction false} PiecesPlain(pieces: seq<Piece>)
    requires PlainText(Flat(pieces))
    ensures forall k :: 0 <= k < |pieces| ==> PlainText(pieces[k].word) && PlainText(pieces[k].gap)
    decreases |pieces|
  {
    hide PlainText;
    if pieces != [] {
      var front, last := pieces[..|pieces| - 1], pieces[|pieces| - 1];
      PlainAppend(Flat(front) + last.word, last.gap);
      PlainAppend(Flat(front), last.word);
      PiecesPlain(front);
      assert forall k :: 0 <= k < |front| ==> front[k] == pieces[k];
    }
  }

  lemma PartsPlain(l: Line)
    requires PlainText(Source(l))
    ensures PlainText(l.lead) && PlainText(Flat(l.pieces)) && PlainText(l.dropped)
    ensures forall k :: 0 <= k < |l.pieces| ==> PlainText(l.pieces[k].word) && PlainText(l.pieces[k].gap)
  {
    hide PlainText, Flat;
    PlainAppend(l.lead + Flat(l.pieces) + l.dropped, if l.end == Hard then [LF] else []);
    PlainAppend(l.lead + Flat(l.pieces), l.dropped);
    PlainAppend(l.lead, Flat(l.pieces));
    PiecesPlain(l.pieces);
  }

  // ---------------------------------------------------------------------------------------------
  // One line

  predicate AllSpaces(s: Bytes) {
    forall i :: 0 <= i < |s| ==> s[i] == 0x20
  }

  // Words without a space in them, separated by spaces.
  predicate SpacedWords(pieces: seq<Piece>) {
    && (forall k :: 0 <= k < |pieces| ==> pieces[k].word != [] && 0x20 !in pieces[k].word && AllSpaces(pieces[k].gap))
    && (forall k :: 0 <= k < |pieces| - 1 ==> pieces[k].gap != [])
  }

  lemma {:induction false} WordsSpaced(pieces: seq<Piece>)
    requires PiecesFormed(pieces)
    requires forall k :: 0 <= k < |pieces| ==> PlainText(pieces[k].word) && PlainText(pieces[k].gap)
    ensures SpacedWords(pieces) && Printable(Flat(pieces))
    decreases |pieces|
  {
    hide IsWord, IsSpace, IsPrintable;
    if pieces != [] {
      var front, last := pieces[..|pieces| - 1], pieces[|pieces| - 1];
      assert forall k :: 0 <= k < |front| ==> front[k] == pieces[k];
      WordsSpaced(front);
      PlainWords(last.word);
      PlainWords(last.gap);
      SpaceIsPrintable();
    }
  }

  lemma SpaceIsPrintable()
    ensures IsPrintable(0x20)
  {
  }

  lemma LinePrintable(linelen: nat, l: Line)
    requires Formed(linelen, l) && PlainText(Source(l))
    ensures AllSpaces(l.lead) && AllSpaces(l.dropped) && SpacedWords(l.pieces)
    ensures TextWidth(l.lead) == |l.lead| && TextWidth(l.dropped) == |l.dropped|
    ensures AllSpaces(l.margin) && TextWidth(Visible(l)) == |Visible(l)|
    ensures forall k :: 0 <= k < |l.pieces| ==> TextWidth(l.pieces[k].word) == |l.pieces[k].word|
  {
    hide TextWidth, IsWord, IsSpace, Hang, IsPrintable, Flat, PiecesFormed, PlainText, SpacedWords;
    PartsPlain(l);
    PlainSpace(l.lead);
    PlainSpace(l.dropped);
    WordsSpaced(l.pieces);
    SpaceIsPrintable();
    PlainWidth(l.lead);
    PlainWidth(l.dropped);
    PlainWidth(Visible(l));
    forall k | 0 <= k < |l.pieces| ensures TextWidth(l.pieces[k].word) == |l.pieces[k].word| {
      WordWide(l.pieces, k);
    }
  }

  lemma PlainSpace(s: Bytes)
    requires IsSpace(s) && PlainText(s)
    ensures AllSpaces(s)
  {
    hide IsSpace;
    PlainWords(s);
  }

  lemma WordWide(pieces: seq<Piece>, k: nat)
    requires PiecesFormed(pieces) && k < |pieces| && PlainText(pieces[k].word)
    ensures TextWidth(pieces[k].word) == |pieces[k].word|
  {
    hide TextWidth, IsWord, IsSpace, PiecesFormed;
    PrefixFormed(pieces, k + 1);
    LastFormed(pieces[..k + 1]);
    PlainWords(pieces[k].word);
    PlainWidth(pieces[k].word);
  }

  // ---------------------------------------------------------------------------------------------
  // The layout

  lemma LayoutPlain(linelen: nat, lay: Layout, i: nat)
    requires LaidOut(linelen, lay) && PlainText(SourceOf(lay)) && i < |AllLines(lay)|
    ensures Formed(linelen, AllLines(lay)[i]) && PlainText(Source(AllLines(lay)[i])) && Earned(AllLines(lay)[i])
  {
    hide Formed, Source, PlainText, Sources, Laid, Earned;
    PlainAppend(Sources(lay.lines), Source(lay.cur));
    if i < |lay.lines| {
      LinesFormed(linelen, lay.lines, lay.cur.start, lay.cur.hang, i);
      SourcePlain(lay.lines, i);
    }
  }

  /**
   * The lines of a wrapped plain text, byte by byte. Leading spaces are printed if they are fewer than the
   * width. No line has more bytes than the width, unless it is bullets and one word; a line was broken only
   * if the next word would have made it longer than that.
   */
  lemma LinesInBytes(linelen: nat, lay: Layout, i: nat)
    requires LaidOut(linelen, lay) && TightlyLaid(linelen, lay) && PlainText(SourceOf(lay)) && i < |AllLines(lay)|
    ensures var l := AllLines(lay)[i];
      && AllSpaces(l.lead) && AllSpaces(l.margin) && AllSpaces(l.dropped) && SpacedWords(l.pieces)
      && (l.start ==> l.margin == if |l.lead| < linelen then l.lead else [])
      && (!l.start ==> |l.margin| == l.hang && l.lead == [])
      && (|| |Visible(l)| <= linelen
          || (&& l.pieces != [] && l.pieces[|l.pieces| - 1].gap == []
              && forall k :: 0 <= k < |l.pieces| - 1 ==> IsBullet(l.pieces[k].word)))
    ensures var l := AllLines(lay)[i];
      l.end == Soft ==>
        && i + 1 < |AllLines(lay)| && !AllLines(lay)[i + 1].start && AllLines(lay)[i + 1].pieces != []
        && |Visible(l)| + |l.dropped| + |AllLines(lay)[i + 1].pieces[0].word| > linelen
  {
    hide LaidOut, TightlyLaid, PlainText, SourceOf, TextWidth, Flat, SpacedWords, PiecesFormed, IsSpace, Hang;
    var l := AllLines(lay)[i];
    LayoutPlain(linelen, lay, i);
    LinePrintable(linelen, l);
    EveryLineFits(linelen, lay, i);
    BulletsOnly(l.pieces);
    if l.end == Soft {
      Continued(linelen, lay, i);
      LayoutPlain(linelen, lay, i + 1);
      LinePrintable(linelen, AllLines(lay)[i + 1]);
    }
  }

  lemma BulletsOnly(pieces: seq<Piece>)
    ensures forall k :: 0 <= k < |pieces| && IsListMarker(pieces[k].word) ==> IsBullet(pieces[k].word)
  {
    forall k | 0 <= k < |pieces| && IsListMarker(pieces[k].word) ensures IsBullet(pieces[k].word) {
      BulletsAreMarkers(pieces[k].word);
    }
  }

  // A broken line is followed by its continuation.
  lemma Continued(linelen: nat, lay: Layout, i: nat)
    requires LaidOut(linelen, lay) && i < |AllLines(lay)| && AllLines(lay)[i].end == Soft
    ensures i + 1 < |AllLines(lay)|
    ensures var next := AllLines(lay)[i + 1]; !next.start && next.pieces != []
  {
    hide Formed;
    HangIsShared(linelen, lay.lines, lay.cur.start, lay.cur.hang, i);
    if i + 1 < |lay.lines| {
      LinesFormed(linelen, lay.lines, lay.cur.start, lay.cur.hang, i + 1);
    }
  }
}
