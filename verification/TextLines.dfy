/** What a wrapped text is: lines of words that hold all of the input, hang where the first line of
    their paragraph says, and are as full as the width allows. */
module TextLines {
  import opened Utf8

  const SPACE: Byte := 0x20
  const TAB: Byte := 0x09
  const LF: Byte := 0x0A

  // ---------------------------------------------------------------------------------------------
  // Lines

  // A word and the space printed after it.
  datatype Piece = Piece(word: Bytes, gap: Bytes)

  // How a line stops: with the text, at a newline of the text, or at a newline put in to wrap.
  datatype End = Last | Hard | Soft

  // One line of output. `lead` is the space the text has before the first word and `margin` what is
  // printed for it; `dropped` is space of the text after the last word that is not printed. `start`
  // says that the line is not a continuation, and `hang` is the column where continuations begin.
  datatype Line = Line(start: bool, lead: Bytes, margin: Bytes, pieces: seq<Piece>, dropped: Bytes,
                       end: End, hang: nat)

  // Finished lines and the one being built.
  datatype Layout = Layout(lines: seq<Line>, cur: Line)

  function Flat(pieces: seq<Piece>): Bytes {
    if pieces == [] then []
    else Flat(pieces[..|pieces| - 1]) + pieces[|pieces| - 1].word + pieces[|pieces| - 1].gap
  }

  function Visible(l: Line): Bytes {
    l.margin + Flat(l.pieces)
  }

  // The part of the text a line stands for.
  function Source(l: Line): Bytes {
    l.lead + Flat(l.pieces) + l.dropped + if l.end == Hard then [LF] else []
  }

  // The output for a line; `soft` is what stands for a newline put in to wrap.
  function Shown(l: Line, soft: Byte): Bytes {
    Visible(l) + match l.end case Last => [] case Hard => [LF] case Soft => [soft]
  }

  function Sources(lines: seq<Line>): Bytes {
    if lines == [] then [] else Sources(lines[..|lines| - 1]) + Source(lines[|lines| - 1])
  }

  function ShownAll(lines: seq<Line>, soft: Byte): Bytes {
    if lines == [] then [] else ShownAll(lines[..|lines| - 1], soft) + Shown(lines[|lines| - 1], soft)
  }

  function SourceOf(lay: Layout): Bytes {
    Sources(lay.lines) + Source(lay.cur)
  }

  function OutputOf(lay: Layout, soft: Byte): Bytes {
    ShownAll(lay.lines, soft) + Shown(lay.cur, soft)
  }

  // ---------------------------------------------------------------------------------------------
  // Words and spaces

  predicate IsSpace(s: Bytes) {
    Complete(s) && NoneEnds(false, Decode(s))
  }

  predicate IsWord(s: Bytes) {
    s != [] && Complete(s) && NoneEnds(true, Decode(s))
  }

  predicate PiecesFormed(pieces: seq<Piece>) {
    pieces == [] ||
    var front, last := pieces[..|pieces| - 1], pieces[|pieces| - 1];
    && IsWord(last.word) && IsSpace(last.gap)
    && (front != [] ==> Spaced(front))
    && PiecesFormed(front)
  }

  // The last word is followed by printed space.
  predicate Spaced(pieces: seq<Piece>) {
    pieces != [] && pieces[|pieces| - 1].gap != []
  }

  // ---------------------------------------------------------------------------------------------
  // Where continuation lines begin

  function Spaces(n: nat): (s: Bytes)
    ensures |s| == n
  {
    seq(n, i => SPACE)
  }

  predicate IsListMarker(word: Bytes) {
    |word| == 1 && (word[0] == 0x2D || word[0] == 0x2A || word[0] == 0x2B)
  }

  predicate IsDots(word: Bytes) {
    |word| >= 3 && forall i :: 0 <= i < |word| ==> word[i] == 0x2E
  }

  predicate EndsInDots(pieces: seq<Piece>) {
    pieces != [] && IsDots(pieces[|pieces| - 1].word)
  }

  // Two spaces, a tab and a space, or a tab.
  predicate EndsInMark(before: Bytes) {
    var n := |before|;
    || (n >= 2 && (before[n - 2] == SPACE || before[n - 2] == TAB) && before[n - 1] == SPACE)
    || (n >= 1 && before[n - 1] == TAB)
  }

  // The hang after one more word, which begins at `column` and has `before` in front of it.
  function NextHang(hang: nat, column: nat, word: Bytes, marked: bool, dotted: bool): nat {
    if column == hang && IsListMarker(word) then column + 2
    else if marked || dotted then column
    else hang
  }

  // The hang of a paragraph is decided by its first line, word by word.
  function Hang(margin: Bytes, lead: Bytes, pieces: seq<Piece>): nat
    decreases |pieces|
  {
    if pieces == [] then TextWidth(margin)
    else
      var front := pieces[..|pieces| - 1];
      NextHang(Hang(margin, lead, front), TextWidth(margin + Flat(front)), pieces[|pieces| - 1].word,
               EndsInMark(lead + Flat(front)), EndsInDots(front))
  }

  // ---------------------------------------------------------------------------------------------
  // Well-formed layouts

  // Leading space as wide as a line is not printed.
  function Margin(linelen: nat, lead: Bytes): Bytes {
    if TextWidth(lead) < linelen then lead else []
  }

  predicate Formed(linelen: nat, l: Line) {
    && IsSpace(l.lead) && IsSpace(l.margin) && IsSpace(l.dropped) && PiecesFormed(l.pieces)
    && (if l.start then l.margin == Margin(linelen, l.lead) && l.hang == Hang(l.margin, l.lead, l.pieces)
        else l.lead == [] && l.margin == Spaces(l.hang))
    && (l.end == Soft ==> l.dropped != [] || Spaced(l.pieces))
  }

  // A continuation line holds at least one word.
  predicate Earned(l: Line) {
    l.start || l.pieces != []
  }

  // The lines so far are well formed, and the next one is what their last one asks for.
  predicate Laid(linelen: nat, lines: seq<Line>, start: bool, hang: nat) {
    if lines == [] then start
    else
      var l := lines[|lines| - 1];
      && Formed(linelen, l) && Earned(l)
      && (match l.end case Last => false case Hard => start case Soft => !start && hang == l.hang)
      && Laid(linelen, lines[..|lines| - 1], l.start, l.hang)
  }

  predicate LaidOut(linelen: nat, lay: Layout) {
    && Laid(linelen, lay.lines, lay.cur.start, lay.cur.hang)
    && Formed(linelen, lay.cur) && Earned(lay.cur) && lay.cur.end == Last
  }

  // ---------------------------------------------------------------------------------------------
  // Widths

  predicate ListMarkers(pieces: seq<Piece>) {
    forall i :: 0 <= i < |pieces| ==> IsListMarker(pieces[i].word)
  }

  // A line is within the width, or one word after indentation and list markers, with no space kept.
  predicate Fits(linelen: nat, l: Line) {
    || TextWidth(Visible(l)) <= linelen
    || (&& l.pieces != [] && ListMarkers(l.pieces[..|l.pieces| - 1])
        && l.pieces[|l.pieces| - 1].gap == [])
  }

  // A line was broken because the next word, `width` wide, would not have fitted any more.
  predicate Full(linelen: nat, l: Line, width: nat) {
    l.end == Soft ==> TextWidth(Visible(l)) + TextWidth(l.dropped) + width > linelen
  }

  function FirstWidth(l: Line): nat {
    if l.pieces == [] then 1 else TextWidth(l.pieces[0].word)
  }

  predicate Tight(linelen: nat, lines: seq<Line>, width: nat) {
    lines == [] ||
    var l := lines[|lines| - 1];
    Fits(linelen, l) && Full(linelen, l, width) && Tight(linelen, lines[..|lines| - 1], FirstWidth(l))
  }

  predicate TightlyLaid(linelen: nat, lay: Layout) {
    Tight(linelen, lay.lines, FirstWidth(lay.cur)) && Fits(linelen, lay.cur)
  }

  // Every code point is a newline or takes up room: so it is with printable ASCII, space and tab.
  predicate Tame(s: Bytes) {
    TameAll(Decode(s))
  }

  predicate TameAll(cps: seq<CodePoint>) {
    forall i :: 0 <= i < |cps| ==> cps[i] == NEWLINE || Width(cps[i]) >= 1
  }

  // ---------------------------------------------------------------------------------------------
  // One more word

  lemma FlatSnoc(pieces: seq<Piece>, p: Piece)
    ensures Flat(pieces + [p]) == Flat(pieces) + p.word + p.gap
  {
    assert (pieces + [p])[..|pieces|] == pieces;
  }

  lemma HangSnoc(margin: Bytes, lead: Bytes, pieces: seq<Piece>, p: Piece)
    ensures Hang(margin, lead, pieces + [p]) ==
      NextHang(Hang(margin, lead, pieces), TextWidth(margin + Flat(pieces)), p.word,
               EndsInMark(lead + Flat(pieces)), EndsInDots(pieces))
  {
    hide Flat, EndsInMark, EndsInDots, NextHang, TextWidth;
    assert (pieces + [p])[..|pieces|] == pieces;
  }

  lemma FormedSnoc(pieces: seq<Piece>, p: Piece)
    requires PiecesFormed(pieces) && (pieces != [] ==> Spaced(pieces)) && IsWord(p.word) && IsSpace(p.gap)
    ensures PiecesFormed(pieces + [p])
  {
    hide IsWord, IsSpace;
    assert (pieces + [p])[..|pieces|] == pieces;
  }

  lemma {:induction false} FlatComplete(pieces: seq<Piece>)
    requires PiecesFormed(pieces)
    ensures Complete(Flat(pieces))
    decreases |pieces|
  {
    hide Complete, Decode, NoneEnds;
    if pieces == [] {
      assert Complete([]) by { NothingComplete(); }
    } else {
      var front, last := pieces[..|pieces| - 1], pieces[|pieces| - 1];
      FlatComplete(front);
      DecodeAppend(Flat(front), last.word);
      DecodeAppend(Flat(front) + last.word, last.gap);
    }
  }

  lemma NothingComplete()
    ensures Complete([]) && TextWidth([]) == 0 && IsSpace([])
  {
  }

  lemma VisibleComplete(l: Line)
    requires IsSpace(l.margin) && PiecesFormed(l.pieces)
    ensures Complete(Visible(l))
  {
    hide Complete, Decode, NoneEnds, PiecesFormed, Flat;
    FlatComplete(l.pieces);
    DecodeAppend(l.margin, Flat(l.pieces));
  }

  lemma {:induction false} SpacesWidth(n: nat)
    ensures IsSpace(Spaces(n)) && TextWidth(Spaces(n)) == n
  {
    if n == 0 {
      assert Spaces(0) == [];
    } else {
      SpacesWidth(n - 1);
      OneSpace(Spaces(n - 1));
      assert Spaces(n) == [SPACE] + Spaces(n - 1);
    }
  }

  lemma OneSpace(rest: Bytes)
    requires IsSpace(rest)
    ensures IsSpace([SPACE] + rest) && TextWidth([SPACE] + rest) == 1 + TextWidth(rest)
  {
    DecodeAscii(0x20, rest);
    assert (0x20 as CodePoint) as bv8 == SPACE;
    hide DecodeFirst, TotalWidth;
    var s := [SPACE] + rest;
    assert s[1..] == rest;
    WidthFirst(0x20, Decode(rest));
  }

  lemma SpacesAppend(a: nat, b: nat)
    ensures Spaces(a) + Spaces(b) == Spaces(a + b)
  {
  }

  // The line being built, after one more word and the printed and unprinted space behind it.
  function WithWord(l: Line, word: Bytes, gap: Bytes, dropped: Bytes): Line {
    var pieces := l.pieces + [Piece(word, gap)];
    l.(pieces := pieces, dropped := dropped, hang := if l.start then Hang(l.margin, l.lead, pieces) else l.hang)
  }

  // The line being built can take another word.
  predicate Ready(l: Line) {
    l.end == Last && l.dropped == [] && (l.pieces != [] ==> Spaced(l.pieces))
  }

  lemma WordShown(l: Line, word: Bytes, gap: Bytes, dropped: Bytes)
    requires Ready(l)
    ensures var m := WithWord(l, word, gap, dropped);
      && Source(m) == Source(l) + word + gap + dropped
      && Visible(m) == Visible(l) + word + gap
  {
    hide Flat, Hang;
    FlatSnoc(l.pieces, Piece(word, gap));
  }

  lemma WordFormed(linelen: nat, l: Line, word: Bytes, gap: Bytes, dropped: Bytes)
    requires Ready(l) && Formed(linelen, l) && IsWord(word) && IsSpace(gap) && IsSpace(dropped)
    ensures Formed(linelen, WithWord(l, word, gap, dropped))
  {
    hide Flat, Hang, IsWord, IsSpace, PiecesFormed, Margin, Spaces;
    FormedSnoc(l.pieces, Piece(word, gap));
  }

  lemma WordWidth(linelen: nat, l: Line, word: Bytes, gap: Bytes, dropped: Bytes)
    requires Ready(l) && Formed(linelen, l) && IsWord(word) && IsSpace(gap)
    ensures TextWidth(Visible(WithWord(l, word, gap, dropped))) ==
      TextWidth(Visible(l)) + TextWidth(word) + TextWidth(gap)
  {
    hide Hang, TextWidth, PiecesFormed, Flat, Complete, NoneEnds, Decode, Visible, WithWord;
    WordShown(l, word, gap, dropped);
    VisibleComplete(l);
    TextWidthAppend(Visible(l), word);
    DecodeAppend(Visible(l), word);
    TextWidthAppend(Visible(l) + word, gap);
  }

  // ---------------------------------------------------------------------------------------------
  // A finished line and the beginning of the next

  function Continuation(hang: nat): Line {
    Line(false, [], Spaces(hang), [], [], Last, hang)
  }

  function Opening(linelen: nat, lead: Bytes): Line {
    var margin := Margin(linelen, lead);
    Line(true, lead, margin, [], [], Last, TextWidth(margin))
  }

  function Broken(lay: Layout): Layout {
    Layout(lay.lines + [lay.cur.(end := Soft)], Continuation(lay.cur.hang))
  }

  function Ended(linelen: nat, lay: Layout, lead: Bytes): Layout {
    Layout(lay.lines + [lay.cur.(end := Hard)], Opening(linelen, lead))
  }

  lemma LineAdded(lines: seq<Line>, l: Line, soft: Byte)
    ensures Sources(lines + [l]) == Sources(lines) + Source(l)
    ensures ShownAll(lines + [l], soft) == ShownAll(lines, soft) + Shown(l, soft)
  {
    hide Source, Shown;
    assert (lines + [l])[..|lines|] == lines;
  }

  lemma BrokenText(lay: Layout)
    requires lay.cur.end == Last
    ensures SourceOf(Broken(lay)) == SourceOf(lay)
    ensures OutputOf(Broken(lay), LF) == OutputOf(lay, LF) + [LF] + Spaces(lay.cur.hang)
  {
    hide Sources, ShownAll, Flat, Spaces;
    LineAdded(lay.lines, lay.cur.(end := Soft), LF);
    assert Flat([]) == [] by { FlatNothing(); }
  }

  lemma FlatNothing()
    ensures Flat([]) == []
  {
  }

  lemma EndedText(linelen: nat, lay: Layout, lead: Bytes)
    requires lay.cur.end == Last
    ensures SourceOf(Ended(linelen, lay, lead)) == SourceOf(lay) + [LF] + lead
    ensures OutputOf(Ended(linelen, lay, lead), LF) == OutputOf(lay, LF) + [LF] + Margin(linelen, lead)
  {
    hide Sources, ShownAll, Flat, Margin;
    LineAdded(lay.lines, lay.cur.(end := Hard), LF);
    FlatNothing();
  }

  lemma ContinuationFormed(linelen: nat, hang: nat)
    ensures Formed(linelen, Continuation(hang))
    ensures TextWidth(Visible(Continuation(hang))) == hang
  {
    hide Hang, IsSpace, Margin, Spaces, TextWidth;
    SpacesWidth(hang);
    NothingComplete();
    FlatNothing();
    assert Spaces(hang) + [] == Spaces(hang);
  }

  lemma OpeningFormed(linelen: nat, lead: Bytes)
    requires IsSpace(lead)
    ensures Formed(linelen, Opening(linelen, lead))
    ensures TextWidth(Visible(Opening(linelen, lead))) == Opening(linelen, lead).hang
  {
    hide IsSpace, TextWidth;
    NothingComplete();
    FlatNothing();
    var margin := Margin(linelen, lead);
    assert margin + [] == margin;
  }

  // A continuation follows a line that has been broken, and a fresh line one that has ended.
  lemma BrokenLaid(linelen: nat, lay: Layout)
    requires Laid(linelen, lay.lines, lay.cur.start, lay.cur.hang) && Formed(linelen, lay.cur) && Earned(lay.cur)
    requires lay.cur.dropped != [] || Spaced(lay.cur.pieces)
    ensures Laid(linelen, Broken(lay).lines, false, lay.cur.hang)
  {
    hide PiecesFormed, Hang, IsSpace, Margin, Spaces, Spaced;
    var lines := Broken(lay).lines;
    assert lines[..|lines| - 1] == lay.lines;
  }

  lemma EndedLaid(linelen: nat, lay: Layout, hang: nat)
    requires Laid(linelen, lay.lines, lay.cur.start, lay.cur.hang) && Formed(linelen, lay.cur) && Earned(lay.cur)
    ensures Laid(linelen, lay.lines + [lay.cur.(end := Hard)], true, hang)
  {
    hide PiecesFormed, Hang, IsSpace, Margin, Spaces, Spaced;
    var lines := lay.lines + [lay.cur.(end := Hard)];
    assert lines[..|lines| - 1] == lay.lines;
  }

  // What hangs from a first line does not matter to the lines before it.
  lemma LaidAnyHang(linelen: nat, lines: seq<Line>, start: bool, hang: nat, other: nat)
    requires Laid(linelen, lines, start, hang) && (start || hang == other)
    ensures Laid(linelen, lines, start, other)
  {
  }

  lemma TightAdded(linelen: nat, lay: Layout, end: End, width: nat)
    requires Tight(linelen, lay.lines, FirstWidth(lay.cur)) && Fits(linelen, lay.cur)
    requires Full(linelen, lay.cur.(end := end), width)
    ensures Tight(linelen, lay.lines + [lay.cur.(end := end)], width)
  {
    hide Flat, ListMarkers, TextWidth;
    var lines := lay.lines + [lay.cur.(end := end)];
    assert lines[..|lines| - 1] == lay.lines;
  }

  lemma TightWider(linelen: nat, lines: seq<Line>, width: nat, other: nat)
    requires Tight(linelen, lines, width) && width <= other
    ensures Tight(linelen, lines, other)
  {
  }

  // A word within the width leaves a line that fits, and so does one after list markers only.
  lemma WordFits(linelen: nat, l: Line, word: Bytes, gap: Bytes, dropped: Bytes)
    requires Ready(l) && Formed(linelen, l) && IsWord(word) && IsSpace(gap)
    requires TextWidth(Visible(l)) + TextWidth(word) <= linelen || ListMarkers(l.pieces)
    requires gap != [] ==> TextWidth(Visible(l)) + TextWidth(word) + TextWidth(gap) < linelen
    ensures Fits(linelen, WithWord(l, word, gap, dropped))
  {
    hide Visible, TextWidth, Hang, IsWord, IsSpace, Formed;
    WordWidth(linelen, l, word, gap, dropped);
    if gap == [] {
      NothingComplete();
    }
    var pieces := l.pieces + [Piece(word, gap)];
    assert pieces[..|pieces| - 1] == l.pieces;
  }

  // ---------------------------------------------------------------------------------------------
  // Tame text

  lemma TameAppend(a: Bytes, b: Bytes)
    requires Complete(a)
    ensures Tame(a + b) <==> Tame(a) && Tame(b)
  {
    hide Width;
    DecodeAppend(a, b);
    var x, y := Decode(a), Decode(b);
    if Tame(a + b) {
      assert forall i :: 0 <= i < |x| ==> x[i] == (x + y)[i];
      assert forall i :: 0 <= i < |y| ==> y[i] == (x + y)[|x| + i];
    }
  }

  // Words and spaces of a tame text are as wide as they are present.
  lemma TameWidth(word: bool, s: Bytes)
    requires s != [] && Complete(s) && Tame(s) && NoneEnds(word, Decode(s))
    ensures TextWidth(s) >= 1
  {
    hide Width, DecodeFirst;
    var cps := Decode(s);
    assert cps != [] && cps[0] == cps[..][0];
    assert !Ends(word, cps[0]);
  }
}
