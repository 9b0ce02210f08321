/** Model of print_wrapped_text(): one pass over the text, writing as it goes. */
module TextWrap {
  import opened Utf8
  import opened TextLines

  class ByteStream {
    var written: Bytes

    constructor ()
      ensures written == []
    {
      written := [];
    }

    method Write(s: Bytes)
      modifies this
      ensures written == old(written) + s
    {
      written := written + s;
    }
  }

  method IsAllDots(text: Bytes, start: nat, len: nat) returns (dots: bool)
    requires start + len <= |text|
    ensures dots == IsDots(text[start..start + len])
  {
    if len < 3 {
      return false;
    }
    for index := 0 to len
      invariant forall i :: start <= i < start + index ==> text[i] == 0x2E
    {
      if text[start + index] != 0x2E {
        assert text[start..start + len][index] != 0x2E;
        return false;
      }
    }
    return true;
  }

  const CHUNK: nat := 256

  method PrintSpaces(fp: ByteStream, n: nat)
    modifies fp
    ensures fp.written == old(fp.written) + Spaces(n)
  {
    var chunk := Spaces(CHUNK);
    var count := n;
    while count >= CHUNK
      invariant 0 <= count <= n && fp.written == old(fp.written) + Spaces(n - count)
    {
      fp.Write(chunk);
      SpacesAppend(n - count, CHUNK);
      count := count - CHUNK;
    }
    fp.Write(chunk[..count]);
    assert chunk[..count] == Spaces(count);
    SpacesAppend(n - count, count);
  }

  // The variables of the function.
  datatype Cursor = Cursor(index: nat, indent: nat, column: nat, wrapped: bool, wasAllDots: bool)

  // The variables describe the line being built: `column` is its true width.
  ghost predicate Current(linelen: nat, c: Cursor, l: Line) {
    && l.end == Last && Formed(linelen, l)
    && c.indent == l.hang && c.wrapped == !l.start && c.column == TextWidth(Visible(l))
    && (!c.wrapped ==> c.wasAllDots == EndsInDots(l.pieces))
  }

  predicate AtWord(text: Bytes, index: nat) {
    index < |text| && text[index] != LF
  }

  // The index rests before a word, before a newline or at the end.
  ghost predicate Resting(text: Bytes, index: nat, l: Line) {
    && index <= |text| && WellFormed(text[index..])
    && (AtWord(text, index) ==> Ready(l) && !IsBreakingSpace(DecodeFirst(text[index..]).cp))
    && (!Earned(l) ==> AtWord(text, index))
  }

  // Widths are under control: past the hang there are only list markers, or nothing is owed.
  ghost predicate Snug(linelen: nat, c: Cursor, lay: Layout, more: bool) {
    && Tight(linelen, lay.lines, FirstWidth(lay.cur))
    && (Earned(lay.cur) ==> Fits(linelen, lay.cur))
    && (c.column <= c.indent ==> ListMarkers(lay.cur.pieces))
    && (c.column < c.indent ==> !more)
  }

  ghost predicate Progress(linelen: nat, tame: bool, text: Bytes, c: Cursor, lay: Layout) {
    && Resting(text, c.index, lay.cur)
    && text[..c.index] == SourceOf(lay)
    && Laid(linelen, lay.lines, lay.cur.start, lay.cur.hang)
    && Current(linelen, c, lay.cur)
    && (tame ==> Tame(text[c.index..]) && Snug(linelen, c, lay, AtWord(text, c.index)))
  }

  // ---------------------------------------------------------------------------------------------
  // What the word searches find

  lemma SpaceFound(text: Bytes, start: nat)
    requires start <= |text| && WellFormed(text[start..])
    ensures var next := start + Extent(false, text[start..]);
      && next <= |text| && IsSpace(text[start..next]) && WellFormed(text[next..])
      && (AtWord(text, next) ==> !IsBreakingSpace(DecodeFirst(text[next..]).cp))
      && (next == start && AtWord(text, start) ==> !IsBreakingSpace(DecodeFirst(text[start..]).cp))
      && (Tame(text[start..]) ==> Tame(text[start..next]) && Tame(text[next..]))
  {
    hide DecodeFirst, Complete, WellFormed, Tame, NoneEnds, IsBreakingSpace;
    var s := text[start..];
    var k := Extent(false, s);
    Cut(text, start, k);
    WellFormedIsEncoded(s);
    ExtentSplits(false, s);
    WellFormedRest(false, s);
    TameAppend(s[..k], s[k..]);
    if AtWord(text, start + k) {
      NewlineByte(s[k..]);
    }
  }

  lemma Cut(text: Bytes, start: nat, k: nat)
    requires start + k <= |text|
    ensures text[start..][..k] == text[start..start + k] && text[start..][k..] == text[start + k..]
    ensures text[start..][..k] + text[start..][k..] == text[start..]
  {
  }

  lemma WordFound(text: Bytes, start: nat)
    requires AtWord(text, start) && WellFormed(text[start..])
    requires !IsBreakingSpace(DecodeFirst(text[start..]).cp)
    ensures var end := start + Extent(true, text[start..]);
      && start < end <= |text| && IsWord(text[start..end]) && WellFormed(text[end..])
      && (Tame(text[start..]) ==> Tame(text[end..]) && TextWidth(text[start..end]) >= 1)
      && (end < |text| ==> IsBreakingSpace(DecodeFirst(text[end..]).cp))
  {
    hide DecodeFirst, Complete, WellFormed, Tame, NoneEnds, IsBreakingSpace, TextWidth;
    var s := text[start..];
    var k := Extent(true, s);
    Cut(text, start, k);
    WellFormedIsEncoded(s);
    ExtentSplits(true, s);
    WellFormedRest(true, s);
    TameAppend(s[..k], s[k..]);
    if Tame(s) {
      TameWidth(true, s[..k]);
    }
  }

  // ---------------------------------------------------------------------------------------------
  // The beginning of a line of the text

  method BeginLine(fp: ByteStream, text: Bytes, start: nat, linelen: nat) returns (c: Cursor)
    requires 0 !in text && start <= |text|
    modifies fp
    ensures c.index == start + Extent(false, text[start..]) <= |text|
    ensures var margin := Margin(linelen, text[start..c.index]);
      && fp.written == old(fp.written) + margin
      && c == Cursor(c.index, TextWidth(margin), TextWidth(margin), false, false)
  {
    hide TextWidth, Extent;
    var next := FindWordStart(text, start);
    var indent := CountGraphemes(text, start, next);
    if indent >= linelen {
      indent := 0;
      NothingComplete();
    } else {
      fp.Write(text[start..next]);
    }
    c := Cursor(next, indent, indent, false, false);
  }

  lemma LineBegun(linelen: nat, tame: bool, text: Bytes, start: nat, c: Cursor, lay: Layout)
    requires start <= c.index <= |text| && c.index == start + Extent(false, text[start..]) && WellFormed(text[start..])
    requires var lead := text[start..c.index];
      var width := TextWidth(Margin(linelen, lead));
      c == Cursor(c.index, width, width, false, false) && lay.cur == Opening(linelen, lead)
    requires text[..c.index] == SourceOf(lay)
    requires Laid(linelen, lay.lines, true, lay.cur.hang)
    requires tame ==> Tame(text[start..]) && Tight(linelen, lay.lines, 1)
    ensures Progress(linelen, tame, text, c, lay)
  {
    hide DecodeFirst, Extent, Decode, WellFormed, Tame, IsBreakingSpace, TextWidth, SourceOf, Laid, Tight, Margin,
         Formed,
         Visible;
    SpaceFound(text, start);
    OpeningFormed(linelen, text[start..c.index]);
    assert Fits(linelen, lay.cur) by { OpeningFits(linelen, text[start..c.index]); }
  }

  lemma OpeningFits(linelen: nat, lead: Bytes)
    ensures Fits(linelen, Opening(linelen, lead))
  {
    hide TextWidth;
    var margin := Margin(linelen, lead);
    assert margin + [] == margin;
    NothingComplete();
  }

  method NextLine(fp: ByteStream, text: Bytes, linelen: nat, c: Cursor, ghost lay: Layout, ghost tame: bool,
                  ghost base: Bytes)
      returns (d: Cursor, ghost next: Layout)
    requires 0 !in text && c.index < |text| && text[c.index] == LF
    requires Progress(linelen, tame, text, c, lay) && fp.written == base + OutputOf(lay, LF)
    modifies fp
    ensures Progress(linelen, tame, text, d, next) && fp.written == base + OutputOf(next, LF)
    ensures c.index < d.index
  {
    hide DecodeFirst, Extent, Decode, WellFormed, Tame, IsBreakingSpace, TextWidth, Laid, Tight, Margin, Formed,
         Visible, SourceOf, OutputOf, Fits, Earned;
    fp.Write([LF]);
    d := BeginLine(fp, text, c.index + 1, linelen);
    ghost var lead := text[c.index + 1..d.index];
    next := Ended(linelen, lay, lead);
    LineEnded(linelen, tame, text, c, lay, d, next);
    EndedText(linelen, lay, lead);
  }

  lemma LineEnded(linelen: nat, tame: bool, text: Bytes, c: Cursor, lay: Layout, d: Cursor, next: Layout)
    requires c.index < |text| && text[c.index] == LF && Progress(linelen, tame, text, c, lay)
    requires c.index + 1 <= d.index == c.index + 1 + Extent(false, text[c.index + 1..]) <= |text|
    requires var lead := text[c.index + 1..d.index];
      var width := TextWidth(Margin(linelen, lead));
      d == Cursor(d.index, width, width, false, false) && next == Ended(linelen, lay, lead)
    ensures Progress(linelen, tame, text, d, next)
  {
    hide DecodeFirst, Extent, Decode, IsBreakingSpace, TextWidth, Laid, Tight, Margin, Formed,
         Visible, SourceOf, OutputOf, Fits, WellFormed, Tame;
    var lead := text[c.index + 1..d.index];
    NewlineTaken(text, c.index);
    SpaceFound(text, c.index + 1);
    EndedText(linelen, lay, lead);
    EndedLaid(linelen, lay, next.cur.hang);
    assert text[..d.index] == text[..c.index] + [LF] + lead;
    if tame {
      TightAdded(linelen, lay, Hard, 1);
    }
    LineBegun(linelen, tame, text, c.index + 1, d, next);
  }

  lemma NewlineTaken(text: Bytes, start: nat)
    requires start < |text| && text[start] == LF && WellFormed(text[start..])
    ensures WellFormed(text[start + 1..])
    ensures Tame(text[start..]) ==> Tame(text[start + 1..])
  {
    hide DecodeFirst, Complete, Decode, Tame;
    var s := text[start..];
    Cut(text, start, 1);
    NewlineByte(s);
    WellFormedIsEncoded(s);
    DecodeOne(s);
    TameAppend(s[..1], s[1..]);
  }

  // ---------------------------------------------------------------------------------------------
  // One word

  // The first break: before a word that does not fit on a line that already holds one.
  method BreakBefore(fp: ByteStream, linelen: nat, c: Cursor, width: nat, ghost lay: Layout)
      returns (d: Cursor, ghost next: Layout)
    modifies fp
    ensures if c.column + width > linelen && c.column > c.indent
      then next == Broken(lay) && d == c.(column := c.indent, wrapped := true) &&
           fp.written == old(fp.written) + [LF] + Spaces(c.indent)
      else next == lay && d == c && fp.written == old(fp.written)
  {
    d, next := c, lay;
    if c.column + width > linelen && c.column > c.indent {
      fp.Write([LF]);
      PrintSpaces(fp, c.indent);
      d := c.(column := c.indent, wrapped := true);
      next := Broken(lay);
      assert old(fp.written) + [LF] + Spaces(c.indent) == fp.written;
    }
  }

  // What a word does to the hang of its paragraph.
  method Rehang(text: Bytes, c: Cursor, end: nat) returns (d: Cursor)
    requires c.index < end <= |text|
    ensures var word := text[c.index..end];
      d == if c.wrapped then c else
        c.(indent := NextHang(c.indent, c.column, word, EndsInMark(text[..c.index]), c.wasAllDots),
           wasAllDots := IsDots(word))
  {
    hide IsDots;
    d := c;
    if !c.wrapped {
      var index := c.index;
      var ch := text[index];
      if c.column == c.indent && (ch == 0x2D || ch == 0x2A || ch == 0x2B) && end - index == 1 {
        d := d.(indent := c.column + 2);
      } else if (index >= 2 && (text[index - 2] == SPACE || text[index - 2] == TAB) && text[index - 1] == SPACE) ||
                (index >= 1 && text[index - 1] == TAB) {
        d := d.(indent := c.column);
      } else if c.wasAllDots {
        d := d.(indent := c.column);
      }
      var dots := IsAllDots(text, index, end - index);
      d := d.(wasAllDots := dots);
    }
  }

  // The space behind a word: printed, left out before a newline or the end, or a line break.
  method SkipSpace(fp: ByteStream, text: Bytes, linelen: nat, c: Cursor, start: nat, ghost l: Line, ghost word: Bytes,
                   ghost lines: seq<Line>)
      returns (d: Cursor, ghost next: Layout)
    requires 0 !in text && start <= |text|
    modifies fp
    ensures d.index == start + Extent(false, text[start..]) <= |text|
    ensures var gap := text[start..d.index];
      if c.column + TextWidth(gap) < linelen
      then next == Layout(lines, WithWord(l, word, gap, [])) && fp.written == old(fp.written) + gap &&
           d == c.(index := d.index, column := c.column + TextWidth(gap))
      else if AtWord(text, d.index)
      then next == Broken(Layout(lines, WithWord(l, word, [], gap))) &&
           fp.written == old(fp.written) + [LF] + Spaces(c.indent) &&
           d == c.(index := d.index, column := c.indent, wrapped := true)
      else next == Layout(lines, WithWord(l, word, [], gap)) && fp.written == old(fp.written) &&
           d == c.(index := d.index)
  {
    hide TextWidth, Extent, WithWord, Broken;
    var index := FindWordStart(text, start);
    var width := CountGraphemes(text, start, index);
    d := c.(index := index);
    ghost var gap := text[start..index];
    next := Layout(lines, WithWord(l, word, [], gap));
    if c.column + width >= linelen {
      var ch := ByteAt(text, index);
      if ch != LF && ch != 0 {
        fp.Write([LF]);
        PrintSpaces(fp, c.indent);
        d := d.(column := c.indent, wrapped := true);
        next := Broken(next);
        assert old(fp.written) + [LF] + Spaces(c.indent) == fp.written;
      }
    } else {
      fp.Write(text[start..index]);
      d := d.(column := c.column + width);
      next := Layout(lines, WithWord(l, word, gap, []));
    }
  }

  function OpenWidth(l: Line, width: nat): nat {
    if l.pieces == [] then width else TextWidth(l.pieces[0].word)
  }

  // Between the first break and the word: there is room for it, or the line is still bare.
  ghost predicate Poised(linelen: nat, tame: bool, text: Bytes, c: Cursor, lay: Layout, width: nat) {
    && c.index <= |text| && text[..c.index] == SourceOf(lay) && Ready(lay.cur)
    && Laid(linelen, lay.lines, lay.cur.start, lay.cur.hang)
    && Current(linelen, c, lay.cur)
    && (tame ==> Roomy(linelen, c, lay, width))
  }

  ghost predicate Roomy(linelen: nat, c: Cursor, lay: Layout, width: nat) {
    && Tight(linelen, lay.lines, OpenWidth(lay.cur, width))
    && (c.column + width <= linelen || ListMarkers(lay.cur.pieces))
    && (c.column == c.indent ==> ListMarkers(lay.cur.pieces))
    && c.column >= c.indent
  }

  lemma BrokenBefore(linelen: nat, tame: bool, text: Bytes, c: Cursor, lay: Layout, width: nat, d: Cursor, next: Layout)
    requires Progress(linelen, tame, text, c, lay) && AtWord(text, c.index) && (tame ==> width >= 1)
    requires if c.column + width > linelen && c.column > c.indent
      then next == Broken(lay) && d == c.(column := c.indent, wrapped := true)
      else next == lay && d == c
    ensures Poised(linelen, tame, text, d, next, width)
  {
    hide DecodeFirst, IsBreakingSpace, TextWidth, Laid, Tight, Margin, Formed,
         Visible, SourceOf, Fits, WellFormed, Tame, ListMarkers;
    if c.column + width > linelen && c.column > c.indent {
      BareColumn(linelen, c, lay.cur);
      BrokenText(lay);
      BrokenLaid(linelen, lay);
      ContinuationFormed(linelen, lay.cur.hang);
      if tame {
        FullNow(linelen, lay.cur, width);
        TightAdded(linelen, lay, Soft, width);
      }
      NoMarkers();
    } else if tame {
      if lay.cur.pieces == [] {
        TightWider(linelen, lay.lines, 1, width);
      }
    }
  }

  lemma NoMarkers()
    ensures ListMarkers([])
  {
  }

  lemma FullNow(linelen: nat, l: Line, width: nat)
    requires TextWidth(Visible(l)) + width > linelen
    ensures Full(linelen, l.(end := Soft), width)
  {
    hide TextWidth, Flat;
  }

  lemma BareColumn(linelen: nat, c: Cursor, l: Line)
    requires Current(linelen, c, l)
    ensures l.pieces == [] ==> c.column == c.indent
  {
    hide TextWidth, Spaces, Margin;
    assert l.margin + [] == l.margin;
    SpacesWidth(l.hang);
  }

  // The marks in front of a word are found on the line it is on.
  lemma MarkIsOnLine(linelen: nat, text: Bytes, index: nat, lay: Layout)
    requires index <= |text| && text[..index] == SourceOf(lay) && Ready(lay.cur) && lay.cur.start
    requires Laid(linelen, lay.lines, true, lay.cur.hang)
    ensures EndsInMark(text[..index]) == EndsInMark(lay.cur.lead + Flat(lay.cur.pieces))
  {
    hide Flat, Formed;
    var here := lay.cur.lead + Flat(lay.cur.pieces);
    assert Source(lay.cur) == here;
    MarkBehind(Sources(lay.lines), here);
  }

  lemma MarkBehind(a: Bytes, b: Bytes)
    requires a == [] || a[|a| - 1] == LF
    ensures EndsInMark(a + b) == EndsInMark(b)
  {
  }

  lemma Rehung(linelen: nat, tame: bool, text: Bytes, c: Cursor, lay: Layout, width: nat, end: nat, d: Cursor,
               gap: Bytes, dropped: Bytes)
    requires Poised(linelen, tame, text, c, lay, width) && c.index < end <= |text|
    requires var word := text[c.index..end];
      d == if c.wrapped then c else
        c.(indent := NextHang(c.indent, c.column, word, EndsInMark(text[..c.index]), c.wasAllDots),
           wasAllDots := IsDots(word))
    ensures var l := WithWord(lay.cur, text[c.index..end], gap, dropped);
      && d.indent == l.hang && d.wrapped == !l.start && d.column == c.column && d.index == c.index
      && (!d.wrapped ==> d.wasAllDots == EndsInDots(l.pieces))
  {
    hide TextWidth, Flat, IsDots, EndsInMark, Tight, SourceOf, Hang, Laid, ListMarkers, Margin;
    var l := lay.cur;
    if l.start {
      MarkIsOnLine(linelen, text, c.index, lay);
      HangSnoc(l.margin, l.lead, l.pieces, Piece(text[c.index..end], gap));
    }
  }

  // The word is written and the space behind it dealt with.
  ghost predicate Written(tame: bool, text: Bytes, start: nat, end: nat, width: nat) {
    && start < end <= |text| && IsWord(text[start..end]) && width == TextWidth(text[start..end])
    && WellFormed(text[end..]) && (end < |text| ==> IsBreakingSpace(DecodeFirst(text[end..]).cp))
    && (tame ==> width >= 1 && Tame(text[end..]))
  }

  // Past the word the column is past the hang, unless the word was a list marker on a bare line.
  lemma HangBehind(linelen: nat, tame: bool, text: Bytes, c: Cursor, lay: Layout, width: nat, end: nat, d: Cursor,
                   gap: Bytes, dropped: Bytes)
    requires Poised(linelen, tame, text, c, lay, width) && c.index < end <= |text| && tame && width >= 1
    requires d.indent == if c.wrapped then c.indent
      else NextHang(c.indent, c.column, text[c.index..end], EndsInMark(text[..c.index]), c.wasAllDots)
    ensures d.indent <= c.column ||
      (d.indent == c.column + 2 && ListMarkers(WithWord(lay.cur, text[c.index..end], gap, dropped).pieces))
  {
    hide TextWidth, EndsInMark, Tight, SourceOf, Hang, Laid, Margin, Formed, Visible;
    MarkersSnoc(lay.cur.pieces, Piece(text[c.index..end], gap));
  }

  lemma MarkersSnoc(pieces: seq<Piece>, p: Piece)
    ensures ListMarkers(pieces) && IsListMarker(p.word) ==> ListMarkers(pieces + [p])
  {
    hide IsListMarker;
  }

  // The line with the new word is described by the variables.
  lemma WordCurrent(linelen: nat, tame: bool, text: Bytes, c: Cursor, lay: Layout, width: nat, end: nat, d: Cursor,
                    gap: Bytes, dropped: Bytes)
    requires Poised(linelen, tame, text, c, lay, width) && Written(tame, text, c.index, end, width)
    requires IsSpace(gap) && IsSpace(dropped)
    requires var l := WithWord(lay.cur, text[c.index..end], gap, dropped);
      && d.indent == l.hang && d.wrapped == !l.start && d.column == c.column + width + TextWidth(gap)
      && (!d.wrapped ==> d.wasAllDots == EndsInDots(l.pieces))
    ensures Current(linelen, d, WithWord(lay.cur, text[c.index..end], gap, dropped))
  {
    hide TextWidth, EndsInMark, Tight, SourceOf, Hang, Laid, Margin, Formed, Visible, IsWord, IsSpace, EndsInDots,
         Ready,
         WellFormed;
    var word := text[c.index..end];
    WordFormed(linelen, lay.cur, word, gap, dropped);
    WordWidth(linelen, lay.cur, word, gap, dropped);
  }

  lemma GapFound(tame: bool, text: Bytes, start: nat, end: nat, width: nat)
    requires Written(tame, text, start, end, width)
    ensures var next := end + Extent(false, text[end..]);
      && next <= |text| && IsSpace(text[end..next]) && WellFormed(text[next..])
      && (AtWord(text, next) ==> !IsBreakingSpace(DecodeFirst(text[next..]).cp) && end < next)
      && (tame ==> Tame(text[next..]) && (end < next ==> TextWidth(text[end..next]) >= 1))
  {
    hide DecodeFirst, Complete, WellFormed, Tame, IsBreakingSpace, TextWidth, IsWord, NoneEnds;
    SpaceFound(text, end);
    var next := end + Extent(false, text[end..]);
    if tame && end < next {
      TameWidth(false, text[end..next]);
    }
  }

  // The line goes on: its space is printed, or the next thing is a newline or the end.
  lemma WordSnug(linelen: nat, tame: bool, text: Bytes, c: Cursor, lay: Layout, width: nat, end: nat, d: Cursor,
                 gap: Bytes, dropped: Bytes, more: bool)
    requires tame && Poised(linelen, tame, text, c, lay, width) && Written(tame, text, c.index, end, width)
    requires IsSpace(gap) && (more ==> TextWidth(gap) >= 1)
    requires gap != [] ==> c.column + width + TextWidth(gap) < linelen
    requires d.column == c.column + width + TextWidth(gap)
    requires d.indent == if c.wrapped then c.indent
      else NextHang(c.indent, c.column, text[c.index..end], EndsInMark(text[..c.index]), c.wasAllDots)
    ensures Snug(linelen, d, Layout(lay.lines, WithWord(lay.cur, text[c.index..end], gap, dropped)), more)
  {
    hide TextWidth, EndsInMark, Tight, SourceOf, Laid, Formed, Visible, IsSpace, IsWord, Ready, Fits, ListMarkers,
         WithWord,
         WellFormed, Tame, IsBreakingSpace, DecodeFirst, NextHang;
    var word := text[c.index..end];
    var l := WithWord(lay.cur, word, gap, dropped);
    HangBehind(linelen, tame, text, c, lay, width, end, d, gap, dropped);
    WordFits(linelen, lay.cur, word, gap, dropped);
    WordFirst(lay.cur, word, gap, dropped);
  }

  lemma WordFirst(l: Line, word: Bytes, gap: Bytes, dropped: Bytes)
    ensures var m := WithWord(l, word, gap, dropped);
      FirstWidth(m) == OpenWidth(l, TextWidth(word)) && Earned(m) && m.pieces != [] && m.end == l.end
    ensures var m := WithWord(l, word, gap, dropped);
      && m.start == l.start && (!l.start ==> m.hang == l.hang)
      && m.dropped == dropped && m.pieces[|m.pieces| - 1].gap == gap
  {
    hide TextWidth, Hang;
  }

  lemma WordText(text: Bytes, lay: Layout, start: nat, end: nat, next: nat, gap: Bytes, dropped: Bytes)
    requires start <= end <= next <= |text| && text[..start] == SourceOf(lay) && Ready(lay.cur)
    requires gap + dropped == text[end..next]
    ensures var l := WithWord(lay.cur, text[start..end], gap, dropped);
      text[..next] == SourceOf(Layout(lay.lines, l))
  {
    hide Flat, WithWord, Sources, Source;
    WordShown(lay.cur, text[start..end], gap, dropped);
    assert text[..next] == text[..start] + text[start..end] + (gap + dropped);
  }

  lemma WordGoesOn(linelen: nat, tame: bool, text: Bytes, c: Cursor, lay: Layout, width: nat, end: nat, d: Cursor,
                   gap: Bytes, dropped: Bytes)
    requires Poised(linelen, tame, text, c, lay, width) && Written(tame, text, c.index, end, width)
    requires d.index == end + Extent(false, text[end..]) && gap + dropped == text[end..d.index]
    requires gap == [] || dropped == []
    requires gap != [] ==> c.column + width + TextWidth(gap) < linelen
    requires AtWord(text, d.index) ==> dropped == []
    requires var l := WithWord(lay.cur, text[c.index..end], gap, dropped);
      && d.indent == l.hang && d.wrapped == !l.start && d.column == c.column + width + TextWidth(gap)
      && (!d.wrapped ==> d.wasAllDots == EndsInDots(l.pieces))
      && d.indent == if c.wrapped then c.indent
        else NextHang(c.indent, c.column, text[c.index..end], EndsInMark(text[..c.index]), c.wasAllDots)
    ensures Progress(linelen, tame, text, d, Layout(lay.lines, WithWord(lay.cur, text[c.index..end], gap, dropped)))
  {
    hide TextWidth, EndsInMark, EndsInDots, Tight, SourceOf, Laid, Formed, Visible, IsSpace, IsWord, Fits, ListMarkers,
         WithWord, WellFormed, Tame, IsBreakingSpace, DecodeFirst, NextHang, Snug, Current, Roomy, Extent;
    var word := text[c.index..end];
    var l := WithWord(lay.cur, word, gap, dropped);
    GapFound(tame, text, c.index, end, width);
    NothingComplete();
    assert IsSpace(gap) && IsSpace(dropped) by {
      if gap == [] { assert gap + dropped == dropped; } else { assert gap + dropped == gap; }
    }
    WordCurrent(linelen, tame, text, c, lay, width, end, d, gap, dropped);
    WordText(text, lay, c.index, end, d.index, gap, dropped);
    WordFirst(lay.cur, word, gap, dropped);
    LaidAnyHang(linelen, lay.lines, l.start, lay.cur.hang, l.hang);
    if AtWord(text, d.index) {
      assert gap + dropped == gap;
    }
    if tame {
      WordSnug(linelen, tame, text, c, lay, width, end, d, gap, dropped, AtWord(text, d.index));
    }
  }

  lemma WordBreaks(linelen: nat, tame: bool, text: Bytes, c: Cursor, lay: Layout, width: nat, end: nat,
                   r: Cursor, d: Cursor)
    requires Poised(linelen, tame, text, c, lay, width) && Written(tame, text, c.index, end, width)
    requires d.index == end + Extent(false, text[end..]) && AtWord(text, d.index)
    requires c.column + width + TextWidth(text[end..d.index]) >= linelen
    requires var l := WithWord(lay.cur, text[c.index..end], [], text[end..d.index]);
      && r.indent == l.hang && r.wrapped == !l.start && r.column == c.column + width
      && (!r.wrapped ==> r.wasAllDots == EndsInDots(l.pieces))
    requires d == r.(index := d.index, column := r.indent, wrapped := true)
    ensures Progress(linelen, tame, text, d,
                     Broken(Layout(lay.lines, WithWord(lay.cur, text[c.index..end], [], text[end..d.index]))))
  {
    hide TextWidth, EndsInMark, EndsInDots, Tight, SourceOf, Laid, Formed, Visible, IsSpace, IsWord, Fits, ListMarkers,
         WithWord, WellFormed, Tame, IsBreakingSpace, DecodeFirst, Roomy, Extent;
    var word, gap := text[c.index..end], text[end..d.index];
    var l := WithWord(lay.cur, word, [], gap);
    var here := Layout(lay.lines, l);
    GapFound(tame, text, c.index, end, width);
    NothingComplete();
    WordCurrent(linelen, tame, text, c, lay, width, end, r, [], gap);
    assert [] + gap == gap;
    WordText(text, lay, c.index, end, d.index, [], gap);
    WordFirst(lay.cur, word, [], gap);
    LaidAnyHang(linelen, lay.lines, l.start, lay.cur.hang, l.hang);
    BrokenText(here);
    BrokenLaid(linelen, here);
    ContinuationFormed(linelen, l.hang);
    NoMarkers();
    if tame {
      BreakTight(linelen, text, c, lay, width, end, gap);
    }
  }

  lemma BreakTight(linelen: nat, text: Bytes, c: Cursor, lay: Layout, width: nat, end: nat, gap: Bytes)
    requires Poised(linelen, true, text, c, lay, width) && Written(true, text, c.index, end, width)
    requires c.column + width + TextWidth(gap) >= linelen
    ensures var l := WithWord(lay.cur, text[c.index..end], [], gap);
      Tight(linelen, lay.lines + [l.(end := Soft)], 1)
  {
    hide TextWidth, EndsInMark, Tight, SourceOf, Laid, Formed, Visible, IsSpace, IsWord, Fits, ListMarkers, WithWord,
         WellFormed, Tame, IsBreakingSpace, DecodeFirst, Full;
    var word := text[c.index..end];
    var l := WithWord(lay.cur, word, [], gap);
    NothingComplete();
    WordFirst(lay.cur, word, [], gap);
    WordFits(linelen, lay.cur, word, [], gap);
    WordWidth(linelen, lay.cur, word, [], gap);
    FullAfter(linelen, l);
    TightAdded(linelen, Layout(lay.lines, l), Soft, 1);
  }

  lemma FullAfter(linelen: nat, l: Line)
    requires TextWidth(Visible(l)) + TextWidth(l.dropped) >= linelen
    ensures Full(linelen, l.(end := Soft), 1)
  {
    hide TextWidth, Flat;
  }

  lemma WordOutput(lay: Layout, word: Bytes, gap: Bytes, dropped: Bytes)
    requires Ready(lay.cur)
    ensures OutputOf(Layout(lay.lines, WithWord(lay.cur, word, gap, dropped)), LF) == OutputOf(lay, LF) + word + gap
  {
    hide Flat, WithWord, ShownAll, Visible;
    WordShown(lay.cur, word, gap, dropped);
    WordFirst(lay.cur, word, gap, dropped);
  }

  // The hang is settled, the column moved past the word, and the space behind it dealt with.
  method FinishWord(fp: ByteStream, text: Bytes, linelen: nat, c: Cursor, end: nat, width: nat, ghost lay: Layout,
                    ghost tame: bool, ghost base: Bytes)
      returns (d: Cursor, ghost next: Layout)
    requires 0 !in text
    requires Poised(linelen, tame, text, c, lay, width) && Written(tame, text, c.index, end, width)
    requires fp.written == base + OutputOf(lay, LF) + text[c.index..end]
    modifies fp
    ensures Progress(linelen, tame, text, d, next) && fp.written == base + OutputOf(next, LF)
    ensures end <= d.index
  {
    hide TextWidth, EndsInMark, EndsInDots, Laid, SourceOf, OutputOf, Formed, IsSpace, IsWord, WithWord, Broken, Tight,
         WellFormed, Tame, IsBreakingSpace, DecodeFirst, Extent, Snug, Roomy, Current, NextHang, IsDots, Spaces;
    ghost var word := text[c.index..end];
    ghost var gap := text[end..end + Extent(false, text[end..])];
    var r := Rehang(text, c, end);
    Rehung(linelen, tame, text, c, lay, width, end, r, [], gap);
    Rehung(linelen, tame, text, c, lay, width, end, r, gap, []);
    r := r.(column := r.column + width);
    d, next := SkipSpace(fp, text, linelen, r, end, lay.cur, word, lay.lines);
    NothingComplete();
    assert gap + [] == gap && [] + gap == gap;
    if r.column + TextWidth(gap) < linelen {
      WordGoesOn(linelen, tame, text, c, lay, width, end, d, gap, []);
      OutputGrows(base, lay, word, gap, []);
    } else if AtWord(text, d.index) {
      WordBreaks(linelen, tame, text, c, lay, width, end, r, d);
      OutputBreaks(base, lay, word, gap);
    } else {
      WordGoesOn(linelen, tame, text, c, lay, width, end, d, [], gap);
      OutputGrows(base, lay, word, [], gap);
      assert base + OutputOf(lay, LF) + word + [] == base + OutputOf(lay, LF) + word;
    }
  }

  lemma OutputGrows(base: Bytes, lay: Layout, word: Bytes, gap: Bytes, dropped: Bytes)
    requires Ready(lay.cur)
    ensures base + OutputOf(lay, LF) + word + gap
         == base + OutputOf(Layout(lay.lines, WithWord(lay.cur, word, gap, dropped)), LF)
  {
    hide OutputOf, WithWord;
    WordOutput(lay, word, gap, dropped);
    assert base + OutputOf(lay, LF) + word + gap == base + (OutputOf(lay, LF) + word + gap);
  }

  lemma OutputBreaks(base: Bytes, lay: Layout, word: Bytes, gap: Bytes)
    requires Ready(lay.cur)
    ensures var l := WithWord(lay.cur, word, [], gap);
      base + OutputOf(lay, LF) + word + [LF] + Spaces(l.hang) == base + OutputOf(Broken(Layout(lay.lines, l)), LF)
  {
    hide OutputOf, WithWord, Broken, Spaces;
    var l := WithWord(lay.cur, word, [], gap);
    OutputGrows(base, lay, word, [], gap);
    assert base + OutputOf(lay, LF) + word + [] == base + OutputOf(lay, LF) + word;
    WordFirst(lay.cur, word, [], gap);
    BrokenOutput(base, Layout(lay.lines, l));
  }

  lemma BrokenOutput(base: Bytes, lay: Layout)
    requires lay.cur.end == Last
    ensures base + OutputOf(Broken(lay), LF) == base + OutputOf(lay, LF) + [LF] + Spaces(lay.cur.hang)
  {
    hide OutputOf, Broken, Spaces;
    BrokenText(lay);
  }

  method NextWord(fp: ByteStream, text: Bytes, linelen: nat, c: Cursor, ghost lay: Layout, ghost tame: bool,
                  ghost base: Bytes)
      returns (d: Cursor, ghost next: Layout)
    requires 0 !in text && AtWord(text, c.index)
    requires Progress(linelen, tame, text, c, lay) && fp.written == base + OutputOf(lay, LF)
    modifies fp
    ensures Progress(linelen, tame, text, d, next) && fp.written == base + OutputOf(next, LF)
    ensures c.index < d.index
  {
    hide TextWidth, Laid, SourceOf, OutputOf, Formed, IsSpace, IsWord, Broken, Tight, WellFormed, Tame, IsBreakingSpace,
         DecodeFirst, Extent, Snug, Roomy, Spaces, EndsInDots;
    WordFound(text, c.index);
    var end := FindWordEnd(text, c.index);
    var width := CountGraphemes(text, c.index, end);
    var b: Cursor;
    ghost var here: Layout;
    b, here := BreakBefore(fp, linelen, c, width, lay);
    BrokenBefore(linelen, tame, text, c, lay, width, b, here);
    BrokenOutput(base, lay);
    fp.Write(text[c.index..end]);
    d, next := FinishWord(fp, text, linelen, b, end, width, here, tame, base);
  }

  // ---------------------------------------------------------------------------------------------
  // The whole text

  /** The output holds the whole text, laid out as the first line of each paragraph asks; for a tame
      text every line is as full as the width allows and no wider than it has to be. */
  method PrintWrappedText(fp: ByteStream, text: Bytes, linelen: nat) returns (ghost lay: Layout)
    requires 0 !in text && WellFormed(text)
    modifies fp
    ensures LaidOut(linelen, lay) && SourceOf(lay) == text
    ensures fp.written == old(fp.written) + OutputOf(lay, LF)
    ensures Tame(text) ==> TightlyLaid(linelen, lay)
  {
    hide TextWidth, Laid, SourceOf, OutputOf, Formed, IsSpace, Broken, Tight, WellFormed, Tame, IsBreakingSpace,
         DecodeFirst, Extent, EndsInDots, Margin, Fits;
    assert text[0..] == text;
    var c := BeginLine(fp, text, 0, linelen);
    ghost var tame := Tame(text);
    ghost var base := old(fp.written);
    lay := Layout([], Opening(linelen, text[0..c.index]));
    FirstLine(linelen, text[0..c.index]);
    assert text[..c.index] == text[0..c.index];
    LineBegun(linelen, tame, text, 0, c, lay);
    while ByteAt(text, c.index) != 0
      invariant Progress(linelen, tame, text, c, lay) && fp.written == base + OutputOf(lay, LF)
      decreases |text| - c.index
    {
      if text[c.index] == LF {
        c, lay := NextLine(fp, text, linelen, c, lay, tame, base);
      } else {
        c, lay := NextWord(fp, text, linelen, c, lay, tame, base);
      }
    }
    assert text[..c.index] == text;
  }

  lemma FirstLine(linelen: nat, lead: Bytes)
    ensures var lay := Layout([], Opening(linelen, lead));
      && SourceOf(lay) == lead && OutputOf(lay, LF) == Margin(linelen, lead)
      && Laid(linelen, lay.lines, true, lay.cur.hang) && Tight(linelen, lay.lines, 1)
  {
    hide Margin, TextWidth;
  }
}
