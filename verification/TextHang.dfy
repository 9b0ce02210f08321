/** Where the continuations of a line hang, in terms of its bytes, for every line of a tame text. */
module TextHang {
  import opened Utf8
  import opened TextLines
  import opened TextMeaning

  // ---------------------------------------------------------------------------------------------
  // Anchors and bullets, byte by byte

  // Two spaces, a tab and a space, or a tab stand in front of word `k`, or a word of at least three dots.
  predicate Anchored(lead: Bytes, pieces: seq<Piece>, k: nat)
    requires k < |pieces|
  {
    var before := lead + Flat(pieces[..k]);
    var n := |before|;
    || (n >= 2 && before[n - 2] == 0x20 && before[n - 1] == 0x20)
    || (n >= 2 && before[n - 2] == 0x09 && before[n - 1] == 0x20)
    || (n >= 1 && before[n - 1] == 0x09)
    || (k > 0 && var word := pieces[k - 1].word; |word| >= 3 && forall i :: 0 <= i < |word| ==> word[i] == 0x2E)
  }

  // A minus sign, an asterisk or a plus sign.
  predicate IsBullet(word: Bytes) {
    word == [0x2D] || word == [0x2A] || word == [0x2B]
  }

  // Word `k` is a bullet in the column where bullets belong if all words in front of it are.
  predicate BulletAt(pieces: seq<Piece>, k: nat)
    requires k < |pieces|
  {
    IsBullet(pieces[k].word) && (k > 0 ==> TextWidth(pieces[k - 1].gap) == 1)
  }

  // The line begins with exactly `r` bullets, one column apart.
  predicate Bullets(pieces: seq<Piece>, r: nat) {
    && r <= |pieces|
    && (forall k :: 0 <= k < r ==> BulletAt(pieces, k))
    && (r < |pieces| ==> !BulletAt(pieces, r))
  }

  // Every word, and every space behind one, takes up room.
  predicate Roomy(pieces: seq<Piece>) {
    forall k :: 0 <= k < |pieces| ==>
      TextWidth(pieces[k].word) >= 1 && (pieces[k].gap != [] ==> TextWidth(pieces[k].gap) >= 1)
  }

  lemma AnchorsAreMarks(lead: Bytes, pieces: seq<Piece>, k: nat)
    requires k < |pieces|
    ensures Anchored(lead, pieces, k) <==> EndsInMark(lead + Flat(pieces[..k])) || EndsInDots(pieces[..k])
  {
    hide Flat;
    if k > 0 {
      assert pieces[..k][|pieces[..k]| - 1] == pieces[k - 1];
    }
  }

  lemma BulletsAreMarkers(word: Bytes)
    ensures IsListMarker(word) <==> IsBullet(word)
    ensures IsBullet(word) ==> TextWidth(word) == 1
  {
    if IsListMarker(word) {
      assert word == [word[0]];
      AsciiWidth(word[0]);
    }
  }

  lemma AsciiWidth(b: Byte)
    requires 0x20 <= b <= 0x7E
    ensures Complete([b]) && Decode([b]) == [b as CodePoint] && TextWidth([b]) == 1
  {
    DecodeAscii(b as CodePoint, []);
    assert (b as CodePoint) as bv8 == b && [b] + [] == [b];
    hide DecodeFirst;
    assert [b][1..] == [];
    WidthFirst(b as CodePoint, []);
    assert [b as CodePoint] + [] == [b as CodePoint];
  }

  // ---------------------------------------------------------------------------------------------
  // Columns

  lemma {:induction false} PrefixFormed(pieces: seq<Piece>, k: nat)
    requires PiecesFormed(pieces) && k <= |pieces|
    ensures PiecesFormed(pieces[..k]) && (0 < k < |pieces| ==> Spaced(pieces[..k]))
    decreases |pieces|
  {
    hide IsWord, IsSpace;
    if k == |pieces| {
      assert pieces[..k] == pieces;
    } else {
      var front := pieces[..|pieces| - 1];
      PrefixFormed(front, k);
      assert front[..k] == pieces[..k];
    }
  }

  lemma LastFormed(pieces: seq<Piece>)
    requires PiecesFormed(pieces) && pieces != []
    ensures IsWord(pieces[|pieces| - 1].word) && IsSpace(pieces[|pieces| - 1].gap)
  {
    hide IsWord, IsSpace;
  }

  lemma ColumnNext(margin: Bytes, pieces: seq<Piece>, k: nat)
    requires IsSpace(margin) && PiecesFormed(pieces) && k < |pieces|
    ensures Column(margin, pieces, k + 1) ==
      Column(margin, pieces, k) + TextWidth(pieces[k].word) + TextWidth(pieces[k].gap)
    ensures k + 1 < |pieces| ==> pieces[k].gap != []
  {
    hide TextWidth, PiecesFormed, Flat, Complete, NoneEnds, Decode;
    var front := pieces[..k];
    assert pieces[..k + 1] == front + [pieces[k]];
    PrefixFormed(pieces, k);
    PrefixFormed(pieces, k + 1);
    LastFormed(pieces[..k + 1]);
    FlatSnoc(front, pieces[k]);
    FlatComplete(front);
    DecodeAppend(margin, Flat(front));
    var before := margin + Flat(front);
    TextWidthAppend(before, pieces[k].word);
    DecodeAppend(before, pieces[k].word);
    TextWidthAppend(before + pieces[k].word, pieces[k].gap);
    assert margin + (Flat(front) + pieces[k].word + pieces[k].gap) == before + pieces[k].word + pieces[k].gap;
  }

  lemma FirstColumn(margin: Bytes, pieces: seq<Piece>)
    ensures Column(margin, pieces, 0) == TextWidth(margin)
  {
    hide TextWidth;
    FlatNothing();
    assert pieces[..0] == [] && margin + [] == margin;
  }

  // ---------------------------------------------------------------------------------------------
  // The hang, word by word

  // The hang behind the first `n` words.
  function HangBehind(margin: Bytes, lead: Bytes, pieces: seq<Piece>, n: nat): nat
    requires n <= |pieces|
  {
    Hang(margin, lead, pieces[..n])
  }

  lemma HangStep(margin: Bytes, lead: Bytes, pieces: seq<Piece>, n: nat)
    requires n < |pieces|
    ensures var hang, column := HangBehind(margin, lead, pieces, n), Column(margin, pieces, n);
      HangBehind(margin, lead, pieces, n + 1) ==
        if column == hang && IsBullet(pieces[n].word) then column + 2
        else if Anchored(lead, pieces, n) then column
        else hang
  {
    hide TextWidth, Hang, Flat, EndsInMark, EndsInDots, Anchored, IsListMarker, IsBullet;
    assert pieces[..n + 1] == pieces[..n] + [pieces[n]];
    HangSnoc(margin, lead, pieces[..n], pieces[n]);
    AnchorsAreMarks(lead, pieces, n);
    BulletsAreMarkers(pieces[n].word);
  }

  // Along the bullets, the next one is due two columns further on.
  lemma {:induction false} BulletHang(margin: Bytes, lead: Bytes, pieces: seq<Piece>, r: nat, n: nat)
    requires IsSpace(margin) && PiecesFormed(pieces) && Bullets(pieces, r) && n <= r
    ensures HangBehind(margin, lead, pieces, n) == TextWidth(margin) + 2 * n
    ensures n < |pieces| ==>
      (Column(margin, pieces, n) == TextWidth(margin) + 2 * n <==> n == 0 || TextWidth(pieces[n - 1].gap) == 1)
    decreases n
  {
    hide TextWidth, PiecesFormed, Anchored, IsBullet, Column, HangBehind;
    if n == 0 {
      FirstColumn(margin, pieces);
      NoHang(margin, lead, pieces);
    } else {
      BulletHang(margin, lead, pieces, r, n - 1);
      HangStep(margin, lead, pieces, n - 1);
      ColumnNext(margin, pieces, n - 1);
      assert BulletAt(pieces, n - 1);
      BulletsAreMarkers(pieces[n - 1].word);
    }
  }

  lemma NoHang(margin: Bytes, lead: Bytes, pieces: seq<Piece>)
    ensures HangBehind(margin, lead, pieces, 0) == TextWidth(margin)
  {
    assert pieces[..0] == [];
  }

  // Behind the bullets the hang never is where the next word begins, unless that is no bullet.
  lemma {:induction false} HangStaysBehind(margin: Bytes, lead: Bytes, pieces: seq<Piece>, r: nat, n: nat)
    requires IsSpace(margin) && PiecesFormed(pieces) && Roomy(pieces) && Bullets(pieces, r) && r <= n < |pieces|
    ensures HangBehind(margin, lead, pieces, n + 1) ==
      if Anchored(lead, pieces, n) then Column(margin, pieces, n) else HangBehind(margin, lead, pieces, n)
    ensures HangBehind(margin, lead, pieces, n) <= Column(margin, pieces, n)
    decreases n
  {
    hide TextWidth, PiecesFormed, Anchored, IsBullet, Column, HangBehind;
    HangStep(margin, lead, pieces, n);
    if n == r {
      BulletHang(margin, lead, pieces, r, n);
      assert !BulletAt(pieces, r);
      BulletsEnd(margin, pieces, r);
    } else {
      HangStaysBehind(margin, lead, pieces, r, n - 1);
      ColumnNext(margin, pieces, n - 1);
    }
  }

  lemma BulletsEnd(margin: Bytes, pieces: seq<Piece>, r: nat)
    requires IsSpace(margin) && PiecesFormed(pieces) && Roomy(pieces) && Bullets(pieces, r) && r < |pieces|
    ensures Column(margin, pieces, r) >= TextWidth(margin) + 2 * r
  {
    hide TextWidth, PiecesFormed, IsBullet, Column;
    if r == 0 {
      FirstColumn(margin, pieces);
    } else {
      BulletHang(margin, [], pieces, r, r - 1);
      ColumnNext(margin, pieces, r - 1);
      assert BulletAt(pieces, r - 1);
      BulletsAreMarkers(pieces[r - 1].word);
    }
  }

  lemma {:induction false} HangUnanchored(margin: Bytes, lead: Bytes, pieces: seq<Piece>, r: nat, n: nat, m: nat)
    requires IsSpace(margin) && PiecesFormed(pieces) && Roomy(pieces) && Bullets(pieces, r) && r <= n <= m <= |pieces|
    requires forall j :: n <= j < m ==> !Anchored(lead, pieces, j)
    ensures HangBehind(margin, lead, pieces, m) == HangBehind(margin, lead, pieces, n)
    decreases m
  {
    hide TextWidth, PiecesFormed, Anchored, Column, HangBehind;
    if n < m {
      HangUnanchored(margin, lead, pieces, r, n, m - 1);
      HangStaysBehind(margin, lead, pieces, r, m - 1);
    }
  }

  /**
   * Continuation lines hang from the last word that is anchored by two spaces, a tab, a tab and a space, or
   * three or more dots in front of it, bullets at the beginning of the line aside.
   */
  lemma HangsFromLastAnchor(margin: Bytes, lead: Bytes, pieces: seq<Piece>, r: nat, k: nat)
    requires IsSpace(margin) && PiecesFormed(pieces) && Roomy(pieces) && Bullets(pieces, r) && r <= k < |pieces|
    requires Anchored(lead, pieces, k) && forall j :: k < j < |pieces| ==> !Anchored(lead, pieces, j)
    ensures Hang(margin, lead, pieces) == Column(margin, pieces, k)
  {
    hide TextWidth, PiecesFormed, Anchored, Column, Hang;
    HangStaysBehind(margin, lead, pieces, r, k);
    HangUnanchored(margin, lead, pieces, r, k + 1, |pieces|);
    assert pieces[..|pieces|] == pieces;
  }

  /** With no such word they hang two columns further for each bullet, or else under the first word. */
  lemma HangsBehindBullets(margin: Bytes, lead: Bytes, pieces: seq<Piece>, r: nat)
    requires IsSpace(margin) && PiecesFormed(pieces) && Roomy(pieces) && Bullets(pieces, r)
    requires forall j :: r <= j < |pieces| ==> !Anchored(lead, pieces, j)
    ensures Hang(margin, lead, pieces) == TextWidth(margin) + 2 * r
  {
    hide TextWidth, PiecesFormed, Anchored, Column, Hang;
    BulletHang(margin, lead, pieces, r, r);
    HangUnanchored(margin, lead, pieces, r, r, |pieces|);
    assert pieces[..|pieces|] == pieces;
  }

  /** Every line begins with some number of bullets, so one of the two cases applies. */
  lemma {:induction false} BulletsExist(pieces: seq<Piece>, n: nat)
    requires n <= |pieces| && forall k :: 0 <= k < n ==> BulletAt(pieces, k)
    ensures exists r :: Bullets(pieces, r)
    decreases |pieces| - n
  {
    hide BulletAt;
    if n == |pieces| || !BulletAt(pieces, n) {
      assert Bullets(pieces, n);
    } else {
      BulletsExist(pieces, n + 1);
    }
  }

  // ---------------------------------------------------------------------------------------------
  // The lines of a tame text

  lemma {:induction false} PiecesRoomy(pieces: seq<Piece>)
    requires PiecesFormed(pieces) && Tame(Flat(pieces))
    ensures Roomy(pieces)
    decreases |pieces|
  {
    hide TextWidth, Complete, NoneEnds, Decode, Tame;
    if pieces != [] {
      var front, last := pieces[..|pieces| - 1], pieces[|pieces| - 1];
      FlatComplete(front);
      DecodeAppend(Flat(front), last.word);
      TameAppend(Flat(front) + last.word, last.gap);
      TameAppend(Flat(front), last.word);
      PiecesRoomy(front);
      TameWidth(true, last.word);
      if last.gap != [] {
        TameWidth(false, last.gap);
      }
      assert forall k :: 0 <= k < |front| ==> front[k] == pieces[k];
    }
  }

  lemma LineComplete(linelen: nat, l: Line)
    requires Formed(linelen, l)
    ensures Complete(l.lead) && Complete(l.lead + Flat(l.pieces)) && Complete(l.lead + Flat(l.pieces) + l.dropped)
    ensures Complete(Source(l))
  {
    hide Complete, Decode, NoneEnds, PiecesFormed, Flat, Hang, Margin, Spaces, Spaced;
    FlatComplete(l.pieces);
    DecodeAppend(l.lead, Flat(l.pieces));
    DecodeAppend(l.lead + Flat(l.pieces), l.dropped);
    OneByte(LF);
    DecodeAppend(l.lead + Flat(l.pieces) + l.dropped, [LF]);
    var words := l.lead + Flat(l.pieces) + l.dropped;
    assert words + [] == words;
  }

  /** A line of a tame text is one that the two lemmas apply to. */
  lemma LineRoomy(linelen: nat, l: Line)
    requires Formed(linelen, l) && Tame(Source(l))
    ensures IsSpace(l.margin) && PiecesFormed(l.pieces) && Roomy(l.pieces)
  {
    hide Complete, Decode, NoneEnds, PiecesFormed, Flat, Hang, Margin, Spaces, Spaced, Tame, Roomy;
    LineComplete(linelen, l);
    var words := l.lead + Flat(l.pieces);
    var end := if l.end == Hard then [LF] else [];
    TameAppend(words + l.dropped, end);
    TameAppend(words, l.dropped);
    TameAppend(l.lead, Flat(l.pieces));
    PiecesRoomy(l.pieces);
  }

  lemma {:induction false} LinesTame(linelen: nat, lines: seq<Line>, start: bool, hang: nat, i: nat)
    requires Laid(linelen, lines, start, hang) && i < |lines|
    requires Complete(Sources(lines)) && Tame(Sources(lines))
    ensures Tame(Source(lines[i]))
    decreases |lines|
  {
    hide Complete, Decode, Formed, Source, Tame;
    var front, l := lines[..|lines| - 1], lines[|lines| - 1];
    LinesRead(linelen, front, l.start, l.hang);
    TameAppend(Sources(front), Source(l));
    if i < |front| {
      LinesTame(linelen, front, l.start, l.hang, i);
    }
  }

  /** All lines of a layout of a tame text are. */
  lemma LayoutRoomy(linelen: nat, lay: Layout, i: nat)
    requires LaidOut(linelen, lay) && Tame(SourceOf(lay)) && i < |AllLines(lay)|
    ensures var l := AllLines(lay)[i];
      Tame(Source(l)) && IsSpace(l.margin) && PiecesFormed(l.pieces) && Roomy(l.pieces)
  {
    hide Complete, Decode, Formed, Source, Tame, IsSpace, PiecesFormed, Roomy, Sources, Laid;
    LinesRead(linelen, lay.lines, lay.cur.start, lay.cur.hang);
    TameAppend(Sources(lay.lines), Source(lay.cur));
    if i < |lay.lines| {
      LinesTame(linelen, lay.lines, lay.cur.start, lay.cur.hang, i);
      LinesFormed(linelen, lay.lines, lay.cur.start, lay.cur.hang, i);
    }
    LineRoomy(linelen, AllLines(lay)[i]);
  }

  /**
   * So the hang of every line of a tame text that is no continuation is settled: by the last anchor behind
   * its bullets, or else by the number of its bullets.
   */
  lemma HangInBytes(linelen: nat, lay: Layout, i: nat, r: nat, k: nat)
    requires LaidOut(linelen, lay) && Tame(SourceOf(lay)) && i < |AllLines(lay)|
    requires AllLines(lay)[i].start && Bullets(AllLines(lay)[i].pieces, r)
    ensures var l := AllLines(lay)[i];
      (forall j :: r <= j < |l.pieces| ==> !Anchored(l.lead, l.pieces, j)) ==> l.hang == TextWidth(l.margin) + 2 * r
    ensures var l := AllLines(lay)[i];
      r <= k < |l.pieces| && Anchored(l.lead, l.pieces, k)
        && (forall j :: k < j < |l.pieces| ==> !Anchored(l.lead, l.pieces, j))
      ==> l.hang == Column(l.margin, l.pieces, k)
  {
    LineHang(linelen, lay, i);
    LayoutRoomy(linelen, lay, i);
    hide Tame, LaidOut, TextWidth, PiecesFormed, Roomy, Bullets, Anchored, Hang, Column;
    var l := AllLines(lay)[i];
    if forall j :: r <= j < |l.pieces| ==> !Anchored(l.lead, l.pieces, j) {
      HangsBehindBullets(l.margin, l.lead, l.pieces, r);
    }
    if r <= k < |l.pieces| && Anchored(l.lead, l.pieces, k)
      && forall j :: k < j < |l.pieces| ==> !Anchored(l.lead, l.pieces, j)
    {
      HangsFromLastAnchor(l.margin, l.lead, l.pieces, r, k);
    }
  }

  lemma LineHang(linelen: nat, lay: Layout, i: nat)
    requires LaidOut(linelen, lay) && i < |AllLines(lay)| && AllLines(lay)[i].start
    ensures var l := AllLines(lay)[i]; Formed(linelen, l) && l.hang == Hang(l.margin, l.lead, l.pieces)
  {
    hide Hang, PiecesFormed, Laid, Margin;
    if i < |lay.lines| {
      LinesFormed(linelen, lay.lines, lay.cur.start, lay.cur.hang, i);
    }
  }
}
