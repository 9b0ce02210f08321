/** What the directives of a log template print, for the templates as they are written. */
module LogDirectives {
  import opened CStrings
  import opened Escapers
  import opened LogTemplate
  import opened LogRenderer
  import opened LogLayouts

  // ---------------------------------------------------------------------------------------------
  // Which directives there are

  lemma OneDirective(entry: Entry, token: Token, t: string)
    requires Known(token) && t == Spelling(token)
    ensures Scan(t) == [token] && Render(entry, t) == Meaning(entry, token)
  {
    hide Scan, Meaning, Spelling, Known, RenderAll, Render;
    assert t + "" == t;
    ScanFirst(token, "");
    ScanNothing();
    RenderDirective(entry, token, "");
    RenderNothing(entry);
    assert [token] + [] == [token] && Meaning(entry, token) + "" == Meaning(entry, token);
  }

  lemma ScanNothing()
    ensures Scan("") == []
  {
  }

  /** The directives of two characters, and those that print the message. */
  lemma ShortDirectives(entry: Entry, ch: char)
    ensures AllKnown(Scan(['%', ch])) <==> ch in "YmdHMSztTabsfnlLh%"
    ensures HasMessage(Scan(['%', ch])) <==> ch == 's'
    ensures ch !in "YmdHMSztTabsfnlLh%" ==> Render(entry, ['%', ch]) == ['%', ch]
  {
    hide Escape, ClockText, FieldText, HttpDateText;
    var t := ['%', ch];
    var token := Next(t);
    assert |Spelling(token)| == 2 && t[2..] == "";
    ScanNothing();
    assert Scan(t) == [token] + [];
    assert AllKnown([token]) <==> Known(token) by { KnownFirst(token, []); }
    assert HasMessage([token]) <==> IsMessage(token) by { MessageFirst(token, []); }
    assert [token] + [] == [token];
    RenderFirst(entry, token, []);
  }

  /** The directives of three characters: GMT units, and fields in one of the formats. */
  lemma LongDirectives(entry: Entry, ch: char, argument: char)
    requires ch in "gjxqc"
    ensures AllKnown(Scan(['%', ch, argument])) <==> argument in (if ch == 'g' then "YmdHMStTab" else "sflL")
    ensures HasMessage(Scan(['%', ch, argument])) <==> ch != 'g' && argument == 's'
    ensures argument !in (if ch == 'g' then "YmdHMStTab" else "sflL") ==>
      Render(entry, ['%', ch, argument]) == ['%', ch, argument]
  {
    hide Scan, AllKnown, HasMessage, Render;
    if argument in (if ch == 'g' then "YmdHMStTab" else "sflL") {
      LongKnown(ch, argument);
    } else {
      LongUnknown(entry, ch, argument);
    }
  }

  lemma LongKnown(ch: char, argument: char)
    requires ch in "gjxqc" && argument in (if ch == 'g' then "YmdHMStTab" else "sflL")
    ensures AllKnown(Scan(['%', ch, argument]))
    ensures HasMessage(Scan(['%', ch, argument])) <==> ch != 'g' && argument == 's'
  {
    var t := ['%', ch, argument];
    var token := Next(t);
    ScanNothing();
    assert Known(token) && |Spelling(token)| == 3 && t[3..] == "";
    assert Scan(t) == [token] + [];
    hide Scan, AllKnown, HasMessage;
    NothingKnown();
    KnownFirst(token, []);
    MessageFirst(token, []);
  }

  lemma NothingKnown()
    ensures AllKnown([]) && !HasMessage([])
  {
  }

  lemma LongUnknown(entry: Entry, ch: char, argument: char)
    requires ch in "gjxqc" && argument !in (if ch == 'g' then "YmdHMStTab" else "sflL")
    ensures !AllKnown(Scan(['%', ch, argument])) && !HasMessage(Scan(['%', ch, argument]))
    ensures Render(entry, ['%', ch, argument]) == ['%', ch, argument]
  {
    var t := ['%', ch, argument];
    var token := Next(t);
    assert token == Unknown(ch) && |Spelling(token)| == 2 && t[2..] == [argument];
    var rest := Scan([argument]);
    assert Scan(t) == [token] + rest;
    hide Scan, AllKnown, HasMessage;
    KnownFirst(token, rest);
    MessageFirst(token, rest);
    SingleHasNoMessage(argument);
    SinglePrinted(entry, argument);
    RenderFirst(entry, token, rest);
    assert ['%', ch] + [argument] == ['%', ch, argument];
  }

  // A lone character stands for itself, a percent sign as well.
  lemma SinglePrinted(entry: Entry, ch: char)
    ensures Render(entry, [ch]) == [ch]
  {
    hide Render;
    OneCharacter(entry, [ch]);
    RenderNext(entry, [ch]);
    assert [ch][1..] == "";
    RenderNothing(entry);
  }

  lemma SingleHasNoMessage(ch: char)
    ensures !HasMessage(Scan([ch]))
  {
    var token := Next([ch]);
    assert [ch][1..] == "";
    ScanNothing();
    assert Scan([ch]) == [token] + [];
    MessageFirst(token, []);
  }

  // ---------------------------------------------------------------------------------------------
  // Message and file name

  /** They are printed as they are, or so that a reader of the format gets them back. */
  lemma TextsPrinted(entry: Entry)
    ensures Render(entry, "%s") == entry.message && Render(entry, "%f") == entry.filename
    ensures Render(entry, "%%") == "%"
  {
    hide Render;
    OneDirective(entry, Field('s'), "%s");
    OneDirective(entry, Field('f'), "%f");
    OneDirective(entry, Percent, "%%");
  }

  lemma JsonPrinted(entry: Entry)
    ensures ReadJson(Render(entry, "%js") + "\"") == if JsonSafe(entry.message) then Some((entry.message, "")) else None
    ensures ReadJson(Render(entry, "%jf") + "\"") ==
      if JsonSafe(entry.filename) then Some((entry.filename, "")) else None
  {
    hide Render, ReadJson, Escape, JsonSafe;
    OneDirective(entry, Escaped(Json, 's'), "%js");
    OneDirective(entry, Escaped(Json, 'f'), "%jf");
    JsonReadsBack(entry.message, "\"");
    JsonReadsBack(entry.filename, "\"");
    JsonQuote(entry.message, "");
    JsonQuote(entry.filename, "");
    assert "\"" + "" == "\"";
  }

  lemma XmlPrinted(entry: Entry)
    ensures ReadXml(Content, Render(entry, "%xs") + "<") ==
      if XmlSafe(entry.message) then Some((entry.message, "<")) else None
    ensures ReadXml(Content, Render(entry, "%xf") + "<") ==
      if XmlSafe(entry.filename) then Some((entry.filename, "<")) else None
    ensures '\t' !in entry.message && XmlSafe(entry.message) ==>
      ReadXml(Attribute, Render(entry, "%xs") + "\"") == Some((entry.message, ""))
  {
    hide Render, ReadXml, Escape, XmlSafe, XmlRead;
    OneDirective(entry, Escaped(Xml, 's'), "%xs");
    OneDirective(entry, Escaped(Xml, 'f'), "%xf");
    ElementReads(entry.message, "<");
    ElementReads(entry.filename, "<");
    XmlReadsBack(Attribute, entry.message, "\"");
    XmlReadKeeps(Attribute, entry.message);
    XmlQuote(entry.message, "");
    assert "\"" + "" == "\"";
  }

  lemma QuotedPrinted(entry: Entry)
    ensures ReadQuoted('\'', Render(entry, "%qs") + "'") == Some((entry.message, ""))
    ensures ReadQuoted('\'', Render(entry, "%qf") + "'") == Some((entry.filename, ""))
    ensures ReadQuoted('"', Render(entry, "%cs") + "\"") == Some((entry.message, ""))
    ensures ReadQuoted('"', Render(entry, "%cf") + "\"") == Some((entry.filename, ""))
  {
    hide Render, ReadQuoted, Escape;
    OneDirective(entry, Escaped(Sql, 's'), "%qs");
    OneDirective(entry, Escaped(Sql, 'f'), "%qf");
    OneDirective(entry, Escaped(Csv, 's'), "%cs");
    OneDirective(entry, Escaped(Csv, 'f'), "%cf");
    QuotedAlone(Sql, entry.message, "'");
    QuotedAlone(Sql, entry.filename, "'");
    QuotedAlone(Csv, entry.message, "\"");
    QuotedAlone(Csv, entry.filename, "\"");
  }

  lemma QuotedAlone(format: Format, s: string, quote: string)
    requires format == Sql || format == Csv
    requires quote == [Quote(format)]
    ensures ReadQuoted(quote[0], Escape(format, s) + quote) == Some((s, ""))
  {
    hide ReadQuoted, Escape;
    QuotedFieldReadsBack(format, s, "");
    assert Escape(format, s) + quote + "" == Escape(format, s) + quote;
    assert !(quote <= "");
  }

  // ---------------------------------------------------------------------------------------------
  // Level

  /** The level is a word that is the same in every format. */
  lemma LevelPrinted(entry: Entry)
    ensures Render(entry, "%l") == (if entry.level == Info then "info" else "error")
    ensures Render(entry, "%L") == (if entry.level == Info then "INFO" else "ERROR")
    ensures Render(entry, "%jl") == Render(entry, "%xl") == Render(entry, "%ql") == Render(entry, "%cl")
         == (if entry.level == Info then "info" else "error")
    ensures Render(entry, "%jL") == Render(entry, "%xL") == Render(entry, "%qL") == Render(entry, "%cL")
         == (if entry.level == Info then "INFO" else "ERROR")
  {
    hide Render, Escape;
    OneDirective(entry, Field('l'), "%l");
    OneDirective(entry, Field('L'), "%L");
    LevelEscaped(entry, Json, "%jl", "%jL");
    LevelEscaped(entry, Xml, "%xl", "%xL");
    LevelEscaped(entry, Sql, "%ql", "%qL");
    LevelEscaped(entry, Csv, "%cl", "%cL");
  }

  lemma LevelEscaped(entry: Entry, format: Format, lower: string, upper: string)
    requires lower == Spelling(Escaped(format, 'l')) && upper == Spelling(Escaped(format, 'L'))
    ensures Render(entry, lower) == FieldText(entry, 'l') && Render(entry, upper) == FieldText(entry, 'L')
  {
    hide Render, Escape, AllPlain;
    OneDirective(entry, Escaped(format, 'l'), lower);
    OneDirective(entry, Escaped(format, 'L'), upper);
    LevelsArePlain(entry);
    EscapePlain(format, FieldText(entry, 'l'));
    EscapePlain(format, FieldText(entry, 'L'));
  }

  lemma LevelsArePlain(entry: Entry)
    ensures AllPlain(FieldText(entry, 'l')) && AllPlain(FieldText(entry, 'L'))
  {
  }

  // ---------------------------------------------------------------------------------------------
  // Numbers

  predicate IsDigit(ch: char) {
    '0' <= ch <= '9'
  }

  predicate AllDigits(s: string) {
    forall i :: 0 <= i < |s| ==> IsDigit(s[i])
  }

  // The number that digits spell.
  function Number(s: string): nat
    requires AllDigits(s)
  {
    if s == "" then 0 else Number(s[..|s| - 1]) * 10 + (s[|s| - 1] as nat - '0' as nat)
  }

  // The usual numeral of a number: only digits, none of them superfluous.
  predicate Spells(s: string, n: nat) {
    s != "" && AllDigits(s) && Number(s) == n && (s[0] == '0' ==> |s| == 1)
  }

  lemma {:induction false} DecimalSpells(n: nat)
    ensures Spells(Decimal(n), n) && (n > 0 ==> Decimal(n)[0] != '0')
    decreases n
  {
    var digit := ('0' as nat + n % 10) as char;
    if n < 10 {
      NumberNext("", digit);
      assert "" + [digit] == [digit];
    } else {
      DecimalSpells(n / 10);
      NumberNext(Decimal(n / 10), digit);
    }
  }

  function PowerOfTen(k: nat): nat {
    if k == 0 then 1 else 10 * PowerOfTen(k - 1)
  }

  lemma {:induction false} DecimalLength(n: nat, k: nat)
    requires k > 0
    ensures |Decimal(n)| <= k <==> n < PowerOfTen(k)
    decreases k
  {
    if n >= 10 && k > 1 {
      DecimalLength(n / 10, k - 1);
    } else if k > 1 {
      DecimalLength(n, k - 1);
    }
  }

  lemma NumberNext(s: string, digit: char)
    requires AllDigits(s) && IsDigit(digit)
    ensures AllDigits(s + [digit]) && Number(s + [digit]) == Number(s) * 10 + (digit as nat - '0' as nat)
  {
    assert (s + [digit])[..|s|] == s;
  }

  // What %0<width>d prints for a number that is not negative: at least `width` digits, as few as possible.
  predicate SpellsPadded(s: string, width: nat, n: int) {
    && n >= 0 && AllDigits(s) && Number(s) == n
    && |s| >= width && (|s| > width ==> Spells(s, n))
  }

  lemma {:induction false} ZerosInFront(k: nat, s: string)
    requires AllDigits(s)
    ensures AllDigits(Zeros(k) + s) && Number(Zeros(k) + s) == Number(s)
    ensures |Zeros(k)| == k
    decreases |s|, k
  {
    if s == "" {
      assert Zeros(k) + s == Zeros(k);
      OnlyZeros(k);
    } else {
      var front, last := s[..|s| - 1], s[|s| - 1];
      ZerosInFront(k, front);
      assert Zeros(k) + s == (Zeros(k) + front) + [last];
      NumberNext(Zeros(k) + front, last);
    }
  }

  lemma {:induction false} OnlyZeros(k: nat)
    ensures AllDigits(Zeros(k)) && Number(Zeros(k)) == 0 && |Zeros(k)| == k
    decreases k
  {
    if k > 0 {
      OnlyZeros(k - 1);
      ZerosEnd(k);
      hide Zeros, Number;
      NumberNext(Zeros(k - 1), '0');
    }
  }

  lemma {:induction false} ZerosEnd(k: nat)
    requires k > 0
    ensures Zeros(k) == Zeros(k - 1) + "0"
    decreases k
  {
    if k > 1 {
      ZerosEnd(k - 1);
    }
  }

  lemma PaddedSpells(width: nat, n: nat)
    requires width > 0
    ensures SpellsPadded(Padded(width, n), width, n)
    ensures |Padded(width, n)| == width <==> n < PowerOfTen(width)
  {
    hide Decimal, Zeros, Number, PowerOfTen;
    var digits := Decimal(n);
    DecimalSpells(n);
    DecimalLength(n, width);
    var k := if |digits| < width then width - |digits| else 0;
    ZerosInFront(k, digits);
    assert Padded(width, n) == "" + Zeros(k) + digits == Zeros(k) + digits;
    if k == 0 {
      NoZeros();
      assert "" + digits == digits;
    }
  }

  lemma NoZeros()
    ensures Zeros(0) == ""
  {
  }

  lemma ClockUnit(entry: Entry, unit: char, t: string, g: string)
    requires IsLocalUnit(unit) && unit != 'z' && t == ['%', unit] && g == ['%', 'g', unit]
    ensures Render(entry, t) == ClockText(entry.local, Zone(entry.local.gmtoff), unit)
    ensures Render(entry, g) == ClockText(entry.gmt, "Z", unit)
  {
    hide Render, ClockText, Zone;
    OneDirective(entry, Local(unit), t);
    OneDirective(entry, Gmt(unit), g);
  }

  /** Line numbers, years, months, days, hours, minutes and seconds can be read off as numbers. */
  lemma NumbersPrinted(entry: Entry)
    requires entry.local.year >= -1900 && entry.gmt.year >= -1900
    ensures Spells(Render(entry, "%n"), entry.lineno)
    ensures SpellsPadded(Render(entry, "%Y"), 4, entry.local.year + 1900)
    ensures SpellsPadded(Render(entry, "%m"), 2, entry.local.mon + 1)
    ensures SpellsPadded(Render(entry, "%d"), 2, entry.local.mday)
    ensures SpellsPadded(Render(entry, "%H"), 2, entry.local.hour)
    ensures SpellsPadded(Render(entry, "%M"), 2, entry.local.min)
    ensures SpellsPadded(Render(entry, "%S"), 2, entry.local.sec)
    ensures SpellsPadded(Render(entry, "%gY"), 4, entry.gmt.year + 1900)
    ensures SpellsPadded(Render(entry, "%gm"), 2, entry.gmt.mon + 1)
    ensures SpellsPadded(Render(entry, "%gd"), 2, entry.gmt.mday)
    ensures SpellsPadded(Render(entry, "%gH"), 2, entry.gmt.hour)
    ensures SpellsPadded(Render(entry, "%gM"), 2, entry.gmt.min)
    ensures SpellsPadded(Render(entry, "%gS"), 2, entry.gmt.sec)
  {
    hide Render, Padded, Decimal, Spells, SpellsPadded, Zone;
    LineNumberPrinted(entry);
    ClockUnit(entry, 'Y', "%Y", "%gY");
    ClockUnit(entry, 'm', "%m", "%gm");
    ClockUnit(entry, 'd', "%d", "%gd");
    ClockUnit(entry, 'H', "%H", "%gH");
    ClockUnit(entry, 'M', "%M", "%gM");
    ClockUnit(entry, 'S', "%S", "%gS");
    ClockSpells(entry.local, Zone(entry.local.gmtoff));
    ClockSpells(entry.gmt, "Z");
  }

  lemma LineNumberPrinted(entry: Entry)
    ensures Spells(Render(entry, "%n"), entry.lineno)
  {
    hide Render, Decimal, Spells;
    OneDirective(entry, Field('n'), "%n");
    DecimalSpells(entry.lineno);
  }

  lemma ClockSpells(c: Clock, zone: string)
    requires c.year >= -1900
    ensures SpellsPadded(ClockText(c, zone, 'Y'), 4, c.year + 1900)
    ensures SpellsPadded(ClockText(c, zone, 'm'), 2, c.mon + 1)
    ensures SpellsPadded(ClockText(c, zone, 'd'), 2, c.mday)
    ensures SpellsPadded(ClockText(c, zone, 'H'), 2, c.hour)
    ensures SpellsPadded(ClockText(c, zone, 'M'), 2, c.min)
    ensures SpellsPadded(ClockText(c, zone, 'S'), 2, c.sec)
  {
    hide Padded, SpellsPadded;
    PaddedSpells(4, c.year + 1900);
    PaddedSpells(2, c.mon + 1);
    PaddedSpells(2, c.mday);
    PaddedSpells(2, c.hour);
    PaddedSpells(2, c.min);
    PaddedSpells(2, c.sec);
  }

  // ---------------------------------------------------------------------------------------------
  // Names and zone

  // The names in English, by their first three letters.
  function MonthName(mon: nat): string {
    match mon
    case 0 => "Jan" case 1 => "Feb" case 2 => "Mar" case 3 => "Apr" case 4 => "May" case 5 => "Jun"
    case 6 => "Jul" case 7 => "Aug" case 8 => "Sep" case 9 => "Oct" case 10 => "Nov" case _ => "Dec"
  }

  function WeekdayName(wday: nat): string {
    match wday
    case 0 => "Sun" case 1 => "Mon" case 2 => "Tue" case 3 => "Wed" case 4 => "Thu" case 5 => "Fri"
    case _ => "Sat"
  }

  /** The month is named for 'a' and the day of the week for 'b'. */
  lemma NamesPrinted(entry: Entry)
    ensures Render(entry, "%a") == MonthName(entry.local.mon) && Render(entry, "%ga") == MonthName(entry.gmt.mon)
    ensures Render(entry, "%b") == WeekdayName(entry.local.wday) && Render(entry, "%gb") == WeekdayName(entry.gmt.wday)
  {
    hide Render, Month, Weekday, Padded, Zone, MonthName, WeekdayName;
    ClockUnit(entry, 'a', "%a", "%ga");
    ClockUnit(entry, 'b', "%b", "%gb");
    NamesListed(entry.local);
    NamesListed(entry.gmt);
  }

  lemma NamesListed(c: Clock)
    ensures Month(c) == MonthName(c.mon) && Weekday(c) == WeekdayName(c.wday)
  {
  }

  /** The offset from GMT: a sign, which is '-' from one whole minute west on, two digits each for hours and minutes. */
  lemma ZonePrinted(entry: Entry)
    requires -360000 < entry.local.gmtoff < 360000
    ensures var s := Render(entry, "%z");
      var gmtoff := entry.local.gmtoff;
      var minutes := (if gmtoff < 0 then -gmtoff else gmtoff) / 60;
      && |s| == 5 && s[0] == (if gmtoff <= -60 then '-' else '+')
      && AllDigits(s[1..3]) && AllDigits(s[3..5])
      && Number(s[1..3]) * 60 + Number(s[3..5]) == minutes && Number(s[3..5]) < 60
  {
    hide Render, Padded, SpellsPadded, Number, AllDigits;
    var gmtoff := entry.local.gmtoff;
    var minutes := (if gmtoff < 0 then -gmtoff else gmtoff) / 60;
    OneDirective(entry, Local('z'), "%z");
    TwoDigits(minutes / 60);
    TwoDigits(minutes % 60);
    var s := Zone(gmtoff);
    assert s[1..3] == Padded(2, minutes / 60) && s[3..5] == Padded(2, minutes % 60);
  }

  lemma TwoDigits(n: nat)
    requires n < 100
    ensures |Padded(2, n)| == 2 && AllDigits(Padded(2, n)) && Number(Padded(2, n)) == n
  {
    hide Padded, Number, AllDigits;
    PaddedSpells(2, n);
    assert PowerOfTen(2) == 10 * PowerOfTen(1) && PowerOfTen(1) == 10;
  }
}
