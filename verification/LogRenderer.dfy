/** The renderer of the log template language, proved against the meaning of the tokens. */
module LogRenderer {
  import opened CStrings
  import opened Escapers
  import opened LogTemplate

  // ---------------------------------------------------------------------------------------------
  // What a token prints

  datatype Level = Info | Error

  // The fields of a broken-down time that are printed.
  datatype Tm = Tm(year: int, mon: nat, mday: nat, hour: nat, min: nat, sec: nat, wday: nat, gmtoff: int)

  type Clock = tm: Tm | tm.mon < 12 && tm.wday < 7 witness Tm(70, 0, 1, 0, 0, 0, 4, 0)

  datatype Entry = Entry(level: Level, filename: CString, lineno: nat, message: CString, local: Clock, gmt: Clock)

  const WEEKDAYS: seq<string> := ["Sun", "Mon", "Tue", "Wed", "Thu", "Fri", "Sat"]

  const MONTHS: seq<string> :=
    ["Jan", "Feb", "Mar", "Apr", "May", "Jun", "Jul", "Aug", "Sep", "Oct", "Nov", "Dec"]

  function Weekday(c: Clock): string {
    WEEKDAYS[c.wday]
  }

  function Month(c: Clock): string {
    MONTHS[c.mon]
  }

  function Decimal(n: nat): string {
    if n < 10 then [('0' as nat + n) as char] else Decimal(n / 10) + [('0' as nat + n % 10) as char]
  }

  function Zeros(n: nat): string {
    if n == 0 then "" else "0" + Zeros(n - 1)
  }

  // What printf() makes of %0<width>d.
  function Padded(width: nat, n: int): string {
    var sign := if n < 0 then "-" else "";
    var digits := Decimal(if n < 0 then -n else n);
    var used := |sign| + |digits|;
    sign + Zeros(if used < width then width - used else 0) + digits
  }

  function Date(c: Clock): string {
    Padded(4, c.year + 1900) + "-" + Padded(2, c.mon + 1) + "-" + Padded(2, c.mday)
  }

  function Time(c: Clock): string {
    Padded(2, c.hour) + ":" + Padded(2, c.min) + ":" + Padded(2, c.sec)
  }

  // The offset from GMT, in hours and whole minutes.
  function Zone(gmtoff: int): string {
    var minutes := (if gmtoff < 0 then -gmtoff else gmtoff) / 60;
    (if gmtoff <= -60 then "-" else "+") + Padded(2, minutes / 60) + Padded(2, minutes % 60)
  }

  // The month name is printed for 'a' and the weekday for 'b'.
  function ClockText(c: Clock, zone: string, unit: char): string {
    if unit == 'Y' then Padded(4, c.year + 1900)
    else if unit == 'm' then Padded(2, c.mon + 1)
    else if unit == 'd' then Padded(2, c.mday)
    else if unit == 'H' then Padded(2, c.hour)
    else if unit == 'M' then Padded(2, c.min)
    else if unit == 'S' then Padded(2, c.sec)
    else if unit == 'z' then zone
    else if unit == 't' then Date(c) + " " + Time(c) + zone
    else if unit == 'T' then Date(c) + "T" + Time(c) + zone
    else if unit == 'a' then Month(c)
    else Weekday(c)
  }

  function HttpDateText(c: Clock): string {
    Weekday(c) + ", " + Padded(2, c.mday) + " " + Month(c) + " " + Padded(4, c.year + 1900) + " " + Time(c) + " GMT"
  }

  function FieldText(entry: Entry, field: char): string {
    if field == 's' then entry.message
    else if field == 'f' then entry.filename
    else if field == 'n' then Decimal(entry.lineno)
    else if field == 'l' then (if entry.level == Info then "info" else "error")
    else (if entry.level == Info then "INFO" else "ERROR")
  }

  function Meaning(entry: Entry, token: Token): string {
    match token
    case Literal(ch) => [ch]
    case Local(unit) => ClockText(entry.local, Zone(entry.local.gmtoff), unit)
    case Gmt(unit) => ClockText(entry.gmt, "Z", unit)
    case HttpDate => HttpDateText(entry.gmt)
    case Field(field) => FieldText(entry, field)
    case Escaped(format, field) => Escape(format, FieldText(entry, field))
    case Percent => "%"
    case Unknown(ch) => ['%', ch]
    case Dangling => "%"
  }

  function RenderAll(entry: Entry, tokens: seq<Token>): string {
    if tokens == [] then "" else Meaning(entry, tokens[0]) + RenderAll(entry, tokens[1..])
  }

  function Render(entry: Entry, template: string): string {
    RenderAll(entry, Scan(template))
  }

  // ---------------------------------------------------------------------------------------------
  // Laws

  lemma RenderFirst(entry: Entry, token: Token, rest: seq<Token>)
    ensures RenderAll(entry, [token] + rest) == Meaning(entry, token) + RenderAll(entry, rest)
  {
    assert ([token] + rest)[1..] == rest;
  }

  lemma {:induction false} RenderAppend(entry: Entry, s: seq<Token>, t: seq<Token>)
    ensures RenderAll(entry, s + t) == RenderAll(entry, s) + RenderAll(entry, t)
    decreases |s|
  {
    hide Meaning;
    if s == [] {
      assert s + t == t;
    } else {
      RenderAppend(entry, s[1..], t);
      assert (s + t)[1..] == s[1..] + t;
    }
  }

  lemma RenderNext(entry: Entry, t: string)
    requires t != ""
    ensures Render(entry, t) == Meaning(entry, Next(t)) + Render(entry, t[|Spelling(Next(t))|..])
  {
    hide Meaning, Next, Spelling, RenderAll;
    RenderFirst(entry, Next(t), Scan(t[|Spelling(Next(t))|..]));
  }

  // Text without '%' stands for itself.
  lemma {:induction false} RenderText(entry: Entry, text: string, rest: string)
    requires '%' !in text
    ensures Render(entry, text + rest) == text + Render(entry, rest)
    decreases |text|
  {
    hide Render, Meaning;
    if text == "" {
      assert text + rest == rest;
    } else {
      RenderText(entry, text[1..], rest);
      assert text + rest == [text[0]] + (text[1..] + rest);
      RenderLiteral(entry, text[0], text[1..] + rest);
      assert text == [text[0]] + text[1..];
    }
  }

  lemma RenderLiteral(entry: Entry, ch: char, rest: string)
    requires ch != '%'
    ensures Render(entry, [ch] + rest) == [ch] + Render(entry, rest)
  {
    hide Render, ClockText, FieldText, Escape, HttpDateText;
    RenderDirective(entry, Literal(ch), rest);
  }

  lemma RenderDirective(entry: Entry, token: Token, rest: string)
    requires Known(token)
    ensures Render(entry, Spelling(token) + rest) == Meaning(entry, token) + Render(entry, rest)
  {
    hide Meaning, Scan, RenderAll, Spelling, Known;
    ScanFirst(token, rest);
    RenderFirst(entry, token, Scan(rest));
  }

  /** A template spelled by known tokens prints what they mean, one after the other. */
  lemma RenderSpelled(entry: Entry, tokens: seq<Token>)
    requires AllKnown(tokens)
    ensures Render(entry, SpellAll(tokens)) == RenderAll(entry, tokens)
  {
    ScanSpelled(tokens);
  }

  // The message, raw or escaped for one of the formats.
  ghost predicate ShowsMessage(entry: Entry, s: string) {
    s == entry.message || exists format :: s == Escape(format, entry.message)
  }

  lemma {:induction false} RenderSplit(entry: Entry, tokens: seq<Token>, i: nat)
    requires i < |tokens|
    ensures RenderAll(entry, tokens)
         == RenderAll(entry, tokens[..i]) + (Meaning(entry, tokens[i]) + RenderAll(entry, tokens[i + 1..]))
  {
    hide RenderAll, Meaning;
    assert tokens == tokens[..i] + ([tokens[i]] + tokens[i + 1..]);
    RenderAppend(entry, tokens[..i], [tokens[i]] + tokens[i + 1..]);
    RenderFirst(entry, tokens[i], tokens[i + 1..]);
  }

  lemma MessageIsShown(entry: Entry, token: Token)
    requires IsMessage(token)
    ensures ShowsMessage(entry, Meaning(entry, token))
  {
    hide Escape;
  }

  /** What an accepted template prints contains the message. */
  lemma AcceptedShowsMessage(entry: Entry, template: string)
    requires HasMessage(Scan(template))
    ensures exists before, shown, after ::
        ShowsMessage(entry, shown) && Render(entry, template) == before + shown + after
  {
    hide Scan, RenderAll, Meaning, IsMessage, ShowsMessage;
    var tokens := Scan(template);
    var i :| 0 <= i < |tokens| && IsMessage(tokens[i]);
    RenderSplit(entry, tokens, i);
    MessageIsShown(entry, tokens[i]);
    var before, shown := RenderAll(entry, tokens[..i]), Meaning(entry, tokens[i]);
    var after := RenderAll(entry, tokens[i + 1..]);
    assert Render(entry, template) == before + shown + after;
  }

  // ---------------------------------------------------------------------------------------------
  // The renderer

  // FORMAT_ARG: a field in one of the formats, or the directive as it was written.
  method PrintArg(fp: OutputStream, format: Format, entry: Entry, ch: char) returns (known: bool)
    modifies fp
    ensures known <==> IsEscapable(ch)
    ensures fp.written == old(fp.written)
      + if known then Escape(format, FieldText(entry, ch)) else ['%', LetterOf(format)]
  {
    hide Escape;
    known := true;
    match ch {
      case 's' => PrintEscaped(format, fp, entry.message);
      case 'f' => PrintEscaped(format, fp, entry.filename);
      case 'l' => PrintEscaped(format, fp, if entry.level == Info then "info" else "error");
      case 'L' => PrintEscaped(format, fp, if entry.level == Info then "INFO" else "ERROR");
      case _ =>
        fp.Write(['%', LetterOf(format)]);
        known := false;
    }
  }

  // The escaper the macro is instantiated with.
  method PrintEscaped(format: Format, fp: OutputStream, str: CString)
    modifies fp
    ensures fp.written == old(fp.written) + Escape(format, str)
  {
    match format {
      case Json => PrintJsonString(fp, str);
      case Xml => PrintXmlString(fp, str);
      case Sql => PrintSqlString(fp, str);
      case Csv => PrintCsvString(fp, str);
    }
  }

  // Division as C does it.
  function Quotient(a: int, b: nat): int
    requires b > 0
  {
    if a < 0 then -((-a) / b) else a / b
  }

  method SplitOffset(gmtoff: int) returns (tzsign: char, tzhour: nat, tzmin: nat)
    ensures [tzsign] + Padded(2, tzhour) + Padded(2, tzmin) == Zone(gmtoff)
  {
    hide Padded;
    var tzoff := Quotient(gmtoff, 60);
    if tzoff < 0 {
      tzsign := '-';
      tzoff := -tzoff;
    } else {
      tzsign := '+';
    }
    tzhour := tzoff / 60;
    tzmin := tzoff % 60;
  }

  // The cases of the switch that print local time.
  method PrintLocal(fp: OutputStream, now: Clock, tzsign: char, tzhour: nat, tzmin: nat, ch: char)
      returns (known: bool)
    requires [tzsign] + Padded(2, tzhour) + Padded(2, tzmin) == Zone(now.gmtoff)
    modifies fp
    ensures known <==> IsLocalUnit(ch)
    ensures if known then fp.written == old(fp.written) + ClockText(now, Zone(now.gmtoff), ch)
      else fp.written == old(fp.written)
  {
    hide Padded, Zone;
    known := true;
    match ch {
      case 'Y' => fp.Write(Padded(4, now.year + 1900));
      case 'm' => fp.Write(Padded(2, now.mon + 1));
      case 'd' => fp.Write(Padded(2, now.mday));
      case 'H' => fp.Write(Padded(2, now.hour));
      case 'M' => fp.Write(Padded(2, now.min));
      case 'S' => fp.Write(Padded(2, now.sec));
      case 'z' => fp.Write([tzsign] + Padded(2, tzhour) + Padded(2, tzmin));
      case 't' =>
        FlatStamp(now, " ", [tzsign], Padded(2, tzhour), Padded(2, tzmin));
        fp.Write(Padded(4, now.year + 1900) + "-" + Padded(2, now.mon + 1) + "-" + Padded(2, now.mday) + " " +
                 Padded(2, now.hour) + ":" + Padded(2, now.min) + ":" + Padded(2, now.sec) +
                 [tzsign] + Padded(2, tzhour) + Padded(2, tzmin));
      case 'T' =>
        FlatStamp(now, "T", [tzsign], Padded(2, tzhour), Padded(2, tzmin));
        fp.Write(Padded(4, now.year + 1900) + "-" + Padded(2, now.mon + 1) + "-" + Padded(2, now.mday) + "T" +
                 Padded(2, now.hour) + ":" + Padded(2, now.min) + ":" + Padded(2, now.sec) +
                 [tzsign] + Padded(2, tzhour) + Padded(2, tzmin));
      case 'a' => fp.Write(MONTHS[now.mon]);
      case 'b' => fp.Write(WEEKDAYS[now.wday]);
      case _ => known := false;
    }
  }

  lemma FlatStamp(now: Clock, separator: string, a: string, b: string, c: string)
    ensures Padded(4, now.year + 1900) + "-" + Padded(2, now.mon + 1) + "-" + Padded(2, now.mday) + separator +
            Padded(2, now.hour) + ":" + Padded(2, now.min) + ":" + Padded(2, now.sec) + a + b + c
         == Date(now) + separator + Time(now) + (a + b + c)
  {
    hide Padded;
    var date, h, m, s := Date(now), Padded(2, now.hour), Padded(2, now.min), Padded(2, now.sec);
    assert date + separator + h + ":" + m + ":" + s + a + b + c
        == date + separator + (h + ":" + m + ":" + s) + (a + b + c);
  }

  // The switch behind %g.
  method PrintGmt(fp: OutputStream, now: Clock, ch: char) returns (known: bool)
    modifies fp
    ensures known <==> IsGmtUnit(ch)
    ensures fp.written == old(fp.written) + if known then ClockText(now, "Z", ch) else "%g"
  {
    hide Padded;
    known := true;
    match ch {
      case 'Y' => fp.Write(Padded(4, now.year + 1900));
      case 'm' => fp.Write(Padded(2, now.mon + 1));
      case 'd' => fp.Write(Padded(2, now.mday));
      case 'H' => fp.Write(Padded(2, now.hour));
      case 'M' => fp.Write(Padded(2, now.min));
      case 'S' => fp.Write(Padded(2, now.sec));
      case 't' =>
        FlatGmtStamp(now, " ");
        fp.Write(Padded(4, now.year + 1900) + "-" + Padded(2, now.mon + 1) + "-" + Padded(2, now.mday) + " " +
                 Padded(2, now.hour) + ":" + Padded(2, now.min) + ":" + Padded(2, now.sec) + "Z");
      case 'T' =>
        FlatGmtStamp(now, "T");
        fp.Write(Padded(4, now.year + 1900) + "-" + Padded(2, now.mon + 1) + "-" + Padded(2, now.mday) + "T" +
                 Padded(2, now.hour) + ":" + Padded(2, now.min) + ":" + Padded(2, now.sec) + "Z");
      case 'a' => fp.Write(MONTHS[now.mon]);
      case 'b' => fp.Write(WEEKDAYS[now.wday]);
      case _ =>
        fp.Write("%g");
        known := false;
    }
  }

  lemma FlatGmtStamp(now: Clock, separator: string)
    ensures Padded(4, now.year + 1900) + "-" + Padded(2, now.mon + 1) + "-" + Padded(2, now.mday) + separator +
            Padded(2, now.hour) + ":" + Padded(2, now.min) + ":" + Padded(2, now.sec) + "Z"
         == Date(now) + separator + Time(now) + "Z"
  {
    FlatStamp(now, separator, "Z", "", "");
    assert "Z" + "" + "" == "Z";
    hide Padded;
    var head := Padded(4, now.year + 1900) + "-" + Padded(2, now.mon + 1) + "-" + Padded(2, now.mday) + separator +
                Padded(2, now.hour) + ":" + Padded(2, now.min) + ":" + Padded(2, now.sec) + "Z";
    assert head + "" + "" == head;
  }

  method PrintHttpDate(fp: OutputStream, now: Clock)
    modifies fp
    ensures fp.written == old(fp.written) + HttpDateText(now)
  {
    hide Padded;
    var date := WEEKDAYS[now.wday] + ", " + Padded(2, now.mday) + " " + MONTHS[now.mon] + " " +
                Padded(4, now.year + 1900) + " ";
    var h, m, s := Padded(2, now.hour), Padded(2, now.min), Padded(2, now.sec);
    fp.Write(date + h + ":" + m + ":" + s + " GMT");
    assert date + h + ":" + m + ":" + s + " GMT" == date + (h + ":" + m + ":" + s) + " GMT";
  }

  lemma FormattedToken(entry: Entry, template: string, start: nat, argument: char)
    requires 2 <= start <= |template| && template[start - 2] == '%' && IsFormatLetter(template[start - 1])
    requires argument == At(template, start)
    ensures var format, token := FormatOf(template[start - 1]), Next(template[start - 2..]);
      if IsEscapable(argument)
      then |Spelling(token)| == 3 && Meaning(entry, token) == Escape(format, FieldText(entry, argument))
      else |Spelling(token)| == 2 && Meaning(entry, token) == ['%', LetterOf(format)]
  {
    hide Escape, ClockText, HttpDateText, FieldText;
    var t := template[start - 2..];
    assert t[0] == '%' && t[1] == template[start - 1] && (|t| > 2 ==> t[2] == argument);
  }

  // The cases that print a field in one of the formats. Behind the letter comes the argument.
  method PrintFormatted(fp: OutputStream, template: CString, start: nat, entry: Entry) returns (known: bool, ptr: nat)
    requires 2 <= start <= |template| && template[start - 2] == '%'
    modifies fp
    ensures var letter := template[start - 1]; var token := Next(template[start - 2..]);
      && (known <==> IsFormatLetter(letter))
      && ptr == (if known then start - 2 + |Spelling(token)| else start)
      && if known then fp.written == old(fp.written) + Meaning(entry, token) else fp.written == old(fp.written)
  {
    hide Escape, FieldText, Next, Spelling, Meaning;
    if IsFormatLetter(template[start - 1]) {
      FormattedToken(entry, template, start, At(template, start));
    }
    var argument;
    ptr := start;
    known := true;
    match template[start - 1] {
      case 'j' => argument := PrintArg(fp, Json, entry, At(template, ptr));
      case 'x' => argument := PrintArg(fp, Xml, entry, At(template, ptr));
      case 'q' => argument := PrintArg(fp, Sql, entry, At(template, ptr));
      case 'c' => argument := PrintArg(fp, Csv, entry, At(template, ptr));
      case _ => return false, ptr;
    }
    if argument {
      ptr := ptr + 1;
    }
  }

  // What is left when local time and formats are taken out.
  lemma OtherToken(entry: Entry, template: string, start: nat)
    requires start + 1 < |template| && template[start] == '%'
    requires var ch := template[start + 1]; !IsLocalUnit(ch) && !IsFormatLetter(ch) && ch != 'g'
    ensures var ch, token := template[start + 1], Next(template[start..]);
      && |Spelling(token)| == 2
      && Meaning(entry, token) ==
           if IsField(ch) then FieldText(entry, ch)
           else if ch == 'h' then HttpDateText(entry.gmt)
           else if ch == '%' then "%"
           else ['%', ch]
  {
    hide Escape, ClockText, HttpDateText, FieldText;
    var t := template[start..];
    assert t[0] == '%' && t[1] == template[start + 1];
  }

  lemma GmtToken(entry: Entry, template: string, start: nat, argument: char)
    requires start + 1 < |template| && template[start] == '%' && template[start + 1] == 'g'
    requires argument == At(template, start + 2)
    ensures var token := Next(template[start..]);
      && |Spelling(token)| == (if IsGmtUnit(argument) then 3 else 2)
      && Meaning(entry, token) == if IsGmtUnit(argument) then ClockText(entry.gmt, "Z", argument) else "%g"
  {
    hide Escape, ClockText, HttpDateText, FieldText;
    var t := template[start..];
    assert t[0] == '%' && t[1] == 'g' && (|t| > 2 ==> t[2] == argument);
  }

  lemma LocalToken(entry: Entry, template: string, start: nat)
    requires start + 1 < |template| && template[start] == '%' && IsLocalUnit(template[start + 1])
    ensures var token := Next(template[start..]);
      && |Spelling(token)| == 2
      && Meaning(entry, token) == ClockText(entry.local, Zone(entry.local.gmtoff), template[start + 1])
  {
    hide Escape, ClockText, HttpDateText, FieldText, Zone;
    var t := template[start..];
    assert t[0] == '%' && t[1] == template[start + 1];
  }

  // The switch over the character behind '%'; `ptr` is left behind the directive.
  method PrintDirective(fp: OutputStream, template: CString, start: nat, entry: Entry,
                        tzsign: char, tzhour: nat, tzmin: nat)
      returns (ptr: nat)
    requires start + 1 < |template| && template[start] == '%'
    requires [tzsign] + Padded(2, tzhour) + Padded(2, tzmin) == Zone(entry.local.gmtoff)
    modifies fp
    ensures var token := Next(template[start..]);
      ptr == start + |Spelling(token)| && fp.written == old(fp.written) + Meaning(entry, token)
  {
    hide Escape, ClockText, HttpDateText, Padded, Zone, Decimal, Next, Spelling, Meaning;
    var ch := template[start + 1];
    ptr := start + 2;
    var known := PrintLocal(fp, entry.local, tzsign, tzhour, tzmin, ch);
    if known {
      LocalToken(entry, template, start);
      return;
    }
    known, ptr := PrintFormatted(fp, template, ptr, entry);
    if known {
      return;
    }
    if ch == 'g' {
      GmtToken(entry, template, start, At(template, ptr));
    } else {
      OtherToken(entry, template, start);
    }
    match ch {
      case 's' => fp.Write(entry.message);
      case 'f' => fp.Write(entry.filename);
      case 'n' => fp.Write(Decimal(entry.lineno));
      case 'l' => fp.Write(if entry.level == Info then "info" else "error");
      case 'L' => fp.Write(if entry.level == Info then "INFO" else "ERROR");
      case 'h' => PrintHttpDate(fp, entry.gmt);
      case 'g' =>
        known := PrintGmt(fp, entry.gmt, At(template, ptr));
        ptr := if known then ptr + 1 else ptr;
      case '%' => fp.Write("%");
      case _ => fp.Write(template[ptr - 2..ptr]);
    }
  }

  lemma RenderAt(entry: Entry, t: string, ptr: nat)
    requires ptr < |t|
    ensures var token := Next(t[ptr..]); var next := ptr + |Spelling(token)|;
      next <= |t| && Render(entry, t[ptr..]) == Meaning(entry, token) + Render(entry, t[next..])
  {
    hide Meaning, Spelling, Render;
    RenderNext(entry, t[ptr..]);
    var k := |Spelling(Next(t[ptr..]))|;
    assert t[ptr..][k..] == t[ptr + k..];
  }

  lemma OneCharacter(entry: Entry, t: string)
    requires t != "" && (t[0] != '%' || |t| == 1)
    ensures |Spelling(Next(t))| == 1 && Meaning(entry, Next(t)) == [t[0]]
  {
  }

  lemma RenderNothing(entry: Entry)
    ensures Render(entry, "") == ""
  {
  }

  method PrintLogTemplate(fp: OutputStream, template: CString, entry: Entry)
    modifies fp
    ensures fp.written == old(fp.written) + Render(entry, template) + "\n"
  {
    hide Meaning, Next, Spelling, Render, Padded, Zone;
    RenderNothing(entry);
    ghost var before := fp.written;
    var tzsign, tzhour, tzmin := SplitOffset(entry.local.gmtoff);
    var prev, ptr := 0, 0;
    assert template[0..] == template && template[..0] == "";
    while true
      invariant 0 <= prev <= ptr <= |template|
      invariant fp.written + template[prev..ptr] + Render(entry, template[ptr..]) == before + Render(entry, template)
      decreases |template| - ptr
    {
      var ch := At(template, ptr);
      if ch == '\0' {
        fp.Write(template[prev..ptr]);
        assert template[ptr..] == "";
        break;
      }
      RenderAt(entry, template, ptr);
      ghost var start, rest := fp.written, Render(entry, template[ptr..]);
      if ch == '%' {
        fp.Write(template[prev..ptr]);
        if At(template, ptr + 1) == '\0' {
          OneCharacter(entry, template[ptr..]);
          fp.Write("%");
          assert template[ptr + 1..] == "";
          break;
        }
        ptr := PrintDirective(fp, template, ptr, entry, tzsign, tzhour, tzmin);
        prev := ptr;
        assert template[prev..ptr] == "";
      } else {
        OneCharacter(entry, template[ptr..]);
        ptr := ptr + 1;
        assert template[prev..ptr] == template[prev..ptr - 1] + [ch];
      }
    }
    fp.Write("\n");
  }
}
