/** The directives that the help text defines in terms of others. */
module LogDates {
  import opened LogTemplate
  import opened LogRenderer

  // The documented expansions, taken apart; `separator` stands between date and time.
  function LocalExpansion(separator: string): string {
    "%Y" + ("-" + ("%m" + ("-" + ("%d" + (separator +
      ("%H" + (":" + ("%M" + (":" + ("%S" + ("%z" + "")))))))))))
  }

  function GmtExpansion(separator: string): string {
    "%gY" + ("-" + ("%gm" + ("-" + ("%gd" + (separator +
      ("%gH" + (":" + ("%gM" + (":" + ("%gS" + ("Z" + "")))))))))))
  }

  // `first` and `second` are the directives of the two names.
  function HttpExpansion(first: string, second: string): string {
    first + (", " + ("%gd" + (" " + (second + (" " + HttpRest())))))
  }

  function HttpRest(): string {
    "%gY" + (" " + ("%gH" + (":" + ("%gM" + (":" + ("%gS" + (" GMT" + "")))))))
  }

  lemma LocalExpansions()
    ensures LocalExpansion(" ") == "%Y-%m-%d %H:%M:%S%z" && LocalExpansion("T") == "%Y-%m-%dT%H:%M:%S%z"
  {
  }

  lemma GmtExpansions()
    ensures GmtExpansion(" ") == "%gY-%gm-%gd %gH:%gM:%gSZ" && GmtExpansion("T") == "%gY-%gm-%gdT%gH:%gM:%gSZ"
  {
  }

  lemma HttpExpansions()
    ensures HttpExpansion("%ga", "%gb") == "%ga, %gd %gb %gY %gH:%gM:%gS GMT"
    ensures HttpExpansion("%gb", "%ga") == "%gb, %gd %ga %gY %gH:%gM:%gS GMT"
  {
    hide HttpExpansion;
    HttpRestSpelled();
    HttpFirst();
    HttpSwapped();
  }

  lemma HttpRestSpelled()
    ensures HttpRest() == "%gY %gH:%gM:%gS GMT"
  {
  }

  lemma HttpFirst()
    requires HttpRest() == "%gY %gH:%gM:%gS GMT"
    ensures HttpExpansion("%ga", "%gb") == "%ga, %gd %gb %gY %gH:%gM:%gS GMT"
  {
    hide HttpRest;
  }

  lemma HttpSwapped()
    requires HttpRest() == "%gY %gH:%gM:%gS GMT"
    ensures HttpExpansion("%gb", "%ga") == "%gb, %gd %ga %gY %gH:%gM:%gS GMT"
  {
    hide HttpRest;
  }

  lemma LocalThen(entry: Entry, unit: char, text: string, rest: string)
    requires IsLocalUnit(unit) && '%' !in text
    ensures Render(entry, ['%', unit] + (text + rest))
         == ClockText(entry.local, Zone(entry.local.gmtoff), unit) + (text + Render(entry, rest))
  {
    hide Render, ClockText, Zone;
    RenderDirective(entry, Local(unit), text + rest);
    RenderText(entry, text, rest);
  }

  lemma GmtThen(entry: Entry, unit: char, text: string, rest: string)
    requires IsGmtUnit(unit) && '%' !in text
    ensures Render(entry, ['%', 'g', unit] + (text + rest))
        == ClockText(entry.gmt, "Z", unit) + (text + Render(entry, rest))
  {
    hide Render, ClockText;
    RenderDirective(entry, Gmt(unit), text + rest);
    RenderText(entry, text, rest);
  }

  lemma ClockParts(c: Clock, zone: string)
    ensures ClockText(c, zone, 'Y') == Padded(4, c.year + 1900) && ClockText(c, zone, 'm') == Padded(2, c.mon + 1)
    ensures ClockText(c, zone, 'd') == Padded(2, c.mday) && ClockText(c, zone, 'H') == Padded(2, c.hour)
    ensures ClockText(c, zone, 'M') == Padded(2, c.min) && ClockText(c, zone, 'S') == Padded(2, c.sec)
    ensures ClockText(c, zone, 'z') == zone && ClockText(c, zone, 't') == Date(c) + " " + Time(c) + zone
    ensures ClockText(c, zone, 'a') == Month(c) && ClockText(c, zone, 'b') == Weekday(c)
  {
    hide Padded, Date, Time, Month, Weekday;
  }

  lemma NestedDate(y: string, m: string, d: string, separator: string, rest: string)
    ensures y + ("-" + (m + ("-" + (d + (separator + rest))))) == y + "-" + m + "-" + d + separator + rest
  {
  }

  lemma NestedTime(h: string, m: string, s: string, rest: string)
    ensures h + (":" + (m + (":" + (s + rest)))) == h + ":" + m + ":" + s + rest
  {
  }

  /** %t and %T print what the help text says they are short for. */
  lemma LocalDateTime(entry: Entry)
    ensures Render(entry, "%t") == Render(entry, "%Y-%m-%d %H:%M:%S%z")
    ensures Render(entry, "%T") == Render(entry, "%Y-%m-%dT%H:%M:%S%z")
  {
    hide Render, LocalExpansion, Zone, Date, Time;
    LocalExpansions();
    RenderDirective(entry, Local('t'), "");
    RenderDirective(entry, Local('T'), "");
    RenderNothing(entry);
    LocalDateTimeExpanded(entry, " ");
    LocalDateTimeExpanded(entry, "T");
    assert "%t" + "" == "%t" && "%T" + "" == "%T";
  }

  lemma LocalDateTimeExpanded(entry: Entry, separator: string)
    requires '%' !in separator
    ensures var c := entry.local;
      Render(entry, LocalExpansion(separator)) == Date(c) + separator + Time(c) + Zone(c.gmtoff)
  {
    hide Render, Padded, Zone, ClockText;
    var r5 := "%S" + ("%z" + "");
    var r4 := "%M" + (":" + r5);
    var r3 := "%H" + (":" + r4);
    var r2 := "%d" + (separator + r3);
    var r1 := "%m" + ("-" + r2);
    LocalThen(entry, 'Y', "-", r1);
    LocalThen(entry, 'm', "-", r2);
    LocalThen(entry, 'd', separator, r3);
    var c := entry.local;
    var time := Render(entry, r3);
    ClockParts(c, Zone(c.gmtoff));
    NestedDate(Padded(4, c.year + 1900), Padded(2, c.mon + 1), Padded(2, c.mday), separator, time);
    LocalTimeExpanded(entry);
    assert Date(c) + separator + (Time(c) + Zone(c.gmtoff)) == Date(c) + separator + Time(c) + Zone(c.gmtoff);
  }

  lemma LocalTimeExpanded(entry: Entry)
    ensures var c := entry.local;
      Render(entry, "%H" + (":" + ("%M" + (":" + ("%S" + ("%z" + "")))))) == Time(c) + Zone(c.gmtoff)
  {
    hide Render, Padded, Zone, ClockText;
    var r5 := "%S" + ("%z" + "");
    var r4 := "%M" + (":" + r5);
    LocalThen(entry, 'H', ":", r4);
    LocalThen(entry, 'M', ":", r5);
    var c := entry.local;
    ClockParts(c, Zone(c.gmtoff));
    SecondsAndZone(entry);
    NestedTime(Padded(2, c.hour), Padded(2, c.min), Padded(2, c.sec), Zone(c.gmtoff));
  }

  lemma SecondsAndZone(entry: Entry)
    ensures var c := entry.local;
      Render(entry, "%S" + ("%z" + "")) == ClockText(c, Zone(c.gmtoff), 'S') + ClockText(c, Zone(c.gmtoff), 'z')
  {
    hide Render, Padded, Zone, ClockText;
    RenderDirective(entry, Local('S'), "%z" + "");
    RenderDirective(entry, Local('z'), "");
    RenderNothing(entry);
  }

  /** %gt and %gT print what the help text says they are short for. */
  lemma GmtDateTime(entry: Entry)
    ensures Render(entry, "%gt") == Render(entry, "%gY-%gm-%gd %gH:%gM:%gSZ")
    ensures Render(entry, "%gT") == Render(entry, "%gY-%gm-%gdT%gH:%gM:%gSZ")
  {
    hide Render, GmtExpansion, Date, Time;
    GmtExpansions();
    GmtDateTimeExpanded(entry, " ");
    GmtDateTimeExpanded(entry, "T");
    RenderDirective(entry, Gmt('t'), "");
    RenderDirective(entry, Gmt('T'), "");
    RenderNothing(entry);
    assert "%gt" + "" == "%gt" && "%gT" + "" == "%gT";
  }

  lemma GmtDateTimeExpanded(entry: Entry, separator: string)
    requires '%' !in separator
    ensures var c := entry.gmt; Render(entry, GmtExpansion(separator)) == Date(c) + separator + Time(c) + "Z"
  {
    hide Render, Padded, ClockText;
    var r3 := "%gH" + (":" + ("%gM" + (":" + ("%gS" + ("Z" + "")))));
    var r2 := "%gd" + (separator + r3);
    var r1 := "%gm" + ("-" + r2);
    GmtThen(entry, 'Y', "-", r1);
    GmtThen(entry, 'm', "-", r2);
    GmtThen(entry, 'd', separator, r3);
    var c := entry.gmt;
    ClockParts(c, "Z");
    NestedDate(Padded(4, c.year + 1900), Padded(2, c.mon + 1), Padded(2, c.mday), separator, Render(entry, r3));
    GmtTimeExpanded(entry, "Z");
    assert Date(c) + separator + (Time(c) + "Z") == Date(c) + separator + Time(c) + "Z";
  }

  lemma GmtTimeExpanded(entry: Entry, text: string)
    requires '%' !in text
    ensures Render(entry, "%gH" + (":" + ("%gM" + (":" + ("%gS" + (text + "")))))) == Time(entry.gmt) + text
  {
    hide Render, Padded, ClockText;
    var r5 := "%gS" + (text + "");
    var r4 := "%gM" + (":" + r5);
    GmtThen(entry, 'H', ":", r4);
    GmtThen(entry, 'M', ":", r5);
    GmtThen(entry, 'S', text, "");
    RenderNothing(entry);
    var c := entry.gmt;
    ClockParts(c, "Z");
    assert text + "" == text;
    NestedTime(Padded(2, c.hour), Padded(2, c.min), Padded(2, c.sec), text);
  }

  lemma HttpDateExpanded(entry: Entry, first: char, second: char)
    requires IsGmtUnit(first) && IsGmtUnit(second)
    ensures var c := entry.gmt;
      Render(entry, HttpExpansion(['%', 'g', first], ['%', 'g', second])) ==
        ClockText(c, "Z", first) + ", " + Padded(2, c.mday) + " " + ClockText(c, "Z", second) + " " +
        Padded(4, c.year + 1900) + " " + Time(c) + " GMT"
  {
    hide Render, Padded, ClockText, Time;
    var r4 := "%gH" + (":" + ("%gM" + (":" + ("%gS" + (" GMT" + "")))));
    var r3 := "%gY" + (" " + r4);
    var r2 := ['%', 'g', second] + (" " + r3);
    var r1 := "%gd" + (" " + r2);
    GmtThen(entry, first, ", ", r1);
    GmtThen(entry, 'd', " ", r2);
    GmtThen(entry, second, " ", r3);
    GmtThen(entry, 'Y', " ", r4);
    GmtTimeExpanded(entry, " GMT");
    var c := entry.gmt;
    ClockParts(c, "Z");
    NestedHttpDate(ClockText(c, "Z", first), Padded(2, c.mday), ClockText(c, "Z", second),
                   Padded(4, c.year + 1900), Time(c));
  }

  lemma NestedHttpDate(a: string, d: string, b: string, y: string, time: string)
    ensures a + (", " + (d + (" " + (b + (" " + (y + (" " + (time + " GMT"))))))))
        == a + ", " + d + " " + b + " " + y + " " + time + " GMT"
  {
  }

  lemma HttpDatePrinted(entry: Entry)
    ensures Render(entry, "%h") == HttpDateText(entry.gmt)
  {
    hide Render, HttpDateText;
    RenderDirective(entry, HttpDate, "");
    RenderNothing(entry);
    assert "%h" + "" == "%h";
  }

  lemma NamesDiffer(c: Clock)
    ensures |Weekday(c)| == |Month(c)| == 3 && Weekday(c) != Month(c)
  {
    assert Weekday(c)[0] != Month(c)[0] || Weekday(c)[1] != Month(c)[1];
  }

  /** %h prints the documented date with the directives of the two names exchanged. */
  lemma HttpDateAsPrinted(entry: Entry)
    ensures Render(entry, "%h") == Render(entry, "%gb, %gd %ga %gY %gH:%gM:%gS GMT")
  {
    hide Render, Weekday, Month, Padded, Time, HttpExpansion;
    HttpExpansions();
    HttpDatePrinted(entry);
    HttpDateExpanded(entry, 'b', 'a');
    ClockParts(entry.gmt, "Z");
  }

  /** So it is never what the help text says, as %ga and %gb print each other's names. */
  lemma HttpDateDiffers(entry: Entry)
    ensures Render(entry, "%h") != Render(entry, "%ga, %gd %gb %gY %gH:%gM:%gS GMT")
  {
    hide Render, Weekday, Month, Padded, Time, HttpExpansion;
    HttpExpansions();
    var c := entry.gmt;
    HttpDatePrinted(entry);
    HttpDateExpanded(entry, 'a', 'b');
    ClockParts(c, "Z");
    NamesDiffer(c);
    assert HttpDateText(c)[..3] == Weekday(c);
    assert Render(entry, "%ga, %gd %gb %gY %gH:%gM:%gS GMT")[..3] == Month(c);
  }
}
