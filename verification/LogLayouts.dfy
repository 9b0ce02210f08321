/** Record templates laid out in columns: what they print can be read back, value by value. */
module LogLayouts {
  import opened CStrings
  import opened Escapers
  import opened LogTemplate
  import opened LogRenderer

  // ---------------------------------------------------------------------------------------------
  // Templates, column by column

  // What a column prints: a directive, or a text of its own.
  datatype Value = Printed(token: Token) | Fixed(text: string)

  // How it is delimited: by quotes, as a bare number, or as the content of an XML element.
  datatype Kind = Quoted | Number | Element

  // `opening` is what the template has in front of the value, its quote included.
  datatype Column = Column(opening: string, kind: Kind, value: Value)

  // `last` is what follows the last value and its quote.
  datatype Layout = Layout(format: Format, columns: seq<Column>, last: string)

  // The quote behind a value.
  function Closing(format: Format, kind: Kind): string {
    if kind != Quoted then "" else if format == Sql then "'" else "\""
  }

  function Source(value: Value): string {
    if value.Fixed? then value.text else Spelling(value.token)
  }

  // The template that is laid out this way.
  function Template(format: Format, columns: seq<Column>, last: string): string {
    if columns == [] then last
    else
      var column := columns[0];
      column.opening + (Source(column.value) + (Closing(format, column.kind) + Template(format, columns[1..], last)))
  }

  // A column as it stands in the template.
  function ColumnText(format: Format, column: Column): string {
    column.opening + Source(column.value) + Closing(format, column.kind)
  }

  lemma TemplateNext(format: Format, column: Column, columns: seq<Column>, last: string)
    ensures Template(format, [column] + columns, last) == ColumnText(format, column) + Template(format, columns, last)
  {
    hide Closing, Source;
    assert ([column] + columns)[1..] == columns;
    var rest := Template(format, columns, last);
    assert column.opening + (Source(column.value) + (Closing(format, column.kind) + rest))
        == column.opening + Source(column.value) + Closing(format, column.kind) + rest;
  }

  lemma TemplateOfFour(f: Format, a: Column, b: Column, c: Column, d: Column, last: string)
    ensures Template(f, [a, b, c, d], last)
         == ColumnText(f, a) + ColumnText(f, b) + ColumnText(f, c) + ColumnText(f, d) + last
  {
    NoColumns(f, last);
    hide ColumnText, Template;
    TemplateNext(f, d, [], last);
    TemplateNext(f, c, [d], last);
    TemplateNext(f, b, [c, d], last);
    TemplateNext(f, a, [b, c, d], last);
    assert [d] + [] == [d] && [c] + [d] == [c, d] && [b] + [c, d] == [b, c, d] && [a] + [b, c, d] == [a, b, c, d];
    var x, y, z, w := ColumnText(f, a), ColumnText(f, b), ColumnText(f, c), ColumnText(f, d);
    assert x + (y + (z + (w + last))) == x + y + z + w + last;
  }

  lemma NoColumns(f: Format, last: string)
    ensures Template(f, [], last) == last
  {
  }

  lemma TemplateOfSix(f: Format, a: Column, b: Column, c: Column, d: Column, e: Column, g: Column, last: string)
    ensures Template(f, [a, b, c, d, e, g], last)
         == ColumnText(f, a) + ColumnText(f, b) + ColumnText(f, c) + ColumnText(f, d) + ColumnText(f, e)
            + ColumnText(f, g) + last
  {
    hide ColumnText, Template;
    TemplateOfFour(f, c, d, e, g, last);
    TemplateNext(f, b, [c, d, e, g], last);
    TemplateNext(f, a, [b, c, d, e, g], last);
    assert [b] + [c, d, e, g] == [b, c, d, e, g] && [a] + [b, c, d, e, g] == [a, b, c, d, e, g];
    var x, y, z, w := ColumnText(f, a), ColumnText(f, b), ColumnText(f, c), ColumnText(f, d);
    var u, v := ColumnText(f, e), ColumnText(f, g);
    assert x + (y + (z + w + u + v + last)) == x + y + z + w + u + v + last;
  }

  function Shown(entry: Entry, value: Value): string {
    if value.Fixed? then value.text else Meaning(entry, value.token)
  }

  // What it prints.
  function Line(format: Format, entry: Entry, columns: seq<Column>, tail: string): string {
    if columns == [] then tail
    else
      var column := columns[0];
      column.opening +
        (Shown(entry, column.value) + (Closing(format, column.kind) + Line(format, entry, columns[1..], tail)))
  }

  // The value itself, before any escaping.
  function Raw(entry: Entry, value: Value): string {
    if value.Fixed? then value.text
    else if value.token.Escaped? then FieldText(entry, value.token.field)
    else Meaning(entry, value.token)
  }

  // The time of a record.
  function Stamp(entry: Entry): string {
    ClockText(entry.local, Zone(entry.local.gmtoff), 'T')
  }

  // ---------------------------------------------------------------------------------------------
  // Level and time need no escaping in any format

  predicate IsPlain(ch: char) {
    '0' <= ch <= '9' || 'a' <= ch <= 'z' || 'A' <= ch <= 'Z' || ch == '-' || ch == '+' || ch == ':'
  }

  predicate AllPlain(s: string) {
    forall i :: 0 <= i < |s| ==> IsPlain(s[i])
  }

  lemma EscapePlainChar(format: Format, ch: char)
    requires IsPlain(ch)
    ensures EscapeChar(format, ch) == [ch]
  {
  }

  lemma {:induction false} EscapePlain(format: Format, s: string)
    requires AllPlain(s)
    ensures Escape(format, s) == s
    decreases |s|
  {
    hide EscapeChar, IsPlain;
    if s != "" {
      EscapePlainChar(format, s[0]);
      EscapePlain(format, s[1..]);
      assert s == [s[0]] + s[1..];
    }
  }

  lemma {:induction false} DecimalIsPlain(n: nat)
    ensures AllPlain(Decimal(n))
    decreases n
  {
    if n >= 10 {
      DecimalIsPlain(n / 10);
    }
  }

  lemma {:induction false} ZerosArePlain(n: nat)
    ensures AllPlain(Zeros(n))
    decreases n
  {
    if n > 0 {
      ZerosArePlain(n - 1);
    }
  }

  lemma PaddedIsPlain(width: nat, n: int)
    ensures AllPlain(Padded(width, n))
  {
    hide Decimal, Zeros;
    var digits := Decimal(if n < 0 then -n else n);
    var used := (if n < 0 then 1 else 0) + |digits|;
    DecimalIsPlain(if n < 0 then -n else n);
    ZerosArePlain(if used < width then width - used else 0);
  }

  lemma PlainJoined(a: string, b: string)
    requires AllPlain(a) && AllPlain(b)
    ensures AllPlain(a + b)
  {
    hide IsPlain;
  }

  lemma StampIsPlain(entry: Entry)
    ensures AllPlain(Stamp(entry))
  {
    hide Padded, AllPlain, IsPlain;
    var c := entry.local;
    PlainMarks();
    PaddedIsPlain(4, c.year + 1900);
    PaddedIsPlain(2, c.mon + 1);
    PaddedIsPlain(2, c.mday);
    PlainJoined(Padded(4, c.year + 1900), "-");
    PlainJoined(Padded(4, c.year + 1900) + "-", Padded(2, c.mon + 1));
    PlainJoined(Padded(4, c.year + 1900) + "-" + Padded(2, c.mon + 1), "-");
    PlainJoined(Padded(4, c.year + 1900) + "-" + Padded(2, c.mon + 1) + "-", Padded(2, c.mday));
    TimeIsPlain(c);
    ZoneIsPlain(c.gmtoff);
    PlainJoined(Date(c), "T");
    PlainJoined(Date(c) + "T", Time(c));
    PlainJoined(Date(c) + "T" + Time(c), Zone(c.gmtoff));
  }

  lemma PlainMarks()
    ensures AllPlain("-") && AllPlain(":") && AllPlain("T") && AllPlain("+")
    ensures AllPlain("info") && AllPlain("error")
  {
  }

  lemma TimeIsPlain(c: Clock)
    ensures AllPlain(Time(c))
  {
    hide Padded, AllPlain, IsPlain;
    PlainMarks();
    PaddedIsPlain(2, c.hour);
    PaddedIsPlain(2, c.min);
    PaddedIsPlain(2, c.sec);
    PlainJoined(Padded(2, c.hour), ":");
    PlainJoined(Padded(2, c.hour) + ":", Padded(2, c.min));
    PlainJoined(Padded(2, c.hour) + ":" + Padded(2, c.min), ":");
    PlainJoined(Padded(2, c.hour) + ":" + Padded(2, c.min) + ":", Padded(2, c.sec));
  }

  lemma ZoneIsPlain(gmtoff: int)
    ensures AllPlain(Zone(gmtoff))
  {
    hide Padded, AllPlain, IsPlain;
    PlainMarks();
    var minutes := (if gmtoff < 0 then -gmtoff else gmtoff) / 60;
    var sign := if gmtoff <= -60 then "-" else "+";
    PaddedIsPlain(2, minutes / 60);
    PaddedIsPlain(2, minutes % 60);
    PlainJoined(sign, Padded(2, minutes / 60));
    PlainJoined(sign + Padded(2, minutes / 60), Padded(2, minutes % 60));
  }

  // ---------------------------------------------------------------------------------------------
  // What a layout must keep to

  // What follows a value and its quote; a template never follows a quote with another one.
  function NextText(columns: seq<Column>, last: string, i: nat): string
    requires i < |columns|
  {
    if i + 1 < |columns| then columns[i + 1].opening else last
  }

  predicate Delimits(format: Format, kind: Kind, next: string) {
    && next != ""
    && match kind
       case Quoted => [next[0]] != Closing(format, Quoted)
       case Number => !('0' <= next[0] <= '9')
       case Element => next[0] == '<'
  }

  predicate Suits(format: Format, kind: Kind, value: Value) {
    && (kind == Number ==> value == Printed(Field('n')))
    && (kind == Element ==> format == Xml)
    && match value
       case Fixed(text) => AllPlain(text) && '%' !in text
       case Printed(Escaped(f, field)) => f == format && IsEscapable(field)
       case Printed(token) => token == Field('l') || token == Field('n') || token == Local('T')
  }

  predicate WellPut(format: Format, columns: seq<Column>, last: string) {
    && '%' !in last && last != ""
    && forall i :: 0 <= i < |columns| ==>
         && '%' !in columns[i].opening
         && Suits(format, columns[i].kind, columns[i].value)
         && Delimits(format, columns[i].kind, NextText(columns, last, i))
  }

  lemma WellPutRest(format: Format, columns: seq<Column>, last: string)
    requires WellPut(format, columns, last) && columns != []
    ensures WellPut(format, columns[1..], last)
  {
    hide Suits, Delimits;
    var rest := columns[1..];
    forall i | 0 <= i < |rest|
      ensures rest[i] == columns[i + 1] && NextText(rest, last, i) == NextText(columns, last, i + 1)
    {
    }
  }

  // ---------------------------------------------------------------------------------------------
  // Printing

  /** A well-put template prints its texts and the meanings of its directives in turn. */
  lemma {:induction false} TemplatePrints(format: Format, entry: Entry, columns: seq<Column>, last: string)
    requires WellPut(format, columns, last)
    ensures Render(entry, Template(format, columns, last)) == Line(format, entry, columns, last)
    decreases |columns|
  {
    hide Render, Shown, Source, Suits, Delimits;
    if columns == [] {
      assert last + "" == last;
      RenderText(entry, last, "");
      RenderNothing(entry);
    } else {
      var column, rest := columns[0], columns[1..];
      WellPutRest(format, columns, last);
      TemplatePrints(format, entry, rest, last);
      ColumnPrints(format, entry, column, Template(format, rest, last));
    }
  }

  lemma ColumnPrints(format: Format, entry: Entry, column: Column, rest: string)
    requires '%' !in column.opening && Suits(format, column.kind, column.value)
    ensures Render(entry, column.opening + (Source(column.value) + (Closing(format, column.kind) + rest)))
         == column.opening + (Shown(entry, column.value) + (Closing(format, column.kind) + Render(entry, rest)))
  {
    hide Render, Meaning, Spelling;
    var closing := Closing(format, column.kind);
    RenderText(entry, column.opening, Source(column.value) + (closing + rest));
    RenderText(entry, closing, rest);
    match column.value
    case Fixed(text) => RenderText(entry, text, closing + rest);
    case Printed(token) => RenderDirective(entry, token, closing + rest);
  }

  // What is printed is the escaped value: level, time and line number need no escaping.
  lemma ShownIsEscaped(format: Format, kind: Kind, entry: Entry, value: Value)
    requires Suits(format, kind, value)
    ensures Shown(entry, value) == Escape(format, Raw(entry, value))
    ensures kind == Number ==> Raw(entry, value) == Decimal(entry.lineno)
  {
    hide Escape, AllPlain, ClockText, Decimal;
    match value
    case Fixed(text) => EscapePlain(format, text);
    case Printed(Escaped(_, _)) =>
    case Printed(token) =>
      StampIsPlain(entry);
      LevelIsPlain(entry);
      DecimalIsPlain(entry.lineno);
      EscapePlain(format, Raw(entry, value));
  }

  lemma LevelIsPlain(entry: Entry)
    ensures AllPlain(FieldText(entry, 'l'))
  {
  }

  // ---------------------------------------------------------------------------------------------
  // Reading

  function ReadDigits(s: string): Reading {
    if s != "" && '0' <= s[0] <= '9' then Behind([s[0]], ReadDigits(s[1..])) else Some(("", s))
  }

  // A value behind its opening.
  function ReadValue(format: Format, kind: Kind, s: string): Reading {
    match kind
    case Number => ReadDigits(s)
    case Element => ReadXml(Content, s)
    case Quoted =>
      match format
      case Json => ReadJson(s)
      case Xml => ReadXml(Attribute, s)
      case Sql => ReadQuoted('\'', s)
      case Csv => ReadQuoted('"', s)
  }

  // The values of all columns and the rest of the input.
  function ReadRecord(format: Format, columns: seq<Column>, s: string): Option<(seq<string>, string)> {
    if columns == [] then Some(([], s))
    else if !(columns[0].opening <= s) then None
    else
      var v := ReadValue(format, columns[0].kind, s[|columns[0].opening|..]);
      if v.None? then None
      else
        var rest := ReadRecord(format, columns[1..], v.value.1);
        if rest.None? then None else Some(([v.value.0] + rest.value.0, rest.value.1))
  }

  // The format allows the characters that the escaper leaves alone.
  predicate Readable(format: Format, value: string) {
    match format
    case Json => JsonSafe(value)
    case Xml => XmlSafe(value)
    case _ => true
  }

  // What a reader makes of a value: an XML attribute does not keep tabs.
  function Kept(format: Format, kind: Kind, value: string): string {
    if format == Xml && kind == Quoted then XmlRead(Attribute, value) else value
  }

  predicate AllReadable(format: Format, entry: Entry, columns: seq<Column>) {
    forall i :: 0 <= i < |columns| ==> columns[i].kind == Number || Readable(format, Raw(entry, columns[i].value))
  }

  function KeptValues(format: Format, entry: Entry, columns: seq<Column>): seq<string> {
    if columns == [] then []
    else [Kept(format, columns[0].kind, Raw(entry, columns[0].value))] + KeptValues(format, entry, columns[1..])
  }

  lemma {:induction false} DigitsRead(s: string, rest: string)
    requires forall i :: 0 <= i < |s| ==> '0' <= s[i] <= '9'
    requires rest == "" || !('0' <= rest[0] <= '9')
    ensures ReadDigits(s + rest) == Some((s, rest))
    decreases |s|
  {
    if s == "" {
      assert s + rest == rest;
    } else {
      assert (s + rest)[1..] == s[1..] + rest;
      DigitsRead(s[1..], rest);
      assert s == [s[0]] + s[1..];
    }
  }

  lemma {:induction false} DecimalHasDigits(n: nat)
    ensures forall i :: 0 <= i < |Decimal(n)| ==> '0' <= Decimal(n)[i] <= '9'
    decreases n
  {
    if n >= 10 {
      DecimalHasDigits(n / 10);
    }
  }

  lemma JsonQuote(text: string, rest: string)
    ensures Behind(text, ReadJson("\"" + rest)) == Some((text, rest))
  {
    assert ("\"" + rest)[1..] == rest && text + "" == text;
  }

  lemma XmlQuote(text: string, rest: string)
    ensures Behind(text, ReadXml(Attribute, "\"" + rest)) == Some((text, rest))
  {
    assert ("\"" + rest)[1..] == rest && text + "" == text;
  }

  lemma XmlElementEnd(text: string, rest: string)
    requires rest != "" && rest[0] == '<'
    ensures Behind(text, ReadXml(Content, rest)) == Some((text, rest))
  {
    assert text + "" == text;
  }

  lemma QuotedReads(format: Format, value: string, rest: string)
    requires rest == "" || [rest[0]] != Closing(format, Quoted)
    ensures ReadValue(format, Quoted, Escape(format, value) + (Closing(format, Quoted) + rest))
         == if Readable(format, value) then Some((Kept(format, Quoted, value), rest)) else None
  {
    hide ReadJson, ReadXml, ReadQuoted, Escape, XmlRead, JsonSafe, XmlSafe;
    var q := Closing(format, Quoted);
    match format
    case Json =>
      JsonReadsBack(value, q + rest);
      JsonQuote(value, rest);
    case Xml =>
      XmlReadsBack(Attribute, value, q + rest);
      XmlQuote(XmlRead(Attribute, value), rest);
    case _ =>
      QuotedFieldReadsBack(format, value, rest);
      assert Escape(format, value) + [Quote(format)] + rest == Escape(format, value) + (q + rest);
      assert !([Quote(format)] <= rest);
  }

  lemma ElementReads(value: string, rest: string)
    requires rest != "" && rest[0] == '<'
    ensures ReadXml(Content, Escape(Xml, value) + rest) == if XmlSafe(value) then Some((value, rest)) else None
  {
    hide ReadXml, Escape, XmlRead, XmlSafe;
    XmlReadsBack(Content, value, rest);
    XmlReadKeeps(Content, value);
    XmlElementEnd(value, rest);
  }

  // One value of a record, with what stands behind it.
  lemma ValueReads(format: Format, kind: Kind, entry: Entry, value: Value, rest: string)
    requires Suits(format, kind, value) && Delimits(format, kind, rest)
    ensures ReadValue(format, kind, Shown(entry, value) + (Closing(format, kind) + rest)) ==
      if kind == Number || Readable(format, Raw(entry, value))
      then Some((Kept(format, kind, Raw(entry, value)), rest)) else None
  {
    hide Shown, Raw, Suits, Escape, ReadDigits, ReadXml, Decimal;
    ShownIsEscaped(format, kind, entry, value);
    SuitsKind(format, kind, value);
    var raw := Raw(entry, value);
    match kind {
      case Quoted =>
        QuotedReads(format, raw, rest);
      case Number =>
        hide Readable;
        DecimalHasDigits(entry.lineno);
        DecimalIsPlain(entry.lineno);
        EscapePlain(format, raw);
        DigitsRead(raw, rest);
        assert "" + rest == rest;
      case Element =>
        ElementReads(raw, rest);
        assert "" + rest == rest;
    }
  }

  lemma SuitsKind(format: Format, kind: Kind, value: Value)
    requires Suits(format, kind, value)
    ensures kind == Element ==> format == Xml
  {
  }

  lemma ReadColumn(format: Format, column: Column, columns: seq<Column>, s: string)
    ensures ReadRecord(format, [column] + columns, column.opening + s) ==
      var v := ReadValue(format, column.kind, s);
      if v.None? then None
      else
        var rest := ReadRecord(format, columns, v.value.1);
        if rest.None? then None else Some(([v.value.0] + rest.value.0, rest.value.1))
  {
    hide ReadValue;
    assert (column.opening + s)[|column.opening|..] == s;
    assert ([column] + columns)[1..] == columns;
  }

  // What a line begins with.
  lemma LineBegins(format: Format, entry: Entry, columns: seq<Column>, last: string, tail: string)
    requires WellPut(format, columns, last) && columns != []
    ensures Delimits(format, columns[0].kind, Line(format, entry, columns[1..], last + tail))
  {
    hide Suits, Shown, Closing;
    assert WellPut(format, columns, last) && Delimits(format, columns[0].kind, NextText(columns, last, 0));
    var next := NextText(columns, last, 0);
    assert next <= Line(format, entry, columns[1..], last + tail);
  }

  lemma AllReadableRest(format: Format, entry: Entry, columns: seq<Column>)
    requires columns != []
    ensures AllReadable(format, entry, columns) <==>
      (columns[0].kind == Number || Readable(format, Raw(entry, columns[0].value))) &&
      AllReadable(format, entry, columns[1..])
  {
    hide Readable, Raw;
    var rest := columns[1..];
    assert forall i :: 0 <= i < |rest| ==> rest[i] == columns[i + 1];
    if AllReadable(format, entry, rest) {
      forall i | 1 <= i < |columns| ensures columns[i] == rest[i - 1] {
      }
    }
  }

  /** A reader recovers every value of a record and stops in front of what closes it, exactly if the format
      allows the unescaped characters of each. */
  lemma {:induction false} RecordReads(format: Format, entry: Entry, columns: seq<Column>, last: string, tail: string)
    requires WellPut(format, columns, last)
    ensures ReadRecord(format, columns, Line(format, entry, columns, last + tail)) ==
      if AllReadable(format, entry, columns) then Some((KeptValues(format, entry, columns), last + tail)) else None
    decreases |columns|
  {
    hide Suits, Delimits, Closing, Shown, Raw, Kept, ReadValue, Readable;
    if columns != [] {
      hide ReadRecord, AllReadable, WellPut;
      var column, rest := columns[0], columns[1..];
      var s := Line(format, entry, rest, last + tail);
      FirstColumn(format, columns, last);
      WellPutRest(format, columns, last);
      LineBegins(format, entry, columns, last, tail);
      AllReadableRest(format, entry, columns);
      ValueReads(format, column.kind, entry, column.value, s);
      RecordReads(format, entry, rest, last, tail);
      ReadColumn(format, column, rest, Shown(entry, column.value) + (Closing(format, column.kind) + s));
      assert columns == [column] + rest;
    }
  }

  lemma FirstColumn(format: Format, columns: seq<Column>, last: string)
    requires WellPut(format, columns, last) && columns != []
    ensures Suits(format, columns[0].kind, columns[0].value)
  {
    hide Suits, Delimits;
  }

  // ---------------------------------------------------------------------------------------------
  // Whole lines

  predicate LaidOut(layout: Layout) {
    WellPut(layout.format, layout.columns, layout.last)
  }

  // The line that the renderer writes for a layout's template.
  function PrintedLine(entry: Entry, layout: Layout): string {
    Render(entry, Template(layout.format, layout.columns, layout.last)) + "\n"
  }

  lemma PrintedReads(entry: Entry, layout: Layout)
    requires LaidOut(layout)
    ensures ReadRecord(layout.format, layout.columns, PrintedLine(entry, layout)) ==
      if AllReadable(layout.format, entry, layout.columns)
      then Some((KeptValues(layout.format, entry, layout.columns), layout.last + "\n")) else None
  {
    hide Render, WellPut, Template, ReadRecord, AllReadable, KeptValues;
    TemplatePrints(layout.format, entry, layout.columns, layout.last);
    RecordReads(layout.format, entry, layout.columns, layout.last, "\n");
    LineTail(layout.format, entry, layout.columns, layout.last, "\n");
  }

  lemma {:induction false} LineTail(format: Format, entry: Entry, columns: seq<Column>, last: string, tail: string)
    ensures Line(format, entry, columns, last) + tail == Line(format, entry, columns, last + tail)
    decreases |columns|
  {
    hide Shown, Closing;
    if columns != [] {
      LineTail(format, entry, columns[1..], last, tail);
      var column := columns[0];
      var rest := Line(format, entry, columns[1..], last);
      assert column.opening + (Shown(entry, column.value) + (Closing(format, column.kind) + rest)) + tail
          == column.opening + (Shown(entry, column.value) + (Closing(format, column.kind) + (rest + tail)));
    }
  }

  lemma PlainIsKept(format: Format, kind: Kind, s: string)
    requires AllPlain(s)
    ensures Readable(format, s) && Kept(format, kind, s) == s
  {
    assert forall i :: 0 <= i < |s| ==> IsPlain(s[i]);
    hide XmlRead;
    XmlReadKeeps(Attribute, s);
  }

  predicate IsEscaped(value: Value) {
    value.Printed? && value.token.Escaped?
  }

  // Only escaped values can be unreadable or lose something.
  lemma ColumnReadable(format: Format, entry: Entry, column: Column)
    requires Suits(format, column.kind, column.value)
    ensures !IsEscaped(column.value) ==>
      Readable(format, Raw(entry, column.value)) &&
      Kept(format, column.kind, Raw(entry, column.value)) == Raw(entry, column.value)
    ensures column.kind == Number ==> !IsEscaped(column.value)
  {
    hide Readable, Kept, AllPlain, ClockText, Decimal;
    if !IsEscaped(column.value) {
      StampIsPlain(entry);
      LevelIsPlain(entry);
      DecimalIsPlain(entry.lineno);
      PlainIsKept(format, column.kind, Raw(entry, column.value));
    }
  }

  // The raw values of the columns.
  function RawValues(entry: Entry, columns: seq<Column>): seq<string> {
    if columns == [] then [] else [Raw(entry, columns[0].value)] + RawValues(entry, columns[1..])
  }

  lemma ReadableRest(format: Format, entry: Entry, columns: seq<Column>)
    requires columns != []
    ensures var rest := columns[1..];
      (forall i :: 0 <= i < |columns| && IsEscaped(columns[i].value) ==> Readable(format, Raw(entry, columns[i].value)))
      <==> (IsEscaped(columns[0].value) ==> Readable(format, Raw(entry, columns[0].value))) &&
           forall i :: 0 <= i < |rest| && IsEscaped(rest[i].value) ==> Readable(format, Raw(entry, rest[i].value))
  {
    hide Raw, Readable, IsEscaped;
    var rest := columns[1..];
    assert forall i :: 0 <= i < |rest| ==> rest[i] == columns[i + 1];
    assert forall i :: 0 < i < |columns| ==> columns[i] == rest[i - 1];
  }

  lemma {:induction false} EscapedDecide(format: Format, entry: Entry, columns: seq<Column>, last: string)
    requires WellPut(format, columns, last)
    ensures AllReadable(format, entry, columns) <==>
      forall i :: 0 <= i < |columns| && IsEscaped(columns[i].value) ==> Readable(format, Raw(entry, columns[i].value))
    decreases |columns|
  {
    hide Suits, Delimits, Raw, Readable, IsEscaped;
    if columns != [] {
      hide WellPut, AllReadable;
      FirstColumn(format, columns, last);
      WellPutRest(format, columns, last);
      AllReadableRest(format, entry, columns);
      ColumnReadable(format, entry, columns[0]);
      ReadableRest(format, entry, columns);
      EscapedDecide(format, entry, columns[1..], last);
    }
  }

  lemma {:induction false} KeptAt(format: Format, entry: Entry, columns: seq<Column>)
    ensures |KeptValues(format, entry, columns)| == |columns|
    ensures forall i :: 0 <= i < |columns| ==>
      KeptValues(format, entry, columns)[i] == Kept(format, columns[i].kind, Raw(entry, columns[i].value))
    decreases |columns|
  {
    hide Raw, Kept;
    if columns != [] {
      KeptAt(format, entry, columns[1..]);
    }
  }

  lemma EscapedKept(format: Format, entry: Entry, columns: seq<Column>, last: string)
    requires WellPut(format, columns, last)
    ensures KeptValues(format, entry, columns) == RawValues(entry, columns) <==>
      forall i :: 0 <= i < |columns| && IsEscaped(columns[i].value) ==>
        Kept(format, columns[i].kind, Raw(entry, columns[i].value)) == Raw(entry, columns[i].value)
  {
    hide Suits, Delimits, Raw, Kept, Readable, IsEscaped, KeptValues, RawValues;
    KeptAt(format, entry, columns);
    RawAt(entry, columns);
    forall i | 0 <= i < |columns| && !IsEscaped(columns[i].value)
      ensures Kept(format, columns[i].kind, Raw(entry, columns[i].value)) == Raw(entry, columns[i].value)
    {
      ColumnReadable(format, entry, columns[i]);
    }
    if KeptValues(format, entry, columns) == RawValues(entry, columns) {
      forall i | 0 <= i < |columns|
        ensures Kept(format, columns[i].kind, Raw(entry, columns[i].value)) == Raw(entry, columns[i].value)
      {
        assert KeptValues(format, entry, columns)[i] == RawValues(entry, columns)[i];
      }
    }
  }

  lemma {:induction false} RawAt(entry: Entry, columns: seq<Column>)
    ensures |RawValues(entry, columns)| == |columns|
    ensures forall i :: 0 <= i < |columns| ==> RawValues(entry, columns)[i] == Raw(entry, columns[i].value)
    decreases |columns|
  {
    hide Raw;
    if columns != [] {
      RawAt(entry, columns[1..]);
    }
  }

  // A column that can follow another one.
  predicate Joins(format: Format, column: Column) {
    && '%' !in column.opening && Suits(format, column.kind, column.value)
    && column.opening != "" && [column.opening[0]] != Closing(format, Quoted) && !('0' <= column.opening[0] <= '9')
  }

  predicate Begins(format: Format, column: Column) {
    '%' !in column.opening && Suits(format, column.kind, column.value)
  }

  /** A first column, columns that can follow others, and an end: that is all a layout needs. */
  lemma TableWellPut(format: Format, columns: seq<Column>, last: string)
    requires columns != [] && Begins(format, columns[0])
    requires forall i :: 0 < i < |columns| ==> Joins(format, columns[i])
    requires forall i :: 0 <= i < |columns| - 1 ==> columns[i].kind != Element
    requires '%' !in last && Delimits(format, columns[|columns| - 1].kind, last)
    ensures WellPut(format, columns, last)
  {
    assert last != "";
    hide Suits, Delimits, Joins, Begins;
    forall i | 0 <= i < |columns|
      ensures '%' !in columns[i].opening && Suits(format, columns[i].kind, columns[i].value)
      ensures Delimits(format, columns[i].kind, NextText(columns, last, i))
    {
      ColumnFits(format, columns[i], i > 0);
      if i + 1 < |columns| {
        NextDelimits(format, columns[i].kind, columns[i + 1]);
      }
    }
  }

  lemma ColumnFits(format: Format, column: Column, joins: bool)
    requires if joins then Joins(format, column) else Begins(format, column)
    ensures '%' !in column.opening && Suits(format, column.kind, column.value)
  {
    hide Suits;
  }

  lemma NextDelimits(format: Format, kind: Kind, next: Column)
    requires Joins(format, next) && kind != Element
    ensures Delimits(format, kind, next.opening)
  {
    hide Suits;
  }
}
