/** The built-in log templates, of release and debug builds: their records can be read back. */
module LogRecords {
  import opened CStrings
  import opened Escapers
  import opened LogTemplate
  import opened LogRenderer
  import opened LogLayouts

  // ---------------------------------------------------------------------------------------------
  // The eight templates

  const SQL_START: string := "INSERT INTO logs " + "(level, timestamp, " + "source, message) " + "VALUES ('"

  const SQL_DEBUG_START: string :=
    "INSERT INTO logs " + "(level, timestamp, " + "source, filename, " + "lineno, message) " + "VALUES ('"

  const JSON_LEVEL := Column("{\"level\":\"", Quoted, Printed(Field('l')))
  const JSON_TIME := Column(",\"timestamp\":\"", Quoted, Printed(Local('T')))
  const JSON_SOURCE := Column(",\"source\":\"", Quoted, Fixed("service-runner"))
  const JSON_FILENAME := Column(",\"filename\":\"", Quoted, Printed(Escaped(Json, 'f')))
  const JSON_LINENO := Column(",\"lineno\":", Number, Printed(Field('n')))
  const JSON_MESSAGE := Column(",\"message\":\"", Quoted, Printed(Escaped(Json, 's')))

  const XML_LEVEL := Column("<log level=\"", Quoted, Printed(Field('l')))
  const XML_TIME := Column(" timestamp=\"", Quoted, Printed(Local('T')))
  const XML_SOURCE := Column(" source=\"", Quoted, Fixed("service-runner"))
  const XML_FILENAME := Column(" filename=\"", Quoted, Printed(Escaped(Xml, 'f')))
  const XML_LINENO := Column(" lineno=\"", Quoted, Printed(Field('n')))
  const XML_MESSAGE := Column(">", Element, Printed(Escaped(Xml, 's')))

  const SQL_LEVEL := Column(SQL_START, Quoted, Printed(Field('l')))
  const SQL_DEBUG_LEVEL := Column(SQL_DEBUG_START, Quoted, Printed(Field('l')))
  const SQL_TIME := Column(", '", Quoted, Printed(Local('T')))
  const SQL_SOURCE := Column(", '", Quoted, Fixed("service-runner"))
  const SQL_FILENAME := Column(", '", Quoted, Printed(Escaped(Sql, 'f')))
  const SQL_LINENO := Column(", ", Number, Printed(Field('n')))
  const SQL_MESSAGE := Column(", '", Quoted, Printed(Escaped(Sql, 's')))

  const CSV_LEVEL := Column("\"", Quoted, Printed(Field('l')))
  const CSV_TIME := Column(",\"", Quoted, Printed(Local('T')))
  const CSV_SOURCE := Column(",\"", Quoted, Fixed("service-runner"))
  const CSV_MESSAGE := Column(",\"", Quoted, Printed(Escaped(Csv, 's')))
  const CSV_FILENAME := Column(",\"", Quoted, Printed(Escaped(Csv, 'f')))
  const CSV_LINENO := Column(",", Number, Printed(Field('n')))

  const JSON_RELEASE := Layout(Json, [JSON_LEVEL, JSON_TIME, JSON_SOURCE, JSON_MESSAGE], "}")

  const XML_RELEASE := Layout(Xml, [XML_LEVEL, XML_TIME, XML_SOURCE, XML_MESSAGE], "</log>")

  const SQL_RELEASE := Layout(Sql, [SQL_LEVEL, SQL_TIME, SQL_SOURCE, SQL_MESSAGE], ");")

  const CSV_RELEASE := Layout(Csv, [CSV_LEVEL, CSV_TIME, CSV_SOURCE, CSV_MESSAGE], "\r")

  const JSON_DEBUG := Layout(Json, [JSON_LEVEL, JSON_TIME, JSON_SOURCE, JSON_FILENAME, JSON_LINENO, JSON_MESSAGE],
    "}")

  const XML_DEBUG := Layout(Xml, [XML_LEVEL, XML_TIME, XML_SOURCE, XML_FILENAME, XML_LINENO, XML_MESSAGE],
    "</log>")

  const SQL_DEBUG := Layout(Sql, [SQL_DEBUG_LEVEL, SQL_TIME, SQL_SOURCE, SQL_FILENAME, SQL_LINENO, SQL_MESSAGE],
    ");")

  const CSV_DEBUG := Layout(Csv, [CSV_LEVEL, CSV_TIME, CSV_SOURCE, CSV_MESSAGE, CSV_FILENAME, CSV_LINENO],
    "\r")

  // ---------------------------------------------------------------------------------------------
  // They keep to what a layout must keep to

  // Kinds and values of the columns of a built-in record.
  function Fields(format: Format, debug: bool): seq<(Kind, Value)> {
    var message := (if format == Xml then Element else Quoted, Printed(Escaped(format, 's')));
    var filename := (Quoted, Printed(Escaped(format, 'f')));
    var lineno := (if format == Xml then Quoted else Number, Printed(Field('n')));
    var level, time := (Quoted, Printed(Field('l'))), (Quoted, Printed(Local('T')));
    var source := (Quoted, Fixed("service-runner"));
    if !debug then [level, time, source, message]
    else if format == Csv then [level, time, source, message, filename, lineno]
    else [level, time, source, filename, lineno, message]
  }

  predicate Follows(columns: seq<Column>, fields: seq<(Kind, Value)>) {
    && |columns| == |fields|
    && forall i :: 0 <= i < |columns| ==> columns[i].kind == fields[i].0 && columns[i].value == fields[i].1
  }

  lemma JsonLevel()
    ensures Begins(Json, JSON_LEVEL)
    ensures ColumnText(Json, JSON_LEVEL) == "{\"level\":\"%l\""
    ensures JSON_LEVEL.kind == Quoted && JSON_LEVEL.value == Printed(Field('l'))
  {
  }

  lemma JsonTime()
    ensures Joins(Json, JSON_TIME)
    ensures ColumnText(Json, JSON_TIME) == ",\"timestamp\":\"%T\""
    ensures JSON_TIME.kind == Quoted && JSON_TIME.value == Printed(Local('T'))
  {
  }

  lemma SourceIsPlain()
    ensures AllPlain("service-runner") && '%' !in "service-runner"
  {
    assert !IsPlain('%');
  }

  lemma JsonSourceText()
    ensures ColumnText(Json, JSON_SOURCE) == ",\"source\":\"service-runner\""
  {
  }

  lemma JsonSource()
    ensures Joins(Json, JSON_SOURCE)
    ensures JSON_SOURCE.kind == Quoted && JSON_SOURCE.value == Fixed("service-runner")
  {
    SourceIsPlain();
    hide AllPlain, Spelling;
  }

  lemma JsonFilename()
    ensures Joins(Json, JSON_FILENAME)
    ensures ColumnText(Json, JSON_FILENAME) == ",\"filename\":\"%jf\""
    ensures JSON_FILENAME.kind == Quoted && JSON_FILENAME.value == Printed(Escaped(Json, 'f'))
  {
  }

  lemma JsonLineno()
    ensures Joins(Json, JSON_LINENO)
    ensures ColumnText(Json, JSON_LINENO) == ",\"lineno\":%n"
    ensures JSON_LINENO.kind == Number && JSON_LINENO.value == Printed(Field('n'))
  {
  }

  lemma JsonMessage()
    ensures Joins(Json, JSON_MESSAGE)
    ensures ColumnText(Json, JSON_MESSAGE) == ",\"message\":\"%js\""
    ensures JSON_MESSAGE.kind == Quoted && JSON_MESSAGE.value == Printed(Escaped(Json, 's'))
  {
  }

  lemma XmlLevel()
    ensures Begins(Xml, XML_LEVEL)
    ensures ColumnText(Xml, XML_LEVEL) == "<log level=\"%l\""
    ensures XML_LEVEL.kind == Quoted && XML_LEVEL.value == Printed(Field('l'))
  {
  }

  lemma XmlTime()
    ensures Joins(Xml, XML_TIME)
    ensures ColumnText(Xml, XML_TIME) == " timestamp=\"%T\""
    ensures XML_TIME.kind == Quoted && XML_TIME.value == Printed(Local('T'))
  {
  }

  lemma XmlSourceText()
    ensures ColumnText(Xml, XML_SOURCE) == " source=\"service-runner\""
  {
  }

  lemma XmlSource()
    ensures Joins(Xml, XML_SOURCE)
    ensures XML_SOURCE.kind == Quoted && XML_SOURCE.value == Fixed("service-runner")
  {
    SourceIsPlain();
    hide AllPlain, Spelling;
  }

  lemma XmlFilename()
    ensures Joins(Xml, XML_FILENAME)
    ensures ColumnText(Xml, XML_FILENAME) == " filename=\"%xf\""
    ensures XML_FILENAME.kind == Quoted && XML_FILENAME.value == Printed(Escaped(Xml, 'f'))
  {
  }

  lemma XmlLineno()
    ensures Joins(Xml, XML_LINENO)
    ensures ColumnText(Xml, XML_LINENO) == " lineno=\"%n\""
    ensures XML_LINENO.kind == Quoted && XML_LINENO.value == Printed(Field('n'))
  {
  }

  lemma XmlMessage()
    ensures Joins(Xml, XML_MESSAGE)
    ensures ColumnText(Xml, XML_MESSAGE) == ">%xs"
    ensures XML_MESSAGE.kind == Element && XML_MESSAGE.value == Printed(Escaped(Xml, 's'))
  {
  }

  lemma SqlStartIsText()
    ensures '%' !in SQL_START
  {
    assert '%' !in "INSERT INTO logs " && '%' !in "(level, timestamp, ";
    assert '%' !in "source, message) " && '%' !in "VALUES ('";
  }

  lemma SqlDebugStartIsText()
    ensures '%' !in SQL_DEBUG_START
  {
    assert '%' !in "INSERT INTO logs " && '%' !in "(level, timestamp, ";
    assert '%' !in "source, filename, " && '%' !in "lineno, message) " && '%' !in "VALUES ('";
  }

  lemma SqlLevelText()
    ensures ColumnText(Sql, SQL_LEVEL)
         == "INSERT INTO logs " + "(level, timestamp, " + "source, message) " + "VALUES ('%l'"
  {
    var start := "INSERT INTO logs " + "(level, timestamp, " + "source, message) ";
    assert start + "VALUES ('" + "%l" + "'" == start + "VALUES ('%l'";
  }

  lemma SqlLevel()
    ensures Begins(Sql, SQL_LEVEL)
    ensures SQL_LEVEL.kind == Quoted && SQL_LEVEL.value == Printed(Field('l'))
  {
    hide SQL_START;
    SqlStartIsText();
  }

  lemma SqlDebugLevelText()
    ensures ColumnText(Sql, SQL_DEBUG_LEVEL)
         == "INSERT INTO logs " + "(level, timestamp, " + "source, filename, " + "lineno, message) " + "VALUES ('%l'"
  {
    var start := "INSERT INTO logs " + "(level, timestamp, " + "source, filename, " + "lineno, message) ";
    assert start + "VALUES ('" + "%l" + "'" == start + "VALUES ('%l'";
  }

  lemma SqlDebugLevel()
    ensures Begins(Sql, SQL_DEBUG_LEVEL)
    ensures SQL_DEBUG_LEVEL.kind == Quoted && SQL_DEBUG_LEVEL.value == Printed(Field('l'))
  {
    hide SQL_DEBUG_START;
    SqlDebugStartIsText();
  }

  lemma SqlTime()
    ensures Joins(Sql, SQL_TIME)
    ensures ColumnText(Sql, SQL_TIME) == ", '%T'"
    ensures SQL_TIME.kind == Quoted && SQL_TIME.value == Printed(Local('T'))
  {
  }

  lemma SqlSourceText()
    ensures ColumnText(Sql, SQL_SOURCE) == ", 'service-runner'"
  {
  }

  lemma SqlSource()
    ensures Joins(Sql, SQL_SOURCE)
    ensures SQL_SOURCE.kind == Quoted && SQL_SOURCE.value == Fixed("service-runner")
  {
    SourceIsPlain();
    hide AllPlain, Spelling;
  }

  lemma SqlFilename()
    ensures Joins(Sql, SQL_FILENAME)
    ensures ColumnText(Sql, SQL_FILENAME) == ", '%qf'"
    ensures SQL_FILENAME.kind == Quoted && SQL_FILENAME.value == Printed(Escaped(Sql, 'f'))
  {
  }

  lemma SqlLineno()
    ensures Joins(Sql, SQL_LINENO)
    ensures ColumnText(Sql, SQL_LINENO) == ", %n"
    ensures SQL_LINENO.kind == Number && SQL_LINENO.value == Printed(Field('n'))
  {
  }

  lemma SqlMessage()
    ensures Joins(Sql, SQL_MESSAGE)
    ensures ColumnText(Sql, SQL_MESSAGE) == ", '%qs'"
    ensures SQL_MESSAGE.kind == Quoted && SQL_MESSAGE.value == Printed(Escaped(Sql, 's'))
  {
  }

  lemma CsvLevel()
    ensures Begins(Csv, CSV_LEVEL)
    ensures ColumnText(Csv, CSV_LEVEL) == "\"%l\""
    ensures CSV_LEVEL.kind == Quoted && CSV_LEVEL.value == Printed(Field('l'))
  {
  }

  lemma CsvTime()
    ensures Joins(Csv, CSV_TIME)
    ensures ColumnText(Csv, CSV_TIME) == ",\"%T\""
    ensures CSV_TIME.kind == Quoted && CSV_TIME.value == Printed(Local('T'))
  {
  }

  lemma CsvSourceText()
    ensures ColumnText(Csv, CSV_SOURCE) == ",\"service-runner\""
  {
  }

  lemma CsvSource()
    ensures Joins(Csv, CSV_SOURCE)
    ensures CSV_SOURCE.kind == Quoted && CSV_SOURCE.value == Fixed("service-runner")
  {
    SourceIsPlain();
    hide AllPlain, Spelling;
  }

  lemma CsvMessage()
    ensures Joins(Csv, CSV_MESSAGE)
    ensures ColumnText(Csv, CSV_MESSAGE) == ",\"%cs\""
    ensures CSV_MESSAGE.kind == Quoted && CSV_MESSAGE.value == Printed(Escaped(Csv, 's'))
  {
  }

  lemma CsvFilename()
    ensures Joins(Csv, CSV_FILENAME)
    ensures ColumnText(Csv, CSV_FILENAME) == ",\"%cf\""
    ensures CSV_FILENAME.kind == Quoted && CSV_FILENAME.value == Printed(Escaped(Csv, 'f'))
  {
  }

  lemma CsvLineno()
    ensures Joins(Csv, CSV_LINENO)
    ensures ColumnText(Csv, CSV_LINENO) == ",%n"
    ensures CSV_LINENO.kind == Number && CSV_LINENO.value == Printed(Field('n'))
  {
  }

  lemma JsonRelease()
    ensures LaidOut(JSON_RELEASE) && Follows(JSON_RELEASE.columns, Fields(Json, false))
  {
    hide WellPut, Begins, Joins, JSON_LEVEL, JSON_TIME, JSON_SOURCE, JSON_MESSAGE;
    JsonLevel();
    JsonTime();
    JsonSource();
    JsonMessage();
    TableWellPut(Json, JSON_RELEASE.columns, JSON_RELEASE.last);
  }

  lemma JsonDebug()
    ensures LaidOut(JSON_DEBUG) && Follows(JSON_DEBUG.columns, Fields(Json, true))
  {
    hide WellPut, Begins, Joins, JSON_LEVEL, JSON_TIME, JSON_SOURCE, JSON_FILENAME, JSON_LINENO, JSON_MESSAGE;
    JsonLevel();
    JsonTime();
    JsonSource();
    JsonFilename();
    JsonLineno();
    JsonMessage();
    TableWellPut(Json, JSON_DEBUG.columns, JSON_DEBUG.last);
  }

  lemma XmlRelease()
    ensures LaidOut(XML_RELEASE) && Follows(XML_RELEASE.columns, Fields(Xml, false))
  {
    hide WellPut, Begins, Joins, XML_LEVEL, XML_TIME, XML_SOURCE, XML_MESSAGE;
    XmlLevel();
    XmlTime();
    XmlSource();
    XmlMessage();
    TableWellPut(Xml, XML_RELEASE.columns, XML_RELEASE.last);
  }

  lemma XmlDebug()
    ensures LaidOut(XML_DEBUG) && Follows(XML_DEBUG.columns, Fields(Xml, true))
  {
    hide WellPut, Begins, Joins, XML_LEVEL, XML_TIME, XML_SOURCE, XML_FILENAME, XML_LINENO, XML_MESSAGE;
    XmlLevel();
    XmlTime();
    XmlSource();
    XmlFilename();
    XmlLineno();
    XmlMessage();
    TableWellPut(Xml, XML_DEBUG.columns, XML_DEBUG.last);
  }

  lemma SqlRelease()
    ensures LaidOut(SQL_RELEASE) && Follows(SQL_RELEASE.columns, Fields(Sql, false))
  {
    hide WellPut, Begins, Joins, SQL_LEVEL, SQL_TIME, SQL_SOURCE, SQL_MESSAGE;
    SqlLevel();
    SqlTime();
    SqlSource();
    SqlMessage();
    TableWellPut(Sql, SQL_RELEASE.columns, SQL_RELEASE.last);
  }

  lemma SqlDebug()
    ensures LaidOut(SQL_DEBUG) && Follows(SQL_DEBUG.columns, Fields(Sql, true))
  {
    hide WellPut, Begins, Joins, SQL_DEBUG_LEVEL, SQL_TIME, SQL_SOURCE, SQL_FILENAME, SQL_LINENO, SQL_MESSAGE;
    SqlDebugLevel();
    SqlTime();
    SqlSource();
    SqlFilename();
    SqlLineno();
    SqlMessage();
    TableWellPut(Sql, SQL_DEBUG.columns, SQL_DEBUG.last);
  }

  lemma CsvRelease()
    ensures LaidOut(CSV_RELEASE) && Follows(CSV_RELEASE.columns, Fields(Csv, false))
  {
    hide WellPut, Begins, Joins, CSV_LEVEL, CSV_TIME, CSV_SOURCE, CSV_MESSAGE;
    CsvLevel();
    CsvTime();
    CsvSource();
    CsvMessage();
    TableWellPut(Csv, CSV_RELEASE.columns, CSV_RELEASE.last);
  }

  lemma CsvDebug()
    ensures LaidOut(CSV_DEBUG) && Follows(CSV_DEBUG.columns, Fields(Csv, true))
  {
    hide WellPut, Begins, Joins, CSV_LEVEL, CSV_TIME, CSV_SOURCE, CSV_MESSAGE, CSV_FILENAME, CSV_LINENO;
    CsvLevel();
    CsvTime();
    CsvSource();
    CsvMessage();
    CsvFilename();
    CsvLineno();
    TableWellPut(Csv, CSV_DEBUG.columns, CSV_DEBUG.last);
  }

  // ---------------------------------------------------------------------------------------------
  // Reading them back

  function BuiltIn(format: Format, debug: bool): Layout {
    match format
    case Json => if debug then JSON_DEBUG else JSON_RELEASE
    case Xml => if debug then XML_DEBUG else XML_RELEASE
    case Sql => if debug then SQL_DEBUG else SQL_RELEASE
    case Csv => if debug then CSV_DEBUG else CSV_RELEASE
  }

  // The templates as they are written.
  function TemplateText(format: Format, debug: bool): string {
    match format
    case Json =>
      if debug then
        "{\"level\":\"%l\"" + ",\"timestamp\":\"%T\"" + ",\"source\":\"service-runner\"" +
        ",\"filename\":\"%jf\"" + ",\"lineno\":%n" + ",\"message\":\"%js\"" + "}"
      else
        "{\"level\":\"%l\"" + ",\"timestamp\":\"%T\"" + ",\"source\":\"service-runner\"" +
        ",\"message\":\"%js\"" + "}"
    case Xml =>
      if debug then
        "<log level=\"%l\"" + " timestamp=\"%T\"" + " source=\"service-runner\"" + " filename=\"%xf\"" +
        " lineno=\"%n\"" + ">%xs" + "</log>"
      else
        "<log level=\"%l\"" + " timestamp=\"%T\"" + " source=\"service-runner\"" + ">%xs" + "</log>"
    case Sql =>
      if debug then
        "INSERT INTO logs " + "(level, timestamp, " + "source, filename, " + "lineno, message) " + "VALUES ('%l'" +
        ", '%T'" + ", 'service-runner'" + ", '%qf'" + ", %n" + ", '%qs'" + ");"
      else
        "INSERT INTO logs " + "(level, timestamp, " + "source, message) " + "VALUES ('%l'" + ", '%T'" +
        ", 'service-runner'" + ", '%qs'" + ");"
    case Csv =>
      if debug then
        "\"%l\"" + ",\"%T\"" + ",\"service-runner\"" + ",\"%cs\"" + ",\"%cf\"" + ",%n" + "\r"
      else
        "\"%l\"" + ",\"%T\"" + ",\"service-runner\"" + ",\"%cs\"" + "\r"
  }

  lemma JsonReleaseText()
    ensures var layout := BuiltIn(Json, false);
      Template(layout.format, layout.columns, layout.last) == TemplateText(Json, false)
  {
    hide Template, ColumnText, Begins, Joins;
    TemplateOfFour(Json, JSON_LEVEL, JSON_TIME, JSON_SOURCE, JSON_MESSAGE, "}");
    JsonLevel();
    JsonTime();
    JsonSourceText();
    JsonMessage();
  }

  lemma JsonDebugText()
    ensures var layout := BuiltIn(Json, true);
      Template(layout.format, layout.columns, layout.last) == TemplateText(Json, true)
  {
    hide Template, ColumnText, Begins, Joins;
    TemplateOfSix(Json, JSON_LEVEL, JSON_TIME, JSON_SOURCE, JSON_FILENAME, JSON_LINENO, JSON_MESSAGE, "}");
    JsonLevel();
    JsonTime();
    JsonSourceText();
    JsonFilename();
    JsonLineno();
    JsonMessage();
  }

  lemma XmlReleaseText()
    ensures var layout := BuiltIn(Xml, false);
      Template(layout.format, layout.columns, layout.last) == TemplateText(Xml, false)
  {
    hide Template, ColumnText, Begins, Joins;
    TemplateOfFour(Xml, XML_LEVEL, XML_TIME, XML_SOURCE, XML_MESSAGE, "</log>");
    XmlLevel();
    XmlTime();
    XmlSourceText();
    XmlMessage();
  }

  lemma XmlDebugText()
    ensures var layout := BuiltIn(Xml, true);
      Template(layout.format, layout.columns, layout.last) == TemplateText(Xml, true)
  {
    hide Template, ColumnText, Begins, Joins;
    TemplateOfSix(Xml, XML_LEVEL, XML_TIME, XML_SOURCE, XML_FILENAME, XML_LINENO, XML_MESSAGE, "</log>");
    XmlLevel();
    XmlTime();
    XmlSourceText();
    XmlFilename();
    XmlLineno();
    XmlMessage();
  }

  lemma SqlReleaseText()
    ensures var layout := BuiltIn(Sql, false);
      Template(layout.format, layout.columns, layout.last) == TemplateText(Sql, false)
  {
    hide Template, ColumnText, Begins, Joins;
    TemplateOfFour(Sql, SQL_LEVEL, SQL_TIME, SQL_SOURCE, SQL_MESSAGE, ");");
    SqlLevelText();
    SqlTime();
    SqlSourceText();
    SqlMessage();
  }

  lemma SqlDebugText()
    ensures var layout := BuiltIn(Sql, true);
      Template(layout.format, layout.columns, layout.last) == TemplateText(Sql, true)
  {
    hide Template, ColumnText, Begins, Joins;
    TemplateOfSix(Sql, SQL_DEBUG_LEVEL, SQL_TIME, SQL_SOURCE, SQL_FILENAME, SQL_LINENO, SQL_MESSAGE, ");");
    SqlDebugLevelText();
    SqlTime();
    SqlSourceText();
    SqlFilename();
    SqlLineno();
    SqlMessage();
  }

  lemma CsvReleaseText()
    ensures var layout := BuiltIn(Csv, false);
      Template(layout.format, layout.columns, layout.last) == TemplateText(Csv, false)
  {
    hide Template, ColumnText, Begins, Joins;
    TemplateOfFour(Csv, CSV_LEVEL, CSV_TIME, CSV_SOURCE, CSV_MESSAGE, "\r");
    CsvLevel();
    CsvTime();
    CsvSourceText();
    CsvMessage();
  }

  lemma CsvDebugText()
    ensures var layout := BuiltIn(Csv, true);
      Template(layout.format, layout.columns, layout.last) == TemplateText(Csv, true)
  {
    hide Template, ColumnText, Begins, Joins;
    TemplateOfSix(Csv, CSV_LEVEL, CSV_TIME, CSV_SOURCE, CSV_MESSAGE, CSV_FILENAME, CSV_LINENO, "\r");
    CsvLevel();
    CsvTime();
    CsvSourceText();
    CsvMessage();
    CsvFilename();
    CsvLineno();
  }

  /** The layouts are those of the templates. */
  lemma TemplatesAsWritten(format: Format, debug: bool)
    ensures var layout := BuiltIn(format, debug);
      Template(layout.format, layout.columns, layout.last) == TemplateText(format, debug)
  {
    hide Template, TemplateText, BuiltIn;
    match format
    case Json => JsonReleaseText(); JsonDebugText();
    case Xml => XmlReleaseText(); XmlDebugText();
    case Sql => SqlReleaseText(); SqlDebugText();
    case Csv => CsvReleaseText(); CsvDebugText();
  }

  // The values of a built-in record.
  function Values(format: Format, entry: Entry, debug: bool): seq<string> {
    var head := [FieldText(entry, 'l'), Stamp(entry), "service-runner"];
    if !debug then head + [entry.message]
    else if format == Csv then head + [entry.message, entry.filename, Decimal(entry.lineno)]
    else head + [entry.filename, Decimal(entry.lineno), entry.message]
  }

  lemma RawFields(format: Format, entry: Entry, debug: bool)
    ensures |Values(format, entry, debug)| == |Fields(format, debug)|
    ensures forall i :: 0 <= i < |Fields(format, debug)| ==>
      Raw(entry, Fields(format, debug)[i].1) == Values(format, entry, debug)[i]
  {
    hide Decimal, ClockText, Zone;
  }

  // The format allows the characters of the texts that a record holds.
  predicate Allows(format: Format, entry: Entry, debug: bool) {
    Readable(format, entry.message) && (debug ==> Readable(format, entry.filename))
  }

  lemma FieldsReadable(format: Format, entry: Entry, debug: bool)
    ensures var fields := Fields(format, debug);
      (forall i :: 0 <= i < |fields| && IsEscaped(fields[i].1) ==> Readable(format, Raw(entry, fields[i].1)))
      <==> Allows(format, entry, debug)
  {
    hide Readable, Decimal, ClockText, Zone;
    var fields := Fields(format, debug);
    var m := if debug && format != Csv then 5 else 3;
    assert IsEscaped(fields[m].1) && Raw(entry, fields[m].1) == entry.message;
    if debug {
      var f := if format == Csv then 4 else 3;
      assert IsEscaped(fields[f].1) && Raw(entry, fields[f].1) == entry.filename;
    }
  }

  lemma FieldsKept(format: Format, entry: Entry, debug: bool)
    ensures var fields := Fields(format, debug);
      (forall i :: 0 <= i < |fields| && IsEscaped(fields[i].1) ==>
         Kept(format, fields[i].0, Raw(entry, fields[i].1)) == Raw(entry, fields[i].1))
      <==> (format == Xml && debug ==> '\t' !in entry.filename)
  {
    hide XmlRead, Decimal, ClockText, Zone;
    var fields := Fields(format, debug);
    XmlReadKeeps(Attribute, entry.filename);
    if format == Xml && debug {
      assert IsEscaped(fields[3].1) && Raw(entry, fields[3].1) == entry.filename && fields[3].0 == Quoted;
    }
  }

  lemma BuiltInLaidOut(format: Format, debug: bool)
    ensures BuiltIn(format, debug).format == format
    ensures LaidOut(BuiltIn(format, debug)) && Follows(BuiltIn(format, debug).columns, Fields(format, debug))
  {
    hide LaidOut, Follows, Fields;
    match format
    case Json => JsonRelease(); JsonDebug();
    case Xml => XmlRelease(); XmlDebug();
    case Sql => SqlRelease(); SqlDebug();
    case Csv => CsvRelease(); CsvDebug();
  }

  /**
   * A reader of a built-in record, of a release or a debug build, reads it up to the text behind the last
   * value exactly if the format allows the unescaped characters of the message and the file name. It then
   * recovers all values, but for tabs in a file name that stands in an XML attribute.
   */
  lemma RecordReadsBack(format: Format, entry: Entry, debug: bool)
    ensures var layout := BuiltIn(format, debug);
      var r := ReadRecord(format, layout.columns, PrintedLine(entry, layout));
      && (r.Some? <==> Allows(format, entry, debug))
      && (r.Some? ==> r.value.1 == layout.last + "\n")
      && (r.Some? ==>
            (r.value.0 == Values(format, entry, debug) <==> (format == Xml && debug ==> '\t' !in entry.filename)))
  {
    hide ReadRecord, PrintedLine, AllReadable, KeptValues, RawValues, WellPut, Values, Fields, Raw, Kept, Readable;
    hide IsEscaped, Allows;
    var layout := BuiltIn(format, debug);
    BuiltInLaidOut(format, debug);
    hide BuiltIn;
    PrintedReads(entry, layout);
    EscapedDecide(format, entry, layout.columns, layout.last);
    EscapedKept(format, entry, layout.columns, layout.last);
    FieldsReadable(format, entry, debug);
    FieldsKept(format, entry, debug);
    RawAt(entry, layout.columns);
    RawFields(format, entry, debug);
    assert RawValues(entry, layout.columns) == Values(format, entry, debug);
  }

  /** JSON records: readable exactly if there are no unescaped control characters. */
  lemma JsonRecord(entry: Entry, debug: bool)
    ensures var layout := BuiltIn(Json, debug);
      ReadRecord(Json, layout.columns, Render(entry, TemplateText(Json, debug)) + "\n") ==
        if JsonSafe(entry.message) && (debug ==> JsonSafe(entry.filename))
        then Some((Values(Json, entry, debug), "}\n")) else None
  {
    hide ReadRecord, Render, Template, TemplateText, Values, JsonSafe;
    TemplatesAsWritten(Json, debug);
    RecordReadsBack(Json, entry, debug);
    assert "}" + "\n" == "}\n";
  }

  /** XML records: readable exactly if XML allows all characters; a debug record loses tabs of the file name. */
  lemma XmlRecord(entry: Entry, debug: bool)
    ensures var layout := BuiltIn(Xml, debug);
      var r := ReadRecord(Xml, layout.columns, Render(entry, TemplateText(Xml, debug)) + "\n");
      && (r.Some? <==> XmlSafe(entry.message) && (debug ==> XmlSafe(entry.filename)))
      && (r.Some? ==> r.value.1 == "</log>\n")
      && (r.Some? ==> (r.value.0 == Values(Xml, entry, debug) <==> (debug ==> '\t' !in entry.filename)))
  {
    hide ReadRecord, Render, Template, TemplateText, Values, XmlSafe;
    TemplatesAsWritten(Xml, debug);
    RecordReadsBack(Xml, entry, debug);
    assert "</log>" + "\n" == "</log>\n";
  }

  /** SQL statements and CSV records are always readable. */
  lemma SqlRecord(entry: Entry, debug: bool)
    ensures var layout := BuiltIn(Sql, debug);
      ReadRecord(Sql, layout.columns, Render(entry, TemplateText(Sql, debug)) + "\n") ==
        Some((Values(Sql, entry, debug), ");\n"))
  {
    hide ReadRecord, Render, Template, TemplateText, Values;
    TemplatesAsWritten(Sql, debug);
    RecordReadsBack(Sql, entry, debug);
    assert ");" + "\n" == ");\n";
  }

  lemma CsvRecord(entry: Entry, debug: bool)
    ensures var layout := BuiltIn(Csv, debug);
      ReadRecord(Csv, layout.columns, Render(entry, TemplateText(Csv, debug)) + "\n") ==
        Some((Values(Csv, entry, debug), "\r\n"))
  {
    hide ReadRecord, Render, Template, TemplateText, Values;
    TemplatesAsWritten(Csv, debug);
    RecordReadsBack(Csv, entry, debug);
    assert "\r" + "\n" == "\r\n";
  }
}
