/** The four streaming string escapers of the log templates, and readers of the target formats. */
module Escapers {
  import opened CStrings

  datatype Format = Json | Xml | Sql | Csv

  const BACKSPACE := '\U{0008}'
  const FORM_FEED := '\U{000C}'

  // ---------------------------------------------------------------------------------------------
  // Per-character escaping

  // What is written in place of a character, None for a character that stays in the current run.
  function Replacement(format: Format, ch: char): Option<string> {
    match format
    case Json =>
      if ch == '\\' || ch == '"' || ch == '/' then Some(['\\', ch])
      else if ch == '\r' then Some("\\r")
      else if ch == '\n' then Some("\\n")
      else if ch == '\t' then Some("\\t")
      else if ch == BACKSPACE then Some("\\b")
      else if ch == FORM_FEED then Some("\\f")
      else if ch == '<' then Some("\\u003c")
      else if ch == '>' then Some("\\u003e")
      else None
    case Xml =>
      if ch == '&' then Some("&amp;")
      else if ch == '"' then Some("&quot;")
      else if ch == '\'' then Some("&#39;")
      else if ch == '<' then Some("&lt;")
      else if ch == '>' then Some("&gt;")
      else if ch == '\r' then Some("&#13;")
      else if ch == '\n' then Some("&#10;")
      else None
    case Sql => if ch == '\'' then Some("''") else None
    case Csv => if ch == '"' then Some("\"\"") else None
  }

  function EscapeChar(format: Format, ch: char): string {
    var r := Replacement(format, ch);
    if r.Some? then r.value else [ch]
  }

  function Escape(format: Format, s: string): string {
    if s == "" then "" else EscapeChar(format, s[0]) + Escape(format, s[1..])
  }

  lemma {:induction false} EscapeAppend(format: Format, s: string, t: string)
    ensures Escape(format, s + t) == Escape(format, s) + Escape(format, t)
    decreases |s|
  {
    hide EscapeChar;
    if s == "" {
      assert s + t == t;
    } else {
      EscapeAppend(format, s[1..], t);
      assert (s + t)[1..] == s[1..] + t;
    }
  }

  lemma EscapeNext(format: Format, s: string, i: nat)
    requires i < |s|
    ensures Escape(format, s[..i + 1]) == Escape(format, s[..i]) + EscapeChar(format, s[i])
  {
    EscapeAppend(format, s[..i], [s[i]]);
    assert s[..i + 1] == s[..i] + [s[i]];
    assert [s[i]][1..] == "";
  }

  // ---------------------------------------------------------------------------------------------
  // The four escapers. Runs of unescaped characters are written in one go: `prev` marks where the
  // current run starts.

  ghost predicate Flushing(format: Format, str: string, prev: int, ptr: int, before: string, written: string) {
    0 <= prev <= ptr <= |str| && written + str[prev..ptr] == before + Escape(format, str[..ptr])
  }

  // The run and what replaces the character behind it were written.
  lemma Replaced(format: Format, str: string, prev: nat, ptr: nat, before: string, replacement: string)
    requires prev <= ptr < |str| && Replacement(format, str[ptr]) == Some(replacement)
    ensures before + Escape(format, str[..ptr]) + replacement == before + Escape(format, str[..ptr + 1])
    ensures str[ptr + 1..ptr + 1] == ""
  {
    hide Escape, Replacement;
    EscapeNext(format, str, ptr);
  }

  // The character joins the run.
  lemma Passed(format: Format, str: string, prev: nat, ptr: nat, before: string, written: string)
    requires Flushing(format, str, prev, ptr, before, written)
    requires ptr < |str| && Replacement(format, str[ptr]) == None
    ensures Flushing(format, str, prev, ptr + 1, before, written)
  {
    hide Escape, Replacement;
    EscapeNext(format, str, ptr);
    assert written + str[prev..ptr + 1] == written + str[prev..ptr] + [str[ptr]];
  }

  /** Writes the string with the JSON escapes. */
  method PrintJsonString(fp: OutputStream, str: CString)
    modifies fp
    ensures fp.written == old(fp.written) + Escape(Json, str)
  {
    hide Escape;
    EscapeNothing(Json);
    ghost var before := fp.written;
    var prev, ptr := 0, 0;
    assert str[..0] == "";
    while true
      invariant Flushing(Json, str, prev, ptr, before, fp.written)
      decreases |str| - ptr
    {
      var ch := At(str, ptr);
      match ch {
        case '\0' =>
          fp.Write(str[prev..ptr]);
          assert str[..ptr] == str;
          return;
        case '\\' | '"' | '/' =>
          fp.Write(str[prev..ptr]);
          fp.Write("\\");
          fp.Write([ch]);
          Replaced(Json, str, prev, ptr, before, ['\\', ch]);
          assert "\\" + [ch] == ['\\', ch];
          ptr := ptr + 1;
          prev := ptr;
        case '\r' =>
          fp.Write(str[prev..ptr]);
          fp.Write("\\r");
          Replaced(Json, str, prev, ptr, before, "\\r");
          ptr := ptr + 1;
          prev := ptr;
        case '\n' =>
          fp.Write(str[prev..ptr]);
          fp.Write("\\n");
          Replaced(Json, str, prev, ptr, before, "\\n");
          ptr := ptr + 1;
          prev := ptr;
        case '\t' =>
          fp.Write(str[prev..ptr]);
          fp.Write("\\t");
          Replaced(Json, str, prev, ptr, before, "\\t");
          ptr := ptr + 1;
          prev := ptr;
        case '\U{0008}' =>
          fp.Write(str[prev..ptr]);
          fp.Write("\\b");
          Replaced(Json, str, prev, ptr, before, "\\b");
          ptr := ptr + 1;
          prev := ptr;
        case '\U{000C}' =>
          fp.Write(str[prev..ptr]);
          fp.Write("\\f");
          Replaced(Json, str, prev, ptr, before, "\\f");
          ptr := ptr + 1;
          prev := ptr;
        case '<' =>
          fp.Write(str[prev..ptr]);
          fp.Write("\\u003c");
          Replaced(Json, str, prev, ptr, before, "\\u003c");
          ptr := ptr + 1;
          prev := ptr;
        case '>' =>
          fp.Write(str[prev..ptr]);
          fp.Write("\\u003e");
          Replaced(Json, str, prev, ptr, before, "\\u003e");
          ptr := ptr + 1;
          prev := ptr;
        case _ =>
          Passed(Json, str, prev, ptr, before, fp.written);
          ptr := ptr + 1;
      }
    }
  }

  /** Writes the string with XML references. */
  method PrintXmlString(fp: OutputStream, str: CString)
    modifies fp
    ensures fp.written == old(fp.written) + Escape(Xml, str)
  {
    hide Escape;
    EscapeNothing(Xml);
    ghost var before := fp.written;
    var prev, ptr := 0, 0;
    assert str[..0] == "";
    while true
      invariant Flushing(Xml, str, prev, ptr, before, fp.written)
      decreases |str| - ptr
    {
      var ch := At(str, ptr);
      match ch {
        case '\0' =>
          fp.Write(str[prev..ptr]);
          assert str[..ptr] == str;
          return;
        case '&' =>
          fp.Write(str[prev..ptr]);
          fp.Write("&amp;");
          Replaced(Xml, str, prev, ptr, before, "&amp;");
          ptr := ptr + 1;
          prev := ptr;
        case '"' =>
          fp.Write(str[prev..ptr]);
          fp.Write("&quot;");
          Replaced(Xml, str, prev, ptr, before, "&quot;");
          ptr := ptr + 1;
          prev := ptr;
        case '\'' =>
          fp.Write(str[prev..ptr]);
          fp.Write("&#39;");
          Replaced(Xml, str, prev, ptr, before, "&#39;");
          ptr := ptr + 1;
          prev := ptr;
        case '<' =>
          fp.Write(str[prev..ptr]);
          fp.Write("&lt;");
          Replaced(Xml, str, prev, ptr, before, "&lt;");
          ptr := ptr + 1;
          prev := ptr;
        case '>' =>
          fp.Write(str[prev..ptr]);
          fp.Write("&gt;");
          Replaced(Xml, str, prev, ptr, before, "&gt;");
          ptr := ptr + 1;
          prev := ptr;
        case '\r' =>
          fp.Write(str[prev..ptr]);
          fp.Write("&#13;");
          Replaced(Xml, str, prev, ptr, before, "&#13;");
          ptr := ptr + 1;
          prev := ptr;
        case '\n' =>
          fp.Write(str[prev..ptr]);
          fp.Write("&#10;");
          Replaced(Xml, str, prev, ptr, before, "&#10;");
          ptr := ptr + 1;
          prev := ptr;
        case _ =>
          Passed(Xml, str, prev, ptr, before, fp.written);
          ptr := ptr + 1;
      }
    }
  }

  /** Writes the string with single quotes doubled. */
  method PrintSqlString(fp: OutputStream, str: CString)
    modifies fp
    ensures fp.written == old(fp.written) + Escape(Sql, str)
  {
    hide Escape;
    EscapeNothing(Sql);
    ghost var before := fp.written;
    var prev, ptr := 0, 0;
    assert str[..0] == "";
    while true
      invariant Flushing(Sql, str, prev, ptr, before, fp.written)
      decreases |str| - ptr
    {
      var ch := At(str, ptr);
      match ch {
        case '\0' =>
          fp.Write(str[prev..ptr]);
          assert str[..ptr] == str;
          return;
        case '\'' =>
          fp.Write(str[prev..ptr]);
          fp.Write("''");
          Replaced(Sql, str, prev, ptr, before, "''");
          ptr := ptr + 1;
          prev := ptr;
        case _ =>
          Passed(Sql, str, prev, ptr, before, fp.written);
          ptr := ptr + 1;
      }
    }
  }

  /** Writes the string with double quotes doubled. */
  method PrintCsvString(fp: OutputStream, str: CString)
    modifies fp
    ensures fp.written == old(fp.written) + Escape(Csv, str)
  {
    hide Escape;
    EscapeNothing(Csv);
    ghost var before := fp.written;
    var prev, ptr := 0, 0;
    assert str[..0] == "";
    while true
      invariant Flushing(Csv, str, prev, ptr, before, fp.written)
      decreases |str| - ptr
    {
      var ch := At(str, ptr);
      match ch {
        case '\0' =>
          fp.Write(str[prev..ptr]);
          assert str[..ptr] == str;
          return;
        case '"' =>
          fp.Write(str[prev..ptr]);
          fp.Write("\"\"");
          Replaced(Csv, str, prev, ptr, before, "\"\"");
          ptr := ptr + 1;
          prev := ptr;
        case _ =>
          Passed(Csv, str, prev, ptr, before, fp.written);
          ptr := ptr + 1;
      }
    }
  }

  lemma EscapeNothing(format: Format)
    ensures Escape(format, "") == ""
  {
  }

  // ---------------------------------------------------------------------------------------------
  // Which characters are escaped

  // JSON: backslash, quote, slash, five control characters and the angle brackets; XML: both quotes, angle
  // brackets, ampersand and line ends; SQL: the single quote; CSV: the double quote.
  predicate IsSpecial(format: Format, ch: char) {
    match format
    case Json => ch in "\\\"/\r\n\t<>" || ch as int == 8 || ch as int == 12
    case Xml => ch in "&\"'<>\r\n"
    case Sql => ch == '\''
    case Csv => ch == '"'
  }

  /** What is written for each of them. */
  lemma SpecialsSpelled()
    ensures Escape(Json, "\\") == "\\\\" && Escape(Json, "\"") == "\\\"" && Escape(Json, "/") == "\\/"
    ensures Escape(Json, "\r") == "\\r" && Escape(Json, "\n") == "\\n" && Escape(Json, "\t") == "\\t"
    ensures Escape(Json, "\U{0008}") == "\\b" && Escape(Json, "\U{000C}") == "\\f"
    ensures Escape(Json, "<") == "\\u003c" && Escape(Json, ">") == "\\u003e"
    ensures Escape(Xml, "&") == "&amp;" && Escape(Xml, "\"") == "&quot;" && Escape(Xml, "'") == "&#39;"
    ensures Escape(Xml, "<") == "&lt;" && Escape(Xml, ">") == "&gt;"
    ensures Escape(Xml, "\r") == "&#13;" && Escape(Xml, "\n") == "&#10;"
    ensures Escape(Sql, "'") == "''" && Escape(Csv, "\"") == "\"\""
  {
    hide Escape;
    forall format: Format, ch: char {
      EscapeSingle(format, ch);
    }
  }

  lemma EscapeSingle(format: Format, ch: char)
    ensures Escape(format, [ch]) == EscapeChar(format, ch)
  {
    hide EscapeChar;
    assert [ch][1..] == "";
    EscapeNothing(format);
    assert EscapeChar(format, ch) + "" == EscapeChar(format, ch);
  }

  lemma SpecialGrows(format: Format, ch: char)
    ensures if IsSpecial(format, ch) then |EscapeChar(format, ch)| > 1 else EscapeChar(format, ch) == [ch]
  {
  }

  lemma {:induction false} EscapeGrows(format: Format, s: string)
    ensures |Escape(format, s)| >= |s|
    ensures |Escape(format, s)| == |s| <==> forall i :: 0 <= i < |s| ==> !IsSpecial(format, s[i])
    ensures |Escape(format, s)| == |s| ==> Escape(format, s) == s
    decreases |s|
  {
    hide EscapeChar, IsSpecial;
    if s != "" {
      EscapeGrows(format, s[1..]);
      SpecialGrows(format, s[0]);
      assert s == [s[0]] + s[1..];
      assert forall i :: 1 <= i < |s| ==> s[i] == s[1..][i - 1];
    }
  }

  /** A string is left as it is exactly if it has none of the special characters of the format. */
  lemma EscapesExactly(format: Format, s: string)
    ensures Escape(format, s) == s <==> forall i :: 0 <= i < |s| ==> !IsSpecial(format, s[i])
  {
    hide Escape, IsSpecial;
    EscapeGrows(format, s);
  }

  lemma InertChar(format: Format, ch: char, k: nat)
    requires k < |EscapeChar(format, ch)|
    ensures format == Json ==> EscapeChar(format, ch)[k] !in "<>\r\n\t"
    ensures format == Xml ==> EscapeChar(format, ch)[k] !in "<>\"'\r\n"
  {
  }

  /**
   * JSON output has no angle brackets and no line ends or tabs in it, so it can stand in a line, and in HTML;
   * XML output has no angle brackets, quotes or line ends.
   */
  lemma {:induction false} EscapedIsInert(format: Format, s: string, k: nat)
    requires k < |Escape(format, s)|
    ensures format == Json ==> Escape(format, s)[k] !in "<>\r\n\t"
    ensures format == Xml ==> Escape(format, s)[k] !in "<>\"'\r\n"
    decreases |s|
  {
    var first := EscapeChar(format, s[0]);
    hide EscapeChar;
    if k < |first| {
      InertChar(format, s[0], k);
    } else {
      EscapedIsInert(format, s[1..], k - |first|);
    }
  }

  // ---------------------------------------------------------------------------------------------
  // Readers: the decoded text up to the closing delimiter, and the input behind it

  type Reading = Option<(string, string)>

  // Text that was decoded in front of a reading.
  function Behind(text: string, reading: Reading): Reading {
    if reading.None? then None else Some((text + reading.value.0, reading.value.1))
  }

  // A JSON string behind its opening quote (RFC 8259, section 7).
  function ReadJson(s: string): Reading
    decreases |s|
  {
    if s == "" then None
    else if s[0] == '"' then Some(("", s[1..]))
    else if s[0] == '\\' then
      var e := ReadJsonEscape(s[1..]);
      if e.None? then None else Behind([e.value.0], ReadJson(e.value.1))
    else if s[0] < ' ' then None
    else Behind([s[0]], ReadJson(s[1..]))
  }

  function ReadJsonEscape(s: string): (r: Option<(char, string)>)
    ensures r.Some? ==> |r.value.1| < |s|
  {
    if s == "" then None
    else if s[0] == '"' || s[0] == '\\' || s[0] == '/' then Some((s[0], s[1..]))
    else if s[0] == 'b' then Some((BACKSPACE, s[1..]))
    else if s[0] == 'f' then Some((FORM_FEED, s[1..]))
    else if s[0] == 'n' then Some(('\n', s[1..]))
    else if s[0] == 'r' then Some(('\r', s[1..]))
    else if s[0] == 't' then Some(('\t', s[1..]))
    else if s[0] == 'u' && |s| >= 5 && IsHex(s[1]) && IsHex(s[2]) && IsHex(s[3]) && IsHex(s[4]) then
      var code := ((HexValue(s[1]) * 16 + HexValue(s[2])) * 16 + HexValue(s[3])) * 16 + HexValue(s[4]);
      if 0xD800 <= code < 0xE000 then None else Some((code as char, s[5..]))
    else None
  }

  predicate IsHex(ch: char) {
    '0' <= ch <= '9' || 'a' <= ch <= 'f' || 'A' <= ch <= 'F'
  }

  function HexValue(ch: char): (v: nat)
    requires IsHex(ch)
    ensures v < 16
  {
    if ch <= '9' then ch as nat - '0' as nat
    else if ch <= 'F' then ch as nat - 'A' as nat + 10
    else ch as nat - 'a' as nat + 10
  }

  // An SQL literal or CSV field behind its opening quote: the quote is written twice inside
  // (RFC 4180, section 2).
  function ReadQuoted(quote: char, s: string): Reading
    decreases |s|
  {
    if s == "" then None
    else if s[0] != quote then Behind([s[0]], ReadQuoted(quote, s[1..]))
    else if |s| > 1 && s[1] == quote then Behind([quote], ReadQuoted(quote, s[2..]))
    else Some(("", s[1..]))
  }

  // Where XML text stands: between tags, or in an attribute value between double quotes.
  datatype Place = Content | Attribute

  // XML character data up to '<', or an attribute value up to '"' (XML 1.0, sections 2.4, 3.1, 4.1).
  function ReadXml(place: Place, s: string): Reading
    decreases |s|
  {
    if s == "" then None
    else if s[0] == '<' then (if place == Content then Some(("", s)) else None)
    else if s[0] == '"' && place == Attribute then Some(("", s[1..]))
    else if s[0] == '&' then
      var e := ReadXmlReference(s[1..]);
      if e.None? then None else Behind([e.value.0], ReadXml(place, e.value.1))
    else if !IsXmlChar(s[0]) then None
    else Behind([LiteralXmlChar(place, s[0])], ReadXml(place, s[1..]))
  }

  // The Char production (XML 1.0, section 2.2).
  predicate IsXmlChar(ch: char) {
    ch == '\t' || ch == '\n' || ch == '\r' || (' ' <= ch && ch != '\U{FFFE}' && ch != '\U{FFFF}')
  }

  // Literal line ends are read as LF (section 2.11), literal white space in an attribute value as a
  // space (section 3.3.3).
  function LiteralXmlChar(place: Place, ch: char): char {
    if place == Attribute && (ch == '\t' || ch == '\n' || ch == '\r') then ' '
    else if ch == '\r' then '\n'
    else ch
  }

  function ReadXmlReference(s: string): (r: Option<(char, string)>)
    ensures r.Some? ==> |r.value.1| < |s|
  {
    if s == "" then None
    else if s[0] == '#' then ReadCharReference(s[1..], 0)
    else if "amp;" <= s then Some(('&', s[4..]))
    else if "lt;" <= s then Some(('<', s[3..]))
    else if "gt;" <= s then Some(('>', s[3..]))
    else if "quot;" <= s then Some(('"', s[5..]))
    else if "apos;" <= s then Some(('\'', s[5..]))
    else None
  }

  function ReadCharReference(s: string, code: nat): (r: Option<(char, string)>)
    ensures r.Some? ==> |r.value.1| < |s|
    decreases |s|
  {
    if s == "" then None
    else if s[0] == ';' then
      if code < 0xD800 && IsXmlChar(code as char) then Some((code as char, s[1..])) else None
    else if '0' <= s[0] <= '9' then ReadCharReference(s[1..], code * 10 + (s[0] as nat - '0' as nat))
    else None
  }

  // ---------------------------------------------------------------------------------------------
  // Escaped text is read back

  // JSON has an escape for every control character, but only five of them are escaped.
  predicate JsonSafe(s: string) {
    forall i :: 0 <= i < |s| ==>
      s[i] >= ' ' || s[i] == '\r' || s[i] == '\n' || s[i] == '\t' || s[i] == BACKSPACE || s[i] == FORM_FEED
  }

  lemma JsonChar(ch: char, t: string)
    ensures ReadJson(EscapeChar(Json, ch) + t) == if JsonSafe([ch]) then Behind([ch], ReadJson(t)) else None
  {
    hide ReadJson, ReadJsonEscape;
    assert JsonSafe([ch]) <==> JsonSafe([ch]) && [ch][0] == ch;
    if ch == '<' || ch == '>' {
      AngleEscape(ch, t);
      ReadJsonBackslash((if ch == '<' then "u003c" else "u003e") + t);
      assert EscapeChar(Json, ch) + t == "\\" + ((if ch == '<' then "u003c" else "u003e") + t);
    } else if Replacement(Json, ch).Some? {
      ShortEscape(ch, t);
      ReadJsonBackslash([EscapeChar(Json, ch)[1]] + t);
      assert EscapeChar(Json, ch) + t == "\\" + ([EscapeChar(Json, ch)[1]] + t);
    } else {
      ReadJsonPlain(ch, t);
    }
  }

  lemma ReadJsonBackslash(s: string)
    ensures ReadJson("\\" + s) ==
      var e := ReadJsonEscape(s); if e.None? then None else Behind([e.value.0], ReadJson(e.value.1))
  {
    hide ReadJsonEscape;
    assert ("\\" + s)[1..] == s;
  }

  lemma ReadJsonPlain(ch: char, t: string)
    requires ch != '"' && ch != '\\'
    ensures ReadJson([ch] + t) == if ch < ' ' then None else Behind([ch], ReadJson(t))
  {
    assert ([ch] + t)[1..] == t;
  }

  lemma ShortEscape(ch: char, t: string)
    requires Replacement(Json, ch).Some? && ch != '<' && ch != '>'
    ensures EscapeChar(Json, ch)[0] == '\\' && |EscapeChar(Json, ch)| == 2
    ensures ReadJsonEscape([EscapeChar(Json, ch)[1]] + t) == Some((ch, t))
  {
    var u := [EscapeChar(Json, ch)[1]] + t;
    assert u[1..] == t;
  }

  lemma AngleEscape(ch: char, t: string)
    requires ch == '<' || ch == '>'
    ensures ReadJsonEscape((if ch == '<' then "u003c" else "u003e") + t) == Some((ch, t))
  {
    var v := (if ch == '<' then "u003c" else "u003e") + t;
    assert v[..5] == (if ch == '<' then "u003c" else "u003e") && v[5..] == t;
    assert HexValue('c') == 12 && HexValue('e') == 14 && HexValue('3') == 3 && HexValue('0') == 0;
  }

  /** Reading an escaped string recovers it, exactly if JSON allows the characters that were left alone. */
  lemma {:induction false} JsonReadsBack(s: string, t: string)
    ensures ReadJson(Escape(Json, s) + t) == if JsonSafe(s) then Behind(s, ReadJson(t)) else None
    decreases |s|
  {
    if s == "" {
      assert Escape(Json, s) + t == t;
      BehindNothing(ReadJson(t));
    } else {
      hide ReadJson, EscapeChar;
      var rest := Escape(Json, s[1..]) + t;
      assert Escape(Json, s) + t == EscapeChar(Json, s[0]) + rest;
      JsonReadsBack(s[1..], t);
      JsonChar(s[0], rest);
      JsonSafeFirst(s);
      BehindBehind([s[0]], s[1..], ReadJson(t));
      assert s == [s[0]] + s[1..];
    }
  }

  lemma JsonSafeFirst(s: string)
    requires s != ""
    ensures JsonSafe(s) <==> JsonSafe([s[0]]) && JsonSafe(s[1..])
  {
    assert s == [s[0]] + s[1..];
    if JsonSafe([s[0]]) && JsonSafe(s[1..]) {
      assert [s[0]][0] == s[0];
      assert forall i :: 1 <= i < |s| ==> s[i] == s[1..][i - 1];
    }
    if JsonSafe(s) {
      assert forall i :: 0 <= i < |s| - 1 ==> s[1..][i] == s[i + 1];
    }
  }

  lemma BehindNothing(reading: Reading)
    ensures Behind("", reading) == reading
  {
    if reading.Some? {
      assert "" + reading.value.0 == reading.value.0;
    }
  }

  lemma BehindBehind(a: string, b: string, reading: Reading)
    ensures Behind(a, Behind(b, reading)) == Behind(a + b, reading)
  {
    if reading.Some? {
      assert a + (b + reading.value.0) == a + b + reading.value.0;
    }
  }

  function Quote(format: Format): char
    requires format == Sql || format == Csv
  {
    if format == Sql then '\'' else '"'
  }

  lemma QuotedChar(format: Format, ch: char, t: string)
    requires format == Sql || format == Csv
    ensures ReadQuoted(Quote(format), EscapeChar(format, ch) + t) == Behind([ch], ReadQuoted(Quote(format), t))
  {
    var u := EscapeChar(format, ch) + t;
    if ch == Quote(format) {
      assert u[2..] == t;
    } else {
      assert u[1..] == t;
    }
  }

  lemma {:induction false} QuotedReadsBack(format: Format, s: string, t: string)
    requires format == Sql || format == Csv
    ensures ReadQuoted(Quote(format), Escape(format, s) + t) == Behind(s, ReadQuoted(Quote(format), t))
    decreases |s|
  {
    if s == "" {
      assert Escape(format, s) + t == t;
      BehindNothing(ReadQuoted(Quote(format), t));
    } else {
      hide ReadQuoted, EscapeChar;
      var rest := Escape(format, s[1..]) + t;
      assert Escape(format, s) + t == EscapeChar(format, s[0]) + rest;
      QuotedReadsBack(format, s[1..], t);
      QuotedChar(format, s[0], rest);
      BehindBehind([s[0]], s[1..], ReadQuoted(Quote(format), t));
      assert s == [s[0]] + s[1..];
    }
  }

  /** Between quotes the string is recovered, unless another quote follows the closing one. */
  lemma QuotedFieldReadsBack(format: Format, s: string, rest: string)
    requires format == Sql || format == Csv
    ensures var q := Quote(format);
      ReadQuoted(q, Escape(format, s) + [q] + rest) == Some((s, rest)) <==> !([q] <= rest)
  {
    var q := Quote(format);
    QuotedReadsBack(format, s, [q] + rest);
    assert Escape(format, s) + [q] + rest == Escape(format, s) + ([q] + rest);
    if [q] <= rest {
      assert ([q] + rest)[2..] == rest[1..];
    } else {
      assert ([q] + rest)[1..] == rest;
      assert s + "" == s;
    }
  }

  predicate XmlSafe(s: string) {
    forall i :: 0 <= i < |s| ==> IsXmlChar(s[i])
  }

  // A tab is not escaped, so an attribute value does not keep it.
  function XmlRead(place: Place, s: string): string {
    if s == "" then "" else [if place == Attribute && s[0] == '\t' then ' ' else s[0]] + XmlRead(place, s[1..])
  }

  lemma {:induction false} XmlReadKeeps(place: Place, s: string)
    ensures XmlRead(place, s) == s <==> place == Content || '\t' !in s
    decreases |s|
  {
    if s != "" {
      XmlReadKeeps(place, s[1..]);
      assert s == [s[0]] + s[1..];
      assert |XmlRead(place, s)| > 0 && XmlRead(place, s)[1..] == XmlRead(place, s[1..]);
    }
  }

  lemma DecimalStep(d: char, s: string, code: nat)
    requires '0' <= d <= '9'
    ensures ReadCharReference([d] + s, code) == ReadCharReference(s, code * 10 + (d as nat - '0' as nat))
  {
    assert ([d] + s)[1..] == s;
  }

  // The three numeric references the escaper writes.
  lemma NumericReference(ch: char, t: string)
    requires ch == '\'' || ch == '\r' || ch == '\n'
    ensures ReadXmlReference((if ch == '\'' then "#39;" else if ch == '\r' then "#13;" else "#10;") + t)
        == Some((ch, t))
  {
    hide ReadCharReference;
    var d1, d2 := if ch == '\'' then '3' else '1', if ch == '\'' then '9' else if ch == '\r' then '3' else '0';
    var u := (if ch == '\'' then "#39;" else if ch == '\r' then "#13;" else "#10;") + t;
    assert u == ['#', d1, d2, ';'] + t;
    assert u[1..] == [d1] + ([d2] + ([';'] + t));
    assert (d1 as nat - '0' as nat) * 10 + (d2 as nat - '0' as nat) == ch as nat;
    DecimalStep(d1, [d2] + ([';'] + t), 0);
    DecimalStep(d2, [';'] + t, d1 as nat - '0' as nat);
    ReferenceEnd(ch, t);
  }

  lemma ReferenceEnd(ch: char, t: string)
    requires IsXmlChar(ch) && ch as nat < 0xD800
    ensures ReadCharReference([';'] + t, ch as nat) == Some((ch, t))
  {
    assert ([';'] + t)[1..] == t;
    assert (ch as nat) as char == ch;
  }

  lemma XmlChar(place: Place, ch: char, t: string)
    ensures ReadXml(place, EscapeChar(Xml, ch) + t)
         == if IsXmlChar(ch) then Behind(XmlRead(place, [ch]), ReadXml(place, t)) else None
  {
    var u := EscapeChar(Xml, ch) + t;
    assert XmlRead(place, [ch]) == [if place == Attribute && ch == '\t' then ' ' else ch] by {
      assert [ch][1..] == "" && XmlRead(place, "") == "";
    }
    if ch == '\'' || ch == '\r' || ch == '\n' {
      NumericReference(ch, t);
      assert u[1..] == (if ch == '\'' then "#39;" else if ch == '\r' then "#13;" else "#10;") + t;
    } else if Replacement(Xml, ch).Some? {
      NamedReference(ch, t);
      assert u[1..] == EscapeChar(Xml, ch)[1..] + t;
    } else {
      assert u[1..] == t;
    }
  }

  lemma NamedReference(ch: char, t: string)
    requires ch == '&' || ch == '<' || ch == '>' || ch == '"'
    ensures EscapeChar(Xml, ch)[0] == '&'
    ensures ReadXmlReference(EscapeChar(Xml, ch)[1..] + t) == Some((ch, t))
  {
    var name := if ch == '&' then "amp;" else if ch == '<' then "lt;" else if ch == '>' then "gt;" else "quot;";
    var u := name + t;
    assert EscapeChar(Xml, ch) == "&" + name;
    assert EscapeChar(Xml, ch)[1..] == name;
    assert u[0] == name[0] && name <= u && u[|name|..] == t;
  }

  lemma XmlSafeFirst(s: string)
    requires s != ""
    ensures XmlSafe(s) <==> IsXmlChar(s[0]) && XmlSafe(s[1..])
  {
    hide IsXmlChar;
    if IsXmlChar(s[0]) && XmlSafe(s[1..]) {
      assert forall i :: 1 <= i < |s| ==> s[i] == s[1..][i - 1];
    }
    if XmlSafe(s) {
      assert forall i :: 0 <= i < |s| - 1 ==> s[1..][i] == s[i + 1];
    }
  }

  lemma XmlReadFirst(place: Place, s: string)
    requires s != ""
    ensures XmlRead(place, s) == XmlRead(place, [s[0]]) + XmlRead(place, s[1..])
  {
    assert [s[0]][1..] == "" && XmlRead(place, "") == "";
  }

  /** Reading escaped XML text recovers it up to attribute tabs, exactly if XML allows all its characters. */
  lemma {:induction false} XmlReadsBack(place: Place, s: string, t: string)
    ensures ReadXml(place, Escape(Xml, s) + t)
         == if XmlSafe(s) then Behind(XmlRead(place, s), ReadXml(place, t)) else None
    decreases |s|
  {
    if s == "" {
      assert Escape(Xml, s) + t == t;
      BehindNothing(ReadXml(place, t));
    } else {
      hide ReadXml, EscapeChar, XmlRead;
      var rest := Escape(Xml, s[1..]) + t;
      assert Escape(Xml, s) + t == EscapeChar(Xml, s[0]) + rest;
      XmlReadsBack(place, s[1..], t);
      XmlChar(place, s[0], rest);
      XmlSafeFirst(s);
      XmlReadFirst(place, s);
      BehindBehind(XmlRead(place, [s[0]]), XmlRead(place, s[1..]), ReadXml(place, t));
    }
  }
}
