/** The log template language: the validator, the renderer, and the tokens both agree on. */
module LogTemplate {
  import opened CStrings
  import opened Escapers

  // ---------------------------------------------------------------------------------------------
  // Tokens

  datatype Token =
    | Literal(ch: char)                       // any character but '%'
    | Local(unit: char)                       // %Y %m %d %H %M %S %z %t %T %a %b
    | Gmt(unit: char)                         // %gY ... %gb
    | HttpDate                                // %h
    | Field(field: char)                      // %s %f %n %l %L
    | Escaped(format: Format, field: char)    // %js %xf %ql ...
    | Percent                                 // %%
    | Unknown(ch: char)                       // '%' and a character that starts no directive
    | Dangling                                // '%' at the end

  predicate IsLocalUnit(ch: char) {
    ch == 'Y' || ch == 'm' || ch == 'd' || ch == 'H' || ch == 'M' || ch == 'S' || ch == 'z'
    || ch == 't' || ch == 'T' || ch == 'a' || ch == 'b'
  }

  predicate IsGmtUnit(ch: char) {
    IsLocalUnit(ch) && ch != 'z'
  }

  predicate IsField(ch: char) {
    ch == 's' || ch == 'f' || ch == 'n' || ch == 'l' || ch == 'L'
  }

  predicate IsEscapable(ch: char) {
    IsField(ch) && ch != 'n'
  }

  predicate IsFormatLetter(ch: char) {
    ch == 'j' || ch == 'x' || ch == 'q' || ch == 'c'
  }

  function FormatOf(ch: char): Format
    requires IsFormatLetter(ch)
  {
    if ch == 'j' then Json else if ch == 'x' then Xml else if ch == 'q' then Sql else Csv
  }

  function LetterOf(format: Format): char {
    match format
    case Json => 'j'
    case Xml => 'x'
    case Sql => 'q'
    case Csv => 'c'
  }

  predicate Known(token: Token) {
    match token
    case Literal(ch) => ch != '%'
    case Local(unit) => IsLocalUnit(unit)
    case Gmt(unit) => IsGmtUnit(unit)
    case Field(field) => IsField(field)
    case Escaped(_, field) => IsEscapable(field)
    case HttpDate => true
    case Percent => true
    case Unknown(_) => false
    case Dangling => false
  }

  predicate IsMessage(token: Token) {
    (token.Field? || token.Escaped?) && token.field == 's'
  }

  function Spelling(token: Token): (s: string)
    ensures s != ""
  {
    match token
    case Literal(ch) => [ch]
    case Local(unit) => ['%', unit]
    case Gmt(unit) => ['%', 'g', unit]
    case HttpDate => "%h"
    case Field(field) => ['%', field]
    case Escaped(format, field) => ['%', LetterOf(format), field]
    case Percent => "%%"
    case Unknown(ch) => ['%', ch]
    case Dangling => "%"
  }

  function SpellAll(tokens: seq<Token>): string {
    if tokens == [] then "" else Spelling(tokens[0]) + SpellAll(tokens[1..])
  }

  // The first token of a template.
  function Next(t: string): (token: Token)
    requires t != ""
    ensures Spelling(token) <= t
  {
    if t[0] != '%' then Literal(t[0])
    else if |t| == 1 then Dangling
    else if IsLocalUnit(t[1]) then Local(t[1])
    else if IsField(t[1]) then Field(t[1])
    else if t[1] == 'h' then HttpDate
    else if t[1] == '%' then Percent
    else if t[1] == 'g' && |t| > 2 && IsGmtUnit(t[2]) then Gmt(t[2])
    else if IsFormatLetter(t[1]) && |t| > 2 && IsEscapable(t[2]) then Escaped(FormatOf(t[1]), t[2])
    else Unknown(t[1])
  }

  function Scan(t: string): seq<Token>
    decreases |t|
  {
    if t == "" then [] else var token := Next(t); [token] + Scan(t[|Spelling(token)|..])
  }

  predicate AllKnown(tokens: seq<Token>) {
    forall i :: 0 <= i < |tokens| ==> Known(tokens[i])
  }

  predicate HasMessage(tokens: seq<Token>) {
    exists i :: 0 <= i < |tokens| && IsMessage(tokens[i])
  }

  // Scanning loses nothing.
  lemma {:induction false} ScanSpells(t: string)
    ensures SpellAll(Scan(t)) == t
    decreases |t|
  {
    if t != "" {
      var token := Next(t);
      var rest := t[|Spelling(token)|..];
      ScanSpells(rest);
      assert t == Spelling(token) + rest;
      SpellFirst(token, Scan(rest));
    }
  }

  lemma SpellFirst(token: Token, rest: seq<Token>)
    ensures SpellAll([token] + rest) == Spelling(token) + SpellAll(rest)
  {
    assert ([token] + rest)[1..] == rest;
  }

  lemma NextIsFirst(token: Token, rest: string)
    requires Known(token)
    ensures Next(Spelling(token) + rest) == token
  {
  }

  // Directives are recognised wherever they are written.
  lemma ScanFirst(token: Token, rest: string)
    requires Known(token)
    ensures Scan(Spelling(token) + rest) == [token] + Scan(rest)
  {
    hide Next, Spelling;
    NextIsFirst(token, rest);
    assert (Spelling(token) + rest)[|Spelling(token)|..] == rest;
  }

  lemma {:induction false} ScanSpelled(tokens: seq<Token>)
    requires AllKnown(tokens)
    ensures Scan(SpellAll(tokens)) == tokens
    decreases |tokens|
  {
    if tokens != [] {
      hide Next, Spelling, Scan;
      ScanSpelled(tokens[1..]);
      ScanFirst(tokens[0], SpellAll(tokens[1..]));
      assert tokens == [tokens[0]] + tokens[1..];
    }
  }

  // ---------------------------------------------------------------------------------------------
  // The validator

  // The verdict when `tokens` are still to be read and a message was seen before or not.
  predicate Accepts(seen: bool, tokens: seq<Token>) {
    AllKnown(tokens) && (seen || HasMessage(tokens))
  }

  lemma AcceptsNext(seen: bool, t: string)
    requires t != ""
    ensures var token := Next(t); var rest := Scan(t[|Spelling(token)|..]);
      Accepts(seen, Scan(t)) <==> Known(token) && Accepts(seen || IsMessage(token), rest)
  {
    hide Next, Spelling, Known, IsMessage;
    var token := Next(t);
    AcceptsFirst(seen, token, Scan(t[|Spelling(token)|..]));
  }

  lemma AcceptsEnds(tokens: seq<Token>)
    ensures Accepts(false, tokens) <==> AllKnown(tokens) && HasMessage(tokens)
    ensures forall seen :: Accepts(seen, Scan("")) <==> seen
  {
  }

  lemma AcceptsAt(seen: bool, t: string, ptr: nat)
    requires ptr < |t|
    ensures var token := Next(t[ptr..]); var next := ptr + |Spelling(token)|;
      && next <= |t|
      && (Accepts(seen, Scan(t[ptr..])) <==> Known(token) && Accepts(seen || IsMessage(token), Scan(t[next..])))
  {
    hide Spelling, Known, IsMessage, Scan, Accepts;
    AcceptsNext(seen, t[ptr..]);
    var k := |Spelling(Next(t[ptr..]))|;
    assert t[ptr..][k..] == t[ptr + k..];
  }

  lemma AcceptsFirst(seen: bool, token: Token, rest: seq<Token>)
    ensures Accepts(seen, [token] + rest) <==> Known(token) && Accepts(seen || IsMessage(token), rest)
  {
    hide Known, IsMessage, AllKnown, HasMessage;
    KnownFirst(token, rest);
    MessageFirst(token, rest);
  }

  lemma KnownFirst(token: Token, rest: seq<Token>)
    ensures AllKnown([token] + rest) <==> Known(token) && AllKnown(rest)
  {
    hide Known;
    var all := [token] + rest;
    assert all[0] == token;
    if Known(token) && AllKnown(rest) {
      assert forall i :: 1 <= i < |all| ==> all[i] == rest[i - 1];
    }
    if AllKnown(all) {
      forall i | 0 <= i < |rest| ensures Known(rest[i]) {
        assert Known(all[i + 1]);
      }
    }
  }

  lemma MessageFirst(token: Token, rest: seq<Token>)
    ensures HasMessage([token] + rest) <==> IsMessage(token) || HasMessage(rest)
  {
    hide IsMessage;
    var all := [token] + rest;
    assert all[0] == token;
    if HasMessage(all) && !IsMessage(token) {
      var i :| 0 <= i < |all| && IsMessage(all[i]);
      assert IsMessage(rest[i - 1]);
    }
    if HasMessage(rest) {
      var i :| 0 <= i < |rest| && IsMessage(rest[i]);
      assert IsMessage(all[i + 1]);
    }
  }

  // The switch behind a format letter.
  method CheckArgument(ch: char) returns (known: bool, message: bool)
    ensures known <==> IsEscapable(ch)
    ensures message <==> ch == 's'
  {
    match ch {
      case 's' =>
        return true, true;
      case 'f' | 'l' | 'L' =>
        return true, false;
      case _ =>
        return false, false;
    }
  }

  // The switch behind 'g'.
  method CheckGmt(ch: char) returns (known: bool)
    ensures known <==> IsGmtUnit(ch)
  {
    match ch {
      case 'Y' | 'm' | 'd' | 'H' | 'M' | 'S' | 't' | 'T' | 'a' | 'b' =>
        return true;
      case _ =>
        return false;
    }
  }

  // One directive: `ptr` is left on its last character, `message` says if it prints the message.
  method CheckDirective(template: CString, start: nat) returns (known: bool, message: bool, ptr: nat)
    requires start < |template| && template[start] == '%'
    ensures var token := Next(template[start..]);
      && (known <==> Known(token))
      && (known ==> ptr == start + |Spelling(token)| - 1 && (message <==> IsMessage(token)))
  {
    message := false;
    ptr := start + 1;
    var ch := At(template, ptr);
    match ch {
      case 's' =>
        message := true;
      case 'j' | 'x' | 'q' | 'c' =>
        ptr := ptr + 1;
        known, message := CheckArgument(At(template, ptr));
        return;
      case 'g' =>
        ptr := ptr + 1;
        known := CheckGmt(At(template, ptr));
        return;
      case 'Y' | 'm' | 'd' | 'H' | 'M' | 'S' | 'z' | 't' | 'T' | 'f' | 'n' | 'l' | 'L' | 'h' | 'a' | 'b' | '%' =>
      case _ =>
        return false, false, ptr;
    }
    known := true;
  }

  method IsValidLogTemplate(template: CString) returns (valid: bool)
    ensures valid <==> AllKnown(Scan(template)) && HasMessage(Scan(template))
  {
    AcceptsEnds(Scan(template));
    hide Scan, Accepts, Known, IsMessage, Next, Spelling, AllKnown, HasMessage;
    var ok := false;
    var ptr := 0;
    assert template[0..] == template;
    while At(template, ptr) != '\0'
      invariant 0 <= ptr <= |template|
      invariant Accepts(false, Scan(template)) <==> Accepts(ok, Scan(template[ptr..]))
      decreases |template| - ptr
    {
      AcceptsAt(ok, template, ptr);
      if template[ptr] == '%' {
        var known, message;
        known, message, ptr := CheckDirective(template, ptr);
        if !known {
          return false;
        }
        ok := ok || message;
      } else {
        LiteralIsKnown(template[ptr..]);
      }
      ptr := ptr + 1;
    }
    assert template[ptr..] == "";
    AcceptsEnds([]);
    return ok;
  }

  lemma LiteralIsKnown(t: string)
    requires t != "" && t[0] != '%'
    ensures Next(t) == Literal(t[0]) && Known(Next(t)) && !IsMessage(Next(t)) && |Spelling(Next(t))| == 1
  {
  }

  /** Accepted are exactly the templates that some known tokens spell, one of them a message. */
  lemma ValidTemplates(template: string)
    ensures AllKnown(Scan(template)) && HasMessage(Scan(template))
      <==> exists tokens :: AllKnown(tokens) && HasMessage(tokens) && SpellAll(tokens) == template
  {
    ScanSpells(template);
    forall tokens | AllKnown(tokens) && SpellAll(tokens) == template
      ensures Scan(template) == tokens
    {
      ScanSpelled(tokens);
    }
  }
}
