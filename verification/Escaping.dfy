/** String escaping for JSON fragments and GBNF literals (oai_chat/common.rs), with
    the readers that undo it. */
module Escaping {
  import opened Options

  /** The five escapes both notations share. */
  function BasicEscape(c: char): Option<string> {
    match c
    case '"' => Some("\\\"")
    case '\\' => Some("\\\\")
    case '\n' => Some("\\n")
    case '\r' => Some("\\r")
    case '\t' => Some("\\t")
    case _ => None
  }

  /** Unicode category Cc. */
  predicate IsControl(c: char) {
    c as int < 0x20 || 0x7f <= c as int <= 0x9f
  }

  function HexDigit(d: nat): char
    requires d < 16
  {
    "0123456789abcdef"[d]
  }

  function Hex4(n: nat): (s: string)
    requires n < 0x1_0000
    ensures |s| == 4
  {
    [HexDigit(n / 0x1000), HexDigit(n / 0x100 % 16), HexDigit(n / 0x10 % 16), HexDigit(n % 16)]
  }

  function JsonEscape(c: char): string {
    match BasicEscape(c)
    case Some(e) => e
    case None => if IsControl(c) then "\\u" + Hex4(c as int) else [c]
  }

  function GbnfEscape(c: char): string {
    match BasicEscape(c)
    case Some(e) => e
    case None => [c]
  }

  function EscapeJson(raw: string): string {
    if raw == "" then "" else JsonEscape(raw[0]) + EscapeJson(raw[1..])
  }

  function EscapeGbnf(raw: string): string {
    if raw == "" then "" else GbnfEscape(raw[0]) + EscapeGbnf(raw[1..])
  }

  lemma HeadFirst(a: string, b: string)
    requires a != ""
    ensures a == [a[0]] + a[1..] && a + b == [a[0]] + (a[1..] + b)
  {
  }

  lemma Associative(a: string, b: string, c: string)
    ensures a + b + c == a + (b + c)
  {
  }

  lemma EscapeJsonStep(c: char, rest: string)
    ensures EscapeJson([c] + rest) == JsonEscape(c) + EscapeJson(rest)
  {
    hide JsonEscape;
    assert ([c] + rest)[1..] == rest;
  }

  /** Escaping distributes over concatenation, so fragments can be streamed. */
  lemma {:induction false} EscapeJsonAppend(a: string, b: string)
    ensures EscapeJson(a + b) == EscapeJson(a) + EscapeJson(b)
  {
    if a == "" {
      assert a + b == b;
    } else {
      hide EscapeJson, JsonEscape;
      var c, rest := a[0], a[1..];
      HeadFirst(a, b);
      EscapeJsonStep(c, rest);
      EscapeJsonStep(c, rest + b);
      EscapeJsonAppend(rest, b);
      Associative(JsonEscape(c), EscapeJson(rest), EscapeJson(b));
    }
  }

  lemma EscapeJsonGrows(raw: string, i: nat)
    requires i < |raw|
    ensures EscapeJson(raw[..i + 1]) == EscapeJson(raw[..i]) + JsonEscape(raw[i])
  {
    hide EscapeJson, JsonEscape;
    assert raw[..i + 1] == raw[..i] + [raw[i]];
    EscapeJsonAppend(raw[..i], [raw[i]]);
    EscapeJsonStep(raw[i], "");
    assert [raw[i]] + "" == [raw[i]];
    EscapeJsonNothing();
    assert JsonEscape(raw[i]) + "" == JsonEscape(raw[i]);
  }

  lemma EscapeJsonNothing()
    ensures EscapeJson("") == ""
  {
  }

  lemma EscapeGbnfStep(c: char, rest: string)
    ensures EscapeGbnf([c] + rest) == GbnfEscape(c) + EscapeGbnf(rest)
  {
    hide GbnfEscape;
    assert ([c] + rest)[1..] == rest;
  }

  /** Escaping distributes over concatenation, so fragments can be streamed. */
  lemma {:induction false} EscapeGbnfAppend(a: string, b: string)
    ensures EscapeGbnf(a + b) == EscapeGbnf(a) + EscapeGbnf(b)
  {
    if a == "" {
      assert a + b == b;
    } else {
      hide EscapeGbnf, GbnfEscape;
      var c, rest := a[0], a[1..];
      HeadFirst(a, b);
      EscapeGbnfStep(c, rest);
      EscapeGbnfStep(c, rest + b);
      EscapeGbnfAppend(rest, b);
      Associative(GbnfEscape(c), EscapeGbnf(rest), EscapeGbnf(b));
    }
  }

  lemma EscapeGbnfGrows(raw: string, i: nat)
    requires i < |raw|
    ensures EscapeGbnf(raw[..i + 1]) == EscapeGbnf(raw[..i]) + GbnfEscape(raw[i])
  {
    hide EscapeGbnf, GbnfEscape;
    assert raw[..i + 1] == raw[..i] + [raw[i]];
    EscapeGbnfAppend(raw[..i], [raw[i]]);
    EscapeGbnfStep(raw[i], "");
    assert [raw[i]] + "" == [raw[i]];
    EscapeGbnfNothing();
    assert GbnfEscape(raw[i]) + "" == GbnfEscape(raw[i]);
  }

  lemma EscapeGbnfNothing()
    ensures EscapeGbnf("") == ""
  {
  }

  /** Appends the escaped text to `out`. */
  method PushJsonStringFragment(out: string, raw: string) returns (r: string)
    ensures r == out + EscapeJson(raw)
  {
    r := out;
    for i := 0 to |raw|
      invariant r == out + EscapeJson(raw[..i])
    {
      hide EscapeJson, Hex4;
      EscapeJsonGrows(raw, i);
      Associative(out, EscapeJson(raw[..i]), JsonEscape(raw[i]));
      var escaped := [raw[i]];
      var e := BasicEscape(raw[i]);
      if e.Some? {
        escaped := e.value;
      } else if IsControl(raw[i]) {
        escaped := "\\u" + Hex4(raw[i] as int);
      }
      r := r + escaped;
    }
    assert raw[..|raw|] == raw;
  }

  method EscapeGbnfLiteral(raw: string) returns (r: string)
    ensures r == EscapeGbnf(raw)
  {
    r := "";
    for i := 0 to |raw|
      invariant r == EscapeGbnf(raw[..i])
    {
      hide EscapeGbnf;
      EscapeGbnfGrows(raw, i);
      var e := BasicEscape(raw[i]);
      if e.Some? {
        r := r + e.value;
      } else {
        r := r + [raw[i]];
      }
    }
    assert raw[..|raw|] == raw;
  }

  // ---- Readers ----

  function HexValue(c: char): Option<nat> {
    if '0' <= c <= '9' then Some(c as int - '0' as int)
    else if 'a' <= c <= 'f' then Some(c as int - 'a' as int + 10)
    else if 'A' <= c <= 'F' then Some(c as int - 'A' as int + 10)
    else None
  }

  /** Code unit of four hex digits, when it is a character by itself. */
  function ReadHex4(s: string): Option<char>
    requires |s| == 4
  {
    var a, b, c, d := HexValue(s[0]), HexValue(s[1]), HexValue(s[2]), HexValue(s[3]);
    if a.None? || b.None? || c.None? || d.None? then None
    else
      var n := a.value * 0x1000 + b.value * 0x100 + c.value * 0x10 + d.value;
      if n < 0xD800 || 0xE000 <= n < 0x1_0000 then Some(n as char) else None
  }

  /** The character a two-character escape stands for in a JSON string (section 7
      of RFC 8259). */
  function JsonShort(c: char): Option<char> {
    match c
    case '"' => Some('"')
    case '\\' => Some('\\')
    case '/' => Some('/')
    case 'b' => Some(8 as char)
    case 'f' => Some(12 as char)
    case 'n' => Some('\n')
    case 'r' => Some('\r')
    case 't' => Some('\t')
    case _ => None
  }

  function Prepend(c: char, rest: Option<string>): Option<string> {
    if rest.Some? then Some([c] + rest.value) else None
  }

  /** Reads the inside of a JSON string; a bare quote or a bare control character
      below U+0020 is an error. */
  function ReadJson(s: string): Option<string>
    decreases |s|
  {
    if s == "" then Some("")
    else if s[0] == '"' || (s[0] as int) < 0x20 then None
    else if s[0] != '\\' then Prepend(s[0], ReadJson(s[1..]))
    else if |s| >= 6 && s[1] == 'u' then
      match ReadHex4(s[2..6])
      case Some(c) => Prepend(c, ReadJson(s[6..]))
      case None => None
    else if |s| >= 2 then
      match JsonShort(s[1])
      case Some(c) => Prepend(c, ReadJson(s[2..]))
      case None => None
    else None
  }

  function GbnfShort(c: char): Option<char> {
    match c
    case '"' => Some('"')
    case '\\' => Some('\\')
    case 'n' => Some('\n')
    case 'r' => Some('\r')
    case 't' => Some('\t')
    case _ => None
  }

  /** Reads the inside of a GBNF literal; a bare quote ends it and is an error. */
  function ReadGbnf(s: string): Option<string>
    decreases |s|
  {
    if s == "" then Some("")
    else if s[0] == '"' then None
    else if s[0] != '\\' then Prepend(s[0], ReadGbnf(s[1..]))
    else if |s| >= 2 then
      match GbnfShort(s[1])
      case Some(c) => Prepend(c, ReadGbnf(s[2..]))
      case None => None
    else None
  }

  lemma Hex4Reads(c: char)
    requires IsControl(c)
    ensures ReadHex4(Hex4(c as int)) == Some(c)
  {
    hide HexDigit, HexValue;
    var n := c as int;
    assert n / 0x1000 == 0 && n / 0x100 == 0;
    assert n / 0x10 % 16 == n / 0x10;
    DigitReads(0);
    DigitReads(n / 0x10);
    DigitReads(n % 16);
  }

  lemma DigitReads(d: nat)
    requires d < 16
    ensures HexValue(HexDigit(d)) == Some(d)
  {
  }

  lemma ReadJsonStep(c: char, rest: string)
    ensures ReadJson(JsonEscape(c) + rest) == Prepend(c, ReadJson(rest))
  {
    hide Hex4, ReadHex4;
    var s := JsonEscape(c) + rest;
    if BasicEscape(c).None? && IsControl(c) {
      Hex4Reads(c);
      assert s[2..6] == Hex4(c as int);
      assert s[6..] == rest;
    } else if BasicEscape(c).Some? {
      assert s[2..] == rest;
    } else {
      assert s[1..] == rest;
    }
  }

  lemma ReadGbnfStep(c: char, rest: string)
    ensures ReadGbnf(GbnfEscape(c) + rest) == Prepend(c, ReadGbnf(rest))
  {
    var s := GbnfEscape(c) + rest;
    if BasicEscape(c).Some? {
      assert s[2..] == rest;
    } else {
      assert s[1..] == rest;
    }
  }

  /** For every text: reading what was escaped gives it back, so no quote in it is
      left bare. */
  lemma {:induction false} JsonRoundTrip(raw: string)
    ensures ReadJson(EscapeJson(raw)) == Some(raw)
  {
    if raw != "" {
      hide ReadJson, JsonEscape, EscapeJson;
      var c, rest := raw[0], raw[1..];
      assert raw == [c] + rest;
      JsonRoundTrip(rest);
      EscapeJsonStep(c, rest);
      ReadJsonStep(c, EscapeJson(rest));
    }
  }

  /** For every text: reading what was escaped gives it back, so no quote in it is
      left bare. */
  lemma {:induction false} GbnfRoundTrip(raw: string)
    ensures ReadGbnf(EscapeGbnf(raw)) == Some(raw)
  {
    if raw != "" {
      hide ReadGbnf, GbnfEscape, EscapeGbnf;
      var c, rest := raw[0], raw[1..];
      assert raw == [c] + rest;
      GbnfRoundTrip(rest);
      EscapeGbnfStep(c, rest);
      ReadGbnfStep(c, EscapeGbnf(rest));
    }
  }

  // ---- What escaping leaves alone ----

  /** A character neither notation needs to escape. */
  predicate Plain(c: char) {
    c != '"' && c != '\\' && c as int >= 0x20 && !(0x7f <= c as int <= 0x9f)
  }

  /** Text without quotes, backslashes and control characters is left as it is. */
  lemma {:induction false} PlainStays(raw: string)
    requires forall i :: 0 <= i < |raw| ==> Plain(raw[i])
    ensures EscapeJson(raw) == raw
  {
    if raw != "" {
      var c, rest := raw[0], raw[1..];
      assert raw == [c] + rest;
      PlainStays(rest);
      PlainChar(c);
      hide JsonEscape, EscapeJson;
      EscapeJsonStep(c, rest);
    }
  }

  lemma PlainChar(c: char)
    requires Plain(c)
    ensures JsonEscape(c) == [c]
  {
  }

  /** Without control characters (category Cc). */
  predicate Printable(s: string) {
    forall i :: 0 <= i < |s| ==> s[i] as int >= 0x20 && !(0x7f <= s[i] as int <= 0x9f)
  }

  /** No control character is left in an escaped JSON fragment. */
  lemma {:induction false} EscapedIsPrintable(raw: string)
    ensures Printable(EscapeJson(raw))
  {
    if raw != "" {
      hide JsonEscape;
      EscapedIsPrintable(raw[1..]);
      EscapeIsPrintable(raw[0]);
    }
  }

  lemma EscapeIsPrintable(c: char)
    ensures Printable(JsonEscape(c))
  {
    hide HexDigit;
    var n := c as int;
    if IsControl(c) {
      DigitIsPrintable(n / 0x1000);
      DigitIsPrintable(n / 0x100 % 16);
      DigitIsPrintable(n / 0x10 % 16);
      DigitIsPrintable(n % 16);
    }
  }

  lemma DigitIsPrintable(d: nat)
    requires d < 16
    ensures HexDigit(d) as int >= 0x20 && !(0x7f <= HexDigit(d) as int <= 0x9f)
  {
  }

  /** A GBNF literal escapes five characters and keeps all others. */
  predicate GbnfPlain(c: char) {
    c != '"' && c != '\\' && c != '\n' && c != '\r' && c != '\t'
  }

  lemma {:induction false} GbnfPlainStays(raw: string)
    requires forall i :: 0 <= i < |raw| ==> GbnfPlain(raw[i])
    ensures EscapeGbnf(raw) == raw
  {
    if raw != "" {
      var c, rest := raw[0], raw[1..];
      assert raw == [c] + rest;
      GbnfPlainStays(rest);
      assert GbnfEscape(c) == [c];
      hide GbnfEscape, EscapeGbnf;
      EscapeGbnfStep(c, rest);
    }
  }

  /** The five shared escapes take two characters in both notations; with the round
      trips that says which two. */
  lemma FiveEscapes(c: char)
    requires !GbnfPlain(c)
    ensures |EscapeJson([c])| == |EscapeGbnf([c])| == 2
  {
    assert [c][1..] == "";
  }

  /** No line break, return or tab is left in a GBNF literal. */
  lemma {:induction false} GbnfHasNoBreaks(raw: string)
    ensures '\n' !in EscapeGbnf(raw) && '\r' !in EscapeGbnf(raw) && '\t' !in EscapeGbnf(raw)
  {
    if raw != "" {
      GbnfHasNoBreaks(raw[1..]);
      NoBreak(raw[0]);
    }
  }

  lemma NoBreak(c: char)
    ensures '\n' !in GbnfEscape(c) && '\r' !in GbnfEscape(c) && '\t' !in GbnfEscape(c)
  {
  }
}
