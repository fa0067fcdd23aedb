/**
 Generating an OpenCode configuration and reading it back (server/opencode.go): the JSON
 printed with two-space indentation under a comment header, and the trim, strip, trim
 that a posted configuration goes through before it is decoded. Strings are written as
 RFC 8259 section 7 prescribes, with the escapes Go's encoding/json chooses.
 */
module OpenCode {
  import opened Common
  import opened Jsonc

  // -------------------------------------------------------------------------
  // JSON strings
  // -------------------------------------------------------------------------

  function HexDigit(n: nat): char
    requires n < 16
  {
    "0123456789abcdef"[n]
  }

  function UnicodeEscape(code: nat): string
    requires code < 0x1_0000
  {
    ['\\', 'u', HexDigit(code / 0x1000), HexDigit(code / 0x100 % 16), HexDigit(code / 16 % 16), HexDigit(code % 16)]
  }

  function EscapeChar(c: char): (e: string)
    ensures e != ""
  {
    if c == '\"' then "\\\""
    else if c == '\\' then "\\\\"
    else if c == '\U{0008}' then "\\b"
    else if c == '\U{000C}' then "\\f"
    else if c == '\n' then "\\n"
    else if c == '\r' then "\\r"
    else if c == '\t' then "\\t"
    else if c < ' ' || c == '<' || c == '>' || c == '&' || c == '\U{2028}' || c == '\U{2029}'
    then UnicodeEscape(c as nat)
    else [c]
  }

  function Escape(s: string): string {
    if s == "" then "" else EscapeChar(s[0]) + Escape(s[1..])
  }

  function Quote(s: string): string {
    "\"" + Escape(s) + "\""
  }

  /** The digit a hexadecimal character stands for. */
  function HexValue(c: char): Option<nat> {
    if '0' <= c <= '9' then Some((c as int) - ('0' as int))
    else if 'a' <= c <= 'f' then Some((c as int) - ('a' as int) + 10)
    else if 'A' <= c <= 'F' then Some((c as int) - ('A' as int) + 10)
    else None
  }

  function HexNumber(a: char, b: char, c: char, d: char): Option<nat> {
    match (HexValue(a), HexValue(b), HexValue(c), HexValue(d))
    case (Some(w), Some(x), Some(y), Some(z)) => Some(((w * 16 + x) * 16 + y) * 16 + z)
    case _ => None
  }

  /** The contents of a string literal, decoded; surrogate halves are not decoded here. */
  function Unescape(t: string): Option<string> {
    if t == "" then Some("")
    else if t[0] != '\\' then
      if t[0] == '\"' || t[0] < ' ' then None else Prepend(t[0], Unescape(t[1..]))
    else if |t| < 2 then None
    else
      match t[1]
      case '\"' => Prepend('\"', Unescape(t[2..]))
      case '\\' => Prepend('\\', Unescape(t[2..]))
      case '/' => Prepend('/', Unescape(t[2..]))
      case 'b' => Prepend('\U{0008}', Unescape(t[2..]))
      case 'f' => Prepend('\U{000C}', Unescape(t[2..]))
      case 'n' => Prepend('\n', Unescape(t[2..]))
      case 'r' => Prepend('\r', Unescape(t[2..]))
      case 't' => Prepend('\t', Unescape(t[2..]))
      case 'u' =>
        if |t| < 6 then None
        else
          (match HexNumber(t[2], t[3], t[4], t[5])
           case None => None
           case Some(code) =>
             if 0xD800 <= code < 0xE000 || code >= 0x1_0000 then None
             else Prepend(code as char, Unescape(t[6..])))
      case _ => None
  }

  function Prepend(c: char, s: Option<string>): Option<string> {
    match s
    case None => None
    case Some(r) => Some([c] + r)
  }

  lemma HexDigitValue(n: nat)
    requires n < 16
    ensures HexValue(HexDigit(n)) == Some(n)
    ensures HexDigit(n) !in {'\"', '\\', '\n', '/'}
  {
  }

  lemma FourDigits(code: nat)
    requires code < 0x1_0000
    ensures ((code / 0x1000 * 16 + code / 0x100 % 16) * 16 + code / 16 % 16) * 16 + code % 16 == code
  {
    var a, b := code / 16, code / 0x100;
    assert b == a / 16 && code / 0x1000 == b / 16;
    assert code == a * 16 + code % 16;
    assert a == b * 16 + a % 16;
    assert b == b / 16 * 16 + b % 16;
  }

  lemma HexRoundTrip(code: nat)
    requires code < 0x1_0000
    ensures HexNumber(HexDigit(code / 0x1000), HexDigit(code / 0x100 % 16),
                      HexDigit(code / 16 % 16), HexDigit(code % 16))
         == Some(code)
  {
    var w, x, y, z := code / 0x1000, code / 0x100 % 16, code / 16 % 16, code % 16;
    HexDigitValue(w);
    HexDigitValue(x);
    HexDigitValue(y);
    HexDigitValue(z);
    FourDigits(code);
  }

  lemma UnicodeRoundTrip(c: char, rest: string)
    requires c as int < 0xD800
    ensures Unescape(UnicodeEscape(c as nat) + rest) == Prepend(c, Unescape(rest))
  {
    var code := c as nat;
    var t := UnicodeEscape(code) + rest;
    assert t[6..] == rest;
    HexRoundTrip(code);
  }

  lemma CharRoundTrip(c: char, rest: string)
    ensures Unescape(EscapeChar(c) + rest) == Prepend(c, Unescape(rest))
  {
    if |EscapeChar(c)| == 6 {
      UnicodeRoundTrip(c, rest);
    } else if |EscapeChar(c)| == 2 {
      ShortRoundTrip(c, rest);
    } else {
      assert ([c] + rest)[1..] == rest;
    }
  }

  lemma ShortRoundTrip(c: char, rest: string)
    requires |EscapeChar(c)| == 2
    ensures Unescape(EscapeChar(c) + rest) == Prepend(c, Unescape(rest))
  {
    var t := EscapeChar(c) + rest;
    assert t[2..] == rest && t[0] == '\\' && t[1] == EscapeChar(c)[1];
  }

  /** Decoding what was escaped gives the string back, whatever it contains. */
  lemma {:induction false} EscapeRoundTrip(s: string)
    ensures Unescape(Escape(s)) == Some(s)
  {
    if s != "" {
      EscapeRoundTrip(s[1..]);
      CharRoundTrip(s[0], Escape(s[1..]));
      assert [s[0]] + s[1..] == s;
    }
  }

  // -------------------------------------------------------------------------
  // Printed JSON
  // -------------------------------------------------------------------------

  datatype Json =
    | JString(text: string)
    | JNumber(n: int)
    | JArray(items: Items)
    | JObject(fields: Fields)

  datatype Items = NoItem | Item(head: Json, more: Items)

  datatype Fields = NoField | Field(key: string, value: Json, rest: Fields)

  function Digits(n: nat): (d: string)
    ensures d != "" && forall i :: 0 <= i < |d| ==> '0' <= d[i] <= '9'
  {
    var last := ['0' + (n % 10) as char];
    if n < 10 then last else Digits(n / 10) + last
  }

  function Number(n: int): string {
    if n < 0 then "-" + Digits(-n) else Digits(n)
  }

  /** A newline and `depth` levels of two spaces. */
  function NewLine(depth: nat): (s: string)
    ensures |s| == 1 + 2 * depth && s[0] == '\n' && forall i :: 0 < i < |s| ==> s[i] == ' '
  {
    if depth == 0 then "\n" else NewLine(depth - 1) + "  "
  }

  /** `json.MarshalIndent` with no prefix and an indentation of two spaces. */
  function Print(v: Json, depth: nat): string {
    match v
    case JString(text) => Quote(text)
    case JNumber(n) => Number(n)
    case JArray(items) =>
      if items == NoItem then "[]" else "[" + PrintItems(items, depth + 1) + NewLine(depth) + "]"
    case JObject(fields) =>
      if fields == NoField then "{}" else "{" + PrintFields(fields, depth + 1) + NewLine(depth) + "}"
  }

  function PrintItems(items: Items, depth: nat): string {
    match items
    case NoItem => ""
    case Item(head, more) =>
      NewLine(depth) + Print(head, depth) + (if more == NoItem then "" else ",") + PrintItems(more, depth)
  }

  function PrintFields(fields: Fields, depth: nat): string {
    match fields
    case NoField => ""
    case Field(key, value, rest) =>
      NewLine(depth) + Quote(key) + ": " + Print(value, depth) + (if rest == NoField then "" else ",")
      + PrintFields(rest, depth)
  }

  // -------------------------------------------------------------------------
  // The scanner leaves printed JSON alone
  // -------------------------------------------------------------------------

  /** Met in code, `p` is kept whole and the scanner is in code again after it. */
  ghost predicate Transparent(p: string) {
    forall rest :: PerLine(p + rest, Code) == p + PerLine(rest, Code)
  }

  lemma TransparentConcat(a: string, b: string)
    requires Transparent(a) && Transparent(b)
    ensures Transparent(a + b)
  {
    forall rest ensures PerLine((a + b) + rest, Code) == (a + b) + PerLine(rest, Code) {
      assert (a + b) + rest == a + (b + rest);
      assert PerLine(a + (b + rest), Code) == a + PerLine(b + rest, Code);
      assert PerLine(b + rest, Code) == b + PerLine(rest, Code);
    }
  }

  predicate Plain(p: string) {
    forall i :: 0 <= i < |p| ==> p[i] != '\"' && p[i] != '/'
  }

  lemma {:induction false} PlainIsKept(p: string, rest: string)
    requires Plain(p)
    ensures PerLine(p + rest, Code) == p + PerLine(rest, Code)
  {
    if p == "" {
      assert p + rest == rest;
    } else {
      assert (p + rest)[1..] == p[1..] + rest;
      PlainIsKept(p[1..], rest);
    }
  }

  lemma PlainIsTransparent(p: string)
    requires Plain(p)
    ensures Transparent(p)
  {
    forall rest ensures PerLine(p + rest, Code) == p + PerLine(rest, Code) {
      PlainIsKept(p, rest);
    }
  }

  lemma EscapedCharIsKept(c: char, rest: string)
    ensures PerLine(EscapeChar(c) + rest, Quoted) == EscapeChar(c) + PerLine(rest, Quoted)
  {
    var e := EscapeChar(c);
    if |e| == 6 {
      UnicodeIsKept(c as nat, rest);
    } else if |e| == 2 {
      assert e == "\\" + [e[1]];
    } else {
      QuotedPlain([c], rest);
    }
  }

  lemma UnicodeIsKept(code: nat, rest: string)
    requires code < 0x1_0000
    ensures PerLine(UnicodeEscape(code) + rest, Quoted) == UnicodeEscape(code) + PerLine(rest, Quoted)
  {
    var e := UnicodeEscape(code);
    var digits := e[2..];
    HexDigitValue(code / 0x1000);
    HexDigitValue(code / 0x100 % 16);
    HexDigitValue(code / 16 % 16);
    HexDigitValue(code % 16);
    assert e == "\\" + ['u'] + digits;
    assert e + rest == "\\" + ['u'] + (digits + rest);
    QuotedPlain(digits, rest);
    Jsonc.Reassociate("\\" + ['u'], digits, PerLine(rest, Quoted));
  }

  lemma {:induction false} QuotedPlain(p: string, rest: string)
    requires forall i :: 0 <= i < |p| ==> p[i] != '\"' && p[i] != '\\' && p[i] != '\n'
    ensures PerLine(p + rest, Quoted) == p + PerLine(rest, Quoted)
  {
    if p == "" {
      assert p + rest == rest;
    } else {
      assert (p + rest)[1..] == p[1..] + rest;
      QuotedPlain(p[1..], rest);
    }
  }

  lemma {:induction false} EscapedIsKept(s: string, rest: string)
    ensures PerLine(Escape(s) + rest, Quoted) == Escape(s) + PerLine(rest, Quoted)
  {
    if s == "" {
      assert Escape(s) + rest == rest;
    } else {
      var e, more := EscapeChar(s[0]), Escape(s[1..]);
      EscapedIsKept(s[1..], rest);
      EscapedCharIsKept(s[0], more + rest);
      Jsonc.Reassociate(e, more, rest);
      Jsonc.Reassociate(e, more, PerLine(rest, Quoted));
    }
  }

  lemma BetweenQuotes(e: string, rest: string)
    ensures ("\"" + e + "\"") + rest == "\"" + (e + ("\"" + rest))
  {
  }

  lemma QuoteIsKept(s: string, rest: string)
    ensures PerLine(Quote(s) + rest, Code) == Quote(s) + PerLine(rest, Code)
  {
    BetweenQuotes(Escape(s), rest);
    EscapedIsKept(s, "\"" + rest);
    BetweenQuotes(Escape(s), PerLine(rest, Code));
  }

  lemma QuoteIsTransparent(s: string)
    ensures Transparent(Quote(s))
  {
    forall rest ensures PerLine(Quote(s) + rest, Code) == Quote(s) + PerLine(rest, Code) {
      QuoteIsKept(s, rest);
    }
  }

  lemma {:induction false} PrintIsTransparent(v: Json, depth: nat)
    ensures Transparent(Print(v, depth))
  {
    match v
    case JString(text) => QuoteIsTransparent(text);
    case JNumber(n) => PlainIsTransparent(Number(n));
    case JArray(items) =>
      if items == NoItem {
        PlainIsTransparent("[]");
      } else {
        ItemsAreTransparent(items, depth + 1);
        Enclosed("[", PrintItems(items, depth + 1), NewLine(depth), "]");
      }
    case JObject(fields) =>
      if fields == NoField {
        PlainIsTransparent("{}");
      } else {
        FieldsAreTransparent(fields, depth + 1);
        Enclosed("{", PrintFields(fields, depth + 1), NewLine(depth), "}");
      }
  }

  lemma Enclosed(open: string, body: string, line: string, close: string)
    requires Plain(open) && Transparent(body) && Plain(line) && Plain(close)
    ensures Transparent(open + body + line + close)
  {
    PlainIsTransparent(open);
    PlainIsTransparent(line);
    PlainIsTransparent(close);
    TransparentConcat(open, body);
    TransparentConcat(open + body, line);
    TransparentConcat(open + body + line, close);
  }

  lemma {:induction false} ItemsAreTransparent(items: Items, depth: nat)
    ensures Transparent(PrintItems(items, depth))
  {
    match items
    case NoItem => PlainIsTransparent("");
    case Item(head, more) =>
      var comma := if more == NoItem then "" else ",";
      PrintIsTransparent(head, depth);
      ItemsAreTransparent(more, depth);
      PlainIsTransparent(NewLine(depth));
      PlainIsTransparent(comma);
      TransparentConcat(NewLine(depth), Print(head, depth));
      TransparentConcat(NewLine(depth) + Print(head, depth), comma);
      TransparentConcat(NewLine(depth) + Print(head, depth) + comma, PrintItems(more, depth));
  }

  lemma {:induction false} FieldsAreTransparent(fields: Fields, depth: nat)
    ensures Transparent(PrintFields(fields, depth))
  {
    match fields
    case NoField => PlainIsTransparent("");
    case Field(key, value, rest) =>
      var comma := if rest == NoField then "" else ",";
      QuoteIsTransparent(key);
      PrintIsTransparent(value, depth);
      FieldsAreTransparent(rest, depth);
      PlainIsTransparent(NewLine(depth));
      PlainIsTransparent(": ");
      PlainIsTransparent(comma);
      var a := NewLine(depth) + Quote(key);
      TransparentConcat(NewLine(depth), Quote(key));
      TransparentConcat(a, ": ");
      TransparentConcat(a + ": ", Print(value, depth));
      TransparentConcat(a + ": " + Print(value, depth), comma);
      TransparentConcat(a + ": " + Print(value, depth) + comma, PrintFields(rest, depth));
  }

  // -------------------------------------------------------------------------
  // The generated text and the way back
  // -------------------------------------------------------------------------

  /** The three comment lines of the header, without their slashes. */
  const LINE_1 := " Auto-generated by llm-bridge"
  const LINE_2 := " Only the \"llm-bridge\" provider" + " is enabled \U{2014} all external"
    + " providers are implicitly disabled."
  const LINE_3 := " Set \"baseURL\" below to match" + " your llm-bridge address if different."

  function CommentLine(text: string, rest: string): string {
    "//" + text + "\n" + rest
  }

  function WithHeader(raw: string): string {
    CommentLine(LINE_1, CommentLine(LINE_2, CommentLine(LINE_3, "\n" + raw)))
  }

  predicate OneLine(text: string) {
    forall i :: 0 <= i < |text| ==> text[i] != '\n'
  }

  /** White space as Unicode defines it. */
  predicate IsSpace(c: char) {
    '\t' <= c <= '\r' || c == ' ' || c == '\U{0085}' || c == '\U{00A0}' || c == '\U{1680}'
    || '\U{2000}' <= c <= '\U{200A}' || c == '\U{2028}' || c == '\U{2029}' || c == '\U{202F}' || c == '\U{205F}'
    || c == '\U{3000}'
  }

  function TrimLeft(s: string): string {
    if s != "" && IsSpace(s[0]) then TrimLeft(s[1..]) else s
  }

  function TrimEnd(s: string): string {
    if s != "" && IsSpace(s[|s| - 1]) then TrimEnd(s[..|s| - 1]) else s
  }

  function TrimSpace(s: string): string {
    TrimEnd(TrimLeft(s))
  }

  /** What a posted body is reduced to before it is decoded. */
  function Reduced(body: string): string {
    var content := TrimSpace(body);
    var stripped := if HasSlashes(content) then Strip(content) else content;
    var trimmed := TrimSpace(stripped);
    if trimmed == "" then "{}" else trimmed
  }

  method Reduce(body: string) returns (content: string)
    ensures content == Reduced(body)
    ensures Tight(content) && PerLine(content, Code) == content
  {
    ReducedIsBare(body);
    content := TrimSpace(body);
    if HasSlashes(content) {
      content := StripJsonc(content);
    }
    content := TrimSpace(content);
    if content == "" {
      content := "{}";
    }
  }

  /** Neither end of the text is white space. */
  predicate Tight(s: string) {
    s != "" && !IsSpace(s[0]) && !IsSpace(s[|s| - 1])
  }

  // -------------------------------------------------------------------------
  // What reduction leaves, whatever was posted
  // -------------------------------------------------------------------------

  /** A character in front or behind that is no part of a string or a comment. */
  predicate Outside(c: char) {
    c != '\"' && c != '\\' && c != '/'
  }

  lemma {:induction false} NoSlashesIsKept(s: string, m: Mode)
    requires !HasSlashes(s) && m != Comment
    ensures PerLine(s, m) == s
  {
    if s != "" {
      var c, rest := s[0], s[1..];
      forall i: nat | i < |rest| ensures !SlashesAt(rest, i) {
        assert !SlashesAt(s, i + 1);
      }
      assert !SlashesAt(s, 0);
      NoSlashesIsKept(rest, if c == '\n' then Code else After(c, rest, m).1);
      assert [c] + rest == s;
    }
  }

  lemma BareWithoutFirst(s: string)
    requires s != "" && Outside(s[0]) && PerLine(s, Code) == s
    ensures PerLine(s[1..], Code) == s[1..]
  {
    assert PerLine(s, Code)[1..] == PerLine(s[1..], Code);
  }

  lemma {:induction false} ScanIsNoLonger(s: string, m: Mode)
    ensures |PerLine(s, m)| <= |s|
  {
    if s != "" {
      ScanIsNoLonger(s[1..], if s[0] == '\n' then Code else After(s[0], s[1..], m).1);
    }
  }

  /** A last character is kept or, in a comment, dropped; nothing before it is read differently. */
  lemma {:induction false} LastCharacter(s: string, c: char, m: Mode)
    requires Outside(c)
    ensures PerLine(s + [c], m) == PerLine(s, m) + [c] || PerLine(s + [c], m) == PerLine(s, m)
  {
    if s == "" {
      assert s + [c] == [c] && [c][1..] == "";
    } else {
      var d, rest := s[0], s[1..];
      assert (s + [c])[1..] == rest + [c];
      if d == '\n' {
        LastCharacter(rest, c, Code);
      } else {
        assert After(d, rest + [c], m) == After(d, rest, m);
        var (keep, m') := After(d, rest, m);
        LastCharacter(rest, c, m');
        Jsonc.Reassociate(Emit(keep, d), PerLine(rest, m'), [c]);
      }
    }
  }

  lemma BareWithoutLast(s: string)
    requires s != "" && Outside(s[|s| - 1]) && PerLine(s, Code) == s
    ensures PerLine(s[..|s| - 1], Code) == s[..|s| - 1]
  {
    var init, c := s[..|s| - 1], s[|s| - 1];
    assert s == init + [c];
    var p := PerLine(init, Code);
    LastCharacter(init, c, Code);
    ScanIsNoLonger(init, Code);
    assert |p| <= |init| < |s|;
    assert s == p + [c];
    assert s[..|s| - 1] == p;
  }

  lemma {:induction false} BareTrimmedLeft(s: string)
    requires PerLine(s, Code) == s
    ensures PerLine(TrimLeft(s), Code) == TrimLeft(s)
  {
    if s != "" && IsSpace(s[0]) {
      BareWithoutFirst(s);
      BareTrimmedLeft(s[1..]);
    }
  }

  lemma {:induction false} BareTrimmedEnd(s: string)
    requires PerLine(s, Code) == s
    ensures PerLine(TrimEnd(s), Code) == TrimEnd(s)
  {
    if s != "" && IsSpace(s[|s| - 1]) {
      BareWithoutLast(s);
      BareTrimmedEnd(s[..|s| - 1]);
    }
  }

  lemma {:induction false} TrimEndKeepsFirst(s: string)
    requires s != "" && !IsSpace(s[0])
    ensures TrimEnd(s) != "" && TrimEnd(s)[0] == s[0] && !IsSpace(TrimEnd(s)[|TrimEnd(s)| - 1])
  {
    if IsSpace(s[|s| - 1]) {
      TrimEndKeepsFirst(s[..|s| - 1]);
    }
  }

  lemma {:induction false} TrimLeftFindsText(s: string)
    ensures TrimLeft(s) == "" || !IsSpace(TrimLeft(s)[0])
  {
    if s != "" && IsSpace(s[0]) {
      TrimLeftFindsText(s[1..]);
    }
  }

  lemma TrimmedIsTight(s: string)
    ensures TrimSpace(s) == "" || Tight(TrimSpace(s))
  {
    TrimLeftFindsText(s);
    if TrimLeft(s) != "" {
      TrimEndKeepsFirst(TrimLeft(s));
    }
  }

  /**
   Whatever was posted, what is decoded is not empty, has no white space at its ends, and
   has no comment left for the scanner to find.
   */
  lemma ReducedIsBare(body: string)
    ensures Tight(Reduced(body)) && PerLine(Reduced(body), Code) == Reduced(body)
  {
    var content := TrimSpace(body);
    var stripped := if HasSlashes(content) then Strip(content) else content;
    if HasSlashes(content) {
      ScanTwice(content, Code);
      TrimmedIsFixed(PerLine(content, Code));
    } else {
      NoSlashesIsKept(content, Code);
    }
    BareTrimmedLeft(stripped);
    BareTrimmedEnd(TrimLeft(stripped));
    TrimmedIsTight(stripped);
    NoSlashesIsKept("{}", Code);
  }

  /** Posting what a posted body was reduced to changes nothing more. */
  lemma ReduceTwice(body: string)
    ensures Reduced(Reduced(body)) == Reduced(body)
  {
    ReducedIsBare(body);
    TightIsTrimmed(Reduced(body));
  }

  lemma TightIsTrimmed(s: string)
    requires Tight(s)
    ensures TrimSpace(s) == s && TrimNewlines(s) == s
  {
  }

  lemma CommentLineVanishes(text: string, rest: string)
    requires OneLine(text)
    ensures PerLine(CommentLine(text, rest), Code) == "\n" + PerLine(rest, Code)
  {
    var t := CommentLine(text, rest);
    assert t[1..] == "/" + text + ("\n" + rest);
    assert t[1..][1..] == text + ("\n" + rest);
    InComment(text, rest);
    assert PerLine(t, Code) == PerLine(t[1..], Comment);
    assert PerLine(t[1..], Comment) == PerLine(t[1..][1..], Comment);
  }

  lemma {:induction false} InComment(text: string, rest: string)
    requires OneLine(text)
    ensures PerLine(text + ("\n" + rest), Comment) == "\n" + PerLine(rest, Code)
  {
    var t := text + ("\n" + rest);
    if text == "" {
      assert t == "\n" + rest && t[1..] == rest;
    } else {
      assert t[1..] == text[1..] + ("\n" + rest);
      InComment(text[1..], rest);
    }
  }

  lemma FirstLineIsOne()
    ensures OneLine(LINE_1)
  {
  }

  lemma SecondLineIsOne()
    ensures OneLine(LINE_2)
  {
  }

  lemma ThirdLineIsOne()
    ensures OneLine(LINE_3)
  {
  }

  lemma HeaderVanishes(raw: string)
    ensures PerLine(WithHeader(raw), Code) == "\n\n\n\n" + PerLine(raw, Code)
  {
    var r3 := "\n" + raw;
    var r2 := CommentLine(LINE_3, r3);
    var r1 := CommentLine(LINE_2, r2);
    FirstLineIsOne();
    SecondLineIsOne();
    ThirdLineIsOne();
    CommentLineVanishes(LINE_1, r1);
    CommentLineVanishes(LINE_2, r2);
    CommentLineVanishes(LINE_3, r3);
    assert r3[1..] == raw;
    var kept := PerLine(raw, Code);
    assert PerLine(r3, Code) == "\n" + kept;
    assert "\n" + ("\n" + ("\n" + ("\n" + kept))) == "\n\n\n\n" + kept;
  }

  lemma LeadingNewline(s: string)
    ensures TrimLeft("\n" + s) == TrimLeft(s)
  {
  }

  lemma LeadingNewlinesGo(s: string)
    requires Tight(s)
    ensures TrimSpace("\n\n\n\n" + s) == s && TrimNewlines("\n\n\n\n" + s) == "\n\n\n\n" + s
  {
    LeadingNewline(s);
    LeadingNewline("\n" + s);
    LeadingNewline("\n" + ("\n" + s));
    LeadingNewline("\n" + ("\n" + ("\n" + s)));
    var t := "\n" + ("\n" + ("\n" + ("\n" + s)));
    assert "\n\n\n\n" + s == t;
    assert TrimLeft(t) == s;
    assert t[|t| - 1] == s[|s| - 1];
  }

  lemma HeaderRoundTrip(raw: string)
    requires Tight(raw) && Transparent(raw)
    ensures Reduced(WithHeader(raw)) == raw
  {
    var body := WithHeader(raw);
    assert body[0] == '/' && body[1] == '/' && body[|body| - 1] == raw[|raw| - 1];
    TightIsTrimmed(body);
    assert SlashesAt(body, 0);
    HeaderVanishes(raw);
    assert raw + "" == raw;
    assert PerLine(raw + "", Code) == raw + PerLine("", Code);
    LeadingNewlinesGo(raw);
  }

  // -------------------------------------------------------------------------
  // The configuration
  // -------------------------------------------------------------------------

  datatype ModelEntry = ModelEntry(id: string, context: int, input: int, output: int)

  function LimitJson(e: ModelEntry): Json {
    JObject(Field("context", JNumber(e.context),
            Field("input", JNumber(e.input),
            Field("output", JNumber(e.output), NoField))))
  }

  function EntryJson(e: ModelEntry): Json {
    JObject(Field("id", JString(e.id), Field("limit", LimitJson(e), NoField)))
  }

  /** The `models` object, one field per entry in the given order. */
  function ModelFields(entries: seq<ModelEntry>): Fields {
    if entries == [] then NoField else Field(entries[0].id, EntryJson(entries[0]), ModelFields(entries[1..]))
  }

  function OptionsJson(baseUrl: string): Json {
    JObject(Field("baseURL", JString(baseUrl), Field("apiKey", JString("sk-llm-bridge"), NoField)))
  }

  function ProviderJson(baseUrl: string, entries: seq<ModelEntry>): Json {
    JObject(Field("api", JString("openai"),
            Field("name", JString("llm-bridge"),
            Field("options", OptionsJson(baseUrl),
            Field("models", JObject(ModelFields(entries)), NoField)))))
  }

  function ConfigJson(baseUrl: string, entries: seq<ModelEntry>): Json {
    JObject(Field("$schema", JString("https://opencode.ai/config.json"),
            Field("enabled_providers", JArray(Item(JString("llm-bridge"), NoItem)),
            Field("provider", JObject(Field("llm-bridge", ProviderJson(baseUrl, entries), NoField)), NoField))))
  }

  /** `generateOpenCodeConfig`: the printed configuration, and the same under the header. */
  method GenerateConfig(baseUrl: string, entries: seq<ModelEntry>) returns (raw: string, comment: string)
    ensures raw == Print(ConfigJson(baseUrl, entries), 0)
    ensures comment == WithHeader(raw)
    ensures Reduced(comment) == raw
  {
    raw := Print(ConfigJson(baseUrl, entries), 0);
    comment := WithHeader(raw);
    GenerateThenReduce(baseUrl, entries);
  }

  /**
   Posting a generated configuration back recovers exactly the printed JSON, whatever the
   model names and the base URL contain.
   */
  lemma GenerateThenReduce(baseUrl: string, entries: seq<ModelEntry>)
    ensures Reduced(WithHeader(Print(ConfigJson(baseUrl, entries), 0))) == Print(ConfigJson(baseUrl, entries), 0)
  {
    PrintIsTransparent(ConfigJson(baseUrl, entries), 0);
    HeaderRoundTrip(Print(ConfigJson(baseUrl, entries), 0));
  }
}
