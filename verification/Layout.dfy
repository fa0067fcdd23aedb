/**
 The layout of a printed configuration (server/opencode.go): every line is indented by two
 spaces for each bracket open around it, and no character appears that encoding/json
 escapes.
 */
module Layout {
  import opened Common
  import Jsonc
  import opened OpenCode
  import opened JsonReader

  /** Where a scan of JSON is: between tokens, in a string, or behind a backslash in one. */
  datatype Place = Between | InString | Escaped

  predicate Opens(c: char) {
    c == '[' || c == '{'
  }

  predicate Closes(c: char) {
    c == ']' || c == '}'
  }

  /** How many spaces `s` begins with. */
  function Spaces(s: string): (n: nat)
    ensures n <= |s|
  {
    if s != "" && s[0] == ' ' then 1 + Spaces(s[1..]) else 0
  }

  /** A line that begins with a bracket that closes belongs to the level outside it. */
  predicate IndentedBy(line: string, level: int) {
    var n := Spaces(line);
    n == 2 * if n < |line| && Closes(line[n]) then level - 1 else level
  }

  /** With `level` brackets open, the rest of the text is indented as it should be and closes them all. */
  predicate LaidOut(s: string, level: int, place: Place) {
    if s == "" then level == 0 && place == Between
    else
      match place
      case Escaped => LaidOut(s[1..], level, InString)
      case InString =>
        && s[0] != '\n'
        && LaidOut(s[1..], level, if s[0] == '\"' then Between else if s[0] == '\\' then Escaped else InString)
      case Between =>
        if s[0] == '\"' then LaidOut(s[1..], level, InString)
        else
          && (s[0] == '\n' ==> IndentedBy(s[1..], level))
          && LaidOut(s[1..], if Opens(s[0]) then level + 1 else if Closes(s[0]) then level - 1 else level, Between)
  }

  lemma {:induction false} PlainLays(p: string, rest: string, level: int)
    requires forall i :: 0 <= i < |p| ==> p[i] != '\"' && p[i] != '\n' && !Opens(p[i]) && !Closes(p[i])
    ensures LaidOut(p + rest, level, Between) == LaidOut(rest, level, Between)
  {
    if p == "" {
      assert p + rest == rest;
    } else {
      assert (p + rest)[1..] == p[1..] + rest;
      PlainLays(p[1..], rest, level);
    }
  }

  lemma {:induction false} InnerLays(p: string, rest: string, level: int)
    requires forall i :: 0 <= i < |p| ==> p[i] != '\"' && p[i] != '\\' && p[i] != '\n'
    ensures LaidOut(p + rest, level, InString) == LaidOut(rest, level, InString)
  {
    if p == "" {
      assert p + rest == rest;
    } else {
      assert (p + rest)[1..] == p[1..] + rest;
      InnerLays(p[1..], rest, level);
    }
  }

  lemma EscapeLays(e: string, rest: string, level: int)
    requires |e| >= 2 && e[0] == '\\'
    requires forall i :: 2 <= i < |e| ==> e[i] != '\"' && e[i] != '\\' && e[i] != '\n'
    ensures LaidOut(e + rest, level, InString) == LaidOut(rest, level, InString)
  {
    assert (e + rest)[1..][1..] == e[2..] + rest;
    assert LaidOut(e + rest, level, InString) == LaidOut((e + rest)[1..], level, Escaped);
    InnerLays(e[2..], rest, level);
  }

  lemma CharLays(c: char, rest: string, level: int)
    ensures LaidOut(EscapeChar(c) + rest, level, InString) == LaidOut(rest, level, InString)
  {
    if |EscapeChar(c)| == 1 {
      InnerLays(EscapeChar(c), rest, level);
    } else {
      EscapeTail(c);
      EscapeLays(EscapeChar(c), rest, level);
    }
  }

  lemma {:induction false} EscapedLays(s: string, rest: string, level: int)
    ensures LaidOut(Escape(s) + rest, level, InString) == LaidOut(rest, level, InString)
  {
    if s == "" {
      assert Escape(s) + rest == rest;
    } else {
      EscapedLays(s[1..], rest, level);
      CharLays(s[0], Escape(s[1..]) + rest, level);
      Jsonc.Reassociate(EscapeChar(s[0]), Escape(s[1..]), rest);
    }
  }

  lemma QuoteLays(s: string, rest: string, level: int)
    ensures LaidOut(Quote(s) + rest, level, Between) == LaidOut(rest, level, Between)
  {
    var t := Escape(s) + ("\"" + rest);
    BetweenQuotes(Escape(s), rest);
    assert ("\"" + t)[1..] == t;
    EscapedLays(s, "\"" + rest, level);
    assert ("\"" + rest)[1..] == rest;
  }

  lemma {:induction false} SpacesOf(pad: string, rest: string)
    requires forall i :: 0 <= i < |pad| ==> pad[i] == ' '
    requires rest == "" || rest[0] != ' '
    ensures Spaces(pad + rest) == |pad|
  {
    if pad == "" {
      assert pad + rest == rest;
    } else {
      assert (pad + rest)[1..] == pad[1..] + rest;
      SpacesOf(pad[1..], rest);
    }
  }

  lemma NewLineLays(depth: nat, rest: string, level: int)
    requires rest != "" && rest[0] != ' ' && level == depth + One(Closes(rest[0]))
    ensures LaidOut(NewLine(depth) + rest, level, Between) == LaidOut(rest, level, Between)
  {
    var line := NewLine(depth);
    var pad := line[1..];
    assert (line + rest)[1..] == pad + rest;
    SpacesOf(pad, rest);
    assert (pad + rest)[|pad|] == rest[0];
    PlainLays(pad, rest, level);
  }

  /** `p` is laid out with `level` brackets open, and leaves as many open. */
  ghost predicate Lays(p: string, level: int) {
    forall rest :: LaidOut(p + rest, level, Between) == LaidOut(rest, level, Between)
  }

  lemma LaysConcat(a: string, b: string, level: int)
    requires Lays(a, level) && Lays(b, level)
    ensures Lays(a + b, level)
  {
    forall rest ensures LaidOut((a + b) + rest, level, Between) == LaidOut(rest, level, Between) {
      assert (a + b) + rest == a + (b + rest);
      assert LaidOut(a + (b + rest), level, Between) == LaidOut(b + rest, level, Between);
    }
  }

  lemma NoBracketsLay(p: string, level: int)
    requires forall i :: 0 <= i < |p| ==> p[i] != '\"' && p[i] != '\n' && !Opens(p[i]) && !Closes(p[i])
    ensures Lays(p, level)
  {
    forall rest ensures LaidOut(p + rest, level, Between) == LaidOut(rest, level, Between) {
      PlainLays(p, rest, level);
    }
  }

  lemma TextLays(text: string, level: int)
    ensures Lays(Quote(text), level)
  {
    forall rest ensures LaidOut(Quote(text) + rest, level, Between) == LaidOut(rest, level, Between) {
      QuoteLays(text, rest, level);
    }
  }

  /** A line of its own. */
  lemma LineLays(depth: nat, p: string)
    requires Lays(p, depth) && p != "" && p[0] != ' ' && !Closes(p[0])
    ensures Lays(NewLine(depth) + p, depth)
  {
    forall rest ensures LaidOut((NewLine(depth) + p) + rest, depth, Between) == LaidOut(rest, depth, Between) {
      assert (NewLine(depth) + p) + rest == NewLine(depth) + (p + rest);
      NewLineLays(depth, p + rest, depth);
    }
  }

  lemma OpeningLays(open: char, rest: string, level: int)
    requires Opens(open)
    ensures LaidOut([open] + rest, level, Between) == LaidOut(rest, level + 1, Between)
  {
    assert ([open] + rest)[1..] == rest;
  }

  lemma ClosingLays(depth: nat, close: char, rest: string)
    requires Closes(close)
    ensures LaidOut(NewLine(depth) + ([close] + rest), depth + 1, Between) == LaidOut(rest, depth, Between)
  {
    NewLineLays(depth, [close] + rest, depth + 1);
    assert ([close] + rest)[1..] == rest;
  }

  lemma EnclosedLays(open: char, body: string, depth: nat, close: char)
    requires Opens(open) && Closes(close) && Lays(body, depth + 1)
    ensures Lays([open] + body + NewLine(depth) + [close], depth)
  {
    var p := [open] + body + NewLine(depth) + [close];
    forall rest ensures LaidOut(p + rest, depth, Between) == LaidOut(rest, depth, Between) {
      var end := NewLine(depth) + ([close] + rest);
      AroundBody([open], body, NewLine(depth), [close], rest);
      OpeningLays(open, body + end, depth);
      assert LaidOut(body + end, depth + 1, Between) == LaidOut(end, depth + 1, Between);
      ClosingLays(depth, close, rest);
    }
  }

  lemma EmptyLays(level: int)
    ensures Lays("[]", level) && Lays("{}", level)
  {
    forall rest ensures LaidOut("[]" + rest, level, Between) == LaidOut(rest, level, Between) {
      assert "[]" + rest == ['['] + ("]" + rest) && ("]" + rest)[1..] == rest;
      OpeningLays('[', "]" + rest, level);
    }
    forall rest ensures LaidOut("{}" + rest, level, Between) == LaidOut(rest, level, Between) {
      assert "{}" + rest == ['{'] + ("}" + rest) && ("}" + rest)[1..] == rest;
      OpeningLays('{', "}" + rest, level);
    }
  }

  /** A printed value is indented by its depth and leaves the level as it was. */
  lemma {:induction false} ValueLays(v: Json, depth: nat)
    ensures Lays(Print(v, depth), depth)
    decreases v, 0
  {
    match v
    case JString(text) => TextLays(text, depth);
    case JNumber(n) => NoBracketsLay(Number(n), depth);
    case JArray(items) =>
      EmptyLays(depth);
      ItemsLay(items, depth + 1);
      EnclosedLays('[', PrintItems(items, depth + 1), depth, ']');
    case JObject(fields) =>
      EmptyLays(depth);
      FieldsLay(fields, depth + 1);
      EnclosedLays('{', PrintFields(fields, depth + 1), depth, '}');
  }

  lemma {:induction false} ItemsLay(items: Items, depth: nat)
    ensures Lays(PrintItems(items, depth), depth)
    decreases items, 1
  {
    match items
    case NoItem => NoBracketsLay("", depth);
    case Item(head, more) =>
      var comma := if more == NoItem then "" else ",";
      ValueLays(head, depth);
      PrintBegins(head, depth);
      LineLays(depth, Print(head, depth));
      NoBracketsLay(comma, depth);
      ItemsLay(more, depth);
      LaysConcat(NewLine(depth) + Print(head, depth), comma, depth);
      LaysConcat(NewLine(depth) + Print(head, depth) + comma, PrintItems(more, depth), depth);
  }

  lemma {:induction false} FieldsLay(fields: Fields, depth: nat)
    ensures Lays(PrintFields(fields, depth), depth)
    decreases fields, 1
  {
    match fields
    case NoField => NoBracketsLay("", depth);
    case Field(key, value, more) =>
      var comma := if more == NoField then "" else ",";
      var line := NewLine(depth) + Quote(key);
      TextLays(key, depth);
      LineLays(depth, Quote(key));
      NoBracketsLay(": ", depth);
      ValueLays(value, depth);
      NoBracketsLay(comma, depth);
      FieldsLay(more, depth);
      LaysConcat(line, ": ", depth);
      LaysConcat(line + ": ", Print(value, depth), depth);
      LaysConcat(line + ": " + Print(value, depth), comma, depth);
      LaysConcat(line + ": " + Print(value, depth) + comma, PrintFields(more, depth), depth);
  }

  /**
   In every printed text each line is indented by two spaces for every bracket open around
   it, and all brackets are closed at the end.
   */
  lemma PrintIsLaidOut(v: Json)
    ensures LaidOut(Print(v, 0), 0, Between)
  {
    ValueLays(v, 0);
    assert Print(v, 0) + "" == Print(v, 0);
    assert LaidOut(Print(v, 0) + "", 0, Between) == LaidOut("", 0, Between);
  }

  // -------------------------------------------------------------------------
  // Characters
  // -------------------------------------------------------------------------

  /** No control character but the newline, nothing HTML reads, and neither Unicode line separator. */
  predicate IsSafe(c: char) {
    c == '\n' || (c >= ' ' && c != '<' && c != '>' && c != '&' && c != '\U{2028}' && c != '\U{2029}')
  }

  predicate Safe(s: string) {
    forall i :: 0 <= i < |s| ==> IsSafe(s[i])
  }

  lemma SafeJoin(a: string, b: string)
    requires Safe(a) && Safe(b)
    ensures Safe(a + b)
  {
  }

  lemma UnicodeIsSafe(code: nat)
    requires code < 0x1_0000
    ensures Safe(UnicodeEscape(code)) && '\n' !in UnicodeEscape(code)
  {
    DigitIsSafe(code / 0x1000);
    DigitIsSafe(code / 0x100 % 16);
    DigitIsSafe(code / 16 % 16);
    DigitIsSafe(code % 16);
  }

  lemma DigitIsSafe(n: nat)
    requires n < 16
    ensures '0' <= HexDigit(n) <= '9' || 'a' <= HexDigit(n) <= 'f'
  {
  }

  lemma CharIsSafe(c: char)
    ensures Safe(EscapeChar(c)) && '\n' !in EscapeChar(c)
  {
    if |EscapeChar(c)| == 6 {
      UnicodeIsSafe(c as nat);
    }
  }

  /** No string breaks its line. */
  lemma {:induction false} EscapeIsSafe(s: string)
    ensures Safe(Escape(s)) && '\n' !in Escape(s)
  {
    if s != "" {
      EscapeIsSafe(s[1..]);
      CharIsSafe(s[0]);
      SafeJoin(EscapeChar(s[0]), Escape(s[1..]));
    }
  }

  lemma QuoteIsSafe(s: string)
    ensures Safe(Quote(s))
  {
    EscapeIsSafe(s);
    SafeJoin("\"" + Escape(s), "\"");
  }

  lemma SafeAround(open: string, body: string, line: string, close: string)
    requires Safe(open) && Safe(body) && Safe(line) && Safe(close)
    ensures Safe(open + body + line + close)
  {
  }

  /** Printed text has no character that encoding/json escapes, whatever the strings in it contain. */
  lemma {:induction false} PrintIsSafe(v: Json, depth: nat)
    ensures Safe(Print(v, depth))
    decreases v, 0
  {
    match v
    case JString(text) => QuoteIsSafe(text);
    case JNumber(n) =>
    case JArray(items) =>
      ItemsAreSafe(items, depth + 1);
      SafeAround("[", PrintItems(items, depth + 1), NewLine(depth), "]");
    case JObject(fields) =>
      FieldsAreSafe(fields, depth + 1);
      SafeAround("{", PrintFields(fields, depth + 1), NewLine(depth), "}");
  }

  lemma {:induction false} ItemsAreSafe(items: Items, depth: nat)
    ensures Safe(PrintItems(items, depth))
    decreases items, 1
  {
    if items.Item? {
      PrintIsSafe(items.head, depth);
      ItemsAreSafe(items.more, depth);
    }
  }

  lemma {:induction false} FieldsAreSafe(fields: Fields, depth: nat)
    ensures Safe(PrintFields(fields, depth))
    decreases fields, 1
  {
    if fields.Field? {
      QuoteIsSafe(fields.key);
      PrintIsSafe(fields.value, depth);
      FieldsAreSafe(fields.rest, depth);
    }
  }
}
