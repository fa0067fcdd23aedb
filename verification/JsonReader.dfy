/**
 Reading a printed configuration (server/opencode.go) back: a parser for the part of JSON
 that module OpenCode prints, after the grammar of RFC 8259 sections 2 to 7, and what it finds
 in a generated configuration. Numbers are integers; nothing else in the text is fixed by
 the parser: white space may stand between any two tokens.
 */
module JsonReader {
  import opened Common
  import Jsonc
  import opened OpenCode

  /** A value and the text behind it. */
  datatype Read<+T> = Read(value: T, rest: string)

  predicate IsBlank(c: char) {
    c == ' ' || c == '\t' || c == '\n' || c == '\r'
  }

  function SkipBlanks(s: string): (t: string)
    ensures |t| <= |s| && (t == "" || !IsBlank(t[0]))
  {
    if s != "" && IsBlank(s[0]) then SkipBlanks(s[1..]) else s
  }

  /** The text behind the token `c`, which may have blanks in front. */
  function Behind(s: string, c: char): (r: Option<string>)
    ensures r.Some? ==> |r.value| < |s|
  {
    var t := SkipBlanks(s);
    if t != "" && t[0] == c then Some(t[1..]) else None
  }

  // -------------------------------------------------------------------------
  // Strings and numbers
  // -------------------------------------------------------------------------

  /** The position of the quotation mark that ends a string literal's contents. */
  function StringEnd(s: string): (r: Option<nat>)
    ensures r.Some? ==> r.value < |s|
  {
    if s == "" then None
    else if s[0] == '\"' then Some(0)
    else
      var n := if s[0] == '\\' then 2 else 1;
      if |s| < n then None
      else
        match StringEnd(s[n..])
        case None => None
        case Some(k) => Some(n + k)
  }

  /** A string literal behind its opening quotation mark. */
  function ReadString(s: string): (r: Option<Read<string>>)
    ensures r.Some? ==> |r.value.rest| < |s|
  {
    match StringEnd(s)
    case None => None
    case Some(n) =>
      match Unescape(s[..n])
      case None => None
      case Some(text) => Some(Read(text, s[n + 1..]))
  }

  predicate IsDigit(c: char) {
    '0' <= c <= '9'
  }

  /** How many digits `s` begins with. */
  function DigitCount(s: string): (n: nat)
    ensures n <= |s| && forall i :: 0 <= i < n ==> IsDigit(s[i])
  {
    if s != "" && IsDigit(s[0]) then 1 + DigitCount(s[1..]) else 0
  }

  function DigitValue(c: char): nat
    requires IsDigit(c)
  {
    (c as int) - ('0' as int)
  }

  function NumberOf(digits: string): nat
    requires forall i :: 0 <= i < |digits| ==> IsDigit(digits[i])
  {
    if digits == "" then 0
    else NumberOf(digits[..|digits| - 1]) * 10 + DigitValue(digits[|digits| - 1])
  }

  /** Digits without a leading zero, unless zero is all there is. */
  function ReadNat(s: string): (r: Option<Read<int>>)
    ensures r.Some? ==> |r.value.rest| < |s|
  {
    var n := DigitCount(s);
    if n == 0 || (n > 1 && s[0] == '0') then None else Some(Read(NumberOf(s[..n]), s[n..]))
  }

  function ReadInt(s: string): (r: Option<Read<int>>)
    ensures r.Some? ==> |r.value.rest| < |s|
  {
    if s != "" && s[0] == '-' then
      match ReadNat(s[1..])
      case None => None
      case Some(Read(n, rest)) => Some(Read(-n, rest))
    else ReadNat(s)
  }

  // -------------------------------------------------------------------------
  // Values
  // -------------------------------------------------------------------------

  function ReadValue(s: string): (r: Option<Read<Json>>)
    ensures r.Some? ==> |r.value.rest| < |s|
    decreases |s|, 1
  {
    ValueAt(SkipBlanks(s))
  }

  function ValueAt(s: string): (r: Option<Read<Json>>)
    ensures r.Some? ==> |r.value.rest| < |s|
    decreases |s|, 0
  {
    if s == "" then None
    else if s[0] == '\"' then
      match ReadString(s[1..])
      case None => None
      case Some(Read(text, rest)) => Some(Read(JString(text), rest))
    else if s[0] == '[' then
      if Behind(s[1..], ']').Some? then Some(Read(JArray(NoItem), Behind(s[1..], ']').value))
      else
        (match ReadItems(s[1..])
         case None => None
         case Some(Read(items, rest)) => Some(Read(JArray(items), rest)))
    else if s[0] == '{' then
      if Behind(s[1..], '}').Some? then Some(Read(JObject(NoField), Behind(s[1..], '}').value))
      else
        (match ReadFields(s[1..])
         case None => None
         case Some(Read(fields, rest)) => Some(Read(JObject(fields), rest)))
    else
      match ReadInt(s)
      case None => None
      case Some(Read(n, rest)) => Some(Read(JNumber(n), rest))
  }

  /** One or more values with commas between them, and the closing bracket. */
  function ReadItems(s: string): (r: Option<Read<Items>>)
    ensures r.Some? ==> |r.value.rest| < |s|
    decreases |s|, 2
  {
    match ReadValue(s)
    case None => None
    case Some(Read(head, t)) =>
      if Behind(t, ']').Some? then Some(Read(Item(head, NoItem), Behind(t, ']').value))
      else if Behind(t, ',').Some? then
        (match ReadItems(Behind(t, ',').value)
         case None => None
         case Some(Read(more, rest)) => Some(Read(Item(head, more), rest)))
      else None
  }

  /** A key and its colon. */
  function ReadKey(s: string): (r: Option<Read<string>>)
    ensures r.Some? ==> |r.value.rest| < |s|
  {
    match Behind(s, '\"')
    case None => None
    case Some(t) =>
      match ReadString(t)
      case None => None
      case Some(Read(key, u)) =>
        match Behind(u, ':')
        case None => None
        case Some(rest) => Some(Read(key, rest))
  }

  function ReadFields(s: string): (r: Option<Read<Fields>>)
    ensures r.Some? ==> |r.value.rest| < |s|
    decreases |s|, 2
  {
    match ReadKey(s)
    case None => None
    case Some(Read(key, t)) =>
      match ReadValue(t)
      case None => None
      case Some(Read(value, u)) =>
        if Behind(u, '}').Some? then Some(Read(Field(key, value, NoField), Behind(u, '}').value))
        else if Behind(u, ',').Some? then
          (match ReadFields(Behind(u, ',').value)
           case None => None
           case Some(Read(more, rest)) => Some(Read(Field(key, value, more), rest)))
        else None
  }

  /** The value that is the whole text, but for blanks around it. */
  function Parse(s: string): Option<Json> {
    match ReadValue(s)
    case None => None
    case Some(Read(v, rest)) => if SkipBlanks(rest) == "" then Some(v) else None
  }

  // -------------------------------------------------------------------------
  // What was printed is read back
  // -------------------------------------------------------------------------

  lemma {:induction false} PlainStringEnd(p: string, rest: string)
    requires forall i :: 0 <= i < |p| ==> p[i] != '\"' && p[i] != '\\'
    ensures StringEnd(p + rest)
         == match StringEnd(rest) { case None => None case Some(k) => Some(|p| + k) }
  {
    if p == "" {
      assert p + rest == rest;
    } else {
      assert (p + rest)[1..] == p[1..] + rest;
      PlainStringEnd(p[1..], rest);
    }
  }

  lemma EscapeTail(c: char)
    requires |EscapeChar(c)| != 1
    ensures |EscapeChar(c)| >= 2 && EscapeChar(c)[0] == '\\'
    ensures forall i :: 2 <= i < |EscapeChar(c)| ==> EscapeChar(c)[i] != '\"' && EscapeChar(c)[i] != '\\'
  {
    if |EscapeChar(c)| == 6 {
      HexDigitValue(c as nat / 0x1000);
      HexDigitValue(c as nat / 0x100 % 16);
      HexDigitValue(c as nat / 16 % 16);
      HexDigitValue(c as nat % 16);
    }
  }

  lemma CharStringEnd(c: char, rest: string)
    ensures StringEnd(EscapeChar(c) + rest)
         == match StringEnd(rest) { case None => None case Some(k) => Some(|EscapeChar(c)| + k) }
  {
    var e := EscapeChar(c);
    if |e| == 1 {
      PlainStringEnd(e, rest);
    } else {
      EscapeTail(c);
      assert (e + rest)[2..] == e[2..] + rest;
      PlainStringEnd(e[2..], rest);
    }
  }

  lemma {:induction false} EscapedStringEnd(s: string, rest: string)
    ensures StringEnd(Escape(s) + ("\"" + rest)) == Some(|Escape(s)|)
  {
    if s == "" {
      assert Escape(s) + ("\"" + rest) == "\"" + rest;
    } else {
      EscapedStringEnd(s[1..], rest);
      CharStringEnd(s[0], Escape(s[1..]) + ("\"" + rest));
      Jsonc.Reassociate(EscapeChar(s[0]), Escape(s[1..]), "\"" + rest);
    }
  }

  lemma ContentsRead(e: string, rest: string, text: string)
    requires StringEnd(e + ("\"" + rest)) == Some(|e|) && Unescape(e) == Some(text)
    ensures ReadString(e + ("\"" + rest)) == Some(Read(text, rest))
  {
    var t := e + ("\"" + rest);
    assert t[..|e|] == e && t[|e| + 1..] == rest;
  }

  lemma StringReads(s: string, rest: string)
    ensures Quote(s) + rest == "\"" + (Escape(s) + ("\"" + rest))
    ensures ReadString(Escape(s) + ("\"" + rest)) == Some(Read(s, rest))
  {
    BetweenQuotes(Escape(s), rest);
    EscapedStringEnd(s, rest);
    EscapeRoundTrip(s);
    ContentsRead(Escape(s), rest, s);
  }

  lemma {:induction false} AllDigits(d: string, rest: string)
    requires forall i :: 0 <= i < |d| ==> IsDigit(d[i])
    requires rest == "" || !IsDigit(rest[0])
    ensures DigitCount(d + rest) == |d|
  {
    if d == "" {
      assert d + rest == rest;
    } else {
      assert (d + rest)[1..] == d[1..] + rest;
      AllDigits(d[1..], rest);
    }
  }

  lemma {:induction false} DigitsRoundTrip(n: nat)
    ensures NumberOf(Digits(n)) == n
    ensures |Digits(n)| == 1 || Digits(n)[0] != '0'
    ensures n > 0 ==> Digits(n)[0] != '0'
  {
    var last := ['0' + (n % 10) as char];
    if n < 10 {
      assert Digits(n)[..0] == "";
    } else {
      DigitsRoundTrip(n / 10);
      assert Digits(n)[..|Digits(n)| - 1] == Digits(n / 10);
    }
  }

  lemma NatReads(n: nat, rest: string)
    requires rest == "" || !IsDigit(rest[0])
    ensures ReadNat(Digits(n) + rest) == Some(Read(n, rest))
  {
    var t := Digits(n) + rest;
    AllDigits(Digits(n), rest);
    DigitsRoundTrip(n);
    assert t[..|Digits(n)|] == Digits(n) && t[|Digits(n)|..] == rest;
  }

  lemma MinusReads(s: string, n: nat, rest: string)
    requires ReadNat(s) == Some(Read(n, rest))
    ensures ReadInt("-" + s) == Some(Read(0 - n, rest))
  {
    assert ("-" + s)[1..] == s;
  }

  lemma PlainNumberReads(s: string, n: nat, rest: string)
    requires ReadNat(s) == Some(Read(n, rest))
    ensures ReadInt(s) == Some(Read(n, rest))
  {
  }

  lemma NegativePrints(n: int, rest: string)
    requires n < 0
    ensures Number(n) + rest == "-" + (Digits(-n) + rest)
  {
  }

  lemma IntReads(n: int, rest: string)
    requires rest == "" || !IsDigit(rest[0])
    ensures ReadInt(Number(n) + rest) == Some(Read(n, rest))
  {
    if n < 0 {
      NatReads(-n, rest);
      MinusReads(Digits(-n) + rest, -n, rest);
      NegativePrints(n, rest);
    } else {
      NatReads(n, rest);
      PlainNumberReads(Digits(n) + rest, n, rest);
    }
  }

  lemma IntIsValue(s: string, n: int, rest: string)
    requires ReadInt(s) == Some(Read(n, rest))
    ensures ReadValue(s) == Some(Read(JNumber(n), rest))
  {
    NothingToSkip(s);
  }

  lemma NumberReads(n: int, rest: string)
    requires rest == "" || !IsDigit(rest[0])
    ensures ReadValue(Number(n) + rest) == Some(Read(JNumber(n), rest))
  {
    IntReads(n, rest);
    IntIsValue(Number(n) + rest, n, rest);
  }

  lemma NothingToSkip(s: string)
    requires s != "" && !IsBlank(s[0])
    ensures SkipBlanks(s) == s
  {
  }

  lemma {:induction false} IndentIsBlank(depth: nat, rest: string)
    ensures SkipBlanks(NewLine(depth) + rest) == SkipBlanks(rest)
  {
    if depth == 0 {
      assert ("\n" + rest)[1..] == rest;
    } else {
      IndentIsBlank(depth - 1, "  " + rest);
      assert NewLine(depth) + rest == NewLine(depth - 1) + ("  " + rest);
      assert ("  " + rest)[1..] == " " + rest && (" " + rest)[1..] == rest;
    }
  }

  /** The closing bracket on a line of its own. */
  function Closing(depth: nat, close: char, rest: string): string {
    NewLine(depth) + ([close] + rest)
  }

  lemma ClosingIsFound(depth: nat, close: char, rest: string)
    requires close == ']' || close == '}'
    ensures Behind(Closing(depth, close, rest), close) == Some(rest)
    ensures Closing(depth, close, rest)[0] == '\n'
  {
    IndentIsBlank(depth, [close] + rest);
    assert ([close] + rest)[1..] == rest;
  }

  lemma CommaIsFound(s: string)
    ensures Behind("," + s, ',') == Some(s) && Behind("," + s, ']') == None && Behind("," + s, '}') == None
  {
    assert ("," + s)[1..] == s;
  }

  /** Where a value begins, there is no bracket that closes and no blank. */
  lemma PrintBegins(v: Json, depth: nat)
    ensures Print(v, depth) != "" && !IsBlank(Print(v, depth)[0])
    ensures Print(v, depth)[0] != ']' && Print(v, depth)[0] != '}'
  {
    match v
    case JNumber(n) => assert Number(n)[0] == '-' || IsDigit(Number(n)[0]);
    case _ =>
  }

  lemma AroundBody(open: string, body: string, line: string, close: string, rest: string)
    ensures open + body + line + close + rest == open + (body + (line + (close + rest)))
  {
  }

  lemma ArrayPrints(items: Items, depth: nat, rest: string)
    requires items != NoItem
    ensures Print(JArray(items), depth) + rest == "[" + (PrintItems(items, depth + 1) + Closing(depth, ']', rest))
  {
    AroundBody("[", PrintItems(items, depth + 1), NewLine(depth), "]", rest);
  }

  lemma ObjectPrints(fields: Fields, depth: nat, rest: string)
    requires fields != NoField
    ensures Print(JObject(fields), depth) + rest == "{" + (PrintFields(fields, depth + 1) + Closing(depth, '}', rest))
  {
    AroundBody("{", PrintFields(fields, depth + 1), NewLine(depth), "}", rest);
  }

  lemma AroundItem(line: string, value: string, comma: string, more: string, rest: string)
    ensures line + value + comma + more + rest == line + (value + (comma + (more + rest)))
  {
  }

  lemma AroundField(line: string, key: string, colon: string, value: string, comma: string, more: string, rest: string)
    ensures line + key + colon + value + comma + more + rest
         == line + (key + (colon + (value + (comma + (more + rest)))))
  {
  }

  lemma TextReads(text: string, rest: string)
    ensures ReadValue(Quote(text) + rest) == Some(Read(JString(text), rest))
  {
    var t := Quote(text) + rest;
    StringReads(text, rest);
    assert t[0] == '\"' && t[1..] == Escape(text) + ("\"" + rest);
    NothingToSkip(t);
  }

  lemma BracketReads(t: string, items: Items, rest: string)
    requires Behind(t, ']') == None && ReadItems(t) == Some(Read(items, rest))
    ensures ReadValue("[" + t) == Some(Read(JArray(items), rest))
  {
    assert ("[" + t)[1..] == t;
    NothingToSkip("[" + t);
  }

  lemma BraceReads(t: string, fields: Fields, rest: string)
    requires Behind(t, '}') == None && ReadFields(t) == Some(Read(fields, rest))
    ensures ReadValue("{" + t) == Some(Read(JObject(fields), rest))
  {
    assert ("{" + t)[1..] == t;
    NothingToSkip("{" + t);
  }

  lemma ArrayReads(items: Items, depth: nat, rest: string)
    requires items != NoItem
    requires var t := PrintItems(items, depth + 1) + Closing(depth, ']', rest);
      Behind(t, ']') == None && ReadItems(t) == Some(Read(items, rest))
    ensures ReadValue(Print(JArray(items), depth) + rest) == Some(Read(JArray(items), rest))
  {
    ArrayPrints(items, depth, rest);
    BracketReads(PrintItems(items, depth + 1) + Closing(depth, ']', rest), items, rest);
  }

  lemma ObjectReads(fields: Fields, depth: nat, rest: string)
    requires fields != NoField
    requires var t := PrintFields(fields, depth + 1) + Closing(depth, '}', rest);
      Behind(t, '}') == None && ReadFields(t) == Some(Read(fields, rest))
    ensures ReadValue(Print(JObject(fields), depth) + rest) == Some(Read(JObject(fields), rest))
  {
    ObjectPrints(fields, depth, rest);
    BraceReads(PrintFields(fields, depth + 1) + Closing(depth, '}', rest), fields, rest);
  }

  lemma EmptyReads(rest: string)
    ensures ReadValue("[]" + rest) == Some(Read(JArray(NoItem), rest))
    ensures ReadValue("{}" + rest) == Some(Read(JObject(NoField), rest))
  {
    assert ("[]" + rest)[1..] == "]" + rest && ("]" + rest)[1..] == rest;
    assert ("{}" + rest)[1..] == "}" + rest && ("}" + rest)[1..] == rest;
    NothingToSkip("[]" + rest);
    NothingToSkip("{}" + rest);
    NothingToSkip("]" + rest);
    NothingToSkip("}" + rest);
  }

  /** A printed value is read back whole, and the reader stops right behind it. */
  lemma {:induction false} ValueReads(v: Json, depth: nat, rest: string)
    requires rest == "" || !IsDigit(rest[0])
    ensures ReadValue(Print(v, depth) + rest) == Some(Read(v, rest))
    decreases v, 0
  {
    match v
    case JString(text) => TextReads(text, rest);
    case JNumber(n) => NumberReads(n, rest);
    case JArray(items) =>
      if items == NoItem {
        EmptyReads(rest);
      } else {
        ItemsRead(items, depth + 1, depth, rest);
        ArrayReads(items, depth, rest);
      }
    case JObject(fields) =>
      if fields == NoField {
        EmptyReads(rest);
      } else {
        FieldsRead(fields, depth + 1, depth, rest);
        ObjectReads(fields, depth, rest);
      }
  }

  lemma {:induction false} ItemsRead(items: Items, depth: nat, out: nat, rest: string)
    requires items != NoItem
    ensures var t := PrintItems(items, depth) + Closing(out, ']', rest);
      Behind(t, ']') == None && ReadItems(t) == Some(Read(items, rest))
    decreases items, 1
  {
    var Item(head, more) := items;
    var end := Closing(out, ']', rest);
    var comma := if more == NoItem then "" else ",";
    var t := PrintItems(items, depth) + end;
    var tail := comma + (PrintItems(more, depth) + end);
    AroundItem(NewLine(depth), Print(head, depth), comma, PrintItems(more, depth), end);
    IndentIsBlank(depth, Print(head, depth) + tail);
    PrintBegins(head, depth);
    ClosingIsFound(out, ']', rest);
    if more == NoItem {
      assert tail == end;
    } else {
      CommaIsFound(PrintItems(more, depth) + end);
      ItemsRead(more, depth, out, rest);
    }
    ValueReads(head, depth, tail);
    assert ReadValue(t) == ReadValue(Print(head, depth) + tail);
  }

  lemma KeyReads(depth: nat, key: string, rest: string)
    ensures var t := NewLine(depth) + (Quote(key) + (": " + rest));
      ReadKey(t) == Some(Read(key, " " + rest)) && Behind(t, '}') == None
  {
    var s := Quote(key) + (": " + rest);
    IndentIsBlank(depth, s);
    assert s[0] == '\"';
    NothingToSkip(s);
    StringReads(key, ": " + rest);
    assert s[1..] == Escape(key) + ("\"" + (": " + rest));
    ColonIsFound(rest);
  }

  lemma ColonIsFound(rest: string)
    ensures Behind(": " + rest, ':') == Some(" " + rest)
  {
    NothingToSkip(": " + rest);
    assert (": " + rest)[1..] == " " + rest;
  }

  lemma BlankInFront(s: string)
    ensures ReadValue(" " + s) == ReadValue(s)
  {
    assert (" " + s)[1..] == s;
  }

  lemma {:induction false} FieldsRead(fields: Fields, depth: nat, out: nat, rest: string)
    requires fields != NoField
    ensures var t := PrintFields(fields, depth) + Closing(out, '}', rest);
      Behind(t, '}') == None && ReadFields(t) == Some(Read(fields, rest))
    decreases fields, 1
  {
    var Field(key, value, more) := fields;
    var end := Closing(out, '}', rest);
    var comma := if more == NoField then "" else ",";
    var tail := comma + (PrintFields(more, depth) + end);
    AroundField(NewLine(depth), Quote(key), ": ", Print(value, depth), comma, PrintFields(more, depth), end);
    KeyReads(depth, key, Print(value, depth) + tail);
    ClosingIsFound(out, '}', rest);
    if more == NoField {
      assert tail == end;
    } else {
      CommaIsFound(PrintFields(more, depth) + end);
      FieldsRead(more, depth, out, rest);
    }
    BlankInFront(Print(value, depth) + tail);
    ValueReads(value, depth, tail);
  }

  /** Every value is recovered from its printed text, at any depth of indentation. */
  lemma PrintRoundTrip(v: Json, depth: nat)
    ensures Parse(Print(v, depth)) == Some(v)
  {
    assert Print(v, depth) + "" == Print(v, depth);
    ValueReads(v, depth, "");
  }

  // -------------------------------------------------------------------------
  // What is found in a generated configuration
  // -------------------------------------------------------------------------

  /** The first field called `key`, which is the one a decoder finds when no key repeats. */
  function Lookup(fields: Fields, key: string): Option<Json> {
    match fields
    case NoField => None
    case Field(k, v, rest) => if k == key then Some(v) else Lookup(rest, key)
  }

  function Keys(fields: Fields): seq<string> {
    match fields
    case NoField => []
    case Field(k, _, rest) => [k] + Keys(rest)
  }

  /** The value inside `v` at the end of a path of keys. */
  function At(v: Json, path: seq<string>): Option<Json>
    decreases |path|
  {
    if path == [] then Some(v)
    else if !v.JObject? then None
    else
      match Lookup(v.fields, path[0])
      case None => None
      case Some(w) => At(w, path[1..])
  }

  /** What a reader of the text finds at the end of a path. */
  function Found(text: string, path: seq<string>): Option<Json> {
    match Parse(Reduced(text))
    case None => None
    case Some(v) => At(v, path)
  }

  function FoundKeys(text: string, path: seq<string>): Option<seq<string>> {
    match Found(text, path)
    case Some(JObject(fields)) => Some(Keys(fields))
    case _ => None
  }

  function Generated(baseUrl: string, entries: seq<ModelEntry>): string {
    WithHeader(Print(ConfigJson(baseUrl, entries), 0))
  }

  lemma {:induction false} AtSplits(v: Json, path: seq<string>, more: seq<string>)
    ensures At(v, path + more) == match At(v, path) { case None => None case Some(w) => At(w, more) }
    decreases |path|
  {
    if path == [] {
      assert path + more == more;
    } else if v.JObject? && Lookup(v.fields, path[0]).Some? {
      assert (path + more)[1..] == path[1..] + more;
      AtSplits(Lookup(v.fields, path[0]).value, path[1..], more);
    }
  }

  lemma AtOne(v: Json, key: string)
    requires v.JObject?
    ensures At(v, [key]) == Lookup(v.fields, key)
  {
  }

  /** The configuration as it was built is what a reader of the generated text gets. */
  lemma GeneratedReadsBack(baseUrl: string, entries: seq<ModelEntry>)
    ensures Parse(Reduced(Generated(baseUrl, entries))) == Some(ConfigJson(baseUrl, entries))
  {
    GenerateThenReduce(baseUrl, entries);
    PrintRoundTrip(ConfigJson(baseUrl, entries), 0);
  }

  /** The first field of an object, and what it leaves to the others. */
  lemma FirstField(fields: Fields, key: string)
    requires fields.Field?
    ensures Keys(fields) == [fields.key] + Keys(fields.rest)
    ensures Lookup(fields, key) == if key == fields.key then Some(fields.value) else Lookup(fields.rest, key)
  {
  }

  lemma TwoFields(f: Fields)
    requires f.Field? && f.rest.Field? && f.rest.rest == NoField && f.key != f.rest.key
    ensures Keys(f) == [f.key, f.rest.key]
    ensures Lookup(f, f.key) == Some(f.value) && Lookup(f, f.rest.key) == Some(f.rest.value)
  {
    FirstField(f, f.rest.key);
    FirstField(f.rest, f.rest.key);
  }

  lemma ThreeFields(f: Fields)
    requires f.Field? && f.rest.Field? && f.rest.rest.Field? && f.rest.rest.rest == NoField
    requires Distinct([f.key, f.rest.key, f.rest.rest.key])
    ensures Keys(f) == [f.key, f.rest.key, f.rest.rest.key]
    ensures Lookup(f, f.key) == Some(f.value) && Lookup(f, f.rest.key) == Some(f.rest.value)
    ensures Lookup(f, f.rest.rest.key) == Some(f.rest.rest.value)
  {
    var ks := [f.key, f.rest.key, f.rest.rest.key];
    assert ks[0] != ks[1] && ks[0] != ks[2] && ks[1] != ks[2];
    TwoFields(f.rest);
    FirstField(f, f.rest.key);
    FirstField(f, f.rest.rest.key);
  }

  lemma ConfigFields(baseUrl: string, entries: seq<ModelEntry>)
    ensures var f := ConfigJson(baseUrl, entries).fields;
      && Keys(f) == ["$schema", "enabled_providers", "provider"]
      && Lookup(f, "$schema") == Some(JString("https://opencode.ai/config.json"))
      && Lookup(f, "enabled_providers") == Some(JArray(Item(JString("llm-bridge"), NoItem)))
      && Lookup(f, "provider")
         == Some(JObject(Field("llm-bridge", ProviderJson(baseUrl, entries), NoField)))
  {
    var f := ConfigJson(baseUrl, entries).fields;
    assert |f.key| == 7 && |f.rest.key| == 17 && |f.rest.rest.key| == 8;
    ThreeFields(f);
  }

  lemma ProviderFields(baseUrl: string, entries: seq<ModelEntry>)
    ensures var f := ProviderJson(baseUrl, entries).fields;
      && Keys(f) == ["api", "name", "options", "models"]
      && Lookup(f, "api") == Some(JString("openai"))
      && Lookup(f, "name") == Some(JString("llm-bridge"))
      && Lookup(f, "options") == Some(OptionsJson(baseUrl))
      && Lookup(f, "models") == Some(JObject(ModelFields(entries)))
  {
    var f := ProviderJson(baseUrl, entries).fields;
    assert f.key[0] == 'a' && f.rest.key[0] == 'n' && f.rest.rest.key[0] == 'o' && f.rest.rest.rest.key[0] == 'm';
    ThreeFields(f.rest);
    FirstField(f, "name");
    FirstField(f, "options");
    FirstField(f, "models");
  }

  lemma OptionsFields(baseUrl: string)
    ensures var f := OptionsJson(baseUrl).fields;
      && Keys(f) == ["baseURL", "apiKey"]
      && Lookup(f, "baseURL") == Some(JString(baseUrl))
      && Lookup(f, "apiKey") == Some(JString("sk-llm-bridge"))
  {
    var f := OptionsJson(baseUrl).fields;
    assert |f.key| == 7 && |f.rest.key| == 6;
    TwoFields(f);
  }

  lemma LimitFields(e: ModelEntry)
    ensures var f := LimitJson(e).fields;
      && Keys(f) == ["context", "input", "output"]
      && Lookup(f, "context") == Some(JNumber(e.context))
      && Lookup(f, "input") == Some(JNumber(e.input))
      && Lookup(f, "output") == Some(JNumber(e.output))
  {
    var f := LimitJson(e).fields;
    assert |f.key| == 7 && |f.rest.key| == 5 && |f.rest.rest.key| == 6;
    ThreeFields(f);
  }

  lemma EntryFields(e: ModelEntry)
    ensures var f := EntryJson(e).fields;
      && Keys(f) == ["id", "limit"]
      && Lookup(f, "id") == Some(JString(e.id))
      && Lookup(f, "limit") == Some(LimitJson(e))
  {
    var f := EntryJson(e).fields;
    assert |f.key| == 2 && |f.rest.key| == 5;
    TwoFields(f);
  }

  /** Every entry is found under its model's name: the first, should a name repeat. */
  lemma {:induction false} EntryIsFound(entries: seq<ModelEntry>, k: nat)
    requires k < |entries| && forall j :: 0 <= j < k ==> entries[j].id != entries[k].id
    ensures Lookup(ModelFields(entries), entries[k].id) == Some(EntryJson(entries[k]))
  {
    if k > 0 {
      assert entries[0].id != entries[k].id;
      EntryIsFound(entries[1..], k - 1);
    }
  }

  function Names(entries: seq<ModelEntry>): (names: seq<string>)
    ensures |names| == |entries| && forall k :: 0 <= k < |names| ==> names[k] == entries[k].id
  {
    seq(|entries|, k requires 0 <= k < |entries| => entries[k].id)
  }

  lemma {:induction false} ModelKeys(entries: seq<ModelEntry>)
    ensures Keys(ModelFields(entries)) == Names(entries)
  {
    if entries != [] {
      ModelKeys(entries[1..]);
    }
  }

  // -------------------------------------------------------------------------
  // The same of the generated text
  // -------------------------------------------------------------------------

  /** One key further along a path. */
  lemma FoundInside(baseUrl: string, entries: seq<ModelEntry>, path: seq<string>, key: string, longer: seq<string>,
                    w: Json)
    requires w.JObject? && Found(Generated(baseUrl, entries), path) == Some(w) && longer == path + [key]
    ensures Found(Generated(baseUrl, entries), longer) == Lookup(w.fields, key)
    ensures FoundKeys(Generated(baseUrl, entries), path) == Some(Keys(w.fields))
  {
    GeneratedReadsBack(baseUrl, entries);
    AtSplits(ConfigJson(baseUrl, entries), path, [key]);
    AtOne(w, key);
  }

  /** A reader of the generated text finds the schema, and one provider, which alone is enabled. */
  lemma OnlyBridgeIsEnabled(baseUrl: string, entries: seq<ModelEntry>)
    ensures var text := Generated(baseUrl, entries);
      && FoundKeys(text, []) == Some(["$schema", "enabled_providers", "provider"])
      && Found(text, ["$schema"]) == Some(JString("https://opencode.ai/config.json"))
      && Found(text, ["enabled_providers"]) == Some(JArray(Item(JString("llm-bridge"), NoItem)))
      && FoundKeys(text, ["provider"]) == Some(["llm-bridge"])
      && Found(text, BRIDGE) == Some(ProviderJson(baseUrl, entries))
  {
    var v := ConfigJson(baseUrl, entries);
    var only := Field("llm-bridge", ProviderJson(baseUrl, entries), NoField);
    GeneratedReadsBack(baseUrl, entries);
    ConfigFields(baseUrl, entries);
    FoundInside(baseUrl, entries, [], "$schema", ["$schema"], v);
    FoundInside(baseUrl, entries, [], "enabled_providers", ["enabled_providers"], v);
    FoundInside(baseUrl, entries, [], "provider", ["provider"], v);
    FirstField(only, "llm-bridge");
    assert Keys(only) == ["llm-bridge"];
    FoundInside(baseUrl, entries, ["provider"], "llm-bridge", BRIDGE, JObject(only));
  }

  const BRIDGE := ["provider", "llm-bridge"]

  /** How the provider is reached. */
  lemma ProviderIsReachable(baseUrl: string, entries: seq<ModelEntry>)
    ensures var text := Generated(baseUrl, entries);
      && FoundKeys(text, BRIDGE) == Some(["api", "name", "options", "models"])
      && Found(text, BRIDGE + ["api"]) == Some(JString("openai"))
      && Found(text, BRIDGE + ["name"]) == Some(JString("llm-bridge"))
      && FoundKeys(text, BRIDGE + ["options"]) == Some(["baseURL", "apiKey"])
      && Found(text, BRIDGE + ["options", "baseURL"]) == Some(JString(baseUrl))
      && Found(text, BRIDGE + ["options", "apiKey"]) == Some(JString("sk-llm-bridge"))
  {
    var b := ProviderJson(baseUrl, entries);
    OnlyBridgeIsEnabled(baseUrl, entries);
    ProviderFields(baseUrl, entries);
    FoundInside(baseUrl, entries, BRIDGE, "api", BRIDGE + ["api"], b);
    FoundInside(baseUrl, entries, BRIDGE, "name", BRIDGE + ["name"], b);
    FoundInside(baseUrl, entries, BRIDGE, "options", BRIDGE + ["options"], b);
    OptionsFields(baseUrl);
    var o := OptionsJson(baseUrl);
    FoundInside(baseUrl, entries, BRIDGE + ["options"], "baseURL", BRIDGE + ["options", "baseURL"], o);
    FoundInside(baseUrl, entries, BRIDGE + ["options"], "apiKey", BRIDGE + ["options", "apiKey"], o);
  }

  /** The path of a model's entry. */
  function ModelPath(id: string): seq<string> {
    BRIDGE + ["models", id]
  }

  lemma ModelIsFound(baseUrl: string, entries: seq<ModelEntry>, k: nat)
    requires k < |entries| && forall j :: 0 <= j < k ==> entries[j].id != entries[k].id
    ensures Found(Generated(baseUrl, entries), ModelPath(entries[k].id)) == Some(EntryJson(entries[k]))
  {
    var id := entries[k].id;
    ModelsAreNamed(baseUrl, entries);
    FoundInside(baseUrl, entries, BRIDGE + ["models"], id, ModelPath(id), JObject(ModelFields(entries)));
    EntryIsFound(entries, k);
  }

  /** The models are listed by name, in the given order. */
  lemma ModelsAreNamed(baseUrl: string, entries: seq<ModelEntry>)
    ensures Found(Generated(baseUrl, entries), BRIDGE + ["models"]) == Some(JObject(ModelFields(entries)))
    ensures FoundKeys(Generated(baseUrl, entries), BRIDGE + ["models"])
         == Some(Names(entries))
  {
    OnlyBridgeIsEnabled(baseUrl, entries);
    ProviderFields(baseUrl, entries);
    FoundInside(baseUrl, entries, BRIDGE, "models", BRIDGE + ["models"], ProviderJson(baseUrl, entries));
    ModelKeys(entries);
  }

  /** Every model is found under its name, with its own three limits. */
  lemma ModelIsListed(baseUrl: string, entries: seq<ModelEntry>, k: nat)
    requires k < |entries| && forall j :: 0 <= j < k ==> entries[j].id != entries[k].id
    ensures var text, e := Generated(baseUrl, entries), entries[k];
      && FoundKeys(text, ModelPath(e.id)) == Some(["id", "limit"])
      && Found(text, ModelPath(e.id) + ["id"]) == Some(JString(e.id))
      && FoundKeys(text, ModelPath(e.id) + ["limit"]) == Some(["context", "input", "output"])
      && Found(text, ModelPath(e.id) + ["limit", "context"]) == Some(JNumber(e.context))
      && Found(text, ModelPath(e.id) + ["limit", "input"]) == Some(JNumber(e.input))
      && Found(text, ModelPath(e.id) + ["limit", "output"]) == Some(JNumber(e.output))
  {
    var e := entries[k];
    var p := ModelPath(e.id);
    ModelIsFound(baseUrl, entries, k);
    EntryFields(e);
    FoundInside(baseUrl, entries, p, "id", p + ["id"], EntryJson(e));
    FoundInside(baseUrl, entries, p, "limit", p + ["limit"], EntryJson(e));
    LimitFields(e);
    FoundInside(baseUrl, entries, p + ["limit"], "context", p + ["limit", "context"], LimitJson(e));
    FoundInside(baseUrl, entries, p + ["limit"], "input", p + ["limit", "input"], LimitJson(e));
    FoundInside(baseUrl, entries, p + ["limit"], "output", p + ["limit", "output"], LimitJson(e));
  }
}
