/**
 Comment stripping (server/opencode.go). `stripJSONC` works line by line with a string
 flag and an escape flag that start afresh on every line. Here it is related to a lexer of
 the whole document, and shown to be idempotent.

 A text is a sequence of characters; the source compares bytes, but only with '"', '\',
 '/' and newline, whose bytes occur in UTF-8 for nothing else.
 */
module Jsonc {
  import opened Common

  datatype Mode = Code | Quoted | Escaped | Comment

  // -------------------------------------------------------------------------
  // One line
  // -------------------------------------------------------------------------

  /** What is left of a line, read from a state of the scanner on. */
  function KeepLine(line: string, m: Mode): string
    requires m != Comment
  {
    if line == "" then ""
    else
      var c, rest := line[0], line[1..];
      match m
      case Escaped => [c] + KeepLine(rest, Quoted)
      case Quoted =>
        [c] + KeepLine(rest, if c == '\\' then Escaped else if c == '\"' then Code else Quoted)
      case Code =>
        if c == '\"' then [c] + KeepLine(rest, Quoted)
        else if c == '/' && rest != "" && rest[0] == '/' then ""
        else [c] + KeepLine(rest, Code)
  }

  function ModeOf(inString: bool, escape: bool): Mode {
    if escape then Escaped else if inString then Quoted else Code
  }

  /** Where the comment starts, if the scanner reaches position `i` in state `m`. */
  function CutAt(line: string, i: nat, m: Mode): (n: nat)
    requires i <= |line| && m != Comment
    ensures i <= n <= |line|
    decreases |line| - i
  {
    if i == |line| then i
    else
      var c := line[i];
      match m
      case Escaped => CutAt(line, i + 1, Quoted)
      case Quoted => CutAt(line, i + 1, if c == '\\' then Escaped else if c == '\"' then Code else Quoted)
      case Code =>
        if c == '\"' then CutAt(line, i + 1, Quoted)
        else if c == '/' && i + 1 < |line| && line[i + 1] == '/' then i
        else CutAt(line, i + 1, Code)
  }

  lemma {:induction false} CutKeeps(line: string, i: nat, m: Mode)
    requires i <= |line| && m != Comment
    ensures KeepLine(line[i..], m) == line[i..CutAt(line, i, m)]
    decreases |line| - i
  {
    if i < |line| {
      var c := line[i];
      assert line[i..][1..] == line[i + 1..];
      var n := CutAt(line, i, m);
      if n > i {
        assert line[i..n] == [c] + line[i + 1..n];
      }
      match m
      case Escaped => CutKeeps(line, i + 1, Quoted);
      case Quoted => CutKeeps(line, i + 1, if c == '\\' then Escaped else if c == '\"' then Code else Quoted);
      case Code =>
        if c == '\"' {
          CutKeeps(line, i + 1, Quoted);
        } else if !(c == '/' && i + 1 < |line| && line[i + 1] == '/') {
          CutKeeps(line, i + 1, Code);
        }
    }
  }

  method StripLineComment(line: string) returns (kept: string)
    ensures kept == KeepLine(line, Code)
  {
    CutKeeps(line, 0, Code);
    assert line[0..] == line;
    var inString, escape := false, false;
    for i := 0 to |line|
      invariant escape ==> inString
      invariant CutAt(line, 0, Code) == CutAt(line, i, ModeOf(inString, escape))
    {
      var ch := line[i];
      if escape {
        escape := false;
      } else if ch == '\\' && inString {
        escape := true;
      } else if ch == '\"' {
        inString := !inString;
      } else if !inString && i + 1 < |line| && ch == '/' && line[i + 1] == '/' {
        return line[..i];
      }
    }
    return line;
  }

  // -------------------------------------------------------------------------
  // The document, line by line
  // -------------------------------------------------------------------------

  /** `strings.Split(data, "\n")`: never empty. */
  function Lines(data: string): (ls: seq<string>)
    ensures |ls| > 0
  {
    if data == "" then [""]
    else
      var ls := Lines(data[1..]);
      if data[0] == '\n' then [""] + ls else [[data[0]] + ls[0]] + ls[1..]
  }

  function StripLines(lines: seq<string>, n: nat): string
    requires n <= |lines|
  {
    if n == 0 then "" else StripLines(lines, n - 1) + KeepLine(lines[n - 1], Code) + "\n"
  }

  /** `strings.TrimRight(s, "\n")`. */
  function TrimNewlines(s: string): string {
    if s != "" && s[|s| - 1] == '\n' then TrimNewlines(s[..|s| - 1]) else s
  }

  lemma {:induction false} OnlyNewlinesGo(s: string) returns (n: nat)
    ensures n <= |s| && TrimNewlines(s) == s[..n]
    ensures (forall i :: n <= i < |s| ==> s[i] == '\n') && (n > 0 ==> s[n - 1] != '\n')
  {
    if s != "" && s[|s| - 1] == '\n' {
      n := OnlyNewlinesGo(s[..|s| - 1]);
      assert s[..n] == s[..|s| - 1][..n];
    } else {
      n := |s|;
    }
  }

  method SplitLines(data: string) returns (lines: seq<string>)
    ensures lines == Lines(data)
  {
    lines := [""];
    for i := |data| downto 0
      invariant lines == Lines(data[i..])
    {
      assert data[i..][1..] == data[i + 1..];
      lines := if data[i] == '\n' then [""] + lines else [[data[i]] + lines[0]] + lines[1..];
    }
    assert data[0..] == data;
  }

  method TrimRight(s: string) returns (trimmed: string)
    ensures trimmed == TrimNewlines(s)
  {
    trimmed := s;
    while trimmed != "" && trimmed[|trimmed| - 1] == '\n'
      invariant TrimNewlines(trimmed) == TrimNewlines(s)
      decreases |trimmed|
    {
      trimmed := trimmed[..|trimmed| - 1];
    }
  }

  method StripJsonc(data: string) returns (stripped: string)
    ensures stripped == TrimNewlines(PerLine(data, Code))
  {
    var lines := SplitLines(data);
    var result := "";
    for i := 0 to |lines|
      invariant result == StripLines(lines, i)
    {
      var kept := StripLineComment(lines[i]);
      result := result + kept + "\n";
    }
    LinesThenStrip(data);
    TrimmedNewline(PerLine(data, Code));
    stripped := TrimRight(result);
  }

  lemma TrimmedNewline(s: string)
    ensures TrimNewlines(s + "\n") == TrimNewlines(s)
  {
  }

  // -------------------------------------------------------------------------
  // The document, character by character
  // -------------------------------------------------------------------------

  /** What a character outside any line break does: whether it is kept, and the state after it. */
  function After(c: char, next: string, m: Mode): (bool, Mode) {
    match m
    case Comment => (false, Comment)
    case Escaped => (true, Quoted)
    case Quoted => (true, if c == '\\' then Escaped else if c == '\"' then Code else Quoted)
    case Code =>
      if c == '\"' then (true, Quoted)
      else if c == '/' && next != "" && next[0] == '/' then (false, Comment)
      else (true, Code)
  }

  /** The per-line scanner: every newline starts afresh in code. */
  function PerLine(data: string, m: Mode): string {
    if data == "" then ""
    else
      var c, rest := data[0], data[1..];
      if c == '\n' then "\n" + PerLine(rest, Code)
      else
        var (keep, m') := After(c, rest, m);
        (if keep then [c] else "") + PerLine(rest, m')
  }

  /** What a newline does to the lexer: it ends a comment and nothing else. */
  function NextLine(m: Mode): Mode {
    match m
    case Comment => Code
    case Escaped => Quoted
    case _ => m
  }

  /** The whole-document lexer. */
  function Lex(data: string, m: Mode): string {
    if data == "" then ""
    else
      var c, rest := data[0], data[1..];
      if c == '\n' then
        "\n" + Lex(rest, NextLine(m))
      else
        var (keep, m') := After(c, rest, m);
        (if keep then [c] else "") + Lex(rest, m')
  }

  /** No newline falls inside a string, as RFC 8259 section 7 requires of JSON. */
  predicate StringsStayOnLine(data: string, m: Mode) {
    data == "" ||
    if data[0] == '\n' then (m == Code || m == Comment) && StringsStayOnLine(data[1..], Code)
    else StringsStayOnLine(data[1..], After(data[0], data[1..], m).1)
  }

  /** Lines()[0] read from state `m`, then the other lines, is the per-line scan from `m`. */
  function FirstLine(line: string, m: Mode): string {
    if m == Comment then "" else KeepLine(line, m)
  }

  function StripRest(lines: seq<string>): string {
    if lines == [] then "" else "\n" + KeepLine(lines[0], Code) + StripRest(lines[1..])
  }

  lemma {:induction false} ScanByLines(data: string, m: Mode)
    ensures FirstLine(Lines(data)[0], m) + StripRest(Lines(data)[1..]) == PerLine(data, m)
  {
    if data != "" {
      var c, rest := data[0], data[1..];
      if c == '\n' {
        ScanByLines(rest, Code);
        ScanNewline(rest, m);
        assert "\n" + rest == data;
      } else {
        ScanByLines(rest, After(c, rest, m).1);
        ScanOneMore(c, rest, m);
        assert [c] + rest == data;
      }
    }
  }

  lemma ScanNewline(rest: string, m: Mode)
    requires FirstLine(Lines(rest)[0], Code) + StripRest(Lines(rest)[1..]) == PerLine(rest, Code)
    ensures FirstLine(Lines("\n" + rest)[0], m) + StripRest(Lines("\n" + rest)[1..]) == PerLine("\n" + rest, m)
  {
  }

  lemma ScanOneMore(c: char, rest: string, m: Mode)
    requires c != '\n'
    requires FirstLine(Lines(rest)[0], After(c, rest, m).1) + StripRest(Lines(rest)[1..])
          == PerLine(rest, After(c, rest, m).1)
    ensures FirstLine(Lines([c] + rest)[0], m) + StripRest(Lines([c] + rest)[1..]) == PerLine([c] + rest, m)
  {
    var line, others := Lines(rest)[0], Lines(rest)[1..];
    var keep, m' := After(c, rest, m).0, After(c, rest, m).1;
    assert After(c, line, m) == After(c, rest, m);
    FirstLineStep(c, line, m);
    Reassociate(Emit(keep, c), FirstLine(line, m'), StripRest(others));
  }

  lemma Reassociate(a: string, b: string, c: string)
    ensures (a + b) + c == a + (b + c)
  {
  }

  function Emit(keep: bool, c: char): string {
    if keep then [c] else ""
  }

  lemma FirstLineStep(c: char, line: string, m: Mode)
    ensures FirstLine([c] + line, m)
         == Emit(After(c, line, m).0, c) + FirstLine(line, After(c, line, m).1)
  {
  }

  lemma {:induction false} StripLinesIsRest(lines: seq<string>, n: nat)
    requires n < |lines|
    ensures StripLines(lines, |lines|)
         == StripLines(lines, n) + KeepLine(lines[n], Code) + StripRest(lines[n + 1..]) + "\n"
    decreases |lines| - n
  {
    if n + 1 < |lines| {
      StripLinesIsRest(lines, n + 1);
      assert lines[n + 1..][1..] == lines[n + 2..];
    }
  }

  lemma LinesThenStrip(data: string)
    ensures StripLines(Lines(data), |Lines(data)|) == PerLine(data, Code) + "\n"
  {
    var ls := Lines(data);
    ScanByLines(data, Code);
    StripLinesIsRest(ls, 0);
    assert StripLines(ls, 0) + KeepLine(ls[0], Code) == KeepLine(ls[0], Code);
  }

  /** On every line the scanner and the lexer start a comment at the same place, or both none. */
  predicate SameCuts(data: string, m: Mode, n: Mode) {
    data == "" ||
    var c, rest := data[0], data[1..];
    if c == '\n' then SameCuts(rest, Code, NextLine(n))
    else
      After(c, rest, m).0 == After(c, rest, n).0
      && SameCuts(rest, After(c, rest, m).1, After(c, rest, n).1)
  }

  lemma {:induction false} LexCommentIsInvisible(data: string)
    ensures Lex(data, Comment) == "" || Lex(data, Comment)[0] == '\n'
  {
    if data != "" && data[0] != '\n' {
      LexCommentIsInvisible(data[1..]);
    }
  }

  /** The scanner and the lexer, wherever they start, give the same text exactly when they cut alike. */
  lemma {:induction false} SameTextIffSameCuts(data: string, m: Mode, n: Mode)
    ensures PerLine(data, m) == Lex(data, n) <==> SameCuts(data, m, n)
  {
    if data != "" {
      var c, rest := data[0], data[1..];
      var (keep, m') := After(c, rest, m);
      var (keep', n') := After(c, rest, n);
      if c == '\n' {
        SameTextIffSameCuts(rest, Code, NextLine(n));
        SameAfter("\n", PerLine(rest, Code), Lex(rest, NextLine(n)));
      } else if keep == keep' {
        SameTextIffSameCuts(rest, m', n');
        SameAfter(Emit(keep, c), PerLine(rest, m'), Lex(rest, n'));
      } else if keep {
        LexCommentIsInvisible(rest);
        assert Lex(data, n) == Lex(rest, n');
      } else {
        CommentIsInvisible(rest);
        assert PerLine(data, m) == PerLine(rest, m');
      }
    }
  }

  lemma SameAfter(p: string, s: string, t: string)
    ensures p + s == p + t <==> s == t
  {
    assert (p + s)[|p|..] == s && (p + t)[|p|..] == t;
  }

  lemma {:induction false} OnOneLineSameCuts(data: string, m: Mode)
    requires StringsStayOnLine(data, m)
    ensures SameCuts(data, m, m)
  {
    if data != "" {
      OnOneLineSameCuts(data[1..], if data[0] == '\n' then Code else After(data[0], data[1..], m).1);
    }
  }

  // -------------------------------------------------------------------------
  // Where the two cut, line by line
  // -------------------------------------------------------------------------

  /** The lexer's state at the end of a line that it enters in state `n`. */
  function EndOf(line: string, n: Mode): Mode {
    if line == "" then n else EndOf(line[1..], After(line[0], line[1..], n).1)
  }

  /** The lexer's state at the start of line `i`, the first line being entered in state `n`. */
  function EntryMode(lines: seq<string>, n: Mode, i: nat): Mode
    requires i < |lines|
  {
    if i == 0 then n else EntryMode(lines[1..], NextLine(EndOf(lines[0], n)), i - 1)
  }

  /**
   A line that the lexer enters inside a string has its comment, if any, at the same place
   whether it is read from inside a string or from outside.
   */
  predicate CutAlike(lines: seq<string>, n: Mode) {
    forall i :: 0 <= i < |lines| && EntryMode(lines, n, i) == Quoted ==>
      CutAt(lines[i], 0, Code) == CutAt(lines[i], 0, Quoted)
  }

  predicate KeepsAlike(line: string, m: Mode, n: Mode) {
    line == "" ||
    var c, rest := line[0], line[1..];
    After(c, rest, m).0 == After(c, rest, n).0 && KeepsAlike(rest, After(c, rest, m).1, After(c, rest, n).1)
  }

  predicate RestAlike(lines: seq<string>, n: Mode) {
    lines == [] || (KeepsAlike(lines[0], Code, n) && RestAlike(lines[1..], NextLine(EndOf(lines[0], n))))
  }

  lemma {:induction false} SameCutsByLines(data: string, m: Mode, n: Mode)
    ensures SameCuts(data, m, n)
            <==> KeepsAlike(Lines(data)[0], m, n) && RestAlike(Lines(data)[1..], NextLine(EndOf(Lines(data)[0], n)))
  {
    if data != "" {
      var c, rest := data[0], data[1..];
      if c == '\n' {
        SameCutsByLines(rest, Code, NextLine(n));
        assert Lines(data)[1..] == Lines(rest);
      } else {
        SameCutsByLines(rest, After(c, rest, m).1, After(c, rest, n).1);
        assert [c] + rest == data;
        LineStep(c, rest, m, n);
      }
    }
  }

  /** One more character in front changes the reading of the first line only. */
  lemma LineStep(c: char, rest: string, m: Mode, n: Mode)
    ensures var line := Lines(rest)[0];
      && (KeepsAlike([c] + line, m, n)
          <==> After(c, rest, m).0 == After(c, rest, n).0 && KeepsAlike(line, After(c, rest, m).1, After(c, rest, n).1))
      && EndOf([c] + line, n) == EndOf(line, After(c, rest, n).1)
  {
    var line := Lines(rest)[0];
    assert ([c] + line)[1..] == line;
    assert After(c, line, m) == After(c, rest, m) && After(c, line, n) == After(c, rest, n);
  }

  lemma {:induction false} SelfAlike(line: string, m: Mode)
    ensures KeepsAlike(line, m, m)
  {
    if line != "" {
      SelfAlike(line[1..], After(line[0], line[1..], m).1);
    }
  }

  /** Two readings of a line keep the same characters exactly when they cut it at the same place. */
  lemma {:induction false} AlikeIffSameCut(line: string, i: nat, m: Mode, n: Mode)
    requires i <= |line| && m != Comment && n != Comment
    ensures KeepsAlike(line[i..], m, n) <==> CutAt(line, i, m) == CutAt(line, i, n)
    decreases |line| - i
  {
    if i < |line| {
      var c, rest := line[i], line[i + 1..];
      assert line[i..][1..] == rest;
      var (keep, m') := After(c, rest, m);
      var (keep', n') := After(c, rest, n);
      if keep && keep' {
        AlikeIffSameCut(line, i + 1, m', n');
      } else if !keep && !keep' {
        SelfAlike(rest, Comment);
      }
    }
  }

  lemma {:induction false} RestAlikeIffCutAlike(lines: seq<string>, n: Mode)
    requires n == Code || n == Quoted
    ensures RestAlike(lines, n) <==> CutAlike(lines, n)
  {
    if lines != [] {
      var line, more := lines[0], lines[1..];
      var next := NextLine(EndOf(line, n));
      RestAlikeIffCutAlike(more, next);
      SelfAlike(line, Code);
      AlikeIffSameCut(line, 0, Code, Quoted);
      assert line[0..] == line;
      assert forall i :: 0 < i < |lines| ==>
        lines[i] == more[i - 1] && EntryMode(lines, n, i) == EntryMode(more, next, i - 1);
      assert forall i :: 0 <= i < |more| ==>
        more[i] == lines[i + 1] && EntryMode(more, next, i) == EntryMode(lines, n, i + 1);
    }
  }

  lemma SameCutsIffCutAlike(data: string)
    ensures SameCuts(data, Code, Code) <==> CutAlike(Lines(data), Code)
  {
    SameCutsByLines(data, Code, Code);
    SelfAlike(Lines(data)[0], Code);
    RestAlikeIffCutAlike(Lines(data), Code);
  }

  predicate SlashesAt(s: string, i: nat) {
    i + 1 < |s| && s[i] == '/' && s[i + 1] == '/'
  }

  predicate HasSlashes(s: string) {
    exists i: nat :: i < |s| && SlashesAt(s, i)
  }

  /** Without backslashes one of the two readings is always in code, so only one of them cuts at two slashes. */
  lemma {:induction false} CutsDifferAtSlashes(line: string, i: nat)
    requires i <= |line| && '\\' !in line
    ensures CutAt(line, i, Code) == CutAt(line, i, Quoted)
            <==> forall j: nat :: i <= j < |line| ==> !SlashesAt(line, j)
    decreases |line| - i
  {
    if i < |line| {
      CutsDifferAtSlashes(line, i + 1);
      assert line[i] in line;
      assert (forall j: nat :: i <= j < |line| ==> !SlashesAt(line, j))
        <==> !SlashesAt(line, i) && forall j: nat :: i + 1 <= j < |line| ==> !SlashesAt(line, j);
    }
  }

  lemma {:induction false} LineCharacters(data: string, i: nat)
    requires i < |Lines(data)|
    ensures forall c :: c in Lines(data)[i] ==> c in data
  {
    if data != "" {
      var rest := data[1..];
      assert forall c :: c in rest ==> c in data;
      if data[0] == '\n' {
        if i > 0 {
          LineCharacters(rest, i - 1);
        }
      } else {
        assert data[0] in data;
        LineCharacters(rest, i);
      }
    }
  }

  // -------------------------------------------------------------------------
  // Idempotence
  // -------------------------------------------------------------------------

  function Strip(data: string): string {
    TrimNewlines(PerLine(data, Code))
  }

  lemma {:induction false} CommentIsInvisible(data: string)
    ensures PerLine(data, Comment) == "" || PerLine(data, Comment)[0] == '\n'
  {
    if data != "" && data[0] != '\n' {
      CommentIsInvisible(data[1..]);
    }
  }

  /** A second scan finds nothing more to drop; after a cut comment it may even start in code. */
  lemma {:induction false} ScanTwice(data: string, m: Mode)
    ensures PerLine(PerLine(data, m), if m == Comment then Code else m) == PerLine(data, m)
  {
    if data != "" {
      var c, rest := data[0], data[1..];
      if c == '\n' {
        ScanTwice(rest, Code);
        assert PerLine(data, m)[1..] == PerLine(rest, Code);
      } else {
        var m' := After(c, rest, m).1;
        var p := PerLine(rest, m');
        ScanTwice(rest, m');
        ScanStep(c, rest, m);
        assert [c] + rest == data;
        if After(c, rest, m).0 {
          KeptStaysKept(c, rest, m);
          ScanStep(c, p, m);
        } else {
          assert PerLine(data, m) == p;
        }
      }
    }
  }

  lemma ScanStep(c: char, rest: string, m: Mode)
    requires c != '\n'
    ensures PerLine([c] + rest, m) == Emit(After(c, rest, m).0, c) + PerLine(rest, After(c, rest, m).1)
  {
  }

  /** What the scanner makes of a kept character does not change when the rest has been stripped. */
  lemma KeptStaysKept(c: char, rest: string, m: Mode)
    requires After(c, rest, m).0
    ensures After(c, PerLine(rest, After(c, rest, m).1), m) == After(c, rest, m)
  {
  }

  lemma {:induction false} TrailingNewline(data: string, m: Mode)
    ensures PerLine(data + "\n", m) == PerLine(data, m) + "\n"
  {
    if data == "" {
      assert data + "\n" == "\n";
      assert PerLine("", Code) == "";
    } else {
      var c, rest := data[0], data[1..];
      assert (data + "\n")[1..] == rest + "\n";
      assert rest != "" ==> (rest + "\n")[0] == rest[0];
      TrailingNewline(rest, if c == '\n' then Code else After(c, rest, m).1);
    }
  }

  lemma {:induction false} TrimmedIsFixed(p: string)
    requires PerLine(p, Code) == p
    ensures PerLine(TrimNewlines(p), Code) == TrimNewlines(p)
  {
    if p != "" && p[|p| - 1] == '\n' {
      var q := p[..|p| - 1];
      assert p == q + "\n";
      TrailingNewline(q, Code);
      assert PerLine(q, Code) == q;
      TrimmedIsFixed(q);
    }
  }

  lemma {:induction false} TrimTwice(s: string)
    ensures TrimNewlines(TrimNewlines(s)) == TrimNewlines(s)
  {
    if s != "" && s[|s| - 1] == '\n' {
      TrimTwice(s[..|s| - 1]);
    }
  }

  /** Stripping a second time changes nothing, on any text whatever. */
  lemma StripIsIdempotent(data: string)
    ensures Strip(Strip(data)) == Strip(data)
  {
    ScanTwice(data, Code);
    TrimmedIsFixed(PerLine(data, Code));
    TrimTwice(PerLine(data, Code));
  }

  // -------------------------------------------------------------------------
  // Stripping and the lexer
  // -------------------------------------------------------------------------

  function Breaks(s: string): nat {
    if s == "" then 0 else One(s[0] == '\n') + Breaks(s[1..])
  }

  lemma BreaksAfter(keep: bool, c: char, s: string)
    requires c != '\n'
    ensures Breaks(Emit(keep, c) + s) == Breaks(s)
  {
    assert (Emit(keep, c) + s)[|Emit(keep, c)|..] == s;
  }

  /** Neither of the two ever drops a newline. */
  lemma {:induction false} BreaksStay(data: string, m: Mode, n: Mode)
    ensures Breaks(PerLine(data, m)) == Breaks(Lex(data, n)) == Breaks(data)
  {
    if data != "" {
      var c, rest := data[0], data[1..];
      if c == '\n' {
        BreaksStay(rest, Code, NextLine(n));
        assert PerLine(data, m)[1..] == PerLine(rest, Code) && Lex(data, n)[1..] == Lex(rest, NextLine(n));
      } else {
        var (keep, m') := After(c, rest, m);
        var (keep', n') := After(c, rest, n);
        BreaksStay(rest, m', n');
        BreaksAfter(keep, c, PerLine(rest, m'));
        BreaksAfter(keep', c, Lex(rest, n'));
      }
    }
  }

  lemma {:induction false} BreaksOfLast(s: string)
    requires s != ""
    ensures Breaks(s) == Breaks(s[..|s| - 1]) + One(s[|s| - 1] == '\n')
  {
    if |s| > 1 {
      BreaksOfLast(s[1..]);
      assert s[1..][..|s| - 2] == s[..|s| - 1][1..];
    }
  }

  lemma {:induction false} TrimmedBreaks(s: string)
    ensures Breaks(TrimNewlines(s)) <= Breaks(s)
    ensures Breaks(TrimNewlines(s)) == Breaks(s) ==> TrimNewlines(s) == s
  {
    if s != "" && s[|s| - 1] == '\n' {
      BreaksOfLast(s);
      TrimmedBreaks(s[..|s| - 1]);
    }
  }

  lemma {:induction false} TrimmedAlike(s: string, t: string)
    requires Breaks(s) == Breaks(t) && TrimNewlines(s) == TrimNewlines(t)
    ensures s == t
  {
    TrimmedBreaks(s);
    TrimmedBreaks(t);
    if TrimNewlines(s) != s {
      var s', t' := s[..|s| - 1], t[..|t| - 1];
      BreaksOfLast(s);
      BreaksOfLast(t);
      TrimmedAlike(s', t');
      assert s == s' + "\n" && t == t' + "\n";
    }
  }

  lemma StripIsLexerIffSameCuts(data: string)
    ensures Strip(data) == TrimNewlines(Lex(data, Code)) <==> SameCuts(data, Code, Code)
  {
    SameTextIffSameCuts(data, Code, Code);
    if Strip(data) == TrimNewlines(Lex(data, Code)) {
      BreaksStay(data, Code, Code);
      TrimmedAlike(PerLine(data, Code), Lex(data, Code));
    }
  }

  /**
   Stripping is the whole-document lexer up to trailing newlines exactly when every line
   that the lexer enters inside a string is cut where the string's reading of it is.
   */
  lemma StripIsLexerIffCutAlike(data: string)
    ensures Strip(data) == TrimNewlines(Lex(data, Code)) <==> CutAlike(Lines(data), Code)
  {
    StripIsLexerIffSameCuts(data);
    SameCutsIffCutAlike(data);
  }

  /** Without backslashes: exactly when no such line contains two slashes in a row. */
  lemma StripIsLexerIffNoSlashes(data: string)
    requires '\\' !in data
    ensures Strip(data) == TrimNewlines(Lex(data, Code))
            <==> forall i :: 0 <= i < |Lines(data)| && EntryMode(Lines(data), Code, i) == Quoted
                             ==> !HasSlashes(Lines(data)[i])
  {
    StripIsLexerIffCutAlike(data);
    forall i | 0 <= i < |Lines(data)|
      ensures CutAt(Lines(data)[i], 0, Code) == CutAt(Lines(data)[i], 0, Quoted) <==> !HasSlashes(Lines(data)[i])
    {
      LineCharacters(data, i);
      CutsDifferAtSlashes(Lines(data)[i], 0);
    }
  }

  /** In particular on every text whose strings stay on one line. */
  lemma StripIsLexer(data: string)
    requires StringsStayOnLine(data, Code)
    ensures Strip(data) == TrimNewlines(Lex(data, Code))
  {
    OnOneLineSameCuts(data, Code);
    StripIsLexerIffSameCuts(data);
  }

  /** A string over two lines; the second line looks like a comment. */
  const SPANNING := "\"\n//\""

  lemma {:induction false} LoneLine(line: string)
    requires '\n' !in line
    ensures Lines(line) == [line]
  {
    if line != "" {
      assert line[0] in line && forall c :: c in line[1..] ==> c in line;
      LoneLine(line[1..]);
      assert [line[0]] + line[1..] == line;
    }
  }

  lemma SpanningLines()
    ensures Lines(SPANNING) == ["\"", "//\""]
  {
    var second := "//\"";
    LoneLine(second);
    assert ("\n" + second)[1..] == second;
    assert SPANNING == ['\"'] + ("\n" + second);
    assert Lines("\n" + second) == ["", second];
    assert Lines(SPANNING)[0] == "\"" && Lines(SPANNING)[1..] == [second];
  }

  lemma SpanningIsStripped()
    ensures Strip(SPANNING) == "\""
  {
    var second := "//\"";
    SpanningLines();
    ScanByLines(SPANNING, Code);
    KeptOfSpanning();
    assert ["\"", second][1..] == [second] && [second][1..] == [];
    TrimmedNewline("\"");
  }

  lemma KeptOfSpanning()
    ensures KeepLine("\"", Code) == "\"" && KeepLine("//\"", Code) == ""
  {
    assert "\""[1..] == "" && "//\""[1..] == "/\"";
  }

  /** Agreement is not for all texts: the stripper drops part of that string. */
  lemma SpanningStringIsCut()
    ensures Strip(SPANNING) == "\"" && Strip(SPANNING) != TrimNewlines(Lex(SPANNING, Code))
  {
    SpanningIsStripped();
    SpanningLines();
    var ls := Lines(SPANNING);
    assert EndOf(ls[0], Code) == Quoted && EntryMode(ls, Code, 1) == Quoted;
    assert SlashesAt(ls[1], 0);
    StripIsLexerIffNoSlashes(SPANNING);
  }
}
