/**
 Where a line of JSONC is cut (server/opencode.go), by a grammar instead of the two flags:
 in front of the first two slashes that have only whole string literals and other
 characters before them.
 */
module Literals {
  import opened Jsonc

  /** What may stand between quotation marks: no quotation mark, unless a backslash precedes it. */
  predicate Contents(s: string) {
    s == ""
    || (s[0] == '\\' && |s| >= 2 && Contents(s[2..]))
    || (s[0] != '\\' && s[0] != '\"' && Contents(s[1..]))
  }

  /** `s[..k]` closes with a quotation mark a string literal opened just before it. */
  predicate ClosesAt(s: string, k: nat) {
    k < |s| && s[k] == '\"' && Contents(s[..k])
  }

  /** Characters other than quotation marks, and whole string literals. */
  ghost predicate WholeLiterals(s: string)
    decreases |s|
  {
    s == ""
    || (s[0] != '\"' && WholeLiterals(s[1..]))
    || (s[0] == '\"' && exists k: nat :: ClosesAt(s[1..], k) && WholeLiterals(s[1..][k + 1..]))
  }

  // -------------------------------------------------------------------------
  // The two flags read the grammar
  // -------------------------------------------------------------------------

  function Next(m: Mode, c: char): Mode {
    match m
    case Escaped => Quoted
    case Quoted => if c == '\\' then Escaped else if c == '\"' then Code else Quoted
    case _ => if c == '\"' then Quoted else m
  }

  function StateAfter(s: string, m: Mode): (n: Mode)
    ensures m != Comment ==> n != Comment
  {
    if s == "" then m else StateAfter(s[1..], Next(m, s[0]))
  }

  lemma {:induction false} StateSnoc(s: string, c: char, m: Mode)
    ensures StateAfter(s + [c], m) == Next(StateAfter(s, m), c)
  {
    if s == "" {
      assert s + [c] == [c] && [c][1..] == "";
    } else {
      assert (s + [c])[1..] == s[1..] + [c];
      StateSnoc(s[1..], c, Next(m, s[0]));
    }
  }

  lemma {:induction false} LiteralCloses(s: string, k: nat)
    requires ClosesAt(s, k)
    ensures StateAfter(s, Quoted) == StateAfter(s[k + 1..], Code)
  {
    var t := s[..k];
    if t != "" {
      var n := if s[0] == '\\' then 2 else 1;
      assert t[n..] == s[n..][..k - n];
      LiteralCloses(s[n..], k - n);
      assert s[n..][k - n + 1..] == s[k + 1..];
      if n == 2 {
        assert s[1..][1..] == s[2..];
        assert StateAfter(s, Quoted) == StateAfter(s[1..], Escaped);
      }
    }
  }

  lemma {:induction false} LiteralEnd(s: string) returns (k: nat)
    requires StateAfter(s, Quoted) == Code
    ensures ClosesAt(s, k) && StateAfter(s[k + 1..], Code) == Code
  {
    if s[0] == '\"' {
      k := 0;
    } else {
      var n := if s[0] == '\\' then 2 else 1;
      if n == 2 {
        assert StateAfter(s, Quoted) == StateAfter(s[1..], Escaped);
        assert s[1..][1..] == s[2..];
      }
      var j := LiteralEnd(s[n..]);
      k := n + j;
      assert s[..k][n..] == s[n..][..j];
      assert s[n..][j + 1..] == s[k + 1..];
    }
  }

  lemma {:induction false} CodeIffWholeLiterals(s: string)
    ensures StateAfter(s, Code) == Code <==> WholeLiterals(s)
    decreases |s|
  {
    if s != "" && s[0] != '\"' {
      CodeIffWholeLiterals(s[1..]);
    } else if s != "" {
      var t := s[1..];
      if StateAfter(t, Quoted) == Code {
        var k := LiteralEnd(t);
        CodeIffWholeLiterals(t[k + 1..]);
      }
      if k: nat :| ClosesAt(t, k) && WholeLiterals(t[k + 1..]) {
        LiteralCloses(t, k);
        CodeIffWholeLiterals(t[k + 1..]);
      }
    }
  }

  // -------------------------------------------------------------------------
  // The cut
  // -------------------------------------------------------------------------

  /** A comment starts at `i`. */
  ghost predicate CommentAt(line: string, i: nat) {
    SlashesAt(line, i) && WholeLiterals(line[..i])
  }

  lemma {:induction false} CutIsComment(line: string, i: nat)
    requires i <= |line|
    ensures var n := CutAt(line, i, StateAfter(line[..i], Code));
      && (n < |line| ==> CommentAt(line, n))
      && forall j :: i <= j < n ==> !CommentAt(line, j)
    decreases |line| - i
  {
    var m := StateAfter(line[..i], Code);
    CodeIffWholeLiterals(line[..i]);
    if i < |line| && !(m == Code && SlashesAt(line, i)) {
      assert line[..i + 1] == line[..i] + [line[i]];
      StateSnoc(line[..i], line[i], Code);
      CutIsComment(line, i + 1);
    }
  }

  /** What is kept of a line is everything before its first comment, and all of it if it has none. */
  lemma KeptUpToFirstComment(line: string)
    ensures var n := |KeepLine(line, Code)|;
      && n <= |line| && KeepLine(line, Code) == line[..n]
      && (n < |line| ==> CommentAt(line, n))
      && forall i :: 0 <= i < n ==> !CommentAt(line, i)
  {
    CutKeeps(line, 0, Code);
    assert line[0..] == line && line[..0] == "";
    CutIsComment(line, 0);
  }
}
