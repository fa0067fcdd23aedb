/**
 What a posted configuration (server/opencode.go) is reduced to before it is decoded,
 stated without the program's own trims: by the white space of Unicode, listed character by
 character, and by the lexer of whole documents.
 */
module Posted {
  import opened Jsonc
  import opened OpenCode

  /** The 25 characters with the property White_Space in Unicode. */
  const WHITE: set<char> :=
    { '\U{0009}', '\U{000A}', '\U{000B}', '\U{000C}', '\U{000D}', '\U{0020}', '\U{0085}', '\U{00A0}', '\U{1680}'
    , '\U{2000}', '\U{2001}', '\U{2002}', '\U{2003}', '\U{2004}', '\U{2005}', '\U{2006}', '\U{2007}', '\U{2008}'
    , '\U{2009}', '\U{200A}', '\U{2028}', '\U{2029}', '\U{202F}', '\U{205F}', '\U{3000}' }

  lemma SpaceIsWhite(c: char)
    ensures IsSpace(c) <==> c in WHITE
  {
  }

  /** `s[a..b]` is `s` without the white space at its ends. */
  ghost predicate CutsWhite(s: string, a: nat, b: nat) {
    && a <= b <= |s|
    && (forall i :: 0 <= i < a || b <= i < |s| ==> s[i] in WHITE)
    && (a < b ==> s[a] !in WHITE && s[b - 1] !in WHITE)
  }

  lemma {:induction false} LeftEdge(s: string) returns (a: nat)
    ensures a <= |s| && TrimLeft(s) == s[a..]
    ensures forall i :: 0 <= i < a ==> s[i] in WHITE
    ensures a < |s| ==> s[a] !in WHITE
  {
    if s != "" && IsSpace(s[0]) {
      SpaceIsWhite(s[0]);
      var b := LeftEdge(s[1..]);
      a := b + 1;
      assert s[a..] == s[1..][b..];
    } else {
      a := 0;
      if s != "" {
        SpaceIsWhite(s[0]);
      }
    }
  }

  lemma {:induction false} RightEdge(s: string) returns (b: nat)
    ensures b <= |s| && TrimEnd(s) == s[..b]
    ensures forall i :: b <= i < |s| ==> s[i] in WHITE
    ensures 0 < b ==> s[b - 1] !in WHITE
  {
    if s != "" {
      SpaceIsWhite(s[|s| - 1]);
    }
    if s != "" && IsSpace(s[|s| - 1]) {
      b := RightEdge(s[..|s| - 1]);
      assert s[..b] == s[..|s| - 1][..b];
    } else {
      b := |s|;
    }
  }

  /** The trims take exactly the listed characters off both ends. */
  lemma TrimSpaceCutsWhite(s: string) returns (a: nat, b: nat)
    ensures CutsWhite(s, a, b) && TrimSpace(s) == s[a..b]
  {
    a := LeftEdge(s);
    var n := RightEdge(s[a..]);
    b := a + n;
    assert s[a..][..n] == s[a..b];
    forall i | b <= i < |s| ensures s[i] in WHITE {
      assert s[i] == s[a..][i - a];
    }
    if a < b {
      assert s[b - 1] == s[a..][n - 1];
    }
  }

  /** Nothing but white space counts as an empty object. */
  lemma BlankIsEmptyObject(body: string)
    requires forall i :: 0 <= i < |body| ==> body[i] in WHITE
    ensures Reduced(body) == "{}"
  {
    var a, b := TrimSpaceCutsWhite(body);
    assert TrimSpace(body) == "";
    assert !HasSlashes("");
    assert TrimSpace("") == "";
  }

  lemma SlashesInside(s: string, a: nat, b: nat)
    requires a <= b <= |s| && HasSlashes(s[a..b])
    ensures HasSlashes(s)
  {
    var i: nat :| i < |s[a..b]| && SlashesAt(s[a..b], i);
    assert SlashesAt(s, a + i);
  }

  /** A body without two slashes in a row loses the white space at its ends and nothing else. */
  lemma WithoutSlashesOnlyEndsGo(body: string) returns (a: nat, b: nat)
    requires forall i :: 0 <= i < |body| - 1 ==> !(body[i] == '/' && body[i + 1] == '/')
    ensures CutsWhite(body, a, b) && Reduced(body) == if a == b then "{}" else body[a..b]
  {
    a, b := TrimSpaceCutsWhite(body);
    assert forall i: nat :: i < |body| ==> !SlashesAt(body, i);
    if HasSlashes(body[a..b]) {
      SlashesInside(body, a, b);
    }
    if a < b {
      SpaceIsWhite(body[a]);
      SpaceIsWhite(body[b - 1]);
      TightIsTrimmed(body[a..b]);
    }
  }

  // -------------------------------------------------------------------------
  // With comments
  // -------------------------------------------------------------------------

  lemma {:induction false} LexKeepsSlashless(s: string, m: Mode)
    requires !HasSlashes(s) && m != Comment
    ensures Lex(s, m) == s
  {
    if s != "" {
      var c, rest := s[0], s[1..];
      forall i: nat | i < |rest| ensures !SlashesAt(rest, i) {
        assert !SlashesAt(s, i + 1);
      }
      assert !SlashesAt(s, 0);
      LexKeepsSlashless(rest, if c == '\n' then NextLine(m) else Jsonc.After(c, rest, m).1);
      assert [c] + rest == s;
    }
  }

  lemma {:induction false} TrimLeftSnoc(s: string, c: char)
    requires IsSpace(c)
    ensures TrimLeft(s + [c]) == if TrimLeft(s) == "" then "" else TrimLeft(s) + [c]
  {
    if s == "" {
      assert s + [c] == [c] && [c][1..] == "";
    } else {
      assert (s + [c])[1..] == s[1..] + [c];
      if IsSpace(s[0]) {
        TrimLeftSnoc(s[1..], c);
      }
    }
  }

  lemma TrimSpaceSnoc(s: string, c: char)
    requires IsSpace(c)
    ensures TrimSpace(s + [c]) == TrimSpace(s)
  {
    TrimLeftSnoc(s, c);
    assert (TrimLeft(s) + [c])[..|TrimLeft(s)|] == TrimLeft(s);
  }

  lemma {:induction false} NewlinesAreTrimmedToo(s: string)
    ensures TrimSpace(TrimNewlines(s)) == TrimSpace(s)
  {
    if s != "" && s[|s| - 1] == '\n' {
      NewlinesAreTrimmedToo(s[..|s| - 1]);
      TrimSpaceSnoc(s[..|s| - 1], '\n');
      assert s == s[..|s| - 1] + ['\n'];
    }
  }

  /**
   A body whose strings stay on their lines is reduced to what the lexer of whole documents
   leaves of it between its comments, without white space at either end.
   */
  lemma ReducedIsLexed(body: string) returns (a: nat, b: nat)
    requires StringsStayOnLine(TrimSpace(body), Code)
    ensures CutsWhite(body, a, b)
    ensures var lexed := Lex(body[a..b], Code);
      exists i: nat, j: nat :: CutsWhite(lexed, i, j) && Reduced(body) == if i == j then "{}" else lexed[i..j]
  {
    a, b := TrimSpaceCutsWhite(body);
    var content := body[a..b];
    var text := Lex(content, Code);
    if HasSlashes(content) {
      StripIsLexer(content);
      NewlinesAreTrimmedToo(text);
    } else {
      LexKeepsSlashless(content, Code);
    }
    var i, j := TrimSpaceCutsWhite(text);
  }
}
