/** Names and result types shared by the models of the pool, discovery, the router and the queue. */
module Common {
  type Url = string
  type Model = string

  datatype Option<+T> = None | Some(value: T)

  /** A Go `(value, error)` pair of which exactly one side is meaningful. */
  datatype Result<+T, +E> = Ok(value: T) | Err(error: E)

  /** The earlier of the queue timeout, counted from `now`, and the context's own deadline. */
  function MinDeadline(now: int, wait: nat, ctxDeadline: Option<int>): (d: int)
    ensures d <= now + wait && (ctxDeadline.Some? ==> d <= ctxDeadline.value)
    ensures d == now + wait || ctxDeadline == Some(d)
  {
    match ctxDeadline
    case Some(d) => if d < now + wait then d else now + wait
    case None => now + wait
  }

  predicate Distinct<T(==)>(s: seq<T>) {
    forall i, j :: 0 <= i < j < |s| ==> s[i] != s[j]
  }

  /** `s` without the first occurrence of `x`. */
  function Drop<T(==)>(s: seq<T>, x: T): seq<T> {
    if s == [] then []
    else if s[0] == x then s[1..]
    else [s[0]] + Drop(s[1..], x)
  }

  lemma {:induction false} DropsOne<T>(s: seq<T>, x: T) returns (i: nat)
    ensures i <= |s| && x !in s[..i] && (i < |s| ==> s[i] == x)
    ensures Drop(s, x) == if i < |s| then s[..i] + s[i + 1..] else s
  {
    i := 0;
    if s != [] && s[0] != x {
      i := DropsOne(s[1..], x);
      OneFurther(s, i);
      i := i + 1;
    }
  }

  lemma OneFurther<T>(s: seq<T>, i: nat)
    requires i < |s|
    ensures s[..i + 1] == [s[0]] + s[1..][..i]
    ensures i < |s| - 1 ==> [s[0]] + (s[1..][..i] + s[1..][i + 1..]) == s[..i + 1] + s[i + 2..]
  {
  }

  lemma {:induction false} DropKeepsOthers<T>(s: seq<T>, x: T, y: T)
    ensures x != y && y in s ==> y in Drop(s, x)
  {
    if s != [] {
      DropKeepsOthers(s[1..], x, y);
      assert s == [s[0]] + s[1..];
    }
  }

  // -------------------------------------------------------------------------
  // Counting
  // -------------------------------------------------------------------------

  function One(b: bool): nat {
    if b then 1 else 0
  }

  lemma SizeWithout<T>(a: set<T>, x: T)
    ensures |a| == |a - {x}| + One(x in a)
  {
  }

  /** Two sets that agree except on `x`. */
  lemma CountChange<T>(a: set<T>, b: set<T>, x: T)
    requires a - {x} == b - {x}
    ensures |b| == |a| - One(x in a) + One(x in b)
  {
    SizeWithout(a, x);
    SizeWithout(b, x);
  }
}
