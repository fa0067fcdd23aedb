/**
 Concurrent `route` calls (router/router.go with backend/backend.go) as a transition
 system. The capacity check looks at a counter read earlier, and the increment itself is
 unconditional, so a limit can be exceeded; this module finds by how much. A call reads
 counters one at a time and may try, in any order, any server it has read below capacity;
 which one the sort and the rotation would try next plays no part in the bound. There is
 no best effort and the pool is not edited. The queue's own `route` calls are calls too.
 */
module Overshoot {
  import opened Common

  type CallId = nat

  /** A call between its first read and its end: unused readings, and an acquire in progress. */
  datatype Call = Call(snap: map<Url, int>, trying: Option<Url>)

  datatype State = State(inflight: map<Url, int>, held: map<Url, nat>, calls: map<CallId, Call>)

  /** The limits, each at least 1, and how many calls may be under way at once. */
  datatype Setting = Setting(limits: map<Url, nat>, width: nat) {
    predicate Valid() {
      width >= 1 && forall u :: u in limits ==> limits[u] >= 1
    }
  }

  datatype Action =
    | Begin(c: CallId)
    | Read(c: CallId, u: Url)       // the snapshot of one candidate
    | Increment(c: CallId, u: Url)  // Acquire: the counter goes up first ...
    | Take(c: CallId)               // ... and the context was live: the call ends with a connection
    | GiveBack(c: CallId)           // ... or it was done: the counter comes down again
    | End(c: CallId)                // the call ends without a connection
    | Release(u: Url)

  function Initial(k: Setting): State {
    State(map u | u in k.limits :: 0, map u | u in k.limits :: 0, map[])
  }

  function Step(k: Setting, s: State, a: Action): Option<State> {
    match a
    case Begin(c) =>
      if c !in s.calls && |s.calls| < k.width then Some(s.(calls := s.calls[c := Call(map[], None)])) else None
    case Read(c, u) =>
      if c in s.calls && s.calls[c].trying == None && u in s.inflight then
        Some(s.(calls := s.calls[c := Call(s.calls[c].snap[u := s.inflight[u]], None)]))
      else None
    case Increment(c, u) =>
      if c in s.calls && s.calls[c].trying == None && u in s.calls[c].snap && u in k.limits && u in s.inflight
         && s.calls[c].snap[u] < k.limits[u]
      then
        Some(State(s.inflight[u := s.inflight[u] + 1], s.held,
                   s.calls[c := Call(s.calls[c].snap - {u}, Some(u))]))
      else None
    case Take(c) =>
      if c in s.calls && s.calls[c].trying.Some? && s.calls[c].trying.value in s.held then
        var u := s.calls[c].trying.value;
        Some(State(s.inflight, s.held[u := s.held[u] + 1], s.calls - {c}))
      else None
    case GiveBack(c) =>
      if c in s.calls && s.calls[c].trying.Some? && s.calls[c].trying.value in s.inflight then
        var u := s.calls[c].trying.value;
        Some(State(s.inflight[u := s.inflight[u] - 1], s.held, s.calls[c := Call(s.calls[c].snap, None)]))
      else None
    case End(c) =>
      if c in s.calls && s.calls[c].trying == None then Some(s.(calls := s.calls - {c})) else None
    case Release(u) =>
      if u in s.held && u in s.inflight && s.held[u] > 0 then
        Some(State(s.inflight[u := s.inflight[u] - 1], s.held[u := s.held[u] - 1], s.calls))
      else None
  }

  function Exec(k: Setting, actions: seq<Action>): Option<State> {
    if actions == [] then Some(Initial(k))
    else
      match Exec(k, actions[..|actions| - 1])
      case None => None
      case Some(s) => Step(k, s, actions[|actions| - 1])
  }

  // -------------------------------------------------------------------------
  // The invariant
  // -------------------------------------------------------------------------

  /** Call `c` could still increment `u` on the strength of an old reading. */
  predicate IsArmed(k: Setting, s: State, c: CallId, u: Url) {
    c in s.calls && u in k.limits && u in s.calls[c].snap && s.calls[c].snap[u] < k.limits[u]
  }

  /** Call `c` is between the increment of `u` and the look at its context. */
  predicate IsTrying(s: State, c: CallId, u: Url) {
    c in s.calls && s.calls[c].trying == Some(u)
  }

  function Armed(k: Setting, s: State, u: Url): set<CallId> {
    set c | c in s.calls && IsArmed(k, s, c, u)
  }

  function Trying(s: State, u: Url): set<CallId> {
    set c | c in s.calls && IsTrying(s, c, u)
  }

  ghost predicate InvAt(k: Setting, s: State, u: Url)
    requires u in k.limits && u in s.inflight && u in s.held
  {
    && s.inflight[u] == s.held[u] + |Trying(s, u)|
    && s.inflight[u] + |Armed(k, s, u)| <= k.limits[u] - 1 + k.width
  }

  ghost predicate Shape(k: Setting, s: State) {
    && s.inflight.Keys == k.limits.Keys && s.held.Keys == k.limits.Keys
    && |s.calls| <= k.width
    && (forall c :: c in s.calls && s.calls[c].trying.Some? ==> s.calls[c].trying.value in k.limits)
  }

  ghost predicate Inv(k: Setting, s: State) {
    && Shape(k, s)
    && (forall u {:trigger InvAt(k, s, u)} :: u in k.limits ==> InvAt(k, s, u))
  }

  lemma CardinalityOfSubset<T>(a: set<T>, b: set<T>)
    requires a <= b
    ensures |a| <= |b|
    decreases |a|
  {
    if a != {} {
      var x :| x in a;
      CardinalityOfSubset(a - {x}, b - {x});
    }
  }

  lemma ArmedWithinWidth(k: Setting, s: State, u: Url)
    ensures |Armed(k, s, u)| <= |s.calls|
  {
    CardinalityOfSubset(Armed(k, s, u), s.calls.Keys);
  }

  /** Only call `c` changes, begins or ends. */
  ghost predicate OnlyChanges(s: State, t: State, c: CallId) {
    forall d :: d != c ==> (d in t.calls <==> d in s.calls) && (d in s.calls ==> t.calls[d] == s.calls[d])
  }

  lemma CountsAfter(k: Setting, s: State, t: State, c: CallId, u: Url)
    requires OnlyChanges(s, t, c)
    ensures |Trying(t, u)| == |Trying(s, u)| - One(IsTrying(s, c, u)) + One(IsTrying(t, c, u))
    ensures |Armed(k, t, u)| == |Armed(k, s, u)| - One(IsArmed(k, s, c, u)) + One(IsArmed(k, t, c, u))
  {
    assert Trying(t, u) - {c} == Trying(s, u) - {c};
    assert Armed(k, t, u) - {c} == Armed(k, s, u) - {c};
    CountChange(Trying(s, u), Trying(t, u), c);
    CountChange(Armed(k, s, u), Armed(k, t, u), c);
  }

  /** The effect of a step on one server's counter, holders and width. */
  lemma StepEffect(k: Setting, s: State, a: Action, u: Url)
    requires Inv(k, s) && Step(k, s, a).Some? && u in k.limits && !a.Release?
    ensures var t := Step(k, s, a).value;
      && u in t.inflight && u in t.held
      && t.inflight[u] - t.held[u] - One(IsTrying(t, a.c, u)) == s.inflight[u] - s.held[u] - One(IsTrying(s, a.c, u))
      && (t.inflight[u] + One(IsArmed(k, t, a.c, u)) <= s.inflight[u] + One(IsArmed(k, s, a.c, u))
          || (a.Read? && t.inflight[u] < k.limits[u]))
  {
  }

  /** What a step leaves alone, and the width it keeps. */
  lemma StepFrame(k: Setting, s: State, a: Action)
    requires Inv(k, s) && Step(k, s, a).Some? && !a.Release?
    ensures var t := Step(k, s, a).value;
      && |t.calls| <= k.width
      && t.inflight.Keys == s.inflight.Keys && t.held.Keys == s.held.Keys
      && OnlyChanges(s, t, a.c)
      && (a.c in t.calls && t.calls[a.c].trying.Some? ==> t.calls[a.c].trying.value in k.limits)
  {
    if !a.Begin? {
      CardinalityOfSubset(Step(k, s, a).value.calls.Keys, s.calls.Keys);
    }
  }

  lemma ShapeAfter(k: Setting, s: State, a: Action)
    requires Inv(k, s) && Step(k, s, a).Some? && !a.Release?
    ensures Shape(k, Step(k, s, a).value)
  {
    StepFrame(k, s, a);
    var t := Step(k, s, a).value;
    forall c | c in t.calls && t.calls[c].trying.Some? ensures t.calls[c].trying.value in k.limits {
      if c != a.c {
        assert t.calls[c] == s.calls[c];
      }
    }
  }

  lemma StepKeepsInvAt(k: Setting, s: State, a: Action, u: Url)
    requires k.Valid() && Inv(k, s) && Step(k, s, a).Some? && u in k.limits && !a.Release?
    ensures var t := Step(k, s, a).value;
      u in t.inflight && u in t.held && InvAt(k, t, u)
  {
    var t := Step(k, s, a).value;
    assert InvAt(k, s, u);
    StepEffect(k, s, a, u);
    StepFrame(k, s, a);
    CountsAfter(k, s, t, a.c, u);
    ArmedWithinWidth(k, t, u);
  }

  lemma ReleaseKeepsInvAt(k: Setting, s: State, t: State, u: Url)
    requires Inv(k, s) && u in k.limits && u in t.inflight && u in t.held && t.calls == s.calls
    requires t.inflight[u] - t.held[u] == s.inflight[u] - s.held[u] && t.inflight[u] <= s.inflight[u]
    ensures InvAt(k, t, u)
  {
    assert InvAt(k, s, u);
    assert Trying(t, u) == Trying(s, u);
    assert Armed(k, t, u) == Armed(k, s, u);
  }

  lemma ReleaseMoves(s: State, v: Url, u: Url)
    requires v in s.inflight && v in s.held && s.held[v] > 0 && u in s.inflight && u in s.held
    ensures var inflight, held := s.inflight[v := s.inflight[v] - 1], s.held[v := s.held[v] - 1];
      inflight[u] - held[u] == s.inflight[u] - s.held[u] && inflight[u] <= s.inflight[u]
  {
  }

  lemma ReleaseKeepsInv(k: Setting, s: State, v: Url)
    requires Inv(k, s) && v in k.limits && s.held[v] > 0
    ensures Inv(k, State(s.inflight[v := s.inflight[v] - 1], s.held[v := s.held[v] - 1], s.calls))
  {
    var t := State(s.inflight[v := s.inflight[v] - 1], s.held[v := s.held[v] - 1], s.calls);
    assert Shape(k, t);
    forall u | u in k.limits ensures InvAt(k, t, u) {
      ReleaseMoves(s, v, u);
      ReleaseKeepsInvAt(k, s, t, u);
    }
  }

  lemma StepKeepsInv(k: Setting, s: State, a: Action)
    requires k.Valid() && Inv(k, s) && Step(k, s, a).Some?
    ensures Inv(k, Step(k, s, a).value)
  {
    if a.Release? {
      ReleaseKeepsInv(k, s, a.u);
    } else {
      var t := Step(k, s, a).value;
      ShapeAfter(k, s, a);
      forall u | u in k.limits ensures InvAt(k, t, u) {
        StepKeepsInvAt(k, s, a, u);
      }
    }
  }

  lemma {:induction false} ReachableInv(k: Setting, actions: seq<Action>)
    requires k.Valid() && Exec(k, actions).Some?
    ensures Inv(k, Exec(k, actions).value)
  {
    if actions == [] {
      forall u | u in k.limits ensures InvAt(k, Initial(k), u) {
        assert Trying(Initial(k), u) == {} && Armed(k, Initial(k), u) == {};
      }
    } else {
      ReachableInv(k, actions[..|actions| - 1]);
      StepKeepsInv(k, Exec(k, actions[..|actions| - 1]).value, actions[|actions| - 1]);
    }
  }

  // -------------------------------------------------------------------------
  // The bound, and that it is the best one
  // -------------------------------------------------------------------------

  /** In every reachable state a limit is exceeded by less than the number of calls that may overlap. */
  lemma OvershootBound(k: Setting, actions: seq<Action>, u: Url)
    requires k.Valid() && Exec(k, actions).Some? && u in k.limits
    ensures var s := Exec(k, actions).value;
      && u in s.inflight && u in s.held
      && s.held[u] <= s.inflight[u] <= k.limits[u] + k.width - 1
      && (s.calls == map[] ==> s.inflight[u] == s.held[u])
  {
    ReachableInv(k, actions);
    var s := Exec(k, actions).value;
    assert InvAt(k, s, u);
    if s.calls == map[] {
      assert Trying(s, u) == {};
    }
  }

  /** One call at a time keeps the limit. */
  lemma OneCallAtATimeKeepsLimit(k: Setting, actions: seq<Action>, u: Url)
    requires k.Valid() && k.width == 1 && Exec(k, actions).Some? && u in k.limits
    ensures u in Exec(k, actions).value.inflight && Exec(k, actions).value.inflight[u] <= k.limits[u]
  {
    OvershootBound(k, actions, u);
  }

  lemma Extend(k: Setting, actions: seq<Action>, a: Action)
    ensures Exec(k, actions + [a])
         == match Exec(k, actions) { case None => None case Some(s) => Step(k, s, a) }
  {
    assert (actions + [a])[..|actions|] == actions;
  }

  /** `n` calls in turn, each finding room, leave `n` connections on `u`. */
  lemma {:induction false} Fill(k: Setting, u: Url, n: nat) returns (run: seq<Action>, s: State)
    requires k.Valid() && u in k.limits && n <= k.limits[u]
    ensures Exec(k, run) == Some(s) && s.calls == map[]
    ensures u in s.inflight && u in s.held && s.inflight[u] == n && s.held[u] == n
  {
    if n == 0 {
      run, s := [], Initial(k);
    } else {
      run, s := Fill(k, u, n - 1);
      Extend(k, run, Begin(0));
      run := run + [Begin(0)];
      Extend(k, run, Read(0, u));
      run := run + [Read(0, u)];
      Extend(k, run, Increment(0, u));
      run := run + [Increment(0, u)];
      Extend(k, run, Take(0));
      run := run + [Take(0)];
      s := Exec(k, run).value;
    }
  }

  /** `n` calls that have all read `u` just below its limit. */
  function Ready(k: Setting, u: Url, n: nat): (calls: map<CallId, Call>)
    requires u in k.limits
    ensures |calls| == n && forall c: CallId :: c in calls <==> c < n
  {
    if n == 0 then map[] else Ready(k, u, n - 1)[n - 1 := Call(map[u := k.limits[u] as int - 1], None)]
  }

  lemma OneMoreReads(k: Setting, u: Url, n: nat, s: State)
    requires k.Valid() && u in k.limits && u in s.inflight && n < k.width
    requires s.calls == Ready(k, u, n) && s.inflight[u] == k.limits[u] - 1
    ensures var mid := Step(k, s, Begin(n));
      && mid.Some?
      && Step(k, mid.value, Read(n, u)) == Some(State(s.inflight, s.held, Ready(k, u, n + 1)))
  {
    assert n !in s.calls;
    var mid := Step(k, s, Begin(n)).value;
    assert mid.calls[n].snap[u := s.inflight[u]] == map[u := k.limits[u] as int - 1];
    assert mid.calls[n := Call(map[u := k.limits[u] as int - 1], None)] == Ready(k, u, n + 1);
  }

  /** Then `n` overlapping calls all read the counter below the limit. */
  lemma {:induction false} Arm(k: Setting, u: Url, n: nat) returns (run: seq<Action>, s: State)
    requires k.Valid() && u in k.limits && n <= k.width
    ensures Exec(k, run) == Some(s) && u in s.inflight && u in s.held
    ensures s.inflight[u] == k.limits[u] - 1 && s.held[u] == k.limits[u] - 1
    ensures s.calls == Ready(k, u, n)
  {
    if n == 0 {
      run, s := Fill(k, u, k.limits[u] - 1);
    } else {
      run, s := Arm(k, u, n - 1);
      OneMoreReads(k, u, n - 1, s);
      Extend(k, run, Begin(n - 1));
      run := run + [Begin(n - 1)];
      Extend(k, run, Read(n - 1, u));
      run := run + [Read(n - 1, u)];
      s := Exec(k, run).value;
    }
  }

  /** And all but `n` of them take a connection. */
  lemma {:induction false} Fire(k: Setting, u: Url, n: nat) returns (run: seq<Action>, s: State)
    requires k.Valid() && u in k.limits && n <= k.width
    ensures Exec(k, run) == Some(s) && u in s.inflight && u in s.held
    ensures s.inflight[u] == k.limits[u] - 1 + k.width - n && s.held[u] == s.inflight[u]
    ensures s.calls == Ready(k, u, n)
    decreases k.width - n
  {
    if n == k.width {
      run, s := Arm(k, u, k.width);
    } else {
      run, s := Fire(k, u, n + 1);
      Extend(k, run, Increment(n, u));
      run := run + [Increment(n, u)];
      Extend(k, run, Take(n));
      run := run + [Take(n)];
      s := Exec(k, run).value;
      assert Ready(k, u, n + 1) - {n} == Ready(k, u, n);
    }
  }

  /** For every limit and every width the bound is reached, with no call under way any more. */
  lemma OvershootBoundIsReached(k: Setting, u: Url) returns (run: seq<Action>)
    requires k.Valid() && u in k.limits
    ensures Exec(k, run).Some? && u in Exec(k, run).value.held && u in Exec(k, run).value.inflight
    ensures Exec(k, run).value.calls == map[]
    ensures Exec(k, run).value.inflight[u] == Exec(k, run).value.held[u] == k.limits[u] + k.width - 1
  {
    var s;
    run, s := Fire(k, u, 0);
  }

  /** So the limit holds over all runs exactly when calls never overlap. */
  lemma LimitHoldsIffOneCallAtATime(k: Setting, u: Url)
    requires k.Valid() && u in k.limits
    ensures (forall run :: Exec(k, run).Some? && u in Exec(k, run).value.inflight
                           ==> Exec(k, run).value.inflight[u] <= k.limits[u])
            <==> k.width == 1
  {
    if k.width == 1 {
      forall run | Exec(k, run).Some? && u in Exec(k, run).value.inflight
        ensures Exec(k, run).value.inflight[u] <= k.limits[u]
      {
        OneCallAtATimeKeepsLimit(k, run, u);
      }
    } else {
      var run := OvershootBoundIsReached(k, u);
      assert Exec(k, run).value.inflight[u] > k.limits[u];
    }
  }
}
