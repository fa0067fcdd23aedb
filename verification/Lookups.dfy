/**
 The pool's counters when `Acquire` and `Release` are not single steps (backend/backend.go):
 each looks its client up under the read lock, lets go of the lock, and moves that client's
 counter later. `AddServer` may replace the client in between; then the move goes to a
 client that nobody looks at any more. Module Drift is the case where it never does.
 */
module Lookups {
  import opened Common

  type ClientId = nat
  type CallId = nat

  datatype Client = Client(url: Url, count: int)

  /** Where a call of `Acquire` or `Release` is. */
  datatype Phase =
    | Acquiring(url: Url, client: ClientId)          // it has its client; the increment comes next
    | Counted(url: Url, client: ClientId)            // incremented; it looks at its context next
    | Releasing(url: Url, found: Option<ClientId>)   // it has its client, if any; the decrement comes next

  /** `held` are the connections in the hands of callers, `next` the number of clients ever made. */
  datatype State = State(pool: map<Url, ClientId>, clients: map<ClientId, Client>, held: multiset<Url>,
                         calls: map<CallId, Phase>, next: nat)

  const EMPTY := State(map[], map[], multiset{}, map[], 0)

  datatype Op =
    | LookAcquire(c: CallId, u: Url)
    | CountAcquire(c: CallId)
    | Undo(c: CallId)     // the context is done
    | Return(c: CallId)   // it is not: the caller gets the connection
    | LookRelease(c: CallId, u: Url)
    | CountRelease(c: CallId)
    | Add(u: Url)
    | Remove(u: Url)

  function Count(s: State, g: ClientId, n: int): State {
    if g in s.clients then s.(clients := s.clients[g := s.clients[g].(count := s.clients[g].count + n)]) else s
  }

  function Lookup(s: State, u: Url): Option<ClientId> {
    if u in s.pool then Some(s.pool[u]) else None
  }

  /** What a call does once it has its client. */
  function Proceed(s: State, op: Op, x: Phase): Option<State> {
    match op
    case CountAcquire(c) =>
      if x.Acquiring? then Some(Count(s, x.client, 1).(calls := s.calls[c := Counted(x.url, x.client)])) else None
    case Undo(c) =>
      if x.Counted? then Some(Count(s, x.client, -1).(calls := s.calls - {c})) else None
    case Return(c) =>
      if x.Counted? then Some(s.(calls := s.calls - {c}, held := s.held + multiset{x.url})) else None
    case CountRelease(c) =>
      if x.Releasing? then
        Some((if x.found.Some? then Count(s, x.found.value, -1) else s).(calls := s.calls - {c}))
      else None
    case _ => None
  }

  /** A connection is released at most once: `LookRelease` takes it out of its caller's hands. */
  function Step(s: State, op: Op): Option<State> {
    match op
    case LookAcquire(c, u) =>
      if c !in s.calls && u in s.pool then Some(s.(calls := s.calls[c := Acquiring(u, s.pool[u])])) else None
    case LookRelease(c, u) =>
      if c !in s.calls && u in s.held then
        Some(s.(calls := s.calls[c := Releasing(u, Lookup(s, u))], held := s.held - multiset{u}))
      else None
    case Add(u) =>
      Some(s.(pool := s.pool[u := s.next], clients := s.clients[s.next := Client(u, 0)], next := s.next + 1))
    case Remove(u) => Some(s.(pool := s.pool - {u}))
    case _ => if op.c in s.calls then Proceed(s, op, s.calls[op.c]) else None
  }

  function Exec(ops: seq<Op>): Option<State> {
    if ops == [] then Some(EMPTY)
    else
      match Exec(ops[..|ops| - 1])
      case None => None
      case Some(s) => Step(s, ops[|ops| - 1])
  }

  // -------------------------------------------------------------------------
  // Live connections, and the moves that miss
  // -------------------------------------------------------------------------

  predicate InUse(x: Phase, u: Url) {
    x.url == u && !x.Acquiring?
  }

  function CallsInUse(s: State, u: Url): set<CallId> {
    set c | c in s.calls && InUse(s.calls[c], u)
  }

  /** The connections to `u` that have been counted and not yet taken back. */
  function Live(s: State, u: Url): nat {
    s.held[u] + |CallsInUse(s, u)|
  }

  /** The counter that `Inflight` reports. */
  function Counter(s: State, u: Url): int {
    if u in s.pool && s.pool[u] in s.clients then s.clients[s.pool[u]].count else 0
  }

  predicate Increments(s: State, op: Op, u: Url) {
    op.CountAcquire? && op.c in s.calls && s.calls[op.c].Acquiring? && s.calls[op.c].url == u
  }

  predicate Decrements(s: State, op: Op, u: Url) {
    || (op.CountRelease? && op.c in s.calls && s.calls[op.c].Releasing? && s.calls[op.c].url == u)
    || (op.Undo? && op.c in s.calls && s.calls[op.c].Counted? && s.calls[op.c].url == u)
  }

  /** The client whose counter a call is going to move. */
  function Target(x: Phase): Option<ClientId> {
    if x.Releasing? then x.found else Some(x.client)
  }

  /** An increment for `u` that goes to a client no longer in the pool. */
  predicate MissesAcquire(s: State, op: Op, u: Url) {
    Increments(s, op, u) && Lookup(s, u) != Target(s.calls[op.c])
  }

  /** A decrement for `u` that goes to such a client, or to none. */
  predicate MissesRelease(s: State, op: Op, u: Url) {
    Decrements(s, op, u) && Lookup(s, u) != Target(s.calls[op.c])
  }

  /** What is known of the moves of `u` since it was last added. */
  datatype Since = Since(base: nat, missedAcquires: nat, missedReleases: nat)

  function SinceLastAdd(ops: seq<Op>, u: Url): Since {
    if ops == [] then Since(0, 0, 0)
    else
      var init, op := ops[..|ops| - 1], ops[|ops| - 1];
      match Exec(init)
      case None => Since(0, 0, 0)
      case Some(s) =>
        if op == Add(u) then Since(Live(s, u), 0, 0)
        else
          var d := SinceLastAdd(init, u);
          d.(missedAcquires := d.missedAcquires + One(MissesAcquire(s, op, u)),
             missedReleases := d.missedReleases + One(MissesRelease(s, op, u)))
  }

  // -------------------------------------------------------------------------
  // The law
  // -------------------------------------------------------------------------

  /** Every client belongs to one URL, and every call that has a client has one of its own URL. */
  ghost predicate Inv(s: State) {
    && (forall g :: g in s.clients ==> g < s.next)
    && (forall u :: u in s.pool ==> s.pool[u] in s.clients && s.clients[s.pool[u]].url == u)
    && (forall c :: c in s.calls ==> HasClient(s, s.calls[c]))
  }

  predicate HasClient(s: State, x: Phase) {
    Target(x).Some? ==> Target(x).value in s.clients && s.clients[Target(x).value].url == x.url
  }

  lemma LookKeepsInv(s: State, op: Op)
    requires Inv(s) && (op.LookAcquire? || op.LookRelease?) && Step(s, op).Some?
    ensures Inv(Step(s, op).value)
  {
  }

  lemma EditKeepsInv(s: State, op: Op)
    requires Inv(s) && (op.Add? || op.Remove?)
    ensures Inv(Step(s, op).value)
  {
  }

  lemma ProceedKeepsInv(s: State, op: Op, x: Phase)
    requires Inv(s) && HasClient(s, x) && Proceed(s, op, x).Some?
    ensures Inv(Proceed(s, op, x).value)
  {
  }

  lemma StepKeepsInv(s: State, op: Op)
    requires Inv(s) && Step(s, op).Some?
    ensures Inv(Step(s, op).value)
  {
    if op.LookAcquire? || op.LookRelease? {
      LookKeepsInv(s, op);
    } else if op.Add? || op.Remove? {
      EditKeepsInv(s, op);
    } else {
      ProceedKeepsInv(s, op, s.calls[op.c]);
    }
  }

  lemma {:induction false} ReachableInv(ops: seq<Op>)
    requires Exec(ops).Some?
    ensures Inv(Exec(ops).value)
  {
    if ops != [] {
      ReachableInv(ops[..|ops| - 1]);
      StepKeepsInv(Exec(ops[..|ops| - 1]).value, ops[|ops| - 1]);
    }
  }

  lemma CallsAfter(s: State, t: State, c: CallId, u: Url)
    requires t.calls - {c} == s.calls - {c}
    ensures |CallsInUse(t, u)| == |CallsInUse(s, u)| - One(c in s.calls && InUse(s.calls[c], u))
                                  + One(c in t.calls && InUse(t.calls[c], u))
  {
    forall d | d != c ensures d in CallsInUse(t, u) <==> d in CallsInUse(s, u) {
      assert d in t.calls <==> d in t.calls - {c};
      assert d in s.calls <==> d in s.calls - {c};
      if d in s.calls && d in t.calls {
        assert (t.calls - {c})[d] == (s.calls - {c})[d];
      }
    }
    assert CallsInUse(t, u) - {c} == CallsInUse(s, u) - {c};
    CountChange(CallsInUse(s, u), CallsInUse(t, u), c);
  }

  lemma LiveMoves(s: State, op: Op, u: Url)
    requires Step(s, op).Some? && !op.Add? && !op.Remove?
    ensures Live(Step(s, op).value, u) == Live(s, u) + One(Increments(s, op, u)) - One(Decrements(s, op, u))
  {
    OnlyItsCall(s, op);
    CallsAfter(s, Step(s, op).value, op.c, u);
  }

  lemma OnlyItsCall(s: State, op: Op)
    requires Step(s, op).Some? && !op.Add? && !op.Remove?
    ensures Step(s, op).value.calls - {op.c} == s.calls - {op.c}
  {
  }

  lemma CounterMoves(s: State, op: Op, u: Url)
    requires Inv(s) && Step(s, op).Some? && u in s.pool && !op.Add? && !op.Remove?
    ensures var t := Step(s, op).value;
      && t.pool == s.pool
      && Counter(t, u) == Counter(s, u) + One(Increments(s, op, u)) - One(MissesAcquire(s, op, u))
                          - One(Decrements(s, op, u)) + One(MissesRelease(s, op, u))
  {
    if op.c in s.calls {
      assert HasClient(s, s.calls[op.c]);
    }
  }

  lemma EditMoves(s: State, op: Op, u: Url)
    requires Inv(s) && (op.Add? || op.Remove?) && op != Add(u) && u in Step(s, op).value.pool
    ensures var t := Step(s, op).value;
      u in s.pool && t.pool[u] == s.pool[u] && Counter(t, u) == Counter(s, u) && Live(t, u) == Live(s, u)
  {
    assert CallsInUse(Step(s, op).value, u) == CallsInUse(s, u);
  }

  /**
   Over every interleaving a pooled server's counter is its live connections minus those
   live at its last add, minus the increments and plus the decrements that have gone to a
   replaced client since.
   */
  lemma {:induction false} CounterLaw(ops: seq<Op>, u: Url)
    requires Exec(ops).Some? && u in Exec(ops).value.pool
    ensures var s, d := Exec(ops).value, SinceLastAdd(ops, u);
      Counter(s, u) == Live(s, u) - d.base - d.missedAcquires + d.missedReleases
  {
    var init, op := ops[..|ops| - 1], ops[|ops| - 1];
    var s := Exec(init).value;
    ReachableInv(init);
    if op == Add(u) {
      assert CallsInUse(Step(s, op).value, u) == CallsInUse(s, u);
    } else if op.Add? || op.Remove? {
      EditMoves(s, op, u);
      CounterLaw(init, u);
    } else {
      CounterMoves(s, op, u);
      LiveMoves(s, op, u);
      CounterLaw(init, u);
    }
  }

  /** The counter is live minus base exactly when as many decrements as increments have missed it. */
  lemma CounterIsLiveMinusBaseIffMissesBalance(ops: seq<Op>, u: Url)
    requires Exec(ops).Some? && u in Exec(ops).value.pool
    ensures var s, d := Exec(ops).value, SinceLastAdd(ops, u);
      Counter(s, u) + d.base == Live(s, u) <==> d.missedAcquires == d.missedReleases
  {
    CounterLaw(ops, u);
  }

  // -------------------------------------------------------------------------
  // Adds that no call straddles
  // -------------------------------------------------------------------------

  predicate NoCallOn(s: State, u: Url) {
    forall c :: c in s.calls ==> s.calls[c].url != u
  }

  /** When `u` was last added, no call on it was between its lookup and its end. */
  predicate AddedQuietly(ops: seq<Op>, u: Url) {
    ops == [] ||
    var init := ops[..|ops| - 1];
    if ops[|ops| - 1] == Add(u) then Exec(init).Some? && NoCallOn(Exec(init).value, u) else AddedQuietly(init, u)
  }

  predicate OnCurrent(s: State, u: Url) {
    u in s.pool && forall c :: c in s.calls && s.calls[c].url == u ==> Target(s.calls[c]) == Some(s.pool[u])
  }

  lemma StepKeepsCurrent(s: State, op: Op, u: Url)
    requires Step(s, op).Some? && op != Add(u) && u in Step(s, op).value.pool && OnCurrent(s, u)
    ensures OnCurrent(Step(s, op).value, u) && !MissesAcquire(s, op, u) && !MissesRelease(s, op, u)
  {
  }

  lemma PooledBefore(s: State, op: Op, u: Url)
    requires Step(s, op).Some? && op != Add(u) && u in Step(s, op).value.pool
    ensures u in s.pool
  {
  }

  /** Then nothing misses, and the counter is the live connections minus those live at the add. */
  lemma {:induction false} QuietAddMissesNothing(ops: seq<Op>, u: Url)
    requires Exec(ops).Some? && u in Exec(ops).value.pool && AddedQuietly(ops, u)
    ensures OnCurrent(Exec(ops).value, u)
    ensures SinceLastAdd(ops, u).missedAcquires == SinceLastAdd(ops, u).missedReleases == 0
    ensures Counter(Exec(ops).value, u) == Live(Exec(ops).value, u) - SinceLastAdd(ops, u).base
  {
    var init, op := ops[..|ops| - 1], ops[|ops| - 1];
    var s := Exec(init).value;
    if op != Add(u) {
      PooledBefore(s, op, u);
      QuietAddMissesNothing(init, u);
      StepKeepsCurrent(s, op, u);
    }
    CounterLaw(ops, u);
  }

  // -------------------------------------------------------------------------
  // Adds that a call straddles
  // -------------------------------------------------------------------------

  lemma Extend(run: seq<Op>, s: State, op: Op, u: Url) returns (longer: seq<Op>, t: State)
    requires Exec(run) == Some(s) && Step(s, op).Some?
    ensures longer == run + [op] && t == Step(s, op).value && Exec(longer) == Some(t)
    ensures var d := SinceLastAdd(run, u);
      SinceLastAdd(longer, u)
      == if op == Add(u) then Since(Live(s, u), 0, 0)
         else Since(d.base, d.missedAcquires + One(MissesAcquire(s, op, u)),
                    d.missedReleases + One(MissesRelease(s, op, u)))
  {
    longer, t := run + [op], Step(s, op).value;
    assert longer[..|run|] == run;
  }

  /** An acquire that straddles an add: its connection is never counted. */
  lemma AcquireAcrossAdd(u: Url) returns (ops: seq<Op>, s: State)
    ensures Exec(ops) == Some(s) && s.calls == map[] && s.held == multiset{u}
    ensures u in s.pool && Counter(s, u) == 0 && SinceLastAdd(ops, u) == Since(0, 1, 0)
  {
    ops, s := OneLookup(u);
    assert CallsInUse(s, u) == {};
    ops, s := Extend(ops, s, Add(u), u);
    assert s.calls == map[0 := Acquiring(u, 0)] && Lookup(s, u) == Some(1);
    ops, s := Extend(ops, s, CountAcquire(0), u);
    assert s.calls == map[0 := Counted(u, 0)];
    ops, s := Extend(ops, s, Return(0), u);
  }

  lemma OneLookup(u: Url) returns (ops: seq<Op>, s: State)
    ensures Exec(ops) == Some(s)
    ensures s == State(map[u := 0], map[0 := Client(u, 0)], multiset{}, map[0 := Acquiring(u, 0)], 1)
  {
    ops, s := Extend([], EMPTY, Add(u), u);
    ops, s := Extend(ops, s, LookAcquire(0, u), u);
  }

  /** A release that straddles an add: the counter stays above live minus base. */
  lemma ReleaseAcrossAdd(u: Url) returns (ops: seq<Op>, s: State)
    ensures Exec(ops) == Some(s) && s.calls == map[] && s.held == multiset{}
    ensures u in s.pool && Counter(s, u) == 0 && SinceLastAdd(ops, u) == Since(1, 0, 1)
  {
    ops, s := OneConnection(u);
    ops, s := Extend(ops, s, LookRelease(1, u), u);
    assert CallsInUse(s, u) == {1};
    ops, s := Extend(ops, s, Add(u), u);
    assert s.calls == map[1 := Releasing(u, Some(0))] && Lookup(s, u) == Some(1);
    ops, s := Extend(ops, s, CountRelease(1), u);
  }

  lemma OneConnection(u: Url) returns (ops: seq<Op>, s: State)
    ensures Exec(ops) == Some(s)
    ensures s == State(map[u := 0], map[0 := Client(u, 1)], multiset{u}, map[], 1)
  {
    ops, s := OneLookup(u);
    ops, s := Extend(ops, s, CountAcquire(0), u);
    assert s.clients == map[0 := Client(u, 1)] && s.calls == map[0 := Counted(u, 0)];
    ops, s := Extend(ops, s, Return(0), u);
  }
}
