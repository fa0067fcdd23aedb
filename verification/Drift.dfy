/**
 What a pool counter means over a whole run of `Acquire`, `Release`, `AddServer`
 and `RemoveServer` (backend/backend.go), each taken as one atomic step. A counter
 is not the number of live connections: `AddServer` installs a zero counter while
 connections of the replaced client are still open. The counter is the number of
 live connections minus those that were live at the last `AddServer`.
 */
module Drift {
  import opened Common
  import opened Backend
  import opened Selection

  datatype Op =
    | Acquire(id: Url, done: bool)
    | Release(conn: Conn)
    | Add(cfg: ServerConfig)
    | Remove(id: Url)

  /** `live` counts, per URL, the connections handed out and not yet released. */
  datatype State = State(slots: Slots, live: multiset<Url>)

  const EMPTY := State(map[], multiset{})

  /** A connection is released at most once: only a live one can be. */
  predicate Enabled(s: State, op: Op) {
    op.Release? ==> op.conn.serverId in s.live
  }

  function Step(s: State, op: Op): State {
    match op
    case Acquire(id, done) =>
      if id in s.slots && !done then State(Bump(s.slots, id, 1), s.live + multiset{id}) else s
    case Release(conn) => State(Bump(s.slots, conn.serverId, -1), s.live - multiset{conn.serverId})
    case Add(cfg) => s.(slots := Install(s.slots, cfg))
    case Remove(id) => s.(slots := s.slots - {id})
  }

  function Exec(ops: seq<Op>): State {
    if ops == [] then EMPTY else Step(Exec(ops[..|ops| - 1]), ops[|ops| - 1])
  }

  predicate Legal(ops: seq<Op>) {
    ops == [] ||
    (Legal(ops[..|ops| - 1]) && Enabled(Exec(ops[..|ops| - 1]), ops[|ops| - 1]))
  }

  predicate Adds(op: Op, u: Url) {
    op.Add? && op.cfg.url == u
  }

  /** The connections to `u` that were live when `u` was last added. */
  function LiveAtLastAdd(ops: seq<Op>, u: Url): nat {
    if ops == [] then 0
    else
      var init := ops[..|ops| - 1];
      if Adds(ops[|ops| - 1], u) then Exec(init).live[u] else LiveAtLastAdd(init, u)
  }

  /** One step other than an add of `u` moves its counter and its live count together. */
  lemma StepKeepsDrift(s: State, op: Op, u: Url)
    requires Enabled(s, op) && !Adds(op, u) && u in Step(s, op).slots
    ensures u in s.slots && Step(s, op).slots[u].server == s.slots[u].server
    ensures Step(s, op).slots[u].inflight - Step(s, op).live[u]
         == s.slots[u].inflight - s.live[u]
  {
  }

  /** The drift law: no run makes a pooled counter anything else. */
  lemma {:induction false} CounterIsLiveMinusBase(ops: seq<Op>, u: Url)
    requires Legal(ops) && u in Exec(ops).slots
    ensures Exec(ops).slots[u].inflight == Exec(ops).live[u] - LiveAtLastAdd(ops, u)
  {
    if ops != [] {
      var init, op := ops[..|ops| - 1], ops[|ops| - 1];
      if !Adds(op, u) {
        StepKeepsDrift(Exec(init), op, u);
        CounterIsLiveMinusBase(init, u);
      }
    }
  }

  /** The counter is the number of live connections exactly when the server was last added idle. */
  lemma CounterIsExactIffAddedIdle(ops: seq<Op>, u: Url)
    requires Legal(ops) && u in Exec(ops).slots
    ensures Exec(ops).slots[u].inflight == Exec(ops).live[u] <==> LiveAtLastAdd(ops, u) == 0
  {
    CounterIsLiveMinusBase(ops, u);
  }

  /**
   Every successful acquire of `u` since its last `AddServer` found the counter below
   the limit, as the tier scan of a sequential `route` guarantees.
   */
  predicate CheckedSinceAdd(ops: seq<Op>, u: Url) {
    ops == [] ||
    var init, op := ops[..|ops| - 1], ops[|ops| - 1];
    Adds(op, u)
    || (CheckedSinceAdd(init, u)
        && (op.Acquire? && op.id == u && !op.done && u in Exec(init).slots
            ==> Exec(init).slots[u].HasRoom()))
  }

  lemma {:induction false} CheckedCounterWithinLimit(ops: seq<Op>, u: Url)
    requires u in Exec(ops).slots && CheckedSinceAdd(ops, u)
    requires Exec(ops).slots[u].server.maxConn >= 0
    ensures Exec(ops).slots[u].inflight <= Exec(ops).slots[u].server.maxConn
  {
    if ops != [] {
      var init, op := ops[..|ops| - 1], ops[|ops| - 1];
      if !Adds(op, u) {
        CheckedCounterWithinLimit(init, u);
      }
    }
  }

  /** Real connections may exceed the limit, but only by those open at the last re-add. */
  lemma LiveWithinLimitPlusBase(ops: seq<Op>, u: Url)
    requires Legal(ops) && u in Exec(ops).slots && CheckedSinceAdd(ops, u)
    requires Exec(ops).slots[u].server.maxConn >= 0
    ensures Exec(ops).live[u] <= Exec(ops).slots[u].server.maxConn + LiveAtLastAdd(ops, u)
  {
    CounterIsLiveMinusBase(ops, u);
    CheckedCounterWithinLimit(ops, u);
  }

  lemma RunOn(ops: seq<Op>, op: Op, u: Url)
    requires Legal(ops) && Enabled(Exec(ops), op)
    ensures Legal(ops + [op]) && Exec(ops + [op]) == Step(Exec(ops), op)
    ensures CheckedSinceAdd(ops, u) && !(op.Acquire? && !(u in Exec(ops).slots && Exec(ops).slots[u].HasRoom()))
            ==> CheckedSinceAdd(ops + [op], u)
  {
  }

  // -------------------------------------------------------------------------
  // Sequential routing
  // -------------------------------------------------------------------------

  /** A live `route` without best effort, called on these counters, grants `u`. */
  ghost predicate RouteGrants(slots: Slots, u: Url) {
    exists servers, rr, f, strategy, m, allowQueue ::
      && IsSorter(f) && strategy != BestEffort
      && RouteStep(servers, slots, rr, f, strategy, true, m, allowQueue).decision == Granted(u)
  }

  /** Every connection to `u` since its last `AddServer` was granted by such a call. */
  ghost predicate RoutedSinceAdd(ops: seq<Op>, u: Url) {
    ops == [] ||
    var init, op := ops[..|ops| - 1], ops[|ops| - 1];
    Adds(op, u)
    || (RoutedSinceAdd(init, u)
        && (op.Acquire? && op.id == u && !op.done && u in Exec(init).slots ==> RouteGrants(Exec(init).slots, u)))
  }

  lemma GrantFindsRoom(slots: Slots, u: Url)
    requires RouteGrants(slots, u)
    ensures u in slots && slots[u].HasRoom()
  {
    var servers, rr, f, strategy, m, allowQueue :|
      && IsSorter(f) && strategy != BestEffort
      && RouteStep(servers, slots, rr, f, strategy, true, m, allowQueue).decision == Granted(u);
    RouteMovesOneCounter(servers, slots, rr, f, strategy, true, m, allowQueue);
  }

  lemma {:induction false} RoutedIsChecked(ops: seq<Op>, u: Url)
    requires RoutedSinceAdd(ops, u)
    ensures CheckedSinceAdd(ops, u)
  {
    if ops != [] {
      var init, op := ops[..|ops| - 1], ops[|ops| - 1];
      if !Adds(op, u) {
        RoutedIsChecked(init, u);
        if RouteGrants(Exec(init).slots, u) {
          GrantFindsRoom(Exec(init).slots, u);
        }
      }
    }
  }

  /**
   Over every run whose connections are granted by sequential routing, the counter stays
   within the limit, and open connections exceed it only by those open at the last add.
   */
  lemma RoutedRunsStayWithinLimit(ops: seq<Op>, u: Url)
    requires Legal(ops) && u in Exec(ops).slots && RoutedSinceAdd(ops, u)
    requires Exec(ops).slots[u].server.maxConn >= 0
    ensures Exec(ops).slots[u].inflight <= Exec(ops).slots[u].server.maxConn
    ensures Exec(ops).live[u] <= Exec(ops).slots[u].server.maxConn + LiveAtLastAdd(ops, u)
  {
    RoutedIsChecked(ops, u);
    CheckedCounterWithinLimit(ops, u);
    LiveWithinLimitPlusBase(ops, u);
  }

  /** A granted `route` is one more step of such a run, and leaves the counters that the run has then. */
  lemma RouteExtendsRun(ops: seq<Op>, u: Url, servers: seq<Url>, rr: map<Model, nat>, f: Sorter,
                        strategy: Strategy, m: Model, allowQueue: bool)
    requires Legal(ops) && RoutedSinceAdd(ops, u) && IsSorter(f) && strategy != BestEffort
    requires RouteStep(servers, Exec(ops).slots, rr, f, strategy, true, m, allowQueue).decision.Granted?
    ensures var o := RouteStep(servers, Exec(ops).slots, rr, f, strategy, true, m, allowQueue);
            var longer := ops + [Acquire(o.decision.url, false)];
      Legal(longer) && RoutedSinceAdd(longer, u) && Exec(longer).slots == o.slots
  {
    var slots := Exec(ops).slots;
    var granted := RouteStep(servers, slots, rr, f, strategy, true, m, allowQueue).decision.url;
    RouteMovesOneCounter(servers, slots, rr, f, strategy, true, m, allowQueue);
    assert RouteGrants(slots, granted);
    assert (ops + [Acquire(granted, false)])[..|ops|] == ops;
  }

  /**
   The excess is real: `syncServers` re-adding a full server of limit 1 lets a checked
   acquire open a second connection, and the two releases then leave the counter at -1.
   */
  lemma ReAddDoublesTheLimit(u: Url) returns (ops: seq<Op>, end: seq<Op>)
    ensures Legal(ops) && CheckedSinceAdd(ops, u) && u in Exec(ops).slots
    ensures Exec(ops).slots[u].server.maxConn == 1 && Exec(ops).live[u] == 2
    ensures Legal(end) && u in Exec(end).slots
    ensures Exec(end).live[u] == 0 && Exec(end).slots[u].inflight == -1
  {
    var cfg := ServerConfig(u, 1, 1);
    ops := [];
    RunOn(ops, Add(cfg), u);
    ops := ops + [Add(cfg)];
    RunOn(ops, Acquire(u, false), u);
    ops := ops + [Acquire(u, false)];
    RunOn(ops, Add(cfg), u);
    ops := ops + [Add(cfg)];
    RunOn(ops, Acquire(u, false), u);
    ops := ops + [Acquire(u, false)];
    RunOn(ops, Release(Conn(u)), u);
    end := ops + [Release(Conn(u))];
    RunOn(end, Release(Conn(u)), u);
    end := end + [Release(Conn(u))];
  }
}
