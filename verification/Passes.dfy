/**
 One pass over the waiting requests (`processQueue`, router/queue.go) as functions on
 values, and what a whole pass guarantees: order per model, no idle room left behind,
 exact accounting of slots.
 */
module Passes {
  import opened Common
  import opened Backend
  import opened Index
  import opened Selection

  /** What a pass looks at in a queued item; `live` is the state of its context. */
  datatype Queued = Queued(model: Model, deadline: int, live: bool)

  /** How one item fares in a pass: too late, or what `route` decided for it. */
  datatype Fate = Expired | Tried(decision: Decision) {
    predicate Served() {
      Tried? && decision.Granted?
    }

    predicate Kept() {
      Tried? && !decision.Granted?
    }
  }

  /** What stays fixed during a pass: discovery, the sort and the strategy. */
  datatype Env = Env(index: Index, sorter: Sorter, strategy: Strategy)

  /** What a pass changes outside the queue. */
  datatype Load = Load(slots: Slots, rr: map<Model, nat>)

  ghost predicate ValidEnv(env: Env) {
    IsSorter(env.sorter)
  }

  ghost function Attempt(env: Env, l: Load, w: Queued): Outcome
    requires ValidEnv(env)
  {
    RouteStep(ServersFor(env.index, w.model), l.slots, l.rr, env.sorter, env.strategy, w.live, w.model, false)
  }

  ghost function FateNow(env: Env, l: Load, w: Queued, now: int): Fate
    requires ValidEnv(env)
  {
    if now > w.deadline then Expired else Tried(Attempt(env, l, w).decision)
  }

  ghost function LoadNext(env: Env, l: Load, w: Queued, now: int): Load
    requires ValidEnv(env)
  {
    if now > w.deadline then l else Load(Attempt(env, l, w).slots, Attempt(env, l, w).rr)
  }

  ghost predicate IsRound(env: Env, l: Load, w: Queued, now: int, next: Load, fate: Fate) {
    ValidEnv(env) && next == LoadNext(env, l, w, now) && fate == FateNow(env, l, w, now)
  }

  ghost predicate RoundAt(env: Env, items: seq<Queued>, now: int, loads: seq<Load>, fates: seq<Fate>, i: int)
    requires 0 <= i < |items| && |loads| == |items| + 1 && |fates| == |items|
  {
    IsRound(env, loads[i], items[i], now, loads[i + 1], fates[i])
  }

  ghost predicate AllRounds(env: Env, items: seq<Queued>, now: int, loads: seq<Load>, fates: seq<Fate>) {
    && |loads| == |items| + 1 && |fates| == |items|
    && forall i {:trigger RoundAt(env, items, now, loads, fates, i)} ::
         0 <= i < |items| ==> RoundAt(env, items, now, loads, fates, i)
  }

  /** The load after the items before position `n` have been handled. */
  ghost function LoadAt(env: Env, l: Load, items: seq<Queued>, now: int, n: nat): Load
    requires ValidEnv(env) && n <= |items|
  {
    if n == 0 then l else LoadNext(env, LoadAt(env, l, items, now, n - 1), items[n - 1], now)
  }

  ghost function FateOf(env: Env, l: Load, items: seq<Queued>, now: int, i: nat): Fate
    requires ValidEnv(env) && i < |items|
  {
    FateNow(env, LoadAt(env, l, items, now, i), items[i], now)
  }

  ghost function Fates(env: Env, l: Load, items: seq<Queued>, now: int): (fs: seq<Fate>)
    requires ValidEnv(env)
    ensures |fs| == |items|
  {
    seq(|items|, i requires 0 <= i < |items| => FateOf(env, l, items, now, i))
  }

  /** The items among the first `n` that a pass leaves in the queue. */
  function KeptOf<T>(items: seq<T>, fates: seq<Fate>, n: nat): seq<T>
    requires n <= |items| == |fates|
  {
    if n == 0 then []
    else KeptOf(items, fates, n - 1) + if fates[n - 1].Kept() then [items[n - 1]] else []
  }

  /** The loads before each item and after the last one. */
  ghost function Loads(env: Env, l: Load, items: seq<Queued>, now: int): (ls: seq<Load>)
    requires ValidEnv(env)
    ensures |ls| == |items| + 1
  {
    seq(|items| + 1, i requires 0 <= i < |items| + 1 => LoadAt(env, l, items, now, i))
  }

  lemma PassIsRounds(env: Env, l: Load, items: seq<Queued>, now: int)
    requires ValidEnv(env)
    ensures Loads(env, l, items, now)[0] == l
    ensures AllRounds(env, items, now, Loads(env, l, items, now), Fates(env, l, items, now))
  {
  }

  lemma {:induction false} KeptDistinct<T>(items: seq<T>, fates: seq<Fate>, n: nat)
    requires n <= |items| == |fates|
    requires Distinct(items)
    ensures forall x :: x in KeptOf(items, fates, n) ==> exists k :: 0 <= k < n && items[k] == x && fates[k].Kept()
    ensures Distinct(KeptOf(items, fates, n))
  {
    if n > 0 {
      KeptDistinct(items, fates, n - 1);
      var kept := KeptOf(items, fates, n - 1);
      assert forall i :: 0 <= i < |kept| ==> kept[i] in kept;
    }
  }

  // -------------------------------------------------------------------------
  // Counters only rise during a pass
  // -------------------------------------------------------------------------

  ghost predicate Risen(before: Slots, after: Slots) {
    && before.Keys == after.Keys
    && forall u :: u in before ==> after[u].server == before[u].server && after[u].inflight >= before[u].inflight
  }

  lemma NextRises(env: Env, l: Load, w: Queued, now: int)
    requires ValidEnv(env)
    ensures Risen(l.slots, LoadNext(env, l, w, now).slots)
  {
    RouteMovesOneCounter(ServersFor(env.index, w.model), l.slots, l.rr, env.sorter, env.strategy,
                         w.live, w.model, false);
  }

  lemma {:induction false} LoadRises(env: Env, l: Load, items: seq<Queued>, now: int, i: nat, j: nat)
    requires ValidEnv(env) && i <= j <= |items|
    ensures Risen(LoadAt(env, l, items, now, i).slots, LoadAt(env, l, items, now, j).slots)
    decreases j
  {
    if i < j {
      LoadRises(env, l, items, now, i, j - 1);
      NextRises(env, LoadAt(env, l, items, now, j - 1), items[j - 1], now);
    }
  }

  /** A live, unexpired item is kept only if no candidate of its model had room. */
  lemma KeptMeansFull(env: Env, l: Load, w: Queued, now: int)
    requires ValidEnv(env) && w.live && now <= w.deadline
    ensures FateNow(env, l, w, now).Kept() <==>
      NoCandidateHasRoom(ServersFor(env.index, w.model), l.slots)
      && (env.strategy == BestEffort ==> forall u :: !Candidate(ServersFor(env.index, w.model), l.slots, u))
  {
    RouteRefinesNearest(ServersFor(env.index, w.model), l.slots, l.rr, env.sorter, env.strategy, w.model, false);
  }

  lemma FullStaysFull(env: Env, before: Slots, after: Slots, m: Model)
    requires Risen(before, after)
    requires NoCandidateHasRoom(ServersFor(env.index, m), before)
    ensures NoCandidateHasRoom(ServersFor(env.index, m), after)
    ensures (forall u :: !Candidate(ServersFor(env.index, m), before, u))
            ==> forall u :: !Candidate(ServersFor(env.index, m), after, u)
  {
    var servers := ServersFor(env.index, m);
    assert forall u :: Candidate(servers, after, u) ==> Candidate(servers, before, u);
    forall u | Candidate(servers, after, u) ensures !after[u].HasRoom() {
      assert Candidate(servers, before, u);
    }
  }

  // -------------------------------------------------------------------------
  // Order and work conservation
  // -------------------------------------------------------------------------

  /**
   Per model, and among items that are live and unexpired, the served ones are a prefix in
   arrival order: an item is not served if an earlier one of its model was kept.
   */
  lemma GrantsArePrefixPerModel(env: Env, l: Load, items: seq<Queued>, now: int, i: nat, j: nat)
    requires ValidEnv(env) && i < j < |items| && items[i].model == items[j].model
    requires items[i].live && now <= items[i].deadline
    requires FateOf(env, l, items, now, j).Served()
    ensures FateOf(env, l, items, now, i).Served()
  {
    var m := items[i].model;
    var li, lj := LoadAt(env, l, items, now, i), LoadAt(env, l, items, now, j);
    LoadRises(env, l, items, now, i, j);
    if FateOf(env, l, items, now, i).Kept() {
      KeptMeansFull(env, li, items[i], now);
      FullStaysFull(env, li.slots, lj.slots, m);
      DoneIsNotServed(env, lj, items[j], now);
      KeptMeansFull(env, lj, items[j], now);
    }
  }

  lemma DoneIsNotServed(env: Env, l: Load, w: Queued, now: int)
    requires ValidEnv(env)
    ensures FateNow(env, l, w, now).Served() ==> w.live && now <= w.deadline
  {
    RouteMovesOneCounter(ServersFor(env.index, w.model), l.slots, l.rr, env.sorter, env.strategy,
                         w.live, w.model, false);
  }

  /** At the end of the pass no live item is left waiting beside a candidate with room. */
  lemma PassIsWorkConserving(env: Env, l: Load, items: seq<Queued>, now: int, i: nat)
    requires ValidEnv(env) && i < |items|
    requires items[i].live && FateOf(env, l, items, now, i).Kept()
    ensures NoCandidateHasRoom(ServersFor(env.index, items[i].model), LoadAt(env, l, items, now, |items|).slots)
  {
    var li := LoadAt(env, l, items, now, i);
    KeptMeansFull(env, li, items[i], now);
    LoadRises(env, l, items, now, i, |items|);
    FullStaysFull(env, li.slots, LoadAt(env, l, items, now, |items|).slots, items[i].model);
  }

  /** Nor would a fresh request of its model be served then, under the same discovery state and strategy. */
  lemma KeptMeansNoneFresh(env: Env, l: Load, items: seq<Queued>, now: int, i: nat, rr: map<Model, nat>)
    requires ValidEnv(env) && i < |items|
    requires items[i].live && FateOf(env, l, items, now, i).Kept()
    ensures var m := items[i].model;
      !RouteStep(ServersFor(env.index, m), LoadAt(env, l, items, now, |items|).slots, rr, env.sorter, env.strategy,
                 true, m, true).decision.Granted?
  {
    var servers, m := ServersFor(env.index, items[i].model), items[i].model;
    var li, after := LoadAt(env, l, items, now, i), LoadAt(env, l, items, now, |items|).slots;
    KeptMeansFull(env, li, items[i], now);
    LoadRises(env, l, items, now, i, |items|);
    FullStaysFull(env, li.slots, after, m);
    RouteRefinesNearest(servers, after, rr, env.sorter, env.strategy, m, true);
  }

  /** A grant goes to a live item whose deadline has not passed, on a candidate of its model. */
  lemma ServedMeansOnTime(env: Env, l: Load, items: seq<Queued>, now: int, i: nat)
    requires ValidEnv(env) && i < |items|
    ensures FateOf(env, l, items, now, i).Expired? <==> items[i].deadline < now
    ensures FateOf(env, l, items, now, i).Served() ==>
      && items[i].live && now <= items[i].deadline
      && Candidate(ServersFor(env.index, items[i].model), l.slots, FateOf(env, l, items, now, i).decision.url)
  {
    var li := LoadAt(env, l, items, now, i);
    LoadRises(env, l, items, now, 0, i);
    RouteMovesOneCounter(ServersFor(env.index, items[i].model), li.slots, li.rr, env.sorter, env.strategy,
                         items[i].live, items[i].model, false);
  }

  // -------------------------------------------------------------------------
  // Accounting
  // -------------------------------------------------------------------------

  /** How many of the first `n` items were served by `u`. */
  ghost function ServedBy(env: Env, l: Load, items: seq<Queued>, now: int, n: nat, u: Url): nat
    requires ValidEnv(env) && n <= |items|
  {
    if n == 0 then 0
    else ServedBy(env, l, items, now, n - 1, u)
         + if FateOf(env, l, items, now, n - 1) == Tried(Granted(u)) then 1 else 0
  }

  /** Every counter rises by exactly the number of connections handed out on it. */
  lemma {:induction false} PassAccountsForSlots(env: Env, l: Load, items: seq<Queued>, now: int, n: nat, u: Url)
    requires ValidEnv(env) && n <= |items| && u in l.slots
    ensures u in LoadAt(env, l, items, now, n).slots
    ensures LoadAt(env, l, items, now, n).slots[u]
         == l.slots[u].(inflight := l.slots[u].inflight + ServedBy(env, l, items, now, n, u))
  {
    if n > 0 {
      PassAccountsForSlots(env, l, items, now, n - 1, u);
      var before, w := LoadAt(env, l, items, now, n - 1), items[n - 1];
      RouteMovesOneCounter(ServersFor(env.index, w.model), before.slots, before.rr, env.sorter, env.strategy,
                           w.live, w.model, false);
    }
  }

  /** Without best effort a pass takes no counter above its limit. */
  lemma {:induction false} PassRespectsLimits(env: Env, l: Load, items: seq<Queued>, now: int, n: nat, u: Url)
    requires ValidEnv(env) && n <= |items| && u in l.slots && env.strategy != BestEffort
    requires l.slots[u].inflight <= l.slots[u].server.maxConn
    ensures u in LoadAt(env, l, items, now, n).slots
    ensures LoadAt(env, l, items, now, n).slots[u].inflight <= l.slots[u].server.maxConn
    ensures LoadAt(env, l, items, now, n).slots[u].server == l.slots[u].server
  {
    if n > 0 {
      PassRespectsLimits(env, l, items, now, n - 1, u);
      var before, w := LoadAt(env, l, items, now, n - 1), items[n - 1];
      RouteMovesOneCounter(ServersFor(env.index, w.model), before.slots, before.rr, env.sorter, env.strategy,
                           w.live, w.model, false);
    }
  }

  /** The positions of the kept items, in order. */
  function KeptPositions(fates: seq<Fate>, n: nat): (at: seq<nat>)
    requires n <= |fates|
    ensures forall k :: 0 <= k < |at| ==> at[k] < n && fates[at[k]].Kept()
    ensures forall j, k :: 0 <= j < k < |at| ==> at[j] < at[k]
  {
    if n == 0 then []
    else KeptPositions(fates, n - 1) + if fates[n - 1].Kept() then [n - 1] else []
  }

  lemma {:induction false} KeptPositionsComplete(fates: seq<Fate>, n: nat, i: nat)
    requires i < n <= |fates| && fates[i].Kept()
    ensures i in KeptPositions(fates, n)
  {
    if i == n - 1 {
      assert KeptPositions(fates, n)[|KeptPositions(fates, n - 1)|] == i;
    } else {
      KeptPositionsComplete(fates, n - 1, i);
    }
  }

  /** The queue after a pass is a subsequence of the queue before it, made of exactly the kept items. */
  lemma {:induction false} KeptIsSubsequence<T>(items: seq<T>, fates: seq<Fate>, n: nat)
    requires n <= |items| == |fates|
    ensures |KeptOf(items, fates, n)| == |KeptPositions(fates, n)|
    ensures forall k :: 0 <= k < |KeptPositions(fates, n)| ==>
      KeptOf(items, fates, n)[k] == items[KeptPositions(fates, n)[k]]
  {
    if n > 0 {
      KeptIsSubsequence(items, fates, n - 1);
    }
  }
}
