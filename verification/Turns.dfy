/**
 The round-robin numbers inside a pass (router/queue.go with router/router.go): a pass calls
 `route` once per request in time, so its requests take turns as fresh ones do.
 */
module Turns {
  import opened Common
  import opened Backend
  import opened Index
  import opened Selection
  import opened Passes
  import opened Fairness

  // -------------------------------------------------------------------------
  // One round
  // -------------------------------------------------------------------------

  /** A late request moves neither counters nor numbers. */
  lemma LateMovesNothing(env: Env, l: Load, items: seq<Queued>, now: int, i: nat)
    requires ValidEnv(env) && i < |items| && items[i].deadline < now
    ensures LoadAt(env, l, items, now, i + 1) == LoadAt(env, l, items, now, i)
  {
  }

  /**
   A live request in time that finds room somewhere: its model's number moves one past the
   start of the tier that serves it, and no other number moves.
   */
  lemma ServedMovesNumber(env: Env, l: Load, items: seq<Queued>, now: int, i: nat) returns (g: nat, k: nat)
    requires ValidEnv(env) && i < |items| && items[i].live && now <= items[i].deadline
    requires !NoCandidateHasRoom(ServersFor(env.index, items[i].model), LoadAt(env, l, items, now, i).slots)
    ensures var m, before := items[i].model, LoadAt(env, l, items, now, i);
            var groups := Groups(Sorted(Snapshot(ServersFor(env.index, m), before.slots), env.sorter));
            var start := if g < |groups| then Start(groups, RrOf(before.rr, m), g) else 0;
      && FirstInScanOrder(groups, RrOf(before.rr, m), g, k)
      && FateOf(env, l, items, now, i) == Tried(Granted(groups[g][Cyclic(start, k, |groups[g]|)].url))
      && LoadAt(env, l, items, now, i + 1).rr == before.rr[m := start + 1]
  {
    var m, before := items[i].model, LoadAt(env, l, items, now, i);
    g, k := RouteTakesFirstInCyclicOrder(ServersFor(env.index, m), before.slots, before.rr, env.sorter,
                                         env.strategy, m, false);
  }

  /** `w` has candidates, but is done or finds all of them full. */
  ghost predicate FindsNothing(env: Env, before: Load, w: Queued) {
    var servers := ServersFor(env.index, w.model);
    (!w.live || NoCandidateHasRoom(servers, before.slots)) && exists u :: Candidate(servers, before.slots, u)
  }

  /** The number of `m` is now past the start of the last tier, and no other number moved. */
  ghost predicate PastLastTier(env: Env, before: Load, m: Model, rr: map<Model, nat>)
    requires ValidEnv(env)
  {
    var groups := Groups(Sorted(Snapshot(ServersFor(env.index, m), before.slots), env.sorter));
    groups != [] && rr == before.rr[m := Start(groups, RrOf(before.rr, m), |groups| - 1) + 1]
  }

  /** A request in time that is done, or finds all candidates full: the number moves past the last tier. */
  lemma UnservedMovesNumber(env: Env, l: Load, items: seq<Queued>, now: int, i: nat)
    requires ValidEnv(env) && i < |items| && now <= items[i].deadline
    requires FindsNothing(env, LoadAt(env, l, items, now, i), items[i])
    ensures PastLastTier(env, LoadAt(env, l, items, now, i), items[i].model, LoadAt(env, l, items, now, i + 1).rr)
  {
    UnservedRound(env, LoadAt(env, l, items, now, i), items[i], now);
  }

  lemma UnservedRound(env: Env, before: Load, w: Queued, now: int)
    requires ValidEnv(env) && now <= w.deadline && FindsNothing(env, before, w)
    ensures PastLastTier(env, before, w.model, LoadNext(env, before, w, now).rr)
  {
    RouteMovesNumber(ServersFor(env.index, w.model), before.slots, before.rr, env.sorter, env.strategy, w.live,
                     w.model, false);
  }

  /** A request without candidates moves nothing. */
  lemma NoCandidateMovesNothing(env: Env, l: Load, items: seq<Queued>, now: int, i: nat)
    requires ValidEnv(env) && i < |items|
    requires forall u :: !Candidate(ServersFor(env.index, items[i].model), LoadAt(env, l, items, now, i).slots, u)
    ensures LoadAt(env, l, items, now, i + 1) == LoadAt(env, l, items, now, i)
  {
    var m, before := items[i].model, LoadAt(env, l, items, now, i);
    RouteWithoutCandidates(ServersFor(env.index, m), before.slots, before.rr, env.sorter, env.strategy,
                           items[i].live, m, false);
  }

  /** A pass never parks a request a second time. */
  lemma PassNeverParks(env: Env, l: Load, items: seq<Queued>, now: int, i: nat)
    requires ValidEnv(env) && i < |items|
    ensures FateOf(env, l, items, now, i) != Tried(Park)
  {
    var before := LoadAt(env, l, items, now, i);
    RouteDecides(ServersFor(env.index, items[i].model), before.slots, before.rr, env.sorter, env.strategy,
                 items[i].live, items[i].model, false);
  }

  /** `route` touches the number of its own model only. */
  lemma OtherNumbersStay(servers: seq<Url>, slots: Slots, rr: map<Model, nat>, f: Sorter,
                         strategy: Strategy, live: bool, m: Model, allowQueue: bool, other: Model)
    requires IsSorter(f) && other != m
    ensures RrOf(RouteStep(servers, slots, rr, f, strategy, live, m, allowQueue).rr, other) == RrOf(rr, other)
  {
  }

  // -------------------------------------------------------------------------
  // Turns
  // -------------------------------------------------------------------------

  /** Rounds of other models, and of late requests, leave the model's number alone. */
  lemma {:induction false} NumberStays(env: Env, l: Load, items: seq<Queued>, now: int, i: nat, j: nat, m: Model)
    requires ValidEnv(env) && i <= j <= |items|
    requires forall t :: i <= t < j ==> items[t].model != m || items[t].deadline < now
    ensures RrOf(LoadAt(env, l, items, now, j).rr, m) == RrOf(LoadAt(env, l, items, now, i).rr, m)
  {
    if i < j {
      NumberStays(env, l, items, now, i, j - 1, m);
      var w, before := items[j - 1], LoadAt(env, l, items, now, j - 1);
      if w.deadline >= now {
        OtherNumbersStay(ServersFor(env.index, w.model), before.slots, before.rr, env.sorter, env.strategy,
                         w.live, w.model, false, m);
      }
    }
  }

  lemma {:induction false} RisenSameCandidates(servers: seq<Url>, x: Slots, y: Slots)
    requires Risen(x, y)
    ensures SameCandidates(Snapshot(servers, x), Snapshot(servers, y))
  {
    if servers != [] {
      RisenSameCandidates(servers[..|servers| - 1], x, y);
    }
  }

  /** The requests at `at` are live, in time and of model `m`, and no request in time of `m` is between them. */
  predicate Consecutive(items: seq<Queued>, now: int, m: Model, at: seq<nat>) {
    && (forall k :: 0 <= k < |at| ==>
          at[k] < |items| && items[at[k]].model == m && items[at[k]].live && now <= items[at[k]].deadline)
    && (forall j, k :: 0 <= j < k < |at| ==> at[j] < at[k])
    && (forall k, i :: 0 < k < |at| && at[k - 1] < i < at[k] ==> items[i].model != m || items[i].deadline < now)
  }

  ghost function SetupOf(env: Env, m: Model): Setup {
    Setup(ServersFor(env.index, m), env.sorter, m)
  }

  ghost function LoadBefore(env: Env, l: Load, items: seq<Queued>, now: int, at: seq<nat>, k: nat): Load
    requires ValidEnv(env) && k < |at| && forall j :: 0 <= j < |at| ==> at[j] < |items|
  {
    LoadAt(env, l, items, now, at[k])
  }

  /** Those requests as a run of calls of `route`. */
  ghost function RunOf(env: Env, l: Load, items: seq<Queued>, now: int, at: seq<nat>): (r: Run)
    requires ValidEnv(env) && at != [] && forall j :: 0 <= j < |at| ==> at[j] < |items|
    ensures |r.slots| == |r.requests| == |at| && |r.rrs| == |at| + 1
    ensures forall k :: 0 <= k < |at| ==> r.slots[k] == LoadBefore(env, l, items, now, at, k).slots
    ensures forall k :: 0 <= k < |at| ==> r.rrs[k] == LoadBefore(env, l, items, now, at, k).rr
    ensures forall k :: 0 <= k < |at| ==> r.requests[k] == Request(true, env.strategy, false)
    ensures r.rrs[|at|] == LoadAt(env, l, items, now, at[|at| - 1] + 1).rr
  {
    Run(seq(|at|, k requires 0 <= k < |at| => LoadBefore(env, l, items, now, at, k).slots),
        seq(|at|, k requires 0 <= k < |at| => LoadBefore(env, l, items, now, at, k).rr)
        + [LoadAt(env, l, items, now, at[|at| - 1] + 1).rr],
        seq(|at|, k requires 0 <= k < |at| => Request(true, env.strategy, false)))
  }

  lemma RoundFate(env: Env, l: Load, items: seq<Queued>, now: int, i: nat)
    requires ValidEnv(env) && i < |items| && items[i].live && now <= items[i].deadline
    ensures var before := LoadAt(env, l, items, now, i);
            var o := Call(SetupOf(env, items[i].model), before.slots, before.rr, Request(true, env.strategy, false));
      FateOf(env, l, items, now, i) == Tried(o.decision) && LoadAt(env, l, items, now, i + 1).rr == o.rr
  {
    assert LoadAt(env, l, items, now, i + 1) == LoadNext(env, LoadAt(env, l, items, now, i), items[i], now);
  }

  lemma RoundIsCall(env: Env, l: Load, items: seq<Queued>, now: int, m: Model, at: seq<nat>, k: nat)
    requires ValidEnv(env) && k < |at| && Consecutive(items, now, m, at)
    ensures var r, s := RunOf(env, l, items, now, at), SetupOf(env, m);
            var o := Call(s, r.slots[k], r.rrs[k], r.requests[k]);
      && FateOf(env, l, items, now, at[k]) == Tried(o.decision)
      && RrOf(r.rrs[k + 1], m) == RrOf(o.rr, m)
  {
    RoundFate(env, l, items, now, at[k]);
    if k + 1 < |at| {
      NumberStays(env, l, items, now, at[k] + 1, at[k + 1], m);
    }
  }

  lemma RoundsAreRun(env: Env, l: Load, items: seq<Queued>, now: int, m: Model, at: seq<nat>)
    requires ValidEnv(env) && at != [] && Consecutive(items, now, m, at)
    ensures IsRun(SetupOf(env, m), RunOf(env, l, items, now, at))
  {
    var r, s := RunOf(env, l, items, now, at), SetupOf(env, m);
    forall k | 0 <= k < |at| ensures SameCandidates(Snapshot(s.servers, r.slots[0]), Snapshot(s.servers, r.slots[k])) {
      LoadRises(env, l, items, now, at[0], at[k]);
      RisenSameCandidates(s.servers, r.slots[0], r.slots[k]);
    }
    forall k | 0 <= k < |at|
      ensures RrOf(r.rrs[k + 1], m) == RrOf(Call(s, r.slots[k], r.rrs[k], r.requests[k]).rr, m)
    {
      RoundIsCall(env, l, items, now, m, at, k);
    }
  }

  lemma {:induction false} OnePick(ds: seq<Decision>, u: Url, b: nat) returns (k: nat)
    requires b <= |ds| && PickCount(ds, u, 0, b) == 1
    ensures k < b && forall j :: 0 <= j < b ==> (ds[j] == Granted(u) <==> j == k)
  {
    if ds[b - 1] == Granted(u) {
      k := b - 1;
      forall j: nat | j < b - 1 ensures ds[j] != Granted(u) {
        if ds[j] == Granted(u) {
          PickedOnce(ds, u, j, b - 1);
        }
      }
    } else {
      k := OnePick(ds, u, b - 1);
    }
  }

  /**
   In a pass, while the nearest tier of `n` servers keeps room, each of its servers is taken
   by exactly one of any `n` consecutive live requests of the model that are in time.
   */
  lemma PassTakesTurns(env: Env, l: Load, items: seq<Queued>, now: int, m: Model, at: seq<nat>, p: nat)
    returns (k: nat)
    requires ValidEnv(env) && Distinct(ServersFor(env.index, m)) && at != [] && Consecutive(items, now, m, at)
    requires |at| == |Nearest(SetupOf(env, m), LoadBefore(env, l, items, now, at, 0).slots)| && p < |at|
    requires forall t, x :: 0 <= t < |at| && x in Nearest(SetupOf(env, m), LoadBefore(env, l, items, now, at, t).slots)
                            ==> x.HasRoom()
    ensures k < |at|
    ensures var u := Nearest(SetupOf(env, m), LoadBefore(env, l, items, now, at, 0).slots)[p].url;
      forall j :: 0 <= j < |at| ==> (FateOf(env, l, items, now, at[j]) == Tried(Granted(u)) <==> j == k)
  {
    var r, s := RunOf(env, l, items, now, at), SetupOf(env, m);
    RoundsAreRun(env, l, items, now, m, at);
    EachServerOncePerTurn(s, r, p, 0, |at|);
    var u := Nearest(s, r.slots[0])[p].url;
    k := OnePick(Decisions(s, r), u, |at|);
    forall j: nat | j < |at| ensures FateOf(env, l, items, now, at[j]) == Tried(Decisions(s, r)[j]) {
      RoundIsCall(env, l, items, now, m, at, j);
    }
  }
}
