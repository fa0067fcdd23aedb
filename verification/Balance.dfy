/**
 Best effort over whole runs (router/router.go): once every candidate is full, grants go
 where inflight/maxConn is least, and that keeps the loads level up to one connection.
 */
module Balance {
  import opened Common
  import opened Backend
  import opened Selection

  /** Store.Set admits only positive limits. */
  ghost predicate PositiveLimits(servers: seq<Url>, slots: Slots) {
    forall u :: Candidate(servers, slots, u) ==> slots[u].server.maxConn > 0
  }

  /** Taking one connection away from any candidate puts its load ratio at or below every other's. */
  predicate LevelPair(a: Slot, b: Slot) {
    (a.inflight - 1) * b.server.maxConn <= b.inflight * a.server.maxConn
  }

  ghost predicate Level(servers: seq<Url>, slots: Slots) {
    forall u, v :: Candidate(servers, slots, u) && Candidate(servers, slots, v) ==> LevelPair(slots[u], slots[v])
  }

  ghost predicate WithinLimits(servers: seq<Url>, slots: Slots) {
    forall u :: Candidate(servers, slots, u) ==> slots[u].inflight <= slots[u].server.maxConn
  }

  /** One live best-effort `route`. */
  ghost function Grant(servers: seq<Url>, slots: Slots, rr: map<Model, nat>, f: Sorter, m: Model): Outcome
    requires IsSorter(f)
  {
    RouteStep(servers, slots, rr, f, BestEffort, true, m, true)
  }

  /** With nobody below capacity the grant is a minimum of the load ratio, the nearest first among equals. */
  lemma FullGrantIsLeastLoaded(servers: seq<Url>, slots: Slots, rr: map<Model, nat>, f: Sorter, m: Model)
    returns (sorted: seq<Info>, b: nat)
    requires IsSorter(f) && PositiveLimits(servers, slots)
    requires NoCandidateHasRoom(servers, slots) && exists u :: Candidate(servers, slots, u)
    ensures sorted == Sorted(Snapshot(servers, slots), f) && b < |sorted|
    ensures Grant(servers, slots, rr, f, m).decision == Granted(sorted[b].url)
    ensures forall i :: 0 <= i < |sorted| ==> !LowerRatio(sorted[i], sorted[b])
    ensures forall i :: 0 <= i < b ==> LowerRatio(sorted[b], sorted[i])
  {
    var infos := Snapshot(servers, slots);
    sorted := Sorted(infos, f);
    SnapshotRoom(servers, slots);
    SnapshotMembers(servers, slots);
    SortedIsAscendingPermutation(infos, f);
    ScanPicksNearestWithRoom(infos, f, RrOf(rr, m));
    forall x | x in sorted ensures x.maxConn > 0 {
      assert x in infos;
      assert Candidate(servers, slots, x.url);
    }
    BestIsFirstMinimum(sorted);
    b := Best(sorted);
  }

  /** `b` has the least load ratio of all candidates. */
  ghost predicate LeastLoaded(servers: seq<Url>, slots: Slots, b: Url) {
    && Candidate(servers, slots, b)
    && forall v :: Candidate(servers, slots, v) ==>
         slots[b].inflight * slots[v].server.maxConn <= slots[v].inflight * slots[b].server.maxConn
  }

  lemma LeastLoadedCandidate(servers: seq<Url>, slots: Slots, rr: map<Model, nat>, f: Sorter, m: Model)
    returns (b: Url)
    requires IsSorter(f) && PositiveLimits(servers, slots)
    requires NoCandidateHasRoom(servers, slots) && exists u :: Candidate(servers, slots, u)
    ensures LeastLoaded(servers, slots, b) && Grant(servers, slots, rr, f, m).slots == Bump(slots, b, 1)
  {
    var sorted, i := FullGrantIsLeastLoaded(servers, slots, rr, f, m);
    RouteMovesOneCounter(servers, slots, rr, f, BestEffort, true, m, true);
    b := sorted[i].url;
    SnapshotMembers(servers, slots);
    SortedIsAscendingPermutation(Snapshot(servers, slots), f);
    assert sorted[i] in sorted;
    forall v | Candidate(servers, slots, v)
      ensures slots[b].inflight * slots[v].server.maxConn <= slots[v].inflight * slots[b].server.maxConn
    {
      assert InfoOf(slots, v) in sorted;
      var j :| 0 <= j < |sorted| && sorted[j] == InfoOf(slots, v);
      assert !LowerRatio(sorted[j], sorted[i]);
    }
  }

  lemma GrantKeepsPair(a: Slot, b: Slot, least: Slot)
    requires a.server.maxConn > 0 && b.server.maxConn > 0 && least.server.maxConn > 0
    requires LevelPair(a, b)
    requires least.inflight * a.server.maxConn <= a.inflight * least.server.maxConn
    requires least.inflight * b.server.maxConn <= b.inflight * least.server.maxConn
    ensures var next := least.(inflight := least.inflight + 1);
      LevelPair(next, b) && (LevelPair(a, least) ==> LevelPair(a, next))
  {
  }

  lemma BumpKeepsLevel(servers: seq<Url>, slots: Slots, b: Url)
    requires PositiveLimits(servers, slots) && NoCandidateHasRoom(servers, slots)
    requires Level(servers, slots) && LeastLoaded(servers, slots, b)
    ensures var after := Bump(slots, b, 1);
      && NoCandidateHasRoom(servers, after) && Level(servers, after) && PositiveLimits(servers, after)
  {
    var after := Bump(slots, b, 1);
    assert forall u :: Candidate(servers, after, u) <==> Candidate(servers, slots, u);
    forall u, v | Candidate(servers, after, u) && Candidate(servers, after, v)
      ensures LevelPair(after[u], after[v])
    {
      assert LevelPair(slots[u], slots[v]) && LevelPair(slots[u], slots[b]);
      GrantKeepsPair(slots[u], slots[v], slots[b]);
    }
  }

  /** A best-effort grant from a level full state leaves a level full state. */
  lemma FullGrantKeepsLevel(servers: seq<Url>, slots: Slots, rr: map<Model, nat>, f: Sorter, m: Model)
    requires IsSorter(f) && PositiveLimits(servers, slots)
    requires NoCandidateHasRoom(servers, slots) && Level(servers, slots)
    ensures var after := Grant(servers, slots, rr, f, m).slots;
      && NoCandidateHasRoom(servers, after) && Level(servers, after) && PositiveLimits(servers, after)
  {
    if exists u :: Candidate(servers, slots, u) {
      var b := LeastLoadedCandidate(servers, slots, rr, f, m);
      BumpKeepsLevel(servers, slots, b);
    } else {
      SnapshotRoom(servers, slots);
    }
  }

  /** A grant below capacity stays within the limits. */
  lemma RoomyGrantStaysWithin(servers: seq<Url>, slots: Slots, rr: map<Model, nat>, f: Sorter, m: Model)
    requires IsSorter(f) && WithinLimits(servers, slots) && PositiveLimits(servers, slots)
    requires !NoCandidateHasRoom(servers, slots)
    ensures var after := Grant(servers, slots, rr, f, m).slots;
      WithinLimits(servers, after) && PositiveLimits(servers, after)
  {
    RouteRefinesNearest(servers, slots, rr, f, BestEffort, m, true);
    RouteMovesOneCounter(servers, slots, rr, f, BestEffort, true, m, true);
    var after := Grant(servers, slots, rr, f, m).slots;
    forall u | Candidate(servers, after, u)
      ensures after[u].inflight <= after[u].server.maxConn && after[u].server.maxConn > 0
    {
      assert Candidate(servers, slots, u);
    }
  }

  /** All counters exactly at their limits is a level state. */
  lemma ExactlyFullIsLevel(servers: seq<Url>, slots: Slots)
    requires PositiveLimits(servers, slots) && WithinLimits(servers, slots) && NoCandidateHasRoom(servers, slots)
    ensures Level(servers, slots)
  {
  }

  // -------------------------------------------------------------------------
  // Runs
  // -------------------------------------------------------------------------

  /** The pool and the round-robin numbers after `n` live grants with no release in between. */
  ghost function After(servers: seq<Url>, slots: Slots, rr: map<Model, nat>, f: Sorter, m: Model, n: nat): Outcome
    requires IsSorter(f)
  {
    if n == 0 then Outcome(Rejected(AllBusy), slots, rr)
    else
      var o := After(servers, slots, rr, f, m, n - 1);
      Grant(servers, o.slots, o.rr, f, m)
  }

  ghost predicate Steady(servers: seq<Url>, slots: Slots) {
    && PositiveLimits(servers, slots)
    && (WithinLimits(servers, slots) || (NoCandidateHasRoom(servers, slots) && Level(servers, slots)))
  }

  lemma GrantKeepsSteady(servers: seq<Url>, slots: Slots, rr: map<Model, nat>, f: Sorter, m: Model)
    requires IsSorter(f) && Steady(servers, slots)
    ensures Steady(servers, Grant(servers, slots, rr, f, m).slots)
  {
    if !NoCandidateHasRoom(servers, slots) {
      RoomyGrantStaysWithin(servers, slots, rr, f, m);
    } else {
      if WithinLimits(servers, slots) {
        ExactlyFullIsLevel(servers, slots);
      }
      FullGrantKeepsLevel(servers, slots, rr, f, m);
    }
  }

  /**
   Any run of live best-effort grants from within the limits, or from a level full state:
   whenever no candidate has room, any two loads are level up to one connection.
   */
  lemma {:induction false} RunsStayLevel(servers: seq<Url>, slots: Slots, rr: map<Model, nat>, f: Sorter,
                                         m: Model, n: nat)
    requires IsSorter(f) && Steady(servers, slots)
    ensures var after := After(servers, slots, rr, f, m, n).slots;
      && Steady(servers, after)
      && (NoCandidateHasRoom(servers, after) ==> Level(servers, after))
  {
    if n > 0 {
      RunsStayLevel(servers, slots, rr, f, m, n - 1);
      var o := After(servers, slots, rr, f, m, n - 1);
      GrantKeepsSteady(servers, o.slots, o.rr, f, m);
    }
    var after := After(servers, slots, rr, f, m, n).slots;
    if NoCandidateHasRoom(servers, after) && WithinLimits(servers, after) {
      ExactlyFullIsLevel(servers, after);
    }
  }
}
