/**
 Fairness of the rotating scan (router/router.go) over runs of `route` for one model.
 Between two of the calls anything may happen to the counters and to the numbers of
 other models; what is fixed is the candidate list with its distances. Each call comes
 with its own context and fallback. The rotation is fair over every stretch of live calls;
 a call whose context is done moves it on without taking a server, and breaks that.
 */
module Fairness {
  import opened Common
  import opened Backend
  import opened Selection

  // -------------------------------------------------------------------------
  // A position moving round a cycle
  // -------------------------------------------------------------------------

  function Next(p: nat, n: nat): nat
    requires p < n
  {
    if p + 1 == n then 0 else p + 1
  }

  ghost predicate Advances(at: seq<nat>, n: nat, t: nat)
    requires 0 < t < |at|
  {
    at[t - 1] < n && at[t] == Next(at[t - 1], n)
  }

  /** From `a` to `b` the position moves on by one each time. */
  ghost predicate Rotates(at: seq<nat>, n: nat, a: nat, b: nat)
    requires a <= b < |at|
  {
    && (forall t :: a <= t <= b ==> at[t] < n)
    && (forall t :: a < t <= b ==> Advances(at, n, t))
  }

  function Visits(at: seq<nat>, p: nat, a: nat, b: nat): nat
    requires a <= b <= |at|
  {
    if a == b then 0 else Visits(at, p, a, b - 1) + if at[b - 1] == p then 1 else 0
  }

  /** Whether the cycle has passed `p` more recently than `q`. */
  function Between(x: nat, p: nat, q: nat): int {
    if p < x <= q then 1 else 0
  }

  /** The lead of `p` over a later `q` is known from the two end positions alone. */
  lemma {:induction false} LeadIsPositional(at: seq<nat>, n: nat, p: nat, q: nat, a: nat, b: nat)
    requires a <= b < |at| && Rotates(at, n, a, b) && p < q < n
    ensures Visits(at, p, a, b) - Visits(at, q, a, b) == Between(at[b], p, q) - Between(at[a], p, q)
  {
    if a < b {
      LeadIsPositional(at, n, p, q, a, b - 1);
      assert Advances(at, n, b);
    }
  }

  lemma VisitsDifferByAtMostOne(at: seq<nat>, n: nat, p: nat, q: nat, a: nat, b: nat)
    requires a <= b < |at| && Rotates(at, n, a, b) && p < n && q < n
    ensures -1 <= Visits(at, p, a, b) - Visits(at, q, a, b) <= 1
  {
    if p < q {
      LeadIsPositional(at, n, p, q, a, b);
    } else if q < p {
      LeadIsPositional(at, n, q, p, a, b);
    }
  }

  /** Steps from `x` round to `p`. */
  function Gap(x: nat, p: nat, n: nat): (d: nat)
    requires x < n && p < n
    ensures d < n
  {
    if x <= p then p - x else p - x + n
  }

  lemma {:induction false} PositionAfter(at: seq<nat>, n: nat, a: nat, j: nat)
    requires a + j < |at| && Rotates(at, n, a, a + j) && j <= n
    ensures at[a + j] == if at[a] + j < n then at[a] + j else at[a] + j - n
  {
    if j > 0 {
      PositionAfter(at, n, a, j - 1);
      assert Advances(at, n, a + j);
    }
  }

  lemma {:induction false} VisitsWithinTurn(at: seq<nat>, n: nat, p: nat, a: nat, j: nat)
    requires a + j < |at| && Rotates(at, n, a, a + j) && p < n && j <= n
    ensures Visits(at, p, a, a + j) == if Gap(at[a], p, n) < j then 1 else 0
  {
    if j > 0 {
      VisitsWithinTurn(at, n, p, a, j - 1);
      PositionAfter(at, n, a, j - 1);
    }
  }

  lemma OneVisitPerTurn(at: seq<nat>, n: nat, p: nat, a: nat, b: nat)
    requires b == a + n < |at| && Rotates(at, n, a, b) && p < n
    ensures Visits(at, p, a, b) == 1
  {
    VisitsWithinTurn(at, n, p, a, n);
  }

  // -------------------------------------------------------------------------
  // Runs of route
  // -------------------------------------------------------------------------

  /** What the calls of a run have in common. */
  datatype Setup = Setup(servers: seq<Url>, sorter: Sorter, model: Model)

  /** What a call brings along: the state of its context, and the fallback it may use. */
  datatype Request = Request(live: bool, strategy: Strategy, allowQueue: bool)

  ghost function Call(s: Setup, slots: Slots, rr: map<Model, nat>, q: Request): Outcome
    requires IsSorter(s.sorter)
  {
    RouteStep(s.servers, slots, rr, s.sorter, q.strategy, q.live, s.model, q.allowQueue)
  }

  ghost predicate SameCandidates(a: seq<Info>, b: seq<Info>) {
    |a| == |b| && forall i :: 0 <= i < |a| ==> a[i].url == b[i].url && a[i].distance == b[i].distance
  }

  /** The nearest tier as a call on `slots` sees it. */
  ghost function Nearest(s: Setup, slots: Slots): (tier: seq<Info>)
    requires IsSorter(s.sorter)
  {
    var groups := Groups(Sorted(Snapshot(s.servers, slots), s.sorter));
    if groups == [] then [] else groups[0]
  }

  ghost predicate SameTier(a: seq<Info>, b: seq<Info>) {
    |a| == |b| && forall p :: 0 <= p < |a| ==> a[p].url == b[p].url
  }

  lemma SortFixed(a: seq<Info>, b: seq<Info>, f: Sorter)
    requires IsSorter(f) && SameCandidates(a, b)
    ensures SameCandidates(Sorted(a, f), Sorted(b, f))
  {
    assert Distances(a) == Distances(b);
    assert SortsBy(f(Distances(a)), Distances(a));
  }

  /** While the candidates stay the same, so does the nearest tier, server by server. */
  lemma NearestFixed(s: Setup, x: Slots, y: Slots)
    requires IsSorter(s.sorter)
    requires SameCandidates(Snapshot(s.servers, x), Snapshot(s.servers, y))
    ensures SameTier(Nearest(s, x), Nearest(s, y))
  {
    var a, b := Snapshot(s.servers, x), Snapshot(s.servers, y);
    SortFixed(a, b, s.sorter);
  }

  /** One live call with room in the nearest tier: first room from the start on, and the start moves one on. */
  lemma CallStaysInNearest(s: Setup, slots: Slots, rr: map<Model, nat>, q: Request)
    requires IsSorter(s.sorter) && q.live && !NoRoom(Nearest(s, slots))
    ensures var tier := Nearest(s, slots);
            var n := |tier|;
      n > 0
      && var start := RrOf(rr, s.model) % n;
         var k := FirstRoom(tier, start, 0);
         && k.Some?
         && Call(s, slots, rr, q).decision == Granted(tier[Cyclic(start, k.value, n)].url)
         && RrOf(Call(s, slots, rr, q).rr, s.model) == start + 1
  {
    var infos := Snapshot(s.servers, slots);
    var sorted := Sorted(infos, s.sorter);
    var groups := Groups(sorted);
    var tier := groups[0];
    var start := RrOf(rr, s.model) % |tier|;
    FirstRoomMissesNobody(tier, start);
    assert Scan(groups, RrOf(rr, s.model), true)
        == Scanned(Some(tier[Cyclic(start, FirstRoom(tier, start, 0).value, |tier|)]), start + 1);
  }

  /**
   Call `t` finds the counters `slots[t]` and the numbers `rrs[t]`; the model's number it
   leaves is the one call `t + 1` finds.
   */
  datatype Run = Run(slots: seq<Slots>, rrs: seq<map<Model, nat>>, requests: seq<Request>)

  ghost predicate IsRun(s: Setup, r: Run) {
    && IsSorter(s.sorter)
    && |r.slots| > 0 && |r.requests| == |r.slots| && |r.rrs| == |r.slots| + 1
    && (forall t :: 0 <= t < |r.slots| ==>
          SameCandidates(Snapshot(s.servers, r.slots[0]), Snapshot(s.servers, r.slots[t])))
    && (forall t :: 0 <= t < |r.slots| ==>
          RrOf(r.rrs[t + 1], s.model) == RrOf(Call(s, r.slots[t], r.rrs[t], r.requests[t]).rr, s.model))
  }

  /** The calls from `a` up to `b` are live. */
  predicate Live(r: Run, a: nat, b: nat)
    requires a <= b <= |r.requests|
  {
    forall t :: a <= t < b ==> r.requests[t].live
  }

  ghost function TierSize(s: Setup, r: Run): nat
    requires IsRun(s, r)
  {
    |Nearest(s, r.slots[0])|
  }

  ghost predicate Picks(s: Setup, slots: Slots, rr: map<Model, nat>, q: Request, u: Url)
    requires IsSorter(s.sorter)
  {
    Call(s, slots, rr, q).decision == Granted(u)
  }

  /** What each call of the run decided. */
  ghost function Decisions(s: Setup, r: Run): (ds: seq<Decision>)
    requires IsRun(s, r)
    ensures |ds| == |r.slots|
    ensures forall t :: 0 <= t < |ds| ==> ds[t] == Call(s, r.slots[t], r.rrs[t], r.requests[t]).decision
  {
    seq(|r.slots|, t requires 0 <= t < |r.slots| => Call(s, r.slots[t], r.rrs[t], r.requests[t]).decision)
  }

  /** How often `u` is picked from call `a` up to call `b`. */
  function PickCount(ds: seq<Decision>, u: Url, a: nat, b: nat): nat
    requires a <= b <= |ds|
  {
    if a == b then 0 else PickCount(ds, u, a, b - 1) + if ds[b - 1] == Granted(u) then 1 else 0
  }

  lemma {:induction false} PicksAreVisits(ds: seq<Decision>, at: seq<nat>, u: Url, p: nat, a: nat, b: nat)
    requires a <= b <= |ds| && |ds| < |at|
    requires forall t :: a <= t < b ==> (ds[t] == Granted(u) <==> at[t] == p)
    ensures PickCount(ds, u, a, b) == Visits(at, p, a, b)
  {
    if a < b {
      PicksAreVisits(ds, at, u, p, a, b - 1);
    }
  }

  /** The starting positions of the calls of a run, and of the call after it. */
  ghost function Starts(s: Setup, r: Run): (at: seq<nat>)
    requires IsRun(s, r)
    ensures |at| == |r.rrs|
    ensures TierSize(s, r) > 0 ==> forall t :: 0 <= t < |at| ==> at[t] < TierSize(s, r)
  {
    var n := TierSize(s, r);
    seq(|r.rrs|, t requires 0 <= t < |r.rrs| => if n == 0 then 0 else RrOf(r.rrs[t], s.model) % n)
  }

  lemma TierFacts(s: Setup, r: Run, t: nat)
    requires IsRun(s, r) && t < |r.slots|
    ensures SameTier(Nearest(s, r.slots[0]), Nearest(s, r.slots[t]))
    ensures |Nearest(s, r.slots[t])| == TierSize(s, r)
  {
    NearestFixed(s, r.slots[0], r.slots[t]);
  }

  /** Call `t` is live and finds room in the nearest tier. */
  ghost predicate FindsRoom(s: Setup, r: Run, t: nat)
    requires IsRun(s, r) && t < |r.slots|
  {
    r.requests[t].live && !NoRoom(Nearest(s, r.slots[t]))
  }

  lemma StartMoves(s: Setup, r: Run, t: nat)
    requires IsRun(s, r) && t < |r.slots| && FindsRoom(s, r, t)
    ensures TierSize(s, r) > 0
    ensures var n, at := TierSize(s, r), Starts(s, r);
      at[t] < n && at[t + 1] == Next(at[t], n)
  {
    var n := TierSize(s, r);
    TierFacts(s, r, t);
    CallStaysInNearest(s, r.slots[t], r.rrs[t], r.requests[t]);
    var start := RrOf(r.rrs[t], s.model) % n;
    WrapOnce(start + 1, n);
  }

  lemma {:induction false} StartsRotate(s: Setup, r: Run, a: nat, b: nat)
    requires IsRun(s, r) && a <= b <= |r.slots| && TierSize(s, r) > 0
    requires forall t: nat {:trigger FindsRoom(s, r, t)} :: a <= t < b ==> FindsRoom(s, r, t)
    ensures Rotates(Starts(s, r), TierSize(s, r), a, b)
  {
    if a < b {
      StartsRotate(s, r, a, b - 1);
      assert FindsRoom(s, r, b - 1);
      StartMoves(s, r, b - 1);
    }
  }

  /** The server at the starting position is picked by a live call whenever it has room. */
  lemma StartWithRoomIsPicked(s: Setup, slots: Slots, rr: map<Model, nat>, q: Request, p: nat)
    requires IsSorter(s.sorter) && q.live && p < |Nearest(s, slots)| && Nearest(s, slots)[p].HasRoom()
    requires RrOf(rr, s.model) % |Nearest(s, slots)| == p
    ensures Picks(s, slots, rr, q, Nearest(s, slots)[p].url)
  {
  }

  /**
   No starvation: among any `n` consecutive live calls, `n` the size of the nearest tier,
   each of its servers that keeps room is picked at least once.
   */
  lemma EveryRoomyServerIsPicked(s: Setup, r: Run, a: nat, p: nat) returns (t: nat)
    requires IsRun(s, r) && p < TierSize(s, r) && a + TierSize(s, r) <= |r.slots|
    requires Live(r, a, a + TierSize(s, r))
    requires forall t :: a <= t < a + TierSize(s, r) ==>
      p < |Nearest(s, r.slots[t])| && Nearest(s, r.slots[t])[p].HasRoom()
    ensures a <= t < a + TierSize(s, r)
    ensures Picks(s, r.slots[t], r.rrs[t], r.requests[t], Nearest(s, r.slots[0])[p].url)
  {
    var n, at := TierSize(s, r), Starts(s, r);
    forall t: nat | a <= t < a + n ensures FindsRoom(s, r, t) {
      assert Nearest(s, r.slots[t])[p] in Nearest(s, r.slots[t]);
    }
    StartsRotate(s, r, a, a + n);
    t := a + Gap(at[a], p, n);
    PositionAfter(at, n, a, Gap(at[a], p, n));
    TierFacts(s, r, t);
    StartWithRoomIsPicked(s, r.slots[t], r.rrs[t], r.requests[t], p);
  }

  ghost predicate DistinctUrls(s: seq<Info>) {
    forall i, j :: 0 <= i < j < |s| ==> s[i].url != s[j].url
  }

  lemma {:induction false} SnapshotDistinct(servers: seq<Url>, slots: Slots)
    requires Distinct(servers)
    ensures DistinctUrls(Snapshot(servers, slots))
  {
    if servers != [] {
      var init, last := servers[..|servers| - 1], servers[|servers| - 1];
      SnapshotDistinct(init, slots);
      SnapshotMembers(init, slots);
      assert forall i :: 0 <= i < |Snapshot(init, slots)| ==> Snapshot(init, slots)[i] in Snapshot(init, slots);
      assert last !in init;
    }
  }

  /** From a list without repetitions, no server is twice in the nearest tier. */
  lemma NearestDistinct(s: Setup, slots: Slots)
    requires IsSorter(s.sorter) && Distinct(s.servers)
    ensures DistinctUrls(Nearest(s, slots))
  {
    var infos := Snapshot(s.servers, slots);
    SnapshotDistinct(s.servers, slots);
    assert SortsBy(s.sorter(Distances(infos)), Distances(infos));
    var sorted := Sorted(infos, s.sorter);
    assert DistinctUrls(sorted);
  }

  /** From call `a` up to call `b` all servers of the nearest tier have room. */
  ghost predicate KeepRoom(s: Setup, r: Run, a: nat, b: nat)
    requires IsRun(s, r) && a <= b <= |r.slots|
  {
    forall t, x :: a <= t < b && x in Nearest(s, r.slots[t]) ==> x.HasRoom()
  }

  /** A live call picks the server at its starting position and no other. */
  lemma PickIsStart(s: Setup, r: Run, p: nat, t: nat)
    requires IsRun(s, r) && Distinct(s.servers) && p < TierSize(s, r)
    requires t < |r.slots| && r.requests[t].live && KeepRoom(s, r, t, t + 1)
    ensures Picks(s, r.slots[t], r.rrs[t], r.requests[t], Nearest(s, r.slots[0])[p].url) <==> Starts(s, r)[t] == p
  {
    var x := Starts(s, r)[t];
    TierFacts(s, r, t);
    assert Nearest(s, r.slots[t])[x] in Nearest(s, r.slots[t]);
    StartWithRoomIsPicked(s, r.slots[t], r.rrs[t], r.requests[t], x);
    NearestDistinct(s, r.slots[0]);
  }

  lemma PicksAreStarts(s: Setup, r: Run, p: nat, a: nat, b: nat)
    requires IsRun(s, r) && Distinct(s.servers) && p < TierSize(s, r)
    requires a <= b <= |r.slots| && Live(r, a, b) && KeepRoom(s, r, a, b)
    ensures PickCount(Decisions(s, r), Nearest(s, r.slots[0])[p].url, a, b) == Visits(Starts(s, r), p, a, b)
  {
    var ds, at, u := Decisions(s, r), Starts(s, r), Nearest(s, r.slots[0])[p].url;
    forall t | a <= t < b ensures ds[t] == Granted(u) <==> at[t] == p {
      PickIsStart(s, r, p, t);
    }
    PicksAreVisits(ds, at, u, p, a, b);
  }

  lemma RoomKeepsRotating(s: Setup, r: Run, a: nat, b: nat)
    requires IsRun(s, r) && TierSize(s, r) > 0
    requires a <= b <= |r.slots| && Live(r, a, b) && KeepRoom(s, r, a, b)
    ensures Rotates(Starts(s, r), TierSize(s, r), a, b)
  {
    forall t: nat | a <= t < b ensures FindsRoom(s, r, t) {
      TierFacts(s, r, t);
      assert Nearest(s, r.slots[t])[0] in Nearest(s, r.slots[t]);
    }
    StartsRotate(s, r, a, b);
  }

  /** While all keep room, any `n` consecutive live calls pick each server of the tier exactly once. */
  lemma EachServerOncePerTurn(s: Setup, r: Run, p: nat, a: nat, b: nat)
    requires IsRun(s, r) && Distinct(s.servers) && p < TierSize(s, r)
    requires b == a + TierSize(s, r) <= |r.slots| && Live(r, a, b) && KeepRoom(s, r, a, b)
    ensures PickCount(Decisions(s, r), Nearest(s, r.slots[0])[p].url, a, b) == 1
  {
    RoomKeepsRotating(s, r, a, b);
    PicksAreStarts(s, r, p, a, b);
    OneVisitPerTurn(Starts(s, r), TierSize(s, r), p, a, b);
  }

  /** Over any stretch of live calls the pick counts of two servers that keep room differ by at most one. */
  lemma PickCountsDifferByAtMostOne(s: Setup, r: Run, p: nat, q: nat, a: nat, b: nat)
    requires IsRun(s, r) && Distinct(s.servers) && p < TierSize(s, r) && q < TierSize(s, r)
    requires a <= b <= |r.slots| && Live(r, a, b) && KeepRoom(s, r, a, b)
    ensures -1 <= PickCount(Decisions(s, r), Nearest(s, r.slots[0])[p].url, a, b)
                  - PickCount(Decisions(s, r), Nearest(s, r.slots[0])[q].url, a, b) <= 1
  {
    RoomKeepsRotating(s, r, a, b);
    PicksAreStarts(s, r, p, a, b);
    PicksAreStarts(s, r, q, a, b);
    VisitsDifferByAtMostOne(Starts(s, r), TierSize(s, r), p, q, a, b);
  }

  // -------------------------------------------------------------------------
  // Calls whose context is done
  // -------------------------------------------------------------------------

  function DoneCalls(qs: seq<Request>, a: nat, b: nat): nat
    requires a <= b <= |qs|
  {
    if a == b then 0 else DoneCalls(qs, a, b - 1) + One(!qs[b - 1].live)
  }

  function Grants(ds: seq<Decision>, a: nat, b: nat): nat
    requires a <= b <= |ds|
  {
    if a == b then 0 else Grants(ds, a, b - 1) + One(ds[b - 1].Granted?)
  }

  /** The candidates are one tier of at least two servers, all with room. */
  ghost predicate OneOpenTier(s: Setup, x: Slots) {
    && IsSorter(s.sorter) && Distinct(s.servers)
    && |Groups(Sorted(Snapshot(s.servers, x), s.sorter))| == 1
    && |Nearest(s, x)| >= 2
    && forall i :: i in Nearest(s, x) ==> i.HasRoom()
  }

  /** In a single tier every call moves the start on by one, and a done one takes nothing. */
  lemma CallInOneTier(s: Setup, x: Slots, rr: map<Model, nat>, q: Request)
    requires OneOpenTier(s, x)
    ensures var tier := Nearest(s, x);
            var start := RrOf(rr, s.model) % |tier|;
      && RrOf(Call(s, x, rr, q).rr, s.model) == start + 1
      && (q.live ==> Call(s, x, rr, q).decision == Granted(tier[start].url))
      && (!q.live ==> !Call(s, x, rr, q).decision.Granted?)
  {
    var groups := Groups(Sorted(Snapshot(s.servers, x), s.sorter));
    var tier := Nearest(s, x);
    var start := RrOf(rr, s.model) % |tier|;
    assert tier[start] in tier && tier[0] in tier;
    if q.live {
      CallStaysInNearest(s, x, rr, q);
      StartWithRoomIsPicked(s, x, rr, q, start);
    } else {
      DoneContextTakesNothing(s.servers, x, rr, s.sorter, q.strategy, s.model, q.allowQueue);
      assert groups[1..] == [];
      assert Scan(groups, RrOf(rr, s.model), false) == Scan([], start + 1, false);
    }
  }

  /** The same counters before every call, as when each connection is released at once. */
  ghost function RrAt(s: Setup, x: Slots, qs: seq<Request>, t: nat): map<Model, nat>
    requires IsSorter(s.sorter) && t <= |qs|
  {
    if t == 0 then map[] else Call(s, x, RrAt(s, x, qs, t - 1), qs[t - 1]).rr
  }

  ghost function Repeated(s: Setup, x: Slots, qs: seq<Request>): (r: Run)
    requires IsSorter(s.sorter) && qs != []
    ensures |r.slots| == |r.requests| == |qs| && r.requests == qs
    ensures forall t :: 0 <= t < |qs| ==> r.slots[t] == x
    ensures IsRun(s, r)
  {
    Run(seq(|qs|, _ => x), seq(|qs| + 1, t requires 0 <= t <= |qs| => RrAt(s, x, qs, t)), qs)
  }

  lemma StartMovesInOneTier(s: Setup, x: Slots, rr: map<Model, nat>, q: Request)
    requires OneOpenTier(s, x)
    ensures var n := |Nearest(s, x)|;
      RrOf(Call(s, x, rr, q).rr, s.model) % n == Next(RrOf(rr, s.model) % n, n)
  {
    CallInOneTier(s, x, rr, q);
    WrapOnce(RrOf(rr, s.model) % |Nearest(s, x)| + 1, |Nearest(s, x)|);
  }

  lemma RepeatedMoves(s: Setup, x: Slots, qs: seq<Request>, t: nat)
    requires OneOpenTier(s, x) && t < |qs|
    ensures var r := Repeated(s, x, qs);
            var n, at := |Nearest(s, x)|, Starts(s, r);
      TierSize(s, r) == n && at[t] < n && at[t + 1] == Next(at[t], n)
  {
    StartMovesInOneTier(s, x, RrAt(s, x, qs, t), qs[t]);
  }

  lemma RepeatedStartsAtZero(s: Setup, x: Slots, qs: seq<Request>)
    requires IsSorter(s.sorter) && qs != []
    ensures Starts(s, Repeated(s, x, qs))[0] == 0
  {
    var r := Repeated(s, x, qs);
    assert r.rrs[0] == map[];
    if TierSize(s, r) > 0 {
      WrapOnce(0, TierSize(s, r));
    }
  }

  lemma RepeatedRotates(s: Setup, x: Slots, qs: seq<Request>)
    requires OneOpenTier(s, x) && qs != []
    ensures var r := Repeated(s, x, qs);
      Starts(s, r)[0] == 0 && Rotates(Starts(s, r), TierSize(s, r), 0, |qs|)
  {
    RepeatedMoves(s, x, qs, 0);
    RepeatedStartsAtZero(s, x, qs);
    var at := Starts(s, Repeated(s, x, qs));
    forall t | 0 < t <= |qs| ensures Advances(at, |Nearest(s, x)|, t) {
      RepeatedMoves(s, x, qs, t - 1);
    }
  }

  /** Call `t` of such a run picks the server at its start, unless it is done. */
  lemma RepeatedPicks(s: Setup, x: Slots, qs: seq<Request>, t: nat, p: nat)
    requires OneOpenTier(s, x) && t < |qs| && p < |Nearest(s, x)|
    ensures var r := Repeated(s, x, qs);
      && (Decisions(s, r)[t].Granted? <==> qs[t].live)
      && (Decisions(s, r)[t] == Granted(Nearest(s, x)[p].url) <==> qs[t].live && Starts(s, r)[t] == p)
  {
    var r := Repeated(s, x, qs);
    CallInOneTier(s, x, r.rrs[t], qs[t]);
    NearestDistinct(s, x);
  }

  // -------------------------------------------------------------------------
  // Once per turn, exactly when no call is done
  // -------------------------------------------------------------------------

  /** In a run with at most `c` done calls, the calls from `a` up to `b` grant one connection per server of the tier. */
  ghost predicate TurnOfGrants(s: Setup, x: Slots, r: Run, c: nat, a: nat, b: nat)
    requires IsSorter(s.sorter)
  {
    && IsRun(s, r) && SameCandidates(Snapshot(s.servers, x), Snapshot(s.servers, r.slots[0]))
    && DoneCalls(r.requests, 0, |r.requests|) <= c
    && a <= b <= |r.slots| && KeepRoom(s, r, a, b)
    && Grants(Decisions(s, r), a, b) == |Nearest(s, x)|
  }

  lemma {:induction false} DoneCallCounts(qs: seq<Request>, b: nat, t: nat)
    requires t < b <= |qs| && !qs[t].live
    ensures DoneCalls(qs, 0, b) >= 1
  {
    if t < b - 1 {
      DoneCallCounts(qs, b - 1, t);
    }
  }

  lemma {:induction false} AllGranted(ds: seq<Decision>, a: nat, b: nat)
    requires a <= b <= |ds| && forall t :: a <= t < b ==> ds[t].Granted?
    ensures Grants(ds, a, b) == b - a
  {
    if a < b {
      AllGranted(ds, a, b - 1);
    }
  }

  lemma LiveCallGrants(s: Setup, r: Run, t: nat)
    requires IsRun(s, r) && TierSize(s, r) > 0
    requires t < |r.slots| && r.requests[t].live && KeepRoom(s, r, t, t + 1)
    ensures Decisions(s, r)[t].Granted?
  {
    var tier := Nearest(s, r.slots[t]);
    TierFacts(s, r, t);
    assert tier[0] in tier;
    CallStaysInNearest(s, r.slots[t], r.rrs[t], r.requests[t]);
  }

  lemma LiveCallsAreGrants(s: Setup, r: Run, a: nat, b: nat)
    requires IsRun(s, r) && TierSize(s, r) > 0
    requires a <= b <= |r.slots| && Live(r, a, b) && KeepRoom(s, r, a, b)
    ensures Grants(Decisions(s, r), a, b) == b - a
  {
    forall t: nat | a <= t < b ensures Decisions(s, r)[t].Granted? {
      LiveCallGrants(s, r, t);
    }
    AllGranted(Decisions(s, r), a, b);
  }

  lemma NoDoneCall(qs: seq<Request>)
    requires DoneCalls(qs, 0, |qs|) == 0
    ensures forall t :: 0 <= t < |qs| ==> qs[t].live
  {
    forall t: nat | t < |qs| ensures qs[t].live {
      if !qs[t].live {
        DoneCallCounts(qs, |qs|, t);
      }
    }
  }

  lemma TurnIsLive(s: Setup, x: Slots, r: Run, a: nat, b: nat)
    requires OneOpenTier(s, x) && TurnOfGrants(s, x, r, 0, a, b)
    ensures TierSize(s, r) == |Nearest(s, x)| && Live(r, a, b) && b == a + TierSize(s, r)
  {
    assert TierSize(s, r) == |Nearest(s, x)| by {
      NearestFixed(s, x, r.slots[0]);
    }
    NoDoneCall(r.requests);
    LiveCallsAreGrants(s, r, a, b);
  }

  lemma TurnWithoutDoneCalls(s: Setup, x: Slots, r: Run, a: nat, b: nat, p: nat)
    requires OneOpenTier(s, x) && TurnOfGrants(s, x, r, 0, a, b) && p < |Nearest(s, x)|
    ensures PickCount(Decisions(s, r), Nearest(s, x)[p].url, a, b) == 1
  {
    TurnIsLive(s, x, r, a, b);
    NearestFixed(s, x, r.slots[0]);
    EachServerOncePerTurn(s, r, p, a, b);
  }

  /** All calls live but the second. */
  function OneSkip(n: nat): (qs: seq<Request>)
    ensures |qs| == n + 1 && forall t :: 0 <= t <= n ==> (qs[t].live <==> t != 1)
  {
    seq(n + 1, t => Request(t != 1, FailFast, false))
  }

  lemma {:induction false} OneSkipIsDone(n: nat, k: nat)
    requires k <= n + 1
    ensures DoneCalls(OneSkip(n), 0, k) == One(k >= 2)
  {
    if k > 0 {
      OneSkipIsDone(n, k - 1);
    }
  }

  lemma {:induction false} GrantsWithoutDone(ds: seq<Decision>, qs: seq<Request>, k: nat)
    requires k <= |ds| == |qs| && forall t :: 0 <= t < k ==> (ds[t].Granted? <==> qs[t].live)
    ensures Grants(ds, 0, k) + DoneCalls(qs, 0, k) == k
  {
    if k > 0 {
      GrantsWithoutDone(ds, qs, k - 1);
    }
  }

  lemma PickedTwice(ds: seq<Decision>, u: Url, i: nat, b: nat)
    requires i < b - 1 && b <= |ds| && ds[i] == ds[b - 1] == Granted(u)
    ensures PickCount(ds, u, 0, b) >= 2
  {
    PickedOnce(ds, u, i, b - 1);
  }

  lemma {:induction false} PickedOnce(ds: seq<Decision>, u: Url, i: nat, b: nat)
    requires i < b <= |ds| && ds[i] == Granted(u)
    ensures PickCount(ds, u, 0, b) >= 1
  {
    if i < b - 1 {
      PickedOnce(ds, u, i, b - 1);
    }
  }

  lemma RepeatedGrants(s: Setup, x: Slots, qs: seq<Request>)
    requires OneOpenTier(s, x) && qs != []
    ensures Grants(Decisions(s, Repeated(s, x, qs)), 0, |qs|) + DoneCalls(qs, 0, |qs|) == |qs|
  {
    var ds := Decisions(s, Repeated(s, x, qs));
    forall t: nat | t < |qs| ensures ds[t].Granted? <==> qs[t].live {
      RepeatedPicks(s, x, qs, t, 0);
    }
    GrantsWithoutDone(ds, qs, |qs|);
  }

  /** After a full turn the rotation is back at the first server. */
  lemma RepeatedReturns(s: Setup, x: Slots, qs: seq<Request>)
    requires OneOpenTier(s, x) && |qs| == |Nearest(s, x)| + 1
    ensures var at := Starts(s, Repeated(s, x, qs)); at[0] == 0 && at[|Nearest(s, x)|] == 0
  {
    var r := Repeated(s, x, qs);
    RepeatedRotates(s, x, qs);
    PositionAfter(Starts(s, r), TierSize(s, r), 0, TierSize(s, r));
  }

  lemma RepeatedKeepsRoom(s: Setup, x: Slots, qs: seq<Request>)
    requires OneOpenTier(s, x) && qs != []
    ensures KeepRoom(s, Repeated(s, x, qs), 0, |qs|)
  {
  }

  lemma SkipIsTurn(s: Setup, x: Slots, qs: seq<Request>)
    requires OneOpenTier(s, x) && qs == OneSkip(|Nearest(s, x)|)
    ensures TurnOfGrants(s, x, Repeated(s, x, qs), 1, 0, |qs|)
  {
    OneSkipIsDone(|Nearest(s, x)|, |qs|);
    RepeatedGrants(s, x, qs);
    RepeatedKeepsRoom(s, x, qs);
  }

  lemma SkipPicksTwice(s: Setup, x: Slots, qs: seq<Request>)
    requires OneOpenTier(s, x) && qs == OneSkip(|Nearest(s, x)|)
    ensures PickCount(Decisions(s, Repeated(s, x, qs)), Nearest(s, x)[0].url, 0, |qs|) >= 2
  {
    RepeatedReturns(s, x, qs);
    RepeatedPicks(s, x, qs, 0, 0);
    RepeatedPicks(s, x, qs, |qs| - 1, 0);
    PickedTwice(Decisions(s, Repeated(s, x, qs)), Nearest(s, x)[0].url, 0, |qs|);
  }

  /** One done call, and among as many grants as there are servers the first one is picked twice. */
  lemma SkippedTurn(s: Setup, x: Slots) returns (r: Run)
    requires OneOpenTier(s, x)
    ensures TurnOfGrants(s, x, r, 1, 0, |r.slots|)
    ensures PickCount(Decisions(s, r), Nearest(s, x)[0].url, 0, |r.slots|) >= 2
  {
    var qs := OneSkip(|Nearest(s, x)|);
    r := Repeated(s, x, qs);
    SkipIsTurn(s, x, qs);
    SkipPicksTwice(s, x, qs);
  }

  /**
   In a tier of two or more servers that keep room, over all runs with at most `c` done
   calls: as many consecutive grants as there are servers take each of them exactly once
   if and only if `c` is 0.
   */
  lemma OncePerTurnIffNoDoneCall(s: Setup, x: Slots, c: nat)
    requires OneOpenTier(s, x)
    ensures (forall r, a, b, p: nat :: TurnOfGrants(s, x, r, c, a, b) && p < |Nearest(s, x)|
                                  ==> PickCount(Decisions(s, r), Nearest(s, x)[p].url, a, b) == 1)
            <==> c == 0
  {
    if c == 0 {
      forall r, a, b, p: nat | TurnOfGrants(s, x, r, c, a, b) && p < |Nearest(s, x)|
        ensures PickCount(Decisions(s, r), Nearest(s, x)[p].url, a, b) == 1
      {
        TurnWithoutDoneCalls(s, x, r, a, b, p);
      }
    } else {
      var r := SkippedTurn(s, x);
      assert TurnOfGrants(s, x, r, c, 0, |r.slots|);
    }
  }

  // -------------------------------------------------------------------------
  // Done calls can starve a server
  // -------------------------------------------------------------------------

  /** Every second call is done. */
  function Alternating(k: nat): (qs: seq<Request>)
    ensures |qs| == 2 * k && forall t :: 0 <= t < 2 * k ==> (qs[t].live <==> t % 2 == 0)
  {
    seq(2 * k, t => Request(t % 2 == 0, FailFast, false))
  }

  lemma {:induction false} OddPositions(at: seq<nat>, b: nat, t: nat)
    requires t <= b < |at| && at[0] == 0 && Rotates(at, 2, 0, b)
    ensures at[t] == t % 2
  {
    if t > 0 {
      OddPositions(at, b, t - 1);
      assert Advances(at, 2, t);
    }
  }

  lemma {:induction false} NeverPicked(ds: seq<Decision>, u: Url, b: nat)
    requires b <= |ds| && forall t :: 0 <= t < b ==> ds[t] != Granted(u)
    ensures PickCount(ds, u, 0, b) == 0
  {
    if b > 0 {
      NeverPicked(ds, u, b - 1);
    }
  }

  /**
   No starvation needs live calls too: with two servers, both with room all the time, and a
   done call after each live one, the second server is never picked, however long it goes on.
   */
  lemma DoneCallsStarve(s: Setup, x: Slots, k: nat) returns (r: Run)
    requires OneOpenTier(s, x) && |Nearest(s, x)| == 2 && k > 0
    ensures IsRun(s, r) && |r.slots| == 2 * k && KeepRoom(s, r, 0, 2 * k)
    ensures forall t :: 0 <= t < 2 * k ==> r.slots[t] == x && (r.requests[t].live <==> t % 2 == 0)
    ensures Grants(Decisions(s, r), 0, 2 * k) == k
    ensures PickCount(Decisions(s, r), Nearest(s, x)[1].url, 0, 2 * k) == 0
  {
    var qs := Alternating(k);
    r := Repeated(s, x, qs);
    RepeatedRotates(s, x, qs);
    forall t: nat | t < 2 * k
      ensures Decisions(s, r)[t] != Granted(Nearest(s, x)[1].url)
    {
      OddPositions(Starts(s, r), 2 * k, t);
      RepeatedPicks(s, x, qs, t, 1);
    }
    NeverPicked(Decisions(s, r), Nearest(s, x)[1].url, 2 * k);
    RepeatedGrants(s, x, qs);
    HalfAreDone(k, k);
  }

  lemma {:induction false} HalfAreDone(k: nat, j: nat)
    requires j <= k
    ensures DoneCalls(Alternating(k), 0, 2 * j) == j
  {
    if j > 0 {
      HalfAreDone(k, j - 1);
      assert DoneCalls(Alternating(k), 0, 2 * j - 1) == j - 1;
    }
  }
}
