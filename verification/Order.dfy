/**
 Arrival order over whole runs of the queue (router/queue.go): requests join, leave when
 they are cancelled, and are tried by passes. Between two steps connections may be
 released, other requests routed and discovery may change: every pass comes with its own
 environment, load and set of done contexts. Steps are taken one at a time.
 */
module Order {
  import opened Common
  import opened Backend
  import opened Index
  import opened Selection
  import opened Passes

  /** A request in the queue, told apart from all others by `id`. */
  datatype Ticket = Ticket(id: nat, model: Model, deadline: int)

  datatype Event =
    | Join(ticket: Ticket)
    | Withdraw(ticket: Ticket)
    | Pass(env: Env, load: Load, now: int, done: set<nat>)

  ghost function Views(queue: seq<Ticket>, done: set<nat>): (ws: seq<Queued>)
    ensures |ws| == |queue|
  {
    seq(|queue|, i requires 0 <= i < |queue| => Queued(queue[i].model, queue[i].deadline, queue[i].id !in done))
  }

  ghost function FatesIn(queue: seq<Ticket>, e: Event): (fs: seq<Fate>)
    requires e.Pass? && ValidEnv(e.env)
    ensures |fs| == |queue|
  {
    Fates(e.env, e.load, Views(queue, e.done), e.now)
  }

  ghost predicate ValidEvents(events: seq<Event>) {
    forall k :: 0 <= k < |events| && events[k].Pass? ==> ValidEnv(events[k].env)
  }

  ghost function Waiting(events: seq<Event>): seq<Ticket>
    requires ValidEvents(events)
  {
    if events == [] then []
    else
      var before := Waiting(events[..|events| - 1]);
      match events[|events| - 1]
      case Join(x) => before + [x]
      case Withdraw(x) => Drop(before, x)
      case Pass(env, load, now, done) =>
        KeptOf(before, FatesIn(before, Pass(env, load, now, done)), |before|)
  }

  /** Everything that ever joined, in order. */
  function Joined(events: seq<Event>): seq<Ticket> {
    if events == [] then []
    else
      Joined(events[..|events| - 1])
      + match events[|events| - 1] { case Join(x) => [x] case _ => [] }
  }

  /** Every request joins once. */
  ghost predicate Legal(events: seq<Event>) {
    ValidEvents(events) && Distinct(Joined(events))
  }

  // -------------------------------------------------------------------------
  // The queue keeps the order of arrival
  // -------------------------------------------------------------------------

  /** `s` is `t` at the increasing positions `at`. */
  predicate IsAt<T(==)>(s: seq<T>, t: seq<T>, at: seq<nat>) {
    && |s| == |at|
    && (forall k :: 0 <= k < |at| ==> at[k] < |t| && s[k] == t[at[k]])
    && (forall j, k :: 0 <= j < k < |at| ==> at[j] < at[k])
  }

  lemma WithoutOneIsAt(queue: seq<Ticket>, t: seq<Ticket>, at: seq<nat>, i: nat)
    requires IsAt(queue, t, at) && i < |queue|
    ensures IsAt(queue[..i] + queue[i + 1..], t, at[..i] + at[i + 1..])
  {
  }

  lemma DropIsAt(queue: seq<Ticket>, x: Ticket, t: seq<Ticket>, at: seq<nat>) returns (at': seq<nat>)
    requires IsAt(queue, t, at)
    ensures IsAt(Drop(queue, x), t, at')
  {
    var i := DropsOne(queue, x);
    at' := at;
    if i < |queue| {
      WithoutOneIsAt(queue, t, at, i);
      at' := at[..i] + at[i + 1..];
    }
  }

  lemma JoinIsAt(queue: seq<Ticket>, x: Ticket, t: seq<Ticket>, at: seq<nat>) returns (at': seq<nat>)
    requires IsAt(queue, t, at)
    ensures IsAt(queue + [x], t + [x], at')
  {
    at' := at + [|t|];
  }

  lemma KeptIsAt(queue: seq<Ticket>, fates: seq<Fate>, t: seq<Ticket>, at: seq<nat>) returns (at': seq<nat>)
    requires IsAt(queue, t, at) && |fates| == |queue|
    ensures IsAt(KeptOf(queue, fates, |queue|), t, at')
  {
    var kept := KeptPositions(fates, |queue|);
    KeptIsSubsequence(queue, fates, |queue|);
    at' := seq(|kept|, k requires 0 <= k < |kept| => at[kept[k]]);
  }

  /** After any run the queue is a subsequence of everything that joined. */
  lemma {:induction false} QueueIsAt(events: seq<Event>) returns (at: seq<nat>)
    requires ValidEvents(events)
    ensures IsAt(Waiting(events), Joined(events), at)
  {
    if events == [] {
      at := [];
    } else {
      var init, e := events[..|events| - 1], events[|events| - 1];
      at := QueueIsAt(init);
      var before, all := Waiting(init), Joined(init);
      match e
      case Join(x) => at := JoinIsAt(before, x, all, at);
      case Withdraw(x) => at := DropIsAt(before, x, all, at);
      case Pass(env, load, now, done) => at := KeptIsAt(before, FatesIn(before, e), all, at);
    }
  }

  ghost predicate Before(t: seq<Ticket>, x: Ticket, y: Ticket) {
    exists i, j :: 0 <= i < j < |t| && t[i] == x && t[j] == y
  }

  lemma ArrivalOrder(events: seq<Event>, i: nat, j: nat)
    requires Legal(events) && i < |Waiting(events)| && j < |Waiting(events)|
    requires Before(Joined(events), Waiting(events)[i], Waiting(events)[j])
    ensures i < j
  {
    var at := QueueIsAt(events);
    var t := Joined(events);
    var a, b :| 0 <= a < b < |t| && t[a] == Waiting(events)[i] && t[b] == Waiting(events)[j];
    assert t[at[i]] == t[a] && t[at[j]] == t[b];
  }

  // -------------------------------------------------------------------------
  // Service in order of arrival
  // -------------------------------------------------------------------------

  /** The last step is a pass, and it serves `x`. */
  ghost predicate Serves(events: seq<Event>, x: Ticket)
    requires ValidEvents(events)
  {
    events != [] && events[|events| - 1].Pass? &&
    ServedIn(Waiting(events[..|events| - 1]), events[|events| - 1], x)
  }

  /** The pass `e` over `queue` serves `x`. */
  ghost predicate ServedIn(queue: seq<Ticket>, e: Event, x: Ticket)
    requires e.Pass? && ValidEnv(e.env)
  {
    exists i :: 0 <= i < |queue| && queue[i] == x && FatesIn(queue, e)[i].Served()
  }

  lemma WhoIsServed(queue: seq<Ticket>, e: Event, x: Ticket) returns (i: nat)
    requires e.Pass? && ValidEnv(e.env) && ServedIn(queue, e, x)
    ensures i < |queue| && queue[i] == x && FatesIn(queue, e)[i].Served()
  {
    i :| 0 <= i < |queue| && queue[i] == x && FatesIn(queue, e)[i].Served();
  }

  ghost predicate TimesOut(events: seq<Event>, x: Ticket)
    requires ValidEvents(events)
  {
    events != [] && events[|events| - 1].Pass? &&
    var queue := Waiting(events[..|events| - 1]);
    exists i :: 0 <= i < |queue| && queue[i] == x && FatesIn(queue, events[|events| - 1])[i] == Expired
  }

  predicate Withdraws(events: seq<Event>, x: Ticket) {
    events != [] && events[|events| - 1] == Withdraw(x)
  }

  lemma ServedInPass(queue: seq<Ticket>, e: Event, i: nat, j: nat)
    requires e.Pass? && ValidEnv(e.env) && i < j < |queue| && queue[i].model == queue[j].model
    requires queue[i].id !in e.done && e.now <= queue[i].deadline && FatesIn(queue, e)[j].Served()
    ensures ServedIn(queue, e, queue[i])
  {
    GrantsArePrefixPerModel(e.env, e.load, Views(queue, e.done), e.now, i, j);
  }

  /**
   First come, first served, per model and over whole runs: when a pass serves `y`, an
   earlier request of the same model that is still queued, live and in time is served by
   the same pass.
   */
  lemma ServedInOrderOfArrival(events: seq<Event>, x: Ticket, y: Ticket)
    requires Legal(events) && events != [] && events[|events| - 1].Pass?
    requires Before(Joined(events), x, y) && x.model == y.model && Serves(events, y)
    requires x in Waiting(events[..|events| - 1])
    requires x.id !in events[|events| - 1].done && events[|events| - 1].now <= x.deadline
    ensures Serves(events, x)
  {
    var init, e := events[..|events| - 1], events[|events| - 1];
    var queue := Waiting(init);
    var i :| 0 <= i < |queue| && queue[i] == x;
    var j := WhoIsServed(queue, e, y);
    assert Joined(events) == Joined(init);
    ArrivalOrder(init, i, j);
    ServedInPass(queue, e, i, j);
  }

  lemma KeptIsIn(queue: seq<Ticket>, fates: seq<Fate>, i: nat)
    requires i < |queue| == |fates|
    ensures fates[i].Kept() ==> queue[i] in KeptOf(queue, fates, |queue|)
  {
    if fates[i].Kept() {
      KeptIsSubsequence(queue, fates, |queue|);
      KeptPositionsComplete(fates, |queue|, i);
      var k :| 0 <= k < |KeptPositions(fates, |queue|)| && KeptPositions(fates, |queue|)[k] == i;
      assert KeptOf(queue, fates, |queue|)[k] == queue[i];
    }
  }

  lemma SettledByPass(queue: seq<Ticket>, fates: seq<Fate>, x: Ticket) returns (i: nat)
    requires |fates| == |queue| && x in queue && x !in KeptOf(queue, fates, |queue|)
    ensures i < |queue| && queue[i] == x && (fates[i] == Expired || fates[i].Served())
  {
    i :| 0 <= i < |queue| && queue[i] == x;
    KeptIsIn(queue, fates, i);
  }

  /** After `k` steps `x` has just been served, told that it is late, or withdrawn. */
  ghost predicate SettledAt(events: seq<Event>, k: nat, x: Ticket)
    requires ValidEvents(events) && k <= |events|
  {
    Serves(events[..k], x) || TimesOut(events[..k], x) || Withdraws(events[..k], x)
  }

  lemma SettledByStep(events: seq<Event>, x: Ticket)
    requires ValidEvents(events) && events != []
    requires x in Waiting(events[..|events| - 1]) && x !in Waiting(events)
    ensures SettledAt(events, |events|, x)
  {
    var init, e := events[..|events| - 1], events[|events| - 1];
    var queue := Waiting(init);
    assert events[..|events|] == events;
    match e
    case Join(z) =>
    case Withdraw(z) =>
      DropKeepsOthers(queue, z, x);
    case Pass(env, load, now, done) =>
      var i := SettledByPass(queue, FatesIn(queue, e), x);
  }

  /** Nobody leaves the queue unnoticed. */
  lemma {:induction false} GoneMeansSettled(events: seq<Event>, x: Ticket) returns (k: nat)
    requires ValidEvents(events) && x in Joined(events) && x !in Waiting(events)
    ensures k <= |events| && SettledAt(events, k, x)
  {
    var init := events[..|events| - 1];
    if x in Waiting(init) {
      SettledByStep(events, x);
      k := |events|;
    } else {
      k := GoneMeansSettled(init, x);
      assert events[..k] == init[..k];
    }
  }

  /**
   Over a whole run: when a pass serves `y`, every earlier request of its model has been
   settled in an earlier step, or is served by the same pass, or finds its context done or
   its deadline past in this pass.
   */
  lemma FirstComeFirstServed(events: seq<Event>, x: Ticket, y: Ticket) returns (k: nat)
    requires Legal(events) && Before(Joined(events), x, y) && x.model == y.model && Serves(events, y)
    ensures k <= |events|
    ensures k < |events| ==> SettledAt(events, k, x)
    ensures k == |events| ==>
      Serves(events, x) || x.id in events[|events| - 1].done || x.deadline < events[|events| - 1].now
  {
    var init, e := events[..|events| - 1], events[|events| - 1];
    assert Joined(events) == Joined(init);
    if x in Waiting(init) {
      k := |events|;
      if x.id !in e.done && e.now <= x.deadline {
        ServedInOrderOfArrival(events, x, y);
      }
    } else {
      k := GoneMeansSettled(init, x);
      assert events[..k] == init[..k];
    }
  }

  // -------------------------------------------------------------------------
  // Fresh requests
  // -------------------------------------------------------------------------

  /** Without best effort a fresh live request gets past those waiting exactly when some candidate has room. */
  lemma FreshRequestServedIffRoom(servers: seq<Url>, slots: Slots, rr: map<Model, nat>, f: Sorter,
                                  strategy: Strategy, m: Model)
    requires IsSorter(f) && strategy != BestEffort
    ensures RouteStep(servers, slots, rr, f, strategy, true, m, true).decision.Granted?
            <==> !NoCandidateHasRoom(servers, slots)
  {
    RouteRefinesNearest(servers, slots, rr, f, strategy, m, true);
  }

  /** Not directly after a pass: while a live request still waits, a fresh one of its model is not served. */
  lemma NoOvertakingAfterPass(events: seq<Event>, x: Ticket, rr: map<Model, nat>)
    requires ValidEvents(events) && events != [] && events[|events| - 1].Pass?
    requires x in Waiting(events) && x.id !in events[|events| - 1].done
    ensures var e := events[|events| - 1];
            var items := Views(Waiting(events[..|events| - 1]), e.done);
            var after := LoadAt(e.env, e.load, items, e.now, |items|);
      !RouteStep(ServersFor(e.env.index, x.model), after.slots, rr, e.env.sorter, e.env.strategy,
                 true, x.model, true).decision.Granted?
  {
    var init, e := events[..|events| - 1], events[|events| - 1];
    var queue := Waiting(init);
    var i := KeptFrom(queue, FatesIn(queue, e), x);
    KeptMeansNoneFresh(e.env, e.load, Views(queue, e.done), e.now, i, rr);
  }

  lemma KeptFrom(queue: seq<Ticket>, fates: seq<Fate>, x: Ticket) returns (i: nat)
    requires |fates| == |queue| && x in KeptOf(queue, fates, |queue|)
    ensures i < |queue| && queue[i] == x && fates[i].Kept()
  {
    KeptIsSubsequence(queue, fates, |queue|);
    var kept := KeptOf(queue, fates, |queue|);
    var k :| 0 <= k < |kept| && kept[k] == x;
    i := KeptPositions(fates, |queue|)[k];
  }

  /** One server with one slot, which the first connection holds. */
  function FullLoad(u: Url): Load {
    Load(map[u := Slot(ServerConfig(u, 1, 1), 1)], map[])
  }

  function OneServer(u: Url, m: Model, f: Sorter): Env {
    Env(Index(map[m := [u]], map[m := ""], map[u := true]), f, Strategy.Queue)
  }

  lemma OnlyCandidate(u: Url, m: Model, f: Sorter)
    ensures ServersFor(OneServer(u, m, f).index, m) == [u]
  {
    assert [u][..0] == [] && OnlyHealthy([], map[u := true]) == [];
  }

  /**
   But later: a request waits since a pass found the only server full; a connection is
   released, and before the next pass a fresh request of the same model gets the slot.
   */
  lemma FreshRequestOvertakes(u: Url, m: Model, f: Sorter) returns (events: seq<Event>, x: Ticket, after: Load)
    requires IsSorter(f)
    ensures Legal(events) && |events| == 2 && Waiting(events) == [x] && x.model == m
    ensures events[1] == Pass(OneServer(u, m, f), FullLoad(u), 0, {}) && x.deadline > 0
    ensures after == LoadAt(OneServer(u, m, f), FullLoad(u), Views([x], {}), 0, 1)
    ensures RouteStep([u], Bump(after.slots, u, -1), after.rr, f, Strategy.Queue, true, m, true).decision == Granted(u)
  {
    x := Ticket(0, m, 30);
    var e := Pass(OneServer(u, m, f), FullLoad(u), 0, {});
    events := [Join(x), e];
    after := LoadAt(e.env, e.load, Views([x], {}), 0, 1);
    JoinThenPass(x, e);
    OnlyRoundKeeps(u, m, f, x);
    assert KeptOf([x], FatesIn([x], e), 1) == [x];
    FreshTakesReleased(u, m, f, after.rr);
  }

  lemma JoinThenPass(x: Ticket, e: Event)
    requires e.Pass? && ValidEnv(e.env)
    ensures var events := [Join(x), e];
      Legal(events) && Waiting(events) == KeptOf([x], FatesIn([x], e), 1)
  {
    JoinAlone(x);
    var first, events := [Join(x)], [Join(x), e];
    assert events[..1] == first;
    assert Joined(events) == Joined(first);
  }

  lemma JoinAlone(x: Ticket)
    ensures ValidEvents([Join(x)]) && Waiting([Join(x)]) == [x] && Joined([Join(x)]) == [x]
  {
    var none: seq<Event> := [];
    var first := none + [Join(x)];
    assert first == [Join(x)] && first[..0] == none;
    assert Joined(none) == [] && Waiting(none) == [];
    assert Joined(first) == Joined(none) + [x] && Waiting(first) == Waiting(none) + [x];
  }

  lemma FreshTakesReleased(u: Url, m: Model, f: Sorter, rr: map<Model, nat>)
    requires IsSorter(f)
    ensures var released := Bump(FullLoad(u).slots, u, -1);
      RouteStep([u], released, rr, f, Strategy.Queue, true, m, true).decision == Granted(u)
  {
    var released := Bump(FullLoad(u).slots, u, -1);
    assert Candidate([u], released, u) && released[u].HasRoom();
    FreshRequestServedIffRoom([u], released, rr, f, Strategy.Queue, m);
    RouteMovesOneCounter([u], released, rr, f, Strategy.Queue, true, m, true);
  }

  /** The only round of that pass keeps the request and moves no counter. */
  lemma OnlyRoundKeeps(u: Url, m: Model, f: Sorter, x: Ticket)
    requires IsSorter(f) && x.model == m && x.deadline > 0
    ensures var env, load, items := OneServer(u, m, f), FullLoad(u), Views([x], {});
      FateOf(env, load, items, 0, 0).Kept() && LoadAt(env, load, items, 0, 1).slots == load.slots
  {
    var env, load, items := OneServer(u, m, f), FullLoad(u), Views([x], {});
    OnlyCandidate(u, m, f);
    KeptMeansFull(env, load, items[0], 0);
    RouteMovesOneCounter([u], load.slots, load.rr, f, Strategy.Queue, true, m, false);
    assert LoadAt(env, load, items, 0, 0) == load;
  }
}
