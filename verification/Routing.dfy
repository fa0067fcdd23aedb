/**
 The router and its queue (router/router.go, router/queue.go) as objects, one call at a
 time. `route` is proved to compute `Selection.RouteStep` on the states of the pool, of
 discovery and of the round-robin numbers; a queue pass is proved to compute the
 functions of module Passes. How calls interleave is the subject of modules Overshoot
 and Handoff.
 */
module Routing {
  import opened Common
  import opened Backend
  import opened Index
  import opened Discovery
  import opened Selection
  import opened Passes

  /** The two settings of config.Store that routing reads. */
  class Store {
    var strategy: Strategy
    var queueTimeout: nat

    constructor (strategy: Strategy, queueTimeout: nat)
      ensures this.strategy == strategy && this.queueTimeout == queueTimeout
    {
      this.strategy := strategy;
      this.queueTimeout := queueTimeout;
    }
  }

  class Context {
    var done: bool
    const deadline: Option<int>

    constructor (deadline: Option<int>)
      ensures !done && this.deadline == deadline
    {
      done := false;
      this.deadline := deadline;
    }
  }

  datatype QueueResult = Connected(conn: Conn) | TimedOut | Canceled

  /** A waiting request. The one-place channel it carries is modelled by `QueueManager.sent`. */
  class QueueItem {
    const model: Model
    const deadline: int
    const ctx: Context

    constructor (model: Model, deadline: int, ctx: Context)
      ensures this.model == model && this.deadline == deadline && this.ctx == ctx
    {
      this.model := model;
      this.deadline := deadline;
      this.ctx := ctx;
    }

    function View(): Queued
      reads ctx`done
    {
      Queued(model, deadline, !ctx.done)
    }
  }

  /** The contents of the items' channels: an item that is not a key has an empty one. */
  type Channels = map<QueueItem, QueueResult>

  /** What one round of a pass does to the channel of its item. */
  function Deliver(sent: Channels, item: QueueItem, fate: Fate): Channels {
    match fate
    case Expired => sent[item := TimedOut]
    case Tried(Granted(u)) => sent[item := Connected(Conn(u))]
    case Tried(_) => sent
  }

  function DeliverAll(sent: Channels, items: seq<QueueItem>, fates: seq<Fate>, n: nat): Channels
    requires n <= |items| == |fates|
  {
    if n == 0 then sent else Deliver(DeliverAll(sent, items, fates, n - 1), items[n - 1], fates[n - 1])
  }

  ghost predicate Waits(sent: Channels, items: seq<QueueItem>) {
    && Distinct(items)
    && (forall i :: 0 <= i < |items| ==> items[i] !in sent)
  }

  /** Over a whole pass every item gets its own fate, once, and no other channel is touched. */
  lemma {:induction false} DeliveredOnce(sent: Channels, items: seq<QueueItem>, fates: seq<Fate>, n: nat)
    requires n <= |items| == |fates| && Waits(sent, items)
    ensures forall i :: 0 <= i < n ==>
      match fates[i]
      case Expired => items[i] in DeliverAll(sent, items, fates, n)
                      && DeliverAll(sent, items, fates, n)[items[i]] == TimedOut
      case Tried(Granted(u)) => items[i] in DeliverAll(sent, items, fates, n)
                                && DeliverAll(sent, items, fates, n)[items[i]] == Connected(Conn(u))
      case Tried(_) => items[i] !in DeliverAll(sent, items, fates, n)
    ensures forall i :: n <= i < |items| ==> items[i] !in DeliverAll(sent, items, fates, n)
    ensures forall x :: x !in items ==>
      (x in DeliverAll(sent, items, fates, n) <==> x in sent)
      && (x in sent ==> DeliverAll(sent, items, fates, n)[x] == sent[x])
  {
    if n > 0 {
      DeliveredOnce(sent, items, fates, n - 1);
    }
  }

  lemma NextIsEmpty(sent: Channels, items: seq<QueueItem>, fates: seq<Fate>, n: nat)
    requires n < |items| == |fates| && Waits(sent, items)
    ensures items[n] !in DeliverAll(sent, items, fates, n)
  {
    DeliveredOnce(sent, items, fates, n);
  }

  /** What a pass keeps is again a queue of distinct items with empty channels. */
  lemma KeptStillWaits(sent: Channels, items: seq<QueueItem>, fates: seq<Fate>)
    requires |items| == |fates| && Waits(sent, items)
    ensures Waits(DeliverAll(sent, items, fates, |items|), KeptOf(items, fates, |items|))
  {
    DeliveredOnce(sent, items, fates, |items|);
    KeptDistinct(items, fates, |items|);
    var kept := KeptOf(items, fates, |items|);
    forall i | 0 <= i < |kept| ensures kept[i] !in DeliverAll(sent, items, fates, |items|) {
      assert kept[i] in kept;
    }
  }

  function CancelAll(sent: Channels, items: seq<QueueItem>, n: nat): Channels
    requires n <= |items|
  {
    if n == 0 then sent else CancelAll(sent, items, n - 1)[items[n - 1] := Canceled]
  }

  lemma {:induction false} CanceledOnce(sent: Channels, items: seq<QueueItem>, n: nat)
    requires n <= |items| && Waits(sent, items)
    ensures forall i :: 0 <= i < n ==>
      items[i] in CancelAll(sent, items, n) && CancelAll(sent, items, n)[items[i]] == Canceled
    ensures forall i :: n <= i < |items| ==> items[i] !in CancelAll(sent, items, n)
    ensures forall x :: x !in items ==>
      (x in CancelAll(sent, items, n) <==> x in sent)
      && (x in sent ==> CancelAll(sent, items, n)[x] == sent[x])
  {
    if n > 0 {
      CanceledOnce(sent, items, n - 1);
    }
  }

  ghost function Views(items: seq<QueueItem>): (ws: seq<Queued>)
    reads set i: QueueItem | i in items :: i.ctx
    ensures |ws| == |items|
  {
    seq(|items|, i requires 0 <= i < |items| reads set x: QueueItem | x in items :: x.ctx => items[i].View())
  }

  class Router {
    const cfg: Store
    const disc: Discovery
    const pool: Pool
    const sorter: Sorter
    var rrIndex: map<Model, nat>

    ghost predicate Valid()
      reads pool, pool.clients.Values
    {
      pool.Valid() && IsSorter(sorter)
    }

    ghost function CurrentEnv(): Env
      reads cfg, disc
    {
      Env(disc.View(), sorter, cfg.strategy)
    }

    ghost function CurrentLoad(): Load
      reads this, pool
    {
      Load(pool.slots, rrIndex)
    }

    constructor (cfg: Store, disc: Discovery, pool: Pool, sorter: Sorter)
      requires pool.Valid() && IsSorter(sorter)
      ensures Valid() && rrIndex == map[]
      ensures this.cfg == cfg && this.disc == disc && this.pool == pool && this.sorter == sorter
    {
      this.cfg := cfg;
      this.disc := disc;
      this.pool := pool;
      this.sorter := sorter;
      rrIndex := map[];
    }

    /** `route`; its last branch, the call of `enqueue`, is left to the caller as `Park`. */
    method Choose(ctx: Context, m: Model, allowQueue: bool) returns (d: Decision)
      requires Valid()
      modifies this`rrIndex, pool`slots, pool.clients.Values
      ensures Valid()
      ensures Outcome(d, pool.slots, rrIndex)
           == RouteStep(ServersFor(disc.View(), m), old(pool.slots), old(rrIndex), sorter,
                        cfg.strategy, !ctx.done, m, allowQueue)
    {
      var servers := disc.ServersForModel(m);
      ghost var slots, rr := pool.slots, rrIndex;
      if servers == [] {
        return Rejected(NoServers);
      }
      var infos := TakeSnapshot(servers);
      if infos == [] {
        return Rejected(NoServers);
      }
      var sorted := SortInfos(infos);
      SortedArePooled(servers, slots, sorter);
      d := ChooseAmong(ctx, m, sorted, allowQueue);
      assert Outcome(d, pool.slots, rrIndex)
          == RouteStep(servers, slots, rr, sorter, cfg.strategy, !ctx.done, m, allowQueue);
    }

    /** `route` once the candidates are sorted. */
    method ChooseAmong(ctx: Context, m: Model, sorted: seq<Info>, allowQueue: bool) returns (d: Decision)
      requires Valid() && sorted != []
      requires forall x :: x in sorted ==> x.url in pool.slots
      modifies this`rrIndex, pool`slots, pool.clients.Values
      ensures Valid()
      ensures Outcome(d, pool.slots, rrIndex)
           == Conclude(sorted, Scan(Groups(sorted), RrOf(old(rrIndex), m), !ctx.done),
                       old(pool.slots), old(rrIndex), cfg.strategy, !ctx.done, m, allowQueue)
    {
      var groups := MakeGroups(sorted);
      TiersArePooled(sorted, pool.slots);
      var pick := ScanGroups(ctx, m, groups);
      if pick.Some? {
        d := Granted(pick.value.url);
      } else {
        d := FallBack(ctx, sorted, allowQueue);
      }
    }

    method SortInfos(infos: seq<Info>) returns (sorted: seq<Info>)
      requires Valid()
      ensures sorted == Sorted(infos, sorter) && |sorted| == |infos|
    {
      SortedIsAscendingPermutation(infos, sorter);
      assert SortsBy(sorter(Distances(infos)), Distances(infos));
      sorted := Arrange(infos, sorter(Distances(infos)));
    }

    static lemma TiersArePooled(sorted: seq<Info>, slots: Slots)
      requires forall x :: x in sorted ==> x.url in slots
      ensures forall g, x :: 0 <= g < |Groups(sorted)| && x in Groups(sorted)[g] ==> x.url in slots
    {
    }

    /** The branches after the scan came back empty. */
    method FallBack(ctx: Context, sorted: seq<Info>, allowQueue: bool) returns (d: Decision)
      requires Valid() && sorted != []
      requires forall x :: x in sorted ==> x.url in pool.slots
      modifies pool`slots, pool.clients.Values
      ensures Valid()
      ensures d == if cfg.strategy == BestEffort && !ctx.done then Granted(sorted[Best(sorted)].url)
                   else if cfg.strategy == Queue && allowQueue then Park
                   else Rejected(AllBusy)
      ensures pool.slots == if d.Granted? then Bump(old(pool.slots), d.url, 1) else old(pool.slots)
    {
      if cfg.strategy == BestEffort {
        var best := PickBest(sorted);
        var r := pool.Acquire(ctx.done, sorted[best].url);
        if r.Ok? {
          return Granted(sorted[best].url);
        }
      }
      if cfg.strategy == Queue && allowQueue {
        return Park;
      }
      return Rejected(AllBusy);
    }

    method TakeSnapshot(servers: seq<Url>) returns (infos: seq<Info>)
      requires Valid()
      ensures infos == Snapshot(servers, pool.slots)
      ensures exists at :: ListsInOrder(infos, servers, pool.slots, at)
    {
      infos := [];
      for i := 0 to |servers|
        invariant infos == Snapshot(servers[..i], pool.slots)
      {
        assert servers[..i + 1][..i] == servers[..i];
        var sc := pool.GetServer(servers[i]);
        if sc.Some? {
          var n := pool.Inflight(servers[i]);
          infos := infos + [Info(servers[i], sc.value.distance, sc.value.maxConn, n)];
        }
      }
      assert servers[..|servers|] == servers;
      ghost var at := SnapshotInOrder(servers, pool.slots);
    }

    method MakeGroups(infos: seq<Info>) returns (groups: seq<seq<Info>>)
      ensures groups == Groups(infos)
    {
      groups := [];
      var i := 0;
      while i < |infos|
        invariant i <= |infos|
        invariant Groups(infos) == groups + Groups(infos[i..])
      {
        var j := TierEnd(infos, i);
        GroupsFrom(infos, i, j);
        groups := groups + [infos[i..j]];
        i := j;
      }
    }

    /** The inner loop: where the tier that starts at `i` ends. */
    static method TierEnd(infos: seq<Info>, i: nat) returns (j: nat)
      requires i < |infos|
      ensures i < j <= |infos|
      ensures forall k :: i <= k < j ==> infos[k].distance == infos[i].distance
      ensures j < |infos| ==> infos[j].distance != infos[i].distance
    {
      j := i;
      while j < |infos| && infos[j].distance == infos[i].distance
        invariant i <= j <= |infos|
        invariant forall k :: i <= k < j ==> infos[k].distance == infos[i].distance
      {
        j := j + 1;
      }
    }

    static lemma GroupsFrom(infos: seq<Info>, i: nat, j: nat)
      requires i < j <= |infos|
      requires forall k :: i <= k < j ==> infos[k].distance == infos[i].distance
      requires j < |infos| ==> infos[j].distance != infos[i].distance
      ensures Groups(infos[i..]) == [infos[i..j]] + Groups(infos[j..])
    {
      var s := infos[i..];
      assert s[j - i..] == infos[j..] && s[..j - i] == infos[i..j];
      assert RunLength(s, 1) == j - i;
    }

    method ScanGroups(ctx: Context, m: Model, groups: seq<seq<Info>>) returns (pick: Option<Info>)
      requires Valid() && groups != []
      requires forall g :: 0 <= g < |groups| ==> |groups[g]| > 0
      requires forall g, x :: 0 <= g < |groups| && x in groups[g] ==> x.url in pool.slots
      modifies this`rrIndex, pool`slots, pool.clients.Values
      ensures Valid()
      ensures Scanned(pick, RrOf(rrIndex, m)) == Scan(groups, RrOf(old(rrIndex), m), !ctx.done)
      ensures rrIndex == old(rrIndex)[m := RrOf(rrIndex, m)]
      ensures pool.slots == if pick.Some? then Bump(old(pool.slots), pick.value.url, 1) else old(pool.slots)
    {
      ghost var live, rr: nat := !ctx.done, RrOf(rrIndex, m);
      for g := 0 to |groups|
        invariant Valid()
        invariant pool.slots == old(pool.slots)
        invariant Scan(groups[g..], rr, live) == Scan(groups, RrOf(old(rrIndex), m), live)
        invariant rr == RrOf(rrIndex, m)
        invariant g > 0 ==> rrIndex == old(rrIndex)[m := rr]
        invariant g == 0 ==> rrIndex == old(rrIndex)
      {
        ScanNextTier(groups, g, rr, live);
        rr := rr % |groups[g]| + 1;
        pick := TryTier(ctx, m, groups[g]);
        if pick.Some? {
          return;
        }
      }
      return None;
    }

    /** One round of the loop: the model's number moves on, then the tier is scanned from it. */
    method TryTier(ctx: Context, m: Model, tier: seq<Info>) returns (pick: Option<Info>)
      requires Valid() && tier != []
      requires forall x :: x in tier ==> x.url in pool.slots
      modifies this`rrIndex, pool`slots, pool.clients.Values
      ensures Valid()
      ensures var idx := RrOf(old(rrIndex), m) % |tier|;
              var k := FirstRoom(tier, idx, 0);
        && rrIndex == old(rrIndex)[m := idx + 1]
        && pick == if !ctx.done && k.Some? then Some(tier[Cyclic(idx, k.value, |tier|)]) else None
      ensures pool.slots == if pick.Some? then Bump(old(pool.slots), pick.value.url, 1) else old(pool.slots)
    {
      var idx := (if m in rrIndex then rrIndex[m] else 0) % |tier|;
      rrIndex := rrIndex[m := idx + 1];
      pick := ScanTier(ctx, tier, idx);
    }

    static lemma ScanNextTier(groups: seq<seq<Info>>, g: nat, rr: nat, live: bool)
      requires g < |groups| && forall h :: 0 <= h < |groups| ==> |groups[h]| > 0
      ensures var idx := rr % |groups[g]|;
              var k := FirstRoom(groups[g], idx, 0);
        Scan(groups[g..], rr, live)
        == if live && k.Some? then Scanned(Some(groups[g][Cyclic(idx, k.value, |groups[g]|)]), idx + 1)
           else Scan(groups[g + 1..], idx + 1, live)
    {
    }

    method ScanTier(ctx: Context, tier: seq<Info>, idx: nat) returns (pick: Option<Info>)
      requires Valid() && idx < |tier|
      requires forall x :: x in tier ==> x.url in pool.slots
      modifies pool`slots, pool.clients.Values
      ensures Valid()
      ensures var k := FirstRoom(tier, idx, 0);
        pick == if !ctx.done && k.Some? then Some(tier[Cyclic(idx, k.value, |tier|)]) else None
      ensures pool.slots == if pick.Some? then Bump(old(pool.slots), pick.value.url, 1) else old(pool.slots)
    {
      for k := 0 to |tier|
        invariant Valid()
        invariant pool.slots == old(pool.slots)
        invariant !ctx.done ==> FirstRoom(tier, idx, k) == FirstRoom(tier, idx, 0)
      {
        var si := tier[Cyclic(idx, k, |tier|)];
        if si.inflight < si.maxConn {
          var r := pool.Acquire(ctx.done, si.url);
          if r.Ok? {
            return Some(si);
          }
        }
      }
      return None;
    }

    /** The running minimum of the best-effort loop. */
    method PickBest(infos: seq<Info>) returns (best: nat)
      requires infos != []
      ensures best == Best(infos)
    {
      best := 0;
      for i := 0 to |infos|
        invariant i == 0 ==> best == 0
        invariant i > 0 ==> best == Best(infos[..i])
      {
        assert infos[..i + 1][..i] == infos[..i];
        if i == 0 || LowerRatio(infos[i], infos[best]) {
          best := i;
        }
      }
      assert infos[..|infos|] == infos;
    }
  }

  class QueueManager {
    var queue: seq<QueueItem>
    var started: bool
    var signaled: bool  // the one-place signal channel holds a wake-up for the queue's goroutine
    var sent: Channels
    const router: Router

    /** Each waiting item is queued once and nothing has been sent to it. */
    ghost predicate Valid()
      reads this
    {
      Waits(sent, queue)
    }

    constructor (router: Router)
      ensures Valid() && queue == [] && sent == map[] && !started && !signaled && this.router == router
    {
      queue := [];
      sent := map[];
      started := false;
      signaled := false;
      this.router := router;
    }

    /** A send on a full channel would block its sender, which holds the queue's lock. */
    method Send(item: QueueItem, r: QueueResult)
      requires item !in sent
      modifies this`sent
      ensures sent == old(sent)[item := r]
    {
      sent := sent[item := r];
    }

    /** `enqueue` up to the point where it starts waiting on the item's channel. */
    method Enqueue(ctx: Context, m: Model, now: int) returns (item: QueueItem)
      requires Valid() && router.Valid()
      modifies this`queue, this`started, this`signaled, this`sent
      ensures Valid() && router.Valid() && started && signaled
      ensures fresh(item) && queue == old(queue) + [item] && sent == old(sent) - {item}
      ensures item.model == m && item.ctx == ctx
      ensures item.deadline == MinDeadline(now, router.cfg.queueTimeout, ctx.deadline)
    {
      started := true;
      var deadline := now + router.cfg.queueTimeout;
      if ctx.deadline.Some? {
        if ctx.deadline.value < deadline {
          deadline := ctx.deadline.value;
        }
      }
      item := new QueueItem(m, deadline, ctx);
      sent := sent - {item};
      queue := queue + [item];
      Notify();
    }

    /** A wake-up that finds another one waiting is dropped; one is enough. */
    method Notify()
      modifies this`signaled
      ensures signaled
    {
      if !signaled {
        signaled := true;
      }
    }

    /** The outer select of `enqueue` takes the result. */
    method Receive(item: QueueItem) returns (r: QueueResult)
      requires Valid() && item in sent
      modifies this`sent
      ensures Valid() && item !in queue
      ensures r == old(sent)[item] && sent == old(sent) - {item}
    {
      r := sent[item];
      sent := sent - {item};
    }

    /** `Route` as its callers see it: an immediate answer, or a place in the queue. */
    method Route(ctx: Context, m: Model, now: int) returns (d: Decision, item: Option<QueueItem>)
      requires Valid() && router.Valid()
      modifies this`queue, this`started, this`signaled, this`sent
      modifies router`rrIndex, router.pool`slots, router.pool.clients.Values
      ensures Valid() && router.Valid()
      ensures Outcome(d, router.pool.slots, router.rrIndex)
           == RouteStep(ServersFor(router.disc.View(), m), old(router.pool.slots), old(router.rrIndex),
                        router.sorter, router.cfg.strategy, !ctx.done, m, true)
      ensures d != Park ==> item == None && queue == old(queue) && sent == old(sent)
      ensures d == Park ==>
        && item.Some? && fresh(item.value)
        && queue == old(queue) + [item.value] && sent == old(sent) - {item.value} && started && signaled
        && item.value.model == m && item.value.ctx == ctx
        && item.value.deadline == MinDeadline(now, router.cfg.queueTimeout, ctx.deadline)
    {
      ghost var servers, slots, rr := ServersFor(router.disc.View(), m), router.pool.slots, router.rrIndex;
      d := router.Choose(ctx, m, true);
      item := None;
      assert Outcome(d, router.pool.slots, router.rrIndex)
          == RouteStep(servers, slots, rr, router.sorter, router.cfg.strategy, !ctx.done, m, true);
      if d.Park? {
        var it := Enqueue(ctx, m, now);
        item := Some(it);
      }
    }

    method RemoveItem(item: QueueItem)
      requires Valid()
      modifies this`queue
      ensures Valid() && item !in queue && queue == Drop(old(queue), item)
      ensures item !in old(queue) ==> queue == old(queue)
      ensures forall k :: 0 <= k < |old(queue)| && old(queue)[k] == item
                ==> queue == old(queue)[..k] + old(queue)[k + 1..]
    {
      for i := 0 to |queue|
        invariant queue == old(queue)
        invariant item !in queue[..i]
      {
        if queue[i] == item {
          ghost var j := DropsOne(queue, item);
          assert i == j;
          queue := queue[..i] + queue[i + 1..];
          return;
        }
      }
      assert queue[..|queue|] == queue;
      ghost var j := DropsOne(queue, item);
    }

    /**
     The inner select of `enqueue` once the context is done: a result that is already
     there is taken and its connection released, otherwise the item leaves the queue.
     */
    method Abandon(item: QueueItem)
      requires Valid() && router.Valid()
      modifies this`queue, this`sent, router.pool`slots, router.pool.clients.Values
      ensures Valid() && router.Valid()
      ensures sent == old(sent) - {item}
      ensures item in old(sent) ==> queue == old(queue)
      ensures item !in old(sent) ==> item !in queue && queue == Drop(old(queue), item)
      ensures router.pool.slots
           == if item in old(sent) && old(sent)[item].Connected?
              then Bump(old(router.pool.slots), old(sent)[item].conn.serverId, -1)
              else old(router.pool.slots)
    {
      if item in sent {
        var r := sent[item];
        sent := sent - {item};
        if r.Connected? {
          router.pool.Release(r.conn);
        }
      } else {
        RemoveItem(item);
      }
    }

    /** One round of the loop of `processQueue`. */
    method HandleItem(item: QueueItem, now: int, ghost next: Load, ghost fate: Fate) returns (kept: bool)
      requires router.Valid() && item !in sent
      requires IsRound(router.CurrentEnv(), router.CurrentLoad(), item.View(), now, next, fate)
      modifies this`sent, router`rrIndex, router.pool`slots, router.pool.clients.Values
      ensures router.Valid()
      ensures router.CurrentLoad() == next && sent == Deliver(old(sent), item, fate) && kept == fate.Kept()
    {
      if now > item.deadline {
        Send(item, TimedOut);
        return false;
      }
      var d := router.Choose(item.ctx, item.model, false);
      if d.Granted? {
        Send(item, Connected(Conn(d.url)));
        return false;
      }
      return true;
    }

    method RunPass(now: int, ghost env: Env, ghost items: seq<Queued>, ghost loads: seq<Load>, ghost fates: seq<Fate>)
      returns (remaining: seq<QueueItem>)
      requires Valid() && router.Valid() && env == router.CurrentEnv() && items == Views(queue)
      requires AllRounds(env, items, now, loads, fates) && loads[0] == router.CurrentLoad()
      modifies this`sent, router`rrIndex, router.pool`slots, router.pool.clients.Values
      ensures router.Valid() && router.CurrentLoad() == loads[|queue|]
      ensures remaining == KeptOf(queue, fates, |queue|)
      ensures sent == DeliverAll(old(sent), queue, fates, |queue|)
    {
      remaining := [];
      for i := 0 to |queue|
        invariant router.Valid() && router.CurrentEnv() == env
        invariant router.CurrentLoad() == loads[i]
        invariant remaining == KeptOf(queue, fates, i)
        invariant sent == DeliverAll(old(sent), queue, fates, i)
      {
        var kept := RunRound(i, now, env, items, loads, fates, old(sent));
        if kept {
          remaining := remaining + [queue[i]];
        }
      }
    }

    method RunRound(i: nat, now: int, ghost env: Env, ghost items: seq<Queued>, ghost loads: seq<Load>,
                    ghost fates: seq<Fate>, ghost before: Channels)
      returns (kept: bool)
      requires i < |queue| == |items| && AllRounds(env, items, now, loads, fates)
      requires router.Valid() && router.CurrentEnv() == env && router.CurrentLoad() == loads[i]
      requires items[i] == queue[i].View()
      requires Waits(before, queue) && sent == DeliverAll(before, queue, fates, i)
      modifies this`sent, router`rrIndex, router.pool`slots, router.pool.clients.Values
      ensures router.Valid() && router.CurrentLoad() == loads[i + 1]
      ensures sent == DeliverAll(before, queue, fates, i + 1) && kept == fates[i].Kept()
    {
      NextIsEmpty(before, queue, fates, i);
      assert RoundAt(env, items, now, loads, fates, i);
      kept := HandleItem(queue[i], now, loads[i + 1], fates[i]);
    }

    /** `processQueue`: every queued item is tried once, in arrival order. */
    method ProcessQueue(now: int)
      requires Valid() && router.Valid()
      modifies this`queue, this`sent, router`rrIndex, router.pool`slots, router.pool.clients.Values
      ensures Valid() && router.Valid()
      ensures var items, n := old(Views(queue)), |old(queue)|;
              var fates := Fates(old(router.CurrentEnv()), old(router.CurrentLoad()), items, now);
        && router.CurrentLoad() == LoadAt(old(router.CurrentEnv()), old(router.CurrentLoad()), items, now, n)
        && queue == KeptOf(old(queue), fates, n)
        && sent == DeliverAll(old(sent), old(queue), fates, n)
    {
      ghost var env, load, items := router.CurrentEnv(), router.CurrentLoad(), Views(queue);
      ghost var fates := Fates(env, load, items, now);
      PassIsRounds(env, load, items, now);
      var remaining := RunPass(now, env, items, Loads(env, load, items, now), fates);
      KeptStillWaits(old(sent), queue, fates);
      queue := remaining;
    }

    /** `drain`: whoever still waits is told that the request was cancelled. */
    method Drain()
      requires Valid()
      modifies this`queue, this`sent
      ensures Valid() && queue == []
      ensures sent == CancelAll(old(sent), old(queue), |old(queue)|)
    {
      for i := 0 to |queue|
        invariant queue == old(queue)
        invariant sent == CancelAll(old(sent), queue, i)
      {
        CanceledOnce(old(sent), queue, i);
        Send(queue[i], Canceled);
      }
      queue := [];
    }
  }
}
