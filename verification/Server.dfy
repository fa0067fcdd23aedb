/**
 The two places of server/server.go that move slots: `syncServers`, which adds every
 configured server again, and the bracket of `Route` and `Release` in
 `handleOpenAIProxy`. What a sync does to the meaning of the counters is stated over
 the runs of module Drift.
 */
module Server {
  import opened Common
  import opened Backend
  import opened Discovery
  import opened Index
  import opened Selection
  import opened Routing
  import Drift

  datatype Body = Unreadable | NotJson | Request(model: Model)

  datatype Response =
    | Malformed           // 400
    | NoServersFor        // 503, nothing healthy serves the model
    | AtCapacity          // 503, every candidate is busy
    | ProxyFailed         // 502
    | Proxied             // the upstream reply
    | QueueWaitTimedOut   // 503, the wait in the queue was too long
    | RequestCanceled     // 503, the request was cancelled while it waited
    | RoutingFailed       // 500, any other routing error
    | Parked(item: QueueItem)  // no reply yet: the request is in the queue

  class Server {
    const pool: Pool
    const disc: Discovery
    const queue: QueueManager
    var successes: nat
    var errors: nat

    ghost predicate Valid()
      reads queue, pool, pool.clients.Values
    {
      && queue.router.pool == pool && queue.router.disc == disc
      && queue.Valid() && queue.router.Valid()
    }

    constructor (queue: QueueManager)
      requires queue.Valid() && queue.router.Valid()
      ensures Valid() && this.queue == queue && successes == errors == 0
    {
      this.queue := queue;
      pool := queue.router.pool;
      disc := queue.router.disc;
      successes := 0;
      errors := 0;
    }

    method SyncServers(cfgs: seq<ServerConfig>)
      requires Valid()
      modifies pool, disc`servers
      ensures Valid()
      ensures pool.slots == InstallAll(old(pool.slots), cfgs)
      ensures |disc.servers| == |cfgs| && forall i :: 0 <= i < |cfgs| ==> disc.servers[i] == cfgs[i].url
      ensures disc.View() == old(disc.View())
    {
      for i := 0 to |cfgs|
        invariant Valid() && pool.slots == InstallAll(old(pool.slots), cfgs[..i])
        invariant disc.View() == old(disc.View())
      {
        assert cfgs[..i + 1][..i] == cfgs[..i];
        pool.AddServer(cfgs[i]);
      }
      assert cfgs[..|cfgs|] == cfgs;
      var urls := [];
      for i := 0 to |cfgs|
        invariant |urls| == i && forall j :: 0 <= j < i ==> urls[j] == cfgs[j].url
      {
        urls := urls + [cfgs[i].url];
      }
      disc.SetServers(urls);
    }

    /**
     One request, from its body to its reply; `upstreamFails` says whether the proxied call
     returns an error. Unless the request is parked, every slot is as it was before.
     */
    method HandleProxy(ctx: Context, body: Body, now: int, upstreamFails: bool) returns (r: Response)
      requires Valid()
      modifies this`successes, this`errors
      modifies queue`queue, queue`started, queue`signaled, queue`sent
      modifies queue.router`rrIndex, pool`slots, pool.clients.Values
      ensures Valid() && pool.slots == old(pool.slots)
      ensures r == Malformed <==> !body.Request? || body.model == ""
      ensures r == Malformed ==> queue.router.rrIndex == old(queue.router.rrIndex)
      ensures body.Request? && body.model != "" ==>
        && Answers(r, ServersFor(disc.View(), body.model), pool.slots, queue.router.cfg.strategy, !ctx.done,
                   upstreamFails)
        && queue.router.rrIndex == old(Step(body.model, !ctx.done)).rr
      ensures successes == old(successes) + One(r == Proxied)
      ensures errors == old(errors) + One(r == ProxyFailed)
      ensures r.Parked? ==>
        && fresh(r.item) && queue.queue == old(queue.queue) + [r.item] && queue.signaled
        && r.item.model == body.model && r.item.ctx == ctx
        && r.item.deadline == MinDeadline(now, queue.router.cfg.queueTimeout, ctx.deadline)
      ensures queue.sent == old(queue.sent) && (!r.Parked? ==> queue.queue == old(queue.queue))
    {
      if !body.Request? || body.model == "" {
        return Malformed;
      }
      r := HandleModel(ctx, body.model, now, upstreamFails);
    }

    /** The handler once it knows the model. */
    method HandleModel(ctx: Context, m: Model, now: int, upstreamFails: bool) returns (r: Response)
      requires Valid()
      modifies this`successes, this`errors
      modifies queue`queue, queue`started, queue`signaled, queue`sent
      modifies queue.router`rrIndex, pool`slots, pool.clients.Values
      ensures Valid() && pool.slots == old(pool.slots) && r != Malformed
      ensures Answers(r, old(ServersFor(disc.View(), m)), old(pool.slots), queue.router.cfg.strategy, !ctx.done,
                      upstreamFails)
      ensures queue.router.rrIndex == old(Step(m, !ctx.done)).rr
      ensures successes == old(successes) + One(r == Proxied)
      ensures errors == old(errors) + One(r == ProxyFailed)
      ensures r.Parked? ==>
        && fresh(r.item) && queue.queue == old(queue.queue) + [r.item] && queue.signaled
        && r.item.model == m && r.item.ctx == ctx
        && r.item.deadline == MinDeadline(now, queue.router.cfg.queueTimeout, ctx.deadline)
      ensures queue.sent == old(queue.sent) && (!r.Parked? ==> queue.queue == old(queue.queue))
    {
      ghost var servers, slots, strategy := ServersFor(disc.View(), m), pool.slots, queue.router.cfg.strategy;
      RouteDecides(servers, slots, queue.router.rrIndex, queue.router.sorter, strategy, !ctx.done, m, true);
      var d, item := RouteAndForward(ctx, m, now, upstreamFails);
      match d
      case Granted(_) => r := if upstreamFails then ProxyFailed else Proxied;
      case Rejected(NoServers) => r := NoServersFor;
      case Rejected(AllBusy) => r := AtCapacity;
      case Park => r := Parked(item.value);
    }

    /** A granted connection is used at once: the deferred `Release` runs on both ways out. */
    method RouteAndForward(ctx: Context, m: Model, now: int, upstreamFails: bool)
      returns (d: Decision, item: Option<QueueItem>)
      requires Valid()
      modifies this`successes, this`errors
      modifies queue`queue, queue`started, queue`signaled, queue`sent
      modifies queue.router`rrIndex, pool`slots, pool.clients.Values
      ensures Valid() && pool.slots == old(pool.slots)
      ensures d == old(Step(m, !ctx.done)).decision && queue.router.rrIndex == old(Step(m, !ctx.done)).rr
      ensures successes == old(successes) + One(d.Granted? && !upstreamFails)
      ensures errors == old(errors) + One(d.Granted? && upstreamFails)
      ensures queue.sent == old(queue.sent) && (d != Park ==> queue.queue == old(queue.queue))
      ensures d == Park ==>
        && item.Some? && fresh(item.value) && queue.queue == old(queue.queue) + [item.value] && queue.signaled
        && item.value.model == m && item.value.ctx == ctx
        && item.value.deadline == MinDeadline(now, queue.router.cfg.queueTimeout, ctx.deadline)
    {
      ghost var slots := pool.slots;
      d, item := AskRouter(ctx, m, now);
      if !d.Granted? {
        return;
      }
      BumpBack(slots, d.url);
      Forward(d.url, upstreamFails);
    }

    /** What the router decides on one more request for `m`, and the numbers it leaves. */
    ghost function Step(m: Model, live: bool): Outcome
      requires IsSorter(queue.router.sorter)
      reads queue.router, queue.router.cfg, disc, pool
    {
      RouteStep(ServersFor(disc.View(), m), pool.slots, queue.router.rrIndex, queue.router.sorter,
                queue.router.cfg.strategy, live, m, true)
    }

    /** `Route`, with the slots stated by its answer. */
    method AskRouter(ctx: Context, m: Model, now: int) returns (d: Decision, item: Option<QueueItem>)
      requires Valid()
      modifies queue`queue, queue`started, queue`signaled, queue`sent
      modifies queue.router`rrIndex, pool`slots, pool.clients.Values
      ensures Valid()
      ensures pool.slots == if d.Granted? then Bump(old(pool.slots), d.url, 1) else old(pool.slots)
      ensures d == old(Step(m, !ctx.done)).decision && queue.router.rrIndex == old(Step(m, !ctx.done)).rr
      ensures queue.sent == old(queue.sent) && (d != Park ==> queue.queue == old(queue.queue))
      ensures d == Park ==>
        && item.Some? && fresh(item.value) && queue.queue == old(queue.queue) + [item.value] && queue.signaled
        && item.value.model == m && item.value.ctx == ctx
        && item.value.deadline == MinDeadline(now, queue.router.cfg.queueTimeout, ctx.deadline)
    {
      RouteMovesOneCounter(ServersFor(disc.View(), m), pool.slots, queue.router.rrIndex, queue.router.sorter,
                           queue.router.cfg.strategy, !ctx.done, m, true);
      d, item := queue.Route(ctx, m, now);
    }

    /** The handler once it holds a connection: the deferred `Release` runs on both ways out. */
    method Forward(u: Url, upstreamFails: bool)
      requires Valid()
      modifies this`successes, this`errors, pool`slots, pool.clients.Values
      ensures Valid() && pool.slots == Bump(old(pool.slots), u, -1)
      ensures successes == old(successes) + One(!upstreamFails)
      ensures errors == old(errors) + One(upstreamFails)
    {
      if upstreamFails {
        errors := errors + 1;
      } else {
        successes := successes + 1;
      }
      pool.Release(Conn(u));
    }

    /**
     A parked request gets its result. A connection from the queue is used and released like
     any other; without one no counter moves.
     */
    method Resume(item: QueueItem, upstreamFails: bool) returns (r: Response)
      requires Valid() && item in queue.sent
      modifies this`successes, this`errors, queue`sent, pool`slots, pool.clients.Values
      ensures Valid() && queue.sent == old(queue.sent) - {item}
      ensures match old(queue.sent)[item]
        case Connected(conn) =>
          && r == (if upstreamFails then ProxyFailed else Proxied)
          && pool.slots == Bump(old(pool.slots), conn.serverId, -1)
        case TimedOut => r == QueueWaitTimedOut && pool.slots == old(pool.slots)
        case Canceled => r == RequestCanceled && pool.slots == old(pool.slots)
      ensures successes == old(successes) + One(r == Proxied)
      ensures errors == old(errors) + One(r == ProxyFailed)
    {
      var result := queue.Receive(item);
      match result
      case Connected(conn) =>
        Forward(conn.serverId, upstreamFails);
        r := if upstreamFails then ProxyFailed else Proxied;
      case TimedOut => r := QueueWaitTimedOut;
      case Canceled => r := RequestCanceled;
    }

    /**
     The context of a parked request ends first, by cancellation or at its deadline. A
     connection that was already on its way is given back, and nothing is proxied.
     */
    method GiveUp(item: QueueItem, pastDeadline: bool) returns (r: Response)
      requires Valid()
      modifies queue`queue, queue`sent, pool`slots, pool.clients.Values
      ensures Valid() && r == (if pastDeadline then RoutingFailed else RequestCanceled)
      ensures queue.sent == old(queue.sent) - {item} && item !in queue.queue
      ensures queue.queue == if item in old(queue.sent) then old(queue.queue) else Drop(old(queue.queue), item)
      ensures pool.slots
           == if item in old(queue.sent) && old(queue.sent)[item].Connected?
              then Bump(old(pool.slots), old(queue.sent)[item].conn.serverId, -1)
              else old(pool.slots)
    {
      queue.Abandon(item);
      r := if pastDeadline then RoutingFailed else RequestCanceled;
    }
  }

  /** The reply to a well-formed request, by its candidates, the strategy and the state of its context. */
  ghost predicate Answers(r: Response, servers: seq<Url>, slots: Slots, strategy: Strategy, live: bool,
                          upstreamFails: bool)
  {
    var proxied := if upstreamFails then ProxyFailed else Proxied;
    if forall u :: !Candidate(servers, slots, u) then r == NoServersFor
    else if live && !NoCandidateHasRoom(servers, slots) then r == proxied
    else
      match strategy
      case BestEffort => r == if live then proxied else AtCapacity
      case Queue => r.Parked?
      case FailFast => r == AtCapacity
  }

  lemma BumpBack(slots: Slots, u: Url)
    ensures Bump(Bump(slots, u, 1), u, -1) == slots
  {
  }

  // -------------------------------------------------------------------------
  // A sync in the middle of a run
  // -------------------------------------------------------------------------

  function SyncOps(cfgs: seq<ServerConfig>): (ops: seq<Drift.Op>)
    ensures |ops| == |cfgs|
  {
    seq(|cfgs|, i requires 0 <= i < |cfgs| => Drift.Add(cfgs[i]))
  }

  ghost predicate Configured(cfgs: seq<ServerConfig>, u: Url) {
    exists c :: c in cfgs && c.url == u
  }

  lemma SyncOpsSnoc(ops: seq<Drift.Op>, cfgs: seq<ServerConfig>)
    requires cfgs != []
    ensures ops + SyncOps(cfgs) == (ops + SyncOps(cfgs[..|cfgs| - 1])) + [Drift.Add(cfgs[|cfgs| - 1])]
  {
  }

  lemma OneAdd(ops: seq<Drift.Op>, cfg: ServerConfig)
    requires Drift.Legal(ops)
    ensures var s := Drift.Exec(ops);
      && Drift.Legal(ops + [Drift.Add(cfg)])
      && Drift.Exec(ops + [Drift.Add(cfg)]) == Drift.State(Install(s.slots, cfg), s.live)
  {
    Drift.RunOn(ops, Drift.Add(cfg), cfg.url);
  }

  /** A sync is a run of adds: it changes the pool as `SyncServers` does, and no live connection. */
  lemma {:induction false} SyncIsAdds(ops: seq<Drift.Op>, cfgs: seq<ServerConfig>)
    requires Drift.Legal(ops)
    ensures Drift.Legal(ops + SyncOps(cfgs))
    ensures Drift.Exec(ops + SyncOps(cfgs))
         == Drift.State(InstallAll(Drift.Exec(ops).slots, cfgs), Drift.Exec(ops).live)
  {
    if cfgs == [] {
      assert ops + SyncOps(cfgs) == ops;
    } else {
      var init, last := cfgs[..|cfgs| - 1], cfgs[|cfgs| - 1];
      SyncIsAdds(ops, init);
      SyncOpsSnoc(ops, cfgs);
      OneAdd(ops + SyncOps(init), last);
    }
  }

  lemma {:induction false} SyncRebases(ops: seq<Drift.Op>, cfgs: seq<ServerConfig>, u: Url)
    requires Drift.Legal(ops) && Configured(cfgs, u)
    ensures Drift.LiveAtLastAdd(ops + SyncOps(cfgs), u) == Drift.Exec(ops).live[u]
  {
    var init, last := cfgs[..|cfgs| - 1], cfgs[|cfgs| - 1];
    var before := ops + SyncOps(init);
    SyncOpsSnoc(ops, cfgs);
    assert (before + [Drift.Add(last)])[..|before|] == before;
    if last.url == u {
      SyncIsAdds(ops, init);
    } else {
      assert forall c :: c in cfgs <==> c in init || c == last;
      SyncRebases(ops, init, u);
    }
  }

  lemma {:induction false} BaseStays(ops: seq<Drift.Op>, tail: seq<Drift.Op>, u: Url)
    requires forall i :: 0 <= i < |tail| ==> !Drift.Adds(tail[i], u)
    ensures Drift.LiveAtLastAdd(ops + tail, u) == Drift.LiveAtLastAdd(ops, u)
  {
    if tail == [] {
      assert ops + tail == ops;
    } else {
      assert (ops + tail)[..|ops| + |tail| - 1] == ops + tail[..|tail| - 1];
      BaseStays(ops, tail[..|tail| - 1], u);
    }
  }

  /**
   After a sync, and as long as the server is not added again, its counter is short by
   exactly the connections that were open at the sync, released since or not.
   */
  lemma SyncShiftsCounters(ops: seq<Drift.Op>, cfgs: seq<ServerConfig>, tail: seq<Drift.Op>, u: Url)
    requires Drift.Legal(ops) && Configured(cfgs, u)
    requires Drift.Legal(ops + SyncOps(cfgs) + tail) && u in Drift.Exec(ops + SyncOps(cfgs) + tail).slots
    requires forall i :: 0 <= i < |tail| ==> !Drift.Adds(tail[i], u)
    ensures var end := Drift.Exec(ops + SyncOps(cfgs) + tail);
      end.slots[u].inflight + Drift.Exec(ops).live[u] == end.live[u]
  {
    SyncRebases(ops, cfgs, u);
    BaseStays(ops + SyncOps(cfgs), tail, u);
    Drift.CounterIsLiveMinusBase(ops + SyncOps(cfgs) + tail, u);
  }
}
