/**
 The backend pool (backend/backend.go): one client object per server URL, each
 with an inflight counter that `Acquire` and `Release` move without any check
 against the server's limit.
 */
module Backend {
  import opened Common

  datatype ServerConfig = ServerConfig(url: Url, distance: int, maxConn: int)

  datatype Conn = Conn(serverId: Url)

  datatype AcquireError = ServerUnhealthy | ContextDone

  // -------------------------------------------------------------------------
  // The pool as a value
  // -------------------------------------------------------------------------

  datatype Slot = Slot(server: ServerConfig, inflight: int) {
    predicate HasRoom() {
      inflight < server.maxConn
    }
  }

  type Slots = map<Url, Slot>

  /** The counter of `u` moved by `delta`; a URL outside the pool has no counter to move. */
  function Bump(slots: Slots, u: Url, delta: int): Slots {
    if u in slots then slots[u := slots[u].(inflight := slots[u].inflight + delta)] else slots
  }

  /** `AddServer`: a fresh client with a zero counter, whatever was stored before. */
  function Install(slots: Slots, cfg: ServerConfig): Slots {
    slots[cfg.url := Slot(cfg, 0)]
  }

  /** `AddServer` for each configured server in turn. */
  function InstallAll(slots: Slots, cfgs: seq<ServerConfig>): Slots {
    if cfgs == [] then slots
    else Install(InstallAll(slots, cfgs[..|cfgs| - 1]), cfgs[|cfgs| - 1])
  }

  /** Re-adding resets every configured server to zero and leaves the others alone. */
  lemma {:induction false} InstallAllResets(slots: Slots, cfgs: seq<ServerConfig>, u: Url)
    ensures (exists c :: c in cfgs && c.url == u)
            ==> u in InstallAll(slots, cfgs)
                && InstallAll(slots, cfgs)[u].inflight == 0
                && InstallAll(slots, cfgs)[u].server in cfgs
                && InstallAll(slots, cfgs)[u].server.url == u
    ensures (forall c :: c in cfgs ==> c.url != u)
            ==> (u in InstallAll(slots, cfgs) <==> u in slots)
                && (u in slots ==> InstallAll(slots, cfgs)[u] == slots[u])
  {
    if cfgs != [] {
      var init, last := cfgs[..|cfgs| - 1], cfgs[|cfgs| - 1];
      assert forall c :: c in cfgs <==> c in init || c == last;
      InstallAllResets(slots, init, u);
    }
  }

  /** Of several configurations with one URL the last one stands. */
  lemma {:induction false} LastConfigStands(slots: Slots, cfgs: seq<ServerConfig>, k: nat)
    requires k < |cfgs| && forall j :: k < j < |cfgs| ==> cfgs[j].url != cfgs[k].url
    ensures cfgs[k].url in InstallAll(slots, cfgs) && InstallAll(slots, cfgs)[cfgs[k].url] == Slot(cfgs[k], 0)
  {
    var init := cfgs[..|cfgs| - 1];
    if k < |init| {
      LastConfigStands(slots, init, k);
    }
  }

  // -------------------------------------------------------------------------
  // The pool as an object
  // -------------------------------------------------------------------------

  class Client {
    const server: ServerConfig
    var inflight: int

    constructor (cfg: ServerConfig)
      ensures server == cfg && inflight == 0
    {
      server := cfg;
      inflight := 0;
    }
  }

  class Pool {
    var clients: map<Url, Client>
    ghost var slots: Slots  // the pool as a value

    /** `slots` mirrors the clients; each client sits under its own URL, so no two URLs share a counter. */
    ghost predicate Valid()
      reads this, clients.Values
    {
      && slots.Keys == clients.Keys
      && forall u :: u in clients ==>
           clients[u].server.url == u && slots[u] == Slot(clients[u].server, clients[u].inflight)
    }

    constructor ()
      ensures Valid() && slots == map[]
    {
      clients := map[];
      slots := map[];
    }

    /**
     Counts first and looks at the context second, as the source does: a done
     context takes the increment back.
     */
    method Acquire(done: bool, id: Url) returns (r: Result<Conn, AcquireError>)
      requires Valid()
      modifies this`slots, clients.Values
      ensures Valid()
      ensures r == if id !in old(slots) then Err(ServerUnhealthy)
                   else if done then Err(ContextDone)
                   else Ok(Conn(id))
      ensures slots == if r.Ok? then Bump(old(slots), id, 1) else old(slots)
    {
      if id !in clients {
        return Err(ServerUnhealthy);
      }
      var bc := clients[id];
      bc.inflight := bc.inflight + 1;
      if done {
        bc.inflight := bc.inflight - 1;
        return Err(ContextDone);
      }
      slots := Bump(slots, id, 1);
      return Ok(Conn(id));
    }

    method Release(conn: Conn)
      requires Valid()
      modifies this`slots, clients.Values
      ensures Valid()
      ensures slots == Bump(old(slots), conn.serverId, -1)
    {
      if conn.serverId in clients {
        var bc := clients[conn.serverId];
        bc.inflight := bc.inflight - 1;
        slots := Bump(slots, conn.serverId, -1);
      }
    }

    method Inflight(id: Url) returns (n: int)
      requires Valid()
      ensures n == if id in slots then slots[id].inflight else 0
    {
      if id !in clients {
        return 0;
      }
      n := clients[id].inflight;
    }

    method GetServer(id: Url) returns (r: Option<ServerConfig>)
      requires Valid()
      ensures r == if id in slots then Some(slots[id].server) else None
    {
      if id !in clients {
        return None;
      }
      r := Some(clients[id].server);
    }

    method AddServer(cfg: ServerConfig)
      requires Valid()
      modifies this
      ensures Valid() && fresh(clients.Values - old(clients.Values))
      ensures slots == Install(old(slots), cfg)
    {
      var bc := new Client(cfg);
      clients := clients[cfg.url := bc];
      slots := Install(slots, cfg);
    }

    method RemoveServer(id: Url)
      requires Valid()
      modifies this
      ensures Valid() && clients.Values <= old(clients.Values)
      ensures slots == old(slots) - {id}
    {
      clients := clients - {id};
      slots := slots - {id};
    }
  }
}
