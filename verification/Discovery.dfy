/**
 The discovery service (discovery/discovery.go) as an object whose maps are edited in
 place. Every method is proved to compute the functions of module Index, whatever order
 its loops visit the maps in.
 */
module Discovery {
  import opened Common
  import opened Index

  /** The model map while the keys in `todo` are still unvisited. */
  ghost function Visited(before: map<Model, seq<Url>>, url: Url, ids: set<Model>, todo: set<Model>)
    : map<Model, seq<Url>>
  {
    map m | m in before && (m in todo || Relisted(before[m], url, m in ids) != [])
      :: if m in todo then before[m] else Relisted(before[m], url, m in ids)
  }

  /** What the second and third map hold at that point. */
  ghost function PrunedDetails(details: map<Model, Raw>, before: map<Model, seq<Url>>, url: Url,
                               ids: set<Model>, todo: set<Model>): map<Model, Raw>
  {
    details - (Dropped(before, url, ids) - todo)
  }

  ghost function StillNew(before: map<Model, seq<Url>>, ids: set<Model>, todo: set<Model>): set<Model> {
    ids - (before.Keys - todo)
  }

  lemma VisitOne(before: map<Model, seq<Url>>, url: Url, ids: set<Model>, todo: set<Model>, m: Model)
    requires m in todo && todo <= before.Keys
    ensures m in Visited(before, url, ids, todo) && Visited(before, url, ids, todo)[m] == before[m]
    ensures m in StillNew(before, ids, todo) <==> m in ids
    ensures StillNew(before, ids, todo - {m}) == StillNew(before, ids, todo) - {m}
    ensures var list := Relisted(before[m], url, m in ids);
      Visited(before, url, ids, todo - {m})
      == if list == [] then Visited(before, url, ids, todo) - {m}
         else Visited(before, url, ids, todo)[m := list]
  {
  }

  lemma PruneOne(details: map<Model, Raw>, before: map<Model, seq<Url>>, url: Url, ids: set<Model>,
                 todo: set<Model>, m: Model)
    requires m in todo && todo <= before.Keys
    ensures PrunedDetails(details, before, url, ids, todo - {m})
         == if Relisted(before[m], url, m in ids) == [] then PrunedDetails(details, before, url, ids, todo) - {m}
            else PrunedDetails(details, before, url, ids, todo)
  {
  }

  /** `url` as the only server of each of the models `seen`. */
  ghost function Announced(before: map<Model, seq<Url>>, seen: set<Model>, url: Url): map<Model, seq<Url>> {
    before + map m | m in seen :: [url]
  }

  lemma AnnounceOne(before: map<Model, seq<Url>>, ids: set<Model>, left: set<Model>, id: Model, url: Url)
    requires id in left && left <= ids
    ensures Announced(before, ids - (left - {id}), url) == Announced(before, ids - left, url)[id := [url]]
  {
  }

  lemma VisitedAll(before: map<Model, seq<Url>>, url: Url, ids: set<Model>, unseen: set<Model>)
    requires unseen == ids - before.Keys
    ensures Announced(Visited(before, url, ids, {}), unseen, url) == Relist(before, url, ids)
  {
    forall m | m in unseen ensures Relisted(ListOf(before, m), url, m in ids) == [url] {
    }
  }

  lemma PerformedStep(servers: seq<Url>, replies: seq<Option<Reply>>, i: nat, x: Index)
    requires |replies| == |servers| && i < |servers|
    ensures var events, r := Performed(servers[i..], replies[i..]), replies[i];
      if r.None? then events == []
      else
        var y := Poll(x, servers[i], r.value);
        if r.value == Unreachable(true) then |events| == 1 && Run(x, events) == y
        else
          && |events| == 1 + |Performed(servers[i + 1..], replies[i + 1..])|
          && Run(x, events) == Run(y, Performed(servers[i + 1..], replies[i + 1..]))
  {
    assert servers[i..][1..] == servers[i + 1..] && replies[i..][1..] == replies[i + 1..];
    if replies[i].Some? {
      var e := Polled(servers[i], replies[i].value);
      assert [e][..0] == [];
      assert Run(x, [e]) == Poll(x, e.url, e.reply);
      var rest := if e.reply == Unreachable(true) then [] else Performed(servers[i + 1..], replies[i + 1..]);
      RunConcat(x, [e], rest);
    }
  }

  /** The pass is not cancelled before or within the poll. */
  predicate Finishes(reply: Option<Reply>) {
    reply.Some? && reply.value != Unreachable(true)
  }

  predicate AllFinish(replies: seq<Option<Reply>>, n: nat)
    requires n <= |replies|
  {
    forall i :: 0 <= i < n ==> Finishes(replies[i])
  }

  class Discovery {
    var servers: seq<Url>
    var models: map<Model, seq<Url>>
    var modelDetails: map<Model, Raw>
    var healthy: map<Url, bool>

    ghost function View(): Index
      reads this
    {
      Index(models, modelDetails, healthy)
    }

    constructor ()
      ensures servers == [] && View() == EMPTY
    {
      servers := [];
      models := map[];
      modelDetails := map[];
      healthy := map[];
    }

    method SetServers(urls: seq<Url>)
      modifies this`servers
      ensures servers == urls
    {
      servers := urls;
    }

    method SetHealthy(url: Url, ok: bool)
      modifies this`healthy
      ensures healthy == old(healthy)[url := ok]
    {
      healthy := healthy[url := ok];
    }

    /** The healthy servers of a model, in list order. */
    method ServersForModel(m: Model) returns (result: seq<Url>)
      ensures result == ServersFor(View(), m)
    {
      result := [];
      if m !in models {
        return;
      }
      var list := models[m];
      for i := 0 to |list|
        invariant result == OnlyHealthy(list[..i], healthy)
      {
        assert list[..i + 1][..i] == list[..i];
        if list[i] in healthy && healthy[list[i]] {
          result := result + [list[i]];
        }
      }
      assert list[..|list|] == list;
    }

    /** The inner loop of `updateModels`: everything but `url`, in order. */
    static method DropServer(list: seq<Url>, url: Url) returns (filtered: seq<Url>)
      ensures filtered == Without(list, url)
    {
      filtered := [];
      for i := 0 to |list|
        invariant filtered == Without(list[..i], url)
      {
        assert list[..i + 1][..i] == list[..i];
        if list[i] != url {
          filtered := filtered + [list[i]];
        }
      }
      assert list[..|list|] == list;
    }

    /**
     Both loops of `updateModels` range over a map that they edit, in no particular order:
     each round takes any key not yet visited. The outcome does not depend on those choices.
     */
    method UpdateModels(url: Url, modelIds: seq<Model>)
      modifies this`models, this`modelDetails
      ensures var ids := set id | id in modelIds;
        && models == Relist(old(models), url, ids)
        && modelDetails == old(modelDetails) - Dropped(old(models), url, ids)
    {
      var advertised := set id | id in modelIds;
      ghost var ids := advertised;
      advertised := RelistKnown(url, advertised);
      VisitedAll(old(models), url, ids, advertised);
      AddUnknown(url, advertised);
    }

    /** The first loop: every known model, and what remains of `advertised` after it. */
    method RelistKnown(url: Url, ids: set<Model>) returns (advertised: set<Model>)
      modifies this`models, this`modelDetails
      ensures models == Visited(old(models), url, ids, {})
      ensures modelDetails == old(modelDetails) - Dropped(old(models), url, ids)
      ensures advertised == ids - old(models).Keys
    {
      advertised := ids;
      var todo := models.Keys;
      ghost var before, details := models, modelDetails;
      while todo != {}
        invariant todo <= before.Keys
        invariant models == Visited(before, url, ids, todo)
        invariant modelDetails == PrunedDetails(details, before, url, ids, todo)
        invariant advertised == StillNew(before, ids, todo)
        decreases |todo|
      {
        var m :| m in todo;
        PruneOne(details, before, url, ids, todo, m);
        VisitOne(before, url, ids, todo, m);
        RelistOne(m, url, m in advertised);
        advertised := advertised - {m};
        todo := todo - {m};
      }
      assert Dropped(before, url, ids) - {} == Dropped(before, url, ids);
    }

    /** One round of it: a model left without servers loses its metadata too. */
    method RelistOne(m: Model, url: Url, named: bool)
      requires m in models
      modifies this`models, this`modelDetails
      ensures var list := Relisted(old(models)[m], url, named);
        && models == (if list == [] then old(models) - {m} else old(models)[m := list])
        && modelDetails == (if list == [] then old(modelDetails) - {m} else old(modelDetails))
    {
      var filtered := DropServer(models[m], url);
      if named {
        filtered := filtered + [url];
      }
      assert filtered == Relisted(old(models)[m], url, named);
      if filtered == [] {
        models := models - {m};
        modelDetails := modelDetails - {m};
      } else {
        models := models[m := filtered];
      }
    }

    /** The second loop: the models nobody listed before. */
    method AddUnknown(url: Url, ids: set<Model>)
      modifies this`models
      ensures models == Announced(old(models), ids, url)
    {
      var advertised := ids;
      ghost var before := models;
      assert ids - ids == {};
      while advertised != {}
        invariant advertised <= ids
        invariant models == Announced(before, ids - advertised, url)
        decreases |advertised|
      {
        var id :| id in advertised;
        AnnounceOne(before, ids, advertised, id, url);
        models := models[id := [url]];
        advertised := advertised - {id};
      }
      assert ids - {} == ids;
    }

    /** One poll of one server. */
    method PollServer(url: Url, reply: Reply)
      modifies this`models, this`modelDetails, this`healthy
      ensures View() == Poll(old(View()), url, reply)
    {
      match reply
      case BadRequest =>
        SetHealthy(url, false);
      case Unreachable(_) =>
        SetHealthy(url, false);
      case BadBody =>
        SetHealthy(url, false);
      case Models(data) =>
        var ids := CollectIds(data);
        UpdateModels(url, ids);
        SetHealthy(url, true);
    }

    /**
     One poll of every configured server. `replies[i]` is how the poll of server `i` ends;
     `None` means that a cancelled context is noticed before it starts.
     */
    method Discover(cancelled: bool, replies: seq<Option<Reply>>) returns (completed: bool)
      requires |replies| == |servers|
      modifies this`models, this`modelDetails, this`healthy
      ensures var events := if cancelled then [] else Performed(servers, replies);
        && View() == Run(old(View()), events)
        && (completed <==> !cancelled && AllFinish(replies, |replies|))
    {
      if cancelled {
        return false;
      }
      for i := 0 to |servers|
        invariant Run(View(), Performed(servers[i..], replies[i..]))
               == Run(old(View()), Performed(servers, replies))
        invariant AllFinish(replies, i)
      {
        PerformedStep(servers, replies, i, View());
        if replies[i].None? {
          return false;
        }
        PollServer(servers[i], replies[i].value);
        if replies[i].value == Unreachable(true) {
          return false;
        }
      }
      return true;
    }

    /** The loop over one reply: collects the ids and stores metadata seen for the first time. */
    method CollectIds(data: seq<Entry>) returns (modelIds: seq<Model>)
      modifies this`modelDetails
      ensures (set id | id in modelIds) == Ids(data)
      ensures modelDetails == FirstWins(old(modelDetails), data)
    {
      modelIds := [];
      for i := 0 to |data|
        invariant (set id | id in modelIds) == Ids(data[..i])
        invariant modelDetails == FirstWins(old(modelDetails), data[..i])
      {
        assert data[..i + 1][..i] == data[..i];
        assert data[..i + 1] == data[..i] + [data[i]];
        ghost var before := modelIds;
        if data[i].Named() {
          modelIds := modelIds + [data[i].id];
          if data[i].id !in modelDetails {
            modelDetails := modelDetails[data[i].id := data[i].raw];
          }
        }
        assert Ids(data[..i + 1]) == Ids(data[..i]) + if data[i].Named() then {data[i].id} else {};
      }
      assert data[..|data|] == data;
    }
  }
}
