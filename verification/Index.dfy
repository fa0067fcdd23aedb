/**
 The discovery index (discovery/discovery.go) as a value: which servers listed which
 model, the first metadata seen per model and the health of each server. The index is
 edited poll by poll; the lemmas say what it amounts to after any run of polls.
 */
module Index {
  import opened Common

  type Raw = string

  /** One element of a reply's data array; one that does not decode has no id. */
  datatype Entry = Undecoded | Entry(id: Model, raw: Raw) {
    predicate Named() {
      Entry? && id != ""
    }
  }

  /** How the poll of one server ends. */
  datatype Reply =
    | BadRequest
    | Unreachable(cancelled: bool)
    | BadBody
    | Models(data: seq<Entry>)

  datatype Index = Index(models: map<Model, seq<Url>>, details: map<Model, Raw>, healthy: map<Url, bool>)

  const EMPTY := Index(map[], map[], map[])

  // -------------------------------------------------------------------------
  // One poll
  // -------------------------------------------------------------------------

  function Ids(data: seq<Entry>): set<Model> {
    set e | e in data && e.Named() :: e.id
  }

  /** The entries that count are those that decode and have a non-empty id. */
  lemma NamedIds(data: seq<Entry>, m: Model)
    ensures m in Ids(data) <==> m != "" && exists raw :: Entry.Entry(m, raw) in data
  {
    if m in Ids(data) {
      var e :| e in data && e.Named() && e.id == m;
      assert Entry.Entry(m, e.raw) in data;
    }
    if m != "" && exists raw :: Entry.Entry(m, raw) in data {
      var raw :| Entry.Entry(m, raw) in data;
      assert Entry.Entry(m, raw).Named();
    }
  }

  /** Raw metadata is stored on first encounter only. */
  function FirstWins(details: map<Model, Raw>, data: seq<Entry>): map<Model, Raw> {
    if data == [] then details
    else
      var d, e := FirstWins(details, data[..|data| - 1]), data[|data| - 1];
      if e.Named() && e.id !in d then d[e.id := e.raw] else d
  }

  function Without(servers: seq<Url>, url: Url): seq<Url> {
    if servers == [] then []
    else
      var init, last := servers[..|servers| - 1], servers[|servers| - 1];
      Without(init, url) + if last != url then [last] else []
  }

  function ListOf(models: map<Model, seq<Url>>, m: Model): seq<Url> {
    if m in models then models[m] else []
  }

  /** A polled server moves to the end of the lists it advertises and out of all others. */
  function Relisted(servers: seq<Url>, url: Url, advertised: bool): seq<Url> {
    Without(servers, url) + if advertised then [url] else []
  }

  function Relist(models: map<Model, seq<Url>>, url: Url, ids: set<Model>): map<Model, seq<Url>> {
    map m | m in models.Keys + ids && Relisted(ListOf(models, m), url, m in ids) != []
      :: Relisted(ListOf(models, m), url, m in ids)
  }

  /** The models that lose their last server when `url` advertises `ids`. */
  function Dropped(models: map<Model, seq<Url>>, url: Url, ids: set<Model>): set<Model> {
    set m | m in models && Relisted(models[m], url, m in ids) == []
  }

  function Poll(x: Index, url: Url, reply: Reply): Index {
    if reply.Models? then
      var ids := Ids(reply.data);
      Index(Relist(x.models, url, ids),
            FirstWins(x.details, reply.data) - Dropped(x.models, url, ids),
            x.healthy[url := true])
    else x.(healthy := x.healthy[url := false])
  }

  function OnlyHealthy(servers: seq<Url>, healthy: map<Url, bool>): seq<Url> {
    if servers == [] then []
    else
      var init, last := servers[..|servers| - 1], servers[|servers| - 1];
      OnlyHealthy(init, healthy) + if last in healthy && healthy[last] then [last] else []
  }

  function ServersFor(x: Index, m: Model): seq<Url> {
    OnlyHealthy(ListOf(x.models, m), x.healthy)
  }

  // -------------------------------------------------------------------------
  // Runs of polls
  // -------------------------------------------------------------------------

  datatype Event = Polled(url: Url, reply: Reply) {
    predicate Succeeds() {
      reply.Models?
    }

    predicate Advertises(m: Model) {
      reply.Models? && m in Ids(reply.data)
    }
  }

  function Run(x: Index, events: seq<Event>): Index {
    if events == [] then x
    else
      var e := events[|events| - 1];
      Poll(Run(x, events[..|events| - 1]), e.url, e.reply)
  }

  lemma {:induction false} RunConcat(x: Index, a: seq<Event>, b: seq<Event>)
    ensures Run(x, a + b) == Run(Run(x, a), b)
  {
    if b == [] {
      assert a + b == a;
    } else {
      assert (a + b)[..|a + b| - 1] == a + b[..|b| - 1];
      RunConcat(x, a, b[..|b| - 1]);
    }
  }

  /** The polls of one `Discover` that take place: none after a cancellation is noticed. */
  function Performed(servers: seq<Url>, replies: seq<Option<Reply>>): (events: seq<Event>)
    requires |servers| == |replies|
    ensures |events| <= |servers|
  {
    if servers == [] || replies[0].None? then []
    else
      [Polled(servers[0], replies[0].value)]
      + if replies[0].value == Unreachable(true) then [] else Performed(servers[1..], replies[1..])
  }

  /**
   Which polls take place: the first servers of the list in order, each with its reply;
   they stop before a server that is never reached, or with one whose poll is cancelled.
   */
  lemma {:induction false} PerformedIsPrefix(servers: seq<Url>, replies: seq<Option<Reply>>)
    requires |servers| == |replies|
    ensures var events := Performed(servers, replies); var n := |events|;
      && (forall i :: 0 <= i < n ==> replies[i] == Some(events[i].reply) && events[i].url == servers[i])
      && (forall i :: 0 <= i < n - 1 ==> replies[i] != Some(Unreachable(true)))
      && (n < |servers| ==> replies[n] == None || (n > 0 && replies[n - 1] == Some(Unreachable(true))))
  {
    if servers != [] && replies[0].Some? && replies[0].value != Unreachable(true) {
      var rest := Performed(servers[1..], replies[1..]);
      PerformedIsPrefix(servers[1..], replies[1..]);
      assert Performed(servers, replies) == [Polled(servers[0], replies[0].value)] + rest;
    }
  }

  // -------------------------------------------------------------------------
  // The normal form of a list
  // -------------------------------------------------------------------------

  predicate PolledIn(events: seq<Event>, u: Url) {
    exists i :: 0 <= i < |events| && events[i].Succeeds() && events[i].url == u
  }

  /** The old entries none of whose polls succeeded, in old order. */
  function Untouched(servers: seq<Url>, events: seq<Event>): seq<Url> {
    if servers == [] then []
    else
      var init, last := servers[..|servers| - 1], servers[|servers| - 1];
      Untouched(init, events) + if PolledIn(events, last) then [] else [last]
  }

  /** Poll `i` is the last word of its server and it names `m`. */
  predicate Speaks(events: seq<Event>, i: nat, m: Model)
    requires i < |events|
  {
    events[i].Advertises(m)
    && forall j :: i < j < |events| && events[j].Succeeds() ==> events[j].url != events[i].url
  }

  /** The servers among the first `n` polls whose last successful poll names `m`, in polling order. */
  function Speakers(events: seq<Event>, m: Model, n: nat): seq<Url>
    requires n <= |events|
  {
    if n == 0 then []
    else Speakers(events, m, n - 1) + if Speaks(events, n - 1, m) then [events[n - 1].url] else []
  }

  lemma {:induction false} WithoutConcat(a: seq<Url>, b: seq<Url>, u: Url)
    ensures Without(a + b, u) == Without(a, u) + Without(b, u)
  {
    if b == [] {
      assert a + b == a;
    } else {
      assert (a + b)[..|a + b| - 1] == a + b[..|b| - 1];
      WithoutConcat(a, b[..|b| - 1], u);
    }
  }

  lemma {:induction false} UntouchedConcat(a: seq<Url>, b: seq<Url>, events: seq<Event>)
    ensures Untouched(a + b, events) == Untouched(a, events) + Untouched(b, events)
  {
    if b == [] {
      assert a + b == a;
    } else {
      assert (a + b)[..|a + b| - 1] == a + b[..|b| - 1];
      UntouchedConcat(a, b[..|b| - 1], events);
    }
  }

  lemma PolledInSnoc(events: seq<Event>, e: Event, u: Url)
    ensures PolledIn(events + [e], u) <==> PolledIn(events, u) || (e.Succeeds() && e.url == u)
  {
    var all := events + [e];
    if PolledIn(events, u) {
      var i :| 0 <= i < |events| && events[i].Succeeds() && events[i].url == u;
      assert all[i] == events[i];
    }
    if e.Succeeds() && e.url == u {
      assert all[|events|] == e;
    }
    if PolledIn(all, u) {
      var i :| 0 <= i < |all| && all[i].Succeeds() && all[i].url == u;
      assert i < |events| ==> events[i] == all[i];
    }
  }

  lemma {:induction false} UntouchedSnoc(servers: seq<Url>, events: seq<Event>, e: Event)
    ensures Untouched(servers, events + [e])
         == if e.Succeeds() then Without(Untouched(servers, events), e.url) else Untouched(servers, events)
  {
    if servers != [] {
      var init, last := servers[..|servers| - 1], servers[|servers| - 1];
      UntouchedSnoc(init, events, e);
      PolledInSnoc(events, e, last);
      WithoutConcat(Untouched(init, events), if PolledIn(events, last) then [] else [last], e.url);
    }
  }

  /** A successful poll silences what its server said before; a failed one silences nobody. */
  lemma {:induction false} SpeakersSnoc(events: seq<Event>, e: Event, m: Model, n: nat)
    requires n <= |events|
    ensures Speakers(events + [e], m, n)
         == if e.Succeeds() then Without(Speakers(events, m, n), e.url) else Speakers(events, m, n)
  {
    if n > 0 {
      SpeakersSnoc(events, e, m, n - 1);
      SpeaksSnoc(events, e, n - 1, m);
      var all, u := events + [e], events[n - 1].url;
      assert Speakers(all, m, n) == Speakers(all, m, n - 1) + if Speaks(all, n - 1, m) then [u] else [];
      WithoutConcat(Speakers(events, m, n - 1), if Speaks(events, n - 1, m) then [u] else [], e.url);
    }
  }

  lemma SpeaksSnoc(events: seq<Event>, e: Event, i: nat, m: Model)
    requires i < |events|
    ensures Speaks(events + [e], i, m)
            <==> Speaks(events, i, m) && !(e.Succeeds() && e.url == events[i].url)
  {
    var all := events + [e];
    assert all[i] == events[i] && all[|events|] == e;
    if Speaks(all, i, m) {
      forall j | i < j < |events| && events[j].Succeeds() ensures events[j].url != events[i].url {
        assert all[j] == events[j];
      }
    }
  }

  /**
   After any run of polls a model's list is its old entries not successfully polled, in
   old order, followed by the servers whose last successful poll names the model, in
   the order of those polls.
   */
  lemma {:induction false} ListNormalForm(x: Index, events: seq<Event>, m: Model)
    ensures ListOf(Run(x, events).models, m)
         == Untouched(ListOf(x.models, m), events) + Speakers(events, m, |events|)
  {
    if events == [] {
      UntouchedByNothing(ListOf(x.models, m));
    } else {
      var init, e := events[..|events| - 1], events[|events| - 1];
      assert events == init + [e];
      ListNormalForm(x, init, m);
      NormalFormStep(ListOf(x.models, m), init, e, m);
    }
  }

  /** The normal form moves with one poll exactly as the list itself does. */
  lemma NormalFormStep(before: seq<Url>, events: seq<Event>, e: Event, m: Model)
    ensures var form := Untouched(before, events) + Speakers(events, m, |events|);
            var next := Untouched(before, events + [e]) + Speakers(events + [e], m, |events| + 1);
      next == if e.Succeeds() then Relisted(form, e.url, e.Advertises(m)) else form
  {
    UntouchedSnoc(before, events, e);
    SpeakersSnoc(events, e, m, |events|);
    var a, b := Untouched(before, events), Speakers(events, m, |events|);
    assert Speakers(events + [e], m, |events| + 1)
        == Speakers(events + [e], m, |events|) + if e.Advertises(m) then [e.url] else [];
    if e.Succeeds() {
      WithoutConcat(a, b, e.url);
    } else {
      assert (a + b) + [] == a + (b + []);
    }
  }

  lemma {:induction false} UntouchedByNothing(servers: seq<Url>)
    ensures Untouched(servers, []) == servers
  {
    if servers != [] {
      UntouchedByNothing(servers[..|servers| - 1]);
    }
  }

  // -------------------------------------------------------------------------
  // What every run keeps
  // -------------------------------------------------------------------------

  /** Models and metadata have the same keys, and no list is empty or repeats a server. */
  predicate Consistent(x: Index) {
    && x.models.Keys == x.details.Keys
    && (forall m :: m in x.models ==> x.models[m] != [] && Distinct(x.models[m]))
  }

  lemma {:induction false} WithoutMembers(s: seq<Url>, u: Url)
    ensures forall v :: v in Without(s, u) <==> v in s && v != u
  {
    if s != [] {
      WithoutMembers(s[..|s| - 1], u);
      assert s == s[..|s| - 1] + [s[|s| - 1]];
    }
  }

  lemma {:induction false} WithoutDistinct(s: seq<Url>, u: Url)
    requires Distinct(s)
    ensures Distinct(Without(s, u))
  {
    if s != [] {
      var init, last := s[..|s| - 1], s[|s| - 1];
      WithoutDistinct(init, u);
      WithoutMembers(init, u);
      assert last !in init;
    }
  }

  lemma {:induction false} FirstWinsStores(details: map<Model, Raw>, data: seq<Entry>)
    ensures FirstWins(details, data).Keys == details.Keys + Ids(data)
    ensures forall m :: m in details ==> FirstWins(details, data)[m] == details[m]
  {
    if data != [] {
      var init, e := data[..|data| - 1], data[|data| - 1];
      assert data == init + [e];
      FirstWinsStores(details, init);
      assert Ids(data) == Ids(init) + if e.Named() then {e.id} else {};
    }
  }

  /** Entry `i` is the first one that names `m`. */
  predicate IsFirstNaming(data: seq<Entry>, i: nat, m: Model) {
    && i < |data| && data[i].Named() && data[i].id == m
    && forall j :: 0 <= j < i ==> !(data[j].Named() && data[j].id == m)
  }

  lemma {:induction false} FirstWinsIsFirst(details: map<Model, Raw>, data: seq<Entry>, m: Model) returns (i: nat)
    requires m in Ids(data) && m !in details
    ensures IsFirstNaming(data, i, m)
    ensures m in FirstWins(details, data) && FirstWins(details, data)[m] == data[i].raw
  {
    var init, e := data[..|data| - 1], data[|data| - 1];
    assert data == init + [e];
    FirstWinsStores(details, init);
    if m in Ids(init) {
      i := FirstWinsIsFirst(details, init, m);
    } else {
      i := |init|;
      forall j | 0 <= j < |init| ensures !(data[j].Named() && data[j].id == m) {
        assert init[j] in init;
      }
    }
  }

  lemma RelistKeepsDistinct(models: map<Model, seq<Url>>, url: Url, ids: set<Model>, m: Model)
    requires m in models ==> Distinct(models[m])
    ensures Distinct(ListOf(Relist(models, url, ids), m))
  {
    WithoutMembers(ListOf(models, m), url);
    WithoutDistinct(ListOf(models, m), url);
    assert url !in Without(ListOf(models, m), url);
    assert Distinct(Relisted(ListOf(models, m), url, m in ids));
  }

  lemma PollKeepsConsistent(x: Index, url: Url, reply: Reply)
    requires Consistent(x)
    ensures Consistent(Poll(x, url, reply))
  {
    if reply.Models? {
      var ids := Ids(reply.data);
      FirstWinsStores(x.details, reply.data);
      var y := Poll(x, url, reply);
      forall m | m in y.models ensures y.models[m] != [] && Distinct(y.models[m]) {
        RelistKeepsDistinct(x.models, url, ids, m);
      }
      assert y.models.Keys == (x.models.Keys + ids) - Dropped(x.models, url, ids);
    }
  }

  /** Over every run the metadata map and the model map agree, and lists are non-empty and duplicate-free. */
  lemma {:induction false} RunKeepsConsistent(x: Index, events: seq<Event>)
    requires Consistent(x)
    ensures Consistent(Run(x, events))
  {
    if events != [] {
      RunKeepsConsistent(x, events[..|events| - 1]);
      var e := events[|events| - 1];
      PollKeepsConsistent(Run(x, events[..|events| - 1]), e.url, e.reply);
    }
  }

  // -------------------------------------------------------------------------
  // Agreement with the last word of each server
  // -------------------------------------------------------------------------

  lemma {:induction false} SpeakersMembers(events: seq<Event>, m: Model, n: nat)
    requires n <= |events|
    ensures forall u :: u in Speakers(events, m, n)
                        <==> exists i :: 0 <= i < n && Speaks(events, i, m) && events[i].url == u
  {
    if n > 0 {
      SpeakersMembers(events, m, n - 1);
      forall u ensures u in Speakers(events, m, n)
                       <==> exists i :: 0 <= i < n && Speaks(events, i, m) && events[i].url == u
      {
        if i :| 0 <= i < n && Speaks(events, i, m) && events[i].url == u {
          assert i < n - 1 || i == n - 1;
        }
      }
    }
  }

  /**
   Starting empty, a server is in a model's list exactly when its most recent successful
   poll advertised the model, in whatever order the maps were iterated.
   */
  lemma ListedIffSpeaks(events: seq<Event>, m: Model, u: Url)
    ensures u in ListOf(Run(EMPTY, events).models, m)
            <==> exists i :: 0 <= i < |events| && Speaks(events, i, m) && events[i].url == u
  {
    ListNormalForm(EMPTY, events, m);
    SpeakersMembers(events, m, |events|);
    assert Untouched([], events) == [];
  }

  /** Poll `i` is the last one of `u` that brought a list of models. */
  ghost predicate IsLastSuccessOf(events: seq<Event>, i: nat, u: Url) {
    && i < |events| && events[i].url == u && events[i].reply.Models?
    && forall j :: i < j < |events| && events[j].url == u ==> !events[j].reply.Models?
  }

  lemma SpeaksIff(events: seq<Event>, i: nat, m: Model)
    requires i < |events|
    ensures Speaks(events, i, m) <==>
      && IsLastSuccessOf(events, i, events[i].url)
      && m != "" && exists raw :: Entry.Entry(m, raw) in events[i].reply.data
  {
    if events[i].reply.Models? {
      NamedIds(events[i].reply.data, m);
    }
  }

  lemma ListedIffLastPollAdvertises(events: seq<Event>, m: Model, u: Url)
    ensures u in ListOf(Run(EMPTY, events).models, m) <==>
      m != "" && exists i: nat, raw :: IsLastSuccessOf(events, i, u) && Entry.Entry(m, raw) in events[i].reply.data
  {
    ListedIffSpeaks(events, m, u);
    if u in ListOf(Run(EMPTY, events).models, m) {
      var i :| 0 <= i < |events| && Speaks(events, i, m) && events[i].url == u;
      SpeaksIff(events, i, m);
    }
    if i: nat, raw :| m != "" && IsLastSuccessOf(events, i, u) && Entry.Entry(m, raw) in events[i].reply.data {
      SpeaksIff(events, i, m);
      assert Speaks(events, i, m);
    }
  }

  predicate IsLastPollOf(events: seq<Event>, i: nat, u: Url) {
    && i < |events| && events[i].url == u
    && forall j :: i < j < |events| ==> events[j].url != u
  }

  /** Health is the outcome of the last poll. */
  lemma {:induction false} HealthyIffLastPollSucceeded(events: seq<Event>, u: Url)
    ensures var h := Run(EMPTY, events).healthy;
      (u in h && h[u]) <==> exists i: nat :: IsLastPollOf(events, i, u) && events[i].reply.Models?
  {
    if events != [] {
      var init, e := events[..|events| - 1], events[|events| - 1];
      if e.url == u {
        assert IsLastPollOf(events, |init|, u);
      } else {
        HealthyIffLastPollSucceeded(init, u);
        forall i: nat ensures IsLastPollOf(events, i, u) <==> IsLastPollOf(init, i, u) {
        }
        forall i: nat | i < |init| ensures events[i] == init[i] {
        }
      }
    }
  }

  /** `ServersForModel` keeps exactly the healthy members of the list, in list order. */
  lemma {:induction false} OnlyHealthyMembers(s: seq<Url>, healthy: map<Url, bool>)
    ensures forall u :: u in OnlyHealthy(s, healthy) <==> u in s && u in healthy && healthy[u]
    ensures (forall u :: u in s ==> u in healthy && healthy[u]) ==> OnlyHealthy(s, healthy) == s
  {
    if s != [] {
      OnlyHealthyMembers(s[..|s| - 1], healthy);
      assert s == s[..|s| - 1] + [s[|s| - 1]];
    }
  }

  /** The positions of the healthy members, in order. */
  function HealthyAt(s: seq<Url>, healthy: map<Url, bool>): seq<nat> {
    if s == [] then []
    else
      var init, last := s[..|s| - 1], s[|s| - 1];
      HealthyAt(init, healthy) + if last in healthy && healthy[last] then [|init|] else []
  }

  /** It is the list at the increasing positions of its healthy servers. */
  lemma {:induction false} OnlyHealthyInOrder(s: seq<Url>, healthy: map<Url, bool>)
    ensures var at := HealthyAt(s, healthy);
      && |OnlyHealthy(s, healthy)| == |at|
      && (forall k :: 0 <= k < |at| ==> at[k] < |s| && OnlyHealthy(s, healthy)[k] == s[at[k]])
      && (forall j, k :: 0 <= j < k < |at| ==> at[j] < at[k])
      && (forall i :: i in at <==> 0 <= i < |s| && s[i] in healthy && healthy[s[i]])
  {
    if s != [] {
      var init := s[..|s| - 1];
      OnlyHealthyInOrder(init, healthy);
      assert forall i :: 0 <= i < |init| ==> s[i] == init[i];
    }
  }

  lemma {:induction false} OnlyHealthyDistinct(s: seq<Url>, healthy: map<Url, bool>)
    requires Distinct(s)
    ensures Distinct(OnlyHealthy(s, healthy))
  {
    if s != [] {
      var init, last := s[..|s| - 1], s[|s| - 1];
      OnlyHealthyDistinct(init, healthy);
      OnlyHealthyMembers(init, healthy);
      assert last !in init;
    }
  }

  /**
   After any run `ServersForModel` repeats nobody and is made of the servers whose last poll
   brought a list of models with this one in it.
   */
  lemma CandidatesAreLastAdvertisers(events: seq<Event>, m: Model)
    ensures Distinct(ServersFor(Run(EMPTY, events), m))
    ensures forall u :: u in ServersFor(Run(EMPTY, events), m) <==>
      m != "" && exists i: nat, raw :: IsLastPollOf(events, i, u) && events[i].reply.Models?
                                       && Entry.Entry(m, raw) in events[i].reply.data
  {
    var x := Run(EMPTY, events);
    RunKeepsConsistent(EMPTY, events);
    OnlyHealthyDistinct(ListOf(x.models, m), x.healthy);
    OnlyHealthyMembers(ListOf(x.models, m), x.healthy);
    forall u ensures u in ServersFor(x, m) <==>
      m != "" && exists i: nat, raw :: IsLastPollOf(events, i, u) && events[i].reply.Models?
                                       && Entry.Entry(m, raw) in events[i].reply.data
    {
      ListedIffLastPollAdvertises(events, m, u);
      HealthyIffLastPollSucceeded(events, u);
      LastPollIsLastSuccess(events, u);
    }
  }

  lemma LastPollIsLastSuccess(events: seq<Event>, u: Url)
    ensures forall i: nat, j: nat ::
      IsLastPollOf(events, i, u) && events[i].reply.Models? && IsLastSuccessOf(events, j, u) ==> i == j
    ensures forall i: nat :: IsLastPollOf(events, i, u) && events[i].reply.Models? ==> IsLastSuccessOf(events, i, u)
  {
  }

  // -------------------------------------------------------------------------
  // Metadata
  // -------------------------------------------------------------------------

  /**
   From its first encounter until its last advertiser withdraws it, a model's metadata is
   the raw entry that introduced it.
   */
  lemma {:induction false} MetadataFixedWhileListed(x: Index, events: seq<Event>, m: Model)
    requires Consistent(x) && m in x.models
    requires forall k :: 0 <= k <= |events| ==> m in Run(x, events[..k]).models
    ensures m in Run(x, events).details && Run(x, events).details[m] == x.details[m]
  {
    assert events[..|events|] == events;
    RunKeepsConsistent(x, events);
    if events != [] {
      var init, e := events[..|events| - 1], events[|events| - 1];
      forall k | 0 <= k <= |init| ensures m in Run(x, init[..k]).models {
        assert init[..k] == events[..k];
      }
      MetadataFixedWhileListed(x, init, m);
      if e.Succeeds() {
        FirstWinsStores(Run(x, init).details, e.reply.data);
      }
    }
  }

  lemma MetadataIsFirstEncounter(x: Index, url: Url, data: seq<Entry>, m: Model) returns (i: nat)
    requires Consistent(x) && m !in x.models && m in Poll(x, url, Models(data)).models
    ensures m != "" && i < |data| && m in Poll(x, url, Models(data)).details
    ensures data[i] == Entry.Entry(m, Poll(x, url, Models(data)).details[m])
    ensures forall j, raw :: 0 <= j < i ==> data[j] != Entry.Entry(m, raw)
  {
    PollKeepsConsistent(x, url, Models(data));
    assert ListOf(x.models, m) == [];
    i := FirstWinsIsFirst(x.details, data, m);
  }

  // -------------------------------------------------------------------------
  // One pass over distinct servers
  // -------------------------------------------------------------------------

  predicate DistinctServers(events: seq<Event>) {
    forall i, j :: 0 <= i < j < |events| ==> events[i].url != events[j].url
  }

  /** The servers that advertise `m`, in polling order. */
  function Advertisers(events: seq<Event>, m: Model): seq<Url> {
    if events == [] then []
    else
      var e := events[|events| - 1];
      Advertisers(events[..|events| - 1], m) + if e.Advertises(m) then [e.url] else []
  }

  lemma {:induction false} SpeakersOfDistinct(events: seq<Event>, m: Model, n: nat)
    requires DistinctServers(events) && n <= |events|
    ensures Speakers(events, m, n) == Advertisers(events[..n], m)
  {
    if n > 0 {
      SpeakersOfDistinct(events, m, n - 1);
      assert events[..n][..n - 1] == events[..n - 1];
    }
  }

  /** A pass over distinct servers: old entries not successfully polled, then the advertisers. */
  lemma PassNormalForm(x: Index, events: seq<Event>, m: Model)
    requires Consistent(x) && DistinctServers(events)
    ensures ListOf(Run(x, events).models, m)
         == Untouched(ListOf(x.models, m), events) + Advertisers(events, m)
    ensures m in Run(x, events).models
            <==> Untouched(ListOf(x.models, m), events) + Advertisers(events, m) != []
  {
    ListNormalForm(x, events, m);
    SpeakersOfDistinct(events, m, |events|);
    assert events[..|events|] == events;
    RunKeepsConsistent(x, events);
  }

  lemma {:induction false} UntouchedMembers(s: seq<Url>, events: seq<Event>)
    ensures forall u :: u in Untouched(s, events) <==> u in s && !PolledIn(events, u)
  {
    if s != [] {
      var init, last := s[..|s| - 1], s[|s| - 1];
      UntouchedMembers(init, events);
      assert forall u :: u in s <==> u in init || u == last;
    }
  }

  lemma {:induction false} UntouchedWhenUnpolled(s: seq<Url>, events: seq<Event>)
    requires forall u :: u in s ==> !PolledIn(events, u)
    ensures Untouched(s, events) == s
  {
    if s != [] {
      var init, last := s[..|s| - 1], s[|s| - 1];
      assert s == init + [last];
      UntouchedWhenUnpolled(init, events);
      assert last in s;
    }
  }

  lemma {:induction false} UntouchedWhenAllPolled(s: seq<Url>, events: seq<Event>)
    requires forall u :: u in s ==> PolledIn(events, u)
    ensures Untouched(s, events) == []
  {
    if s != [] {
      var init, last := s[..|s| - 1], s[|s| - 1];
      assert s == init + [last];
      UntouchedWhenAllPolled(init, events);
      assert last in s;
    }
  }

  lemma SpeakersWerePolled(events: seq<Event>, m: Model)
    ensures forall u :: u in Speakers(events, m, |events|) ==> PolledIn(events, u)
  {
    SpeakersMembers(events, m, |events|);
    forall u | u in Speakers(events, m, |events|) ensures PolledIn(events, u) {
      var i :| 0 <= i < |events| && Speaks(events, i, m) && events[i].url == u;
      assert events[i].Succeeds();
    }
  }

  /** Repeating the polls of a run leaves every list as it was, whatever the run. */
  lemma RepeatKeepsLists(x: Index, events: seq<Event>, m: Model)
    ensures ListOf(Run(Run(x, events), events).models, m) == ListOf(Run(x, events).models, m)
  {
    var before := ListOf(x.models, m);
    var a, b := Untouched(before, events), Speakers(events, m, |events|);
    ListNormalForm(x, events, m);
    ListNormalForm(Run(x, events), events, m);
    UntouchedConcat(a, b, events);
    UntouchedMembers(before, events);
    UntouchedWhenUnpolled(a, events);
    SpeakersWerePolled(events, m);
    UntouchedWhenAllPolled(b, events);
    assert a + [] == a;
  }

  /** After a run the health of a polled server does not depend on what it was before. */
  lemma {:induction false} RunHealth(x: Index, y: Index, events: seq<Event>, u: Url)
    requires (exists i :: 0 <= i < |events| && events[i].url == u)
             || (u in x.healthy && u in y.healthy && x.healthy[u] == y.healthy[u])
             || (u !in x.healthy && u !in y.healthy)
    ensures u in Run(x, events).healthy <==> u in Run(y, events).healthy
    ensures u in Run(x, events).healthy ==> Run(x, events).healthy[u] == Run(y, events).healthy[u]
  {
    if events != [] {
      var init, e := events[..|events| - 1], events[|events| - 1];
      if e.url != u {
        if i :| 0 <= i < |events| && events[i].url == u {
          assert init[i].url == u;
        }
        RunHealth(x, y, init, u);
      }
    }
  }

  lemma {:induction false} UnpolledHealth(x: Index, events: seq<Event>, u: Url)
    requires forall i :: 0 <= i < |events| ==> events[i].url != u
    ensures u in Run(x, events).healthy <==> u in x.healthy
    ensures u in x.healthy ==> Run(x, events).healthy[u] == x.healthy[u]
  {
    if events != [] {
      UnpolledHealth(x, events[..|events| - 1], u);
    }
  }

  lemma RepeatStaysListed(x: Index, events: seq<Event>, m: Model, k: nat)
    requires Consistent(x) && DistinctServers(events) && k <= |events|
    requires m in Run(x, events).models
    ensures m in Run(Run(x, events), events[..k]).models
  {
    var y, part := Run(x, events), events[..k];
    RunKeepsConsistent(x, events);
    RunKeepsConsistent(y, part);
    ListNormalForm(y, part, m);
    var u := y.models[m][0];
    if PolledIn(part, u) {
      PolledMemberSpeaks(x, events, m, k, u);
    } else {
      UntouchedMembers(y.models[m], part);
      assert u in Untouched(y.models[m], part);
    }
  }

  lemma PolledMemberSpeaks(x: Index, events: seq<Event>, m: Model, k: nat, u: Url)
    requires DistinctServers(events) && k <= |events|
    requires u in ListOf(Run(x, events).models, m) && PolledIn(events[..k], u)
    ensures u in Speakers(events[..k], m, k)
  {
    var part := events[..k];
    var j :| 0 <= j < |part| && part[j].Succeeds() && part[j].url == u;
    assert events[j] == part[j];
    assert PolledIn(events, u);
    var i := PolledMember(x, events, m, u);
    assert i == j;
    assert Speaks(part, i, m);
    SpeakersMembers(part, m, k);
  }

  lemma PolledMember(x: Index, events: seq<Event>, m: Model, u: Url) returns (i: nat)
    requires u in ListOf(Run(x, events).models, m) && PolledIn(events, u)
    ensures i < |events| && Speaks(events, i, m) && events[i].url == u
  {
    ListNormalForm(x, events, m);
    UntouchedMembers(ListOf(x.models, m), events);
    SpeakersMembers(events, m, |events|);
    assert u in Speakers(events, m, |events|);
    i :| 0 <= i < |events| && Speaks(events, i, m) && events[i].url == u;
  }

  /** An identical pass over distinct servers, failures included, changes nothing at all. */
  lemma RepeatedPassChangesNothing(x: Index, events: seq<Event>)
    requires Consistent(x) && DistinctServers(events)
    ensures Run(Run(x, events), events) == Run(x, events)
  {
    var y := Run(x, events);
    var z := Run(y, events);
    RunKeepsConsistent(x, events);
    RunKeepsConsistent(y, events);
    forall m ensures ListOf(z.models, m) == ListOf(y.models, m) {
      RepeatKeepsLists(x, events, m);
    }
    forall m ensures m in z.models <==> m in y.models {
      assert ListOf(z.models, m) == ListOf(y.models, m);
    }
    assert z.models == y.models by {
      forall m | m in y.models ensures z.models[m] == y.models[m] {
        assert ListOf(z.models, m) == ListOf(y.models, m);
      }
    }
    forall m | m in y.details ensures z.details[m] == y.details[m] {
      forall k | 0 <= k <= |events| ensures m in Run(y, events[..k]).models {
        RepeatStaysListed(x, events, m, k);
      }
      MetadataFixedWhileListed(y, events, m);
    }
    assert z.details == y.details;
    forall u ensures u in z.healthy <==> u in y.healthy
             ensures u in y.healthy ==> z.healthy[u] == y.healthy[u]
    {
      if exists i :: 0 <= i < |events| && events[i].url == u {
        RunHealth(x, y, events, u);
      } else {
        UnpolledHealth(y, events, u);
      }
    }
    assert z.healthy == y.healthy;
  }
}
