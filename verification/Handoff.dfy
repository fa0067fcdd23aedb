/**
 The queue's handoff of connections (router/queue.go) as a transition system: callers
 inside `enqueue`, contexts that end at any moment, the queue goroutine's passes, `drain`,
 and whoever else holds connections. One action is one atomic step; in particular a pass
 acquires a connection for an item in one step and sends it in another.

 A pass may be granted any pooled server for a live item, and may fail to get one at any
 time: what `route` would choose plays no part in these properties, so they hold for every
 choice it can make. A failed acquire, which moves a counter up and down again, is an
 `OtherTakes` followed by an `OtherReleases`. Servers may be added and removed at any time.
 */
module Handoff {
  import opened Common

  type ItemId = nat

  datatype Reply = Connected(url: Url) | TimedOut | Canceled

  /** Where the caller of `enqueue` is. */
  datatype Phase =
    | Selecting              // at the outer select
    | Leaving              // it took the context's branch and is at the inner select
    | Removing             // the inner select found no result; removeItem comes next
    | Releasing(url: Url)  // the inner select found a connection, which is now given back
    | Holding(url: Url)    // enqueue returned this connection
    | Returned             // enqueue is over and its caller holds nothing

  /** `chan` is the one-place channel; `written` lists everything ever sent on it. */
  datatype Item = Item(deadline: int, done: bool, phase: Phase, chan: Option<Reply>, written: seq<Reply>)

  /** Who has the queue's mutex; `hand` is the connection acquired for the first of `todo`. */
  datatype Lock =
    | Free
    | Passing(now: int, todo: seq<ItemId>, kept: seq<ItemId>, hand: Option<Url>)
    | Draining(left: seq<ItemId>)

  datatype State = State(clock: int, inflight: map<Url, int>, others: map<Url, nat>,
                         items: map<ItemId, Item>, queue: seq<ItemId>, lock: Lock)

  datatype CallerMove = Receive | Leave | InnerReceive | InnerDefault | Remove | Release | EndContext

  datatype PassMove = Expire | Acquire(u: Url) | Hand | Keep | End

  datatype DrainMove = Cancel | Finish

  datatype Action =
    | Tick(n: nat)
    | OtherTakes(u: Url)
    | OtherReleases(u: Url)
    | AddServer(u: Url)     // a zero counter, whatever was stored before
    | RemoveServer(u: Url)
    | Enqueue(i: ItemId, at: int, wait: nat, ctxDeadline: Option<int>)
    | Caller(i: ItemId, move: CallerMove)
    | PassBegin
    | Pass(step: PassMove)
    | DrainBegin
    | Drain(turn: DrainMove)

  function Initial(urls: set<Url>): State {
    State(0, map u | u in urls :: 0, map u | u in urls :: 0, map[], [], Free)
  }

  // -------------------------------------------------------------------------
  // Steps
  // -------------------------------------------------------------------------

  function Put(s: State, i: ItemId, item: Item): State {
    s.(items := s.items[i := item])
  }

  /** A server outside the pool has no counter to move. */
  function AddInflight(s: State, u: Url, n: int): State {
    if u in s.inflight then s.(inflight := s.inflight[u := s.inflight[u] + n]) else s
  }

  /** A send that finds the channel full does not happen: its sender is stuck. */
  function Send(s: State, i: ItemId, r: Reply): Option<State> {
    if i in s.items && s.items[i].chan == None then
      Some(Put(s, i, s.items[i].(chan := Some(r), written := s.items[i].written + [r])))
    else None
  }

  /** The caller of item `i` moves on, or its context ends. */
  function CallerStep(s: State, i: ItemId, move: CallerMove): Option<State> {
    if i !in s.items then None
    else
      var x := s.items[i];
      match move
      case Receive =>
        if x.phase == Selecting && x.chan.Some? then
          var next := if x.chan.value.Connected? then Holding(x.chan.value.url) else Returned;
          Some(Put(s, i, x.(chan := None, phase := next)))
        else None
      case Leave =>
        if x.phase == Selecting && x.done then Some(Put(s, i, x.(phase := Leaving))) else None
      case InnerReceive =>
        if x.phase == Leaving && x.chan.Some? then
          var next := if x.chan.value.Connected? then Releasing(x.chan.value.url) else Returned;
          Some(Put(s, i, x.(chan := None, phase := next)))
        else None
      case InnerDefault =>
        if x.phase == Leaving && x.chan == None then Some(Put(s, i, x.(phase := Removing))) else None
      case Remove =>
        if x.phase == Removing && s.lock == Free then
          Some(Put(s, i, x.(phase := Returned)).(queue := Drop(s.queue, i)))
        else None
      case Release =>
        if x.phase.Holding? || x.phase.Releasing? then
          Some(AddInflight(Put(s, i, x.(phase := Returned)), x.phase.url, -1))
        else None
      case EndContext => Some(Put(s, i, x.(done := true)))
  }

  /** The queue goroutine's pass moves on. */
  function PassStep(s: State, move: PassMove): Option<State> {
    if !s.lock.Passing? then None
    else if move == End then
      if s.lock.todo == [] then Some(s.(queue := s.lock.kept, lock := Free)) else None
    else if s.lock.todo == [] || s.lock.todo[0] !in s.items then None
    else
      var l := s.lock;
      var i := l.todo[0];
      var x := s.items[i];
      match move
      case Expire =>
        if l.hand == None && l.now > x.deadline then
          match Send(s, i, TimedOut)
          case None => None
          case Some(t) => Some(t.(lock := l.(todo := l.todo[1..])))
        else None
      case Acquire(u) =>
        if l.hand == None && l.now <= x.deadline && !x.done && u in s.inflight then
          Some(AddInflight(s, u, 1).(lock := l.(hand := Some(u))))
        else None
      case Hand =>
        if l.hand.Some? then
          match Send(s, i, Connected(l.hand.value))
          case None => None
          case Some(t) => Some(t.(lock := l.(todo := l.todo[1..], hand := None)))
        else None
      case Keep =>
        if l.hand == None && l.now <= x.deadline then
          Some(s.(lock := l.(todo := l.todo[1..], kept := l.kept + [i])))
        else None
      case End => None
  }

  function DrainStep(s: State, move: DrainMove): Option<State> {
    if !s.lock.Draining? then None
    else
      match move
      case Finish => if s.lock.left == [] then Some(s.(queue := [], lock := Free)) else None
      case Cancel =>
        if s.lock.left == [] then None
        else
          match Send(s, s.lock.left[0], Canceled)
          case None => None
          case Some(t) => Some(t.(lock := Draining(s.lock.left[1..])))
  }

  function Step(s: State, a: Action): Option<State> {
    match a
    case Tick(n) => Some(s.(clock := s.clock + n))
    case OtherTakes(u) =>
      if u in s.inflight && u in s.others then
        Some(AddInflight(s, u, 1).(others := s.others[u := s.others[u] + 1]))
      else None
    case OtherReleases(u) =>
      if u in s.others && s.others[u] > 0 then
        Some(AddInflight(s, u, -1).(others := s.others[u := s.others[u] - 1]))
      else None
    case AddServer(u) =>
      Some(s.(inflight := s.inflight[u := 0], others := s.others[u := if u in s.others then s.others[u] else 0]))
    case RemoveServer(u) => Some(s.(inflight := s.inflight - {u}))
    case Enqueue(i, at, wait, ctxDeadline) =>
      if i !in s.items && at <= s.clock && s.lock == Free then
        Some(Put(s, i, Item(MinDeadline(at, wait, ctxDeadline), false, Selecting, None, [])).(queue := s.queue + [i]))
      else None
    case Caller(i, move) => CallerStep(s, i, move)
    case PassBegin =>
      if s.lock == Free then Some(s.(lock := Passing(s.clock, s.queue, [], None))) else None
    case Pass(move) => PassStep(s, move)
    case DrainBegin =>
      if s.lock == Free then Some(s.(lock := Draining(s.queue))) else None
    case Drain(move) => DrainStep(s, move)
  }

  function Exec(urls: set<Url>, actions: seq<Action>): Option<State> {
    if actions == [] then Some(Initial(urls))
    else
      match Exec(urls, actions[..|actions| - 1])
      case None => None
      case Some(s) => Step(s, actions[|actions| - 1])
  }

  // -------------------------------------------------------------------------
  // At most one result per item, and sends that never block
  // -------------------------------------------------------------------------

  /** The items that can still be sent a result. */
  function Pending(s: State): seq<ItemId> {
    match s.lock
    case Free => s.queue
    case Passing(_, todo, kept, _) => kept + todo
    case Draining(left) => left
  }

  predicate ItemOk(x: Item) {
    && |x.written| <= 1
    && (x.chan.Some? ==> x.written == [x.chan.value])
    && (x.phase.Holding? || x.phase.Releasing? ==> x.chan == None && |x.written| == 1)
    && ((x.phase == Selecting || x.phase == Leaving) && |x.written| == 1 ==> x.chan.Some?)
    && (x.phase == Leaving || x.phase == Removing ==> x.done)
  }

  predicate IsPendingItem(x: Item) {
    x.written == [] && (x.phase == Selecting || x.phase == Leaving || x.phase == Removing)
  }

  predicate Inv(s: State) {
    && (forall i :: i in s.items ==> ItemOk(s.items[i]))
    && Distinct(Pending(s))
    && (forall i :: i in Pending(s) ==> i in s.items && IsPendingItem(s.items[i]))
    && (s.lock.Passing? && s.lock.hand.Some? ==> s.lock.todo != [])
  }

  lemma {:induction false} DropRemoves(queue: seq<ItemId>, i: ItemId)
    requires Distinct(queue)
    ensures Distinct(Drop(queue, i))
    ensures forall j :: j in Drop(queue, i) <==> j in queue && j != i
  {
    if queue != [] {
      assert queue == [queue[0]] + queue[1..];
      if queue[0] != i {
        DropRemoves(queue[1..], i);
        assert queue[0] !in Drop(queue[1..], i);
      }
    }
  }

  lemma CallerKeepsInv(s: State, i: ItemId, move: CallerMove)
    requires Inv(s) && CallerStep(s, i, move).Some?
    ensures Inv(CallerStep(s, i, move).value)
  {
    if move.Remove? {
      DropRemoves(s.queue, i);
    }
  }

  lemma PassKeepsInv(s: State, move: PassMove)
    requires Inv(s) && PassStep(s, move).Some?
    ensures Inv(PassStep(s, move).value)
  {
    var l := s.lock;
    if l.todo != [] {
      assert l.kept + l.todo == (l.kept + [l.todo[0]]) + l.todo[1..];
      assert (l.kept + l.todo)[|l.kept|] == l.todo[0];
      ShorterIsDistinct(l.kept, l.todo);
    } else {
      assert l.kept + l.todo == l.kept;
    }
  }

  lemma ShorterIsDistinct(kept: seq<ItemId>, todo: seq<ItemId>)
    requires Distinct(kept + todo) && todo != []
    ensures Distinct(kept + todo[1..]) && todo[0] !in kept && todo[0] !in todo[1..]
    ensures forall i :: i in kept + todo[1..] ==> i in kept + todo
  {
    var all := kept + todo;
    var less := kept + todo[1..];
    forall i, j | 0 <= i < j < |less| ensures less[i] != less[j] {
      var i', j' := if i < |kept| then i else i + 1, if j < |kept| then j else j + 1;
      assert less[i] == all[i'] && less[j] == all[j'];
    }
    forall k | 0 <= k < |kept| ensures kept[k] != todo[0] {
      assert all[k] != all[|kept|];
    }
    forall k | 0 < k < |todo| ensures todo[k] != todo[0] {
      assert all[|kept| + k] != all[|kept|];
    }
  }

  lemma DrainKeepsInv(s: State, move: DrainMove)
    requires Inv(s) && DrainStep(s, move).Some?
    ensures Inv(DrainStep(s, move).value)
  {
  }

  lemma StepKeepsInv(s: State, a: Action)
    requires Inv(s) && Step(s, a).Some?
    ensures Inv(Step(s, a).value)
  {
    match a
    case Tick(_) =>
    case OtherTakes(_) =>
    case OtherReleases(_) =>
    case AddServer(_) =>
    case RemoveServer(_) =>
    case Enqueue(_, _, _, _) =>
    case Caller(i, move) => CallerKeepsInv(s, i, move);
    case PassBegin => assert Pending(Step(s, a).value) == Pending(s);
    case Pass(move) => PassKeepsInv(s, move);
    case DrainBegin =>
    case Drain(move) => DrainKeepsInv(s, move);
  }

  lemma {:induction false} ReachableInv(urls: set<Url>, actions: seq<Action>)
    requires Exec(urls, actions).Some?
    ensures Inv(Exec(urls, actions).value)
  {
    if actions != [] {
      ReachableInv(urls, actions[..|actions| - 1]);
      StepKeepsInv(Exec(urls, actions[..|actions| - 1]).value, actions[|actions| - 1]);
    }
  }

  /** Over every run at most one result is ever sent to an item, and a queued one has had none. */
  lemma AtMostOneResult(urls: set<Url>, actions: seq<Action>, i: ItemId)
    requires Exec(urls, actions).Some? && i in Exec(urls, actions).value.items
    ensures var s := Exec(urls, actions).value;
      && |s.items[i].written| <= 1
      && (i in Pending(s) ==> s.items[i].written == [] && s.items[i].chan == None)
      && Distinct(Pending(s))
  {
    ReachableInv(urls, actions);
    assert ItemOk(Exec(urls, actions).value.items[i]);
  }

  /** Whenever a pass or a drain is about to send, under the queue's mutex, the channel has room. */
  lemma SendsNeverBlock(urls: set<Url>, actions: seq<Action>)
    requires Exec(urls, actions).Some?
    ensures var s := Exec(urls, actions).value;
      && (s.lock.Passing? && s.lock.todo != [] ==>
            && (s.lock.hand.Some? ==> PassStep(s, Hand).Some?)
            && (s.lock.hand == None && s.lock.todo[0] in s.items && s.lock.now > s.items[s.lock.todo[0]].deadline
                ==> PassStep(s, Expire).Some?)
            && s.lock.todo[0] in s.items)
      && (s.lock.Draining? && s.lock.left != [] ==> DrainStep(s, Cancel).Some?)
  {
    ReachableInv(urls, actions);
    var s := Exec(urls, actions).value;
    if Pending(s) != [] && !s.lock.Free? {
      var i := if s.lock.Passing? && s.lock.todo != [] then s.lock.todo[0] else Pending(s)[0];
      assert i in Pending(s);
      assert ItemOk(s.items[i]);
    }
  }

  // -------------------------------------------------------------------------
  // Conservation of slots
  // -------------------------------------------------------------------------

  predicate InHand(s: State, i: ItemId, u: Url) {
    s.lock.Passing? && s.lock.hand == Some(u) && s.lock.todo != [] && s.lock.todo[0] == i
  }

  /** A connection to `u` is with the caller of `i`, in its channel, or on its way there. */
  predicate Owns(s: State, i: ItemId, u: Url) {
    i in s.items
    && (s.items[i].phase == Holding(u) || s.items[i].phase == Releasing(u)
        || s.items[i].chan == Some(Connected(u)) || InHand(s, i, u))
  }

  function Owners(s: State, u: Url): set<ItemId> {
    set i | i in s.items && Owns(s, i, u)
  }

  /** The connections to `u` that somebody has or is about to get. */
  function Held(s: State, u: Url): nat {
    (if u in s.others then s.others[u] else 0) + |Owners(s, u)|
  }

  /** The counter is the connections held, less `base`. */
  predicate Conserved(s: State, u: Url, base: nat) {
    u in s.inflight && u in s.others && s.inflight[u] + base == Held(s, u)
  }

  /** The connections to `u` that were held when `u` was last added. */
  function HeldAtLastAdd(urls: set<Url>, actions: seq<Action>, u: Url): nat {
    if actions == [] then 0
    else
      var init := actions[..|actions| - 1];
      if actions[|actions| - 1] == AddServer(u) && Exec(urls, init).Some? then Held(Exec(urls, init).value, u)
      else HeldAtLastAdd(urls, init, u)
  }

  /** Only item `i` changes hands. */
  ghost predicate OnlyOwner(s: State, t: State, i: ItemId, u: Url) {
    forall j :: j != i ==> (Owns(t, j, u) <==> Owns(s, j, u))
  }

  lemma OwnersAfter(s: State, t: State, i: ItemId, u: Url)
    requires OnlyOwner(s, t, i, u)
    ensures |Owners(t, u)| == |Owners(s, u)| - One(Owns(s, i, u)) + One(Owns(t, i, u))
  {
    assert Owners(t, u) - {i} == Owners(s, u) - {i};
    CountChange(Owners(s, u), Owners(t, u), i);
  }

  /** A caller's move changes who owns what for its own item only, and the counter with it. */
  lemma CallerOwners(s: State, i: ItemId, move: CallerMove, u: Url)
    requires Inv(s) && CallerStep(s, i, move).Some? && u in s.inflight
    ensures var t := CallerStep(s, i, move).value;
      && OnlyOwner(s, t, i, u) && t.others == s.others && u in t.inflight
      && t.inflight[u] - One(Owns(t, i, u)) == s.inflight[u] - One(Owns(s, i, u))
  {
    assert ItemOk(s.items[i]);
  }

  lemma CallerConserves(s: State, i: ItemId, move: CallerMove, u: Url, base: nat)
    requires Inv(s) && Conserved(s, u, base) && CallerStep(s, i, move).Some?
    ensures Conserved(CallerStep(s, i, move).value, u, base)
  {
    CallerOwners(s, i, move, u);
    OwnersAfter(s, CallerStep(s, i, move).value, i, u);
  }

  lemma PassConserves(s: State, move: PassMove, u: Url, base: nat)
    requires Inv(s) && Conserved(s, u, base) && PassStep(s, move).Some?
    ensures Conserved(PassStep(s, move).value, u, base)
  {
    var t := PassStep(s, move).value;
    if move == End {
      assert Owners(t, u) == Owners(s, u);
    } else {
      var i := s.lock.todo[0];
      assert i in Pending(s);
      assert ItemOk(s.items[i]);
      OwnersAfter(s, t, i, u);
    }
  }

  /** Items untouched, and no connection on its way to a channel. */
  lemma SameOwners(s: State, t: State, u: Url)
    requires t.items == s.items
    requires t.lock == s.lock
             || ((s.lock.Passing? ==> s.lock.hand == None) && (t.lock.Passing? ==> t.lock.hand == None))
    ensures Owners(t, u) == Owners(s, u)
  {
  }

  lemma DrainConserves(s: State, move: DrainMove, u: Url, base: nat)
    requires Inv(s) && Conserved(s, u, base) && DrainStep(s, move).Some?
    ensures Conserved(DrainStep(s, move).value, u, base)
  {
    var t := DrainStep(s, move).value;
    if move == Cancel {
      var i := s.lock.left[0];
      assert i in Pending(s) && ItemOk(s.items[i]);
      OwnersAfter(s, t, i, u);
    } else {
      SameOwners(s, t, u);
    }
  }

  lemma EnqueueConserves(s: State, a: Action, u: Url, base: nat)
    requires Conserved(s, u, base) && a.Enqueue? && Step(s, a).Some?
    ensures Conserved(Step(s, a).value, u, base)
  {
    OwnersAfter(s, Step(s, a).value, a.i, u);
  }

  /** Every step but an add or a removal of `u` moves its counter with the connections held. */
  lemma StepConserves(s: State, a: Action, u: Url, base: nat)
    requires Inv(s) && Conserved(s, u, base) && Step(s, a).Some?
    requires a != AddServer(u) && a != RemoveServer(u)
    ensures Conserved(Step(s, a).value, u, base)
  {
    match a
    case Enqueue(_, _, _, _) => EnqueueConserves(s, a, u, base);
    case Caller(i, move) => CallerConserves(s, i, move, u, base);
    case Pass(move) => PassConserves(s, move, u, base);
    case Drain(move) => DrainConserves(s, move, u, base);
    case _ => SameOwners(s, Step(s, a).value, u);
  }

  lemma AddConserves(s: State, u: Url)
    ensures Step(s, AddServer(u)).Some? && Conserved(Step(s, AddServer(u)).value, u, Held(s, u))
  {
    SameOwners(s, Step(s, AddServer(u)).value, u);
  }

  /** Only an add puts a server into the pool. */
  lemma PooledBefore(s: State, a: Action, u: Url)
    requires Step(s, a).Some? && u in Step(s, a).value.inflight && a != AddServer(u)
    ensures u in s.inflight && a != RemoveServer(u)
  {
  }

  /**
   Over every interleaving, adds and removals of servers included, a pooled server's counter
   is the number of connections its holders have (those outside the queue, the callers
   inside `enqueue`, the channels, and the pass itself) minus those held at its last add.
   */
  lemma {:induction false} SlotsAreConserved(urls: set<Url>, actions: seq<Action>, u: Url)
    requires Exec(urls, actions).Some? && u in Exec(urls, actions).value.inflight
    ensures Conserved(Exec(urls, actions).value, u, HeldAtLastAdd(urls, actions, u))
  {
    if actions == [] {
      assert Owners(Initial(urls), u) == {};
    } else {
      var init, a := actions[..|actions| - 1], actions[|actions| - 1];
      var s := Exec(urls, init).value;
      if a == AddServer(u) {
        AddConserves(s, u);
      } else {
        PooledBefore(s, a, u);
        ReachableInv(urls, init);
        SlotsAreConserved(urls, init, u);
        StepConserves(s, a, u, HeldAtLastAdd(urls, init, u));
      }
    }
  }

  /** A server that is never added again has nothing to subtract. */
  lemma {:induction false} NeverAddedAgain(urls: set<Url>, actions: seq<Action>, u: Url)
    requires AddServer(u) !in actions
    ensures HeldAtLastAdd(urls, actions, u) == 0
  {
    if actions != [] {
      assert actions[|actions| - 1] in actions;
      NeverAddedAgain(urls, actions[..|actions| - 1], u);
    }
  }
}
