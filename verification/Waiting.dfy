/**
 Nobody in the queue (router/queue.go) is forgotten. Over every interleaving of module
 Handoff the items that can still be sent a result are exactly those without one whose
 callers have not left, in the order in which they were enqueued; and a pass attends to
 them in that order.
 */
module Waiting {
  import opened Common
  import opened Handoff
  import Deadlines

  /** The items enqueued in a run, in order. */
  function Arrivals(actions: seq<Action>): seq<ItemId> {
    if actions == [] then []
    else
      var init := Arrivals(actions[..|actions| - 1]);
      match actions[|actions| - 1]
      case Enqueue(i, _, _, _) => init + [i]
      case _ => init
  }

  /** Nothing was ever sent to `i`, and its `enqueue` has not returned. */
  predicate Unanswered(s: State, i: ItemId) {
    i in s.items && s.items[i].written == [] && s.items[i].phase != Returned
  }

  function StillUnanswered(s: State, ids: seq<ItemId>): seq<ItemId> {
    if ids == [] then []
    else (if Unanswered(s, ids[0]) then [ids[0]] else []) + StillUnanswered(s, ids[1..])
  }

  lemma {:induction false} StillMembers(s: State, ids: seq<ItemId>, i: ItemId)
    ensures i in StillUnanswered(s, ids) <==> i in ids && Unanswered(s, i)
  {
    if ids != [] {
      StillMembers(s, ids[1..], i);
      assert ids == [ids[0]] + ids[1..];
    }
  }

  lemma {:induction false} StillSplits(s: State, a: seq<ItemId>, b: seq<ItemId>)
    ensures StillUnanswered(s, a + b) == StillUnanswered(s, a) + StillUnanswered(s, b)
  {
    if a == [] {
      assert a + b == b;
    } else {
      assert (a + b)[1..] == a[1..] + b;
      StillSplits(s, a[1..], b);
    }
  }

  lemma {:induction false} StillSame(s: State, t: State, ids: seq<ItemId>)
    requires forall j :: j in ids ==> (Unanswered(t, j) <==> Unanswered(s, j))
    ensures StillUnanswered(t, ids) == StillUnanswered(s, ids)
  {
    if ids != [] {
      StillSame(s, t, ids[1..]);
    }
  }

  /** One item stops being unanswered. */
  lemma {:induction false} StillDrops(s: State, t: State, ids: seq<ItemId>, i: ItemId)
    requires Distinct(ids) && Unanswered(s, i) && !Unanswered(t, i)
    requires forall j :: j in ids && j != i ==> (Unanswered(t, j) <==> Unanswered(s, j))
    ensures StillUnanswered(t, ids) == Drop(StillUnanswered(s, ids), i)
  {
    if ids != [] {
      assert forall j :: j in ids[1..] ==> j in ids;
      if ids[0] == i {
        StillSame(s, t, ids[1..]);
      } else {
        StillDrops(s, t, ids[1..], i);
        var rest := StillUnanswered(s, ids[1..]);
        assert ([ids[0]] + rest)[1..] == rest;
        assert [] + rest == rest;
      }
    }
  }

  lemma {:induction false} DropPast(a: seq<ItemId>, b: seq<ItemId>, i: ItemId)
    requires i !in a
    ensures Drop(a + ([i] + b), i) == a + b
  {
    if a == [] {
      assert a + ([i] + b) == [i] + b;
    } else {
      assert (a + ([i] + b))[1..] == a[1..] + ([i] + b);
      DropPast(a[1..], b, i);
    }
  }

  // -------------------------------------------------------------------------
  // Steps
  // -------------------------------------------------------------------------

  /** Every item of `s` is in `ids` once, and the unanswered ones are pending in that order. */
  ghost predicate InOrder(s: State, ids: seq<ItemId>) {
    && Distinct(ids)
    && (forall i :: i in s.items <==> i in ids)
    && Pending(s) == StillUnanswered(s, ids)
  }

  /** `i` alone got an answer or left, and it alone went from the pending items. */
  ghost predicate Settles(s: State, t: State, i: ItemId) {
    && t.items.Keys == s.items.Keys
    && Unanswered(s, i) && !Unanswered(t, i)
    && (forall j :: j in s.items && j != i ==> t.items[j] == s.items[j])
    && Pending(t) == Drop(Pending(s), i)
  }

  /** Nobody got an answer or left. */
  ghost predicate SettlesNobody(s: State, t: State) {
    && t.items.Keys == s.items.Keys
    && (forall j :: j in s.items ==> (Unanswered(t, j) <==> Unanswered(s, j)))
    && Pending(t) == Pending(s)
  }

  lemma StepKeepsOrder(s: State, t: State, ids: seq<ItemId>, i: ItemId)
    requires InOrder(s, ids) && (Settles(s, t, i) || SettlesNobody(s, t))
    ensures InOrder(t, ids)
  {
    if SettlesNobody(s, t) {
      StillSame(s, t, ids);
    } else {
      StillDrops(s, t, ids, i);
    }
  }

  lemma RemoveSettles(s: State, ids: seq<ItemId>, i: ItemId)
    requires Inv(s) && InOrder(s, ids) && CallerStep(s, i, Remove).Some?
    ensures var t := CallerStep(s, i, Remove).value;
      if Unanswered(s, i) then Settles(s, t, i) else SettlesNobody(s, t)
  {
    if !Unanswered(s, i) {
      StillMembers(s, ids, i);
      DropAbsent(s.queue, i);
    }
  }

  lemma MoveSettlesNobody(s: State, i: ItemId, move: CallerMove)
    requires Inv(s) && CallerStep(s, i, move).Some? && move != Remove
    ensures SettlesNobody(s, CallerStep(s, i, move).value)
  {
    assert ItemOk(s.items[i]);
  }

  lemma CallerInOrder(s: State, ids: seq<ItemId>, i: ItemId, move: CallerMove)
    requires Inv(s) && InOrder(s, ids) && CallerStep(s, i, move).Some?
    ensures InOrder(CallerStep(s, i, move).value, ids)
  {
    var t := CallerStep(s, i, move).value;
    if move == Remove {
      RemoveSettles(s, ids, i);
    } else {
      MoveSettlesNobody(s, i, move);
    }
    StepKeepsOrder(s, t, ids, i);
  }

  lemma {:induction false} DropAbsent(queue: seq<ItemId>, i: ItemId)
    requires i !in queue
    ensures Drop(queue, i) == queue
  {
    if queue != [] {
      DropAbsent(queue[1..], i);
    }
  }

  lemma PassSettles(s: State, move: PassMove)
    requires Inv(s) && PassStep(s, move).Some? && move != End
    ensures var t, i := PassStep(s, move).value, s.lock.todo[0];
      if move == Expire || move == Hand then Settles(s, t, i) else SettlesNobody(s, t)
  {
    var l := s.lock;
    var i := l.todo[0];
    assert l.kept + l.todo == l.kept + ([i] + l.todo[1..]) == (l.kept + [i]) + l.todo[1..];
    assert i in Pending(s);
    ShorterIsDistinct(l.kept, l.todo);
    DropPast(l.kept, l.todo[1..], i);
  }

  lemma PassInOrder(s: State, ids: seq<ItemId>, move: PassMove)
    requires Inv(s) && InOrder(s, ids) && PassStep(s, move).Some?
    ensures InOrder(PassStep(s, move).value, ids)
  {
    if move == End {
      assert s.lock.kept + s.lock.todo == s.lock.kept;
      StepKeepsOrder(s, PassStep(s, move).value, ids, 0);
    } else {
      PassSettles(s, move);
      StepKeepsOrder(s, PassStep(s, move).value, ids, s.lock.todo[0]);
    }
  }

  lemma DrainInOrder(s: State, ids: seq<ItemId>, move: DrainMove)
    requires Inv(s) && InOrder(s, ids) && DrainStep(s, move).Some?
    ensures InOrder(DrainStep(s, move).value, ids)
  {
    if move == Cancel {
      assert s.lock.left[0] in Pending(s);
      StepKeepsOrder(s, DrainStep(s, move).value, ids, s.lock.left[0]);
    } else {
      StepKeepsOrder(s, DrainStep(s, move).value, ids, 0);
    }
  }

  lemma StillJoins(s: State, t: State, ids: seq<ItemId>, i: ItemId)
    requires forall j :: j in ids ==> (Unanswered(t, j) <==> Unanswered(s, j))
    requires Unanswered(t, i)
    ensures StillUnanswered(t, ids + [i]) == StillUnanswered(s, ids) + [i]
  {
    StillSame(s, t, ids);
    StillSplits(t, ids, [i]);
    assert StillUnanswered(t, [i]) == [i];
  }

  lemma EnqueueInOrder(s: State, ids: seq<ItemId>, a: Action)
    requires InOrder(s, ids) && a.Enqueue? && Step(s, a).Some?
    ensures InOrder(Step(s, a).value, ids + [a.i])
  {
    var t := Step(s, a).value;
    StillJoins(s, t, ids, a.i);
  }

  lemma StepInOrder(s: State, ids: seq<ItemId>, a: Action)
    requires Inv(s) && InOrder(s, ids) && Step(s, a).Some?
    ensures InOrder(Step(s, a).value, if a.Enqueue? then ids + [a.i] else ids)
  {
    match a
    case Enqueue(_, _, _, _) => EnqueueInOrder(s, ids, a);
    case Caller(i, move) => CallerInOrder(s, ids, i, move);
    case Pass(move) => PassInOrder(s, ids, move);
    case Drain(move) => DrainInOrder(s, ids, move);
    case PassBegin =>
      assert [] + s.queue == s.queue;
      StepKeepsOrder(s, Step(s, a).value, ids, 0);
    case _ => StepKeepsOrder(s, Step(s, a).value, ids, 0);
  }

  // -------------------------------------------------------------------------
  // Runs
  // -------------------------------------------------------------------------

  lemma {:induction false} RunInOrder(urls: set<Url>, actions: seq<Action>)
    requires Exec(urls, actions).Some?
    ensures InOrder(Exec(urls, actions).value, Arrivals(actions))
  {
    if actions != [] {
      var init := actions[..|actions| - 1];
      ReachableInv(urls, init);
      RunInOrder(urls, init);
      StepInOrder(Exec(urls, init).value, Arrivals(init), actions[|actions| - 1]);
    }
  }

  /**
   In every reachable state, in the middle of a pass or a drain too, an item can still be
   sent a result exactly when it was enqueued, has had none, and its caller is still there.
   */
  lemma NobodyIsForgotten(urls: set<Url>, actions: seq<Action>, i: ItemId)
    requires Exec(urls, actions).Some?
    ensures var s := Exec(urls, actions).value;
      && (i in s.items <==> i in Arrivals(actions))
      && (i in Pending(s) <==> i in s.items && s.items[i].written == [] && s.items[i].phase != Returned)
  {
    RunInOrder(urls, actions);
    StillMembers(Exec(urls, actions).value, Arrivals(actions), i);
  }

  lemma {:induction false} StillPositions(s: State, ids: seq<ItemId>) returns (at: seq<nat>)
    ensures |at| == |StillUnanswered(s, ids)|
    ensures forall k :: 0 <= k < |at| ==> at[k] < |ids| && StillUnanswered(s, ids)[k] == ids[at[k]]
    ensures forall j, k :: 0 <= j < k < |at| ==> at[j] < at[k]
  {
    if ids == [] {
      at := [];
    } else {
      var later := StillPositions(s, ids[1..]);
      at := (if Unanswered(s, ids[0]) then [0] else []) + seq(|later|, k requires 0 <= k < |later| => later[k] + 1);
    }
  }

  /** The items that can still be sent a result stand in the order in which they were enqueued. */
  lemma PendingInOrderOfArrival(urls: set<Url>, actions: seq<Action>) returns (at: seq<nat>)
    requires Exec(urls, actions).Some?
    ensures var s, all := Exec(urls, actions).value, Arrivals(actions);
      && |at| == |Pending(s)|
      && (forall k :: 0 <= k < |at| ==> at[k] < |all| && Pending(s)[k] == all[at[k]])
      && (forall j, k :: 0 <= j < k < |at| ==> at[j] < at[k])
  {
    RunInOrder(urls, actions);
    at := StillPositions(Exec(urls, actions).value, Arrivals(actions));
  }

  lemma SameBefore(a: seq<ItemId>, b: seq<ItemId>, c: seq<ItemId>, d: seq<ItemId>, i: ItemId)
    requires a + ([i] + b) == c + ([i] + d) && i !in a && i !in c
    ensures a == c
  {
    assert (a + ([i] + b))[|a|] == i && (c + ([i] + d))[|c|] == i;
    assert (a + ([i] + b))[..|a|] == a && (c + ([i] + d))[..|c|] == c;
  }

  lemma StillAround(s: State, ids: seq<ItemId>, p: nat)
    requires p < |ids| && Unanswered(s, ids[p])
    ensures StillUnanswered(s, ids)
         == StillUnanswered(s, ids[..p]) + ([ids[p]] + StillUnanswered(s, ids[p + 1..]))
  {
    assert ids == ids[..p] + ids[p..] && ids[p..][1..] == ids[p + 1..];
    StillSplits(s, ids[..p], ids[p..]);
  }

  lemma StillBefore(s: State, ids: seq<ItemId>, p: nat, kept: seq<ItemId>, todo: seq<ItemId>)
    requires p < |ids| && todo != [] && todo[0] == ids[p] && Unanswered(s, ids[p])
    requires Distinct(ids) && Distinct(kept + todo) && kept + todo == StillUnanswered(s, ids)
    ensures kept == StillUnanswered(s, ids[..p])
  {
    var i := ids[p];
    StillAround(s, ids, p);
    StillMembers(s, ids[..p], i);
    ShorterIsDistinct(kept, todo);
    assert kept + todo == kept + ([i] + todo[1..]);
    SameBefore(kept, todo[1..], StillUnanswered(s, ids[..p]), StillUnanswered(s, ids[p + 1..]), i);
  }

  lemma KeptBefore(s: State, ids: seq<ItemId>, p: nat)
    requires Inv(s) && InOrder(s, ids) && p < |ids|
    requires s.lock.Passing? && s.lock.todo != [] && s.lock.todo[0] == ids[p]
    ensures s.lock.kept == StillUnanswered(s, ids[..p])
  {
    var kept, todo, i := s.lock.kept, s.lock.todo, ids[p];
    assert (kept + todo)[|kept|] == i;
    assert i in Pending(s);
    StillBefore(s, ids, p, kept, todo);
  }

  /**
   While a pass is at some item, it has kept exactly the unanswered items that came before
   it: whoever is served or timed out next, everybody earlier has had its turn.
   */
  lemma EarlierHadTheirTurn(urls: set<Url>, actions: seq<Action>, p: nat, j: ItemId)
    requires Exec(urls, actions).Some? && p < |Arrivals(actions)|
    requires var s := Exec(urls, actions).value;
      s.lock.Passing? && s.lock.todo != [] && s.lock.todo[0] == Arrivals(actions)[p]
    ensures var s := Exec(urls, actions).value;
      j in Arrivals(actions)[..p] && Unanswered(s, j) <==> j in s.lock.kept
  {
    RunInOrder(urls, actions);
    ReachableInv(urls, actions);
    KeptBefore(Exec(urls, actions).value, Arrivals(actions), p);
    StillMembers(Exec(urls, actions).value, Arrivals(actions)[..p], j);
  }

  // -------------------------------------------------------------------------
  // Nobody is stuck
  // -------------------------------------------------------------------------

  lemma OneMore(urls: set<Url>, actions: seq<Action>, a: Action)
    requires Exec(urls, actions).Some? && Step(Exec(urls, actions).value, a).Some?
    ensures Exec(urls, actions + [a]) == Step(Exec(urls, actions).value, a)
  {
    assert (actions + [a])[..|actions|] == actions;
  }

  /** A pass or a drain under way can always go on by itself, and ends. */
  lemma {:induction false} LockCanBeFreed(urls: set<Url>, actions: seq<Action>) returns (more: seq<Action>)
    requires Exec(urls, actions).Some?
    ensures forall a :: a in more ==> a.Pass? || a.Drain?
    ensures Exec(urls, actions + more).Some? && Exec(urls, actions + more).value.lock == Free
    decreases match Exec(urls, actions).value.lock
      case Free => 0
      case Passing(_, todo, _, _) => |todo| + 1
      case Draining(left) => |left| + 1
  {
    var s := Exec(urls, actions).value;
    if s.lock == Free {
      more := [];
      assert actions + more == actions;
    } else {
      var a := GoOn(s);
      SendsNeverBlock(urls, actions);
      OneMore(urls, actions, a);
      var rest := LockCanBeFreed(urls, actions + [a]);
      more := [a] + rest;
      assert actions + more == actions + [a] + rest;
    }
  }

  /** A step of the pass or the drain that needs nothing from anybody else. */
  function GoOn(s: State): Action {
    match s.lock
    case Passing(now, todo, _, hand) =>
      Pass(if todo == [] then End
           else if hand.Some? then Hand
           else if todo[0] in s.items && now > s.items[todo[0]].deadline then Expire
           else Keep)
    case Draining(left) => Drain(if left == [] then Finish else Cancel)
    case Free => PassBegin
  }

  /** What the caller of `i` does next, or its context if it has nothing else to wait for. */
  function NextMove(x: Item): CallerMove {
    match x.phase
    case Selecting => if x.chan.Some? then Receive else if x.done then Leave else EndContext
    case Leaving => if x.chan.Some? then InnerReceive else InnerDefault
    case Removing => Remove
    case _ => Release
  }

  function Left(x: Item): nat {
    match x.phase
    case Selecting => if x.done then 3 else 4
    case Leaving => 2
    case Returned => 0
    case _ => 1
  }

  lemma {:induction false} CallerCanReturn(urls: set<Url>, actions: seq<Action>, i: ItemId) returns (more: seq<Action>)
    requires Exec(urls, actions).Some? && i in Exec(urls, actions).value.items
    requires Exec(urls, actions).value.lock == Free
    ensures forall a :: a in more ==> a.Caller? && a.i == i
    ensures Exec(urls, actions + more).Some?
    ensures i in Exec(urls, actions + more).value.items
    ensures Exec(urls, actions + more).value.items[i].phase == Returned
    decreases Left(Exec(urls, actions).value.items[i])
  {
    var x := Exec(urls, actions).value.items[i];
    if x.phase == Returned {
      more := [];
      assert actions + more == actions;
    } else {
      var a := Caller(i, NextMove(x));
      OneMore(urls, actions, a);
      var rest := CallerCanReturn(urls, actions + [a], i);
      more := [a] + rest;
      assert actions + more == actions + [a] + rest;
    }
  }

  /**
   From every reachable state every `enqueue` can come to its end by steps of the pass or
   the drain under way, of its own caller and of its own context.
   */
  lemma NobodyIsStuck(urls: set<Url>, actions: seq<Action>, i: ItemId) returns (more: seq<Action>)
    requires Exec(urls, actions).Some? && i in Exec(urls, actions).value.items
    ensures forall a :: a in more ==> a.Pass? || a.Drain? || (a.Caller? && a.i == i)
    ensures Exec(urls, actions + more).Some?
    ensures i in Exec(urls, actions + more).value.items
    ensures Exec(urls, actions + more).value.items[i].phase == Returned
  {
    var first := LockCanBeFreed(urls, actions);
    ItemsStay(urls, actions, first, i);
    var rest := CallerCanReturn(urls, actions + first, i);
    more := first + rest;
    assert actions + more == actions + first + rest;
  }

  lemma {:induction false} ItemsStay(urls: set<Url>, actions: seq<Action>, more: seq<Action>, i: ItemId)
    requires Exec(urls, actions).Some? && i in Exec(urls, actions).value.items
    requires Exec(urls, actions + more).Some?
    ensures i in Exec(urls, actions + more).value.items
  {
    if more == [] {
      assert actions + more == actions;
    } else {
      var init, a := more[..|more| - 1], more[|more| - 1];
      assert (actions + more)[..|actions + more| - 1] == actions + init;
      ItemsStay(urls, actions, init, i);
      Deadlines.StepKeepsItem(Exec(urls, actions + init).value, a, i);
    }
  }
}
