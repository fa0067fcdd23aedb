/**
 Deadlines of queued requests (router/queue.go) over every interleaving of module Handoff:
 what one whole pass does with the items that are late, and with those that are not.
 */
module Deadlines {
  import opened Common
  import opened Handoff

  lemma StepKeepsItem(s: State, a: Action, i: ItemId)
    requires i in s.items && Step(s, a).Some?
    ensures var t := Step(s, a).value; i in t.items && t.items[i].deadline == s.items[i].deadline
  {
  }

  /** The deadline that `enqueue` works out, from the time it took, stands for the rest of the run. */
  lemma {:induction false} DeadlineIsMinimum(urls: set<Url>, actions: seq<Action>, k: nat)
    requires Exec(urls, actions).Some? && k < |actions| && actions[k].Enqueue?
    ensures var s, e := Exec(urls, actions).value, actions[k];
      e.i in s.items && s.items[e.i].deadline == MinDeadline(e.at, e.wait, e.ctxDeadline)
  {
    var init := actions[..|actions| - 1];
    if k < |init| {
      DeadlineIsMinimum(urls, init, k);
      StepKeepsItem(Exec(urls, init).value, actions[|init|], actions[k].i);
    }
  }

  /** An item of the queue in the middle of a pass that started at `now`. */
  predicate PassItemOk(s: State, i: ItemId)
    requires s.lock.Passing?
  {
    i in s.items
    && (i in s.lock.todo || i in s.lock.kept || |s.items[i].written| == 1)
    && (i in s.lock.kept ==> s.items[i].deadline >= s.lock.now)
    && (s.items[i].written == [TimedOut] ==> s.items[i].deadline < s.lock.now)
    && (|s.items[i].written| == 1 && s.items[i].written[0].Connected? ==> s.items[i].deadline >= s.lock.now)
    && (s.items[i].written != [] ==> s.items[i].written[0] != Canceled)
  }

  ghost predicate PassOk(s: State) {
    && (s.lock.Passing? ==>
          && s.lock.now <= s.clock
          && (s.lock.hand.Some? ==> s.lock.todo != [] && s.lock.todo[0] in s.items
                                    && s.items[s.lock.todo[0]].deadline >= s.lock.now)
          && (forall i :: i in s.queue ==> PassItemOk(s, i))
          && (forall i :: i in s.lock.kept || i in s.lock.todo ==> i in s.queue))
  }

  lemma CallerKeepsPass(s: State, i: ItemId, move: CallerMove)
    requires Inv(s) && PassOk(s) && CallerStep(s, i, move).Some?
    ensures PassOk(CallerStep(s, i, move).value)
  {
    var t := CallerStep(s, i, move).value;
    if s.lock.Passing? {
      forall j | j in t.queue ensures PassItemOk(t, j) {
        assert PassItemOk(s, j);
      }
    }
  }

  lemma PassMoveKeepsItem(s: State, move: PassMove, j: ItemId)
    requires Inv(s) && PassOk(s) && PassStep(s, move).Some? && move != End && j in s.queue
    ensures PassStep(s, move).value.lock.Passing? && PassItemOk(PassStep(s, move).value, j)
  {
    var i := s.lock.todo[0];
    assert i in Pending(s);
    assert forall r: Reply :: s.items[i].written + [r] == [r];
    assert PassItemOk(s, j);
  }

  lemma PassKeepsPass(s: State, move: PassMove)
    requires Inv(s) && PassOk(s) && PassStep(s, move).Some?
    ensures PassOk(PassStep(s, move).value)
  {
    if move != End {
      forall j | j in s.queue ensures PassItemOk(PassStep(s, move).value, j) {
        PassMoveKeepsItem(s, move, j);
      }
    }
  }

  lemma StepKeepsPass(s: State, a: Action)
    requires Inv(s) && PassOk(s) && Step(s, a).Some?
    ensures PassOk(Step(s, a).value)
  {
    var t := Step(s, a).value;
    match a
    case Caller(i, move) => CallerKeepsPass(s, i, move);
    case Pass(move) => PassKeepsPass(s, move);
    case PassBegin =>
      forall j | j in t.queue ensures PassItemOk(t, j) {
        assert j in Pending(s);
      }
    case Tick(_) => SameItemsKeepPass(s, t);
    case OtherTakes(_) => SameItemsKeepPass(s, t);
    case OtherReleases(_) => SameItemsKeepPass(s, t);
    case AddServer(_) => SameItemsKeepPass(s, t);
    case RemoveServer(_) => SameItemsKeepPass(s, t);
    case Enqueue(_, _, _, _) =>
    case DrainBegin =>
    case Drain(_) =>
  }

  lemma SameItemsKeepPass(s: State, t: State)
    requires PassOk(s) && t.items == s.items && t.queue == s.queue && t.lock == s.lock && t.clock >= s.clock
    ensures PassOk(t)
  {
  }

  lemma {:induction false} ReachablePassOk(urls: set<Url>, actions: seq<Action>)
    requires Exec(urls, actions).Some?
    ensures PassOk(Exec(urls, actions).value)
  {
    if actions != [] {
      var init := actions[..|actions| - 1];
      ReachableInv(urls, init);
      ReachablePassOk(urls, init);
      StepKeepsPass(Exec(urls, init).value, actions[|actions| - 1]);
    }
  }

  /**
   At the end of a pass, for everything that was queued when it began: a late item has been
   told so, and only a late one; a connection went only to an item in time; and what stays
   in the queue is in time.
   */
  lemma PassSettlesDeadlines(urls: set<Url>, actions: seq<Action>, i: ItemId)
    requires Exec(urls, actions).Some?
    requires var s := Exec(urls, actions).value; s.lock.Passing? && s.lock.todo == [] && i in s.queue
    ensures var s := Exec(urls, actions).value;
      && i in s.items && s.lock.now <= s.clock
      && (s.items[i].deadline < s.lock.now <==> s.items[i].written == [TimedOut])
      && (s.items[i].deadline < s.lock.now ==> i !in s.lock.kept)
      && (i !in s.lock.kept && s.items[i].deadline >= s.lock.now
          ==> |s.items[i].written| == 1 && s.items[i].written[0].Connected?)
  {
    ReachableInv(urls, actions);
    ReachablePassOk(urls, actions);
    var s := Exec(urls, actions).value;
    assert PassItemOk(s, i) && ItemOk(s.items[i]);
  }

  /** A pass holds a connection only for an item whose deadline it has not passed. */
  lemma NoLateGrant(urls: set<Url>, actions: seq<Action>, i: ItemId, u: Url)
    requires Exec(urls, actions).Some? && InHand(Exec(urls, actions).value, i, u)
    ensures var s := Exec(urls, actions).value;
      i in s.items && s.lock.now <= s.items[i].deadline
  {
    ReachablePassOk(urls, actions);
  }

  /** A connection to `u` was sent to `i`, or is about to be. */
  predicate GotConnection(s: State, i: ItemId, u: Url) {
    i in s.items && (s.items[i].written == [Connected(u)] || InHand(s, i, u))
  }

  /** A pass is at `i`, whose context is live and whose deadline is not past. */
  predicate MayBeServed(s: State, i: ItemId) {
    s.lock.Passing? && s.lock.todo != [] && s.lock.todo[0] == i
    && i in s.items && !s.items[i].done && s.lock.now <= s.items[i].deadline
  }

  lemma CallerGrantsNothing(s: State, i: ItemId, u: Url, j: ItemId, move: CallerMove)
    requires CallerStep(s, j, move).Some? && GotConnection(CallerStep(s, j, move).value, i, u)
    ensures GotConnection(s, i, u)
  {
  }

  lemma PassGrants(s: State, i: ItemId, u: Url, move: PassMove)
    requires Inv(s) && PassStep(s, move).Some? && GotConnection(PassStep(s, move).value, i, u)
    ensures GotConnection(s, i, u) || (move == Acquire(u) && MayBeServed(s, i))
  {
    if s.lock.todo != [] {
      var first := s.lock.todo[0];
      assert first in Pending(s);
      assert forall r: Reply :: s.items[first].written + [r] == [r];
    }
  }

  lemma DrainGrantsNothing(s: State, i: ItemId, u: Url, move: DrainMove)
    requires Inv(s) && DrainStep(s, move).Some? && GotConnection(DrainStep(s, move).value, i, u)
    ensures GotConnection(s, i, u)
  {
    if s.lock.left != [] {
      var first := s.lock.left[0];
      assert first in Pending(s);
      assert forall r: Reply :: s.items[first].written + [r] == [r];
    }
  }

  lemma StepGrants(s: State, a: Action, i: ItemId, u: Url)
    requires Inv(s) && Step(s, a).Some? && GotConnection(Step(s, a).value, i, u)
    ensures GotConnection(s, i, u) || (a == Pass(Acquire(u)) && MayBeServed(s, i))
  {
    match a
    case Caller(j, move) => CallerGrantsNothing(s, i, u, j, move);
    case Pass(move) => PassGrants(s, i, u, move);
    case Drain(move) => DrainGrantsNothing(s, i, u, move);
    case _ =>
  }

  /** Whoever was sent a connection was live, in time and next in the pass when it was acquired. */
  lemma {:induction false} GrantedWhileLive(urls: set<Url>, actions: seq<Action>, i: ItemId, u: Url) returns (k: nat)
    requires Exec(urls, actions).Some? && GotConnection(Exec(urls, actions).value, i, u)
    ensures k < |actions| && actions[k] == Pass(Acquire(u))
    ensures Exec(urls, actions[..k]).Some? && MayBeServed(Exec(urls, actions[..k]).value, i)
  {
    var init, a := actions[..|actions| - 1], actions[|actions| - 1];
    var s := Exec(urls, init).value;
    ReachableInv(urls, init);
    StepGrants(s, a, i, u);
    if GotConnection(s, i, u) {
      k := GrantedWhileLive(urls, init, i, u);
      assert init[..k] == actions[..k];
    } else {
      k := |init|;
    }
  }
}
