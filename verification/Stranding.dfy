/**
 When the queue loses a slot. A pass acquires a connection and sends it in two steps; if
 the caller's inner select finds the channel empty between them, the connection ends up
 in a channel nobody reads. That is the only way, and it always loses the slot.
 */
module Stranding {
  import opened Common
  import opened Handoff

  /** The pass holds a connection for `i` that it has not sent yet. */
  predicate BeingHanded(s: State, i: ItemId) {
    s.lock.Passing? && s.lock.hand.Some? && s.lock.todo != [] && s.lock.todo[0] == i
  }

  predicate HasConnection(s: State, i: ItemId) {
    i in s.items && ((s.items[i].chan.Some? && s.items[i].chan.value.Connected?) || BeingHanded(s, i))
  }

  /** The caller will not look at its channel again. */
  predicate Gone(s: State, i: ItemId) {
    i in s.items && (s.items[i].phase == Removing || s.items[i].phase == Returned)
  }

  /** At some step of the run the inner default of `i` fell between its acquire and its send. */
  predicate DefaultedInWindow(urls: set<Url>, actions: seq<Action>, i: ItemId) {
    actions != [] &&
    var init := actions[..|actions| - 1];
    DefaultedInWindow(urls, init, i)
    || (actions[|actions| - 1] == Caller(i, InnerDefault)
        && Exec(urls, init).Some? && BeingHanded(Exec(urls, init).value, i))
  }

  lemma CallerStrands(s: State, i: ItemId, move: CallerMove)
    requires Inv(s) && CallerStep(s, i, move).Some?
    ensures var t := CallerStep(s, i, move).value;
      (Gone(t, i) && HasConnection(t, i))
      <==> (Gone(s, i) && HasConnection(s, i)) || (move == InnerDefault && BeingHanded(s, i))
  {
  }

  lemma PassStrands(s: State, i: ItemId, move: PassMove)
    requires Inv(s) && PassStep(s, move).Some?
    ensures var t := PassStep(s, move).value;
      (Gone(t, i) && HasConnection(t, i)) <==> (Gone(s, i) && HasConnection(s, i))
  {
  }

  lemma DrainStrands(s: State, i: ItemId, move: DrainMove)
    requires Inv(s) && DrainStep(s, move).Some?
    ensures var t := DrainStep(s, move).value;
      (Gone(t, i) && HasConnection(t, i)) <==> (Gone(s, i) && HasConnection(s, i))
  {
  }

  lemma StepStrands(s: State, a: Action, i: ItemId)
    requires Inv(s) && Step(s, a).Some?
    ensures var t := Step(s, a).value;
      (Gone(t, i) && HasConnection(t, i))
      <==> (Gone(s, i) && HasConnection(s, i)) || (a == Caller(i, InnerDefault) && BeingHanded(s, i))
  {
    match a
    case Caller(j, move) =>
      if j == i {
        CallerStrands(s, i, move);
      } else {
        OtherCallerStrands(s, i, j, move);
      }
    case Pass(move) => PassStrands(s, i, move);
    case Drain(move) => DrainStrands(s, i, move);
    case _ => QuietStepStrands(s, a, i);
  }

  lemma OtherCallerStrands(s: State, i: ItemId, j: ItemId, move: CallerMove)
    requires j != i && CallerStep(s, j, move).Some?
    ensures var t := CallerStep(s, j, move).value;
      (Gone(t, i) && HasConnection(t, i)) <==> (Gone(s, i) && HasConnection(s, i))
  {
  }

  lemma QuietStepStrands(s: State, a: Action, i: ItemId)
    requires Inv(s) && Step(s, a).Some? && !a.Caller? && !a.Pass? && !a.Drain?
    ensures var t := Step(s, a).value;
      (Gone(t, i) && HasConnection(t, i)) <==> (Gone(s, i) && HasConnection(s, i))
  {
  }

  lemma {:induction false} GoneWithConnection(urls: set<Url>, actions: seq<Action>, i: ItemId)
    requires Exec(urls, actions).Some?
    ensures DefaultedInWindow(urls, actions, i)
            <==> Gone(Exec(urls, actions).value, i) && HasConnection(Exec(urls, actions).value, i)
  {
    if actions != [] {
      var init, a := actions[..|actions| - 1], actions[|actions| - 1];
      GoneWithConnection(urls, init, i);
      ReachableInv(urls, init);
      StepStrands(Exec(urls, init).value, a, i);
    }
  }

  /** `enqueue` has returned for `i` and a connection lies in its channel. */
  predicate Stranded(s: State, i: ItemId) {
    i in s.items && s.items[i].phase == Returned && s.items[i].chan.Some? && s.items[i].chan.value.Connected?
  }

  /**
   A slot is stranded exactly when the inner default of its caller fell between the
   acquire and the send.
   */
  lemma StrandedIffDefaultedInWindow(urls: set<Url>, actions: seq<Action>, i: ItemId)
    requires Exec(urls, actions).Some?
    requires i in Exec(urls, actions).value.items && Exec(urls, actions).value.items[i].phase == Returned
    ensures Stranded(Exec(urls, actions).value, i) <==> DefaultedInWindow(urls, actions, i)
  {
    GoneWithConnection(urls, actions, i);
    ReachableInv(urls, actions);
  }

  // -------------------------------------------------------------------------
  // What is left when everyone is gone
  // -------------------------------------------------------------------------

  /** Every `enqueue` has returned, nobody else holds a connection, no pass is under way. */
  predicate AllQuiet(s: State) {
    && s.lock == Free
    && (forall i :: i in s.items ==> s.items[i].phase == Returned)
    && (forall u :: u in s.others ==> s.others[u] == 0)
  }

  function StrandedOn(s: State, u: Url): set<ItemId> {
    set i | i in s.items && Stranded(s, i) && s.items[i].chan == Some(Connected(u))
  }

  /**
   A counter then shows exactly the slots the queue has lost, each by a default in its
   window, less the connections that were held when its server was last added.
   */
  lemma QuietCounterIsLostSlots(urls: set<Url>, actions: seq<Action>, u: Url)
    requires Exec(urls, actions).Some? && AllQuiet(Exec(urls, actions).value)
    requires u in Exec(urls, actions).value.inflight
    ensures var s := Exec(urls, actions).value;
      && s.inflight[u] + HeldAtLastAdd(urls, actions, u) == |StrandedOn(s, u)|
      && forall i :: i in StrandedOn(s, u) ==> DefaultedInWindow(urls, actions, i)
  {
    var s := Exec(urls, actions).value;
    SlotsAreConserved(urls, actions, u);
    assert Owners(s, u) == StrandedOn(s, u);
    forall i | i in StrandedOn(s, u) ensures DefaultedInWindow(urls, actions, i) {
      StrandedIffDefaultedInWindow(urls, actions, i);
    }
  }

  // -------------------------------------------------------------------------
  // With acquire and send as one step nothing is lost
  // -------------------------------------------------------------------------

  /** Nothing comes between an acquire of a pass and its send. */
  predicate AcquireAndSendTogether(actions: seq<Action>) {
    forall k :: 0 <= k < |actions| - 1 && actions[k].Pass? && actions[k].step.Acquire? ==> actions[k + 1] == Pass(Hand)
  }

  lemma HandOnlyAfterAcquire(s: State, a: Action)
    requires Step(s, a).Some? && Step(s, a).value.lock.Passing? && Step(s, a).value.lock.hand.Some?
    ensures (a.Pass? && a.step.Acquire?) || (s.lock.Passing? && s.lock.hand.Some? && a != Pass(Hand))
  {
  }

  lemma {:induction false} HandMeansJustAcquired(urls: set<Url>, actions: seq<Action>)
    requires Exec(urls, actions).Some? && AcquireAndSendTogether(actions)
    requires Exec(urls, actions).value.lock.Passing? && Exec(urls, actions).value.lock.hand.Some?
    ensures actions != [] && actions[|actions| - 1].Pass? && actions[|actions| - 1].step.Acquire?
  {
    var init, a := actions[..|actions| - 1], actions[|actions| - 1];
    HandOnlyAfterAcquire(Exec(urls, init).value, a);
    if !(a.Pass? && a.step.Acquire?) {
      HandMeansJustAcquired(urls, init);
      assert false;
    }
  }

  lemma {:induction false} TogetherMeansNoWindow(urls: set<Url>, actions: seq<Action>, i: ItemId)
    requires Exec(urls, actions).Some? && AcquireAndSendTogether(actions)
    ensures !DefaultedInWindow(urls, actions, i)
  {
    if actions != [] {
      var init, a := actions[..|actions| - 1], actions[|actions| - 1];
      TogetherMeansNoWindow(urls, init, i);
      if a == Caller(i, InnerDefault) && BeingHanded(Exec(urls, init).value, i) {
        HandMeansJustAcquired(urls, init);
        assert false;
      }
    }
  }

  /** If acquire and send are one step, no channel holds a connection once its `enqueue` has returned. */
  lemma TogetherLeavesNoChannelFull(urls: set<Url>, actions: seq<Action>, i: ItemId)
    requires Exec(urls, actions).Some? && AcquireAndSendTogether(actions)
    requires i in Exec(urls, actions).value.items
    requires var x := Exec(urls, actions).value.items[i]; x.phase == Returned || x.phase.Holding?
    ensures var x := Exec(urls, actions).value.items[i]; !(x.chan.Some? && x.chan.value.Connected?)
  {
    var s := Exec(urls, actions).value;
    ReachableInv(urls, actions);
    assert ItemOk(s.items[i]);
    if s.items[i].phase == Returned {
      StrandedIffDefaultedInWindow(urls, actions, i);
      TogetherMeansNoWindow(urls, actions, i);
    }
  }

  /**
   If acquire and send are one step, then once every caller is gone no channel holds a
   connection, and a counter is back at zero if its server was added idle or not at all.
   */
  lemma TogetherLosesNothing(urls: set<Url>, actions: seq<Action>, u: Url)
    requires Exec(urls, actions).Some? && AcquireAndSendTogether(actions)
    requires AllQuiet(Exec(urls, actions).value) && u in Exec(urls, actions).value.inflight
    ensures Exec(urls, actions).value.inflight[u] + HeldAtLastAdd(urls, actions, u) == 0
    ensures forall i :: !Stranded(Exec(urls, actions).value, i)
  {
    var s := Exec(urls, actions).value;
    QuietCounterIsLostSlots(urls, actions, u);
    forall i | i in s.items ensures !Stranded(s, i) {
      TogetherLeavesNoChannelFull(urls, actions, i);
    }
    assert StrandedOn(s, u) == {};
  }

  // -------------------------------------------------------------------------
  // The window is real
  // -------------------------------------------------------------------------

  lemma Extend(urls: set<Url>, run: seq<Action>, s: State, a: Action, t: State) returns (longer: seq<Action>)
    requires Exec(urls, run) == Some(s) && Step(s, a) == Some(t)
    ensures longer == run + [a] && Exec(urls, longer) == Some(t)
  {
    longer := run + [a];
    assert longer[..|run|] == run;
  }

  lemma OneRequest(u: Url) returns (run: seq<Action>, s: State)
    ensures Exec({u}, run) == Some(s)
    ensures s == State(0, map[u := 0], map[u := 0], map[0 := Item(30, false, Selecting, None, [])], [0], Free)
  {
    var s0 := Initial({u});
    s := Put(s0, 0, Item(30, false, Selecting, None, [])).(queue := s0.queue + [0]);
    run := Extend({u}, [], s0, Enqueue(0, 0, 30, None), s);
    assert s0.inflight == map[u := 0] && s0.others == map[u := 0];
  }

  /** A pass acquires a slot for the only request. */
  lemma IntoTheHand(u: Url) returns (run: seq<Action>, s: State)
    ensures Exec({u}, run) == Some(s)
    ensures s.items.Keys == {0} && s.items[0] == Item(30, false, Selecting, None, [])
    ensures s.lock == Passing(0, [0], [], Some(u)) && s.queue == [0]
    ensures s.inflight.Keys == {u} == s.others.Keys && s.inflight[u] == 1 && s.others[u] == 0
  {
    var s1;
    run, s1 := OneRequest(u);
    var s2 := s1.(lock := Passing(0, s1.queue, [], None));
    s := AddInflight(s2, u, 1).(lock := Passing(0, s1.queue, [], Some(u)));
    run := Extend({u}, run, s1, PassBegin, s2);
    run := Extend({u}, run, s2, Pass(Acquire(u)), s);
  }

  /** The request is cancelled before the slot is sent: its caller finds no result and leaves. */
  lemma IntoTheWindow(u: Url) returns (run: seq<Action>, s: State)
    ensures Exec({u}, run) == Some(s)
    ensures s.items.Keys == {0} && s.items[0] == Item(30, true, Removing, None, [])
    ensures s.lock == Passing(0, [0], [], Some(u)) && s.queue == [0]
    ensures s.inflight.Keys == {u} == s.others.Keys && s.inflight[u] == 1 && s.others[u] == 0
  {
    var s3;
    run, s3 := IntoTheHand(u);
    var s4 := Put(s3, 0, s3.items[0].(done := true));
    var s5 := Put(s4, 0, s4.items[0].(phase := Leaving));
    s := Put(s5, 0, s5.items[0].(phase := Removing));
    run := Extend({u}, run, s3, Caller(0, EndContext), s4);
    run := Extend({u}, run, s4, Caller(0, Leave), s5);
    run := Extend({u}, run, s5, Caller(0, InnerDefault), s);
  }

  /** Then it is sent, into a channel nobody will read, and the pass ends. */
  lemma PastTheWindow(u: Url) returns (run: seq<Action>, s: State)
    ensures Exec({u}, run) == Some(s)
    ensures s.items.Keys == {0} && s.items[0].phase == Removing && s.lock == Free && s.queue == []
    ensures s.inflight.Keys == {u} == s.others.Keys && s.inflight[u] == 1 && s.others[u] == 0
  {
    var s0;
    run, s0 := IntoTheWindow(u);
    var x := s0.items[0].(chan := Some(Connected(u)), written := s0.items[0].written + [Connected(u)]);
    var s1 := Put(s0, 0, x).(lock := Passing(0, s0.lock.todo[1..], [], None));
    s := s1.(queue := [], lock := Free);
    run := Extend({u}, run, s0, Pass(Hand), s1);
    run := Extend({u}, run, s1, Pass(End), s);
  }

  /** Afterwards all is quiet, and the slot is gone for good. */
  lemma CancelledInWindowLosesSlot(u: Url) returns (run: seq<Action>)
    ensures Exec({u}, run).Some? && AllQuiet(Exec({u}, run).value)
    ensures u in Exec({u}, run).value.inflight && Exec({u}, run).value.inflight[u] == 1
  {
    var s;
    run, s := PastTheWindow(u);
    run := Extend({u}, run, s, Caller(0, Remove), Put(s, 0, s.items[0].(phase := Returned)));
  }
}
