/** When a callback can still begin although a producer has panicked. */
module StreamHalt {
  import opened Options
  import opened StreamProtocol
  import opened StreamFold
  import opened StreamInvariant
  import opened StreamHistory
  import opened StreamLiveness

  predicate HasPanic(s: State, q: nat)
    requires q < |s.slots|
  {
    s.slots[q].cop.Some? && s.slots[q].cop.value.ProducerPanic?
  }

  /** Some producer has panicked and written its slot. */
  ghost predicate PanicWritten(s: State) {
    exists q :: 0 <= q < |s.slots| && HasPanic(s, q)
  }

  /** The dispatcher is in its first loop. */
  predicate InFirstLoop(s: State) {
    s.disp.Ranging? || s.disp.Awaiting? || s.disp.Calling?
  }

  /** The first slot whose callback the dispatcher has not begun or passed over. */
  function From(s: State): nat {
    if s.disp.Calling? then s.disp.slot + 1 else Handled(s)
  }

  /** Slot j holds a callback or may yet get one, and no panic lies before it. */
  ghost predicate CallPending(s: State, j: nat) {
    && From(s) <= j < |s.slots|
    && (s.slots[j].cop == None || s.slots[j].cop == Some(Callback))
    && forall k :: From(s) <= k < j ==> !HasPanic(s, k)
  }

  ghost predicate CanStillCall(s: State) {
    InFirstLoop(s) && exists j :: CallPending(s, j)
  }

  /** The run begins another callback. */
  ghost predicate CallsMore(s: State, schedule: seq<Action>) {
    Feasible(s, schedule) && |Exec(s, schedule).trace| > |s.trace|
  }

  // ---- a pending callback can be begun

  /** The awaited slot has no result: its producer can write a callback, or its caller can spawn it. */
  lemma UnreportedMoves(s: State, i: nat) returns (a: Action)
    requires Inv(s) && s.disp == Awaiting(i) && i < |s.slots| && s.slots[i].cop.None?
    ensures Enabled(s, a)
    ensures var t := Apply(s, a);
      && t.trace == s.trace && t.disp == s.disp && t.received == s.received && |t.slots| == |s.slots|
      && (t.slots[i].cop == None || t.slots[i].cop == Some(Callback))
  {
    if s.slots[i].prod.Running? {
      a := Produce(i, Callback);
    } else {
      var k := s.slots[i].caller;
      assert SlotOf(s.subs[k]) == Some(i);
      a := Action.Spawn(k);
    }
  }

  /** The awaited slot has no callback: the dispatcher passes over it. */
  lemma PassOver(s: State, j: nat)
    requires Inv(s) && s.disp.Awaiting? && CallPending(s, j) && s.slots[s.disp.slot].cop == Some(NilCallback)
    ensures Enabled(s, Take) && Apply(s, Take) == s.(disp := Ranging) && CallPending(s.(disp := Ranging), j)
  {
    var t := s.(disp := Ranging);
    assert From(t) == From(s) + 1;
    assert forall k :: From(t) <= k < j ==> HasPanic(t, k) == HasPanic(s, k);
  }

  lemma AwaitingMoves(s: State, j: nat) returns (a: Action, next: nat)
    requires Inv(s) && s.disp.Awaiting? && CallPending(s, j) && s.slots[s.disp.slot].cop != Some(Callback)
    ensures Enabled(s, a) && Apply(s, a).trace == s.trace && InFirstLoop(Apply(s, a)) && CallPending(Apply(s, a), next)
  {
    var i := s.disp.slot;
    if s.slots[i].cop.None? {
      a := UnreportedMoves(s, i);
      next := i;
    } else {
      assert i < j ==> !HasPanic(s, i);
      PassOver(s, j);
      a, next := Take, j;
    }
  }

  lemma RangingMoves(s: State, j: nat)
    requires Inv(s) && s.disp.Ranging? && CallPending(s, j)
    ensures Enabled(s, Receive) && ReceiveStep(s).trace == s.trace
    ensures InFirstLoop(ReceiveStep(s)) && CallPending(ReceiveStep(s), j)
  {
    assert s.submitted[0] == s.received;
    var t := ReceiveStep(s);
    assert From(t) == From(s);
    assert forall k :: From(t) <= k < j ==> HasPanic(t, k) == HasPanic(s, k);
  }

  lemma CallingMoves(s: State, j: nat)
    requires Inv(s) && s.disp.Calling? && CallPending(s, j)
    ensures var t := EndCallbackStep(s, s.disp.slot, CbReturned);
      t.trace == s.trace && InFirstLoop(t) && CallPending(t, j)
  {
    var t := EndCallbackStep(s, s.disp.slot, CbReturned);
    assert From(t) == From(s);
    assert forall k :: From(t) <= k < j ==> HasPanic(t, k) == HasPanic(s, k);
  }

  lemma TowardsCall(s: State, j: nat) returns (a: Action, next: nat)
    requires Inv(s) && InFirstLoop(s) && CallPending(s, j)
    requires s.disp.Awaiting? ==> s.slots[s.disp.slot].cop != Some(Callback)
    ensures Enabled(s, a) && Apply(s, a).trace == s.trace && InFirstLoop(Apply(s, a)) && CallPending(Apply(s, a), next)
  {
    if s.disp.Awaiting? {
      a, next := AwaitingMoves(s, j);
    } else if s.disp.Ranging? {
      RangingMoves(s, j);
      a, next := Receive, j;
    } else {
      CallingMoves(s, j);
      a, next := EndCallback(CbReturned), j;
    }
  }

  /** The callback of a pending slot, or of one before it, can be begun. */
  lemma {:induction false} PendingCanCall(s: State, j: nat) returns (schedule: seq<Action>)
    requires Inv(s) && InFirstLoop(s) && CallPending(s, j)
    ensures CallsMore(s, schedule)
    decreases Work(s)
  {
    if s.disp.Awaiting? && s.slots[s.disp.slot].cop == Some(Callback) {
      OneStep(s, Take);
      schedule := [Take];
    } else {
      var a, next := TowardsCall(s, j);
      StepKeeps(s, a);
      StepWorks(s, a);
      schedule := PendingCanCall(Apply(s, a), next);
      schedule := Prepend(s, a, schedule);
    }
  }

  // ---- no callback can be begun without one

  /** Nothing but slots without a callback lies between the dispatcher and the panic of slot q. */
  ghost predicate Doomed(s: State, q: nat) {
    && From(s) <= q < |s.slots| && HasPanic(s, q)
    && forall k :: From(s) <= k < q ==> s.slots[k].cop == Some(NilCallback)
  }

  /** The dispatcher has left its first loop, or will leave it before another callback. */
  ghost predicate NoMoreCalls(s: State) {
    s.disp.Draining? || s.disp.DrainAwaiting? || s.disp.Exited? || exists q :: Doomed(s, q)
  }

  /** While the dispatcher is in its first loop, every panic lies ahead of it. */
  lemma PanicsAhead(s: State, q: nat)
    requires Inv(s) && InFirstLoop(s) && q < |s.slots| && HasPanic(s, q)
    ensures From(s) <= q
  {
    if q < Handled(s) {
      var cops := Outcomes(s, Handled(s));
      FoldMeaning(cops, s.ends);
      assert Stops(cops, s.ends, q);
    }
  }

  lemma {:induction false} FirstPanic(s: State, low: nat, q: nat) returns (p: nat)
    requires low <= q < |s.slots| && HasPanic(s, q)
    ensures low <= p < |s.slots| && HasPanic(s, p) && forall k :: low <= k < p ==> !HasPanic(s, k)
    decreases q - low
  {
    if HasPanic(s, low) {
      p := low;
    } else {
      p := FirstPanic(s, low + 1, q);
    }
  }

  lemma NothingPending(s: State)
    requires Inv(s) && PanicWritten(s) && !CanStillCall(s)
    ensures NoMoreCalls(s)
  {
    var q :| 0 <= q < |s.slots| && HasPanic(s, q);
    if InFirstLoop(s) {
      PanicsAhead(s, q);
      var p := FirstPanic(s, From(s), q);
      forall k | From(s) <= k < p ensures s.slots[k].cop == Some(NilCallback) {
        assert !HasPanic(s, k) && !CallPending(s, k);
      }
      assert Doomed(s, p);
    }
  }

  /** What has been written stays written. */
  lemma NoMoreFrame(s: State, t: State)
    requires NoMoreCalls(s) && t.disp == s.disp && t.received == s.received && |s.slots| <= |t.slots|
    requires forall k :: 0 <= k < |s.slots| && s.slots[k].cop.Some? ==> t.slots[k].cop == s.slots[k].cop
    ensures NoMoreCalls(t)
  {
    if q :| Doomed(s, q) {
      assert Doomed(t, q);
    }
  }

  lemma CallerKeepsNoMore(s: State, a: Action)
    requires Phases(s) && CallsOk(s) && NoMoreCalls(s) && Enabled(s, a) && CallerStep(a)
    ensures NoMoreCalls(Apply(s, a)) && Apply(s, a).trace == s.trace
  {
    match a
    case Admit(k) => NoMoreFrame(s, AdmitStep(s, k));
    case CancelCaller(k) => NoMoreFrame(s, CancelCallerStep(s, k));
    case Start(k) => NoMoreFrame(s, StartStep(s, k));
    case Acquire(k) => NoMoreFrame(s, AcquireStep(s, k));
    case Bail(k) => NoMoreFrame(s, BailStep(s, k));
    case Spawn(k) => NoMoreProducer(s, SpawnStep(s, k), s.subs[k].pc.slot);
    case Leave(k) => NoMoreFrame(s, LeaveStep(s, k));
  }

  lemma SendKeepsNoMore(s: State, k: nat)
    requires NoMoreCalls(s) && At(s, k, Holding)
    ensures NoMoreCalls(SendStep(s, k)) && SendStep(s, k).trace == s.trace
  {
    NoMoreFrame(s, SendStep(s, k));
  }

  /** A producer writes only a slot that has no result yet. */
  lemma NoMoreProducer(s: State, t: State, i: nat)
    requires NoMoreCalls(s) && t.disp == s.disp && t.received == s.received
    requires i < |s.slots| == |t.slots| && t.slots == s.slots[i := t.slots[i]]
    requires s.slots[i].cop.None? || t.slots[i].cop == s.slots[i].cop
    ensures NoMoreCalls(t)
  {
    NoMoreFrame(s, t);
  }

  lemma ProducerKeepsNoMore(s: State, a: Action)
    requires SlotsOk(s) && NoMoreCalls(s) && Enabled(s, a) && (ProducerStep(a) || a.Send?)
    ensures NoMoreCalls(Apply(s, a)) && Apply(s, a).trace == s.trace
  {
    match a
    case Send(k) => SendKeepsNoMore(s, k);
    case Produce(i, cop) => NoMoreProducer(s, ProduceStep(s, i, cop), i);
    case FreeToken(i) => NoMoreProducer(s, FreeTokenStep(s, i), i);
    case Retire(i) => NoMoreProducer(s, RetireStep(s, i), i);
  }

  lemma ReceiveKeepsNoMore(s: State)
    requires Inv(s) && NoMoreCalls(s) && Enabled(s, Receive)
    ensures NoMoreCalls(ReceiveStep(s))
  {
    if s.disp.Ranging? {
      var q :| Doomed(s, q);
      assert s.submitted[0] == s.received;
      assert Doomed(ReceiveStep(s), q);
    }
  }

  lemma TakeKeepsNoMore(s: State)
    requires Inv(s) && NoMoreCalls(s) && Enabled(s, Take)
    ensures NoMoreCalls(Apply(s, Take)) && Apply(s, Take).trace == s.trace
  {
    if s.disp.Awaiting? {
      var q :| Doomed(s, q);
      DoomedTake(s, q);
    }
  }

  /** The awaited slot is empty, or it is the one with the panic. */
  lemma DoomedTake(s: State, q: nat)
    requires Phases(s) && Enabled(s, Take) && s.disp.Awaiting? && Doomed(s, q)
    ensures NoMoreCalls(TakeStep(s, s.disp.slot)) && TakeStep(s, s.disp.slot).trace == s.trace
  {
    if q != s.disp.slot {
      assert s.slots[s.disp.slot].cop == Some(NilCallback);
      assert Doomed(s.(disp := Ranging), q);
    }
  }

  lemma EndCallbackKeepsNoMore(s: State, end: CbEnd)
    requires Inv(s) && NoMoreCalls(s) && s.disp.Calling?
    ensures NoMoreCalls(EndCallbackStep(s, s.disp.slot, end))
  {
    var q :| Doomed(s, q);
    if end.CbReturned? {
      assert Doomed(EndCallbackStep(s, s.disp.slot, end), q);
    }
  }

  lemma WaitKeepsNoMore(s: State, a: Action)
    requires NoMoreCalls(s) && Enabled(s, a) && (a.CallWait? || a.CloseSubmitted? || LateWait(a))
    ensures NoMoreCalls(Apply(s, a)) && Apply(s, a).trace == s.trace
  {
    WaitMoves(s, a);
    NoMoreFrame(s, Apply(s, a));
  }

  lemma StepKeepsNoMore(s: State, a: Action)
    requires Inv(s) && NoMoreCalls(s) && Enabled(s, a)
    ensures NoMoreCalls(Apply(s, a)) && Apply(s, a).trace == s.trace
  {
    if CallerStep(a) {
      CallerKeepsNoMore(s, a);
    } else if ProducerStep(a) || a.Send? {
      ProducerKeepsNoMore(s, a);
    } else if a.Receive? {
      ReceiveKeepsNoMore(s);
    } else if a.Take? {
      TakeKeepsNoMore(s);
    } else if a.EndCallback? {
      EndCallbackKeepsNoMore(s, a.end);
    } else {
      WaitKeepsNoMore(s, a);
    }
  }

  lemma {:induction false} NoMoreCallsEver(s: State, schedule: seq<Action>)
    requires Inv(s) && NoMoreCalls(s) && Feasible(s, schedule)
    ensures Exec(s, schedule).trace == s.trace
    decreases |schedule|
  {
    if schedule == [] {
    } else {
      StepKeepsNoMore(s, schedule[0]);
      StepKeeps(s, schedule[0]);
      NoMoreCallsEver(Apply(s, schedule[0]), schedule[1..]);
    }
  }

  /**
   * A producer's panic does not halt the callbacks at once, and this says exactly when it has:
   * once some slot holds a panic, some run begins another callback if and only if the dispatcher
   * is in its first loop and a slot ahead of it, with no panic in between, holds a callback or is
   * still to be written.
   */
  lemma OneMoreCallbackExactly(s: State)
    requires Inv(s) && PanicWritten(s)
    ensures (exists schedule :: CallsMore(s, schedule)) <==> CanStillCall(s)
  {
    if CanStillCall(s) {
      var j :| CallPending(s, j);
      var schedule := PendingCanCall(s, j);
      assert CallsMore(s, schedule);
    } else {
      NothingPending(s);
      forall schedule | Feasible(s, schedule) ensures !CallsMore(s, schedule) {
        NoMoreCallsEver(s, schedule);
      }
    }
  }
}
