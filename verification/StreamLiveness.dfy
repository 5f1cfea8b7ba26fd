/** Every run of a stream ends, and it ends with everyone having returned. */
module StreamLiveness {
  import opened Counting
  import opened Options
  import opened StreamProtocol
  import opened StreamFold
  import opened StreamInvariant
  import opened StreamHistory
  import opened StreamTheorems

  // ---- progress

  /** No goroutine can move; a caller's context may still be cancelled from outside. */
  ghost predicate Stuck(s: State) {
    forall a :: Enabled(s, a) ==> a.CancelCaller?
  }

  /**
   * Everyone has returned: every GoCtx call, every producer and every Wait call.  Only the
   * dispatcher of a stream on which Wait is never called stays behind, with nothing to do.
   */
  ghost predicate AllReturned(s: State) {
    && (forall k :: 0 <= k < |s.subs| ==> s.subs[k].pc.Returned? || s.subs[k].pc.Refused?)
    && (forall i :: 0 <= i < |s.slots| ==> s.slots[i].prod.Gone?)
    && s.waitCalls == 0
    && (s.wait.Finished? || s.wait.NotCalled?)
    && (s.disp.Off? || s.disp.Exited? ||
        (s.wait.NotCalled? && (s.disp.Ranging? || s.disp.Draining?) && s.submitted == []))
  }

  /** A GoCtx call that waits for a slot with a context that is done can return on its own. */
  lemma CancelledCallReturns(s: State, k: nat)
    requires Inv(s) && At(s, k, Selecting) && !s.subs[k].own && s.subs[k].ctxDone
    ensures Feasible(s, [Bail(k), Leave(k)])
    ensures At(Exec(s, [Bail(k), Leave(k)]), k, Returned(None))
  {
    SumAtLeast(Pending, s.subs, k);
    var t := BailStep(s, k);
    OneStep(t, Leave(k));
    var run := Prepend(s, Bail(k), [Leave(k)]);
    assert run == [Bail(k), Leave(k)];
  }

  /** In a stuck state a GoCtx call is at rest or waits in one of its two blocking operations. */
  lemma StuckCalls(s: State, k: nat)
    requires Inv(s) && Stuck(s) && k < |s.subs|
    ensures s.subs[k].pc in {Selecting, Holding, Refused} || s.subs[k].pc.Returned?
  {
    var pc := s.subs[k].pc;
    assert pc.Idle? ==> Enabled(s, Admit(k));
    assert pc.Admitted? ==> Enabled(s, Start(k));
    if pc.Sent? {
      assert SlotOf(s.subs[k]) == Some(pc.slot);
      assert Enabled(s, Spawn(k));
    }
    assert pc.Leaving? ==> Enabled(s, Leave(k));
  }

  lemma StuckProducers(s: State, i: nat)
    requires Inv(s) && Stuck(s) && i < |s.slots|
    ensures s.slots[i].prod.Gone?
  {
    assert s.slots[i].prod.Running? ==> Enabled(s, Produce(i, NilCallback));
    if s.slots[i].prod.Written? {
      SumAtLeast(ProducerToken, s.slots, i);
      assert Enabled(s, FreeToken(i));
    }
    assert s.slots[i].prod.Freed? ==> Enabled(s, Retire(i));
    StuckCalls(s, s.slots[i].caller);
  }

  lemma StuckDispatcher(s: State)
    requires Inv(s) && Stuck(s)
    ensures s.disp.Off? || s.disp.Exited? || ((s.disp.Ranging? || s.disp.Draining?) && s.submitted == [] && !s.closed)
  {
    assert !Enabled(s, Receive) && !Enabled(s, Take) && !Enabled(s, EndCallback(CbReturned));
    if s.disp.Awaiting? || s.disp.DrainAwaiting? {
      StuckProducers(s, s.disp.slot);
      assert Reported(s, s.disp.slot);
    }
  }

  /** A call that holds a token can send as soon as submitted has room. */
  lemma HolderCanSend(s: State, k: nat)
    requires Inv(s) && At(s, k, Holding) && |s.submitted| < s.n
    ensures Enabled(s, Send(k))
  {
    assert CallOk(s.subs[k], s.launched);
  }

  /** While a call is pending, submitted is open and the dispatcher has not exited. */
  lemma PendingKeepsOpen(s: State, k: nat)
    requires Inv(s) && k < |s.subs| && Pending(s.subs[k]) == 1
    ensures !s.closed && !s.disp.Exited?
  {
    SumAtLeast(Pending, s.subs, k);
  }

  lemma StuckNobodyHolds(s: State, k: nat)
    requires Inv(s) && Stuck(s) && k < |s.subs|
    ensures !s.subs[k].pc.Holding?
  {
    if s.subs[k].pc.Holding? {
      StuckDispatcher(s);
      PendingKeepsOpen(s, k);
      assert CallOk(s.subs[k], s.launched);
      HolderCanSend(s, k);
    }
  }

  /** With every producer gone and no call holding a token, sem is empty. */
  lemma StuckSemEmpty(s: State)
    requires Inv(s) && Stuck(s)
    ensures s.sem == 0
  {
    forall j | 0 <= j < |s.subs| ensures CallToken(s.subs[j]) == 0 {
      StuckCalls(s, j);
      StuckNobodyHolds(s, j);
    }
    SumZero(CallToken, s.subs);
    forall i | 0 <= i < |s.slots| ensures ProducerToken(s.slots[i]) == 0 {
      StuckProducers(s, i);
    }
    SumZero(ProducerToken, s.slots);
  }

  lemma StuckCallsReturned(s: State, k: nat)
    requires Inv(s) && Stuck(s) && k < |s.subs|
    ensures s.subs[k].pc.Returned? || s.subs[k].pc.Refused?
  {
    StuckCalls(s, k);
    StuckNobodyHolds(s, k);
    StuckSemEmpty(s);
    assert s.subs[k].pc.Selecting? ==> Enabled(s, Acquire(k));
  }

  lemma StuckCountersZero(s: State)
    requires Inv(s) && Stuck(s)
    ensures s.submitWg == 0 && s.producerWg == 0
  {
    forall k | 0 <= k < |s.subs| ensures Pending(s.subs[k]) == 0 {
      StuckCallsReturned(s, k);
    }
    SumZero(Pending, s.subs);
    forall i | 0 <= i < |s.slots| ensures Live(s.slots[i]) == 0 {
      StuckProducers(s, i);
    }
    SumZero(Live, s.slots);
  }

  lemma StuckWait(s: State)
    requires Inv(s) && Stuck(s)
    ensures s.waitCalls == 0 && (s.wait.Finished? || s.wait.NotCalled?)
  {
    StuckCountersZero(s);
    StuckDispatcher(s);
    assert !Enabled(s, CallWait) && !Enabled(s, JoinSubmitters) && !Enabled(s, CloseSubmitted);
    assert !Enabled(s, JoinDispatcher) && !Enabled(s, CancelContext);
    assert !Enabled(s, Raise) && !Enabled(s, JoinProducers);
  }

  lemma ReturnedIsStuck(s: State)
    requires Inv(s) && AllReturned(s)
    ensures Stuck(s)
  {
    forall a | Enabled(s, a) ensures a.CancelCaller? {
      assert !a.Send? && (CallerStep(a) ==> a.CancelCaller?);
      assert !ProducerStep(a);
    }
  }

  /** Deadlock freedom: a reachable state is stuck if and only if everyone has returned. */
  lemma StuckMeansReturned(s: State)
    requires Inv(s)
    ensures Stuck(s) <==> AllReturned(s)
  {
    if Stuck(s) {
      StuckWait(s);
      StuckDispatcher(s);
      forall k | 0 <= k < |s.subs| ensures s.subs[k].pc.Returned? || s.subs[k].pc.Refused? {
        StuckCallsReturned(s, k);
      }
      forall i | 0 <= i < |s.slots| ensures s.slots[i].prod.Gone? {
        StuckProducers(s, i);
      }
    }
    if AllReturned(s) {
      ReturnedIsStuck(s);
    }
  }

  // ---- termination

  function CallWork(c: Submitter): nat {
    (if c.own || c.ctxDone then 0 else 1) +
    match c.pc
    case Idle => 13
    case Admitted => 12
    case Selecting => 11
    case Holding => 10
    case Sent(_) => 2
    case Leaving(_) => 1
    case _ => 0
  }

  function ProducerWork(t: Slot): nat {
    match t.prod
    case Unborn => 4
    case Running => 3
    case Written => 2
    case Freed => 1
    case Gone => 0
  }

  function DispatcherWork(d: DispPc): nat {
    match d
    case Off => 12
    case Ranging => 12
    case Awaiting(_) => 14
    case Calling(_) => 13
    case Draining => 6
    case DrainAwaiting(_) => 8
    case Exited => 0
  }

  function WaitWork(w: WaitPc): nat {
    match w
    case NotCalled => 8
    case Flipped => 7
    case Joined => 6
    case Closing => 5
    case Stopped => 4
    case Raising => 3
    case Ending(_) => 2
    case Finished(_) => 0
  }

  /** A bound on the steps still to come. */
  function Work(s: State): nat {
    Sum(CallWork, s.subs) + Sum(ProducerWork, s.slots) + 3 * |s.submitted|
    + DispatcherWork(s.disp) + WaitWork(s.wait) + s.waitCalls
  }

  lemma CallMoveWorks(s: State, t: State, k: nat)
    requires k < |s.subs| == |t.subs| && t.subs == s.subs[k := t.subs[k]] && CallWork(t.subs[k]) < CallWork(s.subs[k])
    requires t.slots == s.slots && t.submitted == s.submitted && t.wait == s.wait && t.waitCalls == s.waitCalls
    requires DispatcherWork(t.disp) <= DispatcherWork(s.disp)
    ensures Work(t) < Work(s)
  {
    SumUpdate(CallWork, s.subs, k, t.subs[k]);
  }

  lemma AdmitWorks(s: State, k: nat)
    requires Enabled(s, Admit(k))
    ensures Work(AdmitStep(s, k)) < Work(s)
  {
    CallMoveWorks(s, AdmitStep(s, k), k);
  }

  lemma CancelCallerWorks(s: State, k: nat)
    requires Enabled(s, CancelCaller(k))
    ensures Work(CancelCallerStep(s, k)) < Work(s)
  {
    CallMoveWorks(s, CancelCallerStep(s, k), k);
  }

  /** Either branch of the select. */
  lemma SelectWorks(s: State, t: State, k: nat)
    requires At(s, k, Selecting) && (t == AcquireStep(s, k) || t == BailStep(s, k))
    ensures Work(t) < Work(s)
  {
    CallMoveWorks(s, t, k);
  }

  lemma StartWorks(s: State, k: nat)
    requires Shape(s) && Enabled(s, Start(k))
    ensures Work(StartStep(s, k)) < Work(s)
  {
    CallMoveWorks(s, StartStep(s, k), k);
  }

  lemma LeaveWorks(s: State, k: nat)
    requires Counts(s) && Enabled(s, Leave(k))
    ensures Work(LeaveStep(s, k)) < Work(s)
  {
    SumAtLeast(Pending, s.subs, k);
    CallMoveWorks(s, LeaveStep(s, k), k);
  }

  lemma CallStepWorks(s: State, a: Action)
    requires Shape(s) && Enabled(s, a) && CallerStep(a) && !a.Spawn?
    ensures Work(Apply(s, a)) < Work(s)
  {
    match a
    case Admit(k) => AdmitWorks(s, k);
    case CancelCaller(k) => CancelCallerWorks(s, k);
    case Start(k) => StartWorks(s, k);
    case Acquire(k) => SelectWorks(s, AcquireStep(s, k), k);
    case Bail(k) => SelectWorks(s, BailStep(s, k), k);
    case Leave(k) => LeaveWorks(s, k);
  }

  lemma SpawnWorks(s: State, k: nat)
    requires SlotsOk(s) && Enabled(s, Spawn(k))
    ensures Work(SpawnStep(s, k)) < Work(s)
  {
    var i := s.subs[k].pc.slot;
    assert SlotOf(s.subs[k]) == Some(i);
    var u := s.(slots := ProducerTo(s, i, Running));
    ProducerMoveWorks(s, u, i);
    CallMoveWorks(u, SpawnStep(s, k), k);
  }

  lemma SendWorks(s: State, k: nat)
    requires Shape(s) && Enabled(s, Send(k))
    ensures Work(SendStep(s, k)) < Work(s)
  {
    SendKeeps(s, k);
    SumUpdate(CallWork, s.subs, k, SendStep(s, k).subs[k]);
    SumAppend(ProducerWork, s.slots, Slot(k, Unborn, None));
  }

  lemma ProducerStepWorks(s: State, a: Action)
    requires Counts(s) && Enabled(s, a) && ProducerStep(a)
    ensures Work(Apply(s, a)) < Work(s)
  {
    match a
    case Produce(i, cop) => ProducerMoveWorks(s, ProduceStep(s, i, cop), i);
    case FreeToken(i) => ProducerMoveWorks(s, FreeTokenStep(s, i), i);
    case Retire(i) => RetireWorks(s, i);
  }

  lemma ProducerMoveWorks(s: State, t: State, i: nat)
    requires i < |s.slots| == |t.slots| && t.slots == s.slots[i := t.slots[i]]
    requires ProducerWork(t.slots[i]) < ProducerWork(s.slots[i])
    requires t.subs == s.subs && t.submitted == s.submitted && t.disp == s.disp
    requires t.wait == s.wait && t.waitCalls == s.waitCalls
    ensures Work(t) < Work(s)
  {
    SumUpdate(ProducerWork, s.slots, i, t.slots[i]);
  }

  lemma RetireWorks(s: State, i: nat)
    requires Counts(s) && Enabled(s, Retire(i))
    ensures Work(RetireStep(s, i)) < Work(s)
  {
    SumAtLeast(Live, s.slots, i);
    ProducerMoveWorks(s, RetireStep(s, i), i);
  }

  lemma DispatcherMoveWorks(s: State, t: State)
    requires t.subs == s.subs && t.slots == s.slots && t.submitted == s.submitted
    requires t.wait == s.wait && t.waitCalls == s.waitCalls
    requires DispatcherWork(t.disp) < DispatcherWork(s.disp)
    ensures Work(t) < Work(s)
  {
  }

  lemma ReceiveWorks(s: State)
    requires Enabled(s, Receive)
    ensures Work(ReceiveStep(s)) < Work(s)
  {
  }

  lemma TakeWorks(s: State)
    requires Enabled(s, Take) && s.disp.Awaiting?
    ensures Work(TakeStep(s, s.disp.slot)) < Work(s)
  {
    DispatcherMoveWorks(s, TakeStep(s, s.disp.slot));
  }

  lemma DrainTakeWorks(s: State)
    requires Enabled(s, Take) && s.disp.DrainAwaiting?
    ensures Work(DrainTakeStep(s, s.disp.slot)) < Work(s)
  {
    DispatcherMoveWorks(s, DrainTakeStep(s, s.disp.slot));
  }

  lemma EndCallbackWorks(s: State, end: CbEnd)
    requires s.disp.Calling?
    ensures Work(EndCallbackStep(s, s.disp.slot, end)) < Work(s)
  {
  }

  lemma DispatcherStepWorks(s: State, a: Action)
    requires Enabled(s, a) && DispatcherStep(a)
    ensures Work(Apply(s, a)) < Work(s)
  {
    match a
    case Receive => ReceiveWorks(s);
    case EndCallback(end) => EndCallbackWorks(s, end);
    case Take => if s.disp.Awaiting? { TakeWorks(s); } else { DrainTakeWorks(s); }
  }

  lemma WaitStepWorks(s: State, a: Action)
    requires Phases(s) && Enabled(s, a) && (a.CallWait? || a.CloseSubmitted? || LateWait(a))
    ensures Work(Apply(s, a)) < Work(s)
  {
    match a
    case CallWait => CallWaitWorks(s);
    case CloseSubmitted => CloseSubmittedWorks(s);
    case JoinSubmitters => WaitMoveWorks(s, s.(wait := Joined));
    case JoinDispatcher => WaitMoveWorks(s, s.(wait := Stopped));
    case CancelContext => WaitMoveWorks(s, s.(cancelled := true, wait := Raising));
    case Raise => WaitMoveWorks(s, s.(wait := Ending(Raised(s.producerPanic, s.dispatchPanic))));
    case JoinProducers => WaitMoveWorks(s, s.(wait := Finished(s.wait.raised)));
  }

  lemma WaitMoveWorks(s: State, t: State)
    requires t.subs == s.subs && t.slots == s.slots && t.submitted == s.submitted && t.disp == s.disp
    requires t.waitCalls == s.waitCalls && WaitWork(t.wait) < WaitWork(s.wait)
    ensures Work(t) < Work(s)
  {
  }

  lemma CallWaitWorks(s: State)
    requires Phases(s) && s.waitCalls > 0
    ensures Work(CallWaitStep(s)) < Work(s)
  {
  }

  lemma CloseSubmittedWorks(s: State)
    requires Phases(s) && s.wait.Joined?
    ensures Work(CloseSubmittedStep(s)) < Work(s)
  {
    WaitMoveWorks(s, CloseSubmittedStep(s));
  }

  /** Every step, an outside cancellation included, uses up work. */
  lemma StepWorks(s: State, a: Action)
    requires Inv(s) && Enabled(s, a)
    ensures Work(Apply(s, a)) < Work(s)
  {
    if a.Spawn? {
      SpawnWorks(s, a.k);
    } else if CallerStep(a) {
      CallStepWorks(s, a);
    } else if a.Send? {
      SendWorks(s, a.k);
    } else if ProducerStep(a) {
      ProducerStepWorks(s, a);
    } else if DispatcherStep(a) {
      DispatcherStepWorks(s, a);
    } else {
      WaitStepWorks(s, a);
    }
  }

  /** Termination: no interleaving is longer than the work of its first state. */
  lemma {:induction false} RunsEnd(s: State, schedule: seq<Action>)
    requires Inv(s) && Feasible(s, schedule)
    ensures |schedule| + Work(Exec(s, schedule)) <= Work(s)
    decreases |schedule|
  {
    if schedule == [] {
    } else {
      StepWorks(s, schedule[0]);
      StepKeeps(s, schedule[0]);
      RunsEnd(Apply(s, schedule[0]), schedule[1..]);
    }
  }

  predicate WaitComes(s: State) {
    s.waited || s.waitCalls > 0
  }

  lemma CallerStepKeepsWait(s: State, a: Action)
    requires Enabled(s, a) && CallerStep(a)
    ensures Apply(s, a).waited == s.waited && Apply(s, a).waitCalls == s.waitCalls
  {
  }

  lemma WaitComesStays(s: State, a: Action)
    requires Enabled(s, a) && WaitComes(s)
    ensures WaitComes(Apply(s, a))
  {
    if CallerStep(a) {
      CallerStepKeepsWait(s, a);
    } else if !a.CallWait? {
      assert Apply(s, a).waited == s.waited && Apply(s, a).waitCalls == s.waitCalls;
    }
  }

  lemma {:induction false} WaitIsCalled(s: State, schedule: seq<Action>)
    requires Feasible(s, schedule) && WaitComes(s)
    ensures WaitComes(Exec(s, schedule))
    decreases |schedule|
  {
    if schedule == [] {
    } else {
      WaitComesStays(s, schedule[0]);
      WaitIsCalled(Apply(s, schedule[0]), schedule[1..]);
    }
  }

  /**
   * The whole story: when Wait is called at least once, every run is finite, and a run that
   * cannot be continued has every GoCtx call, every producer and Wait returned, the callbacks of
   * the sequential fold over what the producers ended with run in order, and its panic raised.
   */
  lemma EveryRunMeetsTheFold(s0: State, schedule: seq<Action>)
    requires Init(s0) && Feasible(s0, schedule) && s0.waitCalls > 0
    ensures |schedule| <= Work(s0)
    ensures Stuck(Exec(s0, schedule)) ==>
      var s := Exec(s0, schedule);
      && AllReturned(s) && (forall i :: 0 <= i < |s.slots| ==> Produced(schedule, i).Some?)
      && var v := Fold(ProducedBy(schedule, |s.slots|), s.ends);
      && s.trace == v.trace && s.wait == Finished(Raised(v.producer, v.callback))
  {
    InitEstablishes(s0);
    RunsEnd(s0, schedule);
    RunKeeps(s0, schedule);
    var s := Exec(s0, schedule);
    if Stuck(s) {
      StuckMeansReturned(s);
      WaitIsCalled(s0, schedule);
      WaitRefinesFold(s0, schedule, s.wait.raised);
    }
  }
}
