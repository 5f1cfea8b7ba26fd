/** What every run of a stream does, for any interleaving. */
module StreamTheorems {
  import opened Counting
  import opened Options
  import opened StreamProtocol
  import opened StreamFold
  import opened StreamInvariant
  import opened StreamHistory

  /** The invariant holds all along every run. */
  lemma {:induction false} RunKeeps(s: State, schedule: seq<Action>)
    requires Inv(s) && Feasible(s, schedule)
    ensures Inv(Exec(s, schedule))
    decreases |schedule|
  {
    if schedule == [] {
    } else {
      StepKeeps(s, schedule[0]);
      RunKeeps(Apply(s, schedule[0]), schedule[1..]);
    }
  }

  // ---- safety

  /** Wait's return value in a state where the effective Wait call has ended. */
  ghost predicate WaitEnded(s: State, raised: Option<Panic>) {
    s.wait == Finished(raised)
  }

  /** All tokens are back and every call has left once Wait has ended. */
  lemma QuietAfterWait(s: State)
    requires Inv(s) && s.wait.Finished?
    ensures s.sem == 0 && s.submitWg == 0
    ensures forall i :: 0 <= i < |s.slots| ==> s.slots[i].prod.Gone?
    ensures s.received == |s.slots| && AllReported(s, |s.slots|) && Handled(s) == |s.slots|
  {
    forall k | 0 <= k < |s.subs| ensures CallToken(s.subs[k]) == 0 {
      SumAtLeast(Pending, s.subs, k);
    }
    SumZero(CallToken, s.subs);
    forall i | 0 <= i < |s.slots| ensures s.slots[i].prod.Gone? {
      SumAtLeast(Live, s.slots, i);
      var k := s.slots[i].caller;
      SumAtLeast(Pending, s.subs, k);
    }
    SumZero(ProducerToken, s.slots);
  }

  /** What the slots hold in the end is what the producers ended with, and callbacks ended as they did. */
  lemma SlotsHoldOutcomes(s0: State, schedule: seq<Action>)
    requires Init(s0) && Feasible(s0, schedule)
    ensures var s := Exec(s0, schedule);
      && (forall i :: 0 <= i < |s.slots| ==> s.slots[i].cop == Produced(schedule, i))
      && EndsSoFar(s) == CallbackEnds(schedule)
  {
    InitEstablishes(s0);
    var s := Exec(s0, schedule);
    forall i | 0 <= i < |s.slots| ensures s.slots[i].cop == Produced(schedule, i) {
      RunWrites(s0, schedule, i);
    }
    EndsFromInit(s0, schedule);
  }

  lemma EndsFromInit(s0: State, schedule: seq<Action>)
    requires Init(s0) && Feasible(s0, schedule)
    ensures EndsSoFar(Exec(s0, schedule)) == CallbackEnds(schedule)
  {
    InitEstablishes(s0);
    RunRecords(s0, schedule);
    assert EndsSoFar(s0) == [];
    Concat([], EndsSoFar(s0), CallbackEnds(schedule));
    assert [] + CallbackEnds(schedule) == CallbackEnds(schedule);
  }

  lemma OutcomesAreProduced(s: State, schedule: seq<Action>)
    requires AllReported(s, |s.slots|) && forall i :: 0 <= i < |s.slots| ==> s.slots[i].cop == Produced(schedule, i)
    ensures Outcomes(s, |s.slots|) == ProducedBy(schedule, |s.slots|)
    ensures forall i :: 0 <= i < |s.slots| ==> Produced(schedule, i).Some?
  {
  }

  /**
   * The refinement: when Wait returns or panics, the callbacks that ran and the panic it
   * raises are those of the left-to-right fold over what the producers ended with, whatever
   * the interleaving was; nothing is in flight, and every slot was received exactly once.
   */
  lemma WaitRefinesFold(s0: State, schedule: seq<Action>, raised: Option<Panic>)
    requires Init(s0) && Feasible(s0, schedule) && WaitEnded(Exec(s0, schedule), raised)
    ensures var s := Exec(s0, schedule);
      && (forall i :: 0 <= i < |s.slots| ==> Produced(schedule, i).Some?)
      && AllReported(s, |s.slots|) && Outcomes(s, |s.slots|) == ProducedBy(schedule, |s.slots|)
      && var v := Fold(ProducedBy(schedule, |s.slots|), s.ends);
      && s.trace == v.trace && raised == Raised(v.producer, v.callback)
      && s.received == |s.slots| && s.sem == 0 && s.producerWg == 0
      && (forall i :: 0 <= i < |s.slots| ==> s.slots[i].prod.Gone?)
  {
    InitEstablishes(s0);
    RunKeeps(s0, schedule);
    QuietAfterWait(Exec(s0, schedule));
    SlotsHoldOutcomes(s0, schedule);
    OutcomesAreProduced(Exec(s0, schedule), schedule);
  }

  ghost predicate NoProducerPanic(cops: seq<Cop>) {
    forall i :: 0 <= i < |cops| ==> !cops[i].ProducerPanic?
  }

  /**
   * The same without the fold, over what the user functions did in the run: cops is what the
   * producers ended with, in slot order, and ends how the callbacks ended, in the order in which
   * they were begun.  A callback runs if and only if no earlier slot has stopped the sequence, and
   * callbacks run in slot order.  Wait raises the panic of the earliest panicking producer, even
   * one met while draining; without any, that of the one callback that panicked; and otherwise it
   * returns.
   */
  lemma WaitMeaning(s0: State, schedule: seq<Action>, raised: Option<Panic>)
    requires Init(s0) && Feasible(s0, schedule) && WaitEnded(Exec(s0, schedule), raised)
    ensures var s := Exec(s0, schedule);
      var cops, ends := ProducedBy(schedule, |s.slots|), CallbackEnds(schedule);
      && (forall i :: 0 <= i < |s.slots| ==> Produced(schedule, i).Some?)
      && |ends| == |s.trace| && (forall k :: 0 <= k < |ends| ==> EndOf(s.ends, s.trace[k]) == ends[k])
      && (forall i: nat :: i in s.trace <==> i < |cops| && cops[i].Callback? && Open(cops, s.ends, i))
      && (forall a, b :: 0 <= a < b < |s.trace| ==> s.trace[a] < s.trace[b])
      && (forall p :: raised == Some(p) ==>
            EarliestProducerPanic(cops, p) || (NoProducerPanic(cops) && FirstCallbackPanic(cops, s.ends, p)))
      && (raised == None ==> NoProducerPanic(cops) && forall q :: !FirstCallbackPanic(cops, s.ends, q))
  {
    WaitRefinesFold(s0, schedule, raised);
    EndsAreRecorded(s0, schedule);
    var s := Exec(s0, schedule);
    FoldMeaning(ProducedBy(schedule, |s.slots|), s.ends);
  }

  lemma EndsAreRecorded(s0: State, schedule: seq<Action>)
    requires Init(s0) && Feasible(s0, schedule) && Exec(s0, schedule).wait.Finished?
    ensures var s := Exec(s0, schedule);
      var ends := CallbackEnds(schedule);
      |ends| == |s.trace| && forall k :: 0 <= k < |ends| ==> EndOf(s.ends, s.trace[k]) == ends[k]
  {
    InitEstablishes(s0);
    RunKeeps(s0, schedule);
    SlotsHoldOutcomes(s0, schedule);
    var s := Exec(s0, schedule);
    assert !s.disp.Calling?;
    assert EndsSoFar(s) == CallbackEnds(schedule);
    forall k | 0 <= k < |s.trace| ensures EndOf(s.ends, s.trace[k]) == CallbackEnds(schedule)[k] {
      assert EndsSoFar(s)[k] == EndOf(s.ends, s.trace[k]);
    }
  }

  /** Two callback records that never contradict each other. */
  ghost predicate Compatible(a: map<nat, CbEnd>, b: map<nat, CbEnd>) {
    forall i :: i in a && i in b ==> a[i] == b[i]
  }

  /**
   * Determinism: two finished runs whose producers wrote the same things in slot order, and
   * whose callbacks end alike where both ran, run the same callbacks and raise the same panic,
   * even with different limits, callers and interleavings.
   */
  lemma WaitIsDeterministic(s: State, t: State)
    requires Inv(s) && Inv(t) && s.wait.Finished? && t.wait.Finished?
    requires AllReported(s, |s.slots|) && AllReported(t, |t.slots|)
    requires Outcomes(s, |s.slots|) == Outcomes(t, |t.slots|) && Compatible(s.ends, t.ends)
    ensures s.trace == t.trace && s.wait == t.wait
  {
    QuietAfterWait(s);
    QuietAfterWait(t);
    var cops := Outcomes(s, |s.slots|);
    forall i: nat | i < |cops| && i in Fold(cops, s.ends).trace && i in Fold(cops, t.ends).trace
      ensures EndOf(s.ends, i) == EndOf(t.ends, i)
    {
      assert i in s.ends && i in t.ends;
    }
    FoldAgree(cops, s.ends, t.ends);
  }

  /** In every reachable state the callbacks begun are those of a prefix of the slots, in slot order, each once. */
  lemma CallbacksInOrder(s: State)
    requires Inv(s)
    ensures forall a, b :: 0 <= a < b < |s.trace| ==> s.trace[a] < s.trace[b]
    ensures forall a :: 0 <= a < |s.trace| ==> s.trace[a] < s.received && s.slots[s.trace[a]].cop == Some(Callback)
  {
    var cops := Outcomes(s, Handled(s));
    FoldMeaning(cops, s.ends);
    var v := Fold(cops, s.ends);
    forall a | 0 <= a < |s.trace| ensures s.trace[a] < s.received && s.slots[s.trace[a]].cop == Some(Callback) {
      assert a < |v.trace| ==> v.trace[a] in v.trace;
    }
    forall a, b | 0 <= a < b < |s.trace| ensures s.trace[a] < s.trace[b] {
      assert v.trace[a] in v.trace;
    }
  }

  /** No reachable state is a runtime failure, and a call about to send never finds submitted closed or nil. */
  lemma NoSendOnClosed(s0: State, schedule: seq<Action>)
    requires Init(s0) && Feasible(s0, schedule)
    ensures var s := Exec(s0, schedule);
      && !s.fault
      && (forall k :: At(s, k, Holding) ==> s.launched && !s.closed && (!s.waited || s.wait.Flipped?))
      && (s.wait.Joined? ==> !s.closed)
  {
    InitEstablishes(s0);
    RunKeeps(s0, schedule);
    var s := Exec(s0, schedule);
    forall k | At(s, k, Holding) ensures s.launched && !s.closed && (!s.waited || s.wait.Flipped?) {
      SumAtLeast(Pending, s.subs, k);
    }
  }

  /**
   * No Go is lost: a call that was admitted and has returned owns exactly one slot if it came
   * through Go, or through GoCtx with a context that is not done.
   */
  lemma NoLostGo(s: State, k: nat)
    requires Inv(s) && k < |s.subs| && s.subs[k].pc.Returned?
    requires s.subs[k].own || !s.subs[k].ctxDone
    ensures exists i :: 0 <= i < |s.slots| && s.slots[i].caller == k
    ensures forall i, j ::
      0 <= i < |s.slots| && 0 <= j < |s.slots| && s.slots[i].caller == k && s.slots[j].caller == k ==> i == j
  {
    assert CallOk(s.subs[k], s.launched);
    var i := SlotOf(s.subs[k]).value;
    assert SlotOf(s.subs[k]) == Some(i);
    assert s.slots[i].caller == k;
  }

  /** Slots are only appended, and a call keeps the slot number it got. */
  ghost predicate SlotsGrown(s: State, t: State) {
    && |t.subs| == |s.subs| && |s.slots| <= |t.slots|
    && forall k :: 0 <= k < |s.subs| ==>
      if SlotOf(s.subs[k]).Some? then SlotOf(t.subs[k]) == SlotOf(s.subs[k])
      else SlotOf(t.subs[k]).Some? ==> SlotOf(t.subs[k]).value >= |s.slots|
  }

  /** One call moves: it keeps its slot, or, leaving Holding, gets the next number. */
  lemma CallMoveGrows(s: State, t: State, k: nat)
    requires k < |s.subs| == |t.subs| && t.subs == s.subs[k := t.subs[k]] && |s.slots| <= |t.slots|
    requires SlotOf(t.subs[k]) == SlotOf(s.subs[k]) || (SlotOf(s.subs[k]).None? && SlotOf(t.subs[k]) == Some(|s.slots|))
    ensures SlotsGrown(s, t)
  {
  }

  lemma CallerStepGrows(s: State, a: Action)
    requires Enabled(s, a) && CallerStep(a)
    ensures SlotsGrown(s, Apply(s, a))
  {
    match a
    case Admit(k) => CallMoveGrows(s, AdmitStep(s, k), k);
    case CancelCaller(k) => CallMoveGrows(s, CancelCallerStep(s, k), k);
    case Start(k) => CallMoveGrows(s, StartStep(s, k), k);
    case Acquire(k) => CallMoveGrows(s, AcquireStep(s, k), k);
    case Bail(k) => CallMoveGrows(s, BailStep(s, k), k);
    case Spawn(k) => CallMoveGrows(s, SpawnStep(s, k), k);
    case Leave(k) => CallMoveGrows(s, LeaveStep(s, k), k);
  }

  lemma ProducerStepGrows(s: State, a: Action)
    requires Enabled(s, a) && ProducerStep(a)
    ensures SlotsGrown(s, Apply(s, a))
  {
    match a
    case Produce(i, cop) => assert SlotsGrown(s, ProduceStep(s, i, cop));
    case FreeToken(i) => assert SlotsGrown(s, FreeTokenStep(s, i));
    case Retire(i) => assert SlotsGrown(s, RetireStep(s, i));
  }

  lemma DispatcherStepGrows(s: State, a: Action)
    requires Enabled(s, a) && DispatcherStep(a)
    ensures SlotsGrown(s, Apply(s, a))
  {
    match a
    case Receive => assert SlotsGrown(s, ReceiveStep(s));
    case Take => TakeGrows(s);
    case EndCallback(end) => assert SlotsGrown(s, EndCallbackStep(s, s.disp.slot, end));
  }

  lemma TakeGrows(s: State)
    requires Enabled(s, Take)
    ensures SlotsGrown(s, Apply(s, Take))
  {
    if s.disp.Awaiting? {
      assert SlotsGrown(s, TakeStep(s, s.disp.slot));
    } else {
      assert SlotsGrown(s, DrainTakeStep(s, s.disp.slot));
    }
  }

  lemma StepGrows(s: State, a: Action)
    requires Enabled(s, a)
    ensures SlotsGrown(s, Apply(s, a))
  {
    if CallerStep(a) {
      CallerStepGrows(s, a);
    } else if a.Send? {
      assert SlotsGrown(s, SendStep(s, a.k));
    } else if ProducerStep(a) {
      ProducerStepGrows(s, a);
    } else if DispatcherStep(a) {
      DispatcherStepGrows(s, a);
    } else {
      assert Apply(s, a).subs == s.subs;
    }
  }

  /** From any state on, a call that has not sent yet gets a slot behind every slot already sent. */
  lemma {:induction false} LaterCallGetsLaterSlot(s: State, schedule: seq<Action>, k: nat)
    requires Feasible(s, schedule) && k < |s.subs| && SlotOf(s.subs[k]).None?
    ensures var t := Exec(s, schedule);
      k < |t.subs| && (SlotOf(t.subs[k]).Some? ==> SlotOf(t.subs[k]).value >= |s.slots|)
    decreases |schedule|
  {
    if schedule == [] {
    } else {
      var t := Apply(s, schedule[0]);
      StepGrows(s, schedule[0]);
      if SlotOf(t.subs[k]).None? {
        LaterCallGetsLaterSlot(t, schedule[1..], k);
      } else {
        SlotStays(t, schedule[1..], k);
      }
    }
  }

  lemma {:induction false} SlotStays(s: State, schedule: seq<Action>, k: nat)
    requires Feasible(s, schedule) && k < |s.subs| && SlotOf(s.subs[k]).Some?
    ensures var t := Exec(s, schedule);
      k < |t.subs| && SlotOf(t.subs[k]) == SlotOf(s.subs[k])
    decreases |schedule|
  {
    if schedule == [] {
    } else {
      StepGrows(s, schedule[0]);
      SlotStays(Apply(s, schedule[0]), schedule[1..], k);
    }
  }

  /**
   * Submission order is slot order: if call a has sent when call b has not, then a's slot
   * precedes b's for good, and so does a's callback.
   */
  lemma SubmissionOrder(s: State, schedule: seq<Action>, a: nat, b: nat)
    requires Inv(s) && Feasible(s, schedule) && a < |s.subs| && b < |s.subs|
    requires SlotOf(s.subs[a]).Some? && SlotOf(s.subs[b]).None?
    ensures var t := Exec(s, schedule);
      && a < |t.subs| && b < |t.subs| && SlotOf(t.subs[a]).Some?
      && (SlotOf(t.subs[b]).Some? ==> SlotOf(t.subs[a]).value < SlotOf(t.subs[b]).value)
  {
    SlotStays(s, schedule, a);
    LaterCallGetsLaterSlot(s, schedule, b);
  }

  // ---- bounds

  function Born(t: Slot): nat {
    if t.prod.Unborn? then 0 else 1
  }

  function InFlight(t: Slot): nat {
    if t.prod.Running? then 1 else 0
  }

  /**
   * At most n producers run at once, and the producers ever started exceed the slots the
   * dispatcher has finished with by at most n + 1.
   */
  lemma Backlog(s: State)
    requires Inv(s)
    ensures Sum(InFlight, s.slots) <= s.n
    ensures Sum(Born, s.slots) <= Handled(s) + s.n + 1
  {
    SumMonotone(InFlight, ProducerToken, s.slots);
    SumBelowLength(Born, s.slots);
  }
}
