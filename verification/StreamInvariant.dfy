/** What every step of the stream protocol keeps. */
module StreamInvariant {
  import opened Counting
  import opened Options
  import opened StreamProtocol
  import opened StreamFold

  /** Tokens of sem a GoCtx call holds on behalf of the producer it has yet to spawn. */
  function CallToken(c: Submitter): nat {
    if c.pc.Holding? || c.pc.Sent? then 1 else 0
  }

  /** Tokens of sem a producer holds. */
  function ProducerToken(t: Slot): nat {
    if t.prod.Running? || t.prod.Written? then 1 else 0
  }

  /** An admitted call counts in submitWg until its deferred Done. */
  function Pending(c: Submitter): nat {
    if c.pc.Idle? || c.pc.Returned? || c.pc.Refused? then 0 else 1
  }

  /** A spawned producer counts in producerWg until its deferred Done. */
  function Live(t: Slot): nat {
    if t.prod.Unborn? || t.prod.Gone? then 0 else 1
  }

  ghost predicate Counts(s: State) {
    && s.n >= 1 && !s.fault
    && s.sem == Sum(CallToken, s.subs) + Sum(ProducerToken, s.slots) && s.sem <= s.n
    && s.submitWg == Sum(Pending, s.subs)
    && s.producerWg == Sum(Live, s.slots)
    && |s.submitted| <= s.n
  }

  ghost predicate SlotsOk(s: State) {
    && s.received + |s.submitted| == |s.slots|
    && (forall j :: 0 <= j < |s.submitted| ==> s.submitted[j] == s.received + j)
    && (forall i :: 0 <= i < |s.slots| ==>
          && (s.slots[i].cop.Some? <==> s.slots[i].prod.Written? || s.slots[i].prod.Freed? || s.slots[i].prod.Gone?)
          && s.slots[i].caller < |s.subs| && SlotOf(s.subs[s.slots[i].caller]) == Some(i))
    && (forall k :: 0 <= k < |s.subs| && SlotOf(s.subs[k]).Some? ==> SlotOf(s.subs[k]).value < |s.slots|)
    && (forall k, i :: 0 <= k < |s.subs| && 0 <= i < |s.slots| && SlotOf(s.subs[k]) == Some(i) ==>
          s.slots[i].caller == k && (s.slots[i].prod.Unborn? <==> s.subs[k].pc.Sent?))
  }

  /** submitted has been closed by Wait. */
  ghost predicate PastClose(s: State) {
    s.wait.Closing? || s.wait.Stopped? || s.wait.Raising? || (s.launched && (s.wait.Ending? || s.wait.Finished?))
  }

  /**
   * Nobody is past once.Do before it ran, no call through Go is turned away, and a call through
   * GoCtx is turned away only if its context is done.
   */
  ghost predicate CallOk(c: Submitter, launched: bool) {
    && (c.pc.Idle? || c.pc.Admitted? || c.pc.Refused? || launched)
    && (c.pc == Leaving(None) || c.pc == Returned(None) ==> !c.own && c.ctxDone)
  }

  ghost predicate CallsOk(s: State) {
    && (forall k :: 0 <= k < |s.subs| ==> CallOk(s.subs[k], s.launched))
    && (!s.launched ==> s.slots == [])
  }

  ghost predicate Phases(s: State) {
    && (s.disp.Off? <==> !s.launched)
    && (s.wait.NotCalled? <==> !s.waited)
    && (s.waited && !s.wait.Flipped? ==> s.submitWg == 0)
    && (s.closed <==> PastClose(s))
    && (s.wait.Closing? || s.wait.Stopped? || s.wait.Raising? ==> s.launched)
    && (s.cancelled <==> s.wait.Raising? || s.wait.Ending? || s.wait.Finished?)
    && (s.disp.Awaiting? || s.disp.Calling? || s.disp.DrainAwaiting? ==> s.received == s.disp.slot + 1)
    && (PastClose(s) && !s.wait.Closing? ==> s.disp.Exited?)
    && (s.disp.Exited? ==> s.closed && s.submitted == [])
    && (s.wait.Finished? ==> s.producerWg == 0)
  }

  /** The slots the dispatcher has finished with; a running callback is not finished. */
  function Handled(s: State): nat {
    if (s.disp.Awaiting? || s.disp.Calling? || s.disp.DrainAwaiting?) && s.received > 0
    then s.received - 1
    else s.received
  }

  ghost predicate AllReported(s: State, h: nat) {
    h <= |s.slots| && forall i :: 0 <= i < h ==> s.slots[i].cop.Some?
  }

  /** What the producers of the first h slots wrote. */
  function Outcomes(s: State, h: nat): (cops: seq<Cop>)
    requires AllReported(s, h)
  {
    seq(h, i requires 0 <= i < h => s.slots[i].cop.value)
  }

  /** The dispatcher has done exactly what the fold over the handled slots says. */
  ghost predicate Folded(s: State) {
    AllReported(s, Handled(s)) && Follows(s, Fold(Outcomes(s, Handled(s)), s.ends))
  }

  /** The dispatcher's record of the slots it has handled is v. */
  ghost predicate Follows(s: State, v: Verdict) {
    && (forall i :: i in s.ends <==> i in v.trace)
    && v.producer == s.producerPanic && v.callback == s.dispatchPanic
    && (s.disp.Off? || s.disp.Ranging? || s.disp.Awaiting? || s.disp.Calling? ==> !v.halted)
    && (if s.disp.Calling? then
          && s.trace == v.trace + [s.disp.slot]
          && s.disp.slot < |s.slots| && s.slots[s.disp.slot].cop == Some(Callback)
        else s.trace == v.trace)
    && (!v.halted && s.disp.Draining? ==> s.closed && s.submitted == [])
    && (s.disp.DrainAwaiting? ==> v.halted)
    && (s.wait.Ending? || s.wait.Finished? ==> s.wait.raised == Raised(s.producerPanic, s.dispatchPanic))
  }

  ghost predicate Shape(s: State) {
    Counts(s) && SlotsOk(s) && CallsOk(s) && Phases(s)
  }

  ghost predicate Inv(s: State) {
    Shape(s) && Folded(s)
  }

  lemma InitEstablishes(s: State)
    requires Init(s)
    ensures Inv(s)
  {
    SumZero(CallToken, s.subs);
    SumZero(Pending, s.subs);
  }

  /** Moving one call moves the two sums over the calls. */
  lemma CallMoves(s: State, k: nat, c: Submitter)
    requires k < |s.subs|
    ensures var t := s.subs[k := c];
      && Sum(CallToken, t) + CallToken(s.subs[k]) == Sum(CallToken, s.subs) + CallToken(c)
      && Sum(Pending, t) + Pending(s.subs[k]) == Sum(Pending, s.subs) + Pending(c)
      && Pending(s.subs[k]) <= Sum(Pending, s.subs)
  {
    SumUpdate(CallToken, s.subs, k, c);
    SumUpdate(Pending, s.subs, k, c);
    SumAtLeast(Pending, s.subs, k);
  }

  /** Moving one producer moves the two sums over the slots. */
  lemma ProducerMoves(s: State, i: nat, t: Slot)
    requires i < |s.slots|
    ensures var u := s.slots[i := t];
      && Sum(ProducerToken, u) + ProducerToken(s.slots[i]) == Sum(ProducerToken, s.slots) + ProducerToken(t)
      && Sum(Live, u) + Live(s.slots[i]) == Sum(Live, s.slots) + Live(t)
      && Live(s.slots[i]) <= Sum(Live, s.slots)
  {
    SumUpdate(ProducerToken, s.slots, i, t);
    SumUpdate(Live, s.slots, i, t);
    SumAtLeast(Live, s.slots, i);
  }

  /** Moving one call without touching its slot keeps SlotsOk. */
  lemma CallKeepsSlots(s: State, t: State, k: nat)
    requires SlotsOk(s) && k < |s.subs| == |t.subs| && t.subs == s.subs[k := t.subs[k]]
    requires t.slots == s.slots && t.submitted == s.submitted && t.received == s.received
    requires SlotOf(t.subs[k]) == SlotOf(s.subs[k]) && (t.subs[k].pc.Sent? <==> s.subs[k].pc.Sent?)
    ensures SlotsOk(t)
  {
  }

  lemma CallKeepsCalls(s: State, t: State, k: nat)
    requires CallsOk(s) && k < |s.subs| == |t.subs| && t.subs == s.subs[k := t.subs[k]]
    requires CallOk(t.subs[k], t.launched) && (s.launched ==> t.launched) && (t.launched || t.slots == s.slots)
    ensures CallsOk(t)
  {
  }

  lemma AdmitCounts(s: State, k: nat)
    requires Counts(s) && At(s, k, Idle)
    ensures Counts(AdmitStep(s, k))
  {
    CallMoves(s, k, AdmitStep(s, k).subs[k]);
  }

  lemma AdmitKeeps(s: State, k: nat)
    requires Shape(s) && At(s, k, Idle)
    ensures Shape(AdmitStep(s, k))
  {
    AdmitCounts(s, k);
    SumAtLeast(Pending, s.subs, k);
    CallKeepsSlots(s, AdmitStep(s, k), k);
    CallKeepsCalls(s, AdmitStep(s, k), k);
  }

  lemma CancelCallerCounts(s: State, k: nat)
    requires Counts(s) && k < |s.subs|
    ensures Counts(CancelCallerStep(s, k))
  {
    CallMoves(s, k, CancelCallerStep(s, k).subs[k]);
  }

  lemma CancelCallerKeeps(s: State, k: nat)
    requires Shape(s) && k < |s.subs|
    ensures Shape(CancelCallerStep(s, k))
  {
    CancelCallerCounts(s, k);
    SumAtLeast(Pending, s.subs, k);
    CallKeepsSlots(s, CancelCallerStep(s, k), k);
    CallKeepsCalls(s, CancelCallerStep(s, k), k);
  }

  lemma StartCounts(s: State, k: nat)
    requires Counts(s) && At(s, k, Admitted)
    ensures Counts(StartStep(s, k))
  {
    CallMoves(s, k, StartStep(s, k).subs[k]);
  }

  lemma StartKeeps(s: State, k: nat)
    requires Shape(s) && At(s, k, Admitted)
    ensures Shape(StartStep(s, k))
  {
    StartCounts(s, k);
    SumAtLeast(Pending, s.subs, k);
    CallKeepsSlots(s, StartStep(s, k), k);
    CallKeepsCalls(s, StartStep(s, k), k);
  }

  lemma AcquireCounts(s: State, k: nat)
    requires Counts(s) && At(s, k, Selecting) && s.sem < s.n
    ensures Counts(AcquireStep(s, k))
  {
    CallMoves(s, k, AcquireStep(s, k).subs[k]);
  }

  lemma AcquireKeeps(s: State, k: nat)
    requires Shape(s) && At(s, k, Selecting) && s.sem < s.n
    ensures Shape(AcquireStep(s, k))
  {
    AcquireCounts(s, k);
    SumAtLeast(Pending, s.subs, k);
    CallKeepsSlots(s, AcquireStep(s, k), k);
    CallKeepsCalls(s, AcquireStep(s, k), k);
  }

  lemma BailCounts(s: State, k: nat)
    requires Counts(s) && At(s, k, Selecting)
    ensures Counts(BailStep(s, k))
  {
    CallMoves(s, k, BailStep(s, k).subs[k]);
  }

  lemma BailKeeps(s: State, k: nat)
    requires Shape(s) && At(s, k, Selecting) && ContextDone(s, k)
    ensures Shape(BailStep(s, k))
  {
    BailCounts(s, k);
    SumAtLeast(Pending, s.subs, k);
    CallKeepsSlots(s, BailStep(s, k), k);
    CallKeepsCalls(s, BailStep(s, k), k);
  }

  lemma LeaveCounts(s: State, k: nat)
    requires Counts(s) && k < |s.subs| && s.subs[k].pc.Leaving?
    ensures Counts(LeaveStep(s, k))
  {
    CallMoves(s, k, LeaveStep(s, k).subs[k]);
  }

  lemma LeaveKeeps(s: State, k: nat)
    requires Shape(s) && k < |s.subs| && s.subs[k].pc.Leaving?
    ensures Shape(LeaveStep(s, k))
  {
    LeaveCounts(s, k);
    SumAtLeast(Pending, s.subs, k);
    CallKeepsSlots(s, LeaveStep(s, k), k);
    CallKeepsCalls(s, LeaveStep(s, k), k);
  }

  /** A slot whose producer is yet to be spawned holds no token and is in no wait group. */
  lemma SlotAdded(slots: seq<Slot>, t: Slot)
    requires t.prod.Unborn?
    ensures Sum(ProducerToken, slots + [t]) == Sum(ProducerToken, slots)
    ensures Sum(Live, slots + [t]) == Sum(Live, slots)
  {
    SumAppend(ProducerToken, slots, t);
    SumAppend(Live, slots, t);
  }

  lemma SendCounts(s: State, k: nat)
    requires Counts(s) && At(s, k, Holding) && !s.closed && |s.submitted| < s.n
    ensures Counts(SendStep(s, k))
  {
    CallMoves(s, k, s.subs[k].(pc := Sent(|s.slots|)));
    SlotAdded(s.slots, Slot(k, Unborn, None));
  }

  lemma SendSlots(s: State, k: nat)
    requires SlotsOk(s) && At(s, k, Holding) && !s.closed
    ensures SlotsOk(SendStep(s, k))
  {
  }

  /** No call is still to send once submitted is closed. */
  lemma SendKeeps(s: State, k: nat)
    requires Shape(s) && Enabled(s, Send(k))
    ensures Shape(SendStep(s, k)) && !s.closed
  {
    SumAtLeast(Pending, s.subs, k);
    assert !s.closed;
    SendCounts(s, k);
    SendSlots(s, k);
    CallKeepsCalls(s, SendStep(s, k), k);
  }

  lemma SpawnCounts(s: State, k: nat)
    requires Counts(s) && SlotsOk(s) && k < |s.subs| && s.subs[k].pc.Sent?
    ensures Counts(SpawnStep(s, k))
  {
    var t := SpawnStep(s, k);
    var i := s.subs[k].pc.slot;
    assert SlotOf(s.subs[k]) == Some(i);
    CallMoves(s, k, t.subs[k]);
    ProducerMoves(s, i, t.slots[i]);
  }

  lemma SpawnSlots(s: State, k: nat)
    requires SlotsOk(s) && k < |s.subs| && s.subs[k].pc.Sent?
    ensures SlotsOk(SpawnStep(s, k))
  {
    assert SlotOf(s.subs[k]) == Some(s.subs[k].pc.slot);
  }

  lemma SpawnKeeps(s: State, k: nat)
    requires Shape(s) && k < |s.subs| && s.subs[k].pc.Sent?
    ensures Shape(SpawnStep(s, k))
  {
    SumAtLeast(Pending, s.subs, k);
    SpawnCounts(s, k);
    SpawnSlots(s, k);
    CallKeepsCalls(s, SpawnStep(s, k), k);
  }

  /** Moving one producer past its spawn keeps SlotsOk. */
  lemma ProducerKeepsSlots(s: State, t: State, i: nat)
    requires SlotsOk(s) && i < |s.slots| == |t.slots| && t.slots == s.slots[i := t.slots[i]]
    requires t.subs == s.subs && t.submitted == s.submitted && t.received == s.received
    requires !s.slots[i].prod.Unborn? && !t.slots[i].prod.Unborn? && t.slots[i].caller == s.slots[i].caller
    requires t.slots[i].cop.Some? <==> t.slots[i].prod.Written? || t.slots[i].prod.Freed? || t.slots[i].prod.Gone?
    ensures SlotsOk(t)
  {
  }

  lemma ProduceCounts(s: State, i: nat, cop: Cop)
    requires Counts(s) && Producing(s, i, Running)
    ensures Counts(ProduceStep(s, i, cop))
  {
    ProducerMoves(s, i, ProduceStep(s, i, cop).slots[i]);
  }

  lemma ProduceKeeps(s: State, i: nat, cop: Cop)
    requires Shape(s) && Producing(s, i, Running)
    ensures Shape(ProduceStep(s, i, cop))
  {
    ProduceCounts(s, i, cop);
    SumAtLeast(Live, s.slots, i);
    ProducerKeepsSlots(s, ProduceStep(s, i, cop), i);
  }

  lemma FreeTokenCounts(s: State, i: nat)
    requires Counts(s) && Producing(s, i, Written) && s.sem > 0
    ensures Counts(FreeTokenStep(s, i))
  {
    ProducerMoves(s, i, FreeTokenStep(s, i).slots[i]);
  }

  lemma FreeTokenKeeps(s: State, i: nat)
    requires Shape(s) && Producing(s, i, Written) && s.sem > 0
    ensures Shape(FreeTokenStep(s, i))
  {
    FreeTokenCounts(s, i);
    SumAtLeast(Live, s.slots, i);
    ProducerKeepsSlots(s, FreeTokenStep(s, i), i);
  }

  lemma RetireCounts(s: State, i: nat)
    requires Counts(s) && Producing(s, i, Freed)
    ensures Counts(RetireStep(s, i))
  {
    ProducerMoves(s, i, RetireStep(s, i).slots[i]);
  }

  lemma RetireKeeps(s: State, i: nat)
    requires Shape(s) && Producing(s, i, Freed)
    ensures Shape(RetireStep(s, i))
  {
    RetireCounts(s, i);
    SumAtLeast(Live, s.slots, i);
    ProducerKeepsSlots(s, RetireStep(s, i), i);
  }

  /** A step that leaves calls, slots, channel and counters alone keeps what is said about them. */
  lemma TablesFrame(s: State, t: State)
    requires Counts(s) && SlotsOk(s) && CallsOk(s)
    requires t.n == s.n && t.sem == s.sem && t.submitWg == s.submitWg && t.producerWg == s.producerWg
    requires t.submitted == s.submitted && t.received == s.received && t.subs == s.subs && t.slots == s.slots
    requires t.fault == s.fault && t.launched == s.launched
    ensures Counts(t) && SlotsOk(t) && CallsOk(t)
  {
  }

  lemma ReceiveSlots(s: State)
    requires SlotsOk(s)
    ensures SlotsOk(ReceiveStep(s))
  {
    assert s.submitted != [] ==> forall j :: 0 <= j < |s.submitted| - 1 ==> s.submitted[1..][j] == s.submitted[j + 1];
  }

  lemma ReceiveKeeps(s: State)
    requires Shape(s) && Enabled(s, Receive)
    ensures Shape(ReceiveStep(s))
  {
    ReceiveSlots(s);
    assert s.submitted != [] ==> s.submitted[0] == s.received;
  }

  lemma TakeKeeps(s: State)
    requires Shape(s) && Enabled(s, Take) && s.disp.Awaiting?
    ensures Shape(TakeStep(s, s.disp.slot))
  {
    TablesFrame(s, TakeStep(s, s.disp.slot));
    TakePhases(s);
  }

  lemma TakePhases(s: State)
    requires Phases(s) && Enabled(s, Take) && s.disp.Awaiting?
    ensures Phases(TakeStep(s, s.disp.slot))
  {
  }

  lemma DrainTakeKeeps(s: State)
    requires Shape(s) && Enabled(s, Take) && s.disp.DrainAwaiting?
    ensures Shape(DrainTakeStep(s, s.disp.slot))
  {
    TablesFrame(s, DrainTakeStep(s, s.disp.slot));
  }

  lemma EndCallbackKeeps(s: State, end: CbEnd)
    requires Shape(s) && s.disp.Calling?
    ensures Shape(EndCallbackStep(s, s.disp.slot, end))
  {
    TablesFrame(s, EndCallbackStep(s, s.disp.slot, end));
  }

  lemma CallWaitKeeps(s: State)
    requires Shape(s) && s.waitCalls > 0
    ensures Shape(CallWaitStep(s))
  {
    TablesFrame(s, CallWaitStep(s));
  }

  lemma CloseSubmittedKeeps(s: State)
    requires Shape(s) && s.wait.Joined?
    ensures Shape(CloseSubmittedStep(s))
  {
    TablesFrame(s, CloseSubmittedStep(s));
  }

  predicate LateWait(a: Action) {
    a.JoinSubmitters? || a.JoinDispatcher? || a.CancelContext? || a.Raise? || a.JoinProducers?
  }

  lemma LateWaitKeeps(s: State, a: Action)
    requires Shape(s) && Enabled(s, a) && LateWait(a)
    ensures Shape(Apply(s, a))
  {
    TablesFrame(s, Apply(s, a));
  }

  lemma ShapeKept(s: State, a: Action)
    requires Shape(s) && Enabled(s, a)
    ensures Shape(Apply(s, a))
  {
    match a
    case Admit(k) => AdmitKeeps(s, k);
    case CancelCaller(k) => CancelCallerKeeps(s, k);
    case Start(k) => StartKeeps(s, k);
    case Acquire(k) => AcquireKeeps(s, k);
    case Bail(k) => BailKeeps(s, k);
    case Send(k) => SendKeeps(s, k);
    case Spawn(k) => SpawnKeeps(s, k);
    case Leave(k) => LeaveKeeps(s, k);
    case Produce(i, cop) => ProduceKeeps(s, i, cop);
    case FreeToken(i) => FreeTokenKeeps(s, i);
    case Retire(i) => RetireKeeps(s, i);
    case Receive => ReceiveKeeps(s);
    case Take => if s.disp.Awaiting? { TakeKeeps(s); } else { DrainTakeKeeps(s); }
    case EndCallback(end) => EndCallbackKeeps(s, end);
    case CallWait => CallWaitKeeps(s);
    case CloseSubmitted => CloseSubmittedKeeps(s);
    case _ => LateWaitKeeps(s, a);
  }

  // ---- the dispatcher follows the fold

  /** A step that handles no slot and leaves the dispatcher's record alone keeps Folded. */
  lemma FoldedFrame(s: State, t: State)
    requires Folded(s)
    requires Handled(t) == Handled(s) && t.trace == s.trace && t.ends == s.ends
    requires t.producerPanic == s.producerPanic && t.dispatchPanic == s.dispatchPanic
    requires t.disp == s.disp || (s.disp.Off? && t.disp.Ranging?)
    requires |s.slots| <= |t.slots|
    requires forall i :: 0 <= i < Handled(s) ==> t.slots[i].cop == s.slots[i].cop
    requires s.disp.Calling? ==> t.slots[s.disp.slot].cop == s.slots[s.disp.slot].cop
    requires s.closed ==> t.closed && t.submitted == s.submitted
    requires t.wait.Ending? || t.wait.Finished? ==> t.wait.raised == Raised(s.producerPanic, s.dispatchPanic)
    ensures Folded(t)
  {
    assert Outcomes(t, Handled(t)) == Outcomes(s, Handled(s));
  }

  /** A step of a caller that leaves the slots alone. */
  lemma FoldedCaller(s: State, t: State)
    requires Inv(s)
    requires t.slots == s.slots && t.submitted == s.submitted && t.closed == s.closed && t.received == s.received
    requires t.disp == s.disp || (s.disp.Off? && t.disp.Ranging?)
    requires t.trace == s.trace && t.ends == s.ends && t.wait == s.wait
    requires t.producerPanic == s.producerPanic && t.dispatchPanic == s.dispatchPanic
    ensures Folded(t)
  {
    FoldedFrame(s, t);
  }

  /** A step that moves one producer and writes a slot at most once. */
  lemma FoldedProducer(s: State, t: State, i: nat)
    requires Inv(s) && i < |s.slots| == |t.slots| && t.slots == s.slots[i := t.slots[i]]
    requires s.slots[i].cop.None? || t.slots[i].cop == s.slots[i].cop
    requires t.submitted == s.submitted && t.closed == s.closed && t.received == s.received && t.disp == s.disp
    requires t.trace == s.trace && t.ends == s.ends && t.wait == s.wait
    requires t.producerPanic == s.producerPanic && t.dispatchPanic == s.dispatchPanic
    ensures Folded(t)
  {
    FoldedFrame(s, t);
  }

  lemma LateWaitFolded(s: State, a: Action)
    requires Inv(s) && Enabled(s, a) && LateWait(a)
    ensures Folded(Apply(s, a))
  {
    FoldedFrame(s, Apply(s, a));
  }

  lemma CallWaitFolded(s: State)
    requires Inv(s) && s.waitCalls > 0
    ensures Folded(CallWaitStep(s))
  {
    FoldedFrame(s, CallWaitStep(s));
  }

  lemma CloseSubmittedFolded(s: State)
    requires Inv(s) && s.wait.Joined?
    ensures Folded(CloseSubmittedStep(s))
  {
    FoldedFrame(s, CloseSubmittedStep(s));
  }

  predicate ProducerStep(a: Action) {
    a.Produce? || a.FreeToken? || a.Retire?
  }

  lemma ProducerStepFolded(s: State, a: Action)
    requires Inv(s) && Enabled(s, a) && ProducerStep(a)
    ensures Folded(Apply(s, a))
  {
    match a
    case Produce(i, cop) => FoldedProducer(s, ProduceStep(s, i, cop), i);
    case FreeToken(i) => FoldedProducer(s, FreeTokenStep(s, i), i);
    case Retire(i) => FoldedProducer(s, RetireStep(s, i), i);
  }

  predicate CallerStep(a: Action) {
    a.Admit? || a.CancelCaller? || a.Start? || a.Acquire? || a.Bail? || a.Spawn? || a.Leave?
  }

  lemma CallerStepFolded(s: State, a: Action)
    requires Inv(s) && Enabled(s, a) && CallerStep(a)
    ensures Folded(Apply(s, a))
  {
    match a
    case Admit(k) => FoldedCaller(s, AdmitStep(s, k));
    case CancelCaller(k) => FoldedCaller(s, CancelCallerStep(s, k));
    case Start(k) => FoldedCaller(s, StartStep(s, k));
    case Acquire(k) => FoldedCaller(s, AcquireStep(s, k));
    case Bail(k) => FoldedCaller(s, BailStep(s, k));
    case Spawn(k) => FoldedProducer(s, SpawnStep(s, k), s.subs[k].pc.slot);
    case Leave(k) => FoldedCaller(s, LeaveStep(s, k));
  }

  lemma SendFolded(s: State, k: nat)
    requires Inv(s) && Enabled(s, Send(k))
    ensures Folded(SendStep(s, k))
  {
    SendKeeps(s, k);
    FoldedFrame(s, SendStep(s, k));
  }

  lemma ReceiveFolded(s: State)
    requires Inv(s) && Enabled(s, Receive)
    ensures Folded(ReceiveStep(s))
  {
    var t := ReceiveStep(s);
    assert Handled(t) == Handled(s);
    assert Outcomes(t, Handled(t)) == Outcomes(s, Handled(s));
  }

  /** Handling one more slot extends the fold by one step. */
  lemma FoldExtends(s: State, t: State)
    requires AllReported(s, Handled(s)) && AllReported(t, Handled(s) + 1)
    requires forall i :: 0 <= i < Handled(s) ==> t.slots[i].cop == s.slots[i].cop
    ensures var h := Handled(s);
      Fold(Outcomes(t, h + 1), s.ends) ==
      Handle(Fold(Outcomes(s, h), s.ends), h, t.slots[h].cop.value, EndOf(s.ends, h))
  {
    var h := Handled(s);
    assert Outcomes(t, h + 1)[..h] == Outcomes(s, h);
  }

  /** The first loop: a panic moves on to the drain, a callback is begun. */
  lemma TakeFolded(s: State)
    requires Inv(s) && Enabled(s, Take) && s.disp.Awaiting?
    ensures Folded(TakeStep(s, s.disp.slot))
  {
    var h := Handled(s);
    if s.slots[h].cop.value.Callback? {
      TakeCallbackFolded(s);
    } else {
      TakeOtherFolded(s);
    }
  }

  lemma TakeCallbackFolded(s: State)
    requires Inv(s) && Enabled(s, Take) && s.disp.Awaiting? && s.slots[s.disp.slot].cop.value.Callback?
    ensures Folded(TakeStep(s, s.disp.slot))
  {
    var t := TakeStep(s, s.disp.slot);
    assert Outcomes(t, Handled(t)) == Outcomes(s, Handled(s));
  }

  /** While the dispatcher holds slot i, Wait raises nothing. */
  ghost predicate InHand(s: State, u: Verdict, i: nat, cop: Cop) {
    && Reported(s, i) && s.slots[i].cop.value == cop && !s.disp.Calling?
    && Follows(s, u) && !s.wait.Ending? && !s.wait.Finished?
  }

  /** In both loops a producer panic goes into the cell unless one is there. */
  lemma PanicFollows(s: State, u: Verdict, i: nat, p: Panic, end: CbEnd)
    requires InHand(s, u, i, ProducerPanic(p))
    ensures var t := s.(producerPanic := FirstOf(s.producerPanic, p), disp := Draining);
      Follows(t, Handle(u, i, ProducerPanic(p), end))
  {
  }

  /** The first loop passes over a slot without a callback. */
  lemma NilFollows(s: State, u: Verdict, i: nat, end: CbEnd)
    requires InHand(s, u, i, NilCallback) && s.disp.Awaiting?
    ensures Follows(s.(disp := Ranging), Handle(u, i, NilCallback, end))
  {
  }

  /** The drain drops whatever is not a panic. */
  lemma DropFollows(s: State, u: Verdict, i: nat, cop: Cop, end: CbEnd)
    requires InHand(s, u, i, cop) && s.disp.DrainAwaiting? && !cop.ProducerPanic?
    ensures Follows(s.(disp := Draining), Handle(u, i, cop, end))
  {
  }

  lemma TakeOtherFollows(s: State, u: Verdict, i: nat, cop: Cop, end: CbEnd)
    requires InHand(s, u, i, cop) && s.disp.Awaiting? && !cop.Callback?
    ensures Follows(TakeStep(s, i), Handle(u, i, cop, end))
  {
    match cop
    case ProducerPanic(p) => PanicFollows(s, u, i, p, end);
    case NilCallback => NilFollows(s, u, i, end);
  }

  lemma DrainTakeFollows(s: State, u: Verdict, i: nat, cop: Cop, end: CbEnd)
    requires InHand(s, u, i, cop) && s.disp.DrainAwaiting?
    ensures Follows(DrainTakeStep(s, i), Handle(u, i, cop, end))
  {
    match cop
    case ProducerPanic(p) => PanicFollows(s, u, i, p, end);
    case _ => DropFollows(s, u, i, cop, end);
  }

  lemma TakeOtherFolded(s: State)
    requires Inv(s) && Enabled(s, Take) && s.disp.Awaiting? && !s.slots[s.disp.slot].cop.value.Callback?
    ensures Folded(TakeStep(s, s.disp.slot))
  {
    var t := TakeStep(s, s.disp.slot);
    assert Handled(t) == Handled(s) + 1;
    FoldExtends(s, t);
    var i := s.disp.slot;
    TakeOtherFollows(s, Fold(Outcomes(s, Handled(s)), s.ends), i, s.slots[i].cop.value, EndOf(s.ends, i));
  }

  /** The drain: callbacks are dropped, a producer panic is still recorded. */
  lemma DrainTakeFolded(s: State)
    requires Inv(s) && Enabled(s, Take) && s.disp.DrainAwaiting?
    ensures Folded(DrainTakeStep(s, s.disp.slot))
  {
    var t := DrainTakeStep(s, s.disp.slot);
    assert Handled(t) == Handled(s) + 1;
    FoldExtends(s, t);
    var i := s.disp.slot;
    DrainTakeFollows(s, Fold(Outcomes(s, Handled(s)), s.ends), i, s.slots[i].cop.value, EndOf(s.ends, i));
  }

  /** The end of the callback of slot h is not looked at by the fold over the earlier slots. */
  lemma EndCallbackVerdict(s: State, h: nat, end: CbEnd)
    requires AllReported(s, h + 1) && s.slots[h].cop == Some(Callback)
    requires h !in s.ends
    ensures Fold(Outcomes(s, h + 1), s.ends[h := end]) == Handle(Fold(Outcomes(s, h), s.ends), h, Callback, end)
  {
    var before := Outcomes(s, h);
    FoldBasics(before, s.ends);
    FoldAgree(before, s.ends, s.ends[h := end]);
    assert Outcomes(s, h + 1)[..h] == before;
  }

  /** The callback that is running has no end yet, and no callback has panicked. */
  lemma CallingIsFresh(s: State, h: nat)
    requires Inv(s) && s.disp == Calling(h)
    ensures h !in s.ends && Handled(s) == h && AllReported(s, h + 1) && Fold(Outcomes(s, h), s.ends).callback.None?
  {
    FoldBasics(Outcomes(s, h), s.ends);
  }

  lemma EndCallbackFolded(s: State, end: CbEnd)
    requires Inv(s) && s.disp.Calling?
    ensures Folded(EndCallbackStep(s, s.disp.slot, end))
  {
    var h := s.disp.slot;
    var t := EndCallbackStep(s, h, end);
    var u := Fold(Outcomes(s, h), s.ends);
    CallingIsFresh(s, h);
    EndCallbackVerdict(s, h, end);
    assert Outcomes(t, h + 1) == Outcomes(s, h + 1);
    assert Handled(t) == h + 1;
    EndCallbackFollows(s, u, h, end);
  }

  lemma EndCallbackFollows(s: State, u: Verdict, h: nat, end: CbEnd)
    requires s.disp == Calling(h) && Follows(s, u) && !s.wait.Ending? && !s.wait.Finished? && u.callback.None?
    ensures Follows(EndCallbackStep(s, h, end), Handle(u, h, Callback, end))
  {
  }

  predicate DispatcherStep(a: Action) {
    a.Receive? || a.Take? || a.EndCallback?
  }

  lemma DispatcherStepFolded(s: State, a: Action)
    requires Inv(s) && Enabled(s, a) && DispatcherStep(a)
    ensures Folded(Apply(s, a))
  {
    match a
    case Receive => ReceiveFolded(s);
    case EndCallback(end) => EndCallbackFolded(s, end);
    case Take => if s.disp.Awaiting? { TakeFolded(s); } else { DrainTakeFolded(s); }
  }

  /** Every action keeps the invariant. */
  lemma StepKeeps(s: State, a: Action)
    requires Inv(s) && Enabled(s, a)
    ensures Inv(Apply(s, a))
  {
    ShapeKept(s, a);
    if CallerStep(a) {
      CallerStepFolded(s, a);
    } else if a.Send? {
      SendFolded(s, a.k);
    } else if ProducerStep(a) {
      ProducerStepFolded(s, a);
    } else if DispatcherStep(a) {
      DispatcherStepFolded(s, a);
    } else if a.CallWait? {
      CallWaitFolded(s);
    } else if a.CloseSubmitted? {
      CloseSubmittedFolded(s);
    } else {
      LateWaitFolded(s, a);
    }
  }
}
