/**
 * The protocol of stream.Stream as a transition system: any number of GoCtx
 * callers, one producer goroutine for each slot, the dispatcher, and the callers
 * of Wait.  One action is one lock section, channel operation, wait-group
 * operation or context operation; user code chooses its outcome when it ends.
 */
module StreamProtocol {
  import opened Options

  /** The identity of a recovered panic. */
  type Panic = int

  /** What a producer writes into its slot. */
  datatype Cop = NilCallback | Callback | ProducerPanic(panic: Panic)

  /** How a callback ended. */
  datatype CbEnd = CbReturned | CbPanicked(panic: Panic)

  /**
   * Where one GoCtx call stands.  From Sent on it remembers its slot, whose producer is
   * still to be spawned in Sent; a call that got its context's error leaves with None.
   */
  datatype SubPc =
    | Idle | Admitted | Selecting | Holding | Sent(slot: nat)
    | Leaving(sent: Option<nat>) | Returned(sent: Option<nat>) | Refused

  /** own: the call came through Go and so waits on the stream's own context. */
  datatype Submitter = Submitter(pc: SubPc, own: bool, ctxDone: bool)

  datatype ProdPc = Unborn | Running | Written | Freed | Gone

  /** A result channel (cop) together with its producer, numbered in the order of the sends. */
  datatype Slot = Slot(caller: nat, prod: ProdPc, cop: Option<Cop>)

  datatype DispPc =
    | Off | Ranging | Awaiting(slot: nat) | Calling(slot: nat)
    | Draining | DrainAwaiting(slot: nat) | Exited

  /** Where the one effective Wait call stands; later calls return at once. */
  datatype WaitPc =
    | NotCalled | Flipped | Joined | Closing | Stopped | Raising
    | Ending(raised: Option<Panic>) | Finished(raised: Option<Panic>)

  /**
   * launched says that the once has run, so submitted is not nil.  waitCalls counts the
   * Wait calls still to come.  received counts the slots taken out of submitted.  trace
   * and ends record the callbacks begun, in order, and how each one ended.  fault marks
   * a runtime failure: a send on or close of a closed channel, or a negative counter.
   */
  datatype State = State(
    n: nat, sem: nat, submitWg: nat, producerWg: nat,
    waited: bool, waitCalls: nat, launched: bool, closed: bool, cancelled: bool,
    submitted: seq<nat>, received: nat,
    subs: seq<Submitter>, slots: seq<Slot>, disp: DispPc, wait: WaitPc,
    producerPanic: Option<Panic>, dispatchPanic: Option<Panic>,
    trace: seq<nat>, ends: map<nat, CbEnd>, fault: bool)

  datatype Action =
    | Admit(k: nat) | CancelCaller(k: nat) | Start(k: nat) | Acquire(k: nat) | Bail(k: nat)
    | Send(k: nat) | Spawn(k: nat) | Leave(k: nat)
    | Produce(i: nat, cop: Cop) | FreeToken(i: nat) | Retire(i: nat)
    | Receive | Take | EndCallback(end: CbEnd)
    | CallWait | JoinSubmitters | CloseSubmitted | JoinDispatcher | CancelContext | Raise | JoinProducers

  predicate Init(s: State) {
    && s.n >= 1 && s.sem == 0 && s.submitWg == 0 && s.producerWg == 0
    && !s.waited && !s.launched && !s.closed && !s.cancelled && !s.fault
    && s.submitted == [] && s.received == 0 && s.slots == []
    && (forall k :: 0 <= k < |s.subs| ==> s.subs[k].pc == Idle)
    && s.disp == Off && s.wait == NotCalled
    && s.producerPanic == None && s.dispatchPanic == None
    && s.trace == [] && s.ends == map[]
  }

  /** Whether the context that GoCtx call k waits on is done. */
  predicate ContextDone(s: State, k: nat)
    requires k < |s.subs|
  {
    if s.subs[k].own then s.cancelled else s.subs[k].ctxDone
  }

  /** The slot that a GoCtx call has sent, if any. */
  function SlotOf(c: Submitter): Option<nat> {
    match c.pc
    case Sent(i) => Some(i)
    case Leaving(sent) => sent
    case Returned(sent) => sent
    case _ => None
  }

  predicate At(s: State, k: nat, pc: SubPc) {
    k < |s.subs| && s.subs[k].pc == pc
  }

  predicate Producing(s: State, i: nat, pc: ProdPc) {
    i < |s.slots| && s.slots[i].prod == pc
  }

  /** The result of slot i has been written. */
  predicate Reported(s: State, i: nat) {
    i < |s.slots| && s.slots[i].cop.Some?
  }

  predicate Enabled(s: State, a: Action) {
    match a
    case Admit(k) => At(s, k, Idle)
    case CancelCaller(k) => k < |s.subs| && !s.subs[k].own && !s.subs[k].ctxDone
    case Start(k) => At(s, k, Admitted)
    case Acquire(k) => At(s, k, Selecting) && s.sem < s.n
    case Bail(k) => At(s, k, Selecting) && ContextDone(s, k)
    case Send(k) => At(s, k, Holding) && s.launched && (s.closed || |s.submitted| < s.n)
    case Spawn(k) => k < |s.subs| && s.subs[k].pc.Sent? && s.subs[k].pc.slot < |s.slots|
    case Leave(k) => k < |s.subs| && s.subs[k].pc.Leaving?
    case Produce(i, _) => Producing(s, i, Running)
    case FreeToken(i) => Producing(s, i, Written) && s.sem > 0
    case Retire(i) => Producing(s, i, Freed)
    case Receive => (s.disp.Ranging? || s.disp.Draining?) && (s.submitted != [] || s.closed)
    case Take => (s.disp.Awaiting? || s.disp.DrainAwaiting?) && Reported(s, s.disp.slot)
    case EndCallback(_) => s.disp.Calling?
    case CallWait => s.waitCalls > 0
    case JoinSubmitters => s.wait.Flipped? && s.submitWg == 0
    case CloseSubmitted => s.wait.Joined?
    case JoinDispatcher => s.wait.Closing? && s.disp.Exited?
    case CancelContext => s.wait.Stopped?
    case Raise => s.wait.Raising?
    case JoinProducers => s.wait.Ending? && s.producerWg == 0
  }

  /** Moves GoCtx call k to pc. */
  function Goto(s: State, k: nat, pc: SubPc): seq<Submitter>
    requires k < |s.subs|
  {
    s.subs[k := s.subs[k].(pc := pc)]
  }

  /** Moves producer i to pc. */
  function ProducerTo(s: State, i: nat, pc: ProdPc): seq<Slot>
    requires i < |s.slots|
  {
    s.slots[i := s.slots[i].(prod := pc)]
  }

  /** A compare-and-swap from nil: the first value stays. */
  function FirstOf(cell: Option<Panic>, p: Panic): Option<Panic> {
    if cell.None? then Some(p) else cell
  }

  /** What the effective Wait call raises: a producer panic before a callback panic. */
  function Raised(producer: Option<Panic>, callback: Option<Panic>): Option<Panic> {
    if producer.Some? then producer else callback
  }

  // ---- the steps of one GoCtx call (stream.go:159-201)

  /** The admission section: refused once Wait has been called, else counted in submitWg. */
  function AdmitStep(s: State, k: nat): State
    requires k < |s.subs|
  {
    if s.waited then s.(subs := Goto(s, k, Refused))
    else s.(submitWg := s.submitWg + 1, subs := Goto(s, k, Admitted))
  }

  function CancelCallerStep(s: State, k: nat): State
    requires k < |s.subs|
  {
    s.(subs := s.subs[k := s.subs[k].(ctxDone := true)])
  }

  /** once.Do(start): the first call makes submitted and the dispatcher. */
  function StartStep(s: State, k: nat): State
    requires k < |s.subs|
  {
    s.(launched := true, disp := if s.launched then s.disp else Ranging, subs := Goto(s, k, Selecting))
  }

  function AcquireStep(s: State, k: nat): State
    requires k < |s.subs|
  {
    s.(sem := s.sem + 1, subs := Goto(s, k, Holding))
  }

  function BailStep(s: State, k: nat): State
    requires k < |s.subs|
  {
    s.(subs := Goto(s, k, Leaving(None)))
  }

  function SendStep(s: State, k: nat): State
    requires k < |s.subs|
  {
    if s.closed then s.(fault := true)
    else s.(submitted := s.submitted + [|s.slots|],
            slots := s.slots + [Slot(k, Unborn, None)],
            subs := Goto(s, k, Sent(|s.slots|)))
  }

  function SpawnStep(s: State, k: nat): State
    requires k < |s.subs| && s.subs[k].pc.Sent? && s.subs[k].pc.slot < |s.slots|
  {
    s.(producerWg := s.producerWg + 1,
       slots := ProducerTo(s, s.subs[k].pc.slot, Running),
       subs := Goto(s, k, Leaving(Some(s.subs[k].pc.slot))))
  }

  function LeaveStep(s: State, k: nat): State
    requires k < |s.subs| && s.subs[k].pc.Leaving?
  {
    if s.submitWg == 0 then s.(fault := true)
    else s.(submitWg := s.submitWg - 1, subs := Goto(s, k, Returned(s.subs[k].pc.sent)))
  }

  // ---- the steps of one producer (stream.go:186-199)

  function ProduceStep(s: State, i: nat, cop: Cop): State
    requires i < |s.slots|
  {
    s.(slots := s.slots[i := s.slots[i].(prod := Written, cop := Some(cop))])
  }

  function FreeTokenStep(s: State, i: nat): State
    requires i < |s.slots| && s.sem > 0
  {
    s.(sem := s.sem - 1, slots := ProducerTo(s, i, Freed))
  }

  function RetireStep(s: State, i: nat): State
    requires i < |s.slots|
  {
    if s.producerWg == 0 then s.(fault := true)
    else s.(producerWg := s.producerWg - 1, slots := ProducerTo(s, i, Gone))
  }

  // ---- the steps of the dispatcher (stream.go:115-146)

  function ReceiveStep(s: State): State {
    if s.submitted != [] then
      s.(submitted := s.submitted[1..], received := s.received + 1,
         disp := if s.disp.Ranging? then Awaiting(s.submitted[0]) else DrainAwaiting(s.submitted[0]))
    else s.(disp := if s.disp.Ranging? then Draining else Exited)
  }

  /** The first loop reads slot i: a panic stops the loop, a callback is called. */
  function TakeStep(s: State, i: nat): State
    requires Reported(s, i)
  {
    match s.slots[i].cop.value
    case ProducerPanic(p) => s.(producerPanic := FirstOf(s.producerPanic, p), disp := Draining)
    case Callback => s.(trace := s.trace + [i], disp := Calling(i))
    case NilCallback => s.(disp := Ranging)
  }

  /** The drain reads slot i: only a producer panic is kept. */
  function DrainTakeStep(s: State, i: nat): State
    requires Reported(s, i)
  {
    match s.slots[i].cop.value
    case ProducerPanic(p) => s.(producerPanic := FirstOf(s.producerPanic, p), disp := Draining)
    case _ => s.(disp := Draining)
  }

  function EndCallbackStep(s: State, i: nat, end: CbEnd): State {
    match end
    case CbReturned => s.(ends := s.ends[i := end], disp := Ranging)
    case CbPanicked(q) =>
      s.(ends := s.ends[i := end], dispatchPanic := FirstOf(s.dispatchPanic, q), disp := Draining)
  }

  // ---- the steps of Wait (stream.go:229-257)

  function CallWaitStep(s: State): State
    requires s.waitCalls > 0
  {
    s.(waitCalls := s.waitCalls - 1, waited := true, wait := if s.waited then s.wait else Flipped)
  }

  function CloseSubmittedStep(s: State): State {
    if !s.launched then s.(cancelled := true, wait := Ending(None))
    else if s.closed then s.(fault := true)
    else s.(closed := true, wait := Closing)
  }

  function Apply(s: State, a: Action): State
    requires Enabled(s, a)
  {
    match a
    case Admit(k) => AdmitStep(s, k)
    case CancelCaller(k) => CancelCallerStep(s, k)
    case Start(k) => StartStep(s, k)
    case Acquire(k) => AcquireStep(s, k)
    case Bail(k) => BailStep(s, k)
    case Send(k) => SendStep(s, k)
    case Spawn(k) => SpawnStep(s, k)
    case Leave(k) => LeaveStep(s, k)
    case Produce(i, cop) => ProduceStep(s, i, cop)
    case FreeToken(i) => FreeTokenStep(s, i)
    case Retire(i) => RetireStep(s, i)
    case Receive => ReceiveStep(s)
    case Take => if s.disp.Awaiting? then TakeStep(s, s.disp.slot) else DrainTakeStep(s, s.disp.slot)
    case EndCallback(end) => EndCallbackStep(s, s.disp.slot, end)
    case CallWait => CallWaitStep(s)
    case JoinSubmitters => s.(wait := Joined)
    case CloseSubmitted => CloseSubmittedStep(s)
    case JoinDispatcher => s.(wait := Stopped)
    case CancelContext => s.(cancelled := true, wait := Raising)
    case Raise => s.(wait := Ending(Raised(s.producerPanic, s.dispatchPanic)))
    case JoinProducers => s.(wait := Finished(s.wait.raised))
  }

  /** A schedule is an arbitrary interleaving: any sequence of actions, each enabled in its turn. */
  ghost predicate Feasible(s: State, schedule: seq<Action>)
    decreases |schedule|
  {
    schedule == [] || (Enabled(s, schedule[0]) && Feasible(Apply(s, schedule[0]), schedule[1..]))
  }

  ghost function Exec(s: State, schedule: seq<Action>): State
    requires Feasible(s, schedule)
    decreases |schedule|
  {
    if schedule == [] then s else Exec(Apply(s, schedule[0]), schedule[1..])
  }

  /** A run can be continued by any action that is enabled where it stands. */
  lemma {:induction false} ExecOneMore(s: State, schedule: seq<Action>, a: Action)
    requires Feasible(s, schedule) && Enabled(Exec(s, schedule), a)
    ensures Feasible(s, schedule + [a]) && Exec(s, schedule + [a]) == Apply(Exec(s, schedule), a)
    decreases |schedule|
  {
    if schedule == [] {
      assert (schedule + [a])[1..] == [];
    } else {
      assert (schedule + [a])[1..] == schedule[1..] + [a];
      ExecOneMore(Apply(s, schedule[0]), schedule[1..], a);
    }
  }

  /** A run of one action. */
  lemma OneStep(s: State, a: Action)
    requires Enabled(s, a)
    ensures Feasible(s, [a]) && Exec(s, [a]) == Apply(s, a)
  {
    ExecOneMore(s, [], a);
    assert [] + [a] == [a];
  }

  /** An action and then a run. */
  lemma Prepend(s: State, a: Action, rest: seq<Action>) returns (schedule: seq<Action>)
    requires Enabled(s, a) && Feasible(Apply(s, a), rest)
    ensures schedule == [a] + rest && Feasible(s, schedule) && Exec(s, schedule) == Exec(Apply(s, a), rest)
  {
    schedule := [a] + rest;
    assert schedule[1..] == rest;
  }

  /** A run and then another. */
  lemma {:induction false} ExecBoth(s: State, a: seq<Action>, b: seq<Action>)
    requires Feasible(s, a) && Feasible(Exec(s, a), b)
    ensures Feasible(s, a + b) && Exec(s, a + b) == Exec(Exec(s, a), b)
    decreases |a|
  {
    if a == [] {
      assert a + b == b;
    } else {
      assert (a + b)[0] == a[0] && (a + b)[1..] == a[1..] + b;
      ExecBoth(Apply(s, a[0]), a[1..], b);
    }
  }
}
