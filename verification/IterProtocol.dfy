/**
 * The concurrent iteration of package iter as one transition system: a dispatcher that
 * takes elements and spawns a call for each, the calls, and the consumer.  A mode selects
 * which of the four functions is meant:
 *
 *                    ordered          not ordered
 *   not collecting   mapSeq           forEachSeq
 *   collecting       MapSeqErr        ForEachSeqErr
 *
 * One action is one select, channel operation, atomic load, lock section, wait-group
 * operation or context operation; user code chooses its outcome when it ends.
 */
module IterProtocol {
  import opened Options
  import opened Sorting

  /** A result; ZERO stands for the zero value of the result type. */
  type Val = int
  const ZERO: Val := 0

  /** The identity of an error or of a recovered panic. */
  type Failure = int

  /** An error with the index of its element. */
  type ElemError = Keyed<Failure>

  /**
   * cancels: a failed call cancels the context that dispatch watches.  For the functions that
   * do not collect, that is when fn takes a context; for the others it is WithCancelOnError.
   */
  datatype Mode = Mode(ordered: bool, collect: bool, cancels: bool)

  datatype Outcome = Ok(val: Val) | Fail(failure: Failure)

  /** Returned: fn has ended.  Logged: it must cancel.  Noted: ready to release.  Gone: its done is closed. */
  datatype CallPc = Running | Returned | Logged | Noted | Freed | Gone

  datatype Call = Call(pc: CallPc, out: Option<Outcome>)

  /** Poll: the select of stopped(); Load: its read of the panic cell. */
  datatype DispPc =
    | Top | Poll1 | Load1 | Acquiring | Poll2 | Load2 | Pushing | Spawning | GivingUp | Closing | Left

  /** Joining: forEach's wg.Wait.  Every other pc but Ending and End belongs to the ordered functions. */
  datatype ConsPc =
    | Recv | Await(slot: nat) | Checking(slot: nat) | CloseDone | Yielding(slot: nat)
    | BreakClose | BreakCancel | Joining | Ending | End(raised: Option<Failure>)

  /**
   * cell is the shared panic catcher, with the index of the call that set it.  outside records
   * that the governing context was cancelled from outside.  out is what has been yielded
   * (mapSeq) or appended (MapSeqErr).  received counts the slots taken out of ordered.
   */
  datatype State = State(
    mode: Mode, n: nat, len: nat, cancelled: bool, outside: bool,
    sem: nat, wg: nat, queue: seq<nat>, received: nat, closed: bool, done: bool,
    cell: Option<ElemError>, errs: seq<ElemError>, calls: seq<Call>,
    disp: DispPc, cons: ConsPc, panicked: bool, broke: bool, out: seq<Val>, fault: bool)

  datatype Action =
    | Next | Poll | Load | TakeToken | StopWaiting | PushSlot | StopPushing | SpawnCall | GiveUp | CloseOrdered
    | Finish(i: nat, outcome: Outcome) | Notice(i: nat) | CancelRun(i: nat) | Release(i: nat) | Exit(i: nat)
    | Receive | AwaitSlot | CheckPanic | SignalDone | EndYield(more: bool) | SignalBreak | CancelBreak
    | Join | Conclude
    | CancelOutside

  predicate Init(s: State) {
    && s.n >= 1 && (s.cancelled <==> s.outside)
    && s.sem == 0 && s.wg == 0 && s.queue == [] && s.received == 0 && !s.closed && !s.done && !s.fault
    && s.cell == None && s.errs == [] && s.calls == [] && s.out == []
    && s.disp == Top && s.cons == (if s.mode.ordered then Recv else Joining)
    && !s.panicked && !s.broke
  }

  predicate CallAt(s: State, i: nat, pc: CallPc) {
    i < |s.calls| && s.calls[i].pc == pc
  }

  predicate Failed(c: Call) {
    c.out.Some? && c.out.value.Fail?
  }

  function ValueOf(c: Call): Val {
    if c.out.Some? && c.out.value.Ok? then c.out.value.val else ZERO
  }

  /** What the select in stopped() sees; done exists only in mapSeq and is never closed elsewhere. */
  predicate StopSignal(s: State) {
    s.done || s.cancelled
  }

  predicate Enabled(s: State, a: Action) {
    match a
    case Next => s.disp.Top?
    case Poll => s.disp.Poll1? || s.disp.Poll2?
    case Load => s.disp.Load1? || s.disp.Load2?
    case TakeToken => s.disp.Acquiring? && s.sem < s.n
    case StopWaiting => s.disp.Acquiring? && StopSignal(s)
    case PushSlot => s.disp.Pushing? && |s.queue| < s.n
    case StopPushing => s.disp.Pushing? && if s.mode.collect then s.cancelled else s.done
    case SpawnCall => s.disp.Spawning?
    case GiveUp => s.disp.GivingUp? && s.sem > 0
    case CloseOrdered => s.disp.Closing?
    case Finish(i, _) => CallAt(s, i, Running)
    case Notice(i) => CallAt(s, i, Returned)
    case CancelRun(i) => CallAt(s, i, Logged)
    case Release(i) => CallAt(s, i, Noted) && s.sem > 0
    case Exit(i) => CallAt(s, i, Freed)
    case Receive => s.cons.Recv? && (s.queue != [] || s.closed)
    case AwaitSlot => s.cons.Await? && CallAt(s, s.cons.slot, Gone)
    case CheckPanic => s.cons.Checking? && s.cons.slot < |s.calls|
    case SignalDone => s.cons.CloseDone?
    case EndYield(_) => s.cons.Yielding?
    case SignalBreak => s.cons.BreakClose?
    case CancelBreak => s.cons.BreakCancel?
    case Join => s.cons.Joining? && s.disp.Left? && s.wg == 0
    case Conclude => s.cons.Ending?
    case CancelOutside => !s.outside
  }

  // ---- the dispatcher

  function NextStep(s: State): State {
    s.(disp := if |s.calls| == s.len then Closing else Poll1)
  }

  /** Where the dispatcher goes once it holds a token and has seen no stop signal. */
  function Cleared(m: Mode): DispPc {
    if m.ordered then Pushing else Spawning
  }

  function PollStep(s: State): State {
    if s.disp.Poll1? then
      s.(disp := if StopSignal(s) then Closing else if s.mode.collect then Acquiring else Load1)
    else
      s.(disp := if StopSignal(s) then GivingUp else if s.mode.collect then Cleared(s.mode) else Load2)
  }

  function LoadStep(s: State): State {
    if s.disp.Load1? then s.(disp := if s.cell.Some? then Closing else Acquiring)
    else s.(disp := if s.cell.Some? then GivingUp else Cleared(s.mode))
  }

  function TakeTokenStep(s: State): State {
    s.(sem := s.sem + 1, disp := Poll2)
  }

  function PushSlotStep(s: State): State {
    s.(queue := s.queue + [|s.calls|], disp := Spawning)
  }

  function SpawnCallStep(s: State): State {
    s.(calls := s.calls + [Call(Running, None)], wg := if s.mode.ordered then s.wg else s.wg + 1, disp := Top)
  }

  function GiveUpStep(s: State): State
    requires s.sem > 0
  {
    s.(sem := s.sem - 1, disp := Closing)
  }

  /** The deferred close of ordered; forEach has no such channel. */
  function CloseOrderedStep(s: State): State {
    if s.mode.ordered && s.closed then s.(fault := true)
    else s.(closed := s.mode.ordered, disp := Left)
  }

  // ---- one call

  function CallTo(s: State, i: nat, pc: CallPc): seq<Call>
    requires i < |s.calls|
  {
    s.calls[i := s.calls[i].(pc := pc)]
  }

  /** fn ends; unless errors are collected, a panic goes to the shared cell, where the first stays. */
  function FinishStep(s: State, i: nat, outcome: Outcome): State
    requires i < |s.calls|
  {
    s.(calls := s.calls[i := Call(Returned, Some(outcome))],
       cell := if !s.mode.collect && outcome.Fail? && s.cell.None? then Some(Keyed(i, outcome.failure)) else s.cell)
  }

  /** Collecting: an error is appended under mu, and must cancel if the mode says so. */
  function RecordStep(s: State, i: nat): State
    requires i < |s.calls|
  {
    s.(errs := s.errs + (if Failed(s.calls[i]) then [Keyed(i, s.calls[i].out.value.failure)] else []),
       calls := CallTo(s, i, if Failed(s.calls[i]) && s.mode.cancels then Logged else Noted))
  }

  /** Not collecting: the cell is read, and a panic in it must cancel if fn takes a context. */
  function ReadCellStep(s: State, i: nat): State
    requires i < |s.calls|
  {
    s.(calls := CallTo(s, i, if s.cell.Some? && s.mode.cancels then Logged else Noted))
  }

  function CancelRunStep(s: State, i: nat): State
    requires i < |s.calls|
  {
    s.(cancelled := true, calls := CallTo(s, i, Noted))
  }

  function ReleaseStep(s: State, i: nat): State
    requires i < |s.calls| && s.sem > 0
  {
    s.(sem := s.sem - 1, calls := CallTo(s, i, Freed))
  }

  /** close(s.done), in the ordered functions. */
  function CloseSlotStep(s: State, i: nat): State
    requires i < |s.calls|
  {
    s.(calls := CallTo(s, i, Gone))
  }

  /** wg.Done, in the others. */
  function WgDoneStep(s: State, i: nat): State
    requires i < |s.calls|
  {
    if s.wg == 0 then s.(fault := true) else s.(wg := s.wg - 1, calls := CallTo(s, i, Gone))
  }

  // ---- the consumer

  function ReceiveStep(s: State): State {
    if s.queue != [] then s.(queue := s.queue[1..], received := s.received + 1, cons := Await(s.queue[0]))
    else s.(cons := Ending)
  }

  /** A slot is done: appended when collecting, dropped after a panic or a break, else examined. */
  function AwaitSlotStep(s: State, i: nat): State
    requires i < |s.calls|
  {
    if s.mode.collect then s.(out := s.out + [ValueOf(s.calls[i])], cons := Recv)
    else s.(cons := if s.panicked || s.broke then Recv else Checking(i))
  }

  /** The panic cell decides whether the slot's value is yielded. */
  function CheckPanicStep(s: State, i: nat): State
    requires i < |s.calls|
  {
    if s.cell.Some? then s.(panicked := true, cons := CloseDone)
    else s.(out := s.out + [ValueOf(s.calls[i])], cons := Yielding(i))
  }

  function SignalDoneStep(s: State): State {
    if s.done then s.(fault := true) else s.(done := true, cons := Recv)
  }

  function EndYieldStep(s: State, more: bool): State {
    if more then s.(cons := Recv) else s.(broke := true, cons := BreakClose)
  }

  function SignalBreakStep(s: State): State {
    if s.done then s.(fault := true) else s.(done := true, cons := BreakCancel)
  }

  /** r.cancel() is a no-op when fn takes no context. */
  function CancelBreakStep(s: State): State {
    s.(cancelled := s.cancelled || s.mode.cancels, cons := Recv)
  }

  /** Sorts the collected errors or re-panics, and runs the deferred cancel. */
  function ConcludeStep(s: State): State {
    s.(errs := Sort(s.errs), cancelled := s.cancelled || s.mode.collect || s.mode.cancels,
       cons := End(if s.cell.Some? then Some(s.cell.value.val) else None))
  }

  function Apply(s: State, a: Action): State
    requires Enabled(s, a)
  {
    match a
    case Next => NextStep(s)
    case Poll => PollStep(s)
    case Load => LoadStep(s)
    case TakeToken => TakeTokenStep(s)
    case StopWaiting => s.(disp := Closing)
    case PushSlot => PushSlotStep(s)
    case StopPushing => s.(disp := GivingUp)
    case SpawnCall => SpawnCallStep(s)
    case GiveUp => GiveUpStep(s)
    case CloseOrdered => CloseOrderedStep(s)
    case Finish(i, outcome) => FinishStep(s, i, outcome)
    case Notice(i) => if s.mode.collect then RecordStep(s, i) else ReadCellStep(s, i)
    case CancelRun(i) => CancelRunStep(s, i)
    case Release(i) => ReleaseStep(s, i)
    case Exit(i) => if s.mode.ordered then CloseSlotStep(s, i) else WgDoneStep(s, i)
    case Receive => ReceiveStep(s)
    case AwaitSlot => AwaitSlotStep(s, s.cons.slot)
    case CheckPanic => CheckPanicStep(s, s.cons.slot)
    case SignalDone => SignalDoneStep(s)
    case EndYield(more) => EndYieldStep(s, more)
    case SignalBreak => SignalBreakStep(s)
    case CancelBreak => CancelBreakStep(s)
    case Join => s.(cons := Ending)
    case Conclude => ConcludeStep(s)
    case CancelOutside => s.(cancelled := true, outside := true)
  }

  /** A schedule is an arbitrary interleaving: any sequence of actions, each enabled in its turn. */
  ghost predicate Feasible(s: State, schedule: seq<Action>)
    decreases |schedule|
  {
    schedule == [] || (Enabled(s, schedule[0]) && Feasible(Apply(s, schedule[0]), schedule[1..]))
  }

  ghost function Exec(s: State, schedule: seq<Action>): State
    requires Feasible(s, schedule)
    decreases |schedule|
  {
    if schedule == [] then s else Exec(Apply(s, schedule[0]), schedule[1..])
  }

  /** A run can be continued by any action that is enabled where it stands. */
  lemma {:induction false} ExecOneMore(s: State, schedule: seq<Action>, a: Action)
    requires Feasible(s, schedule) && Enabled(Exec(s, schedule), a)
    ensures Feasible(s, schedule + [a]) && Exec(s, schedule + [a]) == Apply(Exec(s, schedule), a)
    decreases |schedule|
  {
    if schedule == [] {
      assert (schedule + [a])[1..] == [];
    } else {
      assert (schedule + [a])[1..] == schedule[1..] + [a];
      ExecOneMore(Apply(s, schedule[0]), schedule[1..], a);
    }
  }

  /** A run of one action. */
  lemma OneStep(s: State, a: Action)
    requires Enabled(s, a)
    ensures Feasible(s, [a]) && Exec(s, [a]) == Apply(s, a)
  {
    ExecOneMore(s, [], a);
    assert [] + [a] == [a];
  }

  /** An action and then a run. */
  lemma Prepend(s: State, a: Action, rest: seq<Action>) returns (schedule: seq<Action>)
    requires Enabled(s, a) && Feasible(Apply(s, a), rest)
    ensures schedule == [a] + rest && Feasible(s, schedule) && Exec(s, schedule) == Exec(Apply(s, a), rest)
  {
    schedule := [a] + rest;
    assert schedule[1..] == rest;
  }

  /** A run and then another. */
  lemma {:induction false} ExecBoth(s: State, a: seq<Action>, b: seq<Action>)
    requires Feasible(s, a) && Feasible(Exec(s, a), b)
    ensures Feasible(s, a + b) && Exec(s, a + b) == Exec(Exec(s, a), b)
    decreases |a|
  {
    if a == [] {
      assert a + b == b;
    } else {
      assert (a + b)[0] == a[0] && (a + b)[1..] == a[1..] + b;
      ExecBoth(Apply(s, a[0]), a[1..], b);
    }
  }
}
