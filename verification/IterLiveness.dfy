/** Every iteration ends, for every limit, and for every placement of breaks, failures and cancellations. */
module IterLiveness {
  import opened Counting
  import opened Options
  import opened IterProtocol
  import opened IterInvariant
  import opened IterTheorems

  // ---- progress

  /** No goroutine can move; the governing context may still be cancelled from outside. */
  ghost predicate Stuck(s: State) {
    forall a :: Enabled(s, a) ==> a.CancelOutside?
  }

  /** A receive from sem never blocks: whoever gives a token back finds one there. */
  lemma ReleaseNeverBlocks(s: State, i: nat)
    requires Inv(s)
    ensures CallAt(s, i, Noted) ==> Enabled(s, Release(i))
    ensures s.disp.GivingUp? ==> Enabled(s, GiveUp)
  {
    if i < |s.calls| {
      SumAtLeast(CallToken, s.calls, i);
    }
  }

  lemma StuckCalls(s: State, i: nat)
    requires Inv(s) && Stuck(s) && i < |s.calls|
    ensures s.calls[i].pc.Gone?
  {
    ReleaseNeverBlocks(s, i);
    assert !Enabled(s, Finish(i, Ok(ZERO))) && !Enabled(s, Notice(i)) && !Enabled(s, CancelRun(i));
    assert !Enabled(s, Release(i)) && !Enabled(s, Exit(i));
  }

  /** With every call gone, a dispatcher that waits for a token has one to take. */
  lemma StuckNotAcquiring(s: State)
    requires Inv(s) && Stuck(s)
    ensures !s.disp.Acquiring?
  {
    forall i | 0 <= i < |s.calls| ensures CallToken(s.calls[i]) == 0 {
      StuckCalls(s, i);
    }
    SumZero(CallToken, s.calls);
    assert !Enabled(s, TakeToken);
  }

  lemma StuckDispatcher(s: State)
    requires Inv(s) && Stuck(s)
    ensures s.disp.Left? || (s.disp.Pushing? && |s.queue| == s.n)
  {
    StuckNotAcquiring(s);
    ReleaseNeverBlocks(s, 0);
    assert !Enabled(s, Next) && !Enabled(s, Poll) && !Enabled(s, Load) && !Enabled(s, PushSlot);
    assert !Enabled(s, SpawnCall) && !Enabled(s, GiveUp) && !Enabled(s, CloseOrdered);
  }

  /** The consumer's <-s.done is always answered. */
  lemma StuckNotAwaiting(s: State)
    requires Inv(s) && Stuck(s)
    ensures !s.cons.Await? && !s.cons.Recv? && !s.cons.Joining?
  {
    StuckDispatcher(s);
    assert !Enabled(s, AwaitSlot) && !Enabled(s, Receive) && !Enabled(s, Join);
    if s.cons.Await? {
      StuckCalls(s, s.cons.slot);
    }
    if s.cons.Joining? {
      forall i | 0 <= i < |s.calls| ensures LiveCall(s.calls[i]) == 0 {
        StuckCalls(s, i);
      }
      SumZero(LiveCall, s.calls);
    }
  }

  lemma StuckEnds(s: State)
    requires Inv(s) && Stuck(s)
    ensures s.cons.End?
  {
    StuckNotAwaiting(s);
    assert !Enabled(s, CheckPanic) && !Enabled(s, SignalDone) && !Enabled(s, EndYield(true));
    assert !Enabled(s, SignalBreak) && !Enabled(s, CancelBreak) && !Enabled(s, Conclude);
  }

  /** Deadlock freedom: a reachable state is stuck if and only if the range, or the call, has ended. */
  lemma StuckMeansEnded(s: State)
    requires Inv(s)
    ensures Stuck(s) <==> s.cons.End?
  {
    if s.cons.End? {
      forall a | Enabled(s, a) ensures a.CancelOutside? {
        if CallStep(a) {
          NotEnded(s, a.i);
        }
      }
    } else if Stuck(s) {
      StuckEnds(s);
    }
  }

  // ---- termination

  function CallWork(c: Call): nat {
    match c.pc
    case Running => 5
    case Returned => 4
    case Logged => 3
    case Noted => 2
    case Freed => 1
    case Gone => 0
  }

  function DispatcherWork(d: DispPc): nat {
    match d
    case Top => 20
    case Poll1 => 19
    case Load1 => 18
    case Acquiring => 17
    case Poll2 => 16
    case Load2 => 15
    case Pushing => 14
    case Spawning => 7
    case GivingUp => 3
    case Closing => 2
    case Left => 0
  }

  function ConsumerWork(c: ConsPc): nat {
    match c
    case Recv => 10
    case Await(_) => 15
    case Checking(_) => 14
    case Yielding(_) => 13
    case BreakClose => 12
    case BreakCancel => 11
    case CloseDone => 11
    case Joining => 2
    case Ending => 1
    case End(_) => 0
  }

  /** A bound on the steps still to come. */
  function Work(s: State): nat {
    20 * (if |s.calls| <= s.len then s.len - |s.calls| else 0)
    + DispatcherWork(s.disp) + Sum(CallWork, s.calls) + 6 * |s.queue| + ConsumerWork(s.cons)
    + if s.outside then 0 else 1
  }

  lemma SpawnCallWorks(s: State)
    requires s.disp.Spawning? && |s.calls| < s.len
    ensures Work(SpawnCallStep(s)) < Work(s)
  {
    SumAppend(CallWork, s.calls, Call(Running, None));
  }

  lemma PushSlotWorks(s: State)
    requires s.disp.Pushing?
    ensures Work(PushSlotStep(s)) < Work(s)
  {
  }

  lemma DispatcherMoveWorks(s: State, t: State)
    requires t.len == s.len && t.calls == s.calls && t.queue == s.queue && t.cons == s.cons && t.outside == s.outside
    requires DispatcherWork(t.disp) < DispatcherWork(s.disp)
    ensures Work(t) < Work(s)
  {
  }

  lemma ConsumerMoveWorks(s: State, t: State)
    requires t.len == s.len && t.calls == s.calls && t.disp == s.disp && t.outside == s.outside
    requires 6 * |t.queue| + ConsumerWork(t.cons) < 6 * |s.queue| + ConsumerWork(s.cons)
    ensures Work(t) < Work(s)
  {
  }

  lemma PollMoves(s: State)
    requires s.disp.Poll1? || s.disp.Poll2?
    ensures DispatcherWork(PollStep(s).disp) < DispatcherWork(s.disp)
  {
  }

  lemma LoadMoves(s: State)
    requires s.disp.Load1? || s.disp.Load2?
    ensures DispatcherWork(LoadStep(s).disp) < DispatcherWork(s.disp)
  {
  }

  lemma PollWorks(s: State)
    requires s.disp.Poll1? || s.disp.Poll2?
    ensures Work(PollStep(s)) < Work(s)
  {
    PollMoves(s);
    DispatcherMoveWorks(s, PollStep(s));
  }

  lemma LoadWorks(s: State)
    requires s.disp.Load1? || s.disp.Load2?
    ensures Work(LoadStep(s)) < Work(s)
  {
    LoadMoves(s);
    DispatcherMoveWorks(s, LoadStep(s));
  }

  /** Either branch of the select on sem. */
  lemma AcquiringWorks(s: State, t: State)
    requires s.disp.Acquiring? && (t == TakeTokenStep(s) || t == s.(disp := Closing))
    ensures Work(t) < Work(s)
  {
    DispatcherMoveWorks(s, t);
  }

  lemma NextWorks(s: State)
    requires s.disp.Top?
    ensures Work(NextStep(s)) < Work(s)
  {
    DispatcherMoveWorks(s, NextStep(s));
  }

  lemma AdmissionStepWorks(s: State, a: Action)
    requires Enabled(s, a) && (a.Next? || a.Poll? || a.Load? || a.TakeToken? || a.StopWaiting?)
    ensures Work(Apply(s, a)) < Work(s)
  {
    match a
    case Next => NextWorks(s);
    case Poll => PollWorks(s);
    case Load => LoadWorks(s);
    case TakeToken => AcquiringWorks(s, TakeTokenStep(s));
    case StopWaiting => AcquiringWorks(s, s.(disp := Closing));
  }

  lemma DispatchStepWorks(s: State, a: Action)
    requires Counts(s) && ChannelOk(s) && Enabled(s, a)
    requires a.PushSlot? || a.StopPushing? || a.SpawnCall? || a.GiveUp? || a.CloseOrdered?
    ensures Work(Apply(s, a)) < Work(s)
  {
    match a
    case PushSlot => PushSlotWorks(s);
    case StopPushing => DispatcherMoveWorks(s, s.(disp := GivingUp));
    case SpawnCall => SpawnCallWorks(s);
    case GiveUp => DispatcherMoveWorks(s, GiveUpStep(s));
    case CloseOrdered => DispatcherMoveWorks(s, CloseOrderedStep(s));
  }

  lemma CallMoveWorks(s: State, t: State, i: nat)
    requires i < |s.calls| == |t.calls| && t.calls == s.calls[i := t.calls[i]]
    requires CallWork(t.calls[i]) < CallWork(s.calls[i])
    requires t.len == s.len && t.disp == s.disp && t.queue == s.queue && t.cons == s.cons && t.outside == s.outside
    ensures Work(t) < Work(s)
  {
    SumUpdate(CallWork, s.calls, i, t.calls[i]);
  }

  lemma ExitWorks(s: State, i: nat)
    requires Counts(s) && Enabled(s, Exit(i))
    ensures Work(Apply(s, Exit(i))) < Work(s)
  {
    SumAtLeast(LiveCall, s.calls, i);
    if s.mode.ordered {
      CallMoveWorks(s, CloseSlotStep(s, i), i);
    } else {
      CallMoveWorks(s, WgDoneStep(s, i), i);
    }
  }

  lemma CallStepWorks(s: State, a: Action)
    requires Counts(s) && Enabled(s, a) && CallStep(a)
    ensures Work(Apply(s, a)) < Work(s)
  {
    match a
    case Finish(i, outcome) => CallMoveWorks(s, FinishStep(s, i, outcome), i);
    case Notice(i) =>
      CallMoveWorks(s, RecordStep(s, i), i);
      CallMoveWorks(s, ReadCellStep(s, i), i);
    case CancelRun(i) => CallMoveWorks(s, CancelRunStep(s, i), i);
    case Release(i) => CallMoveWorks(s, ReleaseStep(s, i), i);
    case Exit(i) => ExitWorks(s, i);
  }

  lemma ConsumerStepWorks(s: State, a: Action)
    requires ConsOk(s) && Enabled(s, a) && !DispatcherStep(a) && !CallStep(a)
    ensures Work(Apply(s, a)) < Work(s)
  {
    match a
    case Receive => ConsumerMoveWorks(s, ReceiveStep(s));
    case AwaitSlot => ConsumerMoveWorks(s, AwaitSlotStep(s, s.cons.slot));
    case CheckPanic => ConsumerMoveWorks(s, CheckPanicStep(s, s.cons.slot));
    case SignalDone => ConsumerMoveWorks(s, SignalDoneStep(s));
    case SignalBreak => ConsumerMoveWorks(s, SignalBreakStep(s));
    case EndYield(more) => ConsumerMoveWorks(s, EndYieldStep(s, more));
    case Conclude => ConsumerMoveWorks(s, ConcludeStep(s));
    case _ =>
  }

  /** Every step, an outside cancellation included, uses up work. */
  lemma StepWorks(s: State, a: Action)
    requires Inv(s) && Enabled(s, a)
    ensures Work(Apply(s, a)) < Work(s)
  {
    if a.Next? || a.Poll? || a.Load? || a.TakeToken? || a.StopWaiting? {
      AdmissionStepWorks(s, a);
    } else if DispatcherStep(a) {
      DispatchStepWorks(s, a);
    } else if CallStep(a) {
      CallStepWorks(s, a);
    } else {
      ConsumerStepWorks(s, a);
    }
  }

  lemma {:induction false} RunsEnd(s: State, schedule: seq<Action>)
    requires Inv(s) && Feasible(s, schedule)
    ensures |schedule| + Work(Exec(s, schedule)) <= Work(s)
    decreases |schedule|
  {
    if schedule == [] {
    } else {
      StepWorks(s, schedule[0]);
      StepKeeps(s, schedule[0]);
      RunsEnd(Apply(s, schedule[0]), schedule[1..]);
    }
  }

  /**
   * Termination and deadlock freedom of all four functions: every run is finite, and a run that
   * cannot be continued has ended, whatever breaks, panics, errors and cancellations it met.
   */
  lemma EveryRunEnds(s0: State, schedule: seq<Action>)
    requires Init(s0) && Feasible(s0, schedule)
    ensures |schedule| <= Work(s0)
    ensures Stuck(Exec(s0, schedule)) ==> exists raised :: Ended(Exec(s0, schedule), raised)
  {
    InitEstablishes(s0);
    RunsEnd(s0, schedule);
    RunKeeps(s0, schedule);
    var s := Exec(s0, schedule);
    StuckMeansEnded(s);
    if Stuck(s) {
      assert Ended(s, s.cons.raised);
    }
  }

  // ---- the start after a stop signal

  /** A call that is not gone can move. */
  lemma CallCanMove(s: State, i: nat) returns (a: Action)
    requires Inv(s) && i < |s.calls| && !s.calls[i].pc.Gone?
    ensures Enabled(s, a) && CallStep(a)
  {
    ReleaseNeverBlocks(s, i);
    match s.calls[i].pc
    case Running => a := Finish(i, Ok(ZERO));
    case Returned => a := Notice(i);
    case Logged => a := CancelRun(i);
    case Noted => a := Release(i);
    case Freed => a := Exit(i);
  }

  /** While the dispatcher waits at a full ordered, the consumer or a call can move. */
  lemma DrainCanMove(s: State) returns (a: Action)
    requires Inv(s) && s.disp.Pushing? && |s.queue| == s.n
    ensures Enabled(s, a) && !DispatcherStep(a)
  {
    match s.cons
    case Recv => a := Receive;
    case Await(i) =>
      if s.calls[i].pc.Gone? {
        a := AwaitSlot;
      } else {
        a := CallCanMove(s, i);
      }
    case Checking(_) => a := CheckPanic;
    case CloseDone => a := SignalDone;
    case Yielding(_) => a := EndYield(true);
    case BreakClose => a := SignalBreak;
    case BreakCancel => a := CancelBreak;
  }

  /** An element that waits to be sent into ordered can be started: the consumer makes room. */
  lemma {:induction false} PushingCanStart(s: State) returns (schedule: seq<Action>)
    requires Inv(s) && s.disp.Pushing?
    ensures Feasible(s, schedule) && |Exec(s, schedule).calls| == |s.calls| + 1
    decreases Work(s)
  {
    if |s.queue| < s.n {
      var t := PushSlotStep(s);
      OneStep(t, SpawnCall);
      schedule := Prepend(s, PushSlot, [SpawnCall]);
    } else {
      var a := DrainCanMove(s);
      OthersStartNothing(s, a);
      StepKeeps(s, a);
      StepWorks(s, a);
      var rest := PushingCanStart(Apply(s, a));
      schedule := Prepend(s, a, rest);
    }
  }

  /** Whoever has passed the last check can be started. */
  lemma {:induction false} PastChecksCanStart(s: State) returns (schedule: seq<Action>)
    requires Inv(s) && PastChecks(s)
    ensures Feasible(s, schedule) && |Exec(s, schedule).calls| == |s.calls| + 1
    decreases s.disp.Load2?
  {
    if s.disp.Pushing? {
      schedule := PushingCanStart(s);
    } else if s.disp.Spawning? {
      OneStep(s, SpawnCall);
      schedule := [SpawnCall];
    } else {
      LoadKeeps(s);
      var rest := PastChecksCanStart(LoadStep(s));
      schedule := Prepend(s, Load, rest);
    }
  }

  // ---- leaving without help

  /** The select at the send into ordered sees the signal: the context when collecting, else done alone. */
  predicate PushSeesSignal(s: State) {
    if s.mode.collect then s.cancelled else s.done
  }

  /** The dispatcher is at, or bound for, a send into a full ordered whose select overlooks the signal. */
  predicate Wedged(s: State) {
    (s.disp.Pushing? || (s.disp.Load2? && s.cell.None? && s.mode.ordered)) && |s.queue| == s.n && !PushSeesSignal(s)
  }

  lemma CheckCanMove(s: State) returns (a: Action)
    requires StopSignal(s) && !Wedged(s)
    requires s.disp.Top? || s.disp.Poll1? || s.disp.Load1? || s.disp.Poll2? || s.disp.Load2?
    ensures Enabled(s, a) && DispatcherStep(a) && StopSignal(Apply(s, a)) && !Wedged(Apply(s, a))
  {
    if s.disp.Top? {
      a := Next;
      assert !Wedged(NextStep(s));
    } else if s.disp.Poll1? || s.disp.Poll2? {
      a := Poll;
      assert !Wedged(PollStep(s));
    } else {
      a := Load;
      assert !Wedged(LoadStep(s));
    }
  }

  lemma DispatcherCanMove(s: State) returns (a: Action)
    requires Inv(s) && StopSignal(s) && !Wedged(s) && !s.disp.Left?
    ensures Enabled(s, a) && DispatcherStep(a) && StopSignal(Apply(s, a)) && !Wedged(Apply(s, a))
  {
    ReleaseNeverBlocks(s, 0);
    match s.disp
    case Acquiring => a := StopWaiting;
    case Pushing => a := if PushSeesSignal(s) then StopPushing else PushSlot;
    case Spawning => a := SpawnCall;
    case GivingUp => a := GiveUp;
    case Closing => a := CloseOrdered;
    case _ => a := CheckCanMove(s);
  }

  ghost predicate LeavesBy(s: State, schedule: seq<Action>) {
    && (forall k :: 0 <= k < |schedule| ==> DispatcherStep(schedule[k]))
    && Feasible(s, schedule) && Exec(s, schedule).disp.Left?
  }

  lemma {:induction false} CanLeave(s: State) returns (schedule: seq<Action>)
    requires Inv(s) && StopSignal(s) && !Wedged(s)
    ensures LeavesBy(s, schedule)
    decreases Work(s)
  {
    if s.disp.Left? {
      schedule := [];
    } else {
      var a := DispatcherCanMove(s);
      StepKeeps(s, a);
      StepWorks(s, a);
      var rest := CanLeave(Apply(s, a));
      schedule := Prepend(s, a, rest);
    }
  }

  lemma {:induction false} WedgedStays(s: State, schedule: seq<Action>)
    requires Wedged(s) && Feasible(s, schedule) && forall k :: 0 <= k < |schedule| ==> DispatcherStep(schedule[k])
    ensures Wedged(Exec(s, schedule))
    decreases |schedule|
  {
    if schedule == [] {
    } else {
      assert DispatcherStep(schedule[0]) && schedule[0] == Load;
      assert Wedged(LoadStep(s));
      WedgedStays(Apply(s, schedule[0]), schedule[1..]);
    }
  }

  /**
   * Once done is closed or the context is cancelled, the dispatcher can leave by its own steps,
   * waiting neither for a token nor for any call of fn to end, if and only if it does not face a
   * full ordered at a send that overlooks the signal, as mapSeq's send overlooks a cancelled context.
   */
  lemma LeavesAloneExactly(s: State)
    requires Inv(s) && StopSignal(s)
    ensures (exists schedule :: LeavesBy(s, schedule)) <==> !Wedged(s)
  {
    if Wedged(s) {
      forall schedule | LeavesBy(s, schedule) ensures false {
        WedgedStays(s, schedule);
      }
    } else {
      var schedule := CanLeave(s);
    }
  }

  // ---- exactly when one more element is started

  ghost predicate StartsMore(s: State, schedule: seq<Action>) {
    Feasible(s, schedule) && |Exec(s, schedule).calls| > |s.calls|
  }

  /**
   * Stopping is not immediate, and this says exactly when it is not: after a stop signal some run
   * starts another element if and only if the dispatcher has passed its last check.
   */
  lemma OneMoreStartExactly(s: State)
    requires Inv(s) && Stopped(s)
    ensures (exists schedule :: StartsMore(s, schedule)) <==> PastChecks(s)
  {
    if PastChecks(s) {
      var schedule := PastChecksCanStart(s);
      assert StartsMore(s, schedule);
    } else {
      forall schedule | Feasible(s, schedule) ensures !StartsMore(s, schedule) {
        SignalStopsDispatch(s, schedule);
      }
    }
  }
}
