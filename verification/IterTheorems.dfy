/** What every run of an iteration does, for any interleaving. */
module IterTheorems {
  import opened Counting
  import opened Options
  import opened Sorting
  import opened IterProtocol
  import opened IterInvariant
  import opened IterHistory

  /** The invariant holds all along every run. */
  lemma {:induction false} RunKeeps(s: State, schedule: seq<Action>)
    requires Inv(s) && Feasible(s, schedule)
    ensures Inv(Exec(s, schedule))
    decreases |schedule|
  {
    if schedule == [] {
    } else {
      StepKeeps(s, schedule[0]);
      RunKeeps(Apply(s, schedule[0]), schedule[1..]);
    }
  }

  lemma RunInv(s0: State, schedule: seq<Action>)
    requires Init(s0) && Feasible(s0, schedule)
    ensures Inv(Exec(s0, schedule))
  {
    InitEstablishes(s0);
    RunKeeps(s0, schedule);
  }

  predicate IsMapSeq(m: Mode) {
    m.ordered && !m.collect
  }

  /** The calls hold what fn returned, and the flags say what the consumer and the outside did. */
  lemma CallsHoldResults(s0: State, schedule: seq<Action>)
    requires Init(s0) && Feasible(s0, schedule)
    ensures var s := Exec(s0, schedule);
      && Inv(s) && s.mode == s0.mode
      && (forall i :: 0 <= i < |s.calls| ==> s.calls[i].out == Result(schedule, i))
      && s.broke == Breaks(schedule) && s.outside == (s0.outside || CancelledOutside(schedule))
  {
    RunInv(s0, schedule);
    InitEstablishes(s0);
    RunFlags(s0, schedule);
    var s := Exec(s0, schedule);
    forall i | 0 <= i < |s.calls| ensures s.calls[i].out == Result(schedule, i) {
      RunResults(s0, schedule, i);
    }
  }

  /** fn has failed for element i. */
  predicate Fails(schedule: seq<Action>, i: nat) {
    Result(schedule, i).Some? && Result(schedule, i).value.Fail?
  }

  // ---- what has been yielded, in every reachable state

  /**
   * Order and prefix safety of mapSeq: the values yielded so far are what fn returned for the
   * first |out| elements, in input order, and every element for which fn panicked comes after them.
   */
  lemma YieldsAreAPrefix(s0: State, schedule: seq<Action>)
    requires Init(s0) && Feasible(s0, schedule) && IsMapSeq(Exec(s0, schedule).mode)
    ensures var s := Exec(s0, schedule);
      && |s.out| <= |s.calls|
      && (forall i :: 0 <= i < |s.out| ==> Result(schedule, i) == Some(Ok(s.out[i])))
      && (forall i :: 0 <= i < |s.calls| && Fails(schedule, i) ==> |s.out| <= i)
  {
    CallsHoldResults(s0, schedule);
    var s := Exec(s0, schedule);
    forall i | 0 <= i < |s.calls| && Fails(schedule, i) ensures |s.out| <= i {
      assert s.calls[i].out == Result(schedule, i);
    }
  }

  // ---- bounds, in every reachable state

  function InFlight(c: Call): nat {
    if c.pc.Running? then 1 else 0
  }

  /** At most n calls run at once. */
  lemma LimitHolds(s0: State, schedule: seq<Action>)
    requires Init(s0) && Feasible(s0, schedule)
    ensures var s := Exec(s0, schedule); Sum(InFlight, s.calls) <= s.n
  {
    RunInv(s0, schedule);
    SumMonotone(InFlight, CallToken, Exec(s0, schedule).calls);
  }

  /**
   * Fail-fast dispatch, for all four functions: when the first failure stops dispatch, the
   * elements ever started are at most n more than the calls that succeeded.
   */
  lemma FailFastBound(s0: State, schedule: seq<Action>)
    requires Init(s0) && Feasible(s0, schedule) && FailFast(Exec(s0, schedule).mode)
    ensures var s := Exec(s0, schedule); |s.calls| <= s.n + Sum(Succeeded, s.calls)
  {
    RunInv(s0, schedule);
  }

  /** The slots the consumer has finished with; the slot in hand, be it awaited, examined or yielded, is not. */
  function Finished(s: State): nat {
    var c := s.cons;
    if (c.Await? || c.Checking? || c.Yielding? || c.CloseDone? || c.BreakClose? || c.BreakCancel?) && s.received > 0
    then s.received - 1
    else s.received
  }

  /** Lookahead: started elements exceed the slots the consumer has finished with by at most n + 1. */
  lemma LookaheadBound(s0: State, schedule: seq<Action>)
    requires Init(s0) && Feasible(s0, schedule) && Exec(s0, schedule).mode.ordered
    ensures var s := Exec(s0, schedule);
      && |s.calls| <= s.received + s.n
      && |s.calls| <= Finished(s) + s.n + 1
  {
    RunInv(s0, schedule);
  }

  /** A break during the j-th yield starts at most j + n + 1 elements in total. */
  lemma BreakBound(s0: State, schedule: seq<Action>)
    requires Init(s0) && Feasible(s0, schedule) && Breaks(schedule)
    ensures var s := Exec(s0, schedule); |s.calls| <= |s.out| + s.n + 1
  {
    CallsHoldResults(s0, schedule);
  }

  // ---- after a break

  /** After a break the consumer only drains. */
  lemma StepAfterBreak(s: State, a: Action)
    requires Inv(s) && s.broke && Enabled(s, a)
    ensures Apply(s, a).broke && Apply(s, a).out == s.out
  {
    StepAccounts(s, a);
    if a.AwaitSlot? {
      assert AwaitSlotStep(s, s.cons.slot).out == s.out;
    } else {
      assert !a.CheckPanic?;
      OthersKeepOut(s, a);
    }
  }

  /** Only the consumer hands out values. */
  lemma OthersKeepOut(s: State, a: Action)
    requires Enabled(s, a) && !a.AwaitSlot? && !a.CheckPanic?
    ensures Apply(s, a).out == s.out
  {
    if CallStep(a) {
      CallsKeepOut(s, a);
    } else if DispatcherStep(a) {
      DispatcherKeepsOut(s, a);
    } else {
      match a
      case Receive => assert ReceiveStep(s).out == s.out;
      case SignalDone => assert SignalDoneStep(s).out == s.out;
      case SignalBreak => assert SignalBreakStep(s).out == s.out;
      case EndYield(more) => assert EndYieldStep(s, more).out == s.out;
      case Conclude => assert ConcludeStep(s).out == s.out;
      case _ =>
    }
  }

  lemma CallsKeepOut(s: State, a: Action)
    requires Enabled(s, a) && CallStep(a)
    ensures Apply(s, a).out == s.out
  {
    match a
    case Finish(i, outcome) => assert FinishStep(s, i, outcome).out == s.out;
    case Notice(i) => NoticeKeepsOut(s, i);
    case Exit(i) => assert CloseSlotStep(s, i).out == s.out && WgDoneStep(s, i).out == s.out;
    case _ =>
  }

  lemma NoticeKeepsOut(s: State, i: nat)
    requires i < |s.calls|
    ensures RecordStep(s, i).out == s.out && ReadCellStep(s, i).out == s.out
  {
  }

  lemma DispatcherKeepsOut(s: State, a: Action)
    requires Enabled(s, a) && DispatcherStep(a)
    ensures Apply(s, a).out == s.out
  {
    match a
    case Poll => assert PollStep(s).out == s.out;
    case Load => assert LoadStep(s).out == s.out;
    case CloseOrdered => assert CloseOrderedStep(s).out == s.out;
    case _ =>
  }

  lemma {:induction false} BrokenYieldsNothing(s: State, schedule: seq<Action>)
    requires Inv(s) && s.broke && Feasible(s, schedule)
    ensures Exec(s, schedule).out == s.out
    decreases |schedule|
  {
    if schedule == [] {
    } else {
      StepAfterBreak(s, schedule[0]);
      StepKeeps(s, schedule[0]);
      BrokenYieldsNothing(Apply(s, schedule[0]), schedule[1..]);
    }
  }

  /** A break ends the yields: however the run goes on, no further value is handed out. */
  lemma BreakStopsYields(s: State, schedule: seq<Action>)
    requires Inv(s) && s.cons.Yielding? && Feasible(EndYieldStep(s, false), schedule)
    ensures Exec(EndYieldStep(s, false), schedule).out == s.out
  {
    EndYieldKeeps(s, false);
    BrokenYieldsNothing(EndYieldStep(s, false), schedule);
  }

  /** A break cancels the context of the calls in flight, if they have one, and so does the end. */
  ghost predicate CancelOk(s: State) {
    && (s.mode.cancels && s.broke && !s.cons.BreakClose? && !s.cons.BreakCancel? ==> s.cancelled)
    && (s.cons.End? && (s.mode.collect || s.mode.cancels) ==> s.cancelled)
  }

  lemma CancelFrame(s: State, t: State)
    requires CancelOk(s) && t.mode == s.mode && t.cons == s.cons && t.broke == s.broke && (s.cancelled ==> t.cancelled)
    ensures CancelOk(t)
  {
  }

  lemma CallCancels(s: State, a: Action)
    requires CancelOk(s) && Enabled(s, a) && CallStep(a)
    ensures CancelOk(Apply(s, a))
  {
    match a
    case Finish(i, outcome) => CancelFrame(s, FinishStep(s, i, outcome));
    case Notice(i) =>
      CancelFrame(s, RecordStep(s, i));
      CancelFrame(s, ReadCellStep(s, i));
    case CancelRun(i) => CancelFrame(s, CancelRunStep(s, i));
    case Release(i) => CancelFrame(s, ReleaseStep(s, i));
    case Exit(i) =>
      CancelFrame(s, CloseSlotStep(s, i));
      CancelFrame(s, WgDoneStep(s, i));
  }

  lemma ChecksCancel(s: State, a: Action)
    requires CancelOk(s) && Enabled(s, a) && (a.Next? || a.Poll? || a.Load? || a.TakeToken? || a.StopWaiting?)
    ensures CancelOk(Apply(s, a))
  {
    match a
    case Next => CancelFrame(s, NextStep(s));
    case Poll => CancelFrame(s, PollStep(s));
    case Load => CancelFrame(s, LoadStep(s));
    case TakeToken => CancelFrame(s, TakeTokenStep(s));
    case StopWaiting => CancelFrame(s, s.(disp := Closing));
  }

  lemma DispatcherCancels(s: State, a: Action)
    requires CancelOk(s) && Enabled(s, a) && DispatcherStep(a)
    ensures CancelOk(Apply(s, a))
  {
    match a
    case PushSlot => CancelFrame(s, PushSlotStep(s));
    case StopPushing => CancelFrame(s, s.(disp := GivingUp));
    case SpawnCall => CancelFrame(s, SpawnCallStep(s));
    case GiveUp => CancelFrame(s, GiveUpStep(s));
    case CloseOrdered => CancelFrame(s, CloseOrderedStep(s));
    case _ => ChecksCancel(s, a);
  }

  lemma ConsumerCancels(s: State, a: Action)
    requires Inv(s) && CancelOk(s) && Enabled(s, a) && !DispatcherStep(a) && !CallStep(a)
    ensures CancelOk(Apply(s, a))
  {
    match a
    case Receive => assert CancelOk(ReceiveStep(s));
    case AwaitSlot => assert CancelOk(AwaitSlotStep(s, s.cons.slot));
    case CheckPanic => assert CancelOk(CheckPanicStep(s, s.cons.slot));
    case SignalDone => assert CancelOk(SignalDoneStep(s));
    case SignalBreak => assert CancelOk(SignalBreakStep(s));
    case EndYield(more) => assert CancelOk(EndYieldStep(s, more));
    case CancelBreak => assert CancelOk(CancelBreakStep(s));
    case Join => assert CancelOk(s.(cons := Ending));
    case Conclude => assert CancelOk(ConcludeStep(s));
    case CancelOutside => CancelFrame(s, s.(cancelled := true, outside := true));
  }

  lemma {:induction false} RunCancels(s: State, schedule: seq<Action>)
    requires Inv(s) && CancelOk(s) && Feasible(s, schedule)
    ensures CancelOk(Exec(s, schedule))
    decreases |schedule|
  {
    if schedule == [] {
    } else {
      var a := schedule[0];
      if CallStep(a) {
        CallCancels(s, a);
      } else if DispatcherStep(a) {
        DispatcherCancels(s, a);
      } else {
        ConsumerCancels(s, a);
      }
      StepKeeps(s, a);
      RunCancels(Apply(s, a), schedule[1..]);
    }
  }

  /** In every reachable state a break that has been handled has cancelled, and so has the end. */
  lemma BreakCancels(s0: State, schedule: seq<Action>)
    requires Init(s0) && Feasible(s0, schedule)
    ensures CancelOk(Exec(s0, schedule))
  {
    InitEstablishes(s0);
    RunCancels(s0, schedule);
  }

  // ---- stopping

  /** A panic is recorded; when errors are collected there is no such cell. */
  predicate PanicSignal(s: State) {
    !s.mode.collect && s.cell.Some?
  }

  /** done is closed, the context is cancelled, or a panic is recorded. */
  predicate Stopped(s: State) {
    StopSignal(s) || PanicSignal(s)
  }

  /** From s to t no element is started and no stop signal is taken back. */
  ghost predicate StartsNothing(s: State, t: State) {
    && |t.calls| == |s.calls| && t.disp == s.disp && t.mode == s.mode
    && (s.done ==> t.done) && (s.cancelled ==> t.cancelled) && (s.cell.Some? ==> t.cell == s.cell)
  }

  lemma CallStepStartsNothing(s: State, a: Action)
    requires Enabled(s, a) && CallStep(a)
    ensures StartsNothing(s, Apply(s, a))
  {
    match a
    case Finish(i, outcome) => assert StartsNothing(s, FinishStep(s, i, outcome));
    case Notice(i) => assert StartsNothing(s, RecordStep(s, i)) && StartsNothing(s, ReadCellStep(s, i));
    case CancelRun(i) => assert StartsNothing(s, CancelRunStep(s, i));
    case Release(i) => assert StartsNothing(s, ReleaseStep(s, i));
    case Exit(i) => assert StartsNothing(s, CloseSlotStep(s, i)) && StartsNothing(s, WgDoneStep(s, i));
  }

  lemma AwaitStartsNothing(s: State)
    requires Enabled(s, AwaitSlot)
    ensures StartsNothing(s, AwaitSlotStep(s, s.cons.slot))
  {
  }

  lemma CheckStartsNothing(s: State)
    requires Enabled(s, CheckPanic)
    ensures StartsNothing(s, CheckPanicStep(s, s.cons.slot))
  {
  }

  lemma ReceiveStartsNothing(s: State)
    requires Enabled(s, Receive)
    ensures StartsNothing(s, ReceiveStep(s))
  {
  }

  lemma ConcludeStartsNothing(s: State)
    requires Enabled(s, Conclude)
    ensures StartsNothing(s, ConcludeStep(s))
  {
  }

  lemma ConsumerStartsNothing(s: State, a: Action)
    requires Enabled(s, a) && (a.Receive? || a.AwaitSlot? || a.CheckPanic? || a.Conclude? || a.EndYield?)
    ensures StartsNothing(s, Apply(s, a))
  {
    match a
    case Receive => ReceiveStartsNothing(s);
    case AwaitSlot => AwaitStartsNothing(s);
    case CheckPanic => CheckStartsNothing(s);
    case Conclude => ConcludeStartsNothing(s);
    case EndYield(more) => assert StartsNothing(s, EndYieldStep(s, more));
  }

  lemma SignallingStartsNothing(s: State, a: Action)
    requires Enabled(s, a)
    requires a.SignalDone? || a.SignalBreak? || a.CancelBreak? || a.Join? || a.CancelOutside?
    ensures StartsNothing(s, Apply(s, a))
  {
    match a
    case SignalDone => assert StartsNothing(s, SignalDoneStep(s));
    case SignalBreak => assert StartsNothing(s, SignalBreakStep(s));
    case CancelBreak => assert StartsNothing(s, CancelBreakStep(s));
    case Join => assert StartsNothing(s, s.(cons := Ending));
    case CancelOutside => assert StartsNothing(s, s.(cancelled := true, outside := true));
  }

  /** Only the dispatcher starts elements. */
  lemma OthersStartNothing(s: State, a: Action)
    requires Enabled(s, a) && !DispatcherStep(a)
    ensures StartsNothing(s, Apply(s, a))
  {
    if CallStep(a) {
      CallStepStartsNothing(s, a);
    } else if a.Receive? || a.AwaitSlot? || a.CheckPanic? || a.Conclude? || a.EndYield? {
      ConsumerStartsNothing(s, a);
    } else {
      SignallingStartsNothing(s, a);
    }
  }

  /** The dispatcher keeps to its own fields, and once a signal is up it goes no further than it is committed to. */
  ghost predicate Stopping(s: State, t: State) {
    && t.errs == s.errs && t.cons == s.cons && t.done == s.done && t.cancelled == s.cancelled
    && t.cell == s.cell && t.mode == s.mode
    && (Stopped(s) ==> Committed(t) <= Committed(s))
  }

  lemma NextStops(s: State)
    requires Enabled(s, Next)
    ensures Stopping(s, NextStep(s))
  {
  }

  lemma PollStops(s: State)
    requires Enabled(s, Poll)
    ensures Stopping(s, PollStep(s))
  {
  }

  lemma LoadStops(s: State)
    requires Enabled(s, Load)
    ensures Stopping(s, LoadStep(s))
  {
  }

  lemma SpawnStops(s: State)
    requires Enabled(s, SpawnCall)
    ensures Stopping(s, SpawnCallStep(s))
  {
  }

  lemma CloseStops(s: State)
    requires Enabled(s, CloseOrdered)
    ensures Stopping(s, CloseOrderedStep(s))
  {
  }

  lemma ChecksStop(s: State, a: Action)
    requires Enabled(s, a) && (a.Next? || a.Poll? || a.Load? || a.StopWaiting? || a.StopPushing?)
    ensures Stopping(s, Apply(s, a))
  {
    match a
    case Next => NextStops(s);
    case Poll => PollStops(s);
    case Load => LoadStops(s);
    case StopWaiting => assert Stopping(s, s.(disp := Closing));
    case StopPushing => assert Stopping(s, s.(disp := GivingUp));
  }

  lemma DispatcherStops(s: State, a: Action)
    requires Enabled(s, a) && DispatcherStep(a)
    ensures Stopping(s, Apply(s, a))
  {
    match a
    case TakeToken => assert Stopping(s, TakeTokenStep(s));
    case PushSlot => assert Stopping(s, PushSlotStep(s));
    case SpawnCall => SpawnStops(s);
    case GiveUp => assert Stopping(s, GiveUpStep(s));
    case CloseOrdered => CloseStops(s);
    case _ => ChecksStop(s, a);
  }

  lemma StopStays(s: State, a: Action)
    requires Enabled(s, a) && Stopped(s)
    ensures Stopped(Apply(s, a)) && Committed(Apply(s, a)) <= Committed(s)
  {
    var t := Apply(s, a);
    if DispatcherStep(a) {
      DispatcherStops(s, a);
      assert Stopping(s, t);
    } else {
      OthersStartNothing(s, a);
      assert StartsNothing(s, t);
    }
  }

  /**
   * Once a stop signal is up, no element is started, however the run goes on, but the one in
   * hand that has passed its last check.
   */
  lemma {:induction false} SignalStopsDispatch(s: State, schedule: seq<Action>)
    requires Feasible(s, schedule) && Stopped(s)
    ensures |Exec(s, schedule).calls| <= Committed(s)
    decreases |schedule|
  {
    if schedule == [] {
    } else {
      StopStays(s, schedule[0]);
      SignalStopsDispatch(Apply(s, schedule[0]), schedule[1..]);
    }
  }

  /**
   * Once done is closed, the context is cancelled or, unless errors are collected, a panic is
   * recorded, at most one more element is started, however the run goes on.
   */
  lemma AtMostOneMoreStart(s: State, schedule: seq<Action>)
    requires Feasible(s, schedule) && Stopped(s)
    ensures |Exec(s, schedule).calls| <= |s.calls| + 1
  {
    SignalStopsDispatch(s, schedule);
  }

  /** The dispatcher is before its first check, or on its way out, and a signal is up. */
  predicate Retreating(s: State) {
    && Stopped(s)
    && (s.disp.Top? || s.disp.Poll1? || s.disp.GivingUp? || s.disp.Closing? || s.disp.Left?
        || (s.disp.Load1? && PanicSignal(s)))
  }

  lemma RetreatGoesOn(s: State, a: Action)
    requires Retreating(s) && Enabled(s, a)
    ensures Retreating(Apply(s, a)) && !a.TakeToken?
  {
    if DispatcherStep(a) {
      DispatcherStops(s, a);
      match a
      case Next => assert Retreating(NextStep(s));
      case Poll => assert Retreating(PollStep(s));
      case Load => assert Retreating(LoadStep(s));
      case GiveUp => assert Retreating(GiveUpStep(s));
      case CloseOrdered => assert Retreating(CloseOrderedStep(s));
    } else {
      OthersStartNothing(s, a);
    }
  }

  /**
   * The first stop check: a dispatcher that has not passed it when a signal comes up never takes
   * a token again, and so it leaves without waiting for one.
   */
  lemma {:induction false} NoTokenAfterSignal(s: State, schedule: seq<Action>)
    requires Feasible(s, schedule) && Retreating(s)
    ensures forall k :: 0 <= k < |schedule| ==> !schedule[k].TakeToken?
    decreases |schedule|
  {
    if schedule == [] {
    } else {
      RetreatGoesOn(s, schedule[0]);
      NoTokenAfterSignal(Apply(s, schedule[0]), schedule[1..]);
      assert schedule == [schedule[0]] + schedule[1..];
    }
  }

  /** mapSeq after a panic: whatever the slot in hand holds, it is not handed out. */
  lemma StepAfterPanic(s: State, a: Action)
    requires Inv(s) && PanicSignal(s) && Enabled(s, a)
    ensures PanicSignal(Apply(s, a)) && Apply(s, a).out == s.out
  {
    StepAccounts(s, a);
    if a.AwaitSlot? {
      assert AwaitSlotStep(s, s.cons.slot).out == s.out;
    } else if a.CheckPanic? {
      assert CheckPanicStep(s, s.cons.slot).out == s.out;
    } else {
      OthersKeepOut(s, a);
    }
  }

  /** Once fn has panicked no further value is handed out, not even one from before the panic. */
  lemma {:induction false} PanicStopsYields(s: State, schedule: seq<Action>)
    requires Inv(s) && PanicSignal(s) && Feasible(s, schedule)
    ensures Exec(s, schedule).out == s.out
    decreases |schedule|
  {
    if schedule == [] {
    } else {
      StepAfterPanic(s, schedule[0]);
      StepKeeps(s, schedule[0]);
      PanicStopsYields(Apply(s, schedule[0]), schedule[1..]);
    }
  }

  // ---- the end of the range

  /** The range, or the call, is over; a panic is raised if raised is set. */
  ghost predicate Ended(s: State, raised: Option<Failure>) {
    s.cons == End(raised)
  }

  /**
   * Join and re-panic: at the end the dispatcher has exited, fn has ended for every started
   * element, all tokens are back, and nothing has faulted (done and ordered were closed at most
   * once).  Without collection the first panic of the run is raised, if fn panicked at all.
   */
  lemma EndJoinsEverything(s0: State, schedule: seq<Action>, raised: Option<Failure>)
    requires Init(s0) && Feasible(s0, schedule) && Ended(Exec(s0, schedule), raised)
    ensures var s := Exec(s0, schedule);
      && s.disp == Left && s.sem == 0 && s.wg == 0 && s.queue == [] && !s.fault
      && (forall i :: 0 <= i < |s.calls| ==> s.calls[i].pc.Gone? && Result(schedule, i).Some?)
      && (s.mode.collect ==> raised == None)
      && (!s.mode.collect ==>
            && raised == (if FirstFailure(schedule).Some? then Some(FirstFailure(schedule).value.val) else None)
            && (raised == None <==> forall i :: 0 <= i < |s.calls| ==> !Fails(schedule, i)))
  {
    CallsHoldResults(s0, schedule);
    InitEstablishes(s0);
    var s := Exec(s0, schedule);
    forall i | 0 <= i < |s.calls| ensures s.calls[i].pc.Gone? && Result(schedule, i).Some? {
      EndedAllGone(s, i);
    }
    SumZero(CallToken, s.calls);
    if !s.mode.collect {
      RunCell(s0, schedule);
      FailuresCounted(s0, schedule);
    }
  }

  /** Some started element fails if and only if some call of fn fails. */
  lemma FailuresCounted(s0: State, schedule: seq<Action>)
    requires Init(s0) && Feasible(s0, schedule)
    ensures FirstFailure(schedule) == None <==>
            forall i :: 0 <= i < |Exec(s0, schedule).calls| ==> !Fails(schedule, i)
  {
    InitEstablishes(s0);
    if FirstFailure(schedule).Some? {
      var k := FirstFailureAt(schedule);
      FinishIsKept(s0, schedule, k);
      assert Fails(schedule, schedule[k].i);
    } else {
      forall i | 0 <= i < |Exec(s0, schedule).calls| ensures !Fails(schedule, i) {
        if Fails(schedule, i) {
          ResultFails(schedule, i);
        }
      }
    }
  }

  /** Nothing tells dispatch to stop: no outside cancellation, no break, no failure that counts. */
  ghost predicate Undisturbed(s0: State, schedule: seq<Action>) {
    && !s0.outside && !CancelledOutside(schedule) && !Breaks(schedule)
    && (FailFast(s0.mode) ==> FirstFailure(schedule) == None)
  }

  lemma CellComesFromCall(s: State)
    requires Inv(s) && s.cell.Some?
    ensures !s.mode.collect && exists i :: 0 <= i < |s.calls| && Failed(s.calls[i])
  {
    assert Failed(s.calls[s.cell.value.key]);
  }

  lemma ErrsComeFromCalls(s: State)
    requires Inv(s) && s.errs != []
    ensures s.mode.collect && exists i :: 0 <= i < |s.calls| && Failed(s.calls[i])
  {
    assert s.errs[0] in multiset(s.errs);
    assert Recorded(s, s.errs[0]);
    assert Failed(s.calls[s.errs[0].key]);
  }

  /** Where fn has not failed, neither the panic cell nor errs is a reason to stop. */
  lemma NoFailureNoReason(s0: State, schedule: seq<Action>)
    requires Init(s0) && Feasible(s0, schedule) && FirstFailure(schedule) == None
    ensures var s := Exec(s0, schedule); s.cell == None && s.errs == []
  {
    CallsHoldResults(s0, schedule);
    FailuresCounted(s0, schedule);
    var s := Exec(s0, schedule);
    forall i | 0 <= i < |s.calls| ensures !Failed(s.calls[i]) {
      assert !Fails(schedule, i);
    }
    if s.cell.Some? {
      CellComesFromCall(s);
    }
    if s.errs != [] {
      ErrsComeFromCalls(s);
    }
  }

  /** The value of element i: what fn returned, or zero where it failed. */
  function ValueAt(schedule: seq<Action>, i: nat): Val {
    if Result(schedule, i).Some? && Result(schedule, i).value.Ok? then Result(schedule, i).value.val else ZERO
  }

  /**
   * Completeness: an undisturbed iteration processes every element, and an undisturbed ordered one
   * hands out what fn returned for the whole input.
   */
  lemma UndisturbedCompletes(s0: State, schedule: seq<Action>, raised: Option<Failure>)
    requires Init(s0) && Feasible(s0, schedule) && Ended(Exec(s0, schedule), raised)
    requires Undisturbed(s0, schedule)
    ensures var s := Exec(s0, schedule);
      && |s.calls| == s.len
      && (s.mode.ordered ==> |s.out| == s.len && forall i :: 0 <= i < s.len ==> s.out[i] == ValueAt(schedule, i))
  {
    CallsHoldResults(s0, schedule);
    FailuresCounted(s0, schedule);
    var s := Exec(s0, schedule);
    if FailFast(s.mode) {
      NoFailureNoReason(s0, schedule);
    }
    if s.cell.Some? {
      CellComesFromCall(s);
    }
    assert !StopReason(s);
    assert s.disp.Left?;
  }

  // ---- the result of the collecting functions

  /** The errors of the failed calls, left to right, each with its index. */
  function Failures(calls: seq<Call>): seq<ElemError> {
    if calls == [] then []
    else
      var n := |calls| - 1;
      var c := calls[n];
      Failures(calls[..n]) + if Failed(c) then [Keyed(n, c.out.value.failure)] else []
  }

  /** The errors of the failed calls are in index order, and they are all of them. */
  lemma {:induction false} FailuresMeaning(calls: seq<Call>)
    ensures Increasing(Failures(calls))
    ensures forall e :: e in Failures(calls) <==> e.key < |calls| && calls[e.key].out == Some(Fail(e.val))
  {
    if calls == [] {
    } else {
      var n := |calls| - 1;
      FailuresMeaning(calls[..n]);
      var before := Failures(calls[..n]);
      FailuresExtend(calls);
      forall i | 0 <= i < |before| ensures before[i].key < n {
        assert before[i] in before;
      }
    }
  }

  /** The last call adds its own error and no other. */
  lemma FailuresExtend(calls: seq<Call>)
    requires calls != []
    ensures forall e :: e in Failures(calls) <==>
      e in Failures(calls[..|calls| - 1]) || (e.key == |calls| - 1 && calls[e.key].out == Some(Fail(e.val)))
  {
    var n := |calls| - 1;
    forall e: ElemError
      ensures e in Failures(calls) <==> e in Failures(calls[..n]) || (e.key == n && calls[n].out == Some(Fail(e.val)))
    {
      if Failed(calls[n]) {
        var d := Keyed(n, calls[n].out.value.failure);
        assert Failures(calls) == Failures(calls[..n]) + [d];
        assert e == d <==> e.key == n && calls[n].out == Some(Fail(e.val));
      }
    }
  }

  /** What is recorded at the end is what failed, whatever the order of completion was. */
  lemma EndErrs(s: State)
    requires Inv(s) && s.cons.End? && s.mode.collect
    requires Increasing(s.errs)
    ensures s.errs == Failures(s.calls)
  {
    FailuresMeaning(s.calls);
    forall e: ElemError ensures multiset(s.errs)[e] == multiset(Failures(s.calls))[e] {
      DistinctCounts(Failures(s.calls), e);
      if e.key < |s.calls| {
        EndedAllGone(s, e.key);
      }
      assert Recorded(s, e) <==> e in Failures(s.calls);
    }
    assert multiset(s.errs) == multiset(Failures(s.calls));
    IncreasingUnique(s.errs, Failures(s.calls));
  }

  /** At the end the collected errors are sorted. */
  ghost predicate SortedAtEnd(s: State) {
    s.cons.End? && s.mode.collect ==> Increasing(s.errs)
  }

  lemma ErrKeysUnique(s: State)
    requires ErrsOk(s)
    ensures KeysUnique(multiset(s.errs))
  {
    forall d, e | d in multiset(s.errs) && e in multiset(s.errs) && d.key == e.key ensures d == e {
      assert Recorded(s, d) && Recorded(s, e);
    }
  }

  lemma ConcludeSorts(s: State)
    requires ErrsOk(s)
    ensures Increasing(ConcludeStep(s).errs)
  {
    ErrKeysUnique(s);
    SortIncreasing(s.errs);
  }

  lemma SortedStays(s: State, a: Action)
    requires Inv(s) && Enabled(s, a) && SortedAtEnd(s)
    ensures SortedAtEnd(Apply(s, a))
  {
    if a.Conclude? {
      ConcludeSorts(s);
    } else if CallStep(a) {
      NotEnded(s, a.i);
      assert !Apply(s, a).cons.End?;
    } else if DispatcherStep(a) {
      DispatcherStops(s, a);
    } else if s.cons.End? {
      assert Apply(s, a).errs == s.errs;
    } else {
      assert !Apply(s, a).cons.End?;
    }
  }

  lemma {:induction false} RunSorts(s: State, schedule: seq<Action>)
    requires Inv(s) && Feasible(s, schedule) && SortedAtEnd(s)
    ensures SortedAtEnd(Exec(s, schedule))
    decreases |schedule|
  {
    if schedule == [] {
    } else {
      SortedStays(s, schedule[0]);
      StepKeeps(s, schedule[0]);
      RunSorts(Apply(s, schedule[0]), schedule[1..]);
    }
  }

  /**
   * The functional result of MapSeqErr and ForEachSeqErr: whatever the completion order, the
   * joined errors are those with which fn failed, each once, by increasing index; MapSeqErr's
   * results are what fn returned for the started elements, in order, with the zero value where it
   * failed; and every element was started unless the context was cancelled from outside or by an
   * error.
   */
  lemma CollectedResult(s0: State, schedule: seq<Action>, raised: Option<Failure>)
    requires Init(s0) && Feasible(s0, schedule) && Ended(Exec(s0, schedule), raised)
    requires Exec(s0, schedule).mode.collect
    ensures var s := Exec(s0, schedule);
      && s.errs == Failures(s.calls) && Increasing(s.errs)
      && (forall e :: e in s.errs <==> e.key < |s.calls| && Result(schedule, e.key) == Some(Fail(e.val)))
      && (if s.mode.ordered then |s.out| == |s.calls| else s.out == [])
      && (forall i :: 0 <= i < |s.out| ==> s.out[i] == ValueAt(schedule, i))
      && (forall i :: 0 <= i < |s.calls| ==> Result(schedule, i).Some?)
      && (|s.calls| == s.len || s0.outside || CancelledOutside(schedule) || (s.mode.cancels && s.errs != []))
  {
    CallsHoldResults(s0, schedule);
    InitEstablishes(s0);
    RunSorts(s0, schedule);
    var s := Exec(s0, schedule);
    EndErrs(s);
    FailuresMeaning(s.calls);
    forall i | 0 <= i < |s.calls| ensures Result(schedule, i).Some? {
      EndedAllGone(s, i);
    }
  }
}
