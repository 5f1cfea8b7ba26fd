/** What fn, the consumer's loop body and the outside did in a run, and that the iteration keeps account of it. */
module IterHistory {
  import opened Options
  import opened Sorting
  import opened IterProtocol
  import opened IterInvariant

  /** What fn returned for element i in the run. */
  function Result(schedule: seq<Action>, i: nat): Option<Outcome> {
    if schedule == [] then None
    else if schedule[0].Finish? && schedule[0].i == i then Some(schedule[0].outcome)
    else Result(schedule[1..], i)
  }

  /** The first call of fn that panicked, or failed. */
  function FirstFailure(schedule: seq<Action>): Option<ElemError> {
    if schedule == [] then None
    else if schedule[0].Finish? && schedule[0].outcome.Fail? then
      Some(Keyed(schedule[0].i, schedule[0].outcome.failure))
    else FirstFailure(schedule[1..])
  }

  /** The loop body broke. */
  predicate Breaks(schedule: seq<Action>) {
    exists k :: 0 <= k < |schedule| && schedule[k] == EndYield(false)
  }

  /** The governing context was cancelled from outside. */
  predicate CancelledOutside(schedule: seq<Action>) {
    exists k :: 0 <= k < |schedule| && schedule[k].CancelOutside?
  }

  // ---- one step

  /** From s to t only the outcome, the panic cell and the flags change that action a is about. */
  ghost predicate Accounts(s: State, a: Action, t: State) {
    && t.mode == s.mode && t.n == s.n && t.len == s.len && |s.calls| <= |t.calls|
    && (forall i :: 0 <= i < |t.calls| ==> t.calls[i].out == OutcomeAfter(s, a, i))
    && t.broke == (s.broke || a == EndYield(false))
    && t.outside == (s.outside || a.CancelOutside?)
    && (a.Finish? ==> a.i < |s.calls| && s.calls[a.i].out == None)
    && (!s.mode.collect ==> t.cell == CellAfter(s, a))
  }

  function OutcomeAfter(s: State, a: Action, i: nat): Option<Outcome> {
    if a.Finish? && a.i == i then Some(a.outcome) else if i < |s.calls| then s.calls[i].out else None
  }

  function CellAfter(s: State, a: Action): Option<ElemError> {
    if s.cell.None? && a.Finish? && a.outcome.Fail? then Some(Keyed(a.i, a.outcome.failure)) else s.cell
  }

  ghost predicate Untouched(s: State, t: State) {
    && t.mode == s.mode && t.n == s.n && t.len == s.len
    && t.calls == s.calls && t.broke == s.broke && t.outside == s.outside && t.cell == s.cell
  }

  /** A step that neither ends a call nor is the consumer's or the outside's. */
  lemma QuietAccounts(s: State, a: Action, t: State)
    requires Untouched(s, t)
    requires !a.Finish? && a != EndYield(false) && !a.CancelOutside?
    ensures Accounts(s, a, t)
  {
  }

  lemma SpawnAccounts(s: State)
    requires s.disp.Spawning?
    ensures Accounts(s, SpawnCall, SpawnCallStep(s))
  {
  }

  lemma AdmissionAccounts(s: State, a: Action)
    requires Enabled(s, a) && (a.Next? || a.Poll? || a.Load? || a.TakeToken? || a.StopWaiting?)
    ensures Accounts(s, a, Apply(s, a))
  {
    match a
    case Next => QuietAccounts(s, a, NextStep(s));
    case Poll => QuietAccounts(s, a, PollStep(s));
    case Load => QuietAccounts(s, a, LoadStep(s));
    case TakeToken => QuietAccounts(s, a, TakeTokenStep(s));
    case StopWaiting => QuietAccounts(s, a, s.(disp := Closing));
  }

  lemma DispatchAccounts(s: State, a: Action)
    requires Enabled(s, a) && (a.PushSlot? || a.StopPushing? || a.SpawnCall? || a.GiveUp? || a.CloseOrdered?)
    ensures Accounts(s, a, Apply(s, a))
  {
    match a
    case PushSlot => QuietAccounts(s, a, PushSlotStep(s));
    case StopPushing => QuietAccounts(s, a, s.(disp := GivingUp));
    case SpawnCall => SpawnAccounts(s);
    case GiveUp => QuietAccounts(s, a, GiveUpStep(s));
    case CloseOrdered => QuietAccounts(s, a, CloseOrderedStep(s));
  }

  lemma FinishAccounts(s: State, i: nat, outcome: Outcome)
    requires CallsOk(s) && Enabled(s, Finish(i, outcome))
    ensures Accounts(s, Finish(i, outcome), FinishStep(s, i, outcome))
  {
  }

  /** The other steps of a call move it and leave its outcome alone. */
  lemma MoveAccounts(s: State, a: Action, t: State, i: nat)
    requires i < |s.calls| == |t.calls| && t.calls == s.calls[i := t.calls[i]] && t.calls[i].out == s.calls[i].out
    requires t.mode == s.mode && t.n == s.n && t.len == s.len
    requires t.broke == s.broke && t.outside == s.outside && t.cell == s.cell
    requires !a.Finish? && a != EndYield(false) && !a.CancelOutside?
    ensures Accounts(s, a, t)
  {
  }

  lemma CallAccounts(s: State, a: Action)
    requires CallsOk(s) && Enabled(s, a) && CallStep(a)
    ensures Accounts(s, a, Apply(s, a))
  {
    match a
    case Finish(i, outcome) => FinishAccounts(s, i, outcome);
    case Notice(i) => NoticeAccounts(s, i);
    case CancelRun(i) => MoveAccounts(s, a, CancelRunStep(s, i), i);
    case Release(i) => MoveAccounts(s, a, ReleaseStep(s, i), i);
    case Exit(i) => ExitAccounts(s, i);
  }

  lemma NoticeAccounts(s: State, i: nat)
    requires Enabled(s, Notice(i))
    ensures Accounts(s, Notice(i), Apply(s, Notice(i)))
  {
    if s.mode.collect {
      MoveAccounts(s, Notice(i), RecordStep(s, i), i);
    } else {
      MoveAccounts(s, Notice(i), ReadCellStep(s, i), i);
    }
  }

  lemma ExitAccounts(s: State, i: nat)
    requires Enabled(s, Exit(i))
    ensures Accounts(s, Exit(i), Apply(s, Exit(i)))
  {
    if s.mode.ordered {
      MoveAccounts(s, Exit(i), CloseSlotStep(s, i), i);
    } else {
      MoveAccounts(s, Exit(i), WgDoneStep(s, i), i);
    }
  }

  lemma AwaitUntouched(s: State, i: nat)
    requires i < |s.calls|
    ensures Untouched(s, AwaitSlotStep(s, i))
  {
    if s.mode.collect {
      assert Untouched(s, s.(out := s.out + [ValueOf(s.calls[i])], cons := Recv));
    } else {
      assert Untouched(s, s.(cons := if s.panicked || s.broke then Recv else Checking(i)));
    }
  }

  lemma CheckUntouched(s: State, i: nat)
    requires i < |s.calls|
    ensures Untouched(s, CheckPanicStep(s, i))
  {
    if s.cell.Some? {
      assert Untouched(s, s.(panicked := true, cons := CloseDone));
    } else {
      assert Untouched(s, s.(out := s.out + [ValueOf(s.calls[i])], cons := Yielding(i)));
    }
  }

  lemma ConsumerAccounts(s: State, a: Action)
    requires Enabled(s, a) && (a.Receive? || a.AwaitSlot? || a.CheckPanic? || a.EndYield? || a.Conclude?)
    ensures Accounts(s, a, Apply(s, a))
  {
    match a
    case Receive => QuietAccounts(s, a, ReceiveStep(s));
    case AwaitSlot =>
      AwaitUntouched(s, s.cons.slot);
      QuietAccounts(s, a, AwaitSlotStep(s, s.cons.slot));
    case CheckPanic =>
      CheckUntouched(s, s.cons.slot);
      QuietAccounts(s, a, CheckPanicStep(s, s.cons.slot));
    case EndYield(more) => YieldAccounts(s, more);
    case Conclude => QuietAccounts(s, a, ConcludeStep(s));
  }

  lemma YieldAccounts(s: State, more: bool)
    ensures Accounts(s, EndYield(more), EndYieldStep(s, more))
  {
  }

  lemma SignalAccounts(s: State, a: Action)
    requires Enabled(s, a) && (a.SignalDone? || a.SignalBreak? || a.CancelBreak? || a.Join? || a.CancelOutside?)
    ensures Accounts(s, a, Apply(s, a))
  {
    match a
    case SignalDone => QuietAccounts(s, a, SignalDoneStep(s));
    case SignalBreak => QuietAccounts(s, a, SignalBreakStep(s));
    case CancelBreak => QuietAccounts(s, a, CancelBreakStep(s));
    case Join => QuietAccounts(s, a, s.(cons := Ending));
    case CancelOutside => assert Accounts(s, a, s.(cancelled := true, outside := true));
  }

  lemma StepAccounts(s: State, a: Action)
    requires CallsOk(s) && Enabled(s, a)
    ensures Accounts(s, a, Apply(s, a))
  {
    if a.Next? || a.Poll? || a.Load? || a.TakeToken? || a.StopWaiting? {
      AdmissionAccounts(s, a);
    } else if DispatcherStep(a) {
      DispatchAccounts(s, a);
    } else if CallStep(a) {
      CallAccounts(s, a);
    } else if a.Receive? || a.AwaitSlot? || a.CheckPanic? || a.EndYield? || a.Conclude? {
      ConsumerAccounts(s, a);
    } else {
      SignalAccounts(s, a);
    }
  }

  // ---- runs

  /** A call keeps the outcome it has, and otherwise gets what fn returns. */
  lemma {:induction false} RunResults(s: State, schedule: seq<Action>, i: nat)
    requires Inv(s) && Feasible(s, schedule) && i < |Exec(s, schedule).calls|
    ensures Exec(s, schedule).calls[i].out ==
            if i < |s.calls| && s.calls[i].out.Some? then s.calls[i].out else Result(schedule, i)
    decreases |schedule|
  {
    if schedule == [] {
    } else {
      StepAccounts(s, schedule[0]);
      StepKeeps(s, schedule[0]);
      RunResults(Apply(s, schedule[0]), schedule[1..], i);
    }
  }

  lemma {:induction false} CallsStay(s: State, schedule: seq<Action>)
    requires Inv(s) && Feasible(s, schedule)
    ensures |s.calls| <= |Exec(s, schedule).calls|
    decreases |schedule|
  {
    if schedule == [] {
    } else {
      StepAccounts(s, schedule[0]);
      StepKeeps(s, schedule[0]);
      CallsStay(Apply(s, schedule[0]), schedule[1..]);
    }
  }

  /** What fn returns for an element is what its call holds for good, unchanged. */
  lemma {:induction false} FinishIsKept(s: State, schedule: seq<Action>, k: nat)
    requires Inv(s) && Feasible(s, schedule) && k < |schedule| && schedule[k].Finish?
    ensures var i := schedule[k].i;
      && i < |Exec(s, schedule).calls| && Exec(s, schedule).calls[i].out == Some(schedule[k].outcome)
      && (i < |s.calls| ==> s.calls[i].out == None) && Result(schedule, i) == Some(schedule[k].outcome)
    decreases |schedule|
  {
    var a := schedule[0];
    StepAccounts(s, a);
    StepKeeps(s, a);
    if k == 0 {
      CallsStay(Apply(s, a), schedule[1..]);
      RunResults(Apply(s, a), schedule[1..], a.i);
    } else {
      FinishIsKept(Apply(s, a), schedule[1..], k - 1);
    }
  }

  /** The panic cell holds the first panic of the run. */
  lemma {:induction false} RunCell(s: State, schedule: seq<Action>)
    requires Inv(s) && Feasible(s, schedule) && !s.mode.collect
    ensures Exec(s, schedule).cell == if s.cell.Some? then s.cell else FirstFailure(schedule)
    decreases |schedule|
  {
    if schedule == [] {
    } else {
      StepAccounts(s, schedule[0]);
      StepKeeps(s, schedule[0]);
      RunCell(Apply(s, schedule[0]), schedule[1..]);
    }
  }

  lemma BreaksLater(a: Action, rest: seq<Action>)
    ensures Breaks([a] + rest) <==> a == EndYield(false) || Breaks(rest)
    ensures CancelledOutside([a] + rest) <==> a.CancelOutside? || CancelledOutside(rest)
  {
    var all := [a] + rest;
    assert all[0] == a && forall k :: 0 <= k < |rest| ==> all[k + 1] == rest[k];
  }

  /** broke and outside say whether the loop body broke and the outside cancelled. */
  lemma {:induction false} RunFlags(s: State, schedule: seq<Action>)
    requires Inv(s) && Feasible(s, schedule)
    ensures Exec(s, schedule).broke == (s.broke || Breaks(schedule))
    ensures Exec(s, schedule).outside == (s.outside || CancelledOutside(schedule))
    ensures var t := Exec(s, schedule); t.mode == s.mode && t.n == s.n && t.len == s.len
    decreases |schedule|
  {
    if schedule == [] {
    } else {
      StepAccounts(s, schedule[0]);
      StepKeeps(s, schedule[0]);
      RunFlags(Apply(s, schedule[0]), schedule[1..]);
      assert schedule == [schedule[0]] + schedule[1..];
      BreaksLater(schedule[0], schedule[1..]);
    }
  }

  // ---- failures

  lemma {:induction false} ResultFails(schedule: seq<Action>, i: nat)
    requires Result(schedule, i).Some? && Result(schedule, i).value.Fail?
    ensures FirstFailure(schedule).Some?
  {
    if schedule[0].Finish? && schedule[0].i == i {
    } else {
      ResultFails(schedule[1..], i);
    }
  }

  lemma {:induction false} FirstFailureAt(schedule: seq<Action>) returns (k: nat)
    requires FirstFailure(schedule).Some?
    ensures var e := FirstFailure(schedule).value; k < |schedule| && schedule[k] == Finish(e.key, Fail(e.val))
  {
    if schedule[0].Finish? && schedule[0].outcome.Fail? {
      k := 0;
    } else {
      k := FirstFailureAt(schedule[1..]);
      k := k + 1;
    }
  }
}
