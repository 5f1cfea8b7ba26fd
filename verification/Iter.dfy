/**
 * One iteration as an object: the variables that the dispatcher, the calls and the consumer
 * share are fields updated in place, one atomic section at a time.  Every method is proved to
 * take exactly the step of the protocol.
 */
module Iterations {
  import opened Counting
  import opened Options
  import opened Sorting
  import opened IterProtocol
  import opened IterInvariant
  import opened IterHistory
  import opened IterTheorems

  /** What the theorems say of the state that a run has reached. */
  lemma MeetsTheorems(s0: State, schedule: seq<Action>)
    requires Init(s0) && Feasible(s0, schedule)
    ensures var s := Exec(s0, schedule);
      && (FailFast(s.mode) ==> |s.calls| <= s.n + Sum(Succeeded, s.calls))
      && (IsMapSeq(s.mode) ==> forall i :: 0 <= i < |s.out| ==> Result(schedule, i) == Some(Ok(s.out[i])))
      && (forall i :: 0 <= i < |s.calls| ==> s.calls[i].out == Result(schedule, i))
      && (s.mode.collect && s.cons.End? ==> s.errs == Failures(s.calls))
  {
    var s := Exec(s0, schedule);
    CallsHoldResults(s0, schedule);
    if FailFast(s.mode) {
      FailFastBound(s0, schedule);
    }
    if IsMapSeq(s.mode) {
      YieldsAreAPrefix(s0, schedule);
    }
    if s.mode.collect && s.cons.End? {
      CollectedResult(s0, schedule, s.cons.raised);
    }
  }

  class Iteration {
    const mode: Mode
    const n: nat
    const len: nat
    var cancelled: bool
    var outside: bool
    var sem: nat
    var wg: nat
    var queue: seq<nat>
    var received: nat
    var closed: bool
    var done: bool
    var cell: Option<ElemError>
    var errs: seq<ElemError>
    var calls: seq<Call>
    var disp: DispPc
    var cons: ConsPc
    var panicked: bool
    var broke: bool
    var out: seq<Val>
    var fault: bool

    /** The protocol state the fields make up. */
    function View(): State
      reads this
    {
      State(mode, n, len, cancelled, outside, sem, wg, queue, received, closed, done,
            cell, errs, calls, disp, cons, panicked, broke, out, fault)
    }

    ghost predicate Valid()
      reads this
    {
      Inv(View())
    }

    /** An iteration over length elements; precancelled says that the governing context is done already. */
    constructor (mode: Mode, limit: nat, length: nat, precancelled: bool)
      requires limit >= 1
      ensures Init(View()) && Valid() && this.mode == mode && n == limit && len == length && cancelled == precancelled
    {
      this.mode, n, len, cancelled, outside := mode, limit, length, precancelled, precancelled;
      sem, wg, queue, received, closed, done, fault := 0, 0, [], 0, false, false, false;
      cell, errs, calls, out, panicked, broke := None, [], [], [], false, false;
      disp, cons := Top, if mode.ordered then Recv else Joining;
      new;
      InitEstablishes(View());
    }

    // ---- the dispatcher

    /** The range over the input: the next element, or the end. */
    method Next()
      requires Enabled(View(), Action.Next)
      modifies this`disp
      ensures View() == NextStep(old(View()))
    {
      disp := if |calls| == len then Closing else Poll1;
    }

    /** The select of stopped(), before and after the token. */
    method Poll()
      requires Enabled(View(), Action.Poll)
      modifies this`disp
      ensures View() == PollStep(old(View()))
    {
      var stop := done || cancelled;
      if disp.Poll1? {
        disp := if stop then Closing else if mode.collect then Acquiring else Load1;
      } else if stop {
        disp := GivingUp;
      } else {
        disp := if !mode.collect then Load2 else if mode.ordered then Pushing else Spawning;
      }
    }

    /** The read of the panic cell in stopped(). */
    method Load()
      requires Enabled(View(), Action.Load)
      modifies this`disp
      ensures View() == LoadStep(old(View()))
    {
      if disp.Load1? {
        disp := if cell.Some? then Closing else Acquiring;
      } else {
        disp := if cell.Some? then GivingUp else if mode.ordered then Pushing else Spawning;
      }
    }

    method TakeToken()
      requires Enabled(View(), Action.TakeToken)
      modifies this`sem, this`disp
      ensures View() == TakeTokenStep(old(View()))
    {
      sem, disp := sem + 1, Poll2;
    }

    /** The stop branches of the two selects. */
    method StopBranch(a: Action)
      requires Enabled(View(), a) && (a.StopWaiting? || a.StopPushing?)
      modifies this`disp
      ensures View() == Apply(old(View()), a)
    {
      disp := if a.StopWaiting? then Closing else GivingUp;
    }

    method PushSlot()
      requires Enabled(View(), Action.PushSlot)
      modifies this`queue, this`disp
      ensures View() == PushSlotStep(old(View()))
    {
      queue, disp := queue + [|calls|], Spawning;
    }

    method SpawnCall()
      requires Enabled(View(), Action.SpawnCall)
      modifies this`calls, this`wg, this`disp
      ensures View() == SpawnCallStep(old(View()))
    {
      if !mode.ordered {
        wg := wg + 1;
      }
      calls, disp := calls + [Call(Running, None)], Top;
    }

    method GiveUp()
      requires Enabled(View(), Action.GiveUp)
      modifies this`sem, this`disp
      ensures View() == GiveUpStep(old(View()))
    {
      sem, disp := sem - 1, Closing;
    }

    /** The deferred close(ordered). */
    method CloseOrdered()
      requires Enabled(View(), Action.CloseOrdered)
      modifies this`closed, this`fault, this`disp
      ensures View() == CloseOrderedStep(old(View()))
    {
      if mode.ordered && closed {
        fault := true;
      } else {
        closed, disp := mode.ordered, Left;
      }
    }

    // ---- one call

    /** fn ends; a panic goes to the shared cell unless errors are collected. */
    method Finish(i: nat, outcome: Outcome)
      requires Enabled(View(), Action.Finish(i, outcome))
      modifies this`calls, this`cell
      ensures View() == FinishStep(old(View()), i, outcome)
    {
      calls := calls[i := Call(Returned, Some(outcome))];
      if !mode.collect && outcome.Fail? && cell.None? {
        cell := Some(Keyed(i, outcome.failure));
      }
    }

    /** The section under mu: an error is appended with its index. */
    method Record(i: nat)
      requires Enabled(View(), Notice(i)) && mode.collect
      modifies this`calls, this`errs
      ensures View() == RecordStep(old(View()), i)
    {
      if calls[i].out.Some? && calls[i].out.value.Fail? {
        errs := errs + [Keyed(i, calls[i].out.value.failure)];
        calls := calls[i := calls[i].(pc := if mode.cancels then Logged else Noted)];
      } else {
        calls := calls[i := calls[i].(pc := Noted)];
      }
    }

    /** Reads the panic cell to decide whether to cancel. */
    method ReadCell(i: nat)
      requires Enabled(View(), Notice(i)) && !mode.collect
      modifies this`calls
      ensures View() == ReadCellStep(old(View()), i)
    {
      calls := calls[i := calls[i].(pc := if cell.Some? && mode.cancels then Logged else Noted)];
    }

    method CancelRun(i: nat)
      requires Enabled(View(), Action.CancelRun(i))
      modifies this`calls, this`cancelled
      ensures View() == CancelRunStep(old(View()), i)
    {
      cancelled, calls := true, calls[i := calls[i].(pc := Noted)];
    }

    method Release(i: nat)
      requires Enabled(View(), Action.Release(i))
      modifies this`calls, this`sem
      ensures View() == ReleaseStep(old(View()), i)
    {
      sem, calls := sem - 1, calls[i := calls[i].(pc := Freed)];
    }

    /** close(s.done), or wg.Done. */
    method Exit(i: nat)
      requires Enabled(View(), Action.Exit(i))
      modifies this`calls, this`wg, this`fault
      ensures View() == if mode.ordered then CloseSlotStep(old(View()), i) else WgDoneStep(old(View()), i)
    {
      if !mode.ordered {
        if wg == 0 {
          fault := true;
          return;
        }
        wg := wg - 1;
      }
      calls := calls[i := calls[i].(pc := Gone)];
    }

    // ---- the consumer

    method Receive()
      requires Enabled(View(), Action.Receive)
      modifies this`queue, this`received, this`cons
      ensures View() == ReceiveStep(old(View()))
    {
      if queue != [] {
        cons := Await(queue[0]);
        queue, received := queue[1..], received + 1;
      } else {
        cons := Ending;
      }
    }

    /** <-s.done has been answered. */
    method AwaitSlot()
      requires Enabled(View(), Action.AwaitSlot)
      modifies this`out, this`cons
      ensures View() == AwaitSlotStep(old(View()), old(cons.slot))
    {
      var i := cons.slot;
      if mode.collect {
        out, cons := out + [ValueOf(calls[i])], Recv;
      } else if panicked || broke {
        cons := Recv;
      } else {
        cons := Checking(i);
      }
    }

    method CheckPanic()
      requires Enabled(View(), Action.CheckPanic)
      modifies this`panicked, this`out, this`cons
      ensures View() == CheckPanicStep(old(View()), old(cons.slot))
    {
      var i := cons.slot;
      if cell.Some? {
        panicked, cons := true, CloseDone;
      } else {
        out, cons := out + [ValueOf(calls[i])], Yielding(i);
      }
    }

    /** The two places that close done; a second close is a runtime failure. */
    method Signal(a: Action)
      requires Enabled(View(), a) && (a.SignalDone? || a.SignalBreak?)
      modifies this`done, this`fault, this`cons
      ensures View() == Apply(old(View()), a)
    {
      if done {
        fault := true;
      } else {
        done, cons := true, if a.SignalDone? then Recv else BreakCancel;
      }
    }

    method EndYield(more: bool)
      requires Enabled(View(), Action.EndYield(more))
      modifies this`broke, this`cons
      ensures View() == EndYieldStep(old(View()), more)
    {
      if more {
        cons := Recv;
      } else {
        broke, cons := true, BreakClose;
      }
    }

    method CancelBreak()
      requires Enabled(View(), Action.CancelBreak)
      modifies this`cancelled, this`cons
      ensures View() == CancelBreakStep(old(View()))
    {
      cancelled, cons := cancelled || mode.cancels, Recv;
    }

    method Join()
      requires Enabled(View(), Action.Join)
      modifies this`cons
      ensures View() == Apply(old(View()), Action.Join)
    {
      cons := Ending;
    }

    /** Sorts the collected errors, re-panics if a panic was caught, and cancels. */
    method Conclude()
      requires Enabled(View(), Action.Conclude)
      modifies this`errs, this`cancelled, this`cons
      ensures View() == ConcludeStep(old(View()))
    {
      errs := SortedCopy(errs);
      cancelled := cancelled || mode.collect || mode.cancels;
      cons := End(if cell.Some? then Some(cell.value.val) else None);
    }

    method CancelOutside()
      requires Enabled(View(), Action.CancelOutside)
      modifies this`cancelled, this`outside
      ensures View() == Apply(old(View()), Action.CancelOutside)
    {
      cancelled, outside := true, true;
    }

    /** The atomic section that the scheduler has chosen keeps the invariant. */
    method Step(a: Action)
      requires Valid() && Enabled(View(), a)
      modifies this
      ensures Valid() && View() == Apply(old(View()), a)
    {
      StepKeeps(View(), a);
      Act(a);
    }

    method Act(a: Action)
      requires Enabled(View(), a)
      modifies this
      ensures View() == Apply(old(View()), a)
    {
      match a {
        case Next => Next();
        case Poll => Poll();
        case Load => Load();
        case TakeToken => TakeToken();
        case StopWaiting => StopBranch(a);
        case PushSlot => PushSlot();
        case StopPushing => StopBranch(a);
        case SpawnCall => SpawnCall();
        case GiveUp => GiveUp();
        case CloseOrdered => CloseOrdered();
        case Finish(i, outcome) => Finish(i, outcome);
        case Notice(i) => if mode.collect { Record(i); } else { ReadCell(i); }
        case CancelRun(i) => CancelRun(i);
        case Release(i) => Release(i);
        case Exit(i) => Exit(i);
        case Receive => Receive();
        case AwaitSlot => AwaitSlot();
        case CheckPanic => CheckPanic();
        case SignalDone => Signal(a);
        case EndYield(more) => EndYield(more);
        case SignalBreak => Signal(a);
        case CancelBreak => CancelBreak();
        case Join => Join();
        case Conclude => Conclude();
        case CancelOutside => CancelOutside();
      }
    }

    /**
     * Drives the object with an arbitrary scheduler's choices, skipping those that are not
     * enabled: what the object has done is a run of the protocol, so the elements started and
     * the results and errors handed out are as proved of runs.
     */
    method Drive(choices: seq<Action>) returns (ghost performed: seq<Action>)
      requires Init(View())
      modifies this
      ensures Valid() && Feasible(old(View()), performed) && View() == Exec(old(View()), performed)
      ensures FailFast(mode) ==> |calls| <= n + Sum(Succeeded, calls)
      ensures forall i :: 0 <= i < |calls| ==> calls[i].out == Result(performed, i)
      ensures IsMapSeq(mode) ==> forall i :: 0 <= i < |out| ==> Result(performed, i) == Some(Ok(out[i]))
      ensures mode.collect && cons.End? ==> errs == Failures(calls)
    {
      InitEstablishes(View());
      performed := [];
      for i := 0 to |choices|
        invariant Valid() && Feasible(old(View()), performed) && View() == Exec(old(View()), performed)
      {
        if Enabled(View(), choices[i]) {
          ExecOneMore(old(View()), performed, choices[i]);
          performed := performed + [choices[i]];
          Step(choices[i]);
        }
      }
      MeetsTheorems(old(View()), performed);
    }
  }
}
