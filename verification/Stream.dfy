/**
 * The Stream object: its fields are updated in place, one atomic section at a time, by
 * the goroutines that share it.  Every method is proved to take exactly the step of the
 * protocol, so all that is proved about runs holds of the object.
 */
module Streams {
  import opened Options
  import opened StreamProtocol
  import opened StreamFold
  import opened StreamInvariant
  import opened StreamHistory
  import opened StreamTheorems

  class Stream {
    const n: nat
    var sem: nat
    var submitWg: nat
    var producerWg: nat
    var waited: bool
    var waitCalls: nat
    var launched: bool
    var closed: bool
    var cancelled: bool
    var submitted: seq<nat>
    var received: nat
    var subs: seq<Submitter>
    var slots: seq<Slot>
    var disp: DispPc
    var wait: WaitPc
    var producerPanic: Option<Panic>
    var dispatchPanic: Option<Panic>
    var trace: seq<nat>
    var ends: map<nat, CbEnd>
    var fault: bool

    /** The protocol state the fields make up. */
    function View(): State
      reads this
    {
      State(n, sem, submitWg, producerWg, waited, waitCalls, launched, closed, cancelled, submitted, received,
            subs, slots, disp, wait, producerPanic, dispatchPanic, trace, ends, fault)
    }

    ghost predicate Valid()
      reads this
    {
      Inv(View())
    }

    /** New with a limit: own[k] says whether the k-th caller will use Go. */
    constructor (limit: nat, own: seq<bool>, waits: nat)
      requires limit >= 1
      ensures Init(View()) && Valid() && n == limit && waitCalls == waits && |subs| == |own|
    {
      n, sem, submitWg, producerWg := limit, 0, 0, 0;
      waited, waitCalls, launched, closed, cancelled, fault := false, waits, false, false, false, false;
      submitted, received, slots, trace, ends := [], 0, [], [], map[];
      subs := seq(|own|, k requires 0 <= k < |own| => Submitter(Idle, own[k], false));
      disp, wait, producerPanic, dispatchPanic := Off, NotCalled, None, None;
      new;
      InitEstablishes(View());
    }

    // ---- GoCtx, one atomic section at a time

    /** The admission section under cfgMu. */
    method Admit(k: nat)
      requires Enabled(View(), Action.Admit(k))
      modifies this
      ensures View() == AdmitStep(old(View()), k)
    {
      if waited {
        subs := subs[k := subs[k].(pc := Refused)];
      } else {
        submitWg := submitWg + 1;
        subs := subs[k := subs[k].(pc := Admitted)];
      }
    }

    method CancelCaller(k: nat)
      requires Enabled(View(), Action.CancelCaller(k))
      modifies this`subs
      ensures View() == CancelCallerStep(old(View()), k)
    {
      subs := subs[k := subs[k].(ctxDone := true)];
    }

    /** once.Do(start). */
    method Start(k: nat)
      requires Enabled(View(), Action.Start(k))
      modifies this
      ensures View() == StartStep(old(View()), k)
    {
      if !launched {
        launched := true;
        disp := Ranging;
      }
      subs := subs[k := subs[k].(pc := Selecting)];
    }

    method Acquire(k: nat)
      requires Enabled(View(), Action.Acquire(k))
      modifies this
      ensures View() == AcquireStep(old(View()), k)
    {
      sem := sem + 1;
      subs := subs[k := subs[k].(pc := Holding)];
    }

    method Bail(k: nat)
      requires Enabled(View(), Action.Bail(k))
      modifies this`subs
      ensures View() == BailStep(old(View()), k)
    {
      subs := subs[k := subs[k].(pc := Leaving(None))];
    }

    /** A send on a closed channel is a runtime failure. */
    method Send(k: nat)
      requires Enabled(View(), Action.Send(k))
      modifies this
      ensures View() == SendStep(old(View()), k)
    {
      if closed {
        fault := true;
      } else {
        submitted := submitted + [|slots|];
        subs := subs[k := subs[k].(pc := Sent(|slots|))];
        slots := slots + [Slot(k, Unborn, None)];
      }
    }

    method Spawn(k: nat)
      requires Enabled(View(), Action.Spawn(k))
      modifies this
      ensures View() == SpawnStep(old(View()), k)
    {
      var i := subs[k].pc.slot;
      producerWg := producerWg + 1;
      slots := slots[i := slots[i].(prod := Running)];
      subs := subs[k := subs[k].(pc := Leaving(Some(i)))];
    }

    /** The deferred submitWg.Done. */
    method Leave(k: nat)
      requires Enabled(View(), Action.Leave(k))
      modifies this
      ensures View() == LeaveStep(old(View()), k)
    {
      if submitWg == 0 {
        fault := true;
      } else {
        submitWg := submitWg - 1;
        subs := subs[k := subs[k].(pc := Returned(subs[k].pc.sent))];
      }
    }

    // ---- a producer goroutine

    /** The producer's function ends and its outcome goes into the slot. */
    method Produce(i: nat, cop: Cop)
      requires Enabled(View(), Action.Produce(i, cop))
      modifies this`slots
      ensures View() == ProduceStep(old(View()), i, cop)
    {
      slots := slots[i := slots[i].(prod := Written, cop := Some(cop))];
    }

    method FreeToken(i: nat)
      requires Enabled(View(), Action.FreeToken(i))
      modifies this
      ensures View() == FreeTokenStep(old(View()), i)
    {
      sem := sem - 1;
      slots := slots[i := slots[i].(prod := Freed)];
    }

    method Retire(i: nat)
      requires Enabled(View(), Action.Retire(i))
      modifies this
      ensures View() == RetireStep(old(View()), i)
    {
      if producerWg == 0 {
        fault := true;
      } else {
        producerWg := producerWg - 1;
        slots := slots[i := slots[i].(prod := Gone)];
      }
    }

    // ---- the dispatcher's two loops over submitted

    /** The range takes the next slot, or finds submitted closed and empty. */
    method Receive()
      requires Enabled(View(), Action.Receive)
      modifies this
      ensures View() == ReceiveStep(old(View()))
    {
      if submitted != [] {
        disp := if disp.Ranging? then Awaiting(submitted[0]) else DrainAwaiting(submitted[0]);
        submitted := submitted[1..];
        received := received + 1;
      } else {
        disp := if disp.Ranging? then Draining else Exited;
      }
    }

    /** Reads the awaited slot, in either loop. */
    method Take()
      requires Enabled(View(), Action.Take)
      modifies this
      ensures View() == Apply(old(View()), Action.Take)
    {
      var i := disp.slot;
      var cop := slots[i].cop.value;
      if cop.ProducerPanic? {
        producerPanic := FirstOf(producerPanic, cop.panic);
        disp := Draining;
      } else if disp.DrainAwaiting? {
        disp := Draining;
      } else if cop.Callback? {
        trace := trace + [i];
        disp := Calling(i);
      } else {
        disp := Ranging;
      }
    }

    method EndCallback(end: CbEnd)
      requires Enabled(View(), Action.EndCallback(end))
      modifies this
      ensures View() == EndCallbackStep(old(View()), old(disp.slot), end)
    {
      ends := ends[disp.slot := end];
      if end.CbPanicked? {
        dispatchPanic := FirstOf(dispatchPanic, end.panic);
        disp := Draining;
      } else {
        disp := Ranging;
      }
    }

    // ---- Wait

    /** The section under cfgMu: only the first call goes on. */
    method CallWait()
      requires Enabled(View(), Action.CallWait)
      modifies this
      ensures View() == CallWaitStep(old(View()))
    {
      waitCalls := waitCalls - 1;
      if !waited {
        waited := true;
        wait := Flipped;
      }
    }

    /** Cancels at once when nothing was ever submitted, else closes submitted. */
    method CloseSubmitted()
      requires Enabled(View(), Action.CloseSubmitted)
      modifies this
      ensures View() == CloseSubmittedStep(old(View()))
    {
      if !launched {
        cancelled := true;
        wait := Ending(None);
      } else if closed {
        fault := true;
      } else {
        closed := true;
        wait := Closing;
      }
    }

    /** The other sections of Wait: its three joins, the cancel and the raise. */
    method LateWaitStep(a: Action)
      requires Enabled(View(), a) && LateWait(a)
      modifies this`wait, this`cancelled
      ensures View() == Apply(old(View()), a)
    {
      match a {
        case JoinSubmitters => wait := Joined;
        case JoinDispatcher => wait := Stopped;
        case CancelContext => cancelled, wait := true, Raising;
        case Raise => wait := Ending(Raised(producerPanic, dispatchPanic));
        case JoinProducers => wait := Finished(wait.raised);
      }
    }

    /** The atomic section that the scheduler has chosen keeps the invariant. */
    method Step(a: Action)
      requires Valid() && Enabled(View(), a)
      modifies this
      ensures Valid() && View() == Apply(old(View()), a)
    {
      StepKeeps(View(), a);
      Act(a);
    }

    method Act(a: Action)
      requires Enabled(View(), a)
      modifies this
      ensures View() == Apply(old(View()), a)
    {
      match a {
        case Admit(k) => Admit(k);
        case CancelCaller(k) => CancelCaller(k);
        case Start(k) => Start(k);
        case Acquire(k) => Acquire(k);
        case Bail(k) => Bail(k);
        case Send(k) => Send(k);
        case Spawn(k) => Spawn(k);
        case Leave(k) => Leave(k);
        case Produce(i, cop) => Produce(i, cop);
        case FreeToken(i) => FreeToken(i);
        case Retire(i) => Retire(i);
        case Receive => Receive();
        case Take => Take();
        case EndCallback(end) => EndCallback(end);
        case CallWait => CallWait();
        case CloseSubmitted => CloseSubmitted();
        case _ => LateWaitStep(a);
      }
    }

    /**
     * Drives the object with an arbitrary scheduler's choices, skipping those that are not
     * enabled: what the object has done is a run of the protocol, and a Wait that has ended
     * has met the sequential fold.
     */
    method Drive(choices: seq<Action>) returns (ghost performed: seq<Action>)
      requires Valid()
      modifies this
      ensures Valid() && Feasible(old(View()), performed) && View() == Exec(old(View()), performed)
      ensures wait.Finished? ==>
        && AllReported(View(), |slots|)
        && var v := Fold(Outcomes(View(), |slots|), ends);
        && trace == v.trace && wait.raised == Raised(v.producer, v.callback)
      ensures old(Init(View())) ==>
        && (forall i :: 0 <= i < |slots| ==> slots[i].cop == Produced(performed, i))
        && EndsSoFar(View()) == CallbackEnds(performed)
    {
      performed := [];
      for i := 0 to |choices|
        invariant Valid() && Feasible(old(View()), performed) && View() == Exec(old(View()), performed)
      {
        if Enabled(View(), choices[i]) {
          ExecOneMore(old(View()), performed, choices[i]);
          performed := performed + [choices[i]];
          Step(choices[i]);
        }
      }
      if wait.Finished? {
        QuietAfterWait(View());
      }
      if old(Init(View())) {
        SlotsHoldOutcomes(old(View()), performed);
      }
    }
  }
}
