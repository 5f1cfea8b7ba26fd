/** What producers, callbacks and callers did in a run, and that the stream keeps account of it. */
module StreamHistory {
  import opened Options
  import opened StreamProtocol
  import opened StreamFold
  import opened StreamInvariant

  // ---- what each party leaves alone

  /** Wait leaves the calls, the slots and the dispatcher alone. */
  ghost predicate OnlyWaitMoves(s: State, t: State) {
    && t.subs == s.subs && t.slots == s.slots && t.disp == s.disp && t.received == s.received
    && t.trace == s.trace && t.ends == s.ends && (s.waited ==> t.waited)
  }

  lemma CallWaitMoves(s: State)
    requires s.waitCalls > 0
    ensures OnlyWaitMoves(s, CallWaitStep(s))
  {
  }

  lemma CloseMoves(s: State)
    requires s.wait.Joined?
    ensures OnlyWaitMoves(s, CloseSubmittedStep(s))
  {
  }

  lemma WaitMoves(s: State, a: Action)
    requires Enabled(s, a) && (a.CallWait? || a.CloseSubmitted? || LateWait(a))
    ensures OnlyWaitMoves(s, Apply(s, a))
  {
    match a
    case CallWait => CallWaitMoves(s);
    case CloseSubmitted => CloseMoves(s);
    case JoinSubmitters => assert OnlyWaitMoves(s, s.(wait := Joined));
    case JoinDispatcher => assert OnlyWaitMoves(s, s.(wait := Stopped));
    case CancelContext => assert OnlyWaitMoves(s, s.(cancelled := true, wait := Raising));
    case Raise => assert OnlyWaitMoves(s, s.(wait := Ending(Raised(s.producerPanic, s.dispatchPanic))));
    case JoinProducers => assert OnlyWaitMoves(s, s.(wait := Finished(s.wait.raised)));
  }

  /** The dispatcher leaves the calls and the slots alone. */
  ghost predicate OnlyDispatcherMoves(s: State, t: State) {
    t.subs == s.subs && t.slots == s.slots && t.waited == s.waited
  }

  lemma DispatcherMoves(s: State, a: Action)
    requires Enabled(s, a) && DispatcherStep(a)
    ensures OnlyDispatcherMoves(s, Apply(s, a))
  {
    match a
    case Receive => assert OnlyDispatcherMoves(s, ReceiveStep(s));
    case Take => TakeMoves(s, s.disp.slot);
    case EndCallback(end) => assert OnlyDispatcherMoves(s, EndCallbackStep(s, s.disp.slot, end));
  }

  lemma TakeMoves(s: State, i: nat)
    requires Reported(s, i)
    ensures OnlyDispatcherMoves(s, TakeStep(s, i)) && OnlyDispatcherMoves(s, DrainTakeStep(s, i))
  {
  }

  // ---- what the producers returned

  /** What the producer of slot i ended with in the run. */
  function Produced(schedule: seq<Action>, i: nat): Option<Cop> {
    if schedule == [] then None
    else if schedule[0].Produce? && schedule[0].i == i then Some(schedule[0].cop)
    else Produced(schedule[1..], i)
  }

  /** What the producers of the first n slots ended with. */
  function ProducedBy(schedule: seq<Action>, n: nat): seq<Cop> {
    seq(n, i requires 0 <= i < n => if Produced(schedule, i).Some? then Produced(schedule, i).value else NilCallback)
  }

  /** Only the producer of slot i writes it. */
  ghost predicate Writes(s: State, a: Action, t: State, i: nat)
    requires i < |t.slots|
  {
    t.slots[i].cop ==
    if a.Produce? && a.i == i then Some(a.cop) else if i < |s.slots| then s.slots[i].cop else None
  }

  lemma CallerWrites(s: State, a: Action, i: nat)
    requires Enabled(s, a) && CallerStep(a) && i < |s.slots|
    ensures |Apply(s, a).slots| == |s.slots| && Apply(s, a).slots[i].cop == s.slots[i].cop
  {
    match a
    case Admit(k) => assert AdmitStep(s, k).slots == s.slots;
    case Spawn(k) => assert SpawnStep(s, k).slots[i].cop == s.slots[i].cop;
    case Leave(k) => assert LeaveStep(s, k).slots == s.slots;
    case _ =>
  }

  /** A slot is empty when it is sent. */
  lemma SendWrites(s: State, k: nat, i: nat)
    requires At(s, k, Holding) && i < |SendStep(s, k).slots|
    ensures |s.slots| <= |SendStep(s, k).slots| && Writes(s, Send(k), SendStep(s, k), i)
  {
  }

  lemma ProducerWrites(s: State, a: Action, i: nat)
    requires Enabled(s, a) && (ProducerStep(a) || a.Send?) && i < |Apply(s, a).slots|
    ensures |s.slots| <= |Apply(s, a).slots| && Writes(s, a, Apply(s, a), i)
  {
    match a
    case Send(k) => SendWrites(s, k, i);
    case Produce(j, cop) => assert Writes(s, a, ProduceStep(s, j, cop), i);
    case FreeToken(j) => assert Writes(s, a, FreeTokenStep(s, j), i);
    case Retire(j) => assert Writes(s, a, RetireStep(s, j), i);
  }

  lemma StepWrites(s: State, a: Action, i: nat)
    requires Enabled(s, a) && i < |Apply(s, a).slots|
    ensures |s.slots| <= |Apply(s, a).slots| && Writes(s, a, Apply(s, a), i)
  {
    if CallerStep(a) {
      CallerKeepsLength(s, a);
      CallerWrites(s, a, i);
    } else if ProducerStep(a) || a.Send? {
      ProducerWrites(s, a, i);
    } else if DispatcherStep(a) {
      DispatcherMoves(s, a);
    } else {
      WaitMoves(s, a);
    }
  }

  lemma CallerKeepsLength(s: State, a: Action)
    requires Enabled(s, a) && CallerStep(a)
    ensures |Apply(s, a).slots| == |s.slots|
  {
    match a
    case Admit(k) => assert AdmitStep(s, k).slots == s.slots;
    case Leave(k) => assert LeaveStep(s, k).slots == s.slots;
    case _ =>
  }

  /** A slot keeps what it holds, and otherwise gets what its producer ends with. */
  lemma {:induction false} RunWrites(s: State, schedule: seq<Action>, i: nat)
    requires Inv(s) && Feasible(s, schedule) && i < |Exec(s, schedule).slots|
    ensures Exec(s, schedule).slots[i].cop ==
            if i < |s.slots| && s.slots[i].cop.Some? then s.slots[i].cop else Produced(schedule, i)
    decreases |schedule|
  {
    if schedule == [] {
    } else {
      var a := schedule[0];
      StepKeeps(s, a);
      RunWrites(Apply(s, a), schedule[1..], i);
      if i < |Apply(s, a).slots| {
        StepWrites(s, a, i);
      } else {
        SlotsOnlyGrow(s, a);
      }
    }
  }

  lemma SlotsOnlyGrow(s: State, a: Action)
    requires Enabled(s, a)
    ensures |s.slots| <= |Apply(s, a).slots|
    ensures a.Produce? ==> a.i < |s.slots|
  {
    if CallerStep(a) {
      CallerKeepsLength(s, a);
    } else if DispatcherStep(a) {
      DispatcherMoves(s, a);
    } else if a.CallWait? || a.CloseSubmitted? || LateWait(a) {
      WaitMoves(s, a);
    }
  }

  lemma FirstIsKept(s: State, schedule: seq<Action>)
    requires Inv(s) && Feasible(s, schedule) && schedule != [] && schedule[0].Produce?
    ensures var i := schedule[0].i;
      && i < |s.slots| && s.slots[i].cop == None
      && i < |Exec(s, schedule).slots| && Exec(s, schedule).slots[i].cop == Some(schedule[0].cop)
  {
    var a := schedule[0];
    StepKeeps(s, a);
    SlotsOnlyGrow(s, a);
    SlotsStay(Apply(s, a), schedule[1..]);
    RunWrites(Apply(s, a), schedule[1..], a.i);
    StepWrites(s, a, a.i);
  }

  /** What a producer ends with is what its slot holds for good, unchanged. */
  lemma {:induction false} ProduceIsKept(s: State, schedule: seq<Action>, k: nat)
    requires Inv(s) && Feasible(s, schedule) && k < |schedule| && schedule[k].Produce?
    ensures var i := schedule[k].i;
      && i < |Exec(s, schedule).slots| && Exec(s, schedule).slots[i].cop == Some(schedule[k].cop)
      && (i < |s.slots| ==> s.slots[i].cop == None) && Produced(schedule, i) == Some(schedule[k].cop)
    decreases |schedule|
  {
    var a := schedule[0];
    var t := Apply(s, a);
    var i := schedule[k].i;
    StepKeeps(s, a);
    SlotsOnlyGrow(s, a);
    if k == 0 {
      FirstIsKept(s, schedule);
    } else {
      ProduceIsKept(t, schedule[1..], k - 1);
      if i < |t.slots| {
        StepWrites(s, a, i);
      }
    }
  }

  lemma {:induction false} SlotsStay(s: State, schedule: seq<Action>)
    requires Feasible(s, schedule)
    ensures |s.slots| <= |Exec(s, schedule).slots|
    decreases |schedule|
  {
    if schedule == [] {
    } else {
      SlotsOnlyGrow(s, schedule[0]);
      SlotsStay(Apply(s, schedule[0]), schedule[1..]);
    }
  }

  // ---- how the callbacks ended

  /** How the callbacks of the run ended, in the order in which they did. */
  function CallbackEnds(schedule: seq<Action>): seq<CbEnd> {
    if schedule == [] then []
    else (if schedule[0].EndCallback? then [schedule[0].end] else []) + CallbackEnds(schedule[1..])
  }

  /** The callbacks begun that have ended. */
  function Ended(s: State): nat {
    if s.disp.Calling? && |s.trace| > 0 then |s.trace| - 1 else |s.trace|
  }

  /** How they ended, in the order in which they were begun. */
  function EndsSoFar(s: State): seq<CbEnd> {
    seq(Ended(s), k requires 0 <= k < Ended(s) => EndOf(s.ends, s.trace[k]))
  }

  lemma CallingIsLast(s: State)
    requires Inv(s) && s.disp.Calling?
    ensures |s.trace| > 0 && s.trace[|s.trace| - 1] == s.disp.slot
    ensures forall k :: 0 <= k < |s.trace| - 1 ==> s.trace[k] != s.disp.slot
  {
    var v := Fold(Outcomes(s, Handled(s)), s.ends);
    FoldBasics(Outcomes(s, Handled(s)), s.ends);
    assert s.trace == v.trace + [s.disp.slot];
    forall k | 0 <= k < |s.trace| - 1 ensures s.trace[k] != s.disp.slot {
      assert v.trace[k] in v.trace;
    }
  }

  lemma EndCallbackRecords(s: State, end: CbEnd)
    requires Inv(s) && s.disp.Calling?
    ensures EndsSoFar(EndCallbackStep(s, s.disp.slot, end)) == EndsSoFar(s) + [end]
  {
    CallingIsLast(s);
    var t := EndCallbackStep(s, s.disp.slot, end);
    assert t.trace == s.trace && t.ends == s.ends[s.disp.slot := end];
  }

  lemma TakeRecords(s: State)
    requires Enabled(s, Take)
    ensures EndsSoFar(Apply(s, Take)) == EndsSoFar(s)
  {
    if s.disp.Awaiting? {
      BeginRecords(s, s.disp.slot);
    } else {
      assert DrainTakeStep(s, s.disp.slot).ends == s.ends && DrainTakeStep(s, s.disp.slot).trace == s.trace;
    }
  }

  /** A callback that begins has not ended. */
  lemma BeginRecords(s: State, i: nat)
    requires Reported(s, i) && !s.disp.Calling?
    ensures EndsSoFar(TakeStep(s, i)) == EndsSoFar(s)
  {
    assert TakeStep(s, i).ends == s.ends;
  }

  lemma CallerKeepsTrace(s: State, a: Action)
    requires Phases(s) && Enabled(s, a) && (CallerStep(a) || ProducerStep(a) || a.Send?)
    ensures var t := Apply(s, a); t.trace == s.trace && t.ends == s.ends && t.disp.Calling? == s.disp.Calling?
  {
    match a
    case Send(k) => assert SendStep(s, k).trace == s.trace;
    case Start(k) => assert StartStep(s, k).trace == s.trace;
    case _ =>
  }

  lemma StepRecords(s: State, a: Action)
    requires Inv(s) && Enabled(s, a)
    ensures EndsSoFar(Apply(s, a)) == EndsSoFar(s) + if a.EndCallback? then [a.end] else []
  {
    if a.EndCallback? {
      EndCallbackRecords(s, a.end);
    } else if a.Take? {
      TakeRecords(s);
    } else if CallerStep(a) || ProducerStep(a) || a.Send? {
      CallerKeepsTrace(s, a);
    } else if a.Receive? {
      assert ReceiveStep(s).trace == s.trace && ReceiveStep(s).ends == s.ends;
    } else {
      WaitMoves(s, a);
    }
  }

  /** The k-th callback begun ended as the k-th end of the run says. */
  lemma {:induction false} RunRecords(s: State, schedule: seq<Action>)
    requires Inv(s) && Feasible(s, schedule)
    ensures EndsSoFar(Exec(s, schedule)) == EndsSoFar(s) + CallbackEnds(schedule)
    decreases |schedule|
  {
    if schedule == [] {
    } else {
      var a := schedule[0];
      StepRecords(s, a);
      StepKeeps(s, a);
      RunRecords(Apply(s, a), schedule[1..]);
      Concat(EndsSoFar(s), if a.EndCallback? then [a.end] else [], CallbackEnds(schedule[1..]));
    }
  }

  lemma Concat<T>(a: seq<T>, b: seq<T>, c: seq<T>)
    ensures (a + b) + c == a + (b + c)
  {
  }

  // ---- who is refused

  /** A refusal is the answer to a Go after Wait. */
  ghost predicate RefusalsOk(s: State) {
    forall k :: 0 <= k < |s.subs| && s.subs[k].pc.Refused? ==> s.waited
  }

  lemma CallerMoveRefuses(s: State, t: State, k: nat)
    requires RefusalsOk(s) && k < |s.subs| == |t.subs| && t.subs == s.subs[k := t.subs[k]] && t.waited == s.waited
    requires t.subs[k].pc.Refused? ==> s.waited || s.subs[k].pc.Refused?
    ensures RefusalsOk(t)
  {
  }

  lemma CallerRefuses(s: State, a: Action)
    requires RefusalsOk(s) && Enabled(s, a) && (CallerStep(a) || a.Send?)
    ensures RefusalsOk(Apply(s, a))
  {
    match a
    case Admit(k) => CallerMoveRefuses(s, AdmitStep(s, k), k);
    case CancelCaller(k) => CallerMoveRefuses(s, CancelCallerStep(s, k), k);
    case Start(k) => CallerMoveRefuses(s, StartStep(s, k), k);
    case Acquire(k) => CallerMoveRefuses(s, AcquireStep(s, k), k);
    case Bail(k) => CallerMoveRefuses(s, BailStep(s, k), k);
    case Spawn(k) => CallerMoveRefuses(s, SpawnStep(s, k), k);
    case Leave(k) => CallerMoveRefuses(s, LeaveStep(s, k), k);
    case Send(k) => CallerMoveRefuses(s, SendStep(s, k), k);
  }

  lemma ProducerMoves(s: State, a: Action)
    requires Enabled(s, a) && ProducerStep(a)
    ensures Apply(s, a).subs == s.subs && Apply(s, a).waited == s.waited
  {
    match a
    case Produce(i, cop) => assert ProduceStep(s, i, cop).subs == s.subs;
    case FreeToken(i) => assert FreeTokenStep(s, i).subs == s.subs;
    case Retire(i) => assert RetireStep(s, i).subs == s.subs;
  }

  lemma StepRefuses(s: State, a: Action)
    requires RefusalsOk(s) && Enabled(s, a)
    ensures RefusalsOk(Apply(s, a))
  {
    if CallerStep(a) || a.Send? {
      CallerRefuses(s, a);
    } else if ProducerStep(a) {
      ProducerMoves(s, a);
    } else if DispatcherStep(a) {
      DispatcherMoves(s, a);
    } else {
      WaitMoves(s, a);
    }
  }

  lemma {:induction false} RunRefuses(s: State, schedule: seq<Action>)
    requires RefusalsOk(s) && Feasible(s, schedule)
    ensures RefusalsOk(Exec(s, schedule))
    decreases |schedule|
  {
    if schedule == [] {
    } else {
      StepRefuses(s, schedule[0]);
      RunRefuses(Apply(s, schedule[0]), schedule[1..]);
    }
  }

  /** No call is refused, in any reachable state, unless Wait has been called. */
  lemma RefusedOnlyAfterWait(s0: State, schedule: seq<Action>, k: nat)
    requires Init(s0) && Feasible(s0, schedule)
    requires k < |Exec(s0, schedule).subs| && Exec(s0, schedule).subs[k].pc.Refused?
    ensures Exec(s0, schedule).waited
  {
    RunRefuses(s0, schedule);
  }

  /** A call that has not been admitted when Wait is called. */
  predicate TooLate(s: State, k: nat) {
    s.waited && k < |s.subs| && (s.subs[k].pc.Idle? || s.subs[k].pc.Refused?)
  }

  lemma CallerStaysTooLate(s: State, a: Action, k: nat)
    requires TooLate(s, k) && Enabled(s, a) && (CallerStep(a) || a.Send?)
    ensures TooLate(Apply(s, a), k)
  {
    match a
    case Admit(j) => assert TooLate(AdmitStep(s, j), k);
    case Send(j) => assert TooLate(SendStep(s, j), k);
    case Spawn(j) => assert TooLate(SpawnStep(s, j), k);
    case Leave(j) => assert TooLate(LeaveStep(s, j), k);
    case _ =>
  }

  lemma StaysTooLate(s: State, a: Action, k: nat)
    requires TooLate(s, k) && Enabled(s, a)
    ensures TooLate(Apply(s, a), k)
  {
    if CallerStep(a) || a.Send? {
      CallerStaysTooLate(s, a, k);
    } else if ProducerStep(a) {
      ProducerMoves(s, a);
    } else if DispatcherStep(a) {
      DispatcherMoves(s, a);
    } else {
      WaitMoves(s, a);
    }
  }

  /** And after Wait has been called no call is admitted: it gets no slot in any run. */
  lemma {:induction false} NoneAdmittedAfterWait(s: State, schedule: seq<Action>, k: nat)
    requires TooLate(s, k) && Feasible(s, schedule)
    ensures TooLate(Exec(s, schedule), k) && SlotOf(Exec(s, schedule).subs[k]) == None
    decreases |schedule|
  {
    if schedule == [] {
    } else {
      StaysTooLate(s, schedule[0], k);
      NoneAdmittedAfterWait(Apply(s, schedule[0]), schedule[1..], k);
    }
  }
}
