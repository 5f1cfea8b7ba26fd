/** What every step of an iteration keeps. */
module IterInvariant {
  import opened Counting
  import opened Options
  import opened Sorting
  import opened IterProtocol

  /** A call holds its token of sem until it releases it. */
  function CallToken(c: Call): nat {
    if c.pc.Freed? || c.pc.Gone? then 0 else 1
  }

  /** A call counts in forEach's wait group until it is gone. */
  function LiveCall(c: Call): nat {
    if c.pc.Gone? then 0 else 1
  }

  /** A call that has succeeded. */
  function Succeeded(c: Call): nat {
    if c.out.Some? && c.out.value.Ok? then 1 else 0
  }

  /** The token the dispatcher holds for the element in hand. */
  function DispToken(d: DispPc): nat {
    if d.Poll2? || d.Load2? || d.Pushing? || d.Spawning? || d.GivingUp? then 1 else 0
  }

  ghost predicate Counts(s: State) {
    && s.n >= 1 && !s.fault
    && s.sem == Sum(CallToken, s.calls) + DispToken(s.disp) && s.sem <= s.n
    && s.wg == (if s.mode.ordered then 0 else Sum(LiveCall, s.calls))
    && |s.queue| <= s.n
  }

  /** What is known of one call; failing marks the panic cell as set. */
  ghost predicate CallOk(c: Call, m: Mode, failing: bool, cancelled: bool) {
    && (c.pc.Running? <==> c.out.None?)
    && (c.pc.Logged? ==> m.cancels && if m.collect then Failed(c) else failing)
    && (!m.collect && Failed(c) ==> failing)
    && (m.cancels && Failed(c) && (c.pc.Noted? || c.pc.Freed? || c.pc.Gone?) ==> cancelled)
  }

  ghost predicate CallsOk(s: State) {
    && (forall i :: 0 <= i < |s.calls| ==> CallOk(s.calls[i], s.mode, s.cell.Some?, s.cancelled))
    && (s.cell.Some? ==>
          && !s.mode.collect && s.cell.value.key < |s.calls|
          && s.calls[s.cell.value.key].out == Some(Fail(s.cell.value.val)))
  }

  /** The error e has been appended to errs. */
  ghost predicate Recorded(s: State, e: ElemError) {
    && s.mode.collect && e.key < |s.calls|
    && s.calls[e.key].out == Some(Fail(e.val))
    && !s.calls[e.key].pc.Running? && !s.calls[e.key].pc.Returned?
  }

  /** errs holds each recorded error exactly once, and nothing else. */
  ghost predicate ErrsOk(s: State) {
    forall e: ElemError :: multiset(s.errs)[e] == if Recorded(s, e) then 1 else 0
  }

  /** Slots ever sent into ordered. */
  function Pushed(s: State): nat {
    |s.calls| + if s.disp.Spawning? then 1 else 0
  }

  predicate Busy(d: DispPc) {
    d.Poll1? || d.Load1? || d.Acquiring? || d.Poll2? || d.Load2? || d.Pushing? || d.Spawning?
  }

  ghost predicate ChannelOk(s: State) {
    && (s.mode.ordered ==> s.received + |s.queue| == Pushed(s))
    && (!s.mode.ordered ==> s.received == 0 && s.queue == [])
    && (forall j :: 0 <= j < |s.queue| ==> s.queue[j] == s.received + j)
    && (s.closed <==> s.mode.ordered && s.disp.Left?)
    && |s.calls| <= s.len && (Busy(s.disp) ==> |s.calls| < s.len)
    && (s.disp.Pushing? ==> s.mode.ordered) && (s.disp.Load1? || s.disp.Load2? ==> !s.mode.collect)
  }

  /** The slots the consumer has seen done. */
  function Handled(s: State): nat {
    if s.cons.Await? && s.received > 0 then s.received - 1 else s.received
  }

  /** Every slot the consumer has seen done belongs to a call that is gone. */
  ghost predicate HandledGone(s: State) {
    && Handled(s) <= |s.calls|
    && forall i :: 0 <= i < Handled(s) ==> s.calls[i].pc.Gone?
  }

  ghost predicate ConsOk(s: State) {
    && (if s.mode.ordered then !s.cons.Joining? else s.cons.Joining? || s.cons.Ending? || s.cons.End?)
    && (s.mode.collect || !s.mode.ordered ==> !s.panicked && !s.broke && !s.cons.Checking? && !s.cons.Yielding?)
    && (s.cons.Await? || s.cons.Checking? || s.cons.Yielding? ==> s.received == s.cons.slot + 1)
    && (s.cons.Checking? || s.cons.Yielding? ==> !s.panicked && !s.broke)
    && (s.done <==> (s.panicked && !s.cons.CloseDone?) || (s.broke && !s.cons.BreakClose?))
    && !(s.panicked && s.broke)
    && (s.cons.CloseDone? ==> s.panicked) && (s.cons.BreakClose? || s.cons.BreakCancel? ==> s.broke)
    && (s.panicked ==> s.cell.Some?)
    && (s.cons.Ending? || s.cons.End? ==> s.disp.Left? && s.queue == [] && s.wg == 0)
    && (s.cons.End? ==> s.cons.raised == if s.cell.Some? then Some(s.cell.value.val) else None)
  }

  /** How many values have been handed out when nothing has stopped the consumer. */
  function Passed(s: State): nat {
    if (s.cons.Await? || (s.cons.Checking? && !s.mode.collect)) && s.received > 0 then s.received - 1 else s.received
  }

  /** out is a prefix of the results: of the handled calls when collecting, of calls that succeeded when yielding. */
  ghost predicate OutOk(s: State) {
    && (!s.mode.ordered ==> s.out == [])
    && (s.mode.ordered && !s.panicked && !s.broke ==> |s.out| == Passed(s))
    && |s.out| <= Handled(s) <= |s.calls|
    && (forall i :: 0 <= i < |s.out| ==> s.out[i] == ValueOf(s.calls[i]))
    && (!s.mode.collect ==> forall i :: 0 <= i < |s.out| ==> s.calls[i].out == Some(Ok(s.out[i])))
    && (s.broke && !s.done ==> s.received == |s.out|)
  }

  /** The first failure stops dispatch: always without collection, with WithCancelOnError otherwise. */
  predicate FailFast(m: Mode) {
    m.collect ==> m.cancels
  }

  /** The element in hand has passed the last check that could still stop it. */
  predicate PastChecks(s: State) {
    s.disp.Spawning? || s.disp.Pushing? || (s.disp.Load2? && s.cell.None?)
  }

  /** The elements that can be started even if a stop signal is up. */
  function Committed(s: State): nat {
    |s.calls| + if PastChecks(s) then 1 else 0
  }

  /** Why dispatch may stop before the end of the input. */
  predicate StopReason(s: State) {
    s.outside || s.broke || s.cell.Some? || (s.mode.cancels && s.errs != [])
  }

  ghost predicate StopsOk(s: State) {
    && (FailFast(s.mode) ==>
          |s.calls| + (if s.disp.Pushing? || s.disp.Spawning? then 1 else 0) <= s.n + Sum(Succeeded, s.calls))
    && (s.disp.GivingUp? || s.disp.Closing? || s.disp.Left? ==>
          |s.calls| == s.len || StopReason(s))
    && (s.cancelled && !s.cons.End? ==> StopReason(s))
    && (s.outside ==> s.cancelled)
    && (s.broke && s.done ==> Committed(s) <= |s.out| + s.n + 1)
  }

  ghost predicate Inv(s: State) {
    Counts(s) && CallsOk(s) && ErrsOk(s) && ChannelOk(s) && HandledGone(s) && ConsOk(s) && OutOk(s) && StopsOk(s)
  }

  lemma InitEstablishes(s: State)
    requires Init(s)
    ensures Inv(s)
  {
  }

  // ---- frames

  lemma CallMoves(s: State, i: nat, c: Call)
    requires i < |s.calls|
    ensures var t := s.calls[i := c];
      && Sum(CallToken, t) + CallToken(s.calls[i]) == Sum(CallToken, s.calls) + CallToken(c)
      && Sum(LiveCall, t) + LiveCall(s.calls[i]) == Sum(LiveCall, s.calls) + LiveCall(c)
      && Sum(Succeeded, t) + Succeeded(s.calls[i]) == Sum(Succeeded, s.calls) + Succeeded(c)
      && LiveCall(s.calls[i]) <= Sum(LiveCall, s.calls)
  {
    SumUpdate(CallToken, s.calls, i, c);
    SumUpdate(LiveCall, s.calls, i, c);
    SumUpdate(Succeeded, s.calls, i, c);
    SumAtLeast(LiveCall, s.calls, i);
  }

  /** The state of the calls and their errors is what it was. */
  ghost predicate SameCalls(s: State, t: State) {
    t.mode == s.mode && t.n == s.n && t.len == s.len && t.calls == s.calls && t.errs == s.errs && t.cell == s.cell
  }

  lemma CallsFrame(s: State, t: State)
    requires CallsOk(s) && ErrsOk(s) && SameCalls(s, t) && (s.cancelled ==> t.cancelled)
    ensures CallsOk(t) && ErrsOk(t)
  {
    forall e: ElemError ensures Recorded(t, e) == Recorded(s, e) {
    }
  }

  /** The consumer's side is what it was. */
  ghost predicate SameConsumer(s: State, t: State) {
    && t.received == s.received && t.cons == s.cons && t.panicked == s.panicked && t.broke == s.broke
    && t.out == s.out && t.done == s.done
  }

  // ---- the dispatcher's steps that only move its program counter

  lemma DispMoveKeeps(s: State, d: DispPc)
    requires Inv(s) && !s.disp.Left? && !d.Left?
    requires DispToken(d) == DispToken(s.disp)
    requires Busy(d) ==> |s.calls| < s.len
    requires s.mode.ordered ==> !s.disp.Spawning? && !d.Spawning?
    requires (d.Pushing? ==> s.mode.ordered) && (d.Load1? || d.Load2? ==> !s.mode.collect)
    requires FailFast(s.mode) && (d.Pushing? || d.Spawning?) ==> |s.calls| + 1 <= s.n + Sum(Succeeded, s.calls)
    requires d.GivingUp? || d.Closing? ==> |s.calls| == s.len || StopReason(s)
    requires Committed(s.(disp := d)) <= Committed(s) || !s.done
    ensures Inv(s.(disp := d))
  {
    var t := s.(disp := d);
    CallsFrame(s, t);
  }

  lemma NextKeeps(s: State)
    requires Inv(s) && Enabled(s, Next)
    ensures Inv(NextStep(s))
  {
    DispMoveKeeps(s, NextStep(s).disp);
  }

  function One(c: Call): nat { 1 }

  function TokenOrSuccess(c: Call): nat { CallToken(c) + Succeeded(c) }

  /** When no stop is visible, every released call has succeeded, so the next start stays within the bound. */
  lemma ClearedBound(s: State)
    requires Counts(s) && CallsOk(s) && DispToken(s.disp) == 1
    requires FailFast(s.mode)
    requires if s.mode.collect then !s.cancelled else s.cell.None?
    ensures |s.calls| + 1 <= s.n + Sum(Succeeded, s.calls)
  {
    SumOfOnes(One, s.calls);
    SumMonotone(One, TokenOrSuccess, s.calls);
    SumPlus(TokenOrSuccess, CallToken, Succeeded, s.calls);
  }

  lemma PollKeeps(s: State)
    requires Inv(s) && Enabled(s, Poll)
    ensures Inv(PollStep(s))
  {
    if s.disp.Poll2? && !StopSignal(s) && FailFast(s.mode) && s.mode.collect {
      ClearedBound(s);
    }
    DispMoveKeeps(s, PollStep(s).disp);
  }

  lemma LoadKeeps(s: State)
    requires Inv(s) && Enabled(s, Load)
    ensures Inv(LoadStep(s))
  {
    if s.disp.Load2? && s.cell.None? && FailFast(s.mode) {
      ClearedBound(s);
    }
    DispMoveKeeps(s, LoadStep(s).disp);
  }

  lemma StopWaitingKeeps(s: State)
    requires Inv(s) && Enabled(s, StopWaiting)
    ensures Inv(s.(disp := Closing))
  {
    DispMoveKeeps(s, Closing);
  }

  lemma StopPushingKeeps(s: State)
    requires Inv(s) && Enabled(s, StopPushing)
    ensures Inv(s.(disp := GivingUp))
  {
    DispMoveKeeps(s, GivingUp);
  }

  // ---- the dispatcher's other steps

  lemma TakeTokenKeeps(s: State)
    requires Inv(s) && Enabled(s, TakeToken)
    ensures Inv(TakeTokenStep(s))
  {
    CallsFrame(s, TakeTokenStep(s));
  }

  lemma PushSlotKeeps(s: State)
    requires Inv(s) && Enabled(s, PushSlot)
    ensures Inv(PushSlotStep(s))
  {
    CallsFrame(s, PushSlotStep(s));
  }

  lemma GiveUpKeeps(s: State)
    requires Inv(s) && Enabled(s, GiveUp)
    ensures Inv(GiveUpStep(s))
  {
    CallsFrame(s, GiveUpStep(s));
  }

  lemma CloseOrderedCounts(s: State)
    requires Counts(s) && ChannelOk(s) && StopsOk(s) && Enabled(s, CloseOrdered)
    ensures Counts(CloseOrderedStep(s)) && ChannelOk(CloseOrderedStep(s)) && StopsOk(CloseOrderedStep(s))
  {
  }

  lemma CloseOrderedKeeps(s: State)
    requires Inv(s) && Enabled(s, CloseOrdered)
    ensures Inv(CloseOrderedStep(s))
  {
    CallsFrame(s, CloseOrderedStep(s));
    CloseOrderedCounts(s);
  }

  lemma CallAdded(calls: seq<Call>, c: Call)
    ensures Sum(CallToken, calls + [c]) == Sum(CallToken, calls) + CallToken(c)
    ensures Sum(LiveCall, calls + [c]) == Sum(LiveCall, calls) + LiveCall(c)
    ensures Sum(Succeeded, calls + [c]) == Sum(Succeeded, calls) + Succeeded(c)
  {
    SumAppend(CallToken, calls, c);
    SumAppend(LiveCall, calls, c);
    SumAppend(Succeeded, calls, c);
  }

  lemma SpawnCallCounts(s: State)
    requires Counts(s) && s.disp.Spawning?
    ensures Counts(SpawnCallStep(s))
    ensures Sum(Succeeded, SpawnCallStep(s).calls) == Sum(Succeeded, s.calls)
  {
    var c := Call(Running, None);
    CallAdded(s.calls, c);
    assert CallToken(c) == 1 && LiveCall(c) == 1 && Succeeded(c) == 0;
  }

  lemma SpawnCallErrs(s: State)
    requires ErrsOk(s)
    ensures ErrsOk(SpawnCallStep(s))
  {
    var t := SpawnCallStep(s);
    forall e: ElemError ensures Recorded(t, e) == Recorded(s, e) {
    }
  }

  lemma SpawnCallConsumer(s: State)
    requires HandledGone(s) && ConsOk(s) && OutOk(s) && s.disp.Spawning?
    ensures HandledGone(SpawnCallStep(s)) && ConsOk(SpawnCallStep(s)) && OutOk(SpawnCallStep(s))
  {
  }

  lemma SpawnCallBounds(s: State)
    requires Inv(s) && s.disp.Spawning? && Sum(Succeeded, SpawnCallStep(s).calls) == Sum(Succeeded, s.calls)
    ensures CallsOk(SpawnCallStep(s)) && ChannelOk(SpawnCallStep(s)) && StopsOk(SpawnCallStep(s))
  {
  }

  lemma SpawnCallKeeps(s: State)
    requires Inv(s) && Enabled(s, SpawnCall)
    ensures Inv(SpawnCallStep(s))
  {
    SpawnCallCounts(s);
    SpawnCallErrs(s);
    SpawnCallConsumer(s);
    SpawnCallBounds(s);
  }

  // ---- the steps of one call

  /** Moving a call that is not gone yet leaves the consumer's side as it was. */
  lemma CallKeepsConsumer(s: State, t: State, i: nat)
    requires HandledGone(s) && ConsOk(s) && OutOk(s)
    requires i < |s.calls| == |t.calls| && t.calls == s.calls[i := t.calls[i]] && !s.calls[i].pc.Gone?
    requires SameConsumer(s, t) && t.mode == s.mode && t.disp == s.disp && t.queue == s.queue
    requires s.cell.Some? ==> t.cell == s.cell
    requires s.cons.Ending? || s.cons.End? ==> t.cell == s.cell && t.wg == s.wg
    ensures HandledGone(t) && ConsOk(t) && OutOk(t)
  {
  }

  lemma CallKeepsChannel(s: State, t: State)
    requires ChannelOk(s) && |t.calls| == |s.calls|
    requires t.mode == s.mode && t.disp == s.disp && t.queue == s.queue && t.received == s.received
    requires t.closed == s.closed && t.len == s.len
    ensures ChannelOk(t)
  {
  }

  lemma CallKeepsStops(s: State, t: State)
    requires StopsOk(s) && |t.calls| == |s.calls| && Sum(Succeeded, s.calls) <= Sum(Succeeded, t.calls)
    requires t.mode == s.mode && t.n == s.n && t.len == s.len && t.disp == s.disp && t.cons == s.cons
    requires t.out == s.out && t.broke == s.broke && t.done == s.done && t.outside == s.outside
    requires (StopReason(s) ==> StopReason(t)) && (s.cell.Some? ==> t.cell.Some?)
    requires (s.cancelled ==> t.cancelled) && (t.cancelled && !s.cancelled ==> StopReason(t))
    ensures StopsOk(t)
  {
  }

  predicate Unnoted(c: Call) {
    c.pc.Running? || c.pc.Returned?
  }

  /** Moving a call without recording an error keeps ErrsOk. */
  lemma CallKeepsErrs(s: State, t: State, i: nat)
    requires ErrsOk(s) && t.errs == s.errs && t.mode == s.mode
    requires i < |s.calls| == |t.calls| && t.calls == s.calls[i := t.calls[i]]
    requires s.mode.collect && Failed(t.calls[i]) ==>
               (Unnoted(s.calls[i]) <==> Unnoted(t.calls[i]))
    requires s.calls[i].out.Some? ==> t.calls[i].out == s.calls[i].out
    requires s.calls[i].pc.Running? <==> s.calls[i].out.None?
    ensures ErrsOk(t)
  {
    forall e: ElemError ensures Recorded(t, e) == Recorded(s, e) {
    }
  }

  /** At the end nothing is running. */
  lemma EndedAllGone(s: State, i: nat)
    requires Inv(s) && (s.cons.Ending? || s.cons.End?) && i < |s.calls|
    ensures s.calls[i].pc.Gone?
  {
    if !s.mode.ordered {
      SumAtLeast(LiveCall, s.calls, i);
    }
  }

  lemma NotEnded(s: State, i: nat)
    requires Inv(s) && i < |s.calls| && !s.calls[i].pc.Gone?
    ensures !s.cons.Ending? && !s.cons.End?
  {
    if s.cons.Ending? || s.cons.End? {
      EndedAllGone(s, i);
    }
  }

  lemma FinishCalls(s: State, i: nat, outcome: Outcome)
    requires CallsOk(s) && CallAt(s, i, Running)
    ensures CallsOk(FinishStep(s, i, outcome))
  {
  }

  lemma FinishKeeps(s: State, i: nat, outcome: Outcome)
    requires Inv(s) && Enabled(s, Finish(i, outcome))
    ensures Inv(FinishStep(s, i, outcome))
  {
    var t := FinishStep(s, i, outcome);
    FinishCalls(s, i, outcome);
    NotEnded(s, i);
    CallMoves(s, i, t.calls[i]);
    CallKeepsErrs(s, t, i);
    CallKeepsConsumer(s, t, i);
    CallKeepsChannel(s, t);
    CallKeepsStops(s, t);
  }

  /** Appending the error of a call that has just returned records it once. */
  lemma RecordErrs(s: State, i: nat)
    requires ErrsOk(s) && CallsOk(s) && Enabled(s, Notice(i)) && s.mode.collect
    ensures ErrsOk(RecordStep(s, i))
  {
    var t := RecordStep(s, i);
    if Failed(s.calls[i]) {
      var d := Keyed(i, s.calls[i].out.value.failure);
      forall e: ElemError ensures multiset(t.errs)[e] == if Recorded(t, e) then 1 else 0 {
        assert Recorded(t, e) <==> Recorded(s, e) || e == d;
      }
    } else {
      CallKeepsErrs(s, t, i);
    }
  }

  lemma RecordKeeps(s: State, i: nat)
    requires Inv(s) && Enabled(s, Notice(i)) && s.mode.collect
    ensures Inv(RecordStep(s, i))
  {
    var t := RecordStep(s, i);
    NotEnded(s, i);
    CallMoves(s, i, t.calls[i]);
    RecordErrs(s, i);
    CallKeepsConsumer(s, t, i);
    CallKeepsChannel(s, t);
    CallKeepsStops(s, t);
  }

  lemma ReadCellKeeps(s: State, i: nat)
    requires Inv(s) && Enabled(s, Notice(i)) && !s.mode.collect
    ensures Inv(ReadCellStep(s, i))
  {
    var t := ReadCellStep(s, i);
    NotEnded(s, i);
    CallMoves(s, i, t.calls[i]);
    CallKeepsErrs(s, t, i);
    CallKeepsConsumer(s, t, i);
    CallKeepsChannel(s, t);
    CallKeepsStops(s, t);
  }

  /** A call that must cancel has a failure to show for it. */
  lemma LoggedHasReason(s: State, i: nat)
    requires CallsOk(s) && ErrsOk(s) && CallAt(s, i, Logged)
    ensures StopReason(s)
  {
    if s.mode.collect {
      var d := Keyed(i, s.calls[i].out.value.failure);
      assert Recorded(s, d);
      assert d in multiset(s.errs);
    }
  }

  lemma CancelRunKeeps(s: State, i: nat)
    requires Inv(s) && Enabled(s, CancelRun(i))
    ensures Inv(CancelRunStep(s, i))
  {
    var t := CancelRunStep(s, i);
    NotEnded(s, i);
    LoggedHasReason(s, i);
    CallMoves(s, i, t.calls[i]);
    CallKeepsErrs(s, t, i);
    CallKeepsConsumer(s, t, i);
    CallKeepsChannel(s, t);
    CallKeepsStops(s, t);
  }

  lemma ReleaseCounts(s: State, i: nat)
    requires Counts(s) && Enabled(s, Release(i))
    ensures Counts(ReleaseStep(s, i))
    ensures Sum(Succeeded, ReleaseStep(s, i).calls) == Sum(Succeeded, s.calls)
  {
    CallMoves(s, i, ReleaseStep(s, i).calls[i]);
  }

  lemma ReleaseKeeps(s: State, i: nat)
    requires Inv(s) && Enabled(s, Release(i))
    ensures Inv(ReleaseStep(s, i))
  {
    var t := ReleaseStep(s, i);
    NotEnded(s, i);
    ReleaseCounts(s, i);
    CallKeepsErrs(s, t, i);
    CallKeepsConsumer(s, t, i);
    CallKeepsChannel(s, t);
    CallKeepsStops(s, t);
  }

  lemma CloseSlotKeeps(s: State, i: nat)
    requires Inv(s) && Enabled(s, Exit(i)) && s.mode.ordered
    ensures Inv(CloseSlotStep(s, i))
  {
    var t := CloseSlotStep(s, i);
    NotEnded(s, i);
    CallMoves(s, i, t.calls[i]);
    CallKeepsErrs(s, t, i);
    CallKeepsConsumer(s, t, i);
    CallKeepsChannel(s, t);
    CallKeepsStops(s, t);
  }

  lemma WgDoneKeeps(s: State, i: nat)
    requires Inv(s) && Enabled(s, Exit(i)) && !s.mode.ordered
    ensures Inv(WgDoneStep(s, i))
  {
    var t := WgDoneStep(s, i);
    NotEnded(s, i);
    CallMoves(s, i, t.calls[i]);
    CallKeepsErrs(s, t, i);
    CallKeepsConsumer(s, t, i);
    CallKeepsChannel(s, t);
    CallKeepsStops(s, t);
  }

  // ---- the consumer's steps

  /** The counts, the calls and the bounds on dispatch do not look at where the consumer stands. */
  lemma ConsumerKeepsStops(s: State, t: State)
    requires Counts(s) && CallsOk(s) && ErrsOk(s) && StopsOk(s)
    requires SameCalls(s, t) && t.disp == s.disp && t.cancelled == s.cancelled && t.outside == s.outside
    requires t.sem == s.sem && t.wg == s.wg && t.fault == s.fault && |t.queue| <= |s.queue|
    requires t.broke == s.broke && t.done == s.done && |s.out| <= |t.out| && (t.cons.End? <==> s.cons.End?)
    ensures Counts(t) && CallsOk(t) && ErrsOk(t) && StopsOk(t)
  {
    CallsFrame(s, t);
  }

  lemma ReceiveChannel(s: State)
    requires ChannelOk(s)
    ensures ChannelOk(ReceiveStep(s))
  {
    if s.queue != [] {
      assert forall j :: 0 <= j < |s.queue| - 1 ==> s.queue[1..][j] == s.queue[j + 1];
    }
  }

  lemma ReceiveConsumer(s: State)
    requires Inv(s) && Enabled(s, Receive)
    ensures HandledGone(ReceiveStep(s)) && ConsOk(ReceiveStep(s)) && OutOk(ReceiveStep(s))
  {
    assert s.queue != [] ==> s.queue[0] == s.received;
  }

  lemma ReceiveKeeps(s: State)
    requires Inv(s) && Enabled(s, Receive)
    ensures Inv(ReceiveStep(s))
  {
    ConsumerKeepsStops(s, ReceiveStep(s));
    ReceiveChannel(s);
    ReceiveConsumer(s);
  }

  lemma AwaitSlotConsumer(s: State)
    requires Inv(s) && Enabled(s, AwaitSlot)
    ensures var t := AwaitSlotStep(s, s.cons.slot); HandledGone(t) && ConsOk(t) && OutOk(t)
  {
  }

  lemma AwaitSlotKeeps(s: State)
    requires Inv(s) && Enabled(s, AwaitSlot)
    ensures Inv(AwaitSlotStep(s, s.cons.slot))
  {
    ConsumerKeepsStops(s, AwaitSlotStep(s, s.cons.slot));
    AwaitSlotConsumer(s);
  }

  lemma CheckPanicConsumer(s: State)
    requires Inv(s) && Enabled(s, CheckPanic)
    ensures var t := CheckPanicStep(s, s.cons.slot); ChannelOk(t) && HandledGone(t) && ConsOk(t) && OutOk(t)
  {
  }

  /** A slot is yielded only when no call has panicked, so its own call has succeeded. */
  lemma CheckPanicKeeps(s: State)
    requires Inv(s) && Enabled(s, CheckPanic)
    ensures Inv(CheckPanicStep(s, s.cons.slot))
  {
    ConsumerKeepsStops(s, CheckPanicStep(s, s.cons.slot));
    CheckPanicConsumer(s);
  }

  lemma SignalDoneKeeps(s: State)
    requires Inv(s) && Enabled(s, SignalDone)
    ensures Inv(SignalDoneStep(s))
  {
    CallsFrame(s, SignalDoneStep(s));
  }

  lemma EndYieldKeeps(s: State, more: bool)
    requires Inv(s) && Enabled(s, EndYield(more))
    ensures Inv(EndYieldStep(s, more))
  {
    CallsFrame(s, EndYieldStep(s, more));
  }

  lemma SignalBreakKeeps(s: State)
    requires Inv(s) && Enabled(s, SignalBreak)
    ensures Inv(SignalBreakStep(s))
  {
    CallsFrame(s, SignalBreakStep(s));
  }

  lemma CancelBreakKeeps(s: State)
    requires Inv(s) && Enabled(s, CancelBreak)
    ensures Inv(CancelBreakStep(s))
  {
    CallsFrame(s, CancelBreakStep(s));
  }

  lemma JoinKeeps(s: State)
    requires Inv(s) && Enabled(s, Join)
    ensures Inv(s.(cons := Ending))
  {
    CallsFrame(s, s.(cons := Ending));
  }

  lemma ConcludeKeeps(s: State)
    requires Inv(s) && Enabled(s, Conclude)
    ensures Inv(ConcludeStep(s))
  {
    var t := ConcludeStep(s);
    SortCorrect(s.errs);
    CallsFrame(s, t.(errs := s.errs));
    forall e: ElemError ensures Recorded(t, e) == Recorded(s, e) {
    }
  }

  lemma CancelOutsideKeeps(s: State)
    requires Inv(s)
    ensures Inv(s.(cancelled := true, outside := true))
  {
    CallsFrame(s, s.(cancelled := true, outside := true));
  }

  predicate DispatcherStep(a: Action) {
    || a.Next? || a.Poll? || a.Load? || a.TakeToken? || a.StopWaiting? || a.PushSlot? || a.StopPushing?
    || a.SpawnCall? || a.GiveUp? || a.CloseOrdered?
  }

  predicate CallStep(a: Action) {
    a.Finish? || a.Notice? || a.CancelRun? || a.Release? || a.Exit?
  }

  lemma DispatcherStepKeeps(s: State, a: Action)
    requires Inv(s) && Enabled(s, a) && DispatcherStep(a)
    ensures Inv(Apply(s, a))
  {
    match a
    case Next => NextKeeps(s);
    case Poll => PollKeeps(s);
    case Load => LoadKeeps(s);
    case TakeToken => TakeTokenKeeps(s);
    case StopWaiting => StopWaitingKeeps(s);
    case PushSlot => PushSlotKeeps(s);
    case StopPushing => StopPushingKeeps(s);
    case SpawnCall => SpawnCallKeeps(s);
    case GiveUp => GiveUpKeeps(s);
    case CloseOrdered => CloseOrderedKeeps(s);
  }

  lemma CallStepKeeps(s: State, a: Action)
    requires Inv(s) && Enabled(s, a) && CallStep(a)
    ensures Inv(Apply(s, a))
  {
    match a
    case Finish(i, outcome) => FinishKeeps(s, i, outcome);
    case Notice(i) => if s.mode.collect { RecordKeeps(s, i); } else { ReadCellKeeps(s, i); }
    case CancelRun(i) => CancelRunKeeps(s, i);
    case Release(i) => ReleaseKeeps(s, i);
    case Exit(i) => if s.mode.ordered { CloseSlotKeeps(s, i); } else { WgDoneKeeps(s, i); }
  }

  /** Every action keeps the invariant. */
  lemma StepKeeps(s: State, a: Action)
    requires Inv(s) && Enabled(s, a)
    ensures Inv(Apply(s, a))
  {
    if DispatcherStep(a) {
      DispatcherStepKeeps(s, a);
    } else if CallStep(a) {
      CallStepKeeps(s, a);
    } else {
      match a
      case Receive => ReceiveKeeps(s);
      case AwaitSlot => AwaitSlotKeeps(s);
      case CheckPanic => CheckPanicKeeps(s);
      case SignalDone => SignalDoneKeeps(s);
      case EndYield(more) => EndYieldKeeps(s, more);
      case SignalBreak => SignalBreakKeeps(s);
      case CancelBreak => CancelBreakKeeps(s);
      case Join => JoinKeeps(s);
      case Conclude => ConcludeKeeps(s);
      case CancelOutside => CancelOutsideKeeps(s);
    }
  }
}
