/** The limit is not only kept but reached: how many calls of fn can run at once. */
module IterParallel {
  import opened Counting
  import opened Options
  import opened IterProtocol
  import opened IterInvariant
  import opened IterHistory
  import opened IterTheorems

  /** The state in which k elements have been started and none has been finished with. */
  function Filled(s0: State, k: nat): State {
    s0.(sem := k, wg := if s0.mode.ordered then 0 else k, disp := Top,
        queue := if s0.mode.ordered then seq(k, i => i) else [],
        calls := seq(k, i => Call(Running, None)))
  }

  /** With no signal up an element passes the first check. */
  lemma PassesFirst(s: State) returns (schedule: seq<Action>)
    requires s.disp.Top? && |s.calls| != s.len && !StopSignal(s) && s.cell.None?
    ensures Feasible(s, schedule) && Exec(s, schedule) == s.(disp := Acquiring)
  {
    var t := NextStep(s);
    var u := PollStep(t);
    if s.mode.collect {
      OneStep(t, Poll);
      schedule := [Poll];
    } else {
      OneStep(u, Load);
      schedule := Prepend(t, Poll, [Load]);
    }
    schedule := Prepend(s, Next, schedule);
  }

  /** And the second. */
  lemma PassesSecond(s: State) returns (schedule: seq<Action>)
    requires s.disp.Poll2? && !StopSignal(s) && s.cell.None?
    ensures Feasible(s, schedule) && Exec(s, schedule) == s.(disp := Cleared(s.mode))
  {
    if s.mode.collect {
      OneStep(s, Poll);
      schedule := [Poll];
    } else {
      OneStep(PollStep(s), Load);
      schedule := Prepend(s, Poll, [Load]);
    }
  }

  /** With room in ordered it is started. */
  lemma IsStarted(s: State) returns (schedule: seq<Action>)
    requires s.disp == Cleared(s.mode) && |s.queue| < s.n
    ensures Feasible(s, schedule)
    ensures Exec(s, schedule) == SpawnCallStep(if s.mode.ordered then PushSlotStep(s) else s)
  {
    if s.mode.ordered {
      OneStep(PushSlotStep(s), SpawnCall);
      schedule := Prepend(s, PushSlot, [SpawnCall]);
    } else {
      OneStep(s, SpawnCall);
      schedule := [SpawnCall];
    }
  }

  lemma OneMore(s0: State, k: nat) returns (schedule: seq<Action>)
    requires Init(s0) && !s0.cancelled && k < s0.n && k < s0.len
    ensures Feasible(Filled(s0, k), schedule) && Exec(Filled(s0, k), schedule) == Filled(s0, k + 1)
  {
    var s := Filled(s0, k);
    var first := PassesFirst(s);
    var u := TakeTokenStep(s.(disp := Acquiring));
    var second := PassesSecond(u);
    var v := u.(disp := Cleared(s.mode));
    var last := IsStarted(v);
    FilledNext(s0, k);
    ExecBoth(u, second, last);
    var rest := Prepend(s.(disp := Acquiring), TakeToken, second + last);
    ExecBoth(s, first, rest);
    schedule := first + rest;
  }

  lemma FilledNext(s0: State, k: nat)
    requires Init(s0)
    ensures var v := Filled(s0, k).(sem := k + 1, disp := Cleared(s0.mode));
      SpawnCallStep(if s0.mode.ordered then PushSlotStep(v) else v) == Filled(s0, k + 1)
  {
    assert seq(k + 1, i => Call(Running, None)) == seq(k, i => Call(Running, None)) + [Call(Running, None)];
    assert seq(k + 1, i => i) == seq(k, i => i) + [k];
  }

  lemma {:induction false} Fill(s0: State, k: nat) returns (schedule: seq<Action>)
    requires Init(s0) && (k == 0 || (!s0.cancelled && k <= s0.n && k <= s0.len))
    ensures Feasible(s0, schedule) && Exec(s0, schedule) == Filled(s0, k)
  {
    if k == 0 {
      schedule := [];
      assert Filled(s0, 0) == s0;
    } else {
      schedule := Fill(s0, k - 1);
      var rest := OneMore(s0, k - 1);
      ExecBoth(s0, schedule, rest);
      schedule := schedule + rest;
    }
  }

  ghost predicate RunsAtOnce(s0: State, schedule: seq<Action>, k: nat) {
    Feasible(s0, schedule) && Sum(InFlight, Exec(s0, schedule).calls) == k
  }

  /**
   * How parallel an iteration is, for all four functions: k calls of fn run at once in some run if
   * and only if k is at most n and at most the number of elements, and no call does when the
   * context is cancelled from the start.
   */
  lemma ParallelExactly(s0: State, k: nat)
    requires Init(s0)
    ensures (exists schedule :: RunsAtOnce(s0, schedule, k)) <==>
            k == 0 || (!s0.cancelled && k <= s0.n && k <= s0.len)
  {
    if k == 0 || (!s0.cancelled && k <= s0.n && k <= s0.len) {
      var schedule := Fill(s0, k);
      SumOfOnes(InFlight, Filled(s0, k).calls);
      assert RunsAtOnce(s0, schedule, k);
    }
    forall schedule | RunsAtOnce(s0, schedule, k)
      ensures k == 0 || (!s0.cancelled && k <= s0.n && k <= s0.len)
    {
      AtOnceBound(s0, schedule);
    }
  }

  lemma AtOnceBound(s0: State, schedule: seq<Action>)
    requires Init(s0) && Feasible(s0, schedule)
    ensures var k := Sum(InFlight, Exec(s0, schedule).calls); k <= s0.n && k <= s0.len && (s0.cancelled ==> k == 0)
  {
    InitEstablishes(s0);
    RunKeeps(s0, schedule);
    LimitHolds(s0, schedule);
    RunFlags(s0, schedule);
    SumBelowLength(InFlight, Exec(s0, schedule).calls);
    if s0.cancelled {
      SignalStopsDispatch(s0, schedule);
    }
  }
}
