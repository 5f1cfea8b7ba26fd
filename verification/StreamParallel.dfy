/** The limit is not only kept but reached: how many producers of a stream can run at once. */
module StreamParallel {
  import opened Counting
  import opened Options
  import opened StreamProtocol
  import opened StreamInvariant
  import opened StreamTheorems

  /** The callers below k have their producers running; the others have not called. */
  function CalledBy(subs: seq<Submitter>, k: nat): seq<Submitter> {
    seq(|subs|, i requires 0 <= i < |subs| => if i < k then subs[i].(pc := Leaving(Some(i))) else subs[i])
  }

  /** The state in which k producers have been started and nobody has gone on. */
  function Filled(s0: State, k: nat): State {
    s0.(sem := k, submitWg := k, producerWg := k, launched := k > 0, submitted := seq(k, i => i),
        subs := CalledBy(s0.subs, k), slots := seq(k, i requires i >= 0 => Slot(i, Running, None)),
        disp := if k > 0 then Ranging else Off)
  }

  /** The state in which the next caller stands at pc, with its slot sent from Sent on. */
  function Calling(s0: State, k: nat, pc: SubPc): State
    requires k < |s0.subs|
  {
    var s := Filled(s0, k);
    s.(submitWg := k + 1, subs := Goto(s, k, pc), launched := k > 0 || !pc.Admitted?,
       disp := if k > 0 || !pc.Admitted? then Ranging else Off,
       sem := if pc.Holding? || pc.Sent? then k + 1 else k,
       submitted := s.submitted + (if pc.Sent? then [k] else []),
       slots := s.slots + (if pc.Sent? then [Slot(k, Unborn, None)] else []))
  }

  lemma Admits(s0: State, k: nat)
    requires Init(s0) && k < |s0.subs|
    ensures Enabled(Filled(s0, k), Admit(k)) && AdmitStep(Filled(s0, k), k) == Calling(s0, k, Admitted)
    ensures Enabled(Calling(s0, k, Admitted), Start(k))
    ensures StartStep(Calling(s0, k, Admitted), k) == Calling(s0, k, Selecting)
  {
    var s := Filled(s0, k);
    assert AdmitStep(s, k).subs == Goto(s, k, Admitted);
    assert StartStep(Calling(s0, k, Admitted), k).subs == Goto(s, k, Selecting);
  }

  lemma Sends(s0: State, k: nat)
    requires Init(s0) && k < |s0.subs| && k < s0.n
    ensures Enabled(Calling(s0, k, Selecting), Acquire(k))
    ensures AcquireStep(Calling(s0, k, Selecting), k) == Calling(s0, k, Holding)
    ensures Enabled(Calling(s0, k, Holding), Send(k))
    ensures SendStep(Calling(s0, k, Holding), k) == Calling(s0, k, Sent(k))
  {
    var s := Filled(s0, k);
    assert AcquireStep(Calling(s0, k, Selecting), k).subs == Goto(s, k, Holding);
    assert SendStep(Calling(s0, k, Holding), k).subs == Goto(s, k, Sent(k));
  }

  lemma Spawns(s0: State, k: nat)
    requires Init(s0) && k < |s0.subs|
    ensures Enabled(Calling(s0, k, Sent(k)), Spawn(k))
    ensures SpawnStep(Calling(s0, k, Sent(k)), k) == Filled(s0, k + 1)
  {
    var t := SpawnStep(Calling(s0, k, Sent(k)), k);
    assert t.subs == CalledBy(s0.subs, k + 1);
    assert t.slots == Filled(s0, k + 1).slots;
    assert t.submitted == Filled(s0, k + 1).submitted;
  }

  lemma OneMore(s0: State, k: nat) returns (schedule: seq<Action>)
    requires Init(s0) && k < |s0.subs| && k < s0.n
    ensures Feasible(Filled(s0, k), schedule) && Exec(Filled(s0, k), schedule) == Filled(s0, k + 1)
  {
    Admits(s0, k);
    Sends(s0, k);
    Spawns(s0, k);
    OneStep(Calling(s0, k, Sent(k)), Spawn(k));
    schedule := Prepend(Calling(s0, k, Holding), Send(k), [Spawn(k)]);
    schedule := Prepend(Calling(s0, k, Selecting), Acquire(k), schedule);
    schedule := Prepend(Calling(s0, k, Admitted), Start(k), schedule);
    schedule := Prepend(Filled(s0, k), Admit(k), schedule);
  }

  lemma {:induction false} Fill(s0: State, k: nat) returns (schedule: seq<Action>)
    requires Init(s0) && k <= |s0.subs| && k <= s0.n
    ensures Feasible(s0, schedule) && Exec(s0, schedule) == Filled(s0, k)
  {
    if k == 0 {
      schedule := [];
      assert CalledBy(s0.subs, 0) == s0.subs;
    } else {
      schedule := Fill(s0, k - 1);
      var rest := OneMore(s0, k - 1);
      ExecBoth(s0, schedule, rest);
      schedule := schedule + rest;
    }
  }

  // ---- no more than that

  lemma StepKeepsSize(s: State, a: Action)
    requires Enabled(s, a)
    ensures Apply(s, a).n == s.n && |Apply(s, a).subs| == |s.subs|
  {
    StepGrows(s, a);
    if CallerStep(a) {
      CallerKeepsLimit(s, a);
    } else if a.Take? {
      assert s.disp.Awaiting? ==> TakeStep(s, s.disp.slot).n == s.n;
      assert s.disp.DrainAwaiting? ==> DrainTakeStep(s, s.disp.slot).n == s.n;
    }
  }

  lemma CallerKeepsLimit(s: State, a: Action)
    requires Enabled(s, a) && CallerStep(a)
    ensures Apply(s, a).n == s.n
  {
  }

  lemma {:induction false} RunKeepsSize(s: State, schedule: seq<Action>)
    requires Feasible(s, schedule)
    ensures Exec(s, schedule).n == s.n && |Exec(s, schedule).subs| == |s.subs|
    decreases |schedule|
  {
    if schedule == [] {
    } else {
      StepKeepsSize(s, schedule[0]);
      RunKeepsSize(Apply(s, schedule[0]), schedule[1..]);
    }
  }

  /** Different slots have different callers. */
  lemma SlotsFewerThanCalls(s: State)
    requires SlotsOk(s)
    ensures |s.slots| <= |s.subs|
  {
    var callers := seq(|s.slots|, i requires 0 <= i < |s.slots| => s.slots[i].caller);
    forall i, j | 0 <= i < j < |callers| ensures callers[i] != callers[j] {
      assert SlotOf(s.subs[s.slots[i].caller]) == Some(i) && SlotOf(s.subs[s.slots[j].caller]) == Some(j);
    }
    DistinctBelow(callers, |s.subs|);
  }

  ghost predicate RunsAtOnce(s0: State, schedule: seq<Action>, k: nat) {
    Feasible(s0, schedule) && Sum(InFlight, Exec(s0, schedule).slots) == k
  }

  /**
   * How parallel a stream is: k producers run at once in some run if and only if k is at most n
   * and at most the number of calls.
   */
  lemma ParallelExactly(s0: State, k: nat)
    requires Init(s0)
    ensures (exists schedule :: RunsAtOnce(s0, schedule, k)) <==> k <= s0.n && k <= |s0.subs|
  {
    if k <= s0.n && k <= |s0.subs| {
      var schedule := Fill(s0, k);
      SumOfOnes(InFlight, Filled(s0, k).slots);
      assert RunsAtOnce(s0, schedule, k);
    }
    forall schedule | RunsAtOnce(s0, schedule, k) ensures k <= s0.n && k <= |s0.subs| {
      AtOnceBound(s0, schedule);
    }
  }

  lemma AtOnceBound(s0: State, schedule: seq<Action>)
    requires Init(s0) && Feasible(s0, schedule)
    ensures var k := Sum(InFlight, Exec(s0, schedule).slots); k <= s0.n && k <= |s0.subs|
  {
    InitEstablishes(s0);
    RunKeeps(s0, schedule);
    RunKeepsSize(s0, schedule);
    var s := Exec(s0, schedule);
    Backlog(s);
    SlotsFewerThanCalls(s);
    SumBelowLength(InFlight, s.slots);
  }
}
