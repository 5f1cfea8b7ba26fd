/** What the tasks of a run returned and which submissions were refused, and that the pool keeps account of it. */
module PoolHistory {
  import opened Options
  import opened Sorting
  import opened PoolProtocol
  import opened PoolInvariant
  import opened PoolTheorems

  // ---- one step

  /** Node q starts as t, spawned or inline, from the submission by p that is under way. */
  ghost predicate Starts(s: State, a: Action, p: nat, t: Node, q: nat) {
    && p < |s.nodes|
    && if t.role.Spawned? then a == Action.Spawn(p) && s.nodes[p].pc == Pc.Spawning(q)
       else t.role.Inline? && s.nodes[p].pc == Pc.Denied(q)
  }

  function OutAfter(a: Action, out: Option<Outcome>, q: nat): Option<Outcome> {
    if (a.Finish? || a.FinishInline?) && a.x == q then Some(a.outcome) else out
  }

  /** The submission of x is under way and may be refused: TryGo finds no slot, or GoCtx's context is done. */
  predicate Refusable(s: State, x: nat) {
    && x < |s.nodes| && s.nodes[x].parent < |s.nodes| && s.nodes[s.nodes[x].parent].pc == Pc.Submitting(x)
    && if s.nodes[x].via.ViaTry? then s.sem == s.cfg.n else s.nodes[x].via.ViaGoCtx? && s.nodes[x].ctxDone
  }

  /** The submitter of x has been told that TryGo found no slot. */
  predicate DeniedTo(s: State, x: nat) {
    x < |s.nodes| && s.nodes[x].parent < |s.nodes| && s.nodes[s.nodes[x].parent].pc == Pc.Denied(x)
  }

  /** The ways in which a node that is u in s can become t in one step. */
  ghost predicate NodeChanges(s: State, a: Action, u: Node, t: Node, q: nat) {
    && (t.role == u.role || Starts(s, a, u.parent, t, q))
    && (u.pc.Freed? || u.pc.Over? ==> t.pc.Freed? || t.pc.Over?)
    && (t.pc.Denied? && u.pc != t.pc ==>
          1 <= t.pc.child < |s.nodes| && s.nodes[t.pc.child].via.ViaTry? && Refusable(s, t.pc.child))
    && (t.pc.Rejected? ==> u.pc.Rejected? || Refusable(s, q) || DeniedTo(s, q))
    && t.out == OutAfter(a, u.out, q)
  }

  ghost predicate AllChange(s: State, a: Action, nt: seq<Node>) {
    |nt| == |s.nodes| && forall q :: 0 <= q < |nt| ==> NodeChanges(s, a, s.nodes[q], nt[q], q)
  }

  lemma PairChanges(s: State, a: Action, nt: seq<Node>, p: nat, x: nat)
    requires p < |s.nodes| == |nt| && x < |s.nodes| && nt == s.nodes[x := nt[x]][p := nt[p]]
    requires a.Finish? || a.FinishInline? ==> a.x == x
    requires NodeChanges(s, a, s.nodes[p], nt[p], p) && NodeChanges(s, a, s.nodes[x], nt[x], x)
    ensures AllChange(s, a, nt)
  {
  }

  lemma GrantingChanges(s: State, a: Action)
    requires NodesOk(s) && LinksOk(s.nodes) && Enabled(s, a) && (a.Acquire? || a.StartInline? || a.Spawn?)
    ensures AllChange(s, a, Apply(s, a).nodes)
  {
    var p := a.p;
    var x := s.nodes[p].pc.child;
    Submission(s, p);
    match a
    case Acquire(_) => PairChanges(s, a, AcquireStep(s, p).nodes, p, p);
    case StartInline(_) => PairChanges(s, a, StartInlineStep(s, p, x).nodes, p, x);
    case Spawn(_) => PairChanges(s, a, SpawnStep(s, p, x).nodes, p, x);
  }

  lemma RefusingChanges(s: State, a: Action)
    requires NodesOk(s) && LinksOk(s.nodes) && Enabled(s, a) && (a.Bail? || a.Deny? || a.Drop?)
    ensures AllChange(s, a, Apply(s, a).nodes)
  {
    var p := a.p;
    var x := s.nodes[p].pc.child;
    Submission(s, p);
    match a
    case Bail(_) => PairChanges(s, a, RejectStep(s, p, x).nodes, p, x);
    case Deny(_) => PairChanges(s, a, DenyStep(s, p).nodes, p, p);
    case Drop(_) => PairChanges(s, a, RejectStep(s, p, x).nodes, p, x);
  }

  lemma EndingChanges(s: State, a: Action)
    requires Enabled(s, a) && (a.Finish? || a.FinishInline? || a.Record? || a.Release? || a.Retire?)
    ensures AllChange(s, a, Apply(s, a).nodes)
  {
    match a
    case Finish(x, outcome) => PairChanges(s, a, FinishStep(s, x, outcome).nodes, x, x);
    case FinishInline(x, outcome) =>
      PairChanges(s, a, FinishInlineStep(s, x, outcome).nodes, s.nodes[x].parent, x);
    case Record(x) => PairChanges(s, a, RecordStep(s, x).nodes, x, x);
    case Release(x) => PairChanges(s, a, ReleaseStep(s, x).nodes, x, x);
    case Retire(x) => PairChanges(s, a, RetireStep(s, x).nodes, x, x);
  }

  lemma OfferChanges(s: State, p: nat, x: nat)
    requires Enabled(s, Offer(p, x))
    ensures AllChange(s, Offer(p, x), OfferStep(s, p, x).nodes)
  {
    PairChanges(s, Offer(p, x), OfferStep(s, p, x).nodes, p, x);
  }

  lemma StepChanges(s: State, a: Action)
    requires Inv(s) && Enabled(s, a)
    ensures AllChange(s, a, Apply(s, a).nodes)
  {
    if a.Acquire? || a.StartInline? || a.Spawn? {
      GrantingChanges(s, a);
    } else if a.Bail? || a.Deny? || a.Drop? {
      RefusingChanges(s, a);
    } else if a.Finish? || a.FinishInline? || a.Record? || a.Release? || a.Retire? {
      EndingChanges(s, a);
    } else if a.Offer? {
      OfferChanges(s, a.p, a.x);
    } else if a.CancelCaller? {
      PairChanges(s, a, Apply(s, a).nodes, a.x, a.x);
    } else if a.Quit? {
      PairChanges(s, a, Apply(s, a).nodes, 0, 0);
    } else {
      assert Apply(s, a).nodes == s.nodes;
      NobodyChanges(s, a);
    }
  }

  lemma NobodyChanges(s: State, a: Action)
    requires !a.Finish? && !a.FinishInline?
    ensures AllChange(s, a, s.nodes)
  {
  }

  // ---- what the tasks returned

  /** What the function of task x returned in the run. */
  function OutcomeIn(schedule: seq<Action>, x: nat): Option<Outcome> {
    if schedule == [] then None
    else if (schedule[0].Finish? || schedule[0].FinishInline?) && schedule[0].x == x then Some(schedule[0].outcome)
    else OutcomeIn(schedule[1..], x)
  }

  lemma StepOutcomes(s: State, a: Action)
    requires Inv(s) && Enabled(s, a)
    ensures var t := Apply(s, a);
      && |t.nodes| == |s.nodes|
      && (forall q :: 0 <= q < |s.nodes| ==> t.nodes[q].out == OutAfter(a, s.nodes[q].out, q))
      && (a.Finish? || a.FinishInline? ==> a.x < |s.nodes| && s.nodes[a.x].out == None)
  {
    StepChanges(s, a);
    var nt := Apply(s, a).nodes;
    forall q | 0 <= q < |s.nodes| ensures nt[q].out == OutAfter(a, s.nodes[q].out, q) {
      assert NodeChanges(s, a, s.nodes[q], nt[q], q);
    }
  }

  /** A task keeps the outcome it has, and otherwise gets what its function returns. */
  lemma {:induction false} RunOutcomes(s: State, schedule: seq<Action>, x: nat)
    requires Inv(s) && Feasible(s, schedule) && x < |s.nodes|
    ensures x < |Exec(s, schedule).nodes|
    ensures Exec(s, schedule).nodes[x].out ==
            if s.nodes[x].out.Some? then s.nodes[x].out else OutcomeIn(schedule, x)
    decreases |schedule|
  {
    if schedule == [] {
    } else {
      StepOutcomes(s, schedule[0]);
      StepKeeps(s, schedule[0]);
      RunOutcomes(Apply(s, schedule[0]), schedule[1..], x);
    }
  }

  /** What a task's function returns is the outcome the task has for good, unchanged. */
  lemma {:induction false} FinishIsKept(s: State, schedule: seq<Action>, k: nat)
    requires Inv(s) && Feasible(s, schedule) && k < |schedule| && (schedule[k].Finish? || schedule[k].FinishInline?)
    ensures var x := schedule[k].x;
      && x < |s.nodes| && x < |Exec(s, schedule).nodes| && s.nodes[x].out == None
      && Exec(s, schedule).nodes[x].out == Some(schedule[k].outcome)
    decreases |schedule|
  {
    if k == 0 {
      FirstIsKept(s, schedule);
    } else {
      StepKeeps(s, schedule[0]);
      FinishIsKept(Apply(s, schedule[0]), schedule[1..], k - 1);
      NoneBefore(s, schedule[0], schedule[k].x);
    }
  }

  lemma NoneBefore(s: State, a: Action, x: nat)
    requires Inv(s) && Enabled(s, a) && x < |Apply(s, a).nodes| && Apply(s, a).nodes[x].out == None
    ensures x < |s.nodes| && s.nodes[x].out == None
  {
    StepOutcomes(s, a);
    assert Apply(s, a).nodes[x].out == OutAfter(a, s.nodes[x].out, x);
  }

  lemma FirstIsKept(s: State, schedule: seq<Action>)
    requires Inv(s) && Feasible(s, schedule) && schedule != [] && (schedule[0].Finish? || schedule[0].FinishInline?)
    ensures var x := schedule[0].x;
      && x < |s.nodes| && x < |Exec(s, schedule).nodes| && s.nodes[x].out == None
      && Exec(s, schedule).nodes[x].out == Some(schedule[0].outcome)
  {
    var a := schedule[0];
    StepOutcomes(s, a);
    StepKeeps(s, a);
    assert Apply(s, a).nodes[a.x].out == Some(a.outcome);
    RunOutcomes(Apply(s, a), schedule[1..], a.x);
  }

  // ---- the two logs

  /** The error that the action records, given what the tasks return. */
  function ErrOf(a: Action, nodes: seq<Node>): seq<TaskErr> {
    if a.Record? && a.x < |nodes| && nodes[a.x].out.Some? && nodes[a.x].out.value.err.Some? then
      [TaskErr(a.x, nodes[a.x].out.value.err.value)]
    else []
  }

  /** The errors that the run records, in the order of the recording sections. */
  function ErrsIn(schedule: seq<Action>, nodes: seq<Node>): seq<TaskErr> {
    if schedule == [] then [] else ErrOf(schedule[0], nodes) + ErrsIn(schedule[1..], nodes)
  }

  /** The entry that the action adds to the results, given what the tasks return. */
  function ResultOf(a: Action, nodes: seq<Node>): seq<Entry> {
    if a.Finish? && a.x < |nodes| then [Keyed(nodes[a.x].idx, Res(a.x, a.outcome.val, a.outcome.err))] else []
  }

  /** The results of the run in the order of completion. */
  function ResultsIn(schedule: seq<Action>, nodes: seq<Node>): seq<Entry> {
    if schedule == [] then [] else ResultOf(schedule[0], nodes) + ResultsIn(schedule[1..], nodes)
  }

  lemma StepLogs(s: State, a: Action)
    requires Enabled(s, a)
    ensures Apply(s, a).errs == s.errs + ErrOf(a, s.nodes)
    ensures !s.cfg.ordered ==> Apply(s, a).results == s.results + ResultOf(a, s.nodes)
  {
    match a
    case Record(x) => assert RecordStep(s, x).errs == s.errs + ErrOf(a, s.nodes);
    case Finish(x, outcome) => assert FinishStep(s, x, outcome).results == s.results + ResultOf(a, s.nodes);
    case Retire(x) => assert RetireStep(s, x).errs == s.errs && RetireStep(s, x).results == s.results;
    case ReadResults =>
      assert ReadResultsStep(s).errs == s.errs && (!s.cfg.ordered ==> ReadResultsStep(s).results == s.results);
    case _ =>
  }

  /** What the first action logs does not depend on the rest of the run. */
  lemma LoggedForGood(s: State, schedule: seq<Action>)
    requires Inv(s) && schedule != [] && Feasible(s, schedule)
    ensures ErrOf(schedule[0], Exec(s, schedule).nodes) == ErrOf(schedule[0], s.nodes)
    ensures ResultOf(schedule[0], Exec(s, schedule).nodes) == ResultOf(schedule[0], s.nodes)
  {
    RunKeepsClaims(s, schedule);
    if schedule[0].Record? {
      RunOutcomes(s, schedule, schedule[0].x);
    }
  }

  lemma FirstLogs(s: State, schedule: seq<Action>)
    requires Inv(s) && schedule != [] && Feasible(s, schedule)
    ensures var t := Apply(s, schedule[0]);
      var nodes := Exec(s, schedule).nodes;
      && Inv(t) && t.cfg == s.cfg && t.errs == s.errs + ErrOf(schedule[0], nodes)
      && (!s.cfg.ordered ==> t.results == s.results + ResultOf(schedule[0], nodes))
  {
    StepKeeps(s, schedule[0]);
    LoggedForGood(s, schedule);
    StepLogs(s, schedule[0]);
    StepKeepsClaims(s, schedule[0]);
  }

  lemma Regroup<T>(a: seq<T>, b: seq<T>, c: seq<T>)
    ensures a + b + c == a + (b + c)
  {
  }

  /** errs is what has been recorded, in that order. */
  lemma {:induction false} RunErrs(s: State, schedule: seq<Action>)
    requires Inv(s) && Feasible(s, schedule)
    ensures Exec(s, schedule).errs == s.errs + ErrsIn(schedule, Exec(s, schedule).nodes)
    decreases |schedule|
  {
    if schedule == [] {
    } else {
      FirstLogs(s, schedule);
      RunErrs(Apply(s, schedule[0]), schedule[1..]);
      var nodes := Exec(s, schedule).nodes;
      Regroup(s.errs, ErrOf(schedule[0], nodes), ErrsIn(schedule[1..], nodes));
    }
  }

  /** Unordered results are in the order of completion. */
  lemma {:induction false} RunResults(s: State, schedule: seq<Action>)
    requires Inv(s) && Feasible(s, schedule) && !s.cfg.ordered
    ensures Exec(s, schedule).results == s.results + ResultsIn(schedule, Exec(s, schedule).nodes)
    decreases |schedule|
  {
    if schedule == [] {
    } else {
      FirstLogs(s, schedule);
      RunResults(Apply(s, schedule[0]), schedule[1..]);
      var nodes := Exec(s, schedule).nodes;
      Regroup(s.results, ResultOf(schedule[0], nodes), ResultsIn(schedule[1..], nodes));
    }
  }

  /**
   * The error that Wait answers, over the run itself: all that were recorded, in the order of the
   * recording sections, or with WithFirstError the first of them.
   */
  lemma AnsweredErrors(s0: State, schedule: seq<Action>)
    requires Init(s0) && Feasible(s0, schedule) && Exec(s0, schedule).quiet
    ensures var s := Exec(s0, schedule);
      var recorded := ErrsIn(schedule, s.nodes);
      s.answer.errs == if s.cfg.firstError && recorded != [] then [recorded[0]] else recorded
  {
    WaitCoversEverything(s0, schedule);
    InitEstablishes(s0);
    RunErrs(s0, schedule);
    FirstOfErrs(Exec(s0, schedule));
    assert Exec(s0, schedule).errs == ErrsIn(schedule, Exec(s0, schedule).nodes);
  }

  /**
   * The values that Wait answers, over the run itself: for each result what the function of its
   * task returned; without ordering the results are in the order of completion.
   */
  lemma AnsweredValues(s0: State, schedule: seq<Action>)
    requires Init(s0) && Feasible(s0, schedule) && Exec(s0, schedule).quiet
    ensures var s := Exec(s0, schedule);
      && |s.answer.vals| == |s.results|
      && (forall i :: 0 <= i < |s.results| ==> HasReturned(schedule, s.results[i].val.node, s.answer.vals[i]))
      && (!s.cfg.ordered ==> s.results == ResultsIn(schedule, s.nodes))
  {
    WaitCoversEverything(s0, schedule);
    InitEstablishes(s0);
    RunKeepsClaims(s0, schedule);
    var s := Exec(s0, schedule);
    forall i | 0 <= i < |s.results| ensures HasReturned(schedule, s.results[i].val.node, s.answer.vals[i]) {
      assert ValueAt(s, i);
      RunOutcomes(s0, schedule, s.results[i].val.node);
    }
    if !s.cfg.ordered {
      RunResults(s0, schedule);
    }
  }

  /** In the run the function of task x returned v. */
  predicate HasReturned(schedule: seq<Action>, x: nat, v: Val) {
    OutcomeIn(schedule, x).Some? && OutcomeIn(schedule, x).value.val == v
  }

  // ---- refusals

  /** Somewhere in the run the submission of x could be refused. */
  ghost predicate MetRefusal(s: State, schedule: seq<Action>, x: nat)
    requires Feasible(s, schedule)
    decreases |schedule|
  {
    Refusable(s, x) || (schedule != [] && MetRefusal(Apply(s, schedule[0]), schedule[1..], x))
  }

  /** The task has not been taken by the pool: it is rejected, run by its submitter, or one of the two is to come. */
  predicate Refused(s: State, x: nat) {
    x < |s.nodes| && (s.nodes[x].pc.Rejected? || s.nodes[x].role.Inline? || DeniedTo(s, x))
  }

  lemma StepRefuses(s: State, a: Action, x: nat)
    requires Inv(s) && Enabled(s, a) && !Refused(s, x) && Refused(Apply(s, a), x)
    ensures Refusable(s, x)
  {
    StepChanges(s, a);
    StepKeepsClaims(s, a);
    var t := Apply(s, a);
    var p := s.nodes[x].parent;
    assert NodeChanges(s, a, s.nodes[x], t.nodes[x], x);
    if DeniedTo(t, x) {
      assert NodeChanges(s, a, s.nodes[p], t.nodes[p], p);
    }
  }

  lemma {:induction false} RefusedMet(s: State, schedule: seq<Action>, x: nat)
    requires Inv(s) && Feasible(s, schedule) && !Refused(s, x) && Refused(Exec(s, schedule), x)
    ensures MetRefusal(s, schedule, x)
    decreases |schedule|
  {
    var t := Apply(s, schedule[0]);
    if Refused(t, x) {
      StepRefuses(s, schedule[0], x);
    } else {
      StepKeeps(s, schedule[0]);
      RefusedMet(t, schedule[1..], x);
    }
  }

  /** No submission by Go can be refused. */
  lemma {:induction false} GoMeetsNoRefusal(s: State, schedule: seq<Action>, x: nat)
    requires Inv(s) && Feasible(s, schedule) && x < |s.nodes| && s.nodes[x].via.ViaGo?
    ensures !MetRefusal(s, schedule, x)
    decreases |schedule|
  {
    if schedule == [] {
    } else {
      StepKeeps(s, schedule[0]);
      StepKeepsClaims(s, schedule[0]);
      GoMeetsNoRefusal(Apply(s, schedule[0]), schedule[1..], x);
    }
  }

  /**
   * In every reachable state: a task that was refused, even if its submitter then ran it, was
   * submitted by TryGo at a moment when all n slots were taken, or by GoCtx with a context that was
   * done while it asked for a slot.  Go is never refused.
   */
  lemma RefusedForAReason(s0: State, schedule: seq<Action>, x: nat)
    requires Init(s0) && Feasible(s0, schedule) && Refused(Exec(s0, schedule), x)
    ensures MetRefusal(s0, schedule, x) && x < |s0.nodes| && !s0.nodes[x].via.ViaGo?
  {
    InitEstablishes(s0);
    RunKeepsClaims(s0, schedule);
    RefusedMet(s0, schedule, x);
    if s0.nodes[x].via.ViaGo? {
      GoMeetsNoRefusal(s0, schedule, x);
    }
  }
}
