/** What every run of a pool does, for any interleaving. */
module PoolTheorems {
  import opened Counting
  import opened Options
  import opened Sorting
  import opened PoolProtocol
  import opened PoolInvariant

  /** The invariant holds all along every run. */
  lemma {:induction false} RunKeeps(s: State, schedule: seq<Action>)
    requires Inv(s) && Feasible(s, schedule)
    ensures Inv(Exec(s, schedule))
    decreases |schedule|
  {
    if schedule == [] {
    } else {
      StepKeeps(s, schedule[0]);
      RunKeeps(Apply(s, schedule[0]), schedule[1..]);
    }
  }

  lemma RunInv(s0: State, schedule: seq<Action>)
    requires Init(s0) && Feasible(s0, schedule)
    ensures Inv(Exec(s0, schedule))
  {
    InitEstablishes(s0);
    RunKeeps(s0, schedule);
  }

  function InFlight(t: Node): nat {
    if t.role.Spawned? && Active(t) then 1 else 0
  }

  /** At most n spawned tasks run at once, and no counter or channel operation ever fails. */
  lemma LimitHolds(s0: State, schedule: seq<Action>)
    requires Init(s0) && Feasible(s0, schedule)
    ensures var s := Exec(s0, schedule); !s.fault && Sum(InFlight, s.nodes) <= s.sem <= s.cfg.n
  {
    RunInv(s0, schedule);
    SumMonotone(InFlight, Tokens, Exec(s0, schedule).nodes);
  }

  // ---- what Wait returns

  /**
   * Wait covers the transitive closure: when it has returned, every task that anyone submitted,
   * at any depth, has either ended or been rejected, and all tokens are back.  errs holds exactly
   * one entry for each spawned task that failed or panicked, and results exactly one for each
   * spawned task; in ordered mode the results are in the order of the claimed indices.
   *
   * What it answers is all of these errors in the order in which they were recorded, each once, or
   * with WithFirstError the first of them, if there is any; and for every result the value that
   * the task's function returned, in the order of the results.
   */
  lemma WaitCoversEverything(s0: State, schedule: seq<Action>)
    requires Init(s0) && Feasible(s0, schedule) && Exec(s0, schedule).quiet
    ensures var s := Exec(s0, schedule);
      && s.sem == 0 && s.wg == 0
      && (forall x :: 1 <= x < |s.nodes| ==> s.nodes[x].pc.Idle? || s.nodes[x].pc.Rejected? || s.nodes[x].pc.Over?)
      && (forall e: TaskErr :: multiset(s.errs)[e] == if FailedTask(s.nodes, e) then 1 else 0)
      && (forall e: Entry :: multiset(s.results)[e] == if Stored(s.nodes, e) then 1 else 0)
      && (s.cfg.ordered ==> Increasing(s.results))
      && (!s.cfg.firstError ==>
            && s.answer.errs == s.errs
            && forall e: TaskErr :: multiset(s.answer.errs)[e] == if FailedTask(s.nodes, e) then 1 else 0)
      && (s.cfg.firstError ==>
            && (s.answer.errs == [] <==> forall e: TaskErr :: !FailedTask(s.nodes, e))
            && (s.answer.errs != [] ==> s.errs != [] && s.answer.errs == [s.errs[0]]))
      && |s.answer.vals| == |s.results|
      && (forall i :: 0 <= i < |s.results| ==> ValueAt(s, i))
  {
    RunInv(s0, schedule);
    var s := Exec(s0, schedule);
    forall i | 0 <= i < |s.results| ensures ValueAt(s, i) {
      assert s.results[i] in multiset(s.results);
      assert Stored(s.nodes, s.results[i]);
    }
    forall x | 1 <= x < |s.nodes| ensures s.nodes[x].pc.Idle? || s.nodes[x].pc.Rejected? || s.nodes[x].pc.Over? {
      NothingActive(s, x);
    }
    forall x | 0 <= x < |s.nodes| ensures Tokens(s.nodes[x]) == 0 {
      QuietNodes(s, x);
    }
    SumZero(Tokens, s.nodes);
    forall e: TaskErr ensures FailedTask(s.nodes, e) == ErrStored(s.nodes, e) {
    }
    FirstOfErrs(s);
  }

  /** There is a first error if and only if a task has failed. */
  lemma FirstOfErrs(s: State)
    requires forall e: TaskErr :: multiset(s.errs)[e] == if FailedTask(s.nodes, e) then 1 else 0
    ensures s.errs == [] <==> forall e: TaskErr :: !FailedTask(s.nodes, e)
  {
    if s.errs != [] {
      assert s.errs[0] in multiset(s.errs);
      assert FailedTask(s.nodes, s.errs[0]);
    } else {
      forall e: TaskErr ensures !FailedTask(s.nodes, e) {
        assert multiset(s.errs)[e] == 0;
      }
    }
  }

  /** The i-th value is what the function of the i-th result's task returned. */
  ghost predicate ValueAt(s: State, i: nat) {
    && i < |s.results| && i < |s.answer.vals|
    && var x := s.results[i].val.node;
      && 1 <= x < |s.nodes| && s.nodes[x].role.Spawned?
      && s.nodes[x].out.Some? && s.answer.vals[i] == s.nodes[x].out.value.val
  }

  /** A spawned task has a place among the results. */
  lemma PlaceOf(s: State, x: nat) returns (i: nat)
    requires LogsOk(s) && 1 <= x < |s.nodes| && s.nodes[x].role.Spawned? && s.nodes[x].out.Some?
    ensures i < |s.results| && s.results[i] == EntryOf(x, s.nodes[x])
  {
    var e := EntryOf(x, s.nodes[x]);
    assert Stored(s.nodes, e);
    assert e in multiset(s.results);
    i :| 0 <= i < |s.results| && s.results[i] == e;
  }

  /** Ordered values: what x returned stands before what y returned if x claimed the smaller index. */
  lemma ValuesInIndexOrder(s0: State, schedule: seq<Action>, x: nat, y: nat) returns (i: nat, j: nat)
    requires Init(s0) && Feasible(s0, schedule) && Exec(s0, schedule).quiet && Exec(s0, schedule).cfg.ordered
    requires var nodes := Exec(s0, schedule).nodes;
      && 1 <= x < |nodes| && 1 <= y < |nodes| && nodes[x].role.Spawned? && nodes[y].role.Spawned?
      && nodes[x].idx < nodes[y].idx
    ensures var s := Exec(s0, schedule);
      && i < j < |s.answer.vals| == |s.results| && s.results[i].val.node == x && s.results[j].val.node == y
      && s.nodes[x].out.Some? && s.answer.vals[i] == s.nodes[x].out.value.val
      && s.nodes[y].out.Some? && s.answer.vals[j] == s.nodes[y].out.value.val
  {
    RunInv(s0, schedule);
    WaitCoversEverything(s0, schedule);
    var s := Exec(s0, schedule);
    assert NodeOk(s.nodes[x], false) && NodeOk(s.nodes[y], false);
    i := PlaceOf(s, x);
    j := PlaceOf(s, y);
    assert ValueAt(s, i) && ValueAt(s, j);
  }

  /** The task e.node has run on its own goroutine and returned the error e.err, or panicked with it. */
  ghost predicate FailedTask(nodes: seq<Node>, e: TaskErr) {
    && 1 <= e.node < |nodes| && nodes[e.node].role.Spawned?
    && nodes[e.node].out.Some? && nodes[e.node].out.value.err == Some(e.err)
  }

  // ---- the order of indices

  /** The tree keeps its shape, and a context that is done stays done. */
  ghost predicate SameShape(ns: seq<Node>, nt: seq<Node>) {
    |nt| == |ns| && forall x :: 0 <= x < |ns| ==>
      nt[x].parent == ns[x].parent && nt[x].via == ns[x].via && (ns[x].ctxDone ==> nt[x].ctxDone)
  }

  /** The tree keeps its shape, a claimed index is kept, and a later claim gets a larger one. */
  ghost predicate ClaimsKept(s: State, t: State) {
    && t.cfg == s.cfg && SameShape(s.nodes, t.nodes) && s.idx <= t.idx
    && forall x :: 1 <= x < |s.nodes| ==>
      if Claimed(s.nodes[x]) then Claimed(t.nodes[x]) && t.nodes[x].idx == s.nodes[x].idx
      else Claimed(t.nodes[x]) ==> t.nodes[x].idx >= s.idx
  }

  lemma PairClaims(s: State, t: State, p: nat, x: nat)
    requires p < |s.nodes| == |t.nodes| && x < |s.nodes|
    requires t.nodes == s.nodes[x := t.nodes[x]][p := t.nodes[p]] && t.cfg == s.cfg
    requires t.nodes[p].parent == s.nodes[p].parent && t.nodes[p].via == s.nodes[p].via
    requires t.nodes[x].parent == s.nodes[x].parent && t.nodes[x].via == s.nodes[x].via
    requires t.nodes[p].ctxDone == s.nodes[p].ctxDone && t.nodes[x].ctxDone == s.nodes[x].ctxDone
    requires Claimed(s.nodes[p]) && Claimed(t.nodes[p]) && t.nodes[p].idx == s.nodes[p].idx
    requires Claimed(t.nodes[x]) && t.nodes[x].idx == (if Claimed(s.nodes[x]) then s.nodes[x].idx else s.idx)
    requires s.idx <= t.idx
    ensures ClaimsKept(s, t)
  {
  }

  /** The actions of a goroutine in the midst of a submission. */
  predicate Submitting(a: Action) {
    a.Acquire? || a.Bail? || a.Deny? || a.Drop? || a.StartInline? || a.Spawn?
  }

  lemma SubmittingKeepsClaims(s: State, a: Action)
    requires NodesOk(s) && LinksOk(s.nodes) && Enabled(s, a) && Submitting(a)
    ensures ClaimsKept(s, Apply(s, a))
  {
    var p := a.p;
    var x := s.nodes[p].pc.child;
    Submission(s, p);
    match a
    case Acquire(_) => PairClaims(s, AcquireStep(s, p), p, p);
    case Bail(_) => PairClaims(s, RejectStep(s, p, x), p, x);
    case Deny(_) => PairClaims(s, DenyStep(s, p), p, p);
    case Drop(_) => PairClaims(s, RejectStep(s, p, x), p, x);
    case StartInline(_) => PairClaims(s, StartInlineStep(s, p, x), p, x);
    case Spawn(_) => PairClaims(s, SpawnStep(s, p, x), p, x);
  }

  lemma EndingKeepsClaims(s: State, a: Action)
    requires Enabled(s, a) && (a.Finish? || a.FinishInline? || a.Record? || a.Release?)
    ensures ClaimsKept(s, Apply(s, a))
  {
    match a
    case Finish(x, outcome) => PairClaims(s, FinishStep(s, x, outcome), x, x);
    case FinishInline(x, outcome) => PairClaims(s, FinishInlineStep(s, x, outcome), s.nodes[x].parent, x);
    case Record(x) => PairClaims(s, RecordStep(s, x), x, x);
    case Release(x) => PairClaims(s, ReleaseStep(s, x), x, x);
  }

  lemma StepKeepsClaims(s: State, a: Action)
    requires Inv(s) && Enabled(s, a)
    ensures ClaimsKept(s, Apply(s, a))
  {
    if Submitting(a) {
      SubmittingKeepsClaims(s, a);
    } else if a.Finish? || a.FinishInline? || a.Record? || a.Release? {
      EndingKeepsClaims(s, a);
    } else if a.Offer? {
      PairClaims(s, OfferStep(s, a.p, a.x), a.p, a.x);
    } else if a.Retire? {
      RetireClaims(s, a.x);
    } else if a.CancelCaller? {
      CancelCallerClaims(s, a.x);
    } else if a.Quit? {
      PairClaims(s, Apply(s, Quit), 0, 0);
    } else {
      assert Apply(s, a).nodes == s.nodes;
    }
  }

  lemma RetireClaims(s: State, x: nat)
    requires At(s, x, Freed)
    ensures ClaimsKept(s, RetireStep(s, x))
  {
  }

  lemma CancelCallerClaims(s: State, x: nat)
    requires Enabled(s, CancelCaller(x))
    ensures ClaimsKept(s, Apply(s, CancelCaller(x)))
  {
  }

  lemma {:induction false} RunKeepsClaims(s: State, schedule: seq<Action>)
    requires Inv(s) && Feasible(s, schedule)
    ensures ClaimsKept(s, Exec(s, schedule))
    decreases |schedule|
  {
    if schedule == [] {
    } else {
      StepKeepsClaims(s, schedule[0]);
      StepKeeps(s, schedule[0]);
      RunKeepsClaims(Apply(s, schedule[0]), schedule[1..]);
    }
  }

  /** Index order is submission order: if x has been submitted when y has not, x's index is the smaller one for good. */
  lemma IndexOrder(s: State, schedule: seq<Action>, x: nat, y: nat)
    requires Inv(s) && Feasible(s, schedule) && 1 <= x < |s.nodes| && 1 <= y < |s.nodes|
    requires Claimed(s.nodes[x]) && !Claimed(s.nodes[y])
    ensures var t := Exec(s, schedule);
      && x < |t.nodes| && y < |t.nodes| && t.nodes[x].idx == s.nodes[x].idx
      && (Claimed(t.nodes[y]) ==> t.nodes[x].idx < t.nodes[y].idx)
  {
    RunKeepsClaims(s, schedule);
  }

  // ---- errors in two logs

  /** Errors(): the errors of the results, in the order of the results. */
  function ResultErrs(results: seq<Entry>): seq<TaskErr> {
    if results == [] then []
    else
      var r := results[|results| - 1].val;
      ResultErrs(results[..|results| - 1]) + if r.err.Some? then [TaskErr(r.node, r.err.value)] else []
  }

  ghost predicate OfEntry(e: TaskErr, r: Entry) {
    r.val.node == e.node && r.val.err == Some(e.err)
  }

  /** When no two results are of the same task, the errors taken from them are distinct. */
  lemma {:induction false} ResultErrsMeaning(results: seq<Entry>)
    requires forall i, j :: 0 <= i < j < |results| ==> results[i].val.node != results[j].val.node
    ensures Distinct(ResultErrs(results))
    ensures forall e :: e in ResultErrs(results) <==> exists i :: 0 <= i < |results| && OfEntry(e, results[i])
  {
    if results == [] {
    } else {
      var init := results[..|results| - 1];
      ResultErrsMeaning(init);
      var before := ResultErrs(init);
      forall e ensures e in ResultErrs(results) <==> exists i :: 0 <= i < |results| && OfEntry(e, results[i]) {
        if e in before {
          var i :| 0 <= i < |init| && OfEntry(e, init[i]);
          assert OfEntry(e, results[i]);
        }
        if exists i :: 0 <= i < |results| && OfEntry(e, results[i]) {
          var i :| 0 <= i < |results| && OfEntry(e, results[i]);
          assert i < |init| ==> OfEntry(e, init[i]);
        }
      }
      forall k | 0 <= k < |before| ensures before[k].node != results[|results| - 1].val.node {
        assert before[k] in before;
        var i :| 0 <= i < |init| && OfEntry(before[k], init[i]);
      }
    }
  }

  lemma ResultNodesDistinct(s: State)
    requires LogsOk(s)
    ensures forall i, j :: 0 <= i < j < |s.results| ==> s.results[i].val.node != s.results[j].val.node
  {
    forall i, j | 0 <= i < j < |s.results| ensures s.results[i].val.node != s.results[j].val.node {
      assert s.results[i] in multiset(s.results) && s.results[j] in multiset(s.results);
      assert Stored(s.nodes, s.results[i]) && Stored(s.nodes, s.results[j]);
      if s.results[i] == s.results[j] {
        CountedTwice(s.results, i, j);
      }
    }
  }

  /**
   * Error conservation: when Wait has returned, the errors kept with the results and the errors
   * kept by the inner pool are the same multiset, although the two logs may order them differently.
   */
  lemma ErrorsConserved(s0: State, schedule: seq<Action>)
    requires Init(s0) && Feasible(s0, schedule) && Exec(s0, schedule).quiet
    ensures var s := Exec(s0, schedule); multiset(ResultErrs(s.results)) == multiset(s.errs)
  {
    RunInv(s0, schedule);
    ConservedAtEnd(Exec(s0, schedule));
  }

  lemma ConservedAtEnd(s: State)
    requires Inv(s) && s.quiet
    ensures multiset(ResultErrs(s.results)) == multiset(s.errs)
  {
    ResultNodesDistinct(s);
    ResultErrsMeaning(s.results);
    forall e: TaskErr ensures multiset(ResultErrs(s.results))[e] == multiset(s.errs)[e] {
      DistinctCounts(ResultErrs(s.results), e);
      ConservedHere(s, e);
    }
  }

  lemma ConservedHere(s: State, e: TaskErr)
    requires Inv(s) && s.quiet
    ensures ErrStored(s.nodes, e) <==> exists i :: 0 <= i < |s.results| && OfEntry(e, s.results[i])
  {
    if ErrStored(s.nodes, e) {
      var r := EntryOf(e.node, s.nodes[e.node]);
      assert Stored(s.nodes, r);
      assert r in multiset(s.results);
      var i :| 0 <= i < |s.results| && s.results[i] == r;
      assert OfEntry(e, s.results[i]);
    }
    if exists i :: 0 <= i < |s.results| && OfEntry(e, s.results[i]) {
      var i :| 0 <= i < |s.results| && OfEntry(e, s.results[i]);
      assert s.results[i] in multiset(s.results);
      assert Stored(s.nodes, s.results[i]);
      NothingActive(s, e.node);
    }
  }

  /** The errors are of tasks with increasing indices. */
  ghost predicate InIndexOrder(errs: seq<TaskErr>, nodes: seq<Node>) {
    && (forall i :: 0 <= i < |errs| ==> errs[i].node < |nodes|)
    && forall i, j :: 0 <= i < j < |errs| ==> nodes[errs[i].node].idx < nodes[errs[j].node].idx
  }

  /** Errors taken from increasing results are in the order of the claimed indices. */
  lemma {:induction false} ResultErrsOrder(results: seq<Entry>, nodes: seq<Node>)
    requires Increasing(results)
    requires forall i :: 0 <= i < |results| ==>
      results[i].val.node < |nodes| && nodes[results[i].val.node].idx == results[i].key
    ensures InIndexOrder(ResultErrs(results), nodes)
  {
    if results == [] {
    } else {
      var init := results[..|results| - 1];
      var before := ResultErrs(init);
      ResultErrsOrder(init, nodes);
      ResultErrsMeaning(init);
      forall i | 0 <= i < |before| ensures nodes[before[i].node].idx < results[|results| - 1].key {
        assert before[i] in before;
        var k :| 0 <= k < |init| && OfEntry(before[i], init[k]);
        assert init[k] == results[k];
      }
    }
  }

  /**
   * In ordered mode Errors() returns the errors that the inner pool has recorded, arranged by
   * the claimed index of their tasks.
   */
  lemma ErrorsInIndexOrder(s0: State, schedule: seq<Action>)
    requires Init(s0) && Feasible(s0, schedule) && Exec(s0, schedule).quiet && Exec(s0, schedule).cfg.ordered
    ensures var s := Exec(s0, schedule);
      var es := ResultErrs(Arranged(s.cfg, s.results));
      && multiset(es) == multiset(s.errs)
      && InIndexOrder(es, s.nodes)
  {
    RunInv(s0, schedule);
    ErrorsConserved(s0, schedule);
    var s := Exec(s0, schedule);
    SortCorrect(s.results);
    ResultKeysUnique(s);
    SortIncreasing(s.results);
    IncreasingUnique(Sort(s.results), s.results);
    forall i | 0 <= i < |s.results|
      ensures s.results[i].val.node < |s.nodes| && s.nodes[s.results[i].val.node].idx == s.results[i].key
    {
      assert s.results[i] in multiset(s.results);
      assert Stored(s.nodes, s.results[i]);
    }
    ResultErrsOrder(s.results, s.nodes);
  }

  // ---- the cause of cancellation

  /**
   * Cause equals first error: until Wait cancels, and without an outside cancellation, the
   * context is done if and only if the pool cancels on errors and has recorded one, and the
   * cause is the first recorded error.  An outside cancellation that came first keeps its cause.
   */
  lemma CauseIsFirstError(s0: State, schedule: seq<Action>)
    requires Init(s0) && Feasible(s0, schedule)
    ensures var s := Exec(s0, schedule);
      && (!s.outside && !s.waited ==>
            s.ctx == if s.cfg.cancelOnError && s.errs != [] then Some(Error(s.errs[0])) else None)
      && (s.ctx.Some? && s.ctx.value.Error? ==> s.errs != [] && s.ctx.value.e == s.errs[0])
  {
    RunInv(s0, schedule);
  }

  lemma CauseStays(s: State, a: Action)
    requires Enabled(s, a) && s.ctx.Some?
    ensures Apply(s, a).ctx == s.ctx
  {
  }

  /** Once set, the cause never changes within the batch. */
  lemma {:induction false} CauseIsFinal(s: State, schedule: seq<Action>)
    requires Feasible(s, schedule) && s.ctx.Some?
    ensures Exec(s, schedule).ctx == s.ctx
    decreases |schedule|
  {
    if schedule == [] {
    } else {
      CauseStays(s, schedule[0]);
      CauseIsFinal(Apply(s, schedule[0]), schedule[1..]);
    }
  }

  /** With WithFirstError, Wait returns exactly the error that tasks see as the cause. */
  lemma WaitReturnsTheCause(s0: State, schedule: seq<Action>, e: TaskErr)
    requires Init(s0) && Feasible(s0, schedule)
    requires var s := Exec(s0, schedule); s.quiet && s.cfg.firstError && s.ctx == Some(Error(e))
    ensures Exec(s0, schedule).answer.errs == [e]
  {
    RunInv(s0, schedule);
  }

  // ---- starts

  /** No task is started twice, and it is started on its own goroutine or inline, never both. */
  lemma StartedOnce(s0: State, schedule: seq<Action>, x: nat)
    requires Init(s0) && Feasible(s0, schedule)
    ensures var s := Exec(s0, schedule);
      && multiset(s.log)[x] <= 1
      && (x in s.log <==> Started(s.nodes, x))
      && (x in s.log ==> Active(s.nodes[x]) || s.nodes[x].out.Some?)
      && (1 <= x < |s.nodes| && x !in s.log ==> s.nodes[x].out.None? && !Active(s.nodes[x]))
  {
    RunInv(s0, schedule);
    var s := Exec(s0, schedule);
    assert x in multiset(s.log) <==> x in s.log;
    assert multiset(s.log)[x] == if Started(s.nodes, x) then 1 else 0;
  }

  // ---- another batch

  /** After Wait a Reset pool is as good as new: the next batch is a run from an initial state. */
  lemma ResetStartsAfresh(s: State, nodes: seq<Node>, waits: nat)
    requires Inv(s) && s.quiet
    requires Tree(nodes) && nodes[0].role == Owner && nodes[0].pc == Run && nodes[0].out == None
    requires forall x :: 1 <= x < |nodes| ==> nodes[x].role == Nobody && nodes[x].pc == Idle && nodes[x].out == None
    ensures var t := Reset(s, nodes, waits);
      Init(t) && Inv(t) && t.cfg == s.cfg && t.outside == s.outside && t.nodes == nodes && t.waitsLeft == waits
  {
    forall x | 0 <= x < |s.nodes| ensures Tokens(s.nodes[x]) == 0 {
      QuietNodes(s, x);
    }
    SumZero(Tokens, s.nodes);
    InitEstablishes(Reset(s, nodes, waits));
  }
}
