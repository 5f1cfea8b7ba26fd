/** When the errors that Errors returns and those that Wait joins are in the same order. */
module PoolErrorOrder {
  import opened Counting
  import opened Options
  import opened Sorting
  import opened PoolProtocol
  import opened PoolInvariant
  import opened PoolTheorems
  import opened PoolRuns

  /** Wait has returned, and Errors lists the errors in another order than the inner pool. */
  ghost predicate Differ(s: State) {
    s.quiet && ResultErrs(Arranged(s.cfg, s.results)) != s.errs
  }

  ghost predicate DiffersAfter(s0: State, schedule: seq<Action>) {
    Feasible(s0, schedule) && Differ(Exec(s0, schedule))
  }

  // ---- with two slots and two tasks they can differ

  /** Both tasks end with an error, the first one first. */
  lemma BothFinish(s: State) returns (schedule: seq<Action>)
    requires |s.nodes| >= 3 && s.sem == 2 && s.wg == 2 && s.errs == [] && s.results == []
    requires forall x :: x in {1, 2} ==> At(s, x, Run) && s.nodes[x].role.Spawned? && s.nodes[x].idx == x - 1
    ensures Feasible(s, schedule)
    ensures var t := Exec(s, schedule);
      && |t.nodes| == |s.nodes| && t.nodes[0] == s.nodes[0] && t.cfg == s.cfg && t.sem == 2 && t.wg == 2
      && t.wait == s.wait && t.waitsLeft == s.waitsLeft && t.errs == []
      && t.results == [Keyed(0, Res(1, 0, Some(10))), Keyed(1, Res(2, 0, Some(20)))]
      && At(t, 1, Returned) && t.nodes[1].out == Some(Outcome(0, Some(10)))
      && At(t, 2, Returned) && t.nodes[2].out == Some(Outcome(0, Some(20)))
  {
    var first, second := Outcome(0, Some(10)), Outcome(0, Some(20));
    assert 1 in {1, 2} && 2 in {1, 2};
    var s1 := FinishStep(s, 1, first);
    OneStep(s1, Finish(2, second));
    schedule := Prepend(s, Finish(1, first), [Finish(2, second)]);
  }

  /** But the second is the first to record its error. */
  lemma BothRecord(s: State) returns (schedule: seq<Action>)
    requires |s.nodes| >= 3 && s.sem == 2 && s.wg == 2 && s.errs == []
    requires At(s, 1, Returned) && s.nodes[1].out == Some(Outcome(0, Some(10)))
    requires At(s, 2, Returned) && s.nodes[2].out == Some(Outcome(0, Some(20)))
    ensures Feasible(s, schedule)
    ensures var t := Exec(s, schedule);
      && |t.nodes| == |s.nodes| && t.nodes[0] == s.nodes[0] && t.cfg == s.cfg && t.sem == 2 && t.wg == 2
      && t.wait == s.wait && t.waitsLeft == s.waitsLeft && t.results == s.results
      && t.errs == [TaskErr(2, 20), TaskErr(1, 10)] && At(t, 1, Recorded) && At(t, 2, Recorded)
  {
    var s1 := RecordStep(s, 2);
    OneStep(s1, Record(1));
    schedule := Prepend(s, Record(2), [Record(1)]);
  }

  lemma BothWindUp(s: State) returns (schedule: seq<Action>)
    requires |s.nodes| >= 3 && s.sem == 2 && s.wg == 2 && At(s, 1, Recorded) && At(s, 2, Recorded)
    ensures Feasible(s, schedule)
    ensures var t := Exec(s, schedule);
      && |t.nodes| == |s.nodes| && t.nodes[0] == s.nodes[0] && t.cfg == s.cfg && t.wg == 0
      && t.wait == s.wait && t.waitsLeft == s.waitsLeft && t.results == s.results && t.errs == s.errs
  {
    schedule := WindsUp(s, 1);
    var rest := WindsUp(WoundUp(s, 1), 2);
    ExecBoth(s, schedule, rest);
    schedule := schedule + rest;
  }

  lemma BothSpawn(s0: State) returns (schedule: seq<Action>)
    requires Init(s0) && s0.cfg.n >= 2 && |s0.nodes| >= 3
    ensures Feasible(s0, schedule)
    ensures var t := Exec(s0, schedule);
      && |t.nodes| == |s0.nodes| && t.nodes[0] == s0.nodes[0] && t.cfg == s0.cfg && t.sem == 2 && t.wg == 2
      && t.wait == s0.wait && t.waitsLeft == s0.waitsLeft && t.errs == [] && t.results == []
      && forall x :: x in {1, 2} ==> At(t, x, Run) && t.nodes[x].role.Spawned? && t.nodes[x].idx == x - 1
  {
    schedule := Spawns(s0, 0, 1);
    var s1 := AfterSpawn(s0, 1);
    var rest := Spawns(s1, s0.nodes[2].parent, 2);
    ExecBoth(s0, schedule, rest);
    schedule := schedule + rest;
  }

  /** Sorting leaves such results as they are, and Errors returns the errors in that order. */
  lemma TwoArranged(cfg: Config, r: seq<Entry>)
    requires r == [Keyed(0, Res(1, 0, Some(10))), Keyed(1, Res(2, 0, Some(20)))]
    ensures Arranged(cfg, r) == r && ResultErrs(r) == [TaskErr(1, 10), TaskErr(2, 20)]
  {
    assert r[..1] == [r[0]] && r[..1][..0] == [] && r == r[..1] + [r[1]];
    assert Sort(r[..1]) == [r[0]];
    assert ResultErrs(r[..1]) == [TaskErr(1, 10)];
  }

  lemma TwoCanDiffer(s0: State) returns (schedule: seq<Action>)
    requires Init(s0) && s0.cfg.n >= 2 && |s0.nodes| >= 3 && s0.waitsLeft > 0
    ensures DiffersAfter(s0, schedule)
  {
    schedule := BothSpawn(s0);
    var rest := BothFinish(Exec(s0, schedule));
    ExecBoth(s0, schedule, rest);
    schedule := schedule + rest;
    TwoArranged(s0.cfg, Exec(s0, schedule).results);
    rest := BothRecord(Exec(s0, schedule));
    ExecBoth(s0, schedule, rest);
    schedule := schedule + rest;
    rest := BothWindUp(Exec(s0, schedule));
    ExecBoth(s0, schedule, rest);
    schedule := schedule + rest;
    rest := WaitReturns(Exec(s0, schedule));
    ExecBoth(s0, schedule, rest);
    schedule := schedule + rest;
  }

  // ---- with one slot they cannot

  /** The task has been spawned and has not been through the section that records its error. */
  predicate Unrecorded(t: Node) {
    t.role.Spawned? && !t.pc.Recorded? && !t.pc.Freed? && !t.pc.Over?
  }

  /** The index of a spawned task is below that of x. */
  ghost predicate SpawnedBelow(nodes: seq<Node>, x: nat)
    requires x < |nodes|
  {
    forall z :: 1 <= z < |nodes| && z != x && nodes[z].role.Spawned? ==> nodes[z].idx < nodes[x].idx
  }

  /** A task that is offered, or that has not recorded yet, comes after all others that were spawned. */
  ghost predicate SoloOrder(nodes: seq<Node>) {
    forall x :: 1 <= x < |nodes| && (nodes[x].pc.Offered? || Unrecorded(nodes[x])) ==> SpawnedBelow(nodes, x)
  }

  /** With one slot tasks are spawned, and end, in the order of their indices. */
  ghost predicate SoloOk(s: State) {
    s.cfg.n == 1 && SoloOrder(s.nodes) && InIndexOrder(s.errs, s.nodes) && Increasing(s.results)
  }

  /** A submitter that runs without a token, on the owner's goroutine. */
  function Front(t: Node): nat {
    if !t.role.Spawned? && (t.pc.Submitting? || t.pc.Spawning? || t.pc.Denied?) then 1 else 0
  }

  function OwnerNode(t: Node): nat {
    if t.role.Owner? then 1 else 0
  }

  function Ahead(t: Node): nat { IsInlining(t) + Front(t) }

  function Behind(t: Node): nat { InlineActive(t) + OwnerNode(t) }

  lemma {:induction false} OneOwner(nodes: seq<Node>)
    requires forall x :: 0 <= x < |nodes| ==> (nodes[x].role.Owner? <==> x == 0)
    ensures Sum(OwnerNode, nodes) <= 1 && (|nodes| == 0 ==> Sum(OwnerNode, nodes) == 0)
  {
    if |nodes| <= 1 {
    } else {
      OneOwner(nodes[..|nodes| - 1]);
    }
  }

  /** While one task is being spawned nobody else holds a token. */
  lemma SpawningHoldsAll(s: State, p: nat, q: nat)
    requires Counts(s) && s.cfg.n == 1 && p < |s.nodes| && q < |s.nodes| && s.nodes[p].pc.Spawning?
    ensures Tokens(s.nodes[q]) == if q == p then 1 else 0
  {
    SumAtLeast(Tokens, s.nodes, p);
    if q < p {
      SumTwo(Tokens, s.nodes, q, p);
    } else if p < q {
      SumTwo(Tokens, s.nodes, p, q);
    }
  }

  /** So the one submitter is the innermost frame of the owner's goroutine. */
  lemma OneFront(s: State, p: nat)
    requires Inv(s) && s.cfg.n == 1 && p < |s.nodes| && s.nodes[p].pc.Spawning?
    ensures Sum(Front, s.nodes) <= 1
  {
    forall x | 0 <= x < |s.nodes|
      ensures Ahead(s.nodes[x]) <= Behind(s.nodes[x]) && (s.nodes[x].role.Owner? <==> x == 0)
    {
      SpawningHoldsAll(s, p, x);
      assert NodeOk(s.nodes[x], x == 0);
    }
    OneOwner(s.nodes);
    SumMonotone(Ahead, Behind, s.nodes);
    SumPlus(Ahead, IsInlining, Front, s.nodes);
    SumPlus(Behind, InlineActive, OwnerNode, s.nodes);
  }

  /** And nothing is offered but the task that is being spawned. */
  lemma OneOffered(s: State, p: nat, w: nat)
    requires Inv(s) && s.cfg.n == 1 && p < |s.nodes| && s.nodes[p].pc.Spawning?
    requires 1 <= w < |s.nodes| && s.nodes[w].pc.Offered?
    ensures w == s.nodes[p].pc.child
  {
    var q := s.nodes[w].parent;
    assert NeedsParent(s.nodes[w]) && NodeOk(s.nodes[w], false);
    assert ChildOf(s.nodes[q].pc) == Some(w);
    if q != p {
      OneFront(s, p);
      SpawningHoldsAll(s, p, p);
      SpawningHoldsAll(s, p, q);
      assert Front(s.nodes[p]) == 1 && Front(s.nodes[q]) == 1;
      SumTwo(Front, s.nodes, if p < q then p else q, if p < q then q else p);
    }
  }

  /** A node moves, and is not offered, spawned or made unrecorded. */
  predicate SoloMove(u: Node, t: Node) {
    && t.idx == u.idx && t.role.Spawned? == u.role.Spawned?
    && (t.pc.Offered? ==> u.pc.Offered?) && (Unrecorded(t) ==> Unrecorded(u))
  }

  lemma OrderFrame(ns: seq<Node>, nt: seq<Node>)
    requires SoloOrder(ns) && |nt| == |ns|
    requires forall q :: 0 <= q < |ns| ==> SoloMove(ns[q], nt[q])
    ensures SoloOrder(nt)
  {
    forall x | 1 <= x < |nt| && (nt[x].pc.Offered? || Unrecorded(nt[x])) ensures SpawnedBelow(nt, x) {
      assert SoloMove(ns[x], nt[x]) && SpawnedBelow(ns, x);
      forall z | 1 <= z < |nt| && z != x && nt[z].role.Spawned? ensures nt[z].idx < nt[x].idx {
        assert SoloMove(ns[z], nt[z]);
      }
    }
  }

  lemma ErrsFrame(errs: seq<TaskErr>, ns: seq<Node>, nt: seq<Node>)
    requires InIndexOrder(errs, ns) && |nt| == |ns|
    requires forall i :: 0 <= i < |errs| ==> nt[errs[i].node].idx == ns[errs[i].node].idx
    ensures InIndexOrder(errs, nt)
  {
  }

  /** Two nodes move. */
  lemma SoloFrame(s: State, t: State, p: nat, x: nat)
    requires SoloOk(s) && p < |s.nodes| == |t.nodes| && x < |s.nodes|
    requires t.nodes == s.nodes[x := t.nodes[x]][p := t.nodes[p]]
    requires t.cfg == s.cfg && t.errs == s.errs && t.results == s.results
    requires SoloMove(s.nodes[p], t.nodes[p]) && SoloMove(s.nodes[x], t.nodes[x])
    ensures SoloOk(t)
  {
    OrderFrame(s.nodes, t.nodes);
    ErrsFrame(s.errs, s.nodes, t.nodes);
  }

  lemma ErrSpawned(s: State, i: nat)
    requires LogsOk(s) && i < |s.errs|
    ensures ErrStored(s.nodes, s.errs[i])
  {
    assert s.errs[i] in multiset(s.errs);
  }

  /** A new index is larger than those of all spawned tasks. */
  lemma OfferOrder(s: State, p: nat, x: nat)
    requires NodesOk(s) && IndicesOk(s) && SoloOrder(s.nodes) && Enabled(s, Offer(p, x)) && p != x
    ensures SoloOrder(OfferStep(s, p, x).nodes)
  {
    var nt := OfferStep(s, p, x).nodes;
    forall z | 1 <= z < |nt| && z != x && nt[z].role.Spawned? ensures nt[z].idx < s.idx && nt[z].idx == s.nodes[z].idx {
      assert NodeOk(s.nodes[z], false) && Claimed(s.nodes[z]);
    }
    assert NodeOk(s.nodes[x], false);
    forall w | 1 <= w < |nt| && w != x && (nt[w].pc.Offered? || Unrecorded(nt[w])) ensures SpawnedBelow(nt, w) {
      assert SpawnedBelow(s.nodes, w);
    }
  }

  lemma OfferSolo(s: State, p: nat, x: nat)
    requires Inv(s) && SoloOk(s) && Enabled(s, Offer(p, x))
    ensures SoloOk(OfferStep(s, p, x))
  {
    assert NodeOk(s.nodes[x], x == 0);
    forall i | 0 <= i < |s.errs| ensures s.errs[i].node != x {
      ErrSpawned(s, i);
    }
    OfferOrder(s, p, x);
    ErrsFrame(s.errs, s.nodes, OfferStep(s, p, x).nodes);
  }

  lemma SpawnOrder(ns: seq<Node>, nt: seq<Node>, p: nat, x: nat)
    requires SoloOrder(ns) && p < |ns| == |nt| && 1 <= x < |ns| && p != x && ns[x].pc.Offered?
    requires nt == ns[x := nt[x]][p := nt[p]] && nt[x].idx == ns[x].idx && SoloMove(ns[p], nt[p])
    requires forall w :: 1 <= w < |ns| && w != x ==> !ns[w].pc.Offered? && !Unrecorded(ns[w])
    ensures SoloOrder(nt)
  {
    assert SpawnedBelow(ns, x);
    assert SpawnedBelow(nt, x);
  }

  lemma SpawnSolo(s: State, p: nat, x: nat)
    requires Inv(s) && SoloOk(s) && Enabled(s, Spawn(p)) && s.nodes[p].pc.child == x
    ensures SoloOk(SpawnStep(s, p, x))
  {
    Submission(s, p);
    forall w | 1 <= w < |s.nodes| && w != x ensures !s.nodes[w].pc.Offered? && !Unrecorded(s.nodes[w]) {
      if s.nodes[w].pc.Offered? {
        OneOffered(s, p, w);
      }
      SpawningHoldsAll(s, p, w);
    }
    SpawnOrder(s.nodes, SpawnStep(s, p, x).nodes, p, x);
    ErrsFrame(s.errs, s.nodes, SpawnStep(s, p, x).nodes);
  }

  lemma FinishSolo(s: State, x: nat, outcome: Outcome)
    requires Inv(s) && SoloOk(s) && Enabled(s, Finish(x, outcome))
    ensures SoloOk(FinishStep(s, x, outcome))
  {
    var t := FinishStep(s, x, outcome);
    assert NodeOk(s.nodes[x], x == 0);
    SoloFrame(s, t.(results := s.results), x, x);
    assert SpawnedBelow(s.nodes, x);
    forall i | 0 <= i < |s.results| ensures s.results[i].key < s.nodes[x].idx {
      assert s.results[i] in multiset(s.results);
      assert Stored(s.nodes, s.results[i]);
    }
  }

  lemma RecordOrder(errs: seq<TaskErr>, added: seq<TaskErr>, ns: seq<Node>, x: nat)
    requires InIndexOrder(errs, ns) && x < |ns| && |added| <= 1 && (added != [] ==> added[0].node == x)
    requires forall i :: 0 <= i < |errs| ==> ns[errs[i].node].idx < ns[x].idx
    ensures InIndexOrder(errs + added, ns)
  {
  }

  lemma RecordSolo(s: State, x: nat)
    requires Inv(s) && SoloOk(s) && Enabled(s, Record(x))
    ensures SoloOk(RecordStep(s, x))
  {
    var t := RecordStep(s, x);
    assert NodeOk(s.nodes[x], x == 0);
    SoloFrame(s, t.(errs := s.errs), x, x);
    assert SpawnedBelow(s.nodes, x);
    forall i | 0 <= i < |s.errs| ensures s.nodes[s.errs[i].node].idx < s.nodes[x].idx {
      ErrSpawned(s, i);
    }
    RecordOrder(s.errs, NewErr(x, s.nodes[x].out.value), t.nodes, x);
  }

  lemma ReadResultsSolo(s: State)
    requires Inv(s) && SoloOk(s)
    ensures SoloOk(ReadResultsStep(s))
  {
    ArrangedIncreasing(s);
  }

  /** Increasing results are not moved by sorting. */
  lemma ArrangedIncreasing(s: State)
    requires Inv(s) && Increasing(s.results)
    ensures Arranged(s.cfg, s.results) == s.results
  {
    SortCorrect(s.results);
    ResultKeysUnique(s);
    SortIncreasing(s.results);
    IncreasingUnique(Sort(s.results), s.results);
  }

  lemma SubmittingSolo(s: State, a: Action)
    requires Inv(s) && SoloOk(s) && Enabled(s, a) && PoolTheorems.Submitting(a)
    ensures SoloOk(Apply(s, a))
  {
    var p := a.p;
    var x := s.nodes[p].pc.child;
    Submission(s, p);
    assert NodeOk(s.nodes[p], p == 0);
    match a
    case Acquire(_) => SoloFrame(s, AcquireStep(s, p), p, p);
    case Bail(_) => SoloFrame(s, RejectStep(s, p, x), p, x);
    case Deny(_) => SoloFrame(s, DenyStep(s, p), p, p);
    case Drop(_) => SoloFrame(s, RejectStep(s, p, x), p, x);
    case StartInline(_) => SoloFrame(s, StartInlineStep(s, p, x), p, x);
    case Spawn(_) => SpawnSolo(s, p, x);
  }

  lemma EndingSolo(s: State, a: Action)
    requires Inv(s) && SoloOk(s) && Enabled(s, a)
    requires a.FinishInline? || a.Release? || a.Retire?
    ensures SoloOk(Apply(s, a))
  {
    match a
    case FinishInline(x, outcome) => FinishInlineSolo(s, x, outcome);
    case Release(x) => SoloFrame(s, ReleaseStep(s, x), x, x);
    case Retire(x) => RetireSolo(s, x);
  }

  lemma FinishInlineSolo(s: State, x: nat, outcome: Outcome)
    requires SoloOk(s) && Enabled(s, FinishInline(x, outcome))
    ensures SoloOk(FinishInlineStep(s, x, outcome))
  {
    SoloFrame(s, FinishInlineStep(s, x, outcome), s.nodes[x].parent, x);
  }

  lemma RetireSolo(s: State, x: nat)
    requires SoloOk(s) && At(s, x, Freed)
    ensures SoloOk(RetireStep(s, x))
  {
    SoloFrame(s, RetireStep(s, x), x, x);
  }

  lemma StepSolo(s: State, a: Action)
    requires Inv(s) && SoloOk(s) && Enabled(s, a)
    ensures SoloOk(Apply(s, a))
  {
    if PoolTheorems.Submitting(a) {
      SubmittingSolo(s, a);
    } else if a.Offer? {
      OfferSolo(s, a.p, a.x);
    } else if a.Finish? {
      FinishSolo(s, a.x, a.outcome);
    } else if a.Record? {
      RecordSolo(s, a.x);
    } else if a.FinishInline? || a.Release? || a.Retire? {
      EndingSolo(s, a);
    } else if a.ReadResults? {
      ReadResultsSolo(s);
    } else if a.CancelCaller? {
      SoloFrame(s, Apply(s, a), a.x, a.x);
    } else if a.Quit? {
      SoloFrame(s, Apply(s, a), 0, 0);
    } else {
      assert Apply(s, a).nodes == s.nodes && Apply(s, a).errs == s.errs && Apply(s, a).results == s.results;
    }
  }

  lemma {:induction false} RunSolo(s: State, schedule: seq<Action>)
    requires Inv(s) && SoloOk(s) && Feasible(s, schedule)
    ensures SoloOk(Exec(s, schedule))
    decreases |schedule|
  {
    if schedule == [] {
    } else {
      StepSolo(s, schedule[0]);
      StepKeeps(s, schedule[0]);
      RunSolo(Apply(s, schedule[0]), schedule[1..]);
    }
  }

  // ---- when they agree

  /** Logs that are both in index order hold the errors in the same order. */
  lemma OrderedAgree(s: State)
    requires Inv(s) && s.quiet && InIndexOrder(s.errs, s.nodes) && Increasing(s.results)
    ensures !Differ(s)
  {
    ArrangedIncreasing(s);
    forall i | 0 <= i < |s.results|
      ensures s.results[i].val.node < |s.nodes| && s.nodes[s.results[i].val.node].idx == s.results[i].key
    {
      assert s.results[i] in multiset(s.results);
      assert Stored(s.nodes, s.results[i]);
    }
    ResultErrsOrder(s.results, s.nodes);
    ConservedAtEnd(s);
    var nodes := s.nodes;
    IncreasingByUnique(
      (e: TaskErr) => if e.node < |nodes| then nodes[e.node].idx else 0, ResultErrs(s.results), s.errs);
  }

  lemma SoloAgrees(s0: State, schedule: seq<Action>)
    requires Init(s0) && s0.cfg.n == 1 && Feasible(s0, schedule)
    ensures !Differ(Exec(s0, schedule))
  {
    InitEstablishes(s0);
    RunKeeps(s0, schedule);
    RunSolo(s0, schedule);
    if Exec(s0, schedule).quiet {
      OrderedAgree(Exec(s0, schedule));
    }
  }

  lemma OneError(s: State)
    requires LogsOk(s) && |s.nodes| <= 2
    ensures InIndexOrder(s.errs, s.nodes)
  {
    forall i | 0 <= i < |s.errs| ensures s.errs[i].node == 1 && |s.nodes| == 2 {
      ErrSpawned(s, i);
    }
    if |s.errs| >= 2 {
      ErrSpawned(s, 0);
      ErrSpawned(s, 1);
      CountedTwice(s.errs, 0, 1);
    }
  }

  lemma OneResult(s: State)
    requires LogsOk(s) && |s.nodes| <= 2
    ensures Increasing(s.results)
  {
    forall i | 0 <= i < |s.results| ensures s.results[i].val.node == 1 {
      assert s.results[i] in multiset(s.results);
      assert Stored(s.nodes, s.results[i]);
    }
    ResultNodesDistinct(s);
  }

  /** With at most one task neither log has two entries. */
  lemma OneTaskAgrees(s: State)
    requires Inv(s) && s.quiet && |s.nodes| <= 2
    ensures !Differ(s)
  {
    OneError(s);
    OneResult(s);
    OrderedAgree(s);
  }

  predicate NeverWaits(s: State) {
    s.waitsLeft == 0 && s.wait.Working? && !s.quiet
  }

  lemma StepNeverWaits(s: State, a: Action)
    requires Enabled(s, a) && NeverWaits(s)
    ensures NeverWaits(Apply(s, a))
  {
  }

  lemma {:induction false} RunNeverWaits(s: State, schedule: seq<Action>)
    requires Feasible(s, schedule) && NeverWaits(s)
    ensures NeverWaits(Exec(s, schedule))
    decreases |schedule|
  {
    if schedule == [] {
    } else {
      StepNeverWaits(s, schedule[0]);
      RunNeverWaits(Apply(s, schedule[0]), schedule[1..]);
    }
  }

  lemma AgreesOtherwise(s0: State, schedule: seq<Action>)
    requires Init(s0) && Feasible(s0, schedule)
    requires s0.cfg.n < 2 || |s0.nodes| < 3 || s0.waitsLeft == 0
    ensures !Differ(Exec(s0, schedule))
  {
    if s0.cfg.n < 2 {
      SoloAgrees(s0, schedule);
    } else if s0.waitsLeft == 0 {
      RunNeverWaits(s0, schedule);
    } else {
      InitEstablishes(s0);
      RunKeeps(s0, schedule);
      RunKeepsClaims(s0, schedule);
      if Exec(s0, schedule).quiet {
        OneTaskAgrees(Exec(s0, schedule));
      }
    }
  }

  /**
   * The exact condition, ordered or not: some run ends with Errors and the errors that Wait joins
   * in different orders if and only if the pool has two slots or more, at least two tasks, and
   * Wait is called.  Otherwise the two always agree.
   */
  lemma OrdersDifferExactly(s0: State)
    requires Init(s0)
    ensures (exists schedule :: DiffersAfter(s0, schedule)) <==>
            s0.cfg.n >= 2 && |s0.nodes| >= 3 && s0.waitsLeft > 0
  {
    if s0.cfg.n >= 2 && |s0.nodes| >= 3 && s0.waitsLeft > 0 {
      var schedule := TwoCanDiffer(s0);
      assert DiffersAfter(s0, schedule);
    } else {
      forall schedule | Feasible(s0, schedule) ensures !DiffersAfter(s0, schedule) {
        AgreesOtherwise(s0, schedule);
      }
    }
  }
}
