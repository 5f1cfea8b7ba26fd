/** When a pool can deadlock, and that it always completes otherwise. */
module PoolLiveness {
  import opened Counting
  import opened Options
  import opened PoolProtocol
  import opened PoolInvariant
  import opened PoolTheorems

  // ---- stuck states

  /** No goroutine can move; contexts may still be cancelled from outside. */
  ghost predicate Stuck(s: State) {
    forall a :: Enabled(s, a) ==> a.CancelCaller? || a.CancelOutside?
  }

  /** The owner is done, every task that was started has ended, and nothing is held. */
  ghost predicate AllReturned(s: State) {
    && At(s, 0, Over) && s.sem == 0 && s.wg == 0
    && forall x :: 1 <= x < |s.nodes| ==> s.nodes[x].pc.Idle? || s.nodes[x].pc.Rejected? || s.nodes[x].pc.Over?
  }

  /** A task, not the owner, that waits in the select of a submission. */
  function BlockedTask(t: Node): nat {
    if t.pc.Submitting? && !t.role.Owner? then 1 else 0
  }

  function Waiter(t: Node): nat {
    if t.pc.Submitting? then 1 else 0
  }

  /** The owner is itself submitting, or running a task inline. */
  function OwnerBusy(t: Node): nat {
    if t.role.Owner? && (t.pc.Submitting? || t.pc.Inlining?) then 1 else 0
  }

  function OwnerInlining(t: Node): nat {
    if t.role.Owner? && t.pc.Inlining? then 1 else 0
  }

  /**
   * Node x cannot move: it has not started, has ended, waits for a token that is not there and
   * would not give up, waits for a task that it runs inline, or is the owner inside Wait.
   */
  ghost predicate AtRest(s: State, x: nat)
    requires x < |s.nodes|
  {
    var t := s.nodes[x];
    && (!t.role.Nobody? ==>
          t.pc.Over? || t.pc.Submitting? || t.pc.Inlining? || (x == 0 && t.pc.Run? && !s.wait.Working?))
    && (t.pc.Submitting? ==>
          && s.sem == s.cfg.n && t.pc.child < |s.nodes|
          && var c := s.nodes[t.pc.child]; !c.via.ViaTry? && !(c.via.ViaGoCtx? && c.ctxDone))
  }

  lemma StuckSubmitter(s: State, x: nat)
    requires Inv(s) && Stuck(s) && x < |s.nodes| && ChildOf(s.nodes[x].pc).Some?
    ensures AtRest(s, x)
  {
    Submission(s, x);
    assert !Enabled(s, Acquire(x)) && !Enabled(s, Bail(x)) && !Enabled(s, Deny(x));
    assert !Enabled(s, Drop(x)) && !Enabled(s, Spawn(x));
  }

  /** A task that runs inline can return to its submitter, which waits for it. */
  lemma InlineCanReturn(s: State, x: nat)
    requires Inv(s) && At(s, x, Run) && s.nodes[x].role.Inline?
    ensures Enabled(s, FinishInline(x, Outcome(0, None)))
  {
    assert NodeOk(s.nodes[x], x == 0);
    assert NeedsParent(s.nodes[x]);
    assert ChildOf(s.nodes[s.nodes[x].parent].pc) == Some(x);
  }

  lemma StuckRunner(s: State, x: nat)
    requires Inv(s) && Stuck(s) && At(s, x, Run)
    ensures AtRest(s, x)
  {
    assert !Enabled(s, Finish(x, Outcome(0, None))) && !Enabled(s, Quit);
    if s.nodes[x].role.Inline? {
      InlineCanReturn(s, x);
    }
  }

  /** A task that gives its token back finds one in sem. */
  lemma RecordedHoldsToken(s: State, x: nat)
    requires Counts(s) && NodesOk(s) && x < |s.nodes| && s.nodes[x].pc.Recorded?
    ensures s.sem > 0
  {
    assert NodeOk(s.nodes[x], x == 0);
    SumAtLeast(Tokens, s.nodes, x);
  }

  lemma StuckEnding(s: State, x: nat)
    requires Inv(s) && Stuck(s) && x < |s.nodes|
    ensures !s.nodes[x].pc.Returned? && !s.nodes[x].pc.Recorded? && !s.nodes[x].pc.Freed?
  {
    assert NodeOk(s.nodes[x], x == 0);
    assert !Enabled(s, Record(x)) && !Enabled(s, Release(x)) && !Enabled(s, Retire(x));
    if s.nodes[x].pc.Recorded? {
      RecordedHoldsToken(s, x);
    }
  }

  lemma StuckNode(s: State, x: nat)
    requires Inv(s) && Stuck(s) && x < |s.nodes|
    ensures AtRest(s, x)
  {
    var t := s.nodes[x];
    if ChildOf(t.pc).Some? {
      StuckSubmitter(s, x);
    } else if t.pc.Run? {
      StuckRunner(s, x);
    } else {
      StuckEnding(s, x);
      assert NodeOk(t, x == 0);
    }
  }

  /** In a stuck state every goroutine's innermost frame waits for a token. */
  lemma StuckCensus(s: State)
    requires Inv(s) && Stuck(s)
    ensures Sum(BlockedTask, s.nodes) == s.sem + Sum(OwnerInlining, s.nodes)
  {
    forall x | 0 <= x < |s.nodes| ensures Load(s.nodes[x]) == Waiter(s.nodes[x]) + IsInlining(s.nodes[x]) {
      StuckNode(s, x);
    }
    SumPlus(Load, Waiter, IsInlining, s.nodes);
    SumPlus(Load, Holds, OwnerBusy, s.nodes);
    SumPlus(Holds, Tokens, InlineActive, s.nodes);
    SumPlus(Waiter, BlockedTask, OwnerWaiting, s.nodes);
    SumPlus(OwnerBusy, OwnerWaiting, OwnerInlining, s.nodes);
  }

  function Holds(t: Node): nat { Tokens(t) + InlineActive(t) }

  function Load(t: Node): nat { Holds(t) + OwnerBusy(t) }

  function OwnerWaiting(t: Node): nat {
    if t.role.Owner? && t.pc.Submitting? then 1 else 0
  }

  /** All n tokens are held, and nobody can move. */
  ghost predicate Deadlocked(s: State) {
    s.sem == s.cfg.n && forall x :: 0 <= x < |s.nodes| ==> AtRest(s, x)
  }

  /** With a token free nobody waits for one, so no token is held at all. */
  lemma StuckNobodyHolds(s: State)
    requires Inv(s) && Stuck(s) && s.sem < s.cfg.n
    ensures s.sem == 0 && Sum(OwnerInlining, s.nodes) == 0
  {
    StuckCensus(s);
    forall x | 0 <= x < |s.nodes| ensures BlockedTask(s.nodes[x]) == 0 {
      StuckNode(s, x);
    }
    SumZero(BlockedTask, s.nodes);
  }

  lemma StuckNobodyLive(s: State)
    requires Inv(s) && Stuck(s) && s.sem == 0
    ensures s.wg == 0
  {
    forall x | 0 <= x < |s.nodes| ensures Live(s.nodes[x]) == 0 {
      StuckNode(s, x);
      SumAtLeast(Tokens, s.nodes, x);
    }
    SumZero(Live, s.nodes);
  }

  /** Then no task is left, and the owner's Wait would go through. */
  lemma StuckIdle(s: State)
    requires Inv(s) && Stuck(s) && s.sem < s.cfg.n
    ensures AllReturned(s)
  {
    StuckNobodyHolds(s);
    StuckNobodyLive(s);
    SumAtLeast(OwnerInlining, s.nodes, 0);
    StuckNode(s, 0);
    assert !Enabled(s, JoinTasks) && !Enabled(s, CancelPool) && !Enabled(s, ReadResults);
    forall x | 1 <= x < |s.nodes| ensures s.nodes[x].pc.Idle? || s.nodes[x].pc.Rejected? || s.nodes[x].pc.Over? {
      NothingActive(s, x);
    }
  }

  /** The actions that a state of rest does not rule out: Wait's own progress, and the outside's. */
  predicate WaitOrOutside(a: Action) {
    a.JoinTasks? || a.CancelPool? || a.ReadResults? || a.CancelCaller? || a.CancelOutside?
  }

  lemma RestingCannotEnd(s: State, x: nat, outcome: Outcome)
    requires x < |s.nodes| && AtRest(s, x) && NodeOk(s.nodes[x], x == 0)
    ensures !Enabled(s, Finish(x, outcome)) && !Enabled(s, FinishInline(x, outcome))
    ensures !Enabled(s, Record(x)) && !Enabled(s, Release(x)) && !Enabled(s, Retire(x))
  {
  }

  lemma RestingCannotSubmit(s: State, p: nat, x: nat)
    requires p < |s.nodes| && AtRest(s, p) && NodeOk(s.nodes[p], p == 0)
    ensures !Enabled(s, Offer(p, x)) && !Enabled(s, Acquire(p)) && !Enabled(s, Bail(p)) && !Enabled(s, Deny(p))
    ensures !Enabled(s, Drop(p)) && !Enabled(s, StartInline(p)) && !Enabled(s, Spawn(p))
  {
  }

  /** Nobody at rest has an action. */
  lemma RestingCannotMove(s: State, a: Action)
    requires Inv(s) && !WaitOrOutside(a)
    requires forall x :: 0 <= x < |s.nodes| ==> AtRest(s, x)
    ensures !Enabled(s, a)
  {
    if a.Finish? || a.FinishInline? || a.Record? || a.Release? || a.Retire? {
      if a.x < |s.nodes| {
        assert AtRest(s, a.x);
        RestingCannotEnd(s, a.x, if a.Finish? || a.FinishInline? then a.outcome else Outcome(0, None));
      }
    } else if a.CallWait? || a.Quit? {
      assert AtRest(s, 0) && NodeOk(s.nodes[0], true);
    } else if a.p < |s.nodes| {
      assert AtRest(s, a.p);
      RestingCannotSubmit(s, a.p, if a.Offer? then a.x else 0);
    }
  }

  lemma DeadlockedIsStuck(s: State)
    requires Inv(s) && Deadlocked(s)
    ensures Stuck(s)
  {
    if s.wg == 0 {
      forall x | 0 <= x < |s.nodes| ensures Tokens(s.nodes[x]) == 0 {
        SumAtLeast(Live, s.nodes, x);
        assert AtRest(s, x);
      }
      SumZero(Tokens, s.nodes);
    }
    forall a | !WaitOrOutside(a) ensures !Enabled(s, a) {
      RestingCannotMove(s, a);
    }
  }

  lemma ReturnedIsStuck(s: State)
    requires Inv(s) && AllReturned(s)
    ensures Stuck(s)
  {
    forall x | 0 <= x < |s.nodes| ensures AtRest(s, x) {
      assert NodeOk(s.nodes[x], x == 0);
    }
    forall a | !WaitOrOutside(a) ensures !Enabled(s, a) {
      RestingCannotMove(s, a);
    }
  }

  /**
   * Deadlock characterisation: nobody can move in a reachable state if and only if everything
   * has finished, or all n tokens are held by tasks whose goroutines wait for one.
   */
  lemma StuckMeansDoneOrDeadlocked(s: State)
    requires Inv(s)
    ensures Stuck(s) <==> AllReturned(s) || Deadlocked(s)
  {
    if Stuck(s) {
      forall x | 0 <= x < |s.nodes| ensures AtRest(s, x) {
        StuckNode(s, x);
      }
      if s.sem < s.cfg.n {
        StuckIdle(s);
      }
    } else {
      if AllReturned(s) {
        ReturnedIsStuck(s);
      }
      if Deadlocked(s) {
        DeadlockedIsStuck(s);
      }
    }
  }

  /**
   * In a deadlock exactly n tasks hold tokens, and exactly n tasks wait to submit a child through
   * Go or GoCtx; one more waits if the owner runs a task inline.
   */
  lemma DeadlockCensus(s: State)
    requires Inv(s) && Deadlocked(s)
    ensures Sum(Tokens, s.nodes) == s.cfg.n
    ensures Sum(BlockedTask, s.nodes) == s.cfg.n + Sum(OwnerInlining, s.nodes)
  {
    DeadlockedIsStuck(s);
    StuckCensus(s);
  }

  // ---- which trees cannot deadlock

  /** The tasks that submit some child through Go or GoCtx. */
  function Blockers(nodes: seq<Node>): set<nat> {
    set x | 1 <= x < |nodes| && nodes[x].parent != 0 && !nodes[x].via.ViaTry? :: nodes[x].parent
  }

  /** The tasks that have children. */
  function NonLeaves(nodes: seq<Node>): set<nat> {
    set x | 1 <= x < |nodes| && nodes[x].parent != 0 :: nodes[x].parent
  }

  /** The places of the blocked tasks. */
  function BlockedPlaces(nodes: seq<Node>): set<nat> {
    set x | 0 <= x < |nodes| && BlockedTask(nodes[x]) == 1
  }

  lemma {:induction false} BlockedPlacesCount(nodes: seq<Node>)
    ensures |BlockedPlaces(nodes)| == Sum(BlockedTask, nodes)
  {
    if nodes == [] {
      assert BlockedPlaces(nodes) == {};
    } else {
      var n := |nodes| - 1;
      BlockedPlacesCount(nodes[..n]);
      var before := BlockedPlaces(nodes[..n]);
      assert BlockedPlaces(nodes) == if BlockedTask(nodes[n]) == 1 then before + {n} else before;
    }
  }

  lemma SubsetCard<T>(a: set<T>, b: set<T>)
    requires a <= b
    ensures |a| <= |b|
  {
    assert b == a + (b - a);
  }

  /** A deadlock needs n different tasks that submit through Go or GoCtx. */
  lemma DeadlockNeedsBlockers(s: State)
    requires Inv(s) && Deadlocked(s)
    ensures |Blockers(s.nodes)| >= s.cfg.n
  {
    DeadlockCensus(s);
    BlockedPlacesCount(s.nodes);
    forall p | p in BlockedPlaces(s.nodes) ensures p in Blockers(s.nodes) {
      Submission(s, p);
      var x := s.nodes[p].pc.child;
      assert AtRest(s, p) && NodeOk(s.nodes[p], p == 0);
      assert 1 <= x < |s.nodes| && s.nodes[x].parent == p && p != 0 && !s.nodes[x].via.ViaTry?;
    }
    SubsetCard(BlockedPlaces(s.nodes), Blockers(s.nodes));
  }

  lemma ShapeKeepsSets(ns: seq<Node>, nt: seq<Node>)
    requires SameShape(ns, nt)
    ensures Blockers(nt) == Blockers(ns) && NonLeaves(nt) == NonLeaves(ns)
  {
  }

  // ---- termination

  function NodeWork(t: Node): nat {
    (if t.ctxDone then 0 else 1) +
    match t.pc
    case Idle => 20
    case Offered => 10
    case Run => 5
    case Submitting(_) => 8
    case Spawning(_) => 7
    case Denied(_) => 7
    case Inlining(_) => 6
    case Returned => 4
    case Recorded => 3
    case Freed => 2
    case _ => 0
  }

  function WaitWork(w: WaitPc): nat {
    match w
    case Working => 0
    case Waiting => 3
    case Joined => 2
    case Reading => 1
  }

  /** A bound on the steps still to come. */
  function Work(s: State): nat {
    Sum(NodeWork, s.nodes) + 4 * s.waitsLeft + WaitWork(s.wait) + if s.outside then 0 else 1
  }

  lemma OneMoveWorks(s: State, t: State, k: nat)
    requires k < |s.nodes| == |t.nodes| && t.nodes == s.nodes[k := t.nodes[k]]
    requires NodeWork(t.nodes[k]) < NodeWork(s.nodes[k])
    requires t.wait == s.wait && t.waitsLeft == s.waitsLeft && t.outside == s.outside
    ensures Work(t) < Work(s)
  {
    SumUpdate(NodeWork, s.nodes, k, t.nodes[k]);
  }

  lemma TwoMovesWork(s: State, t: State, p: nat, x: nat)
    requires p < |s.nodes| == |t.nodes| && x < |s.nodes| && p != x
    requires t.nodes == s.nodes[x := t.nodes[x]][p := t.nodes[p]]
    requires NodeWork(t.nodes[p]) + NodeWork(t.nodes[x]) < NodeWork(s.nodes[p]) + NodeWork(s.nodes[x])
    requires t.wait == s.wait && t.waitsLeft == s.waitsLeft && t.outside == s.outside
    ensures Work(t) < Work(s)
  {
    SumUpdate(NodeWork, s.nodes, x, t.nodes[x]);
    SumUpdate(NodeWork, s.nodes[x := t.nodes[x]], p, t.nodes[p]);
  }

  lemma SubmittingWorks(s: State, a: Action)
    requires NodesOk(s) && LinksOk(s.nodes) && Enabled(s, a) && PoolTheorems.Submitting(a)
    ensures Work(Apply(s, a)) < Work(s)
  {
    var p := a.p;
    var x := s.nodes[p].pc.child;
    Submission(s, p);
    match a
    case Acquire(_) => OneMoveWorks(s, AcquireStep(s, p), p);
    case Bail(_) => TwoMovesWork(s, RejectStep(s, p, x), p, x);
    case Deny(_) => OneMoveWorks(s, DenyStep(s, p), p);
    case Drop(_) => TwoMovesWork(s, RejectStep(s, p, x), p, x);
    case StartInline(_) => TwoMovesWork(s, StartInlineStep(s, p, x), p, x);
    case Spawn(_) => TwoMovesWork(s, SpawnStep(s, p, x), p, x);
  }

  lemma EndingWorks(s: State, a: Action)
    requires Enabled(s, a) && (a.Finish? || a.Record? || a.Release?)
    ensures Work(Apply(s, a)) < Work(s)
  {
    match a
    case Finish(x, outcome) => OneMoveWorks(s, FinishStep(s, x, outcome), x);
    case Record(x) => OneMoveWorks(s, RecordStep(s, x), x);
    case Release(x) => OneMoveWorks(s, ReleaseStep(s, x), x);
  }

  lemma FinishInlineWorks(s: State, x: nat, outcome: Outcome)
    requires NodesOk(s) && Enabled(s, FinishInline(x, outcome))
    ensures Work(FinishInlineStep(s, x, outcome)) < Work(s)
  {
    assert NodeOk(s.nodes[x], x == 0);
    TwoMovesWork(s, FinishInlineStep(s, x, outcome), s.nodes[x].parent, x);
  }

  lemma RetireWorks(s: State, x: nat)
    requires Counts(s) && NodesOk(s) && Enabled(s, Retire(x))
    ensures Work(RetireStep(s, x)) < Work(s)
  {
    assert NodeOk(s.nodes[x], x == 0);
    SumAtLeast(Live, s.nodes, x);
    OneMoveWorks(s, RetireStep(s, x), x);
  }

  lemma OfferWorks(s: State, p: nat, x: nat)
    requires NodesOk(s) && Enabled(s, Offer(p, x))
    ensures Work(OfferStep(s, p, x)) < Work(s)
  {
    TwoMovesWork(s, OfferStep(s, p, x), p, x);
  }

  lemma WaitWorks(s: State, a: Action)
    requires Enabled(s, a) && (WaitStep(a) || a.ReadResults?)
    ensures Work(Apply(s, a)) < Work(s)
  {
  }

  /** Every step, an outside cancellation included, uses up work. */
  lemma StepWorks(s: State, a: Action)
    requires Inv(s) && Enabled(s, a)
    ensures Work(Apply(s, a)) < Work(s)
  {
    if PoolTheorems.Submitting(a) {
      SubmittingWorks(s, a);
    } else if a.Finish? || a.Record? || a.Release? {
      EndingWorks(s, a);
    } else if a.FinishInline? {
      FinishInlineWorks(s, a.x, a.outcome);
    } else if a.Retire? {
      RetireWorks(s, a.x);
    } else if a.Offer? {
      OfferWorks(s, a.p, a.x);
    } else if a.CancelCaller? {
      OneMoveWorks(s, Apply(s, a), a.x);
    } else if a.Quit? {
      OneMoveWorks(s, Apply(s, a), 0);
    } else {
      WaitWorks(s, a);
    }
  }

  lemma {:induction false} RunsEnd(s: State, schedule: seq<Action>)
    requires Inv(s) && Feasible(s, schedule)
    ensures |schedule| + Work(Exec(s, schedule)) <= Work(s)
    decreases |schedule|
  {
    if schedule == [] {
    } else {
      StepWorks(s, schedule[0]);
      StepKeeps(s, schedule[0]);
      RunsEnd(Apply(s, schedule[0]), schedule[1..]);
    }
  }

  /**
   * Every run is finite, and one that cannot be continued has finished or has deadlocked.  A tree
   * in which fewer than n tasks ever submit through Go or GoCtx cannot deadlock.
   */
  lemma FewBlockersComplete(s0: State, schedule: seq<Action>)
    requires Init(s0) && Feasible(s0, schedule)
    ensures |schedule| <= Work(s0)
    ensures Stuck(Exec(s0, schedule)) ==> AllReturned(Exec(s0, schedule)) || Deadlocked(Exec(s0, schedule))
    ensures Stuck(Exec(s0, schedule)) && |Blockers(s0.nodes)| < s0.cfg.n ==> AllReturned(Exec(s0, schedule))
  {
    InitEstablishes(s0);
    RunsEnd(s0, schedule);
    RunKeeps(s0, schedule);
    RunKeepsClaims(s0, schedule);
    var s := Exec(s0, schedule);
    ShapeKeepsSets(s0.nodes, s.nodes);
    if Stuck(s) {
      StuckMeansDoneOrDeadlocked(s);
      if Deadlocked(s) {
        DeadlockNeedsBlockers(s);
      }
    }
  }

  /** A tree with fewer than n tasks that have children always completes, however they submit them. */
  lemma FewNonLeavesComplete(s0: State, schedule: seq<Action>)
    requires Init(s0) && Feasible(s0, schedule) && Stuck(Exec(s0, schedule))
    requires |NonLeaves(s0.nodes)| < s0.cfg.n
    ensures AllReturned(Exec(s0, schedule))
  {
    SubsetCard(Blockers(s0.nodes), NonLeaves(s0.nodes));
    FewBlockersComplete(s0, schedule);
  }

  /** When tasks submit their children by TryGo only, every tree completes, for every limit. */
  lemma TryGoAlwaysCompletes(s0: State, schedule: seq<Action>)
    requires Init(s0) && Feasible(s0, schedule) && Stuck(Exec(s0, schedule))
    requires forall x :: 1 <= x < |s0.nodes| && s0.nodes[x].parent != 0 ==> s0.nodes[x].via.ViaTry?
    ensures AllReturned(Exec(s0, schedule))
  {
    assert Blockers(s0.nodes) == {};
    FewBlockersComplete(s0, schedule);
  }

  // ---- the inline fallback

  /** A caller that runs a refused task inline never drops one, and no submission is given up. */
  predicate FallsBack(schedule: seq<Action>) {
    forall i :: 0 <= i < |schedule| ==> !schedule[i].Drop? && !schedule[i].Bail?
  }

  ghost predicate NoneRejected(nodes: seq<Node>) {
    forall x :: 0 <= x < |nodes| ==> !nodes[x].pc.Rejected?
  }

  lemma PairRejectsNone(ns: seq<Node>, nt: seq<Node>, p: nat, x: nat)
    requires NoneRejected(ns) && p < |ns| == |nt| && x < |ns| && nt == ns[x := nt[x]][p := nt[p]]
    requires !nt[p].pc.Rejected? && !nt[x].pc.Rejected?
    ensures NoneRejected(nt)
  {
  }

  lemma SubmittingRejectsNone(s: State, a: Action)
    requires NoneRejected(s.nodes) && NodesOk(s) && LinksOk(s.nodes) && Enabled(s, a) && PoolTheorems.Submitting(a)
    requires !a.Drop? && !a.Bail?
    ensures NoneRejected(Apply(s, a).nodes)
  {
    var p := a.p;
    var x := s.nodes[p].pc.child;
    Submission(s, p);
    match a
    case Acquire(_) => PairRejectsNone(s.nodes, AcquireStep(s, p).nodes, p, p);
    case Deny(_) => PairRejectsNone(s.nodes, DenyStep(s, p).nodes, p, p);
    case StartInline(_) => PairRejectsNone(s.nodes, StartInlineStep(s, p, x).nodes, p, x);
    case Spawn(_) => PairRejectsNone(s.nodes, SpawnStep(s, p, x).nodes, p, x);
  }

  lemma EndingRejectsNone(s: State, a: Action)
    requires NoneRejected(s.nodes) && Enabled(s, a)
    requires a.Finish? || a.FinishInline? || a.Record? || a.Release? || a.Retire?
    ensures NoneRejected(Apply(s, a).nodes)
  {
    match a
    case Finish(x, outcome) => PairRejectsNone(s.nodes, FinishStep(s, x, outcome).nodes, x, x);
    case FinishInline(x, outcome) =>
      PairRejectsNone(s.nodes, FinishInlineStep(s, x, outcome).nodes, s.nodes[x].parent, x);
    case Record(x) => PairRejectsNone(s.nodes, RecordStep(s, x).nodes, x, x);
    case Release(x) => PairRejectsNone(s.nodes, ReleaseStep(s, x).nodes, x, x);
    case Retire(x) => PairRejectsNone(s.nodes, RetireStep(s, x).nodes, x, x);
  }

  /** Only a caller that drops a refused task or gives a submission up leaves a task rejected. */
  lemma StepRejectsNone(s: State, a: Action)
    requires NoneRejected(s.nodes) && Inv(s) && Enabled(s, a) && !a.Drop? && !a.Bail?
    ensures NoneRejected(Apply(s, a).nodes)
  {
    if PoolTheorems.Submitting(a) {
      SubmittingRejectsNone(s, a);
    } else if a.Finish? || a.FinishInline? || a.Record? || a.Release? || a.Retire? {
      EndingRejectsNone(s, a);
    } else if a.Offer? {
      PairRejectsNone(s.nodes, OfferStep(s, a.p, a.x).nodes, a.p, a.x);
    } else if a.CancelCaller? {
      PairRejectsNone(s.nodes, Apply(s, a).nodes, a.x, a.x);
    } else if a.Quit? {
      PairRejectsNone(s.nodes, Apply(s, a).nodes, 0, 0);
    } else {
      assert Apply(s, a).nodes == s.nodes;
    }
  }

  lemma {:induction false} FallbackRejectsNone(s: State, schedule: seq<Action>)
    requires NoneRejected(s.nodes) && Inv(s) && Feasible(s, schedule) && FallsBack(schedule)
    ensures NoneRejected(Exec(s, schedule).nodes)
    decreases |schedule|
  {
    if schedule == [] {
    } else {
      StepRejectsNone(s, schedule[0]);
      StepKeeps(s, schedule[0]);
      FallbackRejectsNone(Apply(s, schedule[0]), schedule[1..]);
    }
  }

  /** The task x has run to its end, and it was started exactly once, spawned or inline. */
  ghost predicate RanOnce(s: State, x: nat)
    requires x < |s.nodes|
  {
    s.nodes[x].pc.Over? && s.nodes[x].out.Some? && s.nodes[x].role in {Spawned, Inline} && multiset(s.log)[x] == 1
  }

  lemma OverRanOnce(s: State, x: nat)
    requires Inv(s) && 1 <= x < |s.nodes| && s.nodes[x].pc.Over?
    ensures RanOnce(s, x)
  {
    assert NodeOk(s.nodes[x], false);
    assert Started(s.nodes, x);
  }

  /**
   * With the inline fallback no submitted task is lost: when Wait has returned, and when nobody
   * can move any more and there is no deadlock, every task that anyone has reached has run to
   * its end, and has been started exactly once, on its own goroutine or inline.
   */
  lemma FallbackRunsEveryTask(s0: State, schedule: seq<Action>, x: nat)
    requires Init(s0) && Feasible(s0, schedule) && FallsBack(schedule)
    requires Exec(s0, schedule).quiet || AllReturned(Exec(s0, schedule))
    requires 1 <= x < |Exec(s0, schedule).nodes| && Claimed(Exec(s0, schedule).nodes[x])
    ensures RanOnce(Exec(s0, schedule), x)
  {
    InitEstablishes(s0);
    RunKeeps(s0, schedule);
    FallbackRejectsNone(s0, schedule);
    var s := Exec(s0, schedule);
    if s.quiet {
      NothingActive(s, x);
    }
    OverRanOnce(s, x);
  }

  /**
   * The documented pattern: when children are submitted by TryGo and refused ones are run inline,
   * every run ends with every task that was reached having run exactly once, for every limit.
   */
  lemma TryGoRunsEveryTask(s0: State, schedule: seq<Action>, x: nat)
    requires Init(s0) && Feasible(s0, schedule) && FallsBack(schedule) && Stuck(Exec(s0, schedule))
    requires forall y :: 1 <= y < |s0.nodes| && s0.nodes[y].parent != 0 ==> s0.nodes[y].via.ViaTry?
    requires 1 <= x < |Exec(s0, schedule).nodes| && Claimed(Exec(s0, schedule).nodes[x])
    ensures |schedule| <= Work(s0) && RanOnce(Exec(s0, schedule), x)
  {
    TryGoAlwaysCompletes(s0, schedule);
    FewBlockersComplete(s0, schedule);
    FallbackRunsEveryTask(s0, schedule, x);
  }
}
