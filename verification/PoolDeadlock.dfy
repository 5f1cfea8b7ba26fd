/**
 * Exactly which trees of tasks can deadlock a pool: those with n tasks that can all wait for
 * a slot at once, each to submit a child on which none of them depends.
 */
module PoolDeadlock {
  import opened Counting
  import opened Options
  import opened PoolProtocol
  import opened PoolInvariant
  import opened PoolTheorems
  import opened PoolLiveness

  /** a is x or one of its direct and indirect submitters. */
  predicate OnPath(nodes: seq<Node>, a: nat, x: nat)
    requires x < |nodes|
    decreases x
  {
    a == x || (x > 0 && nodes[x].parent < x && OnPath(nodes, a, nodes[x].parent))
  }

  /** A submission of t through GoCtx does not give up. */
  predicate Unexpired(t: Node) {
    t.via.ViaGoCtx? ==> !t.ctxDone
  }

  /** Whoever submits t waits for a slot until there is one. */
  predicate MayBlock(t: Node) {
    !t.via.ViaTry? && Unexpired(t)
  }

  /**
   * pick gives at least n tasks a child that each submits through Go, or through GoCtx with a
   * context that is not done, so that none of these tasks is such a child or descends from one:
   * they can all be running while none of the children is.
   */
  ghost predicate Choice(nodes: seq<Node>, pick: map<nat, nat>, n: nat) {
    && |pick| >= n
    && (forall x :: x in pick ==>
          && 1 <= x < |nodes| && 1 <= pick[x] < |nodes| && nodes[pick[x]].parent == x
          && MayBlock(nodes[pick[x]]))
    && (forall x, y {:trigger OnPath(nodes, pick[y], x)} :: x in pick && y in pick ==> !OnPath(nodes, pick[y], x))
  }

  // ---- a deadlock leaves a choice behind

  /** Whoever has been started was submitted by a task that has been started. */
  ghost predicate UpOk(nodes: seq<Node>) {
    forall p, x :: 0 <= p < |nodes| && 1 <= x < |nodes| && nodes[x].parent == p && !nodes[x].role.Nobody? ==>
      !nodes[p].role.Nobody?
  }

  /** Two nodes change, and only x may start, as a child of p. */
  lemma PairUp(s: State, t: State, p: nat, x: nat)
    requires UpOk(s.nodes) && p < |s.nodes| == |t.nodes| && x < |s.nodes|
    requires t.nodes == s.nodes[x := t.nodes[x]][p := t.nodes[p]]
    requires t.nodes[p].parent == s.nodes[p].parent && t.nodes[x].parent == s.nodes[x].parent
    requires t.nodes[p].role == s.nodes[p].role
    requires
      || t.nodes[x].role == s.nodes[x].role
      || (s.nodes[x].parent == p && !s.nodes[p].role.Nobody? && !t.nodes[x].role.Nobody?)
    ensures UpOk(t.nodes)
  {
  }

  lemma SubmittingKeepsUp(s: State, a: Action)
    requires UpOk(s.nodes) && NodesOk(s) && LinksOk(s.nodes) && Enabled(s, a) && PoolTheorems.Submitting(a)
    ensures UpOk(Apply(s, a).nodes)
  {
    var p := a.p;
    var x := s.nodes[p].pc.child;
    Submission(s, p);
    assert NodeOk(s.nodes[p], p == 0);
    match a
    case Acquire(_) => PairUp(s, AcquireStep(s, p), p, p);
    case Bail(_) => PairUp(s, RejectStep(s, p, x), p, x);
    case Deny(_) => PairUp(s, DenyStep(s, p), p, p);
    case Drop(_) => PairUp(s, RejectStep(s, p, x), p, x);
    case StartInline(_) => PairUp(s, StartInlineStep(s, p, x), p, x);
    case Spawn(_) => PairUp(s, SpawnStep(s, p, x), p, x);
  }

  lemma EndingKeepsUp(s: State, a: Action)
    requires UpOk(s.nodes) && Enabled(s, a) && (a.Finish? || a.FinishInline? || a.Record? || a.Release?)
    ensures UpOk(Apply(s, a).nodes)
  {
    match a
    case Finish(x, outcome) => PairUp(s, FinishStep(s, x, outcome), x, x);
    case FinishInline(x, outcome) => PairUp(s, FinishInlineStep(s, x, outcome), s.nodes[x].parent, x);
    case Record(x) => PairUp(s, RecordStep(s, x), x, x);
    case Release(x) => PairUp(s, ReleaseStep(s, x), x, x);
  }

  lemma RetireKeepsUp(s: State, x: nat)
    requires UpOk(s.nodes) && Enabled(s, Retire(x))
    ensures UpOk(RetireStep(s, x).nodes)
  {
    if s.wg != 0 {
      PairUp(s, RetireStep(s, x), x, x);
    }
  }

  lemma StepKeepsUp(s: State, a: Action)
    requires UpOk(s.nodes) && Inv(s) && Enabled(s, a)
    ensures UpOk(Apply(s, a).nodes)
  {
    if PoolTheorems.Submitting(a) {
      SubmittingKeepsUp(s, a);
    } else if a.Finish? || a.FinishInline? || a.Record? || a.Release? {
      EndingKeepsUp(s, a);
    } else if a.Offer? {
      PairUp(s, OfferStep(s, a.p, a.x), a.p, a.x);
    } else if a.Retire? {
      RetireKeepsUp(s, a.x);
    } else if a.CancelCaller? {
      PairUp(s, Apply(s, a), a.x, a.x);
    } else if a.Quit? {
      PairUp(s, Apply(s, Quit), 0, 0);
    } else {
      assert Apply(s, a).nodes == s.nodes;
    }
  }

  lemma {:induction false} RunKeepsUp(s: State, schedule: seq<Action>)
    requires UpOk(s.nodes) && Inv(s) && Feasible(s, schedule)
    ensures UpOk(Exec(s, schedule).nodes)
    decreases |schedule|
  {
    if schedule == [] {
    } else {
      StepKeepsUp(s, schedule[0]);
      StepKeeps(s, schedule[0]);
      RunKeepsUp(Apply(s, schedule[0]), schedule[1..]);
    }
  }

  /** A node that has not been started is above no node that has. */
  lemma {:induction false} StartedPath(nodes: seq<Node>, a: nat, x: nat)
    requires UpOk(nodes) && x < |nodes| && !nodes[x].role.Nobody? && OnPath(nodes, a, x)
    ensures a < |nodes| && !nodes[a].role.Nobody?
    decreases x
  {
    if a == x {
    } else {
      StartedPath(nodes, a, nodes[x].parent);
    }
  }

  /** The tasks that wait in a deadlock, each with the child that it is submitting. */
  function WaitsFor(nodes: seq<Node>): map<nat, nat> {
    map p | p in BlockedPlaces(nodes) && nodes[p].pc.Submitting? :: nodes[p].pc.child
  }

  lemma BlockedOnChild(s: State, x: nat)
    requires Inv(s) && Deadlocked(s) && x in BlockedPlaces(s.nodes)
    ensures var c := s.nodes[x].pc.child;
      && 1 <= x && 1 <= c < |s.nodes| && s.nodes[c].parent == x && MayBlock(s.nodes[c])
      && s.nodes[c].role.Nobody? && !s.nodes[x].role.Nobody?
  {
    var c := s.nodes[x].pc.child;
    Submission(s, x);
    assert AtRest(s, x) && NodeOk(s.nodes[x], x == 0) && NodeOk(s.nodes[c], false);
  }

  lemma DeadlockGivesChoice(s: State)
    requires Inv(s) && UpOk(s.nodes) && Deadlocked(s)
    ensures Choice(s.nodes, WaitsFor(s.nodes), s.cfg.n)
  {
    var pick := WaitsFor(s.nodes);
    WaitsForAll(s);
    forall x | x in pick
      ensures 1 <= x < |s.nodes| && 1 <= pick[x] < |s.nodes| && s.nodes[pick[x]].parent == x
      ensures MayBlock(s.nodes[pick[x]]) && s.nodes[pick[x]].role.Nobody? && !s.nodes[x].role.Nobody?
    {
      BlockedOnChild(s, x);
    }
    forall x, y | x in pick && y in pick ensures !OnPath(s.nodes, pick[y], x) {
      if OnPath(s.nodes, pick[y], x) {
        StartedPath(s.nodes, pick[y], x);
      }
    }
  }

  lemma WaitsForAll(s: State)
    requires Inv(s) && Deadlocked(s)
    ensures WaitsFor(s.nodes).Keys == BlockedPlaces(s.nodes) && |WaitsFor(s.nodes)| >= s.cfg.n
  {
    DeadlockCensus(s);
    BlockedPlacesCount(s.nodes);
    assert WaitsFor(s.nodes).Keys == BlockedPlaces(s.nodes);
  }

  lemma {:induction false} OnPathShape(ns: seq<Node>, nt: seq<Node>, a: nat, x: nat)
    requires SameShape(ns, nt) && x < |ns|
    ensures OnPath(ns, a, x) == OnPath(nt, a, x)
    decreases x
  {
    if x > 0 && ns[x].parent < x {
      OnPathShape(ns, nt, a, ns[x].parent);
    }
  }

  lemma ChoiceShape(ns: seq<Node>, nt: seq<Node>, pick: map<nat, nat>, n: nat)
    requires SameShape(ns, nt) && Choice(nt, pick, n)
    ensures Choice(ns, pick, n)
  {
    forall x, y | x in pick && y in pick ensures !OnPath(ns, pick[y], x) {
      OnPathShape(ns, nt, pick[y], x);
    }
  }

  /** However tasks are submitted, a run that deadlocks leaves a choice behind. */
  lemma DeadlockNeedsChoice(s0: State, schedule: seq<Action>)
    requires Init(s0) && Feasible(s0, schedule) && Deadlocked(Exec(s0, schedule))
    ensures exists pick :: Choice(s0.nodes, pick, s0.cfg.n)
  {
    InitEstablishes(s0);
    RunKeeps(s0, schedule);
    RunKeepsUp(s0, schedule);
    RunKeepsClaims(s0, schedule);
    var s := Exec(s0, schedule);
    DeadlockGivesChoice(s);
    ChoiceShape(s0.nodes, s.nodes, WaitsFor(s.nodes), s.cfg.n);
  }

  // ---- a choice can be run into a deadlock

  /** x has to be running for some chosen task to run. */
  ghost predicate Needed(tree: seq<Node>, pick: map<nat, nat>, x: nat) {
    exists y :: y in pick && y < |tree| && OnPath(tree, x, y)
  }

  predicate Picked(pick: map<nat, nat>, p: nat, c: nat) {
    p in pick && pick[p] == c
  }

  /** A submission of p, if the plan has it at all, does not give up. */
  ghost predicate MayWait(t: Node, tree: seq<Node>, pick: map<nat, nat>, p: nat) {
    Needed(tree, pick, p) || Picked(pick, t.parent, p) ==> Unexpired(t)
  }

  predicate Ended(t: Node) {
    t.pc.Returned? || t.pc.Recorded? || t.pc.Freed? || t.pc.Over?
  }

  /**
   * What the plan lets node p do while slots are being taken: submit children that are needed, and
   * at last its chosen one.  Nothing is run inline yet.
   */
  ghost predicate NodePlan(t: Node, tree: seq<Node>, pick: map<nat, nat>, p: nat) {
    && (p != 0 ==> MayWait(t, tree, pick, p) && (!t.role.Nobody? ==> Needed(tree, pick, p)))
    && !t.pc.Rejected? && !t.role.Inline? && !t.pc.Denied? && !t.pc.Inlining?
    && (t.pc.Submitting? ==> Needed(tree, pick, t.pc.child) || Picked(pick, p, t.pc.child))
    && (t.pc.Spawning? ==> Needed(tree, pick, t.pc.child))
    && (p in pick ==> !Ended(t))
  }

  /** Node p submits nothing more, but perhaps its chosen child. */
  predicate Settled(t: Node, pick: map<nat, nat>, p: nat, wait: PoolProtocol.WaitPc) {
    Ended(t) || (t.pc.Submitting? && Picked(pick, p, t.pc.child)) || (p == 0 && !wait.Working?)
  }

  ghost predicate ChildrenStarted(nodes: seq<Node>, tree: seq<Node>, pick: map<nat, nat>, p: nat) {
    forall x :: 1 <= x < |nodes| && nodes[x].parent == p && Needed(tree, pick, x) ==> !nodes[x].role.Nobody?
  }

  ghost predicate PlanNodes(nodes: seq<Node>, tree: seq<Node>, pick: map<nat, nat>) {
    forall p {:trigger NodePlan(nodes[p], tree, pick, p)} :: 0 <= p < |nodes| ==> NodePlan(nodes[p], tree, pick, p)
  }

  /** The state of a pool that is being run into the deadlock that pick describes. */
  ghost predicate Plan(s: State, tree: seq<Node>, pick: map<nat, nat>) {
    && SameShape(tree, s.nodes) && Choice(tree, pick, s.cfg.n) && s.cfg.n >= 1
    && PlanNodes(s.nodes, tree, pick)
    && (forall p {:trigger Settled(s.nodes[p], pick, p, s.wait)} :: 0 <= p < |s.nodes| ==>
          Settled(s.nodes[p], pick, p, s.wait) ==> ChildrenStarted(s.nodes, tree, pick, p))
  }

  /** A node moves from u to t as the plan allows. */
  ghost predicate Follows(s: State, u: Node, t: Node, tree: seq<Node>, pick: map<nat, nat>, q: nat) {
    && t.parent == u.parent && t.via == u.via && t.ctxDone == u.ctxDone && (u.role.Nobody? || t.role == u.role)
    && NodePlan(t, tree, pick, q)
    && (Settled(t, pick, q, s.wait) ==> Settled(u, pick, q, s.wait) || ChildrenStarted(s.nodes, tree, pick, q))
  }

  lemma ChildrenStay(ns: seq<Node>, nt: seq<Node>, tree: seq<Node>, pick: map<nat, nat>, q: nat)
    requires ChildrenStarted(ns, tree, pick, q) && |nt| == |ns|
    requires forall x :: 0 <= x < |ns| ==>
      nt[x].parent == ns[x].parent && (ns[x].role.Nobody? || nt[x].role == ns[x].role)
    ensures ChildrenStarted(nt, tree, pick, q)
  {
  }

  lemma PairSettles(s: State, t: State, tree: seq<Node>, pick: map<nat, nat>, p: nat, x: nat, q: nat)
    requires p < |s.nodes| == |t.nodes| && x < |s.nodes| && q < |s.nodes|
    requires t.nodes == s.nodes[x := t.nodes[x]][p := t.nodes[p]]
    requires Follows(s, s.nodes[p], t.nodes[p], tree, pick, p) && Follows(s, s.nodes[x], t.nodes[x], tree, pick, x)
    requires Settled(s.nodes[q], pick, q, s.wait) ==> ChildrenStarted(s.nodes, tree, pick, q)
    requires Settled(t.nodes[q], pick, q, s.wait)
    ensures ChildrenStarted(t.nodes, tree, pick, q)
  {
    assert Follows(s, s.nodes[q], t.nodes[q], tree, pick, q) || t.nodes[q] == s.nodes[q];
    ChildrenStay(s.nodes, t.nodes, tree, pick, q);
  }

  lemma PairNodePlans(s: State, t: State, tree: seq<Node>, pick: map<nat, nat>, p: nat, x: nat)
    requires p < |s.nodes| == |t.nodes| && x < |s.nodes| && t.nodes == s.nodes[x := t.nodes[x]][p := t.nodes[p]]
    requires Follows(s, s.nodes[p], t.nodes[p], tree, pick, p) && Follows(s, s.nodes[x], t.nodes[x], tree, pick, x)
    requires SameShape(tree, s.nodes) && PlanNodes(s.nodes, tree, pick)
    ensures SameShape(tree, t.nodes) && PlanNodes(t.nodes, tree, pick)
  {
    forall q | 0 <= q < |t.nodes| ensures NodePlan(t.nodes[q], tree, pick, q) {
      assert NodePlan(s.nodes[q], tree, pick, q);
    }
  }

  /** Two nodes move according to the plan. */
  lemma PairPlan(s: State, t: State, tree: seq<Node>, pick: map<nat, nat>, p: nat, x: nat)
    requires Plan(s, tree, pick) && p < |s.nodes| == |t.nodes| && x < |s.nodes|
    requires t.nodes == s.nodes[x := t.nodes[x]][p := t.nodes[p]] && t.cfg == s.cfg && t.wait == s.wait
    requires Follows(s, s.nodes[p], t.nodes[p], tree, pick, p) && Follows(s, s.nodes[x], t.nodes[x], tree, pick, x)
    ensures Plan(t, tree, pick)
  {
    PairNodePlans(s, t, tree, pick, p, x);
    forall q | 0 <= q < |t.nodes| && Settled(t.nodes[q], pick, q, t.wait)
      ensures ChildrenStarted(t.nodes, tree, pick, q)
    {
      PairSettles(s, t, tree, pick, p, x, q);
    }
  }

  /** A chosen child is not needed, so under the plan it never starts. */
  lemma PickedNotNeeded(tree: seq<Node>, pick: map<nat, nat>, n: nat, p: nat)
    requires Choice(tree, pick, n) && p in pick
    ensures !Needed(tree, pick, pick[p])
  {
  }

  /** A child of a node in its user code that has not been started has not been submitted. */
  lemma ChildIdle(s: State, p: nat, x: nat)
    requires LinksOk(s.nodes) && At(s, p, Run) && 1 <= x < |s.nodes| && s.nodes[x].parent == p
    requires NodeOk(s.nodes[x], false) && s.nodes[x].role.Nobody? && !s.nodes[x].pc.Rejected?
    ensures s.nodes[x].pc.Idle?
  {
    assert NeedsParent(s.nodes[x]) || !s.nodes[x].pc.Offered?;
  }

  lemma OfferMove(s: State, tree: seq<Node>, pick: map<nat, nat>, p: nat, x: nat)
    requires InUserCode(s, p) && At(s, x, Idle) && p < x && Plan(s, tree, pick)
    requires Needed(tree, pick, x) || (Picked(pick, p, x) && ChildrenStarted(s.nodes, tree, pick, p))
    ensures Plan(OfferStep(s, p, x), tree, pick)
  {
    var t := OfferStep(s, p, x);
    assert NodePlan(s.nodes[x], tree, pick, x) && NodePlan(s.nodes[p], tree, pick, p);
    ChildFollows(s, tree, pick, x);
    OfferFollows(s, tree, pick, p, x);
    PairPlan(s, t, tree, pick, p, x);
  }

  lemma ChildFollows(s: State, tree: seq<Node>, pick: map<nat, nat>, x: nat)
    requires 1 <= x < |s.nodes| && s.nodes[x].pc.Idle? && NodePlan(s.nodes[x], tree, pick, x)
    ensures Follows(s, s.nodes[x], s.nodes[x].(pc := Offered, idx := s.idx), tree, pick, x)
  {
  }

  lemma OfferFollows(s: State, tree: seq<Node>, pick: map<nat, nat>, p: nat, x: nat)
    requires p < |s.nodes| && s.nodes[p].pc.Run? && NodePlan(s.nodes[p], tree, pick, p) && Choice(tree, pick, s.cfg.n)
    requires Needed(tree, pick, x) || (Picked(pick, p, x) && ChildrenStarted(s.nodes, tree, pick, p))
    requires p == 0 ==> s.wait.Working?
    ensures Follows(s, s.nodes[p], s.nodes[p].(pc := Pc.Submitting(x)), tree, pick, p)
  {
    if p in pick {
      PickedNotNeeded(tree, pick, s.cfg.n, p);
    }
  }

  lemma AcquireMove(s: State, tree: seq<Node>, pick: map<nat, nat>, p: nat)
    requires Enabled(s, Acquire(p)) && Plan(s, tree, pick) && !Picked(pick, p, s.nodes[p].pc.child)
    requires !s.wait.Working? ==> s.nodes[0].pc.Run?
    ensures Plan(AcquireStep(s, p), tree, pick)
  {
    assert NodePlan(s.nodes[p], tree, pick, p);
    PairPlan(s, AcquireStep(s, p), tree, pick, p, p);
  }

  /** A needed child starts on its own goroutine. */
  lemma SpawnFollows(s: State, tree: seq<Node>, pick: map<nat, nat>, x: nat)
    requires 1 <= x < |s.nodes| && s.nodes[x].role.Nobody? && NodePlan(s.nodes[x], tree, pick, x)
    requires Needed(tree, pick, x)
    ensures Follows(s, s.nodes[x], s.nodes[x].(pc := Run, role := Spawned), tree, pick, x)
  {
  }

  /** A node goes back to its user code. */
  lemma RunFollows(s: State, tree: seq<Node>, pick: map<nat, nat>, p: nat)
    requires p < |s.nodes| && NodePlan(s.nodes[p], tree, pick, p) && (p == 0 ==> s.wait.Working?)
    ensures Follows(s, s.nodes[p], s.nodes[p].(pc := Run), tree, pick, p)
  {
  }

  lemma SpawnMove(s: State, tree: seq<Node>, pick: map<nat, nat>, p: nat, x: nat)
    requires p < |s.nodes| && 1 <= x < |s.nodes| && p != x && s.nodes[p].pc == Pc.Spawning(x) && s.nodes[x].role.Nobody?
    requires Plan(s, tree, pick) && (!s.wait.Working? ==> s.nodes[0].pc.Run?)
    ensures Plan(SpawnStep(s, p, x), tree, pick)
  {
    var t := SpawnStep(s, p, x);
    assert NodePlan(s.nodes[p], tree, pick, p) && NodePlan(s.nodes[x], tree, pick, x);
    SpawnFollows(s, tree, pick, x);
    RunFollows(s, tree, pick, p);
    assert t.nodes[p] == s.nodes[p].(pc := Run) && t.nodes[x] == s.nodes[x].(pc := Run, role := Spawned);
    PairPlan(s, t, tree, pick, p, x);
  }

  lemma FinishMove(s: State, tree: seq<Node>, pick: map<nat, nat>, p: nat, outcome: Outcome)
    requires At(s, p, Run) && p != 0 && s.nodes[p].role.Spawned? && Plan(s, tree, pick)
    requires p !in pick && ChildrenStarted(s.nodes, tree, pick, p)
    ensures Plan(FinishStep(s, p, outcome), tree, pick)
  {
    assert NodePlan(s.nodes[p], tree, pick, p);
    PairPlan(s, FinishStep(s, p, outcome), tree, pick, p, p);
  }

  lemma OwnerMove(s: State, tree: seq<Node>, pick: map<nat, nat>) returns (a: Action)
    requires InUserCode(s, 0) && Plan(s, tree, pick) && ChildrenStarted(s.nodes, tree, pick, 0)
    ensures Enabled(s, a) && Plan(Apply(s, a), tree, pick)
  {
    if s.waitsLeft > 0 {
      a := CallWait;
      OwnerWaits(s, s.(waitsLeft := s.waitsLeft - 1, wait := PoolProtocol.WaitPc.Waiting), tree, pick);
    } else {
      a := Quit;
      OwnerQuits(s, tree, pick);
    }
  }

  lemma OwnerWaits(s: State, t: State, tree: seq<Node>, pick: map<nat, nat>)
    requires Plan(s, tree, pick) && ChildrenStarted(s.nodes, tree, pick, 0) && t.nodes == s.nodes && t.cfg == s.cfg
    ensures Plan(t, tree, pick)
  {
    forall p | 0 <= p < |t.nodes| && Settled(t.nodes[p], pick, p, t.wait)
      ensures ChildrenStarted(t.nodes, tree, pick, p)
    {
      assert p != 0 ==> Settled(s.nodes[p], pick, p, s.wait);
    }
  }

  lemma OwnerQuits(s: State, tree: seq<Node>, pick: map<nat, nat>)
    requires At(s, 0, Run) && Plan(s, tree, pick) && ChildrenStarted(s.nodes, tree, pick, 0)
    ensures Plan(s.(nodes := Move(s.nodes, 0, Over)), tree, pick)
  {
    assert NodePlan(s.nodes[0], tree, pick, 0);
    PairPlan(s, s.(nodes := Move(s.nodes, 0, Over)), tree, pick, 0, 0);
  }

  /** A node in its user code submits a needed child that has not been started. */
  lemma NeededMove(s: State, tree: seq<Node>, pick: map<nat, nat>, p: nat, x: nat)
    requires NodesOk(s) && LinksOk(s.nodes) && InUserCode(s, p) && Plan(s, tree, pick)
    requires 1 <= x < |s.nodes| && s.nodes[x].parent == p && Needed(tree, pick, x) && s.nodes[x].role.Nobody?
    ensures Enabled(s, Offer(p, x)) && Plan(OfferStep(s, p, x), tree, pick)
  {
    assert NodeOk(s.nodes[x], false) && NodePlan(s.nodes[x], tree, pick, x);
    ChildIdle(s, p, x);
    OfferMove(s, tree, pick, p, x);
  }

  /** With all needed children started, a chosen task submits its chosen child. */
  lemma PickMove(s: State, tree: seq<Node>, pick: map<nat, nat>, p: nat)
    requires NodesOk(s) && LinksOk(s.nodes) && InUserCode(s, p) && Plan(s, tree, pick) && p in pick
    requires ChildrenStarted(s.nodes, tree, pick, p)
    ensures Enabled(s, Offer(p, pick[p])) && Plan(OfferStep(s, p, pick[p]), tree, pick)
  {
    var x := pick[p];
    PickedNotNeeded(tree, pick, s.cfg.n, p);
    assert NodeOk(s.nodes[x], false) && NodePlan(s.nodes[x], tree, pick, x);
    ChildIdle(s, p, x);
    OfferMove(s, tree, pick, p, x);
  }

  /** A node in its user code submits a child that is needed, then its chosen child, or ends. */
  lemma RunMove(s: State, tree: seq<Node>, pick: map<nat, nat>, p: nat) returns (a: Action)
    requires NodesOk(s) && LinksOk(s.nodes) && InUserCode(s, p) && Plan(s, tree, pick)
    ensures Enabled(s, a) && Plan(Apply(s, a), tree, pick)
  {
    if x :| 1 <= x < |s.nodes| && s.nodes[x].parent == p && Needed(tree, pick, x) && s.nodes[x].role.Nobody? {
      NeededMove(s, tree, pick, p, x);
      a := Offer(p, x);
    } else if p in pick {
      PickMove(s, tree, pick, p);
      a := Offer(p, pick[p]);
    } else {
      a := LeaveMove(s, tree, pick, p);
    }
  }

  /** A node with nothing left to submit: the owner waits, and a task ends. */
  lemma LeaveMove(s: State, tree: seq<Node>, pick: map<nat, nat>, p: nat) returns (a: Action)
    requires NodesOk(s) && InUserCode(s, p) && Plan(s, tree, pick) && p !in pick
    requires ChildrenStarted(s.nodes, tree, pick, p)
    ensures Enabled(s, a) && Plan(Apply(s, a), tree, pick)
  {
    if p == 0 {
      a := OwnerMove(s, tree, pick);
    } else {
      assert NodePlan(s.nodes[p], tree, pick, p) && NodeOk(s.nodes[p], p == 0);
      a := Finish(p, Outcome(0, None));
      FinishMove(s, tree, pick, p, Outcome(0, None));
    }
  }

  /** A task that has ended winds up. */
  lemma EndFollows(s: State, t: State, tree: seq<Node>, pick: map<nat, nat>, p: nat)
    requires p < |s.nodes| == |t.nodes| && Plan(s, tree, pick) && Ended(s.nodes[p])
    requires t.nodes == s.nodes[p := t.nodes[p]] && t.nodes[p] == s.nodes[p].(pc := t.nodes[p].pc) && Ended(t.nodes[p])
    requires t.cfg == s.cfg && t.wait == s.wait
    ensures Plan(t, tree, pick)
  {
    assert NodePlan(s.nodes[p], tree, pick, p);
    PairPlan(s, t, tree, pick, p, p);
  }

  lemma EndMove(s: State, tree: seq<Node>, pick: map<nat, nat>, p: nat) returns (a: Action)
    requires Counts(s) && NodesOk(s) && p < |s.nodes| && Plan(s, tree, pick)
    requires s.nodes[p].pc.Returned? || s.nodes[p].pc.Recorded? || s.nodes[p].pc.Freed?
    ensures Enabled(s, a) && Plan(Apply(s, a), tree, pick)
  {
    assert NodeOk(s.nodes[p], p == 0);
    if s.nodes[p].pc.Returned? {
      a := Record(p);
      EndFollows(s, RecordStep(s, p), tree, pick, p);
    } else if s.nodes[p].pc.Recorded? {
      RecordedHoldsToken(s, p);
      a := Release(p);
      EndFollows(s, ReleaseStep(s, p), tree, pick, p);
    } else {
      SumAtLeast(Live, s.nodes, p);
      a := Retire(p);
      EndFollows(s, RetireStep(s, p), tree, pick, p);
    }
  }

  /** Node p can do something for the plan. */
  predicate Movable(s: State, pick: map<nat, nat>, p: nat) {
    p < |s.nodes| &&
    (|| InUserCode(s, p) || s.nodes[p].pc.Spawning?
     || s.nodes[p].pc.Returned? || s.nodes[p].pc.Recorded? || s.nodes[p].pc.Freed?
     || (s.nodes[p].pc.Submitting? && s.sem < s.cfg.n && !Picked(pick, p, s.nodes[p].pc.child)))
  }

  /** A submission under way takes its slot, or starts its task. */
  lemma SubmitMove(s: State, tree: seq<Node>, pick: map<nat, nat>, p: nat) returns (a: Action)
    requires NodesOk(s) && LinksOk(s.nodes) && Plan(s, tree, pick) && Movable(s, pick, p)
    requires s.nodes[p].pc.Submitting? || s.nodes[p].pc.Spawning?
    requires !s.wait.Working? ==> s.nodes[0].pc.Run?
    ensures Enabled(s, a) && Plan(Apply(s, a), tree, pick)
  {
    Submission(s, p);
    if s.nodes[p].pc.Submitting? {
      AcquireMove(s, tree, pick, p);
      a := Acquire(p);
    } else {
      SpawnMove(s, tree, pick, p, s.nodes[p].pc.child);
      a := Spawn(p);
    }
  }

  lemma PlanMoves(s: State, tree: seq<Node>, pick: map<nat, nat>, p: nat) returns (a: Action)
    requires Inv(s) && Plan(s, tree, pick) && Movable(s, pick, p)
    ensures Enabled(s, a) && Plan(Apply(s, a), tree, pick)
  {
    if InUserCode(s, p) {
      a := RunMove(s, tree, pick, p);
    } else if s.nodes[p].pc.Submitting? || s.nodes[p].pc.Spawning? {
      a := SubmitMove(s, tree, pick, p);
    } else {
      a := EndMove(s, tree, pick, p);
    }
  }

  // ---- where the plan ends

  lemma {:induction false} PathUp(tree: seq<Node>, a: nat, x: nat)
    requires Tree(tree) && x < |tree| && OnPath(tree, a, x) && 1 <= a < |tree|
    ensures OnPath(tree, tree[a].parent, x)
    decreases x
  {
    if a != x {
      PathUp(tree, a, tree[x].parent);
    } else {
      assert OnPath(tree, tree[x].parent, tree[x].parent);
    }
  }

  lemma IdleIsSettled(s: State, tree: seq<Node>, pick: map<nat, nat>, p: nat)
    requires NodesOk(s) && Plan(s, tree, pick) && s.sem < s.cfg.n && p < |s.nodes| && !s.nodes[p].role.Nobody?
    requires !Movable(s, pick, p)
    ensures Settled(s.nodes[p], pick, p, s.wait)
  {
    assert NodeOk(s.nodes[p], p == 0) && NodePlan(s.nodes[p], tree, pick, p);
  }

  /** With a slot free and nothing left to do for the plan, every task that is needed has been started. */
  lemma {:induction false} NeededStarted(s: State, tree: seq<Node>, pick: map<nat, nat>, x: nat)
    requires Inv(s) && Plan(s, tree, pick) && s.sem < s.cfg.n && x < |s.nodes| && Needed(tree, pick, x)
    requires forall p :: 0 <= p < |s.nodes| ==> !Movable(s, pick, p)
    ensures !s.nodes[x].role.Nobody?
    decreases x
  {
    if x == 0 {
      assert NodeOk(s.nodes[x], true);
    } else {
      var p := s.nodes[x].parent;
      NeededUp(tree, pick, x);
      NeededStarted(s, tree, pick, p);
      IdleIsSettled(s, tree, pick, p);
      assert ChildrenStarted(s.nodes, tree, pick, p);
    }
  }

  lemma NeededUp(tree: seq<Node>, pick: map<nat, nat>, x: nat)
    requires Tree(tree) && 1 <= x < |tree| && Needed(tree, pick, x)
    ensures Needed(tree, pick, tree[x].parent)
  {
    var y :| y in pick && y < |tree| && OnPath(tree, x, y);
    PathUp(tree, x, y);
  }

  /** Then a chosen task waits to submit its chosen child. */
  lemma ChosenWaits(s: State, tree: seq<Node>, pick: map<nat, nat>, p: nat)
    requires Inv(s) && Plan(s, tree, pick) && s.sem < s.cfg.n && p in pick
    requires forall q :: 0 <= q < |s.nodes| ==> !Movable(s, pick, q)
    ensures p in BlockedPlaces(s.nodes)
  {
    assert OnPath(tree, p, p);
    NeededStarted(s, tree, pick, p);
    StartedChosenWaits(s, tree, pick, p);
  }

  lemma StartedChosenWaits(s: State, tree: seq<Node>, pick: map<nat, nat>, p: nat)
    requires p < |s.nodes| && NodeOk(s.nodes[p], p == 0) && NodePlan(s.nodes[p], tree, pick, p) && p in pick && p != 0
    requires !s.nodes[p].role.Nobody? && !Movable(s, pick, p)
    ensures BlockedTask(s.nodes[p]) == 1
  {
  }

  lemma WaiterHolds(t: Node, tree: seq<Node>, pick: map<nat, nat>, p: nat)
    requires NodeOk(t, p == 0) && NodePlan(t, tree, pick, p)
    ensures BlockedTask(t) <= Tokens(t)
  {
  }

  /** Under the plan whoever waits, the owner aside, holds a slot. */
  lemma WaitingHoldSlots(s: State, tree: seq<Node>, pick: map<nat, nat>)
    requires Counts(s) && NodesOk(s) && PlanNodes(s.nodes, tree, pick)
    ensures |BlockedPlaces(s.nodes)| <= s.sem
  {
    BlockedPlacesCount(s.nodes);
    forall p | 0 <= p < |s.nodes| ensures BlockedTask(s.nodes[p]) <= Tokens(s.nodes[p]) {
      WaiterHolds(s.nodes[p], tree, pick, p);
    }
    SumMonotone(BlockedTask, Tokens, s.nodes);
  }

  /** So no slot is free when nothing is left to do for the plan. */
  lemma PlanFillsPool(s: State, tree: seq<Node>, pick: map<nat, nat>)
    requires Inv(s) && Plan(s, tree, pick)
    requires forall p :: 0 <= p < |s.nodes| ==> !Movable(s, pick, p)
    ensures s.sem == s.cfg.n
  {
    if s.sem < s.cfg.n {
      forall p | p in pick.Keys ensures p in BlockedPlaces(s.nodes) {
        ChosenWaits(s, tree, pick, p);
      }
      SubsetCard(pick.Keys, BlockedPlaces(s.nodes));
      WaitingHoldSlots(s, tree, pick);
    }
  }

  // ---- refused children run inline in a full pool

  ghost predicate ChildrenUnstarted(nodes: seq<Node>, p: nat) {
    forall x :: 1 <= x < |nodes| && nodes[x].parent == p ==> nodes[x].role.Nobody?
  }

  /** What the plan lets node p do once the pool is full: go down inline towards a chosen task, and wait. */
  ghost predicate FullNode(t: Node, tree: seq<Node>, pick: map<nat, nat>, p: nat, wait: PoolProtocol.WaitPc) {
    && (p != 0 ==> MayWait(t, tree, pick, p))
    && !t.pc.Rejected? && !t.pc.Spawning? && !t.pc.Returned? && !t.pc.Recorded? && !t.pc.Freed?
    && (t.pc.Run? ==> if p == 0 then !wait.Working? else t.role.Inline? && Needed(tree, pick, p))
    && (t.pc.Submitting? ==> Needed(tree, pick, t.pc.child) || Picked(pick, p, t.pc.child))
    && (t.pc.Denied? ==> Needed(tree, pick, t.pc.child))
  }

  ghost predicate FullNodes(nodes: seq<Node>, tree: seq<Node>, pick: map<nat, nat>, wait: PoolProtocol.WaitPc) {
    forall p {:trigger FullNode(nodes[p], tree, pick, p, wait)} :: 0 <= p < |nodes| ==>
      FullNode(nodes[p], tree, pick, p, wait)
  }

  /** Every slot is taken, and a task in its user code has only just been started inline. */
  ghost predicate Full(s: State, tree: seq<Node>, pick: map<nat, nat>) {
    && SameShape(tree, s.nodes) && Choice(tree, pick, s.cfg.n) && s.sem == s.cfg.n && UpOk(s.nodes)
    && FullNodes(s.nodes, tree, pick, s.wait)
    && (forall p {:trigger ChildrenUnstarted(s.nodes, p)} :: 1 <= p < |s.nodes| && s.nodes[p].pc.Run? ==>
          ChildrenUnstarted(s.nodes, p))
  }

  /** p moves on with its child x, which starts at most. */
  ghost predicate FullMove(ns: seq<Node>, nt: seq<Node>, p: nat, x: nat) {
    && p < |ns| == |nt| && 1 <= x < |ns| && ns[x].parent == p != x && nt == ns[x := nt[x]][p := nt[p]]
    && nt[p] == ns[p].(pc := nt[p].pc) && !nt[p].pc.Run?
    && nt[x] == ns[x].(pc := nt[x].pc, role := nt[x].role, idx := nt[x].idx)
    && (nt[x].role == ns[x].role || (!ns[p].role.Nobody? && !nt[x].role.Nobody?))
    && (nt[x].pc.Run? ==> ChildrenUnstarted(ns, x))
  }

  lemma PairFull(s: State, t: State, tree: seq<Node>, pick: map<nat, nat>, p: nat, x: nat)
    requires Full(s, tree, pick) && FullMove(s.nodes, t.nodes, p, x)
    requires t.cfg == s.cfg && t.wait == s.wait && t.sem == s.sem
    requires FullNode(t.nodes[p], tree, pick, p, s.wait) && FullNode(t.nodes[x], tree, pick, x, s.wait)
    ensures Full(t, tree, pick)
  {
    PairUp(s, t, p, x);
    RunNodesStay(s.nodes, t.nodes, p, x);
    FullNodesStay(s.nodes, t.nodes, tree, pick, p, x, s.wait);
  }

  lemma RunNodesStay(ns: seq<Node>, nt: seq<Node>, p: nat, x: nat)
    requires FullMove(ns, nt, p, x)
    requires forall q :: 1 <= q < |ns| && ns[q].pc.Run? ==> ChildrenUnstarted(ns, q)
    ensures forall q :: 1 <= q < |nt| && nt[q].pc.Run? ==> ChildrenUnstarted(nt, q)
  {
    forall q | 1 <= q < |nt| && nt[q].pc.Run? ensures ChildrenUnstarted(nt, q) {
      assert ChildrenUnstarted(ns, q);
    }
  }

  lemma FullNodesStay(
      ns: seq<Node>, nt: seq<Node>, tree: seq<Node>, pick: map<nat, nat>, p: nat, x: nat, wait: PoolProtocol.WaitPc)
    requires p < |ns| == |nt| && x < |ns| && nt == ns[x := nt[x]][p := nt[p]]
    requires FullNodes(ns, tree, pick, wait)
    requires FullNode(nt[p], tree, pick, p, wait) && FullNode(nt[x], tree, pick, x, wait)
    ensures FullNodes(nt, tree, pick, wait)
  {
    forall q | 0 <= q < |nt| ensures FullNode(nt[q], tree, pick, q, wait) {
      assert FullNode(ns[q], tree, pick, q, wait);
    }
  }

  lemma DenyMove(s: State, tree: seq<Node>, pick: map<nat, nat>, p: nat, x: nat)
    requires Full(s, tree, pick) && p < |s.nodes| && s.nodes[p].pc == Pc.Submitting(x)
    requires 1 <= x < |s.nodes| && s.nodes[x].parent == p != x && s.nodes[x].via.ViaTry? && s.nodes[x].pc.Offered?
    ensures Full(s.(nodes := Move(s.nodes, p, Pc.Denied(x))), tree, pick)
  {
    var t := s.(nodes := Move(s.nodes, p, Pc.Denied(x)));
    assert FullNode(s.nodes[x], tree, pick, x, s.wait);
    TryNotPicked(tree, pick, s.cfg.n, p, x);
    DeniedNode(s.nodes[p], tree, pick, p, x, s.wait);
    DenyShape(s.nodes, p, x);
    PairFull(s, t, tree, pick, p, x);
  }

  /** A child that TryGo submits is needed, for a chosen child would be waited for. */
  lemma DeniedNode(t: Node, tree: seq<Node>, pick: map<nat, nat>, p: nat, x: nat, wait: PoolProtocol.WaitPc)
    requires FullNode(t, tree, pick, p, wait) && t.pc == Pc.Submitting(x) && !Picked(pick, p, x)
    ensures FullNode(t.(pc := Pc.Denied(x)), tree, pick, p, wait)
  {
  }

  lemma DenyShape(ns: seq<Node>, p: nat, x: nat)
    requires p < |ns| && 1 <= x < |ns| && ns[x].parent == p != x && !ns[x].pc.Run?
    ensures FullMove(ns, Move(ns, p, Pc.Denied(x)), p, x)
  {
  }

  lemma TryNotPicked(tree: seq<Node>, pick: map<nat, nat>, n: nat, p: nat, x: nat)
    requires Choice(tree, pick, n) && x < |tree| && tree[x].via.ViaTry?
    ensures !Picked(pick, p, x)
  {
  }

  lemma InlineMove(s: State, tree: seq<Node>, pick: map<nat, nat>, p: nat, x: nat)
    requires Full(s, tree, pick) && p < |s.nodes| && s.nodes[p].pc == Pc.Denied(x) && !s.nodes[p].role.Nobody?
    requires 1 <= x < |s.nodes| && s.nodes[x].parent == p != x && s.nodes[x].role.Nobody?
    ensures Full(StartInlineStep(s, p, x), tree, pick)
  {
    var t := StartInlineStep(s, p, x);
    assert FullNode(s.nodes[p], tree, pick, p, s.wait) && FullNode(s.nodes[x], tree, pick, x, s.wait);
    PairFull(s, t, tree, pick, p, x);
  }

  lemma {:induction false} PathDown(tree: seq<Node>, a: nat, x: nat) returns (c: nat)
    requires Tree(tree) && x < |tree| && OnPath(tree, a, x) && a != x
    ensures 1 <= c < |tree| && tree[c].parent == a && OnPath(tree, c, x)
    decreases x
  {
    if tree[x].parent == a {
      c := x;
    } else {
      c := PathDown(tree, a, tree[x].parent);
    }
  }

  /** A needed task has a child that it is to submit: its chosen one, or one that is needed. */
  lemma NextChild(tree: seq<Node>, pick: map<nat, nat>, n: nat, p: nat) returns (x: nat)
    requires Tree(tree) && Choice(tree, pick, n) && Needed(tree, pick, p)
    ensures 1 <= x < |tree| && tree[x].parent == p && (Needed(tree, pick, x) || Picked(pick, p, x))
  {
    if p in pick {
      x := pick[p];
    } else {
      var y :| y in pick && y < |tree| && OnPath(tree, p, y);
      x := PathDown(tree, p, y);
    }
  }

  lemma InlineOfferMove(s: State, tree: seq<Node>, pick: map<nat, nat>, p: nat, x: nat)
    requires Full(s, tree, pick) && 1 <= p && Enabled(s, Offer(p, x)) && p != x
    requires Needed(tree, pick, x) || Picked(pick, p, x)
    ensures Full(OfferStep(s, p, x), tree, pick)
  {
    var t := OfferStep(s, p, x);
    assert FullNode(s.nodes[p], tree, pick, p, s.wait) && FullNode(s.nodes[x], tree, pick, x, s.wait);
    PairFull(s, t, tree, pick, p, x);
  }

  lemma InlineOffers(s: State, tree: seq<Node>, pick: map<nat, nat>, p: nat) returns (x: nat)
    requires NodesOk(s) && LinksOk(s.nodes) && Full(s, tree, pick) && 1 <= p && At(s, p, Run)
    ensures Enabled(s, Offer(p, x)) && Full(OfferStep(s, p, x), tree, pick)
  {
    assert FullNode(s.nodes[p], tree, pick, p, s.wait);
    x := NextChild(tree, pick, s.cfg.n, p);
    assert ChildrenUnstarted(s.nodes, p) && FullNode(s.nodes[x], tree, pick, x, s.wait) && NodeOk(s.nodes[x], false);
    ChildIdle(s, p, x);
    InlineOfferMove(s, tree, pick, p, x);
  }

  /** Node p can still go on in a full pool. */
  predicate FullMovable(s: State, p: nat) {
    p < |s.nodes| &&
    (|| (p != 0 && s.nodes[p].pc.Run?) || s.nodes[p].pc.Denied?
     || (Asks(s, p) && s.nodes[s.nodes[p].pc.child].via.ViaTry?))
  }

  lemma FullMoves(s: State, tree: seq<Node>, pick: map<nat, nat>, p: nat) returns (a: Action)
    requires Inv(s) && Full(s, tree, pick) && FullMovable(s, p)
    ensures Enabled(s, a) && Full(Apply(s, a), tree, pick)
  {
    if s.nodes[p].pc.Run? {
      var x := InlineOffers(s, tree, pick, p);
      a := Offer(p, x);
    } else {
      var x := s.nodes[p].pc.child;
      Submission(s, p);
      assert NodeOk(s.nodes[x], x == 0) && NodeOk(s.nodes[p], p == 0);
      if s.nodes[p].pc.Denied? {
        InlineMove(s, tree, pick, p, x);
        a := StartInline(p);
      } else {
        DenyMove(s, tree, pick, p, x);
        a := Deny(p);
      }
    }
  }

  lemma FullEndsDeadlocked(s: State, tree: seq<Node>, pick: map<nat, nat>)
    requires Inv(s) && Full(s, tree, pick)
    requires forall p :: 0 <= p < |s.nodes| ==> !FullMovable(s, p)
    ensures Deadlocked(s)
  {
    forall p | 0 <= p < |s.nodes| ensures AtRest(s, p) {
      assert NodeOk(s.nodes[p], p == 0) && FullNode(s.nodes[p], tree, pick, p, s.wait) && !FullMovable(s, p);
      if s.nodes[p].pc.Submitting? {
        Submission(s, p);
        assert FullNode(s.nodes[s.nodes[p].pc.child], tree, pick, s.nodes[p].pc.child, s.wait);
      }
    }
  }

  lemma {:induction false} FullDeadlocks(s: State, tree: seq<Node>, pick: map<nat, nat>) returns (schedule: seq<Action>)
    requires Inv(s) && Full(s, tree, pick)
    ensures Feasible(s, schedule) && Deadlocked(Exec(s, schedule))
    decreases Work(s)
  {
    if p: nat :| p < |s.nodes| && FullMovable(s, p) {
      var a := FullMoves(s, tree, pick, p);
      StepKeeps(s, a);
      StepWorks(s, a);
      schedule := FullDeadlocks(Apply(s, a), tree, pick);
      schedule := Prepend(s, a, schedule);
    } else {
      schedule := [];
      FullEndsDeadlocked(s, tree, pick);
    }
  }

  /** When nothing is left to do with free slots, the pool is full. */
  lemma PlanEndsFull(s: State, tree: seq<Node>, pick: map<nat, nat>)
    requires Inv(s) && Plan(s, tree, pick) && UpOk(s.nodes)
    requires forall p :: 0 <= p < |s.nodes| ==> !Movable(s, pick, p)
    ensures Full(s, tree, pick)
  {
    PlanFillsPool(s, tree, pick);
    forall p | 0 <= p < |s.nodes|
      ensures FullNode(s.nodes[p], tree, pick, p, s.wait) && (p != 0 ==> !s.nodes[p].pc.Run?)
    {
      assert NodePlan(s.nodes[p], tree, pick, p) && !Movable(s, pick, p);
    }
  }

  /** From every state of the plan some run goes on to a deadlock. */
  lemma {:induction false} PlanDeadlocks(s: State, tree: seq<Node>, pick: map<nat, nat>) returns (schedule: seq<Action>)
    requires Inv(s) && Plan(s, tree, pick) && UpOk(s.nodes)
    ensures Feasible(s, schedule) && Deadlocked(Exec(s, schedule))
    decreases Work(s)
  {
    if p: nat :| p < |s.nodes| && Movable(s, pick, p) {
      var a := PlanMoves(s, tree, pick, p);
      StepKeeps(s, a);
      StepKeepsUp(s, a);
      StepWorks(s, a);
      schedule := PlanDeadlocks(Apply(s, a), tree, pick);
      schedule := Prepend(s, a, schedule);
    } else {
      PlanEndsFull(s, tree, pick);
      schedule := FullDeadlocks(s, tree, pick);
    }
  }

  /** No task that has to run for a chosen one is submitted through GoCtx with a context that is done from the start. */
  ghost predicate PathsUnexpired(nodes: seq<Node>, pick: map<nat, nat>) {
    forall x {:trigger Needed(nodes, pick, x)} :: 1 <= x < |nodes| && Needed(nodes, pick, x) ==> Unexpired(nodes[x])
  }

  lemma PickedBlocks(nodes: seq<Node>, pick: map<nat, nat>, n: nat, q: nat, p: nat)
    requires Choice(nodes, pick, n) && Picked(pick, q, p)
    ensures 1 <= p < |nodes| && MayBlock(nodes[p])
  {
  }

  /** A node that has not been submitted, or the owner at the start, fits every plan. */
  lemma NodeStarts(t: Node, tree: seq<Node>, pick: map<nat, nat>, p: nat, wait: PoolProtocol.WaitPc)
    requires if p == 0 then t.role.Owner? && t.pc.Run? else t.role.Nobody? && t.pc.Idle?
    requires p != 0 ==> MayWait(t, tree, pick, p)
    requires wait.Working?
    ensures NodePlan(t, tree, pick, p) && !Settled(t, pick, p, wait)
  {
  }

  lemma AllMayWait(nodes: seq<Node>, pick: map<nat, nat>, n: nat, p: nat)
    requires PathsUnexpired(nodes, pick) && Choice(nodes, pick, n) && 1 <= p < |nodes|
    ensures MayWait(nodes[p], nodes, pick, p)
  {
    if Picked(pick, nodes[p].parent, p) {
      PickedBlocks(nodes, pick, n, nodes[p].parent, p);
    }
  }

  lemma PlanStarts(s0: State, pick: map<nat, nat>)
    requires Init(s0) && PathsUnexpired(s0.nodes, pick) && Choice(s0.nodes, pick, s0.cfg.n)
    ensures Plan(s0, s0.nodes, pick)
  {
    forall p | 0 <= p < |s0.nodes|
      ensures NodePlan(s0.nodes[p], s0.nodes, pick, p) && !Settled(s0.nodes[p], pick, p, s0.wait)
    {
      if p != 0 {
        AllMayWait(s0.nodes, pick, s0.cfg.n, p);
      }
      NodeStarts(s0.nodes[p], s0.nodes, pick, p, s0.wait);
    }
  }

  /** The plan of a choice leads to a deadlock. */
  lemma ChoiceDeadlocks(s0: State, pick: map<nat, nat>) returns (schedule: seq<Action>)
    requires Init(s0) && PathsUnexpired(s0.nodes, pick) && Choice(s0.nodes, pick, s0.cfg.n)
    ensures Feasible(s0, schedule) && Deadlocked(Exec(s0, schedule))
  {
    InitEstablishes(s0);
    PlanStarts(s0, pick);
    schedule := PlanDeadlocks(s0, s0.nodes, pick);
  }

  ghost predicate DeadlocksIn(s0: State, schedule: seq<Action>) {
    Feasible(s0, schedule) && Deadlocked(Exec(s0, schedule))
  }

  // ---- the bound on blocking submitters is sharp

  /** n tasks of the owner with one child each. */
  function WideNodes(n: nat): seq<Node> {
    seq(2 * n + 1, x requires 0 <= x < 2 * n + 1 =>
      if x == 0 then Node(0, ViaGo, false, Owner, Run, 0, None)
      else Node(if x > n then x - n else 0, ViaGo, false, Nobody, Idle, 0, None))
  }

  function Parents(n: nat): set<nat> {
    if n == 0 then {} else Parents(n - 1) + {n}
  }

  lemma {:induction false} ParentsMeaning(n: nat)
    ensures |Parents(n)| == n && forall i :: i in Parents(n) <==> 1 <= i <= n
  {
    if n == 0 {
    } else {
      ParentsMeaning(n - 1);
    }
  }

  lemma {:induction false} PathBelow(nodes: seq<Node>, a: nat, x: nat)
    requires x < |nodes| && OnPath(nodes, a, x)
    ensures a <= x
    decreases x
  {
    if a == x {
    } else {
      PathBelow(nodes, a, nodes[x].parent);
    }
  }

  lemma WideBlockers(n: nat)
    ensures Blockers(WideNodes(n)) == Parents(n)
  {
    var nodes := WideNodes(n);
    ParentsMeaning(n);
    forall x | x in Parents(n) ensures x in Blockers(nodes) {
      assert nodes[n + x].parent == x;
    }
  }

  /** Every one of the n tasks is given its child. */
  function WidePick(n: nat): map<nat, nat> {
    map x | x in Parents(n) :: n + x
  }

  lemma WidePickBelow(nodes: seq<Node>, n: nat, x: nat, c: nat)
    requires x <= n < c && x < |nodes|
    ensures !OnPath(nodes, c, x)
  {
    if OnPath(nodes, c, x) {
      PathBelow(nodes, c, x);
    }
  }

  lemma WideChild(n: nat, x: nat)
    requires 1 <= x <= n
    ensures |WideNodes(n)| == 2 * n + 1 && WideNodes(n)[n + x].parent == x && MayBlock(WideNodes(n)[n + x])
  {
  }

  lemma WideChoice(n: nat)
    ensures Choice(WideNodes(n), WidePick(n), n)
  {
    var nodes, pick := WideNodes(n), WidePick(n);
    ParentsMeaning(n);
    assert pick.Keys == Parents(n);
    forall x | x in pick
      ensures 1 <= x < |nodes| && 1 <= pick[x] < |nodes| && nodes[pick[x]].parent == x && MayBlock(nodes[pick[x]])
    {
      WideChild(n, x);
    }
    forall x, y | x in pick && y in pick ensures !OnPath(nodes, pick[y], x) {
      WidePickBelow(nodes, n, x, pick[y]);
    }
  }

  function WideStart(n: nat): State {
    State(Config(n, false, false, true), 0, 0, None, false, [], 0, [], WideNodes(n),
          PoolProtocol.WaitPc.Working, 1, false, false, Answer([], []), [], false)
  }

  lemma WideInit(n: nat)
    requires n >= 1
    ensures Init(WideStart(n)) && forall x :: 1 <= x < |WideStart(n).nodes| ==> Unexpired(WideStart(n).nodes[x])
  {
  }

  /** For every limit n some tree with exactly n tasks that submit through Go can deadlock. */
  lemma NBlockersCanDeadlock(n: nat) returns (s0: State, schedule: seq<Action>)
    requires n >= 1
    ensures Init(s0) && s0.cfg.n == n && |Blockers(s0.nodes)| == n && DeadlocksIn(s0, schedule)
  {
    s0 := WideStart(n);
    WideInit(n);
    WideBlockers(n);
    WideChoice(n);
    ParentsMeaning(n);
    schedule := ChoiceDeadlocks(s0, WidePick(n));
  }

  // ---- depth is not what decides

  /** Every task has one child, and the last one has none. */
  ghost predicate Chain(nodes: seq<Node>) {
    forall x :: 1 <= x < |nodes| ==> nodes[x].parent == x - 1
  }

  lemma {:induction false} ChainPath(nodes: seq<Node>, a: nat, x: nat)
    requires Chain(nodes) && a <= x < |nodes|
    ensures OnPath(nodes, a, x)
    decreases x
  {
    if a == x {
    } else {
      ChainPath(nodes, a, x - 1);
    }
  }

  /** Of two tasks of a chain one descends from the other's only child. */
  lemma ChainNoChoice(nodes: seq<Node>, pick: map<nat, nat>, n: nat)
    requires Chain(nodes) && n >= 2
    ensures !Choice(nodes, pick, n)
  {
    if Choice(nodes, pick, n) {
      var x :| x in pick.Keys;
      assert |pick.Keys - {x}| == |pick.Keys| - 1;
      var y :| y in pick.Keys - {x};
      var low, high := if x < y then x else y, if x < y then y else x;
      ChainPath(nodes, pick[low], high);
    }
  }

  /** A chain, however deep and however submitted, completes in a pool with two or more slots. */
  lemma ChainCompletes(s0: State, schedule: seq<Action>)
    requires Init(s0) && Feasible(s0, schedule) && Stuck(Exec(s0, schedule))
    requires Chain(s0.nodes) && s0.cfg.n >= 2
    ensures AllReturned(Exec(s0, schedule))
  {
    FewBlockersComplete(s0, schedule);
    if Deadlocked(Exec(s0, schedule)) {
      DeadlockNeedsChoice(s0, schedule);
      var pick :| Choice(s0.nodes, pick, s0.cfg.n);
      ChainNoChoice(s0.nodes, pick, s0.cfg.n);
    }
  }

  // ---- a context that is done from the start

  /** The owner's task 1 submits task 2 through GoCtx with a context that is done; task 2 has child 3. */
  ghost predicate ExpiredTree(nodes: seq<Node>) {
    && Chain(nodes) && |nodes| == 4
    && nodes[1].via.ViaGo? && nodes[2].via.ViaGoCtx? && nodes[2].ctxDone && nodes[3].via.ViaGo?
  }

  /** Task 2 has not been started, and no submission is under way that would start it. */
  ghost predicate Expired(nodes: seq<Node>) {
    && ExpiredTree(nodes) && nodes[2].role.Nobody? && nodes[1].pc != Pc.Spawning(2)
    && forall x :: 0 <= x < |nodes| ==> !nodes[x].role.Inline? && !nodes[x].pc.Denied?
  }

  lemma PairExpired(ns: seq<Node>, nt: seq<Node>, p: nat, x: nat)
    requires Expired(ns) && p < |ns| == |nt| && x < |ns| && nt == ns[x := nt[x]][p := nt[p]]
    requires nt[p].parent == ns[p].parent && nt[p].via == ns[p].via && nt[p].ctxDone == ns[p].ctxDone
    requires nt[x].parent == ns[x].parent && nt[x].via == ns[x].via && nt[x].ctxDone == ns[x].ctxDone
    requires nt[p].role == ns[p].role && !nt[p].pc.Denied? && (p == 1 ==> nt[p].pc != Pc.Spawning(2))
    requires !nt[x].role.Inline? && !nt[x].pc.Denied? && !nt[x].pc.Spawning? && (x == 2 ==> nt[x].role.Nobody?)
    ensures Expired(nt)
  {
  }

  /** With one slot, which task 1 itself holds, it never gets one for task 2. */
  lemma ExpiredCannotAcquire(s: State)
    requires Inv(s) && Expired(s.nodes) && s.cfg.n == 1
    ensures !Enabled(s, Acquire(1))
  {
    assert NodeOk(s.nodes[1], false);
    SumAtLeast(Tokens, s.nodes, 1);
  }

  lemma SubmittingKeepsExpired(s: State, a: Action)
    requires Inv(s) && Expired(s.nodes) && s.cfg.n == 1 && Enabled(s, a) && PoolTheorems.Submitting(a)
    ensures Expired(Apply(s, a).nodes)
  {
    var p := a.p;
    var x := s.nodes[p].pc.child;
    Submission(s, p);
    ExpiredCannotAcquire(s);
    if a.Acquire? {
      PairExpired(s.nodes, AcquireStep(s, p).nodes, p, x);
    } else if a.Bail? {
      PairExpired(s.nodes, RejectStep(s, p, x).nodes, p, x);
    } else if a.Spawn? {
      PairExpired(s.nodes, SpawnStep(s, p, x).nodes, p, x);
    } else {
      assert false;
    }
  }

  lemma EndingKeepsExpired(s: State, a: Action)
    requires Expired(s.nodes) && Enabled(s, a) && (a.Finish? || a.Record? || a.Release? || a.Retire?)
    ensures Expired(Apply(s, a).nodes)
  {
    match a
    case Finish(x, outcome) => PairExpired(s.nodes, FinishStep(s, x, outcome).nodes, x, x);
    case Record(x) => PairExpired(s.nodes, RecordStep(s, x).nodes, x, x);
    case Release(x) => PairExpired(s.nodes, ReleaseStep(s, x).nodes, x, x);
    case Retire(x) => RetireKeepsExpired(s, x);
  }

  lemma RetireKeepsExpired(s: State, x: nat)
    requires Expired(s.nodes) && Enabled(s, Retire(x))
    ensures Expired(RetireStep(s, x).nodes)
  {
    PairExpired(s.nodes, RetireStep(s, x).nodes, x, x);
  }

  lemma StepKeepsExpired(s: State, a: Action)
    requires Inv(s) && Expired(s.nodes) && s.cfg.n == 1 && Enabled(s, a)
    ensures Expired(Apply(s, a).nodes)
  {
    if PoolTheorems.Submitting(a) {
      SubmittingKeepsExpired(s, a);
    } else if a.Finish? || a.Record? || a.Release? || a.Retire? {
      EndingKeepsExpired(s, a);
    } else if a.Offer? {
      PairExpired(s.nodes, OfferStep(s, a.p, a.x).nodes, a.p, a.x);
    } else if a.CancelCaller? {
      CancelKeepsExpired(s.nodes, a.x);
    } else if a.Quit? {
      PairExpired(s.nodes, Apply(s, a).nodes, 0, 0);
    } else if !a.FinishInline? {
      assert Apply(s, a).nodes == s.nodes;
    }
  }

  lemma CancelKeepsExpired(nodes: seq<Node>, x: nat)
    requires Expired(nodes) && x < |nodes|
    ensures Expired(nodes[x := nodes[x].(ctxDone := true)])
  {
  }

  lemma {:induction false} RunKeepsExpired(s: State, schedule: seq<Action>)
    requires Inv(s) && Expired(s.nodes) && s.cfg.n == 1 && Feasible(s, schedule)
    ensures Expired(Exec(s, schedule).nodes)
    decreases |schedule|
  {
    if schedule == [] {
    } else {
      StepKeepsExpired(s, schedule[0]);
      StepKeeps(s, schedule[0]);
      StepKeepsClaims(s, schedule[0]);
      RunKeepsExpired(Apply(s, schedule[0]), schedule[1..]);
    }
  }

  lemma ExpiredNotDeadlocked(s: State)
    requires Inv(s) && Expired(s.nodes)
    ensures !Deadlocked(s)
  {
    if Deadlocked(s) {
      DeadlockCensus(s);
      BlockedPlacesCount(s.nodes);
      var x :| x in BlockedPlaces(s.nodes);
      BlockedOnChild(s, x);
    }
  }

  lemma ExpiredHasChoice(nodes: seq<Node>)
    requires ExpiredTree(nodes)
    ensures Choice(nodes, map[2 := 3], 1)
  {
    if OnPath(nodes, 3, 2) {
      PathBelow(nodes, 3, 2);
    }
  }

  /**
   * A context that is done from the start can rule the deadlock out: here a choice exists, but
   * with one slot no run deadlocks.
   */
  lemma ExpiredChoice(s0: State, schedule: seq<Action>)
    requires Init(s0) && ExpiredTree(s0.nodes) && s0.cfg.n == 1 && Feasible(s0, schedule)
    ensures Choice(s0.nodes, map[2 := 3], s0.cfg.n) && !Deadlocked(Exec(s0, schedule))
  {
    InitEstablishes(s0);
    RunKeeps(s0, schedule);
    RunKeepsExpired(s0, schedule);
    ExpiredNotDeadlocked(Exec(s0, schedule));
    ExpiredHasChoice(s0.nodes);
  }
}
