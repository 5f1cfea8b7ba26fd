/**
 * Which trees can deadlock a pool, whatever the contexts of their GoCtx submissions: a child whose
 * context is done is started only while a slot is free, so the last slot has to go to a task whose
 * submitter waits, too.
 */
module PoolExact {
  import opened Counting
  import opened Options
  import opened PoolProtocol
  import opened PoolInvariant
  import opened PoolTheorems
  import opened PoolHistory
  import opened PoolLiveness
  import opened PoolDeadlock
  import opened PoolRuns

  /**
   * A choice of exactly n tasks in which y can be the last to start: it is submitted by the owner
   * or by another chosen task, and no other chosen task descends from it.
   */
  ghost predicate LastChoice(nodes: seq<Node>, pick: map<nat, nat>, n: nat, y: nat) {
    && Choice(nodes, pick, n) && |pick| == n && y in pick
    && (nodes[y].parent == 0 || nodes[y].parent in pick)
    && forall x :: x in pick && OnPath(nodes, y, x) ==> x == y
  }

  // ---- paths

  /** Of two nodes above z one is above the other. */
  lemma {:induction false} Comparable(tree: seq<Node>, a: nat, b: nat, z: nat)
    requires z < |tree| && OnPath(tree, a, z) && OnPath(tree, b, z)
    ensures a <= z && b <= z && (OnPath(tree, a, b) || OnPath(tree, b, a))
    decreases z
  {
    PathBelow(tree, a, z);
    PathBelow(tree, b, z);
    if a == z || b == z {
    } else {
      Comparable(tree, a, b, tree[z].parent);
    }
  }

  /** A node strictly below a has a submitter not before a. */
  lemma ParentBelow(tree: seq<Node>, a: nat, x: nat)
    requires x < |tree| && OnPath(tree, a, x) && a != x
    ensures x > 0 && OnPath(tree, a, tree[x].parent) && a <= tree[x].parent
  {
    PathBelow(tree, a, tree[x].parent);
  }

  // ---- starting all chosen tasks but the last

  /** Some run leads to s. */
  ghost predicate Reachable(s: State) {
    exists s0, schedule :: Init(s0) && Feasible(s0, schedule) && Exec(s0, schedule) == s
  }

  lemma ReachableInv(s: State)
    requires Reachable(s)
    ensures Inv(s)
  {
    var s0, schedule :| Init(s0) && Feasible(s0, schedule) && Exec(s0, schedule) == s;
    InitEstablishes(s0);
    RunKeeps(s0, schedule);
  }

  lemma ReachableRun(s: State, schedule: seq<Action>)
    requires Reachable(s) && Feasible(s, schedule)
    ensures Reachable(Exec(s, schedule))
  {
    var s0, before :| Init(s0) && Feasible(s0, before) && Exec(s0, before) == s;
    ExecBoth(s0, before, schedule);
  }

  /** Node x is to be started by the time that all nodes before i, and i's children before j, have been dealt with. */
  ghost predicate Due(tree: seq<Node>, pick: map<nat, nat>, i: nat, j: nat, x: nat)
    requires 1 <= x < |tree|
  {
    Needed(tree, pick, x) && (tree[x].parent < i || (tree[x].parent == i && x < j))
  }

  /** A node that is due has been spawned; it runs, unless it is behind i and not a chosen task. */
  ghost predicate CutNode(t: Node, tree: seq<Node>, pick: map<nat, nat>, i: nat, j: nat, x: nat)
    requires 1 <= x < |tree|
  {
    if !Due(tree, pick, i, j, x) then t.role.Nobody? && t.pc.Idle?
    else t.role.Spawned? && t.pc == if x < i && x !in pick then Over else Run
  }

  ghost predicate CutNodes(nodes: seq<Node>, tree: seq<Node>, pick: map<nat, nat>, i: nat, j: nat) {
    && |nodes| == |tree|
    && forall x {:trigger CutNode(nodes[x], tree, pick, i, j, x)} :: 1 <= x < |tree| ==>
      CutNode(nodes[x], tree, pick, i, j, x)
  }

  /** The tree and its contexts are what they were. */
  ghost predicate SameTree(ns: seq<Node>, nt: seq<Node>) {
    |nt| == |ns| && forall x :: 0 <= x < |ns| ==>
      nt[x].parent == ns[x].parent && nt[x].via == ns[x].via && nt[x].ctxDone == ns[x].ctxDone
  }

  /** The nodes before i, and the children of i before j, have been dealt with. */
  ghost predicate Cut(s: State, tree: seq<Node>, pick: map<nat, nat>, i: nat, j: nat) {
    && s.wait.Working? && tree != [] && SameTree(tree, s.nodes) && s.nodes[0].pc.Run?
    && CutNodes(s.nodes, tree, pick, i, j)
    && (forall x :: x in pick ==> 1 <= x < |tree|)
  }

  /** A chosen task at or below x. */
  ghost function Below(tree: seq<Node>, pick: map<nat, nat>, x: nat): (z: nat)
    requires Needed(tree, pick, x)
    ensures z in pick && z < |tree| && OnPath(tree, x, z)
  {
    var z :| z in pick && z < |tree| && OnPath(tree, x, z);
    z
  }

  /** The tasks that hold a token. */
  ghost function Running(nodes: seq<Node>): set<nat> {
    set x | 0 <= x < |nodes| && Tokens(nodes[x]) == 1
  }

  /** The chosen task that a running task stands for while i is about to submit j. */
  ghost function StandsFor(tree: seq<Node>, pick: map<nat, nat>, i: nat, j: nat, x: nat): nat
    requires x in pick || (x == i && Needed(tree, pick, j)) || Needed(tree, pick, x)
  {
    if x in pick then x else if x == i && Needed(tree, pick, j) then Below(tree, pick, j) else Below(tree, pick, x)
  }

  /** What is known of a running task. */
  ghost predicate Waits(tree: seq<Node>, pick: map<nat, nat>, i: nat, j: nat, x: nat) {
    1 <= x < |tree| && Due(tree, pick, i, j, x) && (x in pick || i <= x)
  }

  lemma RunningWaits(s: State, tree: seq<Node>, pick: map<nat, nat>, i: nat, j: nat, x: nat)
    requires NodesOk(s) && Cut(s, tree, pick, i, j) && x in Running(s.nodes)
    ensures Waits(tree, pick, i, j, x)
  {
    assert NodeOk(s.nodes[x], x == 0);
    assert x != 0 ==> CutNode(s.nodes[x], tree, pick, i, j, x);
  }

  /** Nothing that is due lies below a node after i, other than that node, or at or below j. */
  lemma NothingDueBelow(tree: seq<Node>, pick: map<nat, nat>, i: nat, j: nat, a: nat, x: nat)
    requires 1 <= x < |tree| && Due(tree, pick, i, j, x) && OnPath(tree, a, x)
    requires i < a
    ensures a == x
  {
    if a != x {
      ParentBelow(tree, a, x);
    }
  }

  /** The node whose chosen tasks x is to account for: itself, or j, which i is about to submit. */
  function Top(i: nat, j: nat, x: nat): nat {
    if x == i then j else x
  }

  /** Different running tasks that are not chosen account for different parts of the tree. */
  lemma TopsApart(tree: seq<Node>, pick: map<nat, nat>, i: nat, j: nat, x: nat, y: nat, z: nat)
    requires Tree(tree) && 1 <= j < |tree| && tree[j].parent == i
    requires i <= x && 1 <= x < |tree| && Due(tree, pick, i, j, x)
    requires i <= y && 1 <= y < |tree| && Due(tree, pick, i, j, y)
    requires z < |tree| && OnPath(tree, Top(i, j, x), z) && OnPath(tree, Top(i, j, y), z)
    ensures x == y
  {
    var a, b := Top(i, j, x), Top(i, j, y);
    assert i < a && i < b;
    Comparable(tree, a, b, z);
    if OnPath(tree, a, b) {
      TopAbove(tree, pick, i, j, a, y);
    } else {
      TopAbove(tree, pick, i, j, b, x);
    }
  }

  lemma TopAbove(tree: seq<Node>, pick: map<nat, nat>, i: nat, j: nat, a: nat, y: nat)
    requires Tree(tree) && 1 <= j < |tree| && tree[j].parent == i < a
    requires i <= y && 1 <= y < |tree| && Due(tree, pick, i, j, y) && OnPath(tree, a, Top(i, j, y))
    ensures a == Top(i, j, y)
  {
    if y == i {
      if a != j {
        ParentBelow(tree, a, j);
      }
    } else {
      NothingDueBelow(tree, pick, i, j, a, y);
    }
  }

  /** Two running tasks stand for two chosen tasks. */
  lemma StandApart(tree: seq<Node>, pick: map<nat, nat>, i: nat, j: nat, x: nat, y: nat)
    requires Tree(tree) && 1 <= j < |tree| && tree[j].parent == i && Needed(tree, pick, j)
    requires Waits(tree, pick, i, j, x) && Waits(tree, pick, i, j, y) && x != y
    ensures StandsFor(tree, pick, i, j, x) != StandsFor(tree, pick, i, j, y)
  {
    if x in pick && y !in pick {
      ChosenApart(tree, pick, i, j, y, x);
    } else if y in pick && x !in pick {
      ChosenApart(tree, pick, i, j, x, y);
    } else if x !in pick && StandsFor(tree, pick, i, j, x) == StandsFor(tree, pick, i, j, y) {
      TopsApart(tree, pick, i, j, x, y, StandsFor(tree, pick, i, j, x));
    }
  }

  lemma ChosenApart(tree: seq<Node>, pick: map<nat, nat>, i: nat, j: nat, x: nat, z: nat)
    requires Tree(tree) && 1 <= j < |tree| && tree[j].parent == i && Needed(tree, pick, j)
    requires Waits(tree, pick, i, j, x) && x !in pick && Waits(tree, pick, i, j, z) && z in pick
    ensures StandsFor(tree, pick, i, j, x) != z
  {
    if StandsFor(tree, pick, i, j, x) == z {
      NothingDueBelow(tree, pick, i, j, Top(i, j, x), z);
    }
  }

  lemma {:induction false} InjectionCard(a: set<nat>, f: map<nat, nat>, b: set<nat>)
    requires f.Keys == a && (forall x :: x in a ==> f[x] in b)
    requires forall x, y :: x in a && y in a && x != y ==> f[x] != f[y]
    ensures |a| <= |b|
  {
    if a == {} {
    } else {
      var x :| x in a;
      InjectionCard(a - {x}, f - {x}, b - {f[x]});
    }
  }

  lemma {:induction false} RunningCount(nodes: seq<Node>)
    requires forall x :: 0 <= x < |nodes| ==> Tokens(nodes[x]) <= 1
    ensures |Running(nodes)| == Sum(Tokens, nodes)
  {
    if nodes == [] {
      assert Running(nodes) == {};
    } else {
      var n := |nodes| - 1;
      RunningCount(nodes[..n]);
      var before := Running(nodes[..n]);
      assert Running(nodes) == if Tokens(nodes[n]) == 1 then before + {n} else before;
    }
  }

  lemma CutTokens(s: State, tree: seq<Node>, pick: map<nat, nat>, i: nat, j: nat)
    requires Counts(s) && NodesOk(s) && Cut(s, tree, pick, i, j)
    ensures |Running(s.nodes)| == s.sem
  {
    forall x | 0 <= x < |s.nodes| ensures Tokens(s.nodes[x]) <= 1 {
      assert NodeOk(s.nodes[x], x == 0);
      assert x != 0 ==> CutNode(s.nodes[x], tree, pick, i, j, x);
    }
    RunningCount(s.nodes);
  }

  /** While i is about to submit j, no more slots are taken than there are chosen tasks. */
  lemma CutFits(s: State, tree: seq<Node>, pick: map<nat, nat>, i: nat, j: nat)
    requires Counts(s) && NodesOk(s)
    requires Tree(tree) && Cut(s, tree, pick, i, j) && 1 <= j < |tree| && tree[j].parent == i && Needed(tree, pick, j)
    ensures s.sem <= |pick|
  {
    CutTokens(s, tree, pick, i, j);
    var running := Running(s.nodes);
    forall x | x in running ensures Waits(tree, pick, i, j, x) {
      RunningWaits(s, tree, pick, i, j, x);
    }
    WaitingFit(tree, pick, i, j, running);
  }

  lemma WaitingFit(tree: seq<Node>, pick: map<nat, nat>, i: nat, j: nat, running: set<nat>)
    requires Tree(tree) && 1 <= j < |tree| && tree[j].parent == i && Needed(tree, pick, j)
    requires forall x :: x in running ==> Waits(tree, pick, i, j, x)
    ensures |running| <= |pick|
  {
    var f := map x | x in running :: StandsFor(tree, pick, i, j, x);
    forall x, y | x in running && y in running && x != y ensures f[x] != f[y] {
      StandApart(tree, pick, i, j, x, y);
    }
    InjectionCard(running, f, pick.Keys);
  }

  /** The run leads to the cut at i and j. */
  ghost predicate CutRun(s: State, schedule: seq<Action>, tree: seq<Node>, pick: map<nat, nat>, i: nat, j: nat) {
    && Feasible(s, schedule) && Cut(Exec(s, schedule), tree, pick, i, j)
    && Exec(s, schedule).cfg == s.cfg && Exec(s, schedule).waitsLeft == s.waitsLeft
  }

  /** Some run leads from s to the cut at i and j. */
  ghost predicate CanCut(s: State, tree: seq<Node>, pick: map<nat, nat>, i: nat, j: nat) {
    exists schedule :: CutRun(s, schedule, tree, pick, i, j)
  }

  lemma CutJoin(s: State, a: seq<Action>, tree: seq<Node>, pick: map<nat, nat>, i: nat, j: nat)
    requires Feasible(s, a) && Exec(s, a).cfg == s.cfg && Exec(s, a).waitsLeft == s.waitsLeft
    requires CanCut(Exec(s, a), tree, pick, i, j)
    ensures CanCut(s, tree, pick, i, j)
  {
    var b :| CutRun(Exec(s, a), b, tree, pick, i, j);
    ExecBoth(s, a, b);
    assert CutRun(s, a + b, tree, pick, i, j);
  }

  lemma CutGrows(ns: seq<Node>, nt: seq<Node>, tree: seq<Node>, pick: map<nat, nat>, i: nat, j: nat)
    requires Tree(tree) && CutNodes(ns, tree, pick, i, j)
    requires 1 <= j < |tree| && tree[j].parent == i && Needed(tree, pick, j)
    requires |nt| == |ns| && nt == ns[j := nt[j]] && nt[j].role.Spawned? && nt[j].pc.Run?
    ensures CutNodes(nt, tree, pick, i, j + 1)
  {
    forall x | 1 <= x < |tree| && x != j ensures CutNode(nt[x], tree, pick, i, j + 1, x) {
      assert CutNode(ns[x], tree, pick, i, j, x);
      assert Due(tree, pick, i, j + 1, x) == Due(tree, pick, i, j, x);
    }
  }

  lemma CutEnables(s: State, tree: seq<Node>, pick: map<nat, nat>, i: nat, j: nat)
    requires Tree(tree) && Cut(s, tree, pick, i, j) && 1 <= j < |tree| && tree[j].parent == i && Needed(tree, pick, j)
    ensures Enabled(s, Offer(i, j))
  {
    NeededUp(tree, pick, j);
    assert CutNode(s.nodes[j], tree, pick, i, j, j);
    assert i != 0 ==> CutNode(s.nodes[i], tree, pick, i, j, i);
  }

  /** Node i submits its needed child j. */
  lemma CutSpawns(s: State, tree: seq<Node>, pick: map<nat, nat>, i: nat, j: nat) returns (schedule: seq<Action>)
    requires Tree(tree) && Cut(s, tree, pick, i, j) && 1 <= j < |tree| && tree[j].parent == i && Needed(tree, pick, j)
    requires Reachable(s) && |pick| < s.cfg.n
    ensures CutRun(s, schedule, tree, pick, i, j + 1)
  {
    ReachableInv(s);
    CutFits(s, tree, pick, i, j);
    CutEnables(s, tree, pick, i, j);
    schedule := Spawns(s, i, j);
    CutSpawned(s, tree, pick, i, j);
  }

  lemma CutSpawned(s: State, tree: seq<Node>, pick: map<nat, nat>, i: nat, j: nat)
    requires Tree(tree) && Cut(s, tree, pick, i, j) && 1 <= j < |tree| && tree[j].parent == i && Needed(tree, pick, j)
    ensures Cut(AfterSpawn(s, j), tree, pick, i, j + 1)
  {
    CutGrows(s.nodes, AfterSpawn(s, j).nodes, tree, pick, i, j);
    SameTreeFrame(tree, s.nodes, AfterSpawn(s, j).nodes, j, j);
  }

  /** j is no child to submit. */
  lemma CutSkips(nodes: seq<Node>, tree: seq<Node>, pick: map<nat, nat>, i: nat, j: nat)
    requires CutNodes(nodes, tree, pick, i, j) && 1 <= j < |tree| && !(tree[j].parent == i && Needed(tree, pick, j))
    ensures CutNodes(nodes, tree, pick, i, j + 1)
  {
    forall x | 1 <= x < |tree| ensures CutNode(nodes[x], tree, pick, i, j + 1, x) {
      assert CutNode(nodes[x], tree, pick, i, j, x);
      assert Due(tree, pick, i, j + 1, x) == Due(tree, pick, i, j, x);
    }
  }

  /** A task ends and gives its slot back. */
  lemma TaskEnds(s: State, x: nat) returns (schedule: seq<Action>)
    requires Counts(s) && At(s, x, Run) && s.nodes[x].role.Spawned?
    ensures Feasible(s, schedule)
    ensures var t := Exec(s, schedule);
      && t.cfg == s.cfg && t.waitsLeft == s.waitsLeft && t.wait == s.wait
      && t.nodes == s.nodes[x := s.nodes[x].(pc := Over, out := Some(Outcome(0, None)))]
  {
    var s1 := FinishStep(s, x, Outcome(0, None));
    var s2 := RecordStep(s1, x);
    SumAtLeast(Tokens, s.nodes, x);
    SumAtLeast(Live, s.nodes, x);
    schedule := WindsUp(s2, x);
    assert WoundUp(s2, x).nodes == s.nodes[x := s.nodes[x].(pc := Over, out := Some(Outcome(0, None)))];
    schedule := Prepend(s1, Record(x), schedule);
    schedule := Prepend(s, Finish(x, Outcome(0, None)), schedule);
  }

  lemma CutMoves(ns: seq<Node>, nt: seq<Node>, tree: seq<Node>, pick: map<nat, nat>, i: nat)
    requires CutNodes(ns, tree, pick, i, |tree|) && i < |tree| == |nt|
    requires forall x :: 1 <= x < |tree| && x != i ==> nt[x] == ns[x]
    requires i != 0 && Due(tree, pick, i, |tree|, i) && i !in pick ==> nt[i].role.Spawned? && nt[i].pc.Over?
    requires i != 0 && !(Due(tree, pick, i, |tree|, i) && i !in pick) ==> nt[i] == ns[i]
    ensures CutNodes(nt, tree, pick, i + 1, 1)
  {
    forall x | 1 <= x < |tree| ensures CutNode(nt[x], tree, pick, i + 1, 1, x) {
      assert CutNode(ns[x], tree, pick, i, |tree|, x);
    }
  }

  /** All children of i have been dealt with: i ends, unless it is the owner or a chosen task. */
  lemma CutNext(s: State, tree: seq<Node>, pick: map<nat, nat>, i: nat) returns (schedule: seq<Action>)
    requires Reachable(s) && Cut(s, tree, pick, i, |tree|) && i < |tree|
    ensures CutRun(s, schedule, tree, pick, i + 1, 1)
  {
    ReachableInv(s);
    schedule := [];
    assert i != 0 ==> CutNode(s.nodes[i], tree, pick, i, |tree|, i);
    if i != 0 && Due(tree, pick, i, |tree|, i) && i !in pick {
      schedule := TaskEnds(s, i);
    }
    CutMoves(s.nodes, Exec(s, schedule).nodes, tree, pick, i);
  }

  /** j has been dealt with as a child of i. */
  lemma CutChild(s: State, tree: seq<Node>, pick: map<nat, nat>, i: nat, j: nat) returns (schedule: seq<Action>)
    requires Reachable(s) && Tree(tree) && Cut(s, tree, pick, i, j) && 1 <= j < |tree| && |pick| < s.cfg.n
    ensures CutRun(s, schedule, tree, pick, i, j + 1)
  {
    if tree[j].parent == i && Needed(tree, pick, j) {
      schedule := CutSpawns(s, tree, pick, i, j);
    } else {
      CutSkips(s.nodes, tree, pick, i, j);
      schedule := [];
    }
  }

  lemma CanCutChild(s: State, tree: seq<Node>, pick: map<nat, nat>, i: nat, j: nat)
    requires Reachable(s) && Tree(tree) && CanCut(s, tree, pick, i, j) && 1 <= j < |tree| && |pick| < s.cfg.n
    ensures CanCut(s, tree, pick, i, j + 1)
  {
    var before :| CutRun(s, before, tree, pick, i, j);
    ReachableRun(s, before);
    var last := CutChild(Exec(s, before), tree, pick, i, j);
    CutJoin(s, before, tree, pick, i, j + 1);
  }

  lemma CanCutNext(s: State, tree: seq<Node>, pick: map<nat, nat>, i: nat)
    requires Reachable(s) && CanCut(s, tree, pick, i, |tree|) && i < |tree|
    ensures CanCut(s, tree, pick, i + 1, 1)
  {
    var before :| CutRun(s, before, tree, pick, i, |tree|);
    ReachableRun(s, before);
    var last := CutNext(Exec(s, before), tree, pick, i);
    CutJoin(s, before, tree, pick, i + 1, 1);
  }

  /** The children of i from j on can be dealt with. */
  lemma {:induction false} ChildrenDone(s: State, tree: seq<Node>, pick: map<nat, nat>, i: nat, j: nat)
    requires Reachable(s) && Tree(tree) && CanCut(s, tree, pick, i, j) && 1 <= j <= |tree| && |pick| < s.cfg.n
    ensures CanCut(s, tree, pick, i, |tree|)
    decreases |tree| - j
  {
    if j == |tree| {
    } else {
      CanCutChild(s, tree, pick, i, j);
      ChildrenDone(s, tree, pick, i, j + 1);
    }
  }

  /** From any node on, all chosen tasks can be started, and everything else ends. */
  lemma {:induction false} CutFinishes(s: State, tree: seq<Node>, pick: map<nat, nat>, i: nat)
    requires Reachable(s) && Tree(tree) && CanCut(s, tree, pick, i, 1) && i <= |tree| && |pick| < s.cfg.n
    ensures CanCut(s, tree, pick, |tree|, 1)
    decreases |tree| - i
  {
    if i == |tree| {
    } else {
      ChildrenDone(s, tree, pick, i, 1);
      CanCutNext(s, tree, pick, i);
      CutFinishes(s, tree, pick, i + 1);
    }
  }

  // ---- then the last one, and all wait

  /** Every other chosen task is running, and nothing else is. */
  lemma CutEnd(s: State, tree: seq<Node>, pick: map<nat, nat>, x: nat)
    requires Tree(tree) && Cut(s, tree, pick, |tree|, 1) && 1 <= x < |tree|
    ensures x in pick ==> s.nodes[x].role.Spawned? && s.nodes[x].pc.Run?
    ensures x !in pick ==>
      (s.nodes[x].role.Nobody? && s.nodes[x].pc.Idle?) || (s.nodes[x].role.Spawned? && s.nodes[x].pc.Over?)
    ensures !Needed(tree, pick, x) ==> s.nodes[x].pc.Idle?
  {
    assert CutNode(s.nodes[x], tree, pick, |tree|, 1, x);
    assert OnPath(tree, x, x);
  }

  lemma CutSem(s: State, tree: seq<Node>, pick: map<nat, nat>)
    requires Counts(s) && NodesOk(s) && Tree(tree) && Cut(s, tree, pick, |tree|, 1)
    ensures s.sem == |pick|
  {
    CutTokens(s, tree, pick, |tree|, 1);
    forall x | x in Running(s.nodes) ensures x in pick.Keys {
      RunningWaits(s, tree, pick, |tree|, 1, x);
    }
    forall x | x in pick.Keys ensures x in Running(s.nodes) {
      CutEnd(s, tree, pick, x);
    }
    assert Running(s.nodes) == pick.Keys;
  }

  /** A node is a chosen task, which runs while it is in rest and waits after that, or does nothing. */
  ghost predicate WaitNode(t: Node, pick: map<nat, nat>, rest: set<nat>, x: nat) {
    if x in pick then t.role.Spawned? && t.pc == if x in rest then Run else Pc.Submitting(pick[x])
    else (t.role.Nobody? && (t.pc.Idle? || t.pc.Offered?)) || (t.role.Spawned? && t.pc.Over?)
  }

  ghost predicate WaitNodes(nodes: seq<Node>, pick: map<nat, nat>, rest: set<nat>) {
    && (forall x {:trigger WaitNode(nodes[x], pick, rest, x)} :: 1 <= x < |nodes| ==> WaitNode(nodes[x], pick, rest, x))
    && (forall x :: x in rest && x in pick && pick[x] < |nodes| ==> nodes[pick[x]].pc.Idle?)
  }

  /** A chosen child is not a chosen task, and it is the child of one only. */
  lemma PickedApart(tree: seq<Node>, pick: map<nat, nat>, n: nat, x: nat, y: nat)
    requires Choice(tree, pick, n) && x in pick && y in pick
    ensures pick[x] != y && (x != y ==> pick[x] != pick[y])
  {
    assert OnPath(tree, pick[x], pick[x]);
  }

  lemma OfferHolds(ns: seq<Node>, nt: seq<Node>, pick: map<nat, nat>, rest: set<nat>, x: nat, c: nat)
    requires WaitNodes(ns, pick, rest) && x in rest && x in pick && pick[x] == c && 1 <= c < |ns| && 1 <= x < |ns|
    requires c !in pick && forall y :: y in pick && y != x ==> pick[y] != c && pick[y] != x
    requires |nt| == |ns| && nt == ns[c := nt[c]][x := nt[x]]
    requires nt[x] == ns[x].(pc := Pc.Submitting(c)) && nt[c].role == ns[c].role && nt[c].pc.Offered?
    ensures WaitNodes(nt, pick, rest - {x})
  {
    assert WaitNode(ns[x], pick, rest, x) && WaitNode(ns[c], pick, rest, c);
    forall y | 1 <= y < |nt| ensures WaitNode(nt[y], pick, rest - {x}, y) {
      assert WaitNode(ns[y], pick, rest, y);
    }
  }

  /** All slots are taken by the chosen tasks; those in rest are still to offer their children. */
  ghost predicate AllHold(s: State, tree: seq<Node>, pick: map<nat, nat>, rest: set<nat>) {
    && SameTree(tree, s.nodes) && Choice(tree, pick, s.cfg.n) && s.sem == s.cfg.n && s.nodes != []
    && s.wait.Working? && s.nodes[0].pc.Run? && rest <= pick.Keys && WaitNodes(s.nodes, pick, rest)
  }

  lemma SameTreeFrame(tree: seq<Node>, ns: seq<Node>, nt: seq<Node>, c: nat, x: nat)
    requires SameTree(tree, ns) && |nt| == |ns| && c < |ns| && x < |ns| && nt == ns[c := nt[c]][x := nt[x]]
    requires nt[c].parent == ns[c].parent && nt[c].via == ns[c].via && nt[c].ctxDone == ns[c].ctxDone
    requires nt[x].parent == ns[x].parent && nt[x].via == ns[x].via && nt[x].ctxDone == ns[x].ctxDone
    ensures SameTree(tree, nt)
  {
  }

  lemma HoldsOffers(s: State, tree: seq<Node>, pick: map<nat, nat>, rest: set<nat>, x: nat)
    requires AllHold(s, tree, pick, rest) && x in rest
    ensures Enabled(s, Offer(x, pick[x])) && AllHold(OfferStep(s, x, pick[x]), tree, pick, rest - {x})
  {
    var c := pick[x];
    var t := OfferStep(s, x, c);
    PickedApart(tree, pick, s.cfg.n, x, x);
    CanOffer(s, tree, pick, rest, x);
    forall y | y in pick ensures y != c && (y != x ==> pick[y] != c && pick[y] != x) {
      PickedApart(tree, pick, s.cfg.n, x, y);
      PickedApart(tree, pick, s.cfg.n, y, x);
    }
    OfferHolds(s.nodes, t.nodes, pick, rest, x, c);
    SameTreeFrame(tree, s.nodes, t.nodes, c, x);
  }

  lemma CanOffer(s: State, tree: seq<Node>, pick: map<nat, nat>, rest: set<nat>, x: nat)
    requires AllHold(s, tree, pick, rest) && x in rest
    ensures 1 <= x < |s.nodes| && 1 <= pick[x] < |s.nodes| && Enabled(s, Offer(x, pick[x]))
  {
    assert WaitNode(s.nodes[x], pick, rest, x);
  }

  lemma HoldsDeadlocked(s: State, tree: seq<Node>, pick: map<nat, nat>, t: State)
    requires AllHold(s, tree, pick, {}) && t.sem == s.sem && t.cfg == s.cfg
    requires |t.nodes| == |s.nodes| && forall x :: 1 <= x < |s.nodes| ==> t.nodes[x] == s.nodes[x]
    requires t.nodes[0].pc.Over? || (t.nodes[0].pc.Run? && !t.wait.Working?)
    ensures Deadlocked(t)
  {
    forall x | 0 <= x < |t.nodes| ensures AtRest(t, x) {
      if x != 0 {
        assert WaitNode(s.nodes[x], pick, {}, x);
      }
    }
  }

  lemma OwnerRests(s: State, tree: seq<Node>, pick: map<nat, nat>) returns (schedule: seq<Action>)
    requires AllHold(s, tree, pick, {})
    ensures Feasible(s, schedule) && Deadlocked(Exec(s, schedule))
  {
    if s.waitsLeft > 0 {
      HoldsDeadlocked(s, tree, pick, s.(waitsLeft := s.waitsLeft - 1, wait := PoolProtocol.WaitPc.Waiting));
      OneStep(s, CallWait);
      schedule := [CallWait];
    } else {
      HoldsDeadlocked(s, tree, pick, s.(nodes := Move(s.nodes, 0, Over)));
      OneStep(s, Quit);
      schedule := [Quit];
    }
  }

  /** They offer their children one after the other, and the owner waits or quits. */
  lemma {:induction false} HoldDeadlocks(s: State, tree: seq<Node>, pick: map<nat, nat>, rest: set<nat>)
    returns (schedule: seq<Action>)
    requires AllHold(s, tree, pick, rest)
    ensures Feasible(s, schedule) && Deadlocked(Exec(s, schedule))
    decreases rest
  {
    if rest == {} {
      schedule := OwnerRests(s, tree, pick);
    } else {
      var x :| x in rest;
      HoldsOffers(s, tree, pick, rest, x);
      schedule := HoldDeadlocks(OfferStep(s, x, pick[x]), tree, pick, rest - {x});
      schedule := Prepend(s, Offer(x, pick[x]), schedule);
    }
  }

  /** The last task starts, too, and then all hold. */
  lemma LastStarts(s: State, tree: seq<Node>, pick: map<nat, nat>, y: nat) returns (schedule: seq<Action>)
    requires Counts(s) && NodesOk(s)
    requires Tree(tree) && LastChoice(tree, pick, s.cfg.n, y) && Cut(s, tree, pick - {y}, |tree|, 1)
    ensures Feasible(s, schedule) && AllHold(Exec(s, schedule), tree, pick, pick.Keys)
  {
    LastCanStart(s, tree, pick, y);
    AllStarted(s, tree, pick, y);
    LastHolds(s, tree, pick, y);
    schedule := Spawns(s, tree[y].parent, y);
  }

  lemma LastHolds(s: State, tree: seq<Node>, pick: map<nat, nat>, y: nat)
    requires Choice(tree, pick, s.cfg.n) && s.sem == s.cfg.n - 1 && s.wait.Working? && SameTree(tree, s.nodes)
    requires 1 <= y < |s.nodes| && s.nodes[0].pc.Run? && WaitNodes(AfterSpawn(s, y).nodes, pick, pick.Keys)
    ensures AllHold(AfterSpawn(s, y), tree, pick, pick.Keys)
  {
    SameTreeFrame(tree, s.nodes, AfterSpawn(s, y).nodes, y, y);
  }

  lemma LastCanStart(s: State, tree: seq<Node>, pick: map<nat, nat>, y: nat)
    requires Counts(s) && NodesOk(s)
    requires Tree(tree) && LastChoice(tree, pick, s.cfg.n, y) && Cut(s, tree, pick - {y}, |tree|, 1)
    ensures Enabled(s, Offer(tree[y].parent, y)) && s.sem == s.cfg.n - 1
  {
    var others := pick - {y};
    var p := tree[y].parent;
    CutSem(s, tree, others);
    assert others.Keys == pick.Keys - {y};
    NotNeeded(tree, pick, y);
    CutEnd(s, tree, others, y);
    if p != 0 {
      CutEnd(s, tree, others, p);
    }
  }

  lemma NotNeeded(tree: seq<Node>, pick: map<nat, nat>, y: nat)
    requires y in pick && forall x :: x in pick ==> x < |tree|
    requires forall x :: x in pick && OnPath(tree, y, x) ==> x == y
    ensures !Needed(tree, pick - {y}, y)
  {
  }

  lemma AllStarted(s: State, tree: seq<Node>, pick: map<nat, nat>, y: nat)
    requires Tree(tree) && Choice(tree, pick, s.cfg.n) && y in pick && Cut(s, tree, pick - {y}, |tree|, 1)
    ensures WaitNodes(AfterSpawn(s, y).nodes, pick, pick.Keys)
  {
    var nodes := AfterSpawn(s, y).nodes;
    forall x | 1 <= x < |nodes| ensures WaitNode(nodes[x], pick, pick.Keys, x) {
      StartedNode(s, tree, pick, y, x);
    }
    forall x | x in pick ensures pick[x] != y && s.nodes[pick[x]].pc.Idle? {
      PickedApart(tree, pick, s.cfg.n, x, y);
      PickedIdle(s, tree, pick, y, x);
    }
  }

  lemma StartedNode(s: State, tree: seq<Node>, pick: map<nat, nat>, y: nat, x: nat)
    requires Tree(tree) && 1 <= y < |tree| && y in pick && Cut(s, tree, pick - {y}, |tree|, 1) && 1 <= x < |tree|
    ensures WaitNode(AfterSpawn(s, y).nodes[x], pick, pick.Keys, x)
  {
    CutEnd(s, tree, pick - {y}, x);
    assert x != y ==> AfterSpawn(s, y).nodes[x] == s.nodes[x];
  }

  /** No chosen child has been started. */
  lemma PickedIdle(s: State, tree: seq<Node>, pick: map<nat, nat>, y: nat, x: nat)
    requires Tree(tree) && Choice(tree, pick, s.cfg.n) && x in pick && Cut(s, tree, pick - {y}, |tree|, 1)
    ensures 1 <= pick[x] < |s.nodes| && s.nodes[pick[x]].pc.Idle?
  {
    var c := pick[x];
    PickedNotNeeded(tree, pick, s.cfg.n, x);
    NeededByFewer(tree, pick, y, c);
    CutEnd(s, tree, pick - {y}, c);
  }

  lemma NeededByFewer(tree: seq<Node>, pick: map<nat, nat>, y: nat, c: nat)
    requires !Needed(tree, pick, c)
    ensures !Needed(tree, pick - {y}, c)
  {
  }

  lemma CutStarts(s0: State, pick: map<nat, nat>)
    requires Init(s0) && forall x :: x in pick ==> 1 <= x < |s0.nodes|
    ensures Cut(s0, s0.nodes, pick, 0, 1)
  {
  }

  /** Whatever the contexts and the ways of submission, such a choice leads to a deadlock. */
  lemma LastChoiceDeadlocks(s0: State, pick: map<nat, nat>, y: nat) returns (schedule: seq<Action>)
    requires Init(s0) && LastChoice(s0.nodes, pick, s0.cfg.n, y)
    ensures DeadlocksIn(s0, schedule)
  {
    var others := pick - {y};
    assert others.Keys == pick.Keys - {y};
    CutStarts(s0, others);
    assert Exec(s0, []) == s0 && Reachable(s0) && CutRun(s0, [], s0.nodes, others, 0, 1);
    CutFinishes(s0, s0.nodes, others, 0);
    schedule :| CutRun(s0, schedule, s0.nodes, others, |s0.nodes|, 1);
    ReachableRun(s0, schedule);
    ReachableInv(Exec(s0, schedule));
    var rest := LastDeadlocks(Exec(s0, schedule), s0.nodes, pick, y);
    ExecBoth(s0, schedule, rest);
    schedule := schedule + rest;
  }

  lemma LastDeadlocks(s: State, tree: seq<Node>, pick: map<nat, nat>, y: nat) returns (schedule: seq<Action>)
    requires Counts(s) && NodesOk(s)
    requires Tree(tree) && LastChoice(tree, pick, s.cfg.n, y) && Cut(s, tree, pick - {y}, |tree|, 1)
    ensures DeadlocksIn(s, schedule)
  {
    schedule := LastStarts(s, tree, pick, y);
    var rest := HoldDeadlocks(Exec(s, schedule), tree, pick, pick.Keys);
    ExecBoth(s, schedule, rest);
    schedule := schedule + rest;
  }

  // ---- a deadlock without TryGo leaves such a choice behind

  ghost predicate TryFree(nodes: seq<Node>) {
    forall x :: 1 <= x < |nodes| ==> !nodes[x].via.ViaTry?
  }

  /** Without TryGo nothing is run inline. */
  ghost predicate NoInline(nodes: seq<Node>) {
    forall x :: 0 <= x < |nodes| ==> !nodes[x].role.Inline? && !nodes[x].pc.Denied?
  }

  lemma StepNoInline(s: State, a: Action)
    requires Inv(s) && Enabled(s, a) && TryFree(s.nodes) && NoInline(s.nodes)
    ensures TryFree(Apply(s, a).nodes) && NoInline(Apply(s, a).nodes)
  {
    StepKeepsClaims(s, a);
    StepChanges(s, a);
    NodesNoInline(s, a, Apply(s, a).nodes);
  }

  lemma NodesNoInline(s: State, a: Action, nt: seq<Node>)
    requires TryFree(s.nodes) && NoInline(s.nodes) && AllChange(s, a, nt)
    ensures NoInline(nt)
  {
    forall x | 0 <= x < |nt| ensures !nt[x].role.Inline? && !nt[x].pc.Denied? {
      assert NodeChanges(s, a, s.nodes[x], nt[x], x);
    }
  }

  /** The task has been spawned and holds a slot. */
  predicate Holds(t: Node) {
    t.role.Spawned? && !t.pc.Freed? && !t.pc.Over?
  }

  /** In one step at most one task gets to hold a slot: the one that is spawned. */
  lemma StartsToHold(s: State, a: Action, nt: seq<Node>, x: nat)
    requires AllChange(s, a, nt) && x < |nt| && Holds(nt[x]) && !Holds(s.nodes[x])
    ensures a == Action.Spawn(s.nodes[x].parent) && s.nodes[x].parent < |s.nodes|
    ensures s.nodes[s.nodes[x].parent].pc == Pc.Spawning(x)
  {
    assert NodeChanges(s, a, s.nodes[x], nt[x], x);
  }

  /** With all other tasks of blocked holding a slot, the submitter of y is the owner or one of them. */
  lemma SubmitterHolds(s: State, blocked: set<nat>, y: nat, p: nat)
    requires Counts(s) && NodesOk(s) && NoInline(s.nodes) && y in blocked && |blocked| == s.cfg.n
    requires forall x :: x in blocked && x != y ==> x < |s.nodes| && Holds(s.nodes[x])
    requires p < |s.nodes| && s.nodes[p].pc.Spawning? && p != y
    ensures p == 0 || p in blocked
  {
    assert NodeOk(s.nodes[p], p == 0);
    if p != 0 && p !in blocked {
      SumOfPlaces(Tokens, s.nodes, blocked - {y}, p);
    }
  }

  /** y is submitted by the owner or by one of blocked, and none of blocked descends from it. */
  ghost predicate Last(nodes: seq<Node>, blocked: set<nat>, y: nat) {
    && y in blocked && y < |nodes| && (nodes[y].parent == 0 || nodes[y].parent in blocked)
    && forall x :: x in blocked ==> x < |nodes| && (OnPath(nodes, y, x) ==> x == y)
  }

  /** The step with which all of blocked come to hold slots starts the last of them. */
  lemma LastStep(s: State, a: Action, blocked: set<nat>, y: nat)
    requires Inv(s) && UpOk(s.nodes) && NoInline(s.nodes) && Enabled(s, a) && AllChange(s, a, Apply(s, a).nodes)
    requires |blocked| == s.cfg.n && y in blocked && forall x :: x in blocked ==> 1 <= x < |s.nodes|
    requires forall x :: x in blocked ==> x < |Apply(s, a).nodes| && Holds(Apply(s, a).nodes[x])
    requires !Holds(s.nodes[y])
    ensures Last(s.nodes, blocked, y)
  {
    var nt := Apply(s, a).nodes;
    var p := s.nodes[y].parent;
    StartsToHold(s, a, nt, y);
    Submission(s, p);
    forall x | x in blocked && x != y ensures Holds(s.nodes[x]) {
      if !Holds(s.nodes[x]) {
        StartsToHold(s, a, nt, x);
      }
    }
    SubmitterHolds(s, blocked, y, p);
    forall x | x in blocked && x != y ensures !OnPath(s.nodes, y, x) {
      if OnPath(s.nodes, y, x) {
        StartedPath(s.nodes, y, x);
      }
    }
  }

  lemma {:induction false} LastOfRun(s: State, schedule: seq<Action>, blocked: set<nat>) returns (y: nat)
    requires Inv(s) && UpOk(s.nodes) && TryFree(s.nodes) && NoInline(s.nodes) && Feasible(s, schedule)
    requires |blocked| == s.cfg.n && forall x :: x in blocked ==> 1 <= x < |s.nodes|
    requires forall x :: x in blocked ==> x < |Exec(s, schedule).nodes| && Holds(Exec(s, schedule).nodes[x])
    requires exists x :: x in blocked && !Holds(s.nodes[x])
    ensures Last(s.nodes, blocked, y)
    decreases |schedule|
  {
    y :| y in blocked && !Holds(s.nodes[y]);
    if schedule == [] {
    } else {
      var a := schedule[0];
      var t := Apply(s, a);
      StepChanges(s, a);
      StepKeeps(s, a);
      StepKeepsUp(s, a);
      StepKeepsClaims(s, a);
      StepNoInline(s, a);
      if exists x :: x in blocked && !Holds(t.nodes[x]) {
        y := LastOfRun(t, schedule[1..], blocked);
        LastShape(s.nodes, t.nodes, blocked, y);
      } else {
        y :| y in blocked && !Holds(s.nodes[y]);
        LastStep(s, a, blocked, y);
      }
    }
  }

  lemma LastShape(ns: seq<Node>, nt: seq<Node>, blocked: set<nat>, y: nat)
    requires SameShape(ns, nt) && Last(nt, blocked, y)
    ensures Last(ns, blocked, y)
  {
    forall x | x in blocked ensures OnPath(ns, y, x) == OnPath(nt, y, x) {
      OnPathShape(ns, nt, y, x);
    }
  }

  lemma RunWithoutTry(s0: State, schedule: seq<Action>)
    requires Init(s0) && TryFree(s0.nodes) && Feasible(s0, schedule)
    ensures Inv(s0) && UpOk(s0.nodes) && NoInline(s0.nodes)
    ensures Inv(Exec(s0, schedule)) && NoInline(Exec(s0, schedule).nodes)
  {
    InitEstablishes(s0);
    RunKeeps(s0, schedule);
    RunNoInline(s0, schedule);
  }

  /** Without TryGo every run that deadlocks leaves a choice behind in which one task was the last to start. */
  lemma DeadlockNeedsLast(s0: State, schedule: seq<Action>) returns (pick: map<nat, nat>, y: nat)
    requires Init(s0) && TryFree(s0.nodes) && DeadlocksIn(s0, schedule)
    ensures LastChoice(s0.nodes, pick, s0.cfg.n, y)
  {
    RunWithoutTry(s0, schedule);
    RunKeepsUp(s0, schedule);
    RunKeepsClaims(s0, schedule);
    var s := Exec(s0, schedule);
    pick := WaitsFor(s.nodes);
    BlockedHold(s);
    DeadlockGivesChoice(s);
    ChoiceShape(s0.nodes, s.nodes, pick, s.cfg.n);
    NobodyHolds(s0, pick.Keys);
    y := LastOfRun(s0, schedule, pick.Keys);
  }

  lemma NobodyHolds(s0: State, blocked: set<nat>)
    requires Init(s0) && |blocked| == s0.cfg.n && forall x :: x in blocked ==> 1 <= x < |s0.nodes|
    ensures exists x :: x in blocked && !Holds(s0.nodes[x])
  {
    var x :| x in blocked;
    assert !Holds(s0.nodes[x]);
  }

  lemma {:induction false} RunNoInline(s: State, schedule: seq<Action>)
    requires Inv(s) && TryFree(s.nodes) && NoInline(s.nodes) && Feasible(s, schedule)
    ensures NoInline(Exec(s, schedule).nodes)
    decreases |schedule|
  {
    if schedule == [] {
    } else {
      StepNoInline(s, schedule[0]);
      StepKeeps(s, schedule[0]);
      RunNoInline(Apply(s, schedule[0]), schedule[1..]);
    }
  }

  /** Without inline tasks exactly n tasks wait in a deadlock, and each holds a slot. */
  lemma BlockedHold(s: State)
    requires Inv(s) && Deadlocked(s) && NoInline(s.nodes)
    ensures WaitsFor(s.nodes).Keys == BlockedPlaces(s.nodes) && |WaitsFor(s.nodes)| == s.cfg.n
    ensures forall x :: x in WaitsFor(s.nodes) ==> 1 <= x < |s.nodes| && Holds(s.nodes[x])
  {
    WaitsForAll(s);
    DeadlockCensus(s);
    BlockedPlacesCount(s.nodes);
    forall x | 0 <= x < |s.nodes| ensures OwnerInlining(s.nodes[x]) == 0 {
      assert AtRest(s, x) && NodeOk(s.nodes[x], x == 0);
      NotInlining(s, x);
    }
    SumZero(OwnerInlining, s.nodes);
    forall x | x in BlockedPlaces(s.nodes) ensures 1 <= x && Holds(s.nodes[x]) {
      assert NodeOk(s.nodes[x], x == 0);
    }
  }

  lemma NotInlining(s: State, x: nat)
    requires LinksOk(s.nodes) && NoInline(s.nodes) && x < |s.nodes|
    ensures !s.nodes[x].pc.Inlining?
  {
    var t := s.nodes[x];
    assert t.pc.Inlining? ==> ChildOf(t.pc).Some?;
  }

  // ---- the exact conditions

  ghost predicate CanDeadlock(s0: State) {
    exists schedule :: DeadlocksIn(s0, schedule)
  }

  ghost predicate HasChoice(s0: State) {
    exists pick :: Choice(s0.nodes, pick, s0.cfg.n)
  }

  /** Some choice that no done context stands in the way of. */
  ghost predicate HasClearChoice(s0: State) {
    exists pick :: Choice(s0.nodes, pick, s0.cfg.n) && PathsUnexpired(s0.nodes, pick)
  }

  /** Some choice in which one task can be the last to start. */
  ghost predicate HasLastChoice(s0: State) {
    exists pick, y :: LastChoice(s0.nodes, pick, s0.cfg.n, y)
  }

  /** No context of a GoCtx submission is done from the start. */
  ghost predicate AllUnexpired(nodes: seq<Node>) {
    forall x :: 1 <= x < |nodes| ==> Unexpired(nodes[x])
  }

  /**
   * Which trees can deadlock a pool.  For every tree a choice is necessary, and one that no done
   * context stands in the way of, or in which one task can be the last to start, is enough.
   * So a choice is exactly right when no context of a GoCtx submission is done from the start,
   * TryGo or not; and one with a last task is exactly right without TryGo, whatever the contexts.
   */
  lemma DeadlockExactly(s0: State)
    requires Init(s0)
    ensures CanDeadlock(s0) ==> HasChoice(s0)
    ensures HasClearChoice(s0) || HasLastChoice(s0) ==> CanDeadlock(s0)
    ensures AllUnexpired(s0.nodes) ==> (CanDeadlock(s0) <==> HasChoice(s0))
    ensures TryFree(s0.nodes) ==> (CanDeadlock(s0) <==> HasLastChoice(s0))
  {
    if CanDeadlock(s0) {
      var schedule :| DeadlocksIn(s0, schedule);
      DeadlockNeedsChoice(s0, schedule);
      if TryFree(s0.nodes) {
        var pick, y := DeadlockNeedsLast(s0, schedule);
      }
    }
    if HasLastChoice(s0) {
      var pick, y :| LastChoice(s0.nodes, pick, s0.cfg.n, y);
      var schedule := LastChoiceDeadlocks(s0, pick, y);
    }
    if HasClearChoice(s0) {
      ClearChoiceDeadlocks(s0);
    }
    if AllUnexpired(s0.nodes) && HasChoice(s0) {
      var pick :| Choice(s0.nodes, pick, s0.cfg.n);
      assert PathsUnexpired(s0.nodes, pick);
      ClearChoiceDeadlocks(s0);
    }
  }

  lemma ClearChoiceDeadlocks(s0: State)
    requires Init(s0) && HasClearChoice(s0)
    ensures CanDeadlock(s0)
  {
    var pick :| Choice(s0.nodes, pick, s0.cfg.n) && PathsUnexpired(s0.nodes, pick);
    var schedule := ChoiceDeadlocks(s0, pick);
    assert DeadlocksIn(s0, schedule);
  }
}
