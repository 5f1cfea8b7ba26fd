/** What every step of a pool keeps. */
module PoolInvariant {
  import opened Counting
  import opened Options
  import opened Sorting
  import opened PoolProtocol

  /** The node's function has begun and not ended. */
  predicate Active(t: Node) {
    t.pc.Run? || t.pc.Submitting? || t.pc.Spawning? || t.pc.Denied? || t.pc.Inlining?
  }

  /** A spawned task holds a token until it releases it, and so does a submission about to spawn. */
  function Tokens(t: Node): nat {
    (if t.role.Spawned? && !t.pc.Freed? && !t.pc.Over? then 1 else 0) + (if t.pc.Spawning? then 1 else 0)
  }

  /** A spawned task counts in wg until its deferred Done. */
  function Live(t: Node): nat {
    if t.role.Spawned? && !t.pc.Over? then 1 else 0
  }

  /** A task that runs on its submitter's goroutine, and a node that runs such a task. */
  function InlineActive(t: Node): nat {
    if t.role.Inline? && Active(t) then 1 else 0
  }

  function IsInlining(t: Node): nat {
    if t.pc.Inlining? then 1 else 0
  }

  ghost predicate Counts(s: State) {
    && s.cfg.n >= 1 && !s.fault
    && s.sem == Sum(Tokens, s.nodes) && s.sem <= s.cfg.n
    && s.wg == Sum(Live, s.nodes)
    && Sum(InlineActive, s.nodes) == Sum(IsInlining, s.nodes)
  }

  /** The pc of a node fits its role. */
  ghost predicate NodeOk(t: Node, owner: bool) {
    && (owner <==> t.role.Owner?)
    && (t.pc.Idle? || t.pc.Offered? || t.pc.Rejected? <==> t.role.Nobody?)
    && (t.pc.Returned? || t.pc.Recorded? || t.pc.Freed? ==> t.role.Spawned?)
    && (!owner ==> (t.out.Some? <==> t.pc.Returned? || t.pc.Recorded? || t.pc.Freed? || t.pc.Over?))
  }

  ghost predicate NodesOk(s: State) {
    && Tree(s.nodes)
    && forall x :: 0 <= x < |s.nodes| ==> NodeOk(s.nodes[x], x == 0)
  }

  /** The child that a node is submitting or running inline. */
  function ChildOf(pc: Pc): Option<nat> {
    match pc
    case Submitting(x) => Some(x)
    case Spawning(x) => Some(x)
    case Denied(x) => Some(x)
    case Inlining(x) => Some(x)
    case _ => None
  }

  /** A node that needs its submitter to be busy with it. */
  predicate NeedsParent(t: Node) {
    t.pc.Offered? || (t.role.Inline? && Active(t))
  }

  /** A node is busy with exactly the child that needs it. */
  ghost predicate LinksOk(nodes: seq<Node>) {
    && (forall p :: 0 <= p < |nodes| && ChildOf(nodes[p].pc).Some? ==> 1 <= ChildOf(nodes[p].pc).value < |nodes|)
    && (forall p, x :: 0 <= p < |nodes| && 0 <= x < |nodes| && ChildOf(nodes[p].pc) == Some(x) ==>
          && nodes[x].parent == p
          && if nodes[p].pc.Inlining? then nodes[x].role.Inline? && Active(nodes[x]) else nodes[x].pc.Offered?)
    && (forall p, x :: 0 <= p < |nodes| && 1 <= x < |nodes| && nodes[x].parent == p && NeedsParent(nodes[x]) ==>
          ChildOf(nodes[p].pc) == Some(x))
  }

  /** x has claimed an index. */
  predicate Claimed(t: Node) {
    !t.pc.Idle?
  }

  ghost predicate IndicesOk(s: State) {
    && (forall x :: 1 <= x < |s.nodes| && Claimed(s.nodes[x]) ==> s.nodes[x].idx < s.idx)
    && (forall x, y :: 1 <= x < y < |s.nodes| && Claimed(s.nodes[x]) && Claimed(s.nodes[y]) ==>
          s.nodes[x].idx != s.nodes[y].idx)
  }

  /** The entry e is the logged result of a spawned task. */
  ghost predicate Stored(nodes: seq<Node>, e: Entry) {
    var x := e.val.node;
    && 1 <= x < |nodes| && nodes[x].role.Spawned? && nodes[x].out.Some? && e == EntryOf(x, nodes[x])
  }

  /** The error e of a spawned task has been appended to errs. */
  ghost predicate ErrStored(nodes: seq<Node>, e: TaskErr) {
    var x := e.node;
    && 1 <= x < |nodes| && nodes[x].role.Spawned? && nodes[x].out.Some? && nodes[x].out.value.err == Some(e.err)
    && !nodes[x].pc.Returned?
  }

  /** results and errs hold exactly the entries they should, each once. */
  ghost predicate LogsOk(s: State) {
    && (forall e: Entry :: multiset(s.results)[e] == if Stored(s.nodes, e) then 1 else 0)
    && (forall e: TaskErr :: multiset(s.errs)[e] == if ErrStored(s.nodes, e) then 1 else 0)
  }

  /** The task x has been started, on its own goroutine or inline. */
  predicate Started(nodes: seq<Node>, x: nat) {
    1 <= x < |nodes| && (nodes[x].role.Spawned? || nodes[x].role.Inline?)
  }

  /** log holds every started task exactly once. */
  ghost predicate StartsOk(s: State) {
    forall x: nat :: multiset(s.log)[x] == if Started(s.nodes, x) then 1 else 0
  }

  /** The context's cause, until a Wait of the batch has cancelled it. */
  ghost predicate CauseOk(s: State) {
    && (!s.outside && !s.waited ==>
          s.ctx == if s.cfg.cancelOnError && s.errs != [] then Some(Error(s.errs[0])) else None)
    && (s.outside || s.waited ==> s.ctx.Some?)
    && (s.ctx.Some? && s.ctx.value.Error? ==> s.cfg.cancelOnError && s.errs != [] && s.ctx.value.e == s.errs[0])
    && (s.ctx == Some(Outside) ==> s.outside) && (s.ctx == Some(Canceled) ==> s.waited)
  }

  ghost predicate WaitOk(s: State) {
    && (!s.wait.Working? ==> s.nodes != [] && s.nodes[0].pc.Run?)
    && (s.wait.Joined? || s.wait.Reading? || s.quiet ==> s.wg == 0)
    && (s.wait.Reading? || s.quiet ==> s.waited)
    && (s.quiet ==> s.nodes != [] && (s.nodes[0].pc.Run? || s.nodes[0].pc.Over?))
    && (s.quiet ==>
          && s.answer == Answer(Report(s.cfg, s.errs), Values(s.results))
          && (s.cfg.ordered ==> Increasing(s.results)))
  }

  ghost predicate Inv(s: State) {
    Counts(s) && NodesOk(s) && LinksOk(s.nodes) && IndicesOk(s) && LogsOk(s) && StartsOk(s) && CauseOk(s) && WaitOk(s)
  }

  lemma InitCounts(s: State)
    requires Init(s)
    ensures Counts(s)
  {
    SumZero(Tokens, s.nodes);
    SumZero(Live, s.nodes);
    SumZero(InlineActive, s.nodes);
    SumZero(IsInlining, s.nodes);
  }

  lemma InitLogs(s: State)
    requires Init(s)
    ensures LogsOk(s) && StartsOk(s)
  {
  }

  lemma InitEstablishes(s: State)
    requires Init(s)
    ensures Inv(s)
  {
    InitCounts(s);
    InitLogs(s);
  }

  // ---- sums over the nodes

  lemma NodeMoves(nodes: seq<Node>, k: nat, t: Node)
    requires k < |nodes|
    ensures var u := nodes[k := t];
      && Sum(Tokens, u) + Tokens(nodes[k]) == Sum(Tokens, nodes) + Tokens(t)
      && Sum(Live, u) + Live(nodes[k]) == Sum(Live, nodes) + Live(t)
      && Sum(InlineActive, u) + InlineActive(nodes[k]) == Sum(InlineActive, nodes) + InlineActive(t)
      && Sum(IsInlining, u) + IsInlining(nodes[k]) == Sum(IsInlining, nodes) + IsInlining(t)
  {
    SumUpdate(Tokens, nodes, k, t);
    SumUpdate(Live, nodes, k, t);
    SumUpdate(InlineActive, nodes, k, t);
    SumUpdate(IsInlining, nodes, k, t);
  }

  // ---- frames for the move of one node

  /** t and u differ at most in pc and ctxDone, and no log can tell them apart. */
  ghost predicate Similar(t: Node, u: Node) {
    && u.parent == t.parent && u.via == t.via && u.role == t.role && u.idx == t.idx && u.out == t.out
    && (u.pc.Idle? <==> t.pc.Idle?) && (u.pc.Returned? <==> t.pc.Returned?)
  }

  /** Moving a node to a similar one keeps what is said of the tree, the indices and the logs. */
  lemma SimilarKeeps(s: State, t: State, k: nat)
    requires NodesOk(s) && IndicesOk(s) && LogsOk(s) && StartsOk(s)
    requires k < |s.nodes| && |t.nodes| == |s.nodes| && t.nodes == s.nodes[k := t.nodes[k]]
    requires Similar(s.nodes[k], t.nodes[k]) && NodeOk(t.nodes[k], k == 0)
    requires t.idx == s.idx && t.results == s.results && t.errs == s.errs && t.log == s.log
    ensures NodesOk(t) && IndicesOk(t) && LogsOk(t) && StartsOk(t)
  {
    forall e: Entry ensures Stored(t.nodes, e) == Stored(s.nodes, e) {
    }
    forall e: TaskErr ensures ErrStored(t.nodes, e) == ErrStored(s.nodes, e) {
    }
    forall x: nat ensures Started(t.nodes, x) == Started(s.nodes, x) {
    }
  }

  /** Moving a node without changing its child or whether it needs its parent keeps the links. */
  lemma MoveKeepsLinks(nodes: seq<Node>, k: nat, t: Node)
    requires LinksOk(nodes) && k < |nodes|
    requires t.parent == nodes[k].parent && ChildOf(t.pc) == ChildOf(nodes[k].pc)
    requires t.pc.Inlining? <==> nodes[k].pc.Inlining?
    requires NeedsParent(t) == NeedsParent(nodes[k])
    requires NeedsParent(t) ==> t.role == nodes[k].role && (t.pc.Offered? <==> nodes[k].pc.Offered?)
    ensures LinksOk(nodes[k := t])
  {
  }

  /** Moving a submitter p and its child x together keeps the links when they stay in step. */
  lemma RelinkKeeps(nodes: seq<Node>, p: nat, x: nat, tp: Node, tx: Node)
    requires LinksOk(nodes) && p < |nodes| && 1 <= x < |nodes| && p != x && nodes[x].parent == p
    requires ChildOf(nodes[p].pc) == None || ChildOf(nodes[p].pc) == Some(x)
    requires tp.parent == nodes[p].parent && tx.parent == nodes[x].parent
    requires ChildOf(tp.pc) == if NeedsParent(tx) then Some(x) else None
    requires NeedsParent(tx) ==> if tp.pc.Inlining? then tx.role.Inline? && Active(tx) else tx.pc.Offered?
    requires ChildOf(nodes[x].pc) == None && ChildOf(tx.pc) == None
    requires tp.role == nodes[p].role && Active(nodes[p]) && Active(tp)
    ensures LinksOk(nodes[x := tx][p := tp])
  {
  }

  /** With no spawned task left and the owner not submitting, no task is active or on offer. */
  lemma {:induction false} NothingActive(s: State, x: nat)
    requires Counts(s) && NodesOk(s) && LinksOk(s.nodes) && s.wg == 0
    requires s.nodes[0].pc.Run? || s.nodes[0].pc.Over?
    requires 1 <= x < |s.nodes|
    ensures !Active(s.nodes[x]) && !s.nodes[x].pc.Offered? && !(s.nodes[x].role.Spawned? && !s.nodes[x].pc.Over?)
  {
    SumAtLeast(Live, s.nodes, x);
    var p := s.nodes[x].parent;
    if p != 0 {
      NothingActive(s, p);
    }
    assert ChildOf(s.nodes[p].pc) == None;
  }

  /** Only the owner can move when Wait has been joined or has returned. */
  lemma QuietNodes(s: State, p: nat)
    requires Inv(s) && p < |s.nodes| && (s.wait.Joined? || s.wait.Reading? || s.quiet)
    ensures p == 0 ==> s.nodes[p].pc.Run? || s.nodes[p].pc.Over?
    ensures p != 0 ==> !Active(s.nodes[p]) && !(s.nodes[p].role.Spawned? && !s.nodes[p].pc.Over?)
  {
    if p != 0 {
      NothingActive(s, p);
    }
  }

  /** The errors, the context and Wait's progress are what they were. */
  ghost predicate SameWait(s: State, t: State) {
    && t.cfg == s.cfg && t.ctx == s.ctx && t.outside == s.outside && t.errs == s.errs && t.results == s.results
    && t.wait == s.wait && t.waited == s.waited && t.quiet == s.quiet && t.answer == s.answer
  }

  lemma WaitFrame(s: State, t: State)
    requires CauseOk(s) && WaitOk(s) && SameWait(s, t)
    requires s.nodes != [] && t.nodes != [] && t.nodes[0].pc == s.nodes[0].pc
    requires (s.wait.Joined? || s.wait.Reading? || s.quiet) ==> t.wg == s.wg
    ensures CauseOk(t) && WaitOk(t)
  {
  }

  // ---- moves of one node that change no role, index or outcome

  /** Everything but the counters and Wait. */
  lemma OneMove(s: State, t: State, k: nat)
    requires NodesOk(s) && LinksOk(s.nodes) && IndicesOk(s) && LogsOk(s) && StartsOk(s)
    requires k < |s.nodes| && |t.nodes| == |s.nodes| && t.nodes == s.nodes[k := t.nodes[k]]
    requires Similar(s.nodes[k], t.nodes[k]) && NodeOk(t.nodes[k], k == 0)
    requires t.idx == s.idx && t.results == s.results && t.errs == s.errs && t.log == s.log
    requires ChildOf(t.nodes[k].pc) == ChildOf(s.nodes[k].pc)
    requires t.nodes[k].pc.Inlining? <==> s.nodes[k].pc.Inlining?
    requires NeedsParent(t.nodes[k]) == NeedsParent(s.nodes[k]) && (t.nodes[k].pc.Offered? <==> s.nodes[k].pc.Offered?)
    ensures NodesOk(t) && LinksOk(t.nodes) && IndicesOk(t) && LogsOk(t) && StartsOk(t)
  {
    SimilarKeeps(s, t, k);
    MoveKeepsLinks(s.nodes, k, t.nodes[k]);
  }

  /** Nobody submits while Wait is past its join or has just returned. */
  lemma SubmitterMeansBusy(s: State, p: nat)
    requires Inv(s) && p < |s.nodes| && ChildOf(s.nodes[p].pc).Some?
    ensures !s.wait.Joined? && !s.wait.Reading? && !s.quiet && (p == 0 ==> s.wait.Working?)
  {
    if s.wait.Joined? || s.wait.Reading? || s.quiet {
      QuietNodes(s, p);
    }
  }

  lemma AcquireCounts(s: State, p: nat)
    requires Counts(s) && NodesOk(s) && Enabled(s, Acquire(p))
    ensures Counts(AcquireStep(s, p))
  {
    NodeMoves(s.nodes, p, AcquireStep(s, p).nodes[p]);
  }

  lemma AcquireKeeps(s: State, p: nat)
    requires Inv(s) && Enabled(s, Acquire(p))
    ensures Inv(AcquireStep(s, p))
  {
    AcquireCounts(s, p);
    OneMove(s, AcquireStep(s, p), p);
    SubmitterMeansBusy(s, p);
  }

  lemma DenyCounts(s: State, p: nat)
    requires Counts(s) && NodesOk(s) && Enabled(s, Deny(p))
    ensures Counts(DenyStep(s, p))
  {
    NodeMoves(s.nodes, p, DenyStep(s, p).nodes[p]);
  }

  lemma DenyKeeps(s: State, p: nat)
    requires Inv(s) && Enabled(s, Deny(p))
    ensures Inv(DenyStep(s, p))
  {
    DenyCounts(s, p);
    OneMove(s, DenyStep(s, p), p);
    SubmitterMeansBusy(s, p);
  }

  lemma ReleaseCounts(s: State, x: nat)
    requires Counts(s) && NodesOk(s) && Enabled(s, Release(x))
    ensures Counts(ReleaseStep(s, x))
  {
    NodeMoves(s.nodes, x, ReleaseStep(s, x).nodes[x]);
  }

  lemma ReleaseKeeps(s: State, x: nat)
    requires Inv(s) && Enabled(s, Release(x))
    ensures Inv(ReleaseStep(s, x))
  {
    ReleaseCounts(s, x);
    OneMove(s, ReleaseStep(s, x), x);
    WaitFrame(s, ReleaseStep(s, x));
  }

  lemma RetireCounts(s: State, x: nat)
    requires Counts(s) && NodesOk(s) && Enabled(s, Retire(x))
    ensures Counts(RetireStep(s, x))
  {
    SumAtLeast(Live, s.nodes, x);
    NodeMoves(s.nodes, x, RetireStep(s, x).nodes[x]);
  }

  lemma RetireKeeps(s: State, x: nat)
    requires Inv(s) && Enabled(s, Retire(x))
    ensures Inv(RetireStep(s, x))
  {
    SumAtLeast(Live, s.nodes, x);
    RetireCounts(s, x);
    OneMove(s, RetireStep(s, x), x);
    WaitFrame(s, RetireStep(s, x));
  }

  lemma QuitCounts(s: State)
    requires Counts(s) && NodesOk(s) && Enabled(s, Quit)
    ensures Counts(Apply(s, Quit))
  {
    NodeMoves(s.nodes, 0, Apply(s, Quit).nodes[0]);
  }

  lemma QuitKeeps(s: State)
    requires Inv(s) && Enabled(s, Quit)
    ensures Inv(Apply(s, Quit))
  {
    QuitCounts(s);
    OneMove(s, Apply(s, Quit), 0);
  }

  lemma CancelCallerCounts(s: State, x: nat)
    requires Counts(s) && NodesOk(s) && Enabled(s, CancelCaller(x))
    ensures Counts(Apply(s, CancelCaller(x)))
  {
    NodeMoves(s.nodes, x, Apply(s, CancelCaller(x)).nodes[x]);
  }

  lemma CancelCallerKeeps(s: State, x: nat)
    requires Inv(s) && Enabled(s, CancelCaller(x))
    ensures Inv(Apply(s, CancelCaller(x)))
  {
    CancelCallerCounts(s, x);
    OneMove(s, Apply(s, CancelCaller(x)), x);
    WaitFrame(s, Apply(s, CancelCaller(x)));
  }

  // ---- moves of a submitter together with its child

  /** A spawned task that has ended looks the same in both node tables, and no other has appeared. */
  ghost predicate SameReports(ns: seq<Node>, nt: seq<Node>) {
    && |nt| == |ns|
    && forall x :: 1 <= x < |ns| ==>
      && (nt[x].role.Spawned? && nt[x].out.Some? <==> ns[x].role.Spawned? && ns[x].out.Some?)
      && (ns[x].role.Spawned? && ns[x].out.Some? ==>
            nt[x].idx == ns[x].idx && nt[x].out == ns[x].out && (nt[x].pc.Returned? <==> ns[x].pc.Returned?))
  }

  lemma ReportsFrame(s: State, t: State)
    requires LogsOk(s) && t.results == s.results && t.errs == s.errs && SameReports(s.nodes, t.nodes)
    ensures LogsOk(t)
  {
    forall e: Entry ensures Stored(t.nodes, e) == Stored(s.nodes, e) {
    }
    forall e: TaskErr ensures ErrStored(t.nodes, e) == ErrStored(s.nodes, e) {
    }
  }

  lemma StartsFrame(s: State, t: State)
    requires StartsOk(s) && t.log == s.log && |t.nodes| == |s.nodes|
    requires forall x: nat :: 1 <= x < |s.nodes| ==> Started(t.nodes, x) == Started(s.nodes, x)
    ensures StartsOk(t)
  {
    forall x: nat ensures Started(t.nodes, x) == Started(s.nodes, x) {
    }
  }

  /** The start of x is logged once. */
  lemma StartLogged(s: State, t: State, x: nat)
    requires StartsOk(s) && t.log == s.log + [x] && |t.nodes| == |s.nodes|
    requires !Started(s.nodes, x) && Started(t.nodes, x)
    requires forall y: nat :: 1 <= y < |s.nodes| && y != x ==> Started(t.nodes, y) == Started(s.nodes, y)
    ensures StartsOk(t)
  {
    forall y: nat ensures multiset(t.log)[y] == if Started(t.nodes, y) then 1 else 0 {
      assert y != x ==> Started(t.nodes, y) == Started(s.nodes, y);
    }
  }

  /** Counters after moving p and x. */
  lemma TwoMoves(nodes: seq<Node>, p: nat, x: nat, tp: Node, tx: Node)
    requires p < |nodes| && x < |nodes| && p != x
    ensures var u := nodes[x := tx][p := tp];
      && Sum(Tokens, u) + Tokens(nodes[p]) + Tokens(nodes[x]) == Sum(Tokens, nodes) + Tokens(tp) + Tokens(tx)
      && Sum(Live, u) + Live(nodes[p]) + Live(nodes[x]) == Sum(Live, nodes) + Live(tp) + Live(tx)
      && Sum(InlineActive, u) + InlineActive(nodes[p]) + InlineActive(nodes[x]) ==
          Sum(InlineActive, nodes) + InlineActive(tp) + InlineActive(tx)
      && Sum(IsInlining, u) + IsInlining(nodes[p]) + IsInlining(nodes[x]) ==
          Sum(IsInlining, nodes) + IsInlining(tp) + IsInlining(tx)
  {
    NodeMoves(nodes, x, tx);
    NodeMoves(nodes[x := tx], p, tp);
  }

  /** The tree, the counters and the links after a submitter and its child have moved. */
  lemma PairMoves(s: State, t: State, p: nat, x: nat)
    requires NodesOk(s) && LinksOk(s.nodes) && p < |s.nodes| && 1 <= x < |s.nodes| && s.nodes[x].parent == p
    requires |t.nodes| == |s.nodes| && t.nodes == s.nodes[x := t.nodes[x]][p := t.nodes[p]]
    requires NodeOk(t.nodes[p], p == 0) && NodeOk(t.nodes[x], false)
    requires var np, nx, tp, tx := s.nodes[p], s.nodes[x], t.nodes[p], t.nodes[x];
      && tp.(pc := np.pc) == np && tx.parent == nx.parent
      && (ChildOf(np.pc) == None || ChildOf(np.pc) == Some(x))
      && ChildOf(tp.pc) == (if NeedsParent(tx) then Some(x) else None)
      && (NeedsParent(tx) ==> if tp.pc.Inlining? then tx.role.Inline? && Active(tx) else tx.pc.Offered?)
      && ChildOf(nx.pc) == None && ChildOf(tx.pc) == None && Active(np) && Active(tp)
    ensures NodesOk(t) && LinksOk(t.nodes)
  {
    RelinkKeeps(s.nodes, p, x, t.nodes[p], t.nodes[x]);
  }

  /** The claimed indices and the logs after such a move, when x claims nothing and has reported nothing. */
  lemma PairLogs(s: State, t: State, p: nat, x: nat)
    requires NodesOk(s) && IndicesOk(s) && LogsOk(s) && p < |s.nodes| && 1 <= x < |s.nodes| && p != x
    requires |t.nodes| == |s.nodes| && t.nodes == s.nodes[x := t.nodes[x]][p := t.nodes[p]]
    requires t.idx == s.idx && t.results == s.results && t.errs == s.errs
    requires var np, nx, tp, tx := s.nodes[p], s.nodes[x], t.nodes[p], t.nodes[x];
      && tp.(pc := np.pc) == np && Active(np) && Active(tp)
      && tx.idx == nx.idx && Claimed(nx) && Claimed(tx)
      && !(nx.role.Spawned? && nx.out.Some?) && !(tx.role.Spawned? && tx.out.Some?)
    ensures IndicesOk(t) && LogsOk(t)
  {
    ReportsFrame(s, t);
  }

  lemma PairStarts(s: State, t: State, p: nat, x: nat)
    requires StartsOk(s) && p < |s.nodes| && 1 <= x < |s.nodes| && p != x
    requires |t.nodes| == |s.nodes| && t.nodes == s.nodes[x := t.nodes[x]][p := t.nodes[p]]
    requires t.nodes[p].role == s.nodes[p].role
    requires if Started(s.nodes, x) == Started(t.nodes, x) then t.log == s.log
             else Started(t.nodes, x) && t.log == s.log + [x]
    ensures StartsOk(t)
  {
    if Started(s.nodes, x) == Started(t.nodes, x) {
      StartsFrame(s, t);
    } else {
      StartLogged(s, t, x);
    }
  }

  lemma OfferCounts(s: State, p: nat, x: nat)
    requires Counts(s) && NodesOk(s) && Enabled(s, Offer(p, x))
    ensures Counts(OfferStep(s, p, x))
  {
    var t := OfferStep(s, p, x);
    TwoMoves(s.nodes, p, x, t.nodes[p], t.nodes[x]);
  }

  lemma OfferIndices(s: State, p: nat, x: nat)
    requires IndicesOk(s) && NodesOk(s) && Enabled(s, Offer(p, x))
    ensures IndicesOk(OfferStep(s, p, x))
  {
  }

  lemma OfferTables(s: State, p: nat, x: nat)
    requires Inv(s) && Enabled(s, Offer(p, x))
    ensures var t := OfferStep(s, p, x); NodesOk(t) && LinksOk(t.nodes) && LogsOk(t) && StartsOk(t)
  {
    var t := OfferStep(s, p, x);
    PairMoves(s, t, p, x);
    ReportsFrame(s, t);
    PairStarts(s, t, p, x);
  }

  lemma OfferKeeps(s: State, p: nat, x: nat)
    requires Inv(s) && Enabled(s, Offer(p, x))
    ensures Inv(OfferStep(s, p, x))
  {
    OfferCounts(s, p, x);
    OfferTables(s, p, x);
    OfferIndices(s, p, x);
    if s.wait.Joined? || s.wait.Reading? {
      QuietNodes(s, p);
    }
  }

  /** p is in the midst of submitting x. */
  lemma Submission(s: State, p: nat)
    requires NodesOk(s) && LinksOk(s.nodes) && p < |s.nodes| && ChildOf(s.nodes[p].pc).Some?
    ensures var x := ChildOf(s.nodes[p].pc).value;
      && 1 <= x < |s.nodes| && s.nodes[x].parent == p && p < x
      && (!s.nodes[p].pc.Inlining? ==> s.nodes[x].pc.Offered? && s.nodes[x].role.Nobody?)
  {
  }

  lemma RejectCounts(s: State, p: nat, x: nat)
    requires Counts(s) && NodesOk(s) && (Asks(s, p) || IsDenied(s, p)) && p != x && At(s, x, Offered)
    ensures Counts(RejectStep(s, p, x))
  {
    var t := RejectStep(s, p, x);
    TwoMoves(s.nodes, p, x, t.nodes[p], t.nodes[x]);
  }

  lemma RejectTables(s: State, p: nat, x: nat)
    requires Inv(s) && (Asks(s, p) || IsDenied(s, p)) && x == s.nodes[p].pc.child
    ensures var t := RejectStep(s, p, x); NodesOk(t) && LinksOk(t.nodes) && IndicesOk(t) && LogsOk(t) && StartsOk(t)
  {
    PairMoves(s, RejectStep(s, p, x), p, x);
    PairLogs(s, RejectStep(s, p, x), p, x);
    PairStarts(s, RejectStep(s, p, x), p, x);
  }

  lemma RejectKeeps(s: State, p: nat)
    requires Inv(s) && (Asks(s, p) || IsDenied(s, p))
    ensures Inv(RejectStep(s, p, s.nodes[p].pc.child))
  {
    var x := s.nodes[p].pc.child;
    Submission(s, p);
    SubmitterMeansBusy(s, p);
    RejectCounts(s, p, x);
    RejectTables(s, p, x);
  }

  lemma StartInlineCounts(s: State, p: nat, x: nat)
    requires Counts(s) && NodesOk(s) && IsDenied(s, p) && p != x && At(s, x, Offered)
    ensures Counts(StartInlineStep(s, p, x))
  {
    var t := StartInlineStep(s, p, x);
    TwoMoves(s.nodes, p, x, t.nodes[p], t.nodes[x]);
  }

  lemma StartInlineTables(s: State, p: nat, x: nat)
    requires Inv(s) && IsDenied(s, p) && x == s.nodes[p].pc.child
    ensures var t := StartInlineStep(s, p, x);
      NodesOk(t) && LinksOk(t.nodes) && IndicesOk(t) && LogsOk(t) && StartsOk(t)
  {
    PairMoves(s, StartInlineStep(s, p, x), p, x);
    PairLogs(s, StartInlineStep(s, p, x), p, x);
    PairStarts(s, StartInlineStep(s, p, x), p, x);
  }

  lemma StartInlineKeeps(s: State, p: nat)
    requires Inv(s) && Enabled(s, StartInline(p))
    ensures Inv(StartInlineStep(s, p, s.nodes[p].pc.child))
  {
    var x := s.nodes[p].pc.child;
    Submission(s, p);
    SubmitterMeansBusy(s, p);
    StartInlineCounts(s, p, x);
    StartInlineTables(s, p, x);
  }

  lemma SpawnCounts(s: State, p: nat, x: nat)
    requires Counts(s) && NodesOk(s) && Enabled(s, Spawn(p)) && p != x && At(s, x, Offered)
    ensures Counts(SpawnStep(s, p, x))
  {
    var t := SpawnStep(s, p, x);
    TwoMoves(s.nodes, p, x, t.nodes[p], t.nodes[x]);
  }

  lemma SpawnTables(s: State, p: nat, x: nat)
    requires Inv(s) && Enabled(s, Spawn(p)) && x == s.nodes[p].pc.child
    ensures var t := SpawnStep(s, p, x); NodesOk(t) && LinksOk(t.nodes) && IndicesOk(t) && LogsOk(t) && StartsOk(t)
  {
    PairMoves(s, SpawnStep(s, p, x), p, x);
    PairLogs(s, SpawnStep(s, p, x), p, x);
    PairStarts(s, SpawnStep(s, p, x), p, x);
  }

  lemma SpawnKeeps(s: State, p: nat)
    requires Inv(s) && Enabled(s, Spawn(p))
    ensures Inv(SpawnStep(s, p, s.nodes[p].pc.child))
  {
    var x := s.nodes[p].pc.child;
    Submission(s, p);
    SubmitterMeansBusy(s, p);
    SpawnCounts(s, p, x);
    SpawnTables(s, p, x);
  }

  lemma FinishInlineCounts(s: State, x: nat, outcome: Outcome)
    requires Counts(s) && NodesOk(s) && Enabled(s, FinishInline(x, outcome)) && s.nodes[x].parent != x
    ensures Counts(FinishInlineStep(s, x, outcome))
  {
    var t := FinishInlineStep(s, x, outcome);
    var p := s.nodes[x].parent;
    TwoMoves(s.nodes, p, x, t.nodes[p], t.nodes[x]);
  }

  lemma FinishInlineTables(s: State, p: nat, x: nat, outcome: Outcome)
    requires Inv(s) && Enabled(s, FinishInline(x, outcome)) && p == s.nodes[x].parent
    ensures var t := FinishInlineStep(s, x, outcome);
      NodesOk(t) && LinksOk(t.nodes) && IndicesOk(t) && LogsOk(t) && StartsOk(t)
  {
    PairMoves(s, FinishInlineStep(s, x, outcome), p, x);
    PairLogs(s, FinishInlineStep(s, x, outcome), p, x);
    PairStarts(s, FinishInlineStep(s, x, outcome), p, x);
  }

  lemma FinishInlineKeeps(s: State, x: nat, outcome: Outcome)
    requires Inv(s) && Enabled(s, FinishInline(x, outcome))
    ensures Inv(FinishInlineStep(s, x, outcome))
  {
    var p := s.nodes[x].parent;
    Submission(s, p);
    SubmitterMeansBusy(s, p);
    FinishInlineCounts(s, x, outcome);
    FinishInlineTables(s, p, x, outcome);
  }

  // ---- the end of a task

  /** A spawned task that is ending submits nothing and needs nobody. */
  lemma EndingTask(s: State, t: State, x: nat)
    requires NodesOk(s) && LinksOk(s.nodes) && IndicesOk(s) && StartsOk(s)
    requires x < |s.nodes| == |t.nodes| && t.nodes == s.nodes[x := t.nodes[x]] && t.idx == s.idx && t.log == s.log
    requires var u, v := s.nodes[x], t.nodes[x];
      && u.role.Spawned? && ChildOf(u.pc) == None && ChildOf(v.pc) == None
      && v.parent == u.parent && v.role == u.role && v.idx == u.idx
    requires NodeOk(t.nodes[x], false)
    ensures NodesOk(t) && LinksOk(t.nodes) && IndicesOk(t) && StartsOk(t)
  {
    assert x != 0;
    MoveKeepsLinks(s.nodes, x, t.nodes[x]);
    StartsFrame(s, t);
  }

  lemma FinishCounts(s: State, x: nat, outcome: Outcome)
    requires Counts(s) && Enabled(s, Finish(x, outcome))
    ensures Counts(FinishStep(s, x, outcome))
  {
    NodeMoves(s.nodes, x, FinishStep(s, x, outcome).nodes[x]);
  }

  /** The result of a task that ends is logged once. */
  lemma FinishLogs(s: State, x: nat, outcome: Outcome)
    requires NodesOk(s) && LogsOk(s) && Enabled(s, Finish(x, outcome))
    ensures LogsOk(FinishStep(s, x, outcome))
  {
    var t := FinishStep(s, x, outcome);
    var d := Keyed(s.nodes[x].idx, Res(x, outcome.val, outcome.err));
    assert x != 0 && s.nodes[x].out.None?;
    forall e: Entry ensures multiset(t.results)[e] == if Stored(t.nodes, e) then 1 else 0 {
      assert Stored(t.nodes, e) <==> Stored(s.nodes, e) || e == d;
    }
    forall e: TaskErr ensures ErrStored(t.nodes, e) == ErrStored(s.nodes, e) {
    }
  }

  lemma FinishKeeps(s: State, x: nat, outcome: Outcome)
    requires Inv(s) && Enabled(s, Finish(x, outcome))
    ensures Inv(FinishStep(s, x, outcome))
  {
    FinishCounts(s, x, outcome);
    FinishLogs(s, x, outcome);
    EndingTask(s, FinishStep(s, x, outcome), x);
    if s.wait.Joined? || s.wait.Reading? || s.quiet {
      QuietNodes(s, x);
    }
  }

  lemma RecordCounts(s: State, x: nat)
    requires Counts(s) && Enabled(s, Record(x))
    ensures Counts(RecordStep(s, x))
  {
    NodeMoves(s.nodes, x, RecordStep(s, x).nodes[x]);
  }

  /** The error of a task that has ended is logged once. */
  lemma RecordLogs(s: State, x: nat)
    requires NodesOk(s) && LogsOk(s) && Enabled(s, Record(x))
    ensures LogsOk(RecordStep(s, x))
  {
    var t := RecordStep(s, x);
    var added := NewErr(x, s.nodes[x].out.value);
    forall e: Entry ensures Stored(t.nodes, e) == Stored(s.nodes, e) {
    }
    forall e: TaskErr ensures multiset(t.errs)[e] == if ErrStored(t.nodes, e) then 1 else 0 {
      assert ErrStored(t.nodes, e) <==> ErrStored(s.nodes, e) || e in added;
    }
  }

  /** Under mu the first error and the cause are set together. */
  lemma RecordCause(s: State, x: nat)
    requires CauseOk(s) && Enabled(s, Record(x))
    ensures CauseOk(RecordStep(s, x))
  {
  }

  lemma RecordKeeps(s: State, x: nat)
    requires Inv(s) && Enabled(s, Record(x))
    ensures Inv(RecordStep(s, x))
  {
    RecordCounts(s, x);
    RecordLogs(s, x);
    EndingTask(s, RecordStep(s, x), x);
    RecordCause(s, x);
    if s.wait.Joined? || s.wait.Reading? || s.quiet {
      QuietNodes(s, x);
    }
  }

  // ---- Wait

  predicate WaitStep(a: Action) {
    a.CallWait? || a.JoinTasks? || a.CancelPool? || a.CancelOutside?
  }

  lemma WaitStepKeeps(s: State, a: Action)
    requires Inv(s) && Enabled(s, a) && WaitStep(a)
    ensures Inv(Apply(s, a))
  {
  }

  /** The keys of the results are the claimed indices, so they are unique. */
  lemma ResultKeysUnique(s: State)
    requires IndicesOk(s) && LogsOk(s) && NodesOk(s)
    ensures KeysUnique(multiset(s.results))
  {
    forall d, e | d in multiset(s.results) && e in multiset(s.results) && d.key == e.key ensures d == e {
      assert Stored(s.nodes, d) && Stored(s.nodes, e);
      var x, y := d.val.node, e.val.node;
      assert Claimed(s.nodes[x]) && Claimed(s.nodes[y]);
    }
  }

  lemma ReadResultsKeeps(s: State)
    requires Inv(s) && Enabled(s, ReadResults)
    ensures Inv(ReadResultsStep(s))
  {
    SortCorrect(s.results);
    ResultKeysUnique(s);
    SortIncreasing(s.results);
    assert multiset(ReadResultsStep(s).results) == multiset(s.results);
  }

  /** Every action keeps the invariant. */
  lemma StepKeeps(s: State, a: Action)
    requires Inv(s) && Enabled(s, a)
    ensures Inv(Apply(s, a))
  {
    match a
    case Offer(p, x) => OfferKeeps(s, p, x);
    case Acquire(p) => AcquireKeeps(s, p);
    case Bail(p) => RejectKeeps(s, p);
    case Deny(p) => DenyKeeps(s, p);
    case Drop(p) => RejectKeeps(s, p);
    case StartInline(p) => StartInlineKeeps(s, p);
    case Spawn(p) => SpawnKeeps(s, p);
    case Finish(x, outcome) => FinishKeeps(s, x, outcome);
    case FinishInline(x, outcome) => FinishInlineKeeps(s, x, outcome);
    case Record(x) => RecordKeeps(s, x);
    case Release(x) => ReleaseKeeps(s, x);
    case Retire(x) => RetireKeeps(s, x);
    case ReadResults => ReadResultsKeeps(s);
    case Quit => QuitKeeps(s);
    case CancelCaller(x) => CancelCallerKeeps(s, x);
    case _ => WaitStepKeeps(s, a);
  }
}
