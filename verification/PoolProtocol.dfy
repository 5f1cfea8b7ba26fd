/**
 * pool.Pool and pool.ResultPool as a transition system.  The tasks form a tree whose root,
 * node 0, is the goroutine that owns the pool: it submits the top-level tasks and calls Wait.
 * Any running task may submit any of its children that it has not submitted yet, in any order,
 * and may end without submitting the rest.  One action is one select, lock section, atomic
 * operation, wait-group operation or context operation; a task chooses its outcome when it ends.
 *
 * The result log and the claimed indices belong to ResultPool; for a plain Pool they are history.
 */
module PoolProtocol {
  import opened Options
  import opened Sorting

  type Val = int

  /** The identity of an error or of a recovered panic. */
  type Failure = int

  /** What a task's function returns; a panic is an error with the zero value. */
  datatype Outcome = Outcome(val: Val, err: Option<Failure>)

  /** How a task is submitted. */
  datatype Via = ViaGo | ViaGoCtx | ViaTry

  /** On which goroutine a node runs: not yet known, the owner's, its own, or its submitter's. */
  datatype Role = Nobody | Owner | Spawned | Inline

  /**
   * Submitting: in the select on sem, with the task's index claimed.  Spawning: the token is
   * taken.  Denied: TryGo has found sem full.  Inlining: running the child after that.
   * Returned: the function has ended and its result is logged.  Recorded: its error is, too.
   */
  datatype Pc =
    | Idle | Offered | Rejected
    | Run | Submitting(child: nat) | Spawning(child: nat) | Denied(child: nat) | Inlining(child: nat)
    | Returned | Recorded | Freed | Over

  /** ctxDone: the context that a GoCtx submission of this task waits on is done. */
  datatype Node = Node(
    parent: nat, via: Via, ctxDone: bool, role: Role, pc: Pc, idx: nat, out: Option<Outcome>)

  datatype TaskErr = TaskErr(node: nat, err: Failure)

  /** An entry of ResultPool.results; its key is the claimed index. */
  datatype Res = Res(node: nat, val: Val, err: Option<Failure>)
  type Entry = Keyed<Res>

  /** Why the pool's context is done. */
  datatype Cause = Outside | Canceled | Error(e: TaskErr)

  datatype Config = Config(n: nat, cancelOnError: bool, firstError: bool, ordered: bool)

  /** Where the owner stands in Wait. */
  datatype WaitPc = Working | Waiting | Joined | Reading

  /** What Wait returns: the first error, or all of them, and the values. */
  datatype Answer = Answer(errs: seq<TaskErr>, vals: seq<Val>)

  /**
   * waited: a Wait of this batch has cancelled the context.  quiet: Wait has returned answer and
   * nothing has been submitted since.  log records the starts of tasks, in order.
   */
  datatype State = State(
    cfg: Config, sem: nat, wg: nat, ctx: Option<Cause>, outside: bool,
    errs: seq<TaskErr>, idx: nat, results: seq<Entry>, nodes: seq<Node>,
    wait: WaitPc, waitsLeft: nat, waited: bool, quiet: bool, answer: Answer,
    log: seq<nat>, fault: bool)

  datatype Action =
    | Offer(p: nat, x: nat) | Acquire(p: nat) | Bail(p: nat) | Deny(p: nat) | Drop(p: nat)
    | StartInline(p: nat) | Spawn(p: nat)
    | Finish(x: nat, outcome: Outcome) | FinishInline(x: nat, outcome: Outcome)
    | Record(x: nat) | Release(x: nat) | Retire(x: nat)
    | CallWait | JoinTasks | CancelPool | ReadResults | Quit
    | CancelCaller(x: nat) | CancelOutside

  /** The tree: every task's submitter comes before it. */
  ghost predicate Tree(nodes: seq<Node>) {
    nodes != [] && forall x :: 1 <= x < |nodes| ==> nodes[x].parent < x
  }

  ghost predicate Init(s: State) {
    && s.cfg.n >= 1 && Tree(s.nodes)
    && s.sem == 0 && s.wg == 0 && s.errs == [] && s.idx == 0 && s.results == [] && s.log == []
    && s.ctx == (if s.outside then Some(Outside) else None)
    && s.nodes[0].role == Owner && s.nodes[0].pc == Run && s.nodes[0].out == None
    && (forall x :: 1 <= x < |s.nodes| ==> s.nodes[x].role == Nobody && s.nodes[x].pc == Idle && s.nodes[x].out == None)
    && s.wait == Working && !s.waited && !s.quiet && !s.fault
  }

  predicate At(s: State, x: nat, pc: Pc) {
    x < |s.nodes| && s.nodes[x].pc == pc
  }

  /** p is in its user code; the owner is not while it is in Wait. */
  predicate InUserCode(s: State, p: nat) {
    At(s, p, Run) && (p == 0 ==> s.wait.Working?)
  }

  predicate Asks(s: State, p: nat) {
    p < |s.nodes| && s.nodes[p].pc.Submitting? && s.nodes[p].pc.child < |s.nodes|
  }

  predicate IsDenied(s: State, p: nat) {
    p < |s.nodes| && s.nodes[p].pc.Denied? && s.nodes[p].pc.child < |s.nodes|
  }

  predicate Enabled(s: State, a: Action) {
    match a
    case Offer(p, x) => InUserCode(s, p) && At(s, x, Idle) && s.nodes[x].parent == p && x != 0
    case Acquire(p) => Asks(s, p) && s.sem < s.cfg.n
    case Bail(p) => Asks(s, p) && s.nodes[s.nodes[p].pc.child].via.ViaGoCtx? && s.nodes[s.nodes[p].pc.child].ctxDone
    case Deny(p) => Asks(s, p) && s.nodes[s.nodes[p].pc.child].via.ViaTry? && s.sem == s.cfg.n
    case Drop(p) => IsDenied(s, p)
    case StartInline(p) => IsDenied(s, p)
    case Spawn(p) => p < |s.nodes| && s.nodes[p].pc.Spawning? && s.nodes[p].pc.child < |s.nodes|
    case Finish(x, _) => At(s, x, Run) && s.nodes[x].role.Spawned?
    case FinishInline(x, _) => At(s, x, Run) && s.nodes[x].role.Inline? && At(s, s.nodes[x].parent, Inlining(x))
    case Record(x) => At(s, x, Returned) && s.nodes[x].out.Some?
    case Release(x) => At(s, x, Recorded) && s.sem > 0
    case Retire(x) => At(s, x, Freed)
    case CallWait => InUserCode(s, 0) && s.waitsLeft > 0
    case JoinTasks => s.wait.Waiting? && s.wg == 0
    case CancelPool => s.wait.Joined?
    case ReadResults => s.wait.Reading?
    case Quit => InUserCode(s, 0)
    case CancelCaller(x) => x < |s.nodes| && !s.nodes[x].ctxDone
    case CancelOutside => !s.outside
  }

  // ---- submitting (pool.go:243-299, 513-536)

  function Move(nodes: seq<Node>, p: nat, pc: Pc): seq<Node>
    requires p < |nodes|
  {
    nodes[p := nodes[p].(pc := pc)]
  }

  /** Claims the next index for x and enters the select on sem. */
  function OfferStep(s: State, p: nat, x: nat): State
    requires p < |s.nodes| && x < |s.nodes|
  {
    s.(idx := s.idx + 1, quiet := false,
       nodes := Move(s.nodes[x := s.nodes[x].(pc := Offered, idx := s.idx)], p, Submitting(x)))
  }

  function AcquireStep(s: State, p: nat): State
    requires Asks(s, p)
  {
    s.(sem := s.sem + 1, nodes := Move(s.nodes, p, Spawning(s.nodes[p].pc.child)))
  }

  /** The submission of x fails: a cancelled GoCtx, or a TryGo whose caller drops the task. */
  function RejectStep(s: State, p: nat, x: nat): State
    requires p < |s.nodes| && x < |s.nodes|
  {
    s.(nodes := Move(Move(s.nodes, x, Rejected), p, Run))
  }

  function DenyStep(s: State, p: nat): State
    requires Asks(s, p)
  {
    s.(nodes := Move(s.nodes, p, Denied(s.nodes[p].pc.child)))
  }

  /** The caller runs the rejected task itself. */
  function StartInlineStep(s: State, p: nat, x: nat): State
    requires p < |s.nodes| && x < |s.nodes|
  {
    s.(nodes := Move(s.nodes[x := s.nodes[x].(pc := Run, role := Inline)], p, Inlining(x)), log := s.log + [x])
  }

  /** wg.Go: the counter is raised and the goroutine started. */
  function SpawnStep(s: State, p: nat, x: nat): State
    requires p < |s.nodes| && x < |s.nodes|
  {
    s.(wg := s.wg + 1, log := s.log + [x],
       nodes := Move(s.nodes[x := s.nodes[x].(pc := Run, role := Spawned)], p, Run))
  }

  // ---- running (pool.go:318-346, 536-552)

  function EntryOf(x: nat, node: Node): Entry
    requires node.out.Some?
  {
    Keyed(node.idx, Res(x, node.out.value.val, node.out.value.err))
  }

  /** The function ends and ResultPool's wrapper logs its result. */
  function FinishStep(s: State, x: nat, outcome: Outcome): State
    requires x < |s.nodes|
  {
    s.(nodes := s.nodes[x := s.nodes[x].(pc := Returned, out := Some(outcome))],
       results := s.results + [Keyed(s.nodes[x].idx, Res(x, outcome.val, outcome.err))])
  }

  /** An inline task's outcome goes to its caller, not to the pool. */
  function FinishInlineStep(s: State, x: nat, outcome: Outcome): State
    requires x < |s.nodes| && s.nodes[x].parent < |s.nodes|
  {
    s.(nodes := Move(s.nodes[x := s.nodes[x].(pc := Over, out := Some(outcome))], s.nodes[x].parent, Run))
  }

  /** A context keeps its first cause. */
  function FirstCause(ctx: Option<Cause>, c: Cause): Option<Cause> {
    if ctx.None? then Some(c) else ctx
  }

  /** The error that a task's outcome adds to errs, if any. */
  function NewErr(x: nat, outcome: Outcome): seq<TaskErr> {
    if outcome.err.Some? then [TaskErr(x, outcome.err.value)] else []
  }

  /** Cancels with the new error as the cause, if there is one and the pool cancels on errors. */
  function ErrCause(cfg: Config, ctx: Option<Cause>, added: seq<TaskErr>): Option<Cause> {
    if cfg.cancelOnError && added != [] then FirstCause(ctx, Error(added[0])) else ctx
  }

  /** runTask's section under mu. */
  function RecordStep(s: State, x: nat): State
    requires x < |s.nodes| && s.nodes[x].out.Some?
  {
    var added := NewErr(x, s.nodes[x].out.value);
    s.(nodes := Move(s.nodes, x, Recorded), errs := s.errs + added, ctx := ErrCause(s.cfg, s.ctx, added))
  }

  function ReleaseStep(s: State, x: nat): State
    requires x < |s.nodes| && s.sem > 0
  {
    s.(sem := s.sem - 1, nodes := Move(s.nodes, x, Freed))
  }

  function RetireStep(s: State, x: nat): State
    requires x < |s.nodes|
  {
    if s.wg == 0 then s.(fault := true) else s.(wg := s.wg - 1, nodes := Move(s.nodes, x, Over))
  }

  // ---- Wait (pool.go:353-363, 561-578)

  function Values(results: seq<Entry>): seq<Val> {
    seq(|results|, i requires 0 <= i < |results| => results[i].val.val)
  }

  /** The results in the order in which Wait returns them. */
  function Arranged(cfg: Config, results: seq<Entry>): seq<Entry> {
    if cfg.ordered then Sort(results) else results
  }

  function Report(cfg: Config, errs: seq<TaskErr>): seq<TaskErr> {
    if cfg.firstError && errs != [] then [errs[0]] else errs
  }

  function CancelPoolStep(s: State): State {
    s.(ctx := FirstCause(s.ctx, Canceled), waited := true, wait := Reading)
  }

  function ReadResultsStep(s: State): State {
    var sorted := Arranged(s.cfg, s.results);
    s.(results := sorted, answer := Answer(Report(s.cfg, s.errs), Values(sorted)), quiet := true, wait := Working)
  }

  function Apply(s: State, a: Action): State
    requires Enabled(s, a)
  {
    match a
    case Offer(p, x) => OfferStep(s, p, x)
    case Acquire(p) => AcquireStep(s, p)
    case Bail(p) => RejectStep(s, p, s.nodes[p].pc.child)
    case Deny(p) => DenyStep(s, p)
    case Drop(p) => RejectStep(s, p, s.nodes[p].pc.child)
    case StartInline(p) => StartInlineStep(s, p, s.nodes[p].pc.child)
    case Spawn(p) => SpawnStep(s, p, s.nodes[p].pc.child)
    case Finish(x, outcome) => FinishStep(s, x, outcome)
    case FinishInline(x, outcome) => FinishInlineStep(s, x, outcome)
    case Record(x) => RecordStep(s, x)
    case Release(x) => ReleaseStep(s, x)
    case Retire(x) => RetireStep(s, x)
    case CallWait => s.(waitsLeft := s.waitsLeft - 1, wait := Waiting)
    case JoinTasks => s.(wait := Joined)
    case CancelPool => CancelPoolStep(s)
    case ReadResults => ReadResultsStep(s)
    case Quit => s.(nodes := Move(s.nodes, 0, Over))
    case CancelCaller(x) => s.(nodes := s.nodes[x := s.nodes[x].(ctxDone := true)])
    case CancelOutside => s.(outside := true, ctx := FirstCause(s.ctx, Outside))
  }

  /** A schedule is an arbitrary interleaving: any sequence of actions, each enabled in its turn. */
  ghost predicate Feasible(s: State, schedule: seq<Action>)
    decreases |schedule|
  {
    schedule == [] || (Enabled(s, schedule[0]) && Feasible(Apply(s, schedule[0]), schedule[1..]))
  }

  ghost function Exec(s: State, schedule: seq<Action>): State
    requires Feasible(s, schedule)
    decreases |schedule|
  {
    if schedule == [] then s else Exec(Apply(s, schedule[0]), schedule[1..])
  }

  /** A run can be continued by any action that is enabled where it stands. */
  lemma {:induction false} ExecOneMore(s: State, schedule: seq<Action>, a: Action)
    requires Feasible(s, schedule) && Enabled(Exec(s, schedule), a)
    ensures Feasible(s, schedule + [a]) && Exec(s, schedule + [a]) == Apply(Exec(s, schedule), a)
    decreases |schedule|
  {
    if schedule == [] {
      assert (schedule + [a])[1..] == [];
    } else {
      assert (schedule + [a])[1..] == schedule[1..] + [a];
      ExecOneMore(Apply(s, schedule[0]), schedule[1..], a);
    }
  }

  /** A run of one action. */
  lemma OneStep(s: State, a: Action)
    requires Enabled(s, a)
    ensures Feasible(s, [a]) && Exec(s, [a]) == Apply(s, a)
  {
    ExecOneMore(s, [], a);
    assert [] + [a] == [a];
  }

  /** An action and then a run. */
  lemma Prepend(s: State, a: Action, rest: seq<Action>) returns (schedule: seq<Action>)
    requires Enabled(s, a) && Feasible(Apply(s, a), rest)
    ensures schedule == [a] + rest && Feasible(s, schedule) && Exec(s, schedule) == Exec(Apply(s, a), rest)
  {
    schedule := [a] + rest;
    assert schedule[1..] == rest;
  }

  /** A run and then another. */
  lemma {:induction false} ExecBoth(s: State, a: seq<Action>, b: seq<Action>)
    requires Feasible(s, a) && Feasible(Exec(s, a), b)
    ensures Feasible(s, a + b) && Exec(s, a + b) == Exec(Exec(s, a), b)
    decreases |a|
  {
    if a == [] {
      assert a + b == b;
    } else {
      ExecBoth(Apply(s, a[0]), a[1..], b);
      var both := Prepend(s, a[0], a[1..] + b);
      assert a + b == both;
    }
  }

  /**
   * Reset prepares the pool for another tree of tasks: errors, results and index start over and
   * a new context is derived from the parent context, which may be cancelled already.
   */
  function Reset(s: State, nodes: seq<Node>, waits: nat): State {
    s.(errs := [], results := [], idx := 0, ctx := if s.outside then Some(Outside) else None,
       nodes := nodes, log := [], wait := Working, waitsLeft := waits, waited := false, quiet := false)
  }
}
