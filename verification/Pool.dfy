/**
 * A Pool, with the result log and the index counter that ResultPool adds, as an object: its
 * fields and its table of tasks are updated in place, one atomic section at a time.  Every
 * method is proved to take exactly the step of the protocol.
 */
module Pools {
  import opened Options
  import opened Sorting
  import opened PoolProtocol
  import opened PoolInvariant
  import opened PoolTheorems
  import opened PoolHistory

  class Pool {
    const cfg: Config
    var sem: nat
    var wg: nat
    var ctx: Option<Cause>
    var outside: bool
    var errs: seq<TaskErr>
    var idx: nat
    var results: seq<Entry>
    var nodes: seq<Node>
    var wait: PoolProtocol.WaitPc
    var waitsLeft: nat
    var waited: bool
    var quiet: bool
    var answer: Answer
    var log: seq<nat>
    var fault: bool

    /** The protocol state the fields make up. */
    function View(): State
      reads this
    {
      State(cfg, sem, wg, ctx, outside, errs, idx, results, nodes, wait, waitsLeft, waited, quiet, answer, log, fault)
    }

    ghost predicate Valid()
      reads this
    {
      Inv(View())
    }

    /** A node table in which nothing has been submitted and the owner runs. */
    static ghost predicate FreshTree(nodes: seq<Node>) {
      && Tree(nodes) && nodes[0].role == Owner && nodes[0].pc == Run && nodes[0].out == None
      && forall x :: 1 <= x < |nodes| ==> nodes[x].role == Nobody && nodes[x].pc == Idle && nodes[x].out == None
    }

    constructor (cfg: Config, nodes: seq<Node>, waits: nat, precancelled: bool)
      requires cfg.n >= 1 && FreshTree(nodes)
      ensures Init(View()) && Valid()
      ensures this.cfg == cfg && this.nodes == nodes && waitsLeft == waits && outside == precancelled
    {
      this.cfg, this.nodes, waitsLeft, outside := cfg, nodes, waits, precancelled;
      sem, wg, errs, idx, results, log := 0, 0, [], 0, [], [];
      ctx := if precancelled then Some(Outside) else None;
      wait, waited, quiet, fault, answer := PoolProtocol.WaitPc.Working, false, false, false, Answer([], []);
      new;
      InitEstablishes(View());
    }

    // ---- GoCtx, Go and TryGo

    /** ResultPool.task claims the next index, and the caller enters the select on sem. */
    method Offer(p: nat, x: nat)
      requires Enabled(View(), Action.Offer(p, x))
      modifies this`nodes, this`idx, this`quiet
      ensures View() == OfferStep(old(View()), p, x)
    {
      nodes := nodes[x := nodes[x].(pc := Offered, idx := idx)];
      nodes := nodes[p := nodes[p].(pc := Submitting(x))];
      idx, quiet := idx + 1, false;
    }

    method Acquire(p: nat)
      requires Enabled(View(), Action.Acquire(p))
      modifies this`nodes, this`sem
      ensures View() == AcquireStep(old(View()), p)
    {
      sem, nodes := sem + 1, nodes[p := nodes[p].(pc := Spawning(nodes[p].pc.child))];
    }

    /** GoCtx returns its context's error, or the caller drops a task that TryGo refused. */
    method Reject(p: nat, a: Action)
      requires Enabled(View(), a) && (a == Bail(p) || a == Drop(p))
      modifies this`nodes
      ensures View() == Apply(old(View()), a)
    {
      var x := nodes[p].pc.child;
      nodes := nodes[x := nodes[x].(pc := Rejected)];
      nodes := nodes[p := nodes[p].(pc := Run)];
    }

    /** TryGo finds no slot. */
    method Deny(p: nat)
      requires Enabled(View(), Action.Deny(p))
      modifies this`nodes
      ensures View() == DenyStep(old(View()), p)
    {
      nodes := nodes[p := nodes[p].(pc := Denied(nodes[p].pc.child))];
    }

    method StartInline(p: nat)
      requires Enabled(View(), Action.StartInline(p))
      modifies this`nodes, this`log
      ensures View() == StartInlineStep(old(View()), p, old(nodes[p].pc.child))
    {
      var x := nodes[p].pc.child;
      nodes := nodes[x := nodes[x].(pc := Run, role := Inline)];
      nodes := nodes[p := nodes[p].(pc := Inlining(x))];
      log := log + [x];
    }

    /** spawn: wg.Go. */
    method Spawn(p: nat)
      requires Enabled(View(), Action.Spawn(p))
      modifies this`nodes, this`wg, this`log
      ensures View() == SpawnStep(old(View()), p, old(nodes[p].pc.child))
    {
      var x := nodes[p].pc.child;
      wg := wg + 1;
      nodes := nodes[x := nodes[x].(pc := Run, role := Spawned)];
      nodes := nodes[p := nodes[p].(pc := Run)];
      log := log + [x];
    }

    // ---- runTask and ResultPool's wrapper

    /** The task's function ends; the wrapper appends its result under mu. */
    method Finish(x: nat, outcome: Outcome)
      requires Enabled(View(), Action.Finish(x, outcome))
      modifies this`nodes, this`results
      ensures View() == FinishStep(old(View()), x, outcome)
    {
      results := results + [Keyed(nodes[x].idx, Res(x, outcome.val, outcome.err))];
      nodes := nodes[x := nodes[x].(pc := Returned, out := Some(outcome))];
    }

    method FinishInline(x: nat, outcome: Outcome)
      requires Enabled(View(), Action.FinishInline(x, outcome))
      modifies this`nodes
      ensures View() == FinishInlineStep(old(View()), x, outcome)
    {
      var p := nodes[x].parent;
      nodes := nodes[x := nodes[x].(pc := Over, out := Some(outcome))];
      nodes := nodes[p := nodes[p].(pc := Run)];
    }

    /** The section under mu: append the error and cancel with it. */
    method Record(x: nat)
      requires Enabled(View(), Action.Record(x))
      modifies this`nodes, this`errs, this`ctx
      ensures View() == RecordStep(old(View()), x)
    {
      var err := nodes[x].out.value.err;
      if err.Some? {
        errs := errs + [TaskErr(x, err.value)];
        if cfg.cancelOnError && ctx.None? {
          ctx := Some(Error(TaskErr(x, err.value)));
        }
      }
      nodes := nodes[x := nodes[x].(pc := Recorded)];
    }

    method Release(x: nat)
      requires Enabled(View(), Action.Release(x))
      modifies this`nodes, this`sem
      ensures View() == ReleaseStep(old(View()), x)
    {
      sem, nodes := sem - 1, nodes[x := nodes[x].(pc := Freed)];
    }

    /** The wait group's Done. */
    method Retire(x: nat)
      requires Enabled(View(), Action.Retire(x))
      modifies this`nodes, this`wg, this`fault
      ensures View() == RetireStep(old(View()), x)
    {
      if wg == 0 {
        fault := true;
      } else {
        wg, nodes := wg - 1, nodes[x := nodes[x].(pc := Over)];
      }
    }

    // ---- Wait, Errors and Reset

    method BeginWait(a: Action)
      requires Enabled(View(), a) && (a.CallWait? || a.JoinTasks?)
      modifies this`wait, this`waitsLeft
      ensures View() == Apply(old(View()), a)
    {
      if a.CallWait? {
        waitsLeft, wait := waitsLeft - 1, Waiting;
      } else {
        wait := Joined;
      }
    }

    /** cancel(nil): a context that is done already keeps its cause. */
    method CancelPool()
      requires Enabled(View(), Action.CancelPool)
      modifies this`ctx, this`waited, this`wait
      ensures View() == CancelPoolStep(old(View()))
    {
      if ctx.None? {
        ctx := Some(Canceled);
      }
      waited, wait := true, Reading;
    }

    /** Sorts the results in place in ordered mode, and returns the errors and the values. */
    method ReadResults()
      requires Enabled(View(), Action.ReadResults)
      modifies this`results, this`answer, this`quiet, this`wait
      ensures View() == ReadResultsStep(old(View()))
    {
      if cfg.ordered {
        results := SortedCopy(results);
      }
      var vals := ValuesOf(results);
      assert vals == Values(results);
      answer := Answer(if cfg.firstError && errs != [] then [errs[0]] else errs, vals);
      quiet, wait := true, PoolProtocol.WaitPc.Working;
    }

    /** Copies the values out of the results. */
    static method ValuesOf(entries: seq<Entry>) returns (vals: seq<Val>)
      ensures |vals| == |entries| && forall k :: 0 <= k < |entries| ==> vals[k] == entries[k].val.val
    {
      vals := [];
      for i := 0 to |entries|
        invariant |vals| == i && forall k :: 0 <= k < i ==> vals[k] == entries[k].val.val
      {
        vals := vals + [entries[i].val.val];
      }
    }

    /** The errors of the results, in the order in which Wait returns the results. */
    method Errors() returns (found: seq<TaskErr>)
      ensures found == ResultErrs(Arranged(cfg, results))
    {
      var copy := results;
      if cfg.ordered {
        copy := SortedCopy(copy);
      }
      found := [];
      for i := 0 to |copy|
        invariant found == ResultErrs(copy[..i])
      {
        assert copy[..i + 1][..i] == copy[..i];
        var r := copy[i].val;
        if r.err.Some? {
          found := found + [TaskErr(r.node, r.err.value)];
        }
      }
      assert copy[..|copy|] == copy;
    }

    /** What ResultPool adds to Reset: the results and the index counter start over. */
    method ResetResults()
      modifies this`results, this`idx
      ensures View() == old(View()).(results := [], idx := 0)
    {
      results, idx := [], 0;
    }

    /** Pool's own part of Reset: no errors, and a new context derived from the parent's. */
    method ResetBatch()
      modifies this`errs, this`ctx
      ensures View() == old(View()).(errs := [], ctx := if old(outside) then Some(Outside) else None)
    {
      errs := [];
      ctx := if outside then Some(Outside) else None;
    }

    /** Called after Wait has returned: prepares the object for another tree of tasks. */
    method Reset(tree: seq<Node>, waits: nat)
      requires Valid() && quiet && FreshTree(tree)
      modifies this
      ensures View() == PoolProtocol.Reset(old(View()), tree, waits)
      ensures Valid() && Init(View())
    {
      ResetStartsAfresh(View(), tree, waits);
      Restart(tree, waits);
    }

    method Restart(tree: seq<Node>, waits: nat)
      modifies this
      ensures View() == PoolProtocol.Reset(old(View()), tree, waits)
    {
      ResetResults();
      ResetBatch();
      nodes, waitsLeft, log := tree, waits, [];
      wait, waited, quiet := PoolProtocol.WaitPc.Working, false, false;
    }

    // ---- the owner's end and the outside

    method Quit()
      requires Enabled(View(), Action.Quit)
      modifies this`nodes
      ensures View() == Apply(old(View()), Action.Quit)
    {
      nodes := nodes[0 := nodes[0].(pc := Over)];
    }

    method Cancel(a: Action)
      requires Enabled(View(), a) && (a.CancelCaller? || a.CancelOutside?)
      modifies this`nodes, this`outside, this`ctx
      ensures View() == Apply(old(View()), a)
    {
      if a.CancelCaller? {
        nodes := nodes[a.x := nodes[a.x].(ctxDone := true)];
      } else {
        outside := true;
        if ctx.None? {
          ctx := Some(Outside);
        }
      }
    }

    /** The atomic section that the scheduler has chosen keeps the invariant. */
    method Step(a: Action)
      requires Valid() && Enabled(View(), a)
      modifies this
      ensures Valid() && View() == Apply(old(View()), a)
    {
      StepKeeps(View(), a);
      Act(a);
    }

    method Act(a: Action)
      requires Enabled(View(), a)
      modifies this
      ensures View() == Apply(old(View()), a)
    {
      match a {
        case Offer(p, x) => Offer(p, x);
        case Acquire(p) => Acquire(p);
        case Bail(p) => Reject(p, a);
        case Deny(p) => Deny(p);
        case Drop(p) => Reject(p, a);
        case StartInline(p) => StartInline(p);
        case Spawn(p) => Spawn(p);
        case Finish(x, outcome) => Finish(x, outcome);
        case FinishInline(x, outcome) => FinishInline(x, outcome);
        case Record(x) => Record(x);
        case Release(x) => Release(x);
        case Retire(x) => Retire(x);
        case CallWait => BeginWait(a);
        case JoinTasks => BeginWait(a);
        case CancelPool => CancelPool();
        case ReadResults => ReadResults();
        case Quit => Quit();
        case CancelCaller(_) => Cancel(a);
        case CancelOutside => Cancel(a);
      }
    }

    /**
     * Drives the object with an arbitrary scheduler's choices, skipping those that are not
     * enabled: what the object has done is a run of the protocol, so a Wait that has returned
     * has covered everything and the two error logs agree.
     */
    method Drive(choices: seq<Action>) returns (ghost performed: seq<Action>)
      requires Init(View())
      modifies this
      ensures Valid() && Feasible(old(View()), performed) && View() == Exec(old(View()), performed)
      ensures quiet ==> sem == 0 && wg == 0 && multiset(ResultErrs(results)) == multiset(errs)
      ensures quiet && !cfg.firstError ==> answer.errs == errs
      ensures quiet && cfg.firstError ==>
        && (answer.errs == [] <==> forall e: TaskErr :: !FailedTask(nodes, e))
        && (answer.errs != [] ==> errs != [] && answer.errs == [errs[0]])
      ensures quiet ==> |answer.vals| == |results| && (cfg.ordered ==> Increasing(results))
      ensures quiet ==> forall i :: 0 <= i < |results| ==> HasReturned(performed, results[i].val.node, answer.vals[i])
    {
      InitEstablishes(View());
      performed := [];
      for i := 0 to |choices|
        invariant Valid() && Feasible(old(View()), performed) && View() == Exec(old(View()), performed)
      {
        if Enabled(View(), choices[i]) {
          ExecOneMore(old(View()), performed, choices[i]);
          performed := performed + [choices[i]];
          Step(choices[i]);
        }
      }
      if quiet {
        WaitCoversEverything(old(View()), performed);
        ErrorsConserved(old(View()), performed);
        AnsweredValues(old(View()), performed);
      }
    }
  }
}
