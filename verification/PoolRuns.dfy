/** Short runs of a pool, of which longer ones are put together. */
module PoolRuns {
  import opened PoolProtocol

  /** The state after some node has submitted task x, which is running now. */
  function AfterSpawn(s: State, x: nat): State
    requires x < |s.nodes|
  {
    s.(sem := s.sem + 1, wg := s.wg + 1, idx := s.idx + 1, quiet := false, log := s.log + [x],
       nodes := s.nodes[x := s.nodes[x].(pc := Run, role := Spawned, idx := s.idx)])
  }

  /** With a slot free a node submits its child x, which starts: offer, token, goroutine. */
  lemma Spawns(s: State, p: nat, x: nat) returns (schedule: seq<Action>)
    requires Enabled(s, Offer(p, x)) && p != x && s.sem < s.cfg.n
    ensures Feasible(s, schedule) && Exec(s, schedule) == AfterSpawn(s, x)
  {
    var s1 := OfferStep(s, p, x);
    var s2 := AcquireStep(s1, p);
    assert SpawnStep(s2, p, x).nodes == AfterSpawn(s, x).nodes;
    OneStep(s2, Spawn(p));
    schedule := Prepend(s1, Acquire(p), [Spawn(p)]);
    schedule := Prepend(s, Offer(p, x), schedule);
  }

  /** The state after a task that has recorded its outcome has given its token back and retired. */
  function WoundUp(s: State, x: nat): State
    requires x < |s.nodes| && s.sem > 0 && s.wg > 0
  {
    s.(sem := s.sem - 1, wg := s.wg - 1, nodes := Move(s.nodes, x, Over))
  }

  lemma WindsUp(s: State, x: nat) returns (schedule: seq<Action>)
    requires At(s, x, Recorded) && s.sem > 0 && s.wg > 0
    ensures Feasible(s, schedule) && Exec(s, schedule) == WoundUp(s, x)
  {
    var s1 := ReleaseStep(s, x);
    assert RetireStep(s1, x).nodes == WoundUp(s, x).nodes;
    OneStep(s1, Retire(x));
    schedule := Prepend(s, Release(x), [Retire(x)]);
  }

  /** The tasks are over, and Wait goes through at once. */
  lemma WaitReturns(s: State) returns (schedule: seq<Action>)
    requires InUserCode(s, 0) && s.waitsLeft > 0 && s.wg == 0
    ensures Feasible(s, schedule)
    ensures var t := Exec(s, schedule);
      t.quiet && t.cfg == s.cfg && t.errs == s.errs && t.results == Arranged(s.cfg, s.results)
  {
    var s1 := s.(waitsLeft := s.waitsLeft - 1, wait := Waiting);
    var s2 := s1.(wait := Joined);
    var s3 := CancelPoolStep(s2);
    OneStep(s3, ReadResults);
    assert Exec(s3, [ReadResults]) == ReadResultsStep(s3);
    schedule := Prepend(s2, CancelPool, [ReadResults]);
    schedule := Prepend(s1, JoinTasks, schedule);
    schedule := Prepend(s, CallWait, schedule);
  }
}
