/** Runs on which the code does not do what its documentation says. */
module IterDiscrepancies {
  import opened Options
  import opened IterProtocol

  /** forEachSeq over one element with one goroutine, without a context for fn. */
  function Single(): State {
    State(Mode(false, false, false), 1, 1, false, false, 0, 0, [], 0, false, false, None, [], [],
          Top, Joining, false, false, [], false)
  }

  /** The dispatcher holds the token and has looked at the context for the last time. */
  function Looked(): State {
    Single().(sem := 1, disp := Load2)
  }

  lemma SingleLooks() returns (schedule: seq<Action>)
    ensures Feasible(Single(), schedule) && Exec(Single(), schedule) == Looked()
  {
    var s1 := NextStep(Single());
    var s2 := PollStep(s1);
    var s3 := LoadStep(s2);
    var s4 := TakeTokenStep(s3);
    OneStep(s4, Poll);
    schedule := Prepend(s3, TakeToken, [Poll]);
    schedule := Prepend(s2, Load, schedule);
    schedule := Prepend(s1, Poll, schedule);
    schedule := Prepend(Single(), Next, schedule);
  }

  /**
   * Cancelling does not always stop dispatch: a context that is cancelled while no element has
   * been started, and an element that is started all the same.
   */
  lemma CancelledButStarted() returns (before: seq<Action>, after: seq<Action>)
    ensures Init(Single()) && Feasible(Single(), before)
    ensures var s := Exec(Single(), before);
      && s.cancelled && s.calls == []
      && Feasible(s, after) && |Exec(s, after).calls| == 1
  {
    before := SingleLooks();
    ExecOneMore(Single(), before, CancelOutside);
    before := before + [CancelOutside];
    var s := Looked().(cancelled := true, outside := true);
    OneStep(LoadStep(s), SpawnCall);
    after := Prepend(s, Load, [SpawnCall]);
  }
}

module StreamDiscrepancies {
  import opened Options
  import opened StreamProtocol

  /** A stream with two goroutines and two callers of Go. */
  function Pair(): State {
    var idle := Submitter(Idle, true, false);
    State(2, 0, 0, 0, false, 1, false, false, false, [], 0, [idle, idle], [], Off, NotCalled,
          None, None, [], map[], false)
  }

  /** The first caller has submitted, and its producer is running. */
  function OneRunning(): State {
    Pair().(sem := 1, submitWg := 1, producerWg := 1, launched := true, submitted := [0],
            subs := [Submitter(Leaving(Some(0)), true, false), Submitter(Idle, true, false)],
            slots := [Slot(0, Running, None)], disp := Ranging)
  }

  function BothRunning(): State {
    OneRunning().(sem := 2, submitWg := 2, producerWg := 2, submitted := [0, 1],
                  subs := [Submitter(Leaving(Some(0)), true, false), Submitter(Leaving(Some(1)), true, false)],
                  slots := [Slot(0, Running, None), Slot(1, Running, None)])
  }

  /** The first caller submits, and the run goes on with rest. */
  lemma FirstSubmits(rest: seq<Action>) returns (schedule: seq<Action>)
    requires Feasible(OneRunning(), rest)
    ensures Feasible(Pair(), schedule) && Exec(Pair(), schedule) == Exec(OneRunning(), rest)
  {
    var s1 := AdmitStep(Pair(), 0);
    var s2 := StartStep(s1, 0);
    var s3 := AcquireStep(s2, 0);
    var s4 := SendStep(s3, 0);
    var s5 := SpawnStep(s4, 0);
    assert s5.subs == OneRunning().subs && s5.slots == OneRunning().slots;
    assert s5 == OneRunning();
    schedule := Prepend(s4, Action.Spawn(0), rest);
    schedule := Prepend(s3, Send(0), schedule);
    schedule := Prepend(s2, Acquire(0), schedule);
    schedule := Prepend(s1, Start(0), schedule);
    schedule := Prepend(Pair(), Admit(0), schedule);
  }

  /** The second caller submits, and the run goes on with rest. */
  lemma SecondSubmits(rest: seq<Action>) returns (schedule: seq<Action>)
    requires Feasible(BothRunning(), rest)
    ensures Feasible(OneRunning(), schedule) && Exec(OneRunning(), schedule) == Exec(BothRunning(), rest)
  {
    var s1 := AdmitStep(OneRunning(), 1);
    var s2 := StartStep(s1, 1);
    var s3 := AcquireStep(s2, 1);
    var s4 := SendStep(s3, 1);
    var s5 := SpawnStep(s4, 1);
    assert s5.subs == BothRunning().subs && s5.slots == BothRunning().slots;
    assert s5 == BothRunning();
    schedule := Prepend(s4, Action.Spawn(1), rest);
    schedule := Prepend(s3, Send(1), schedule);
    schedule := Prepend(s2, Acquire(1), schedule);
    schedule := Prepend(s1, Start(1), schedule);
    schedule := Prepend(OneRunning(), Admit(1), schedule);
  }

  /** The second producer has panicked before the first has produced anything. */
  function Panicked(): State {
    ProduceStep(BothRunning(), 1, ProducerPanic(7))
  }

  lemma PairPanics() returns (schedule: seq<Action>)
    ensures Feasible(Pair(), schedule) && Exec(Pair(), schedule) == Panicked()
  {
    OneStep(BothRunning(), Produce(1, ProducerPanic(7)));
    schedule := SecondSubmits([Produce(1, ProducerPanic(7))]);
    schedule := FirstSubmits(schedule);
  }

  /**
   * A panic does not halt the dispatcher at once: the second producer has panicked, no callback
   * has run, and the callback of the first slot is run all the same.
   */
  lemma PanickedButCalled() returns (before: seq<Action>, after: seq<Action>)
    ensures Init(Pair()) && Feasible(Pair(), before)
    ensures var s := Exec(Pair(), before);
      && |s.slots| == 2 && s.slots[1].cop == Some(ProducerPanic(7)) && s.trace == []
      && Feasible(s, after) && Exec(s, after).trace == [0]
  {
    before := PairPanics();
    var s := Panicked();
    var s1 := ProduceStep(s, 0, Callback);
    var s2 := ReceiveStep(s1);
    OneStep(s2, Take);
    after := Prepend(s1, Receive, [Take]);
    after := Prepend(s, Produce(0, Callback), after);
  }
}
