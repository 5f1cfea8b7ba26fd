/**
 * The sequential meaning of a stream: a left-to-right fold over what the
 * producers wrote, in slot order.
 */
module StreamFold {
  import opened Options
  import opened StreamProtocol

  /** trace: the callbacks run.  producer, callback: the panics each panic cell ends up with. */
  datatype Verdict = Verdict(trace: seq<nat>, halted: bool, producer: Option<Panic>, callback: Option<Panic>)

  const START := Verdict([], false, None, None)

  function EndOf(ends: map<nat, CbEnd>, i: nat): CbEnd {
    if i in ends then ends[i] else CbReturned
  }

  /** Handles slot i after the earlier slots gave v. */
  function Handle(v: Verdict, i: nat, cop: Cop, end: CbEnd): Verdict {
    match cop
    case NilCallback => v
    case ProducerPanic(p) => v.(halted := true, producer := FirstOf(v.producer, p))
    case Callback =>
      if v.halted then v
      else if end.CbPanicked? then Verdict(v.trace + [i], true, v.producer, Some(end.panic))
      else v.(trace := v.trace + [i])
  }

  function Fold(cops: seq<Cop>, ends: map<nat, CbEnd>): (v: Verdict) {
    if cops == [] then START
    else
      var i := |cops| - 1;
      Handle(Fold(cops[..i], ends), i, cops[i], EndOf(ends, i))
  }

  /** Slot i stops the sequence: its producer panicked, or its callback did. */
  predicate Stops(cops: seq<Cop>, ends: map<nat, CbEnd>, i: nat)
    requires i < |cops|
  {
    cops[i].ProducerPanic? || (cops[i].Callback? && EndOf(ends, i).CbPanicked?)
  }

  /** No slot before i stops the sequence. */
  ghost predicate Open(cops: seq<Cop>, ends: map<nat, CbEnd>, i: nat)
    requires i <= |cops|
  {
    forall j :: 0 <= j < i ==> !Stops(cops, ends, j)
  }

  /** p is the panic of the earliest slot whose producer panicked. */
  ghost predicate EarliestProducerPanic(cops: seq<Cop>, p: Panic) {
    exists i :: 0 <= i < |cops| && cops[i] == ProducerPanic(p) && forall j :: 0 <= j < i ==> !cops[j].ProducerPanic?
  }

  /** q is the panic of a callback that no earlier slot kept from running. */
  ghost predicate FirstCallbackPanic(cops: seq<Cop>, ends: map<nat, CbEnd>, q: Panic) {
    exists i :: 0 <= i < |cops| && cops[i].Callback? && EndOf(ends, i) == CbPanicked(q) && Open(cops, ends, i)
  }

  /**
   * What the fold means, without the fold: the callbacks run are those of the slots no
   * earlier slot stops, in slot order; the producer cell holds the panic of the earliest
   * panicking producer, and the callback cell that of the one callback that stopped the run.
   */
  lemma {:induction false} FoldMeaning(cops: seq<Cop>, ends: map<nat, CbEnd>)
    ensures var v := Fold(cops, ends);
      && (forall i: nat :: i in v.trace <==> i < |cops| && cops[i].Callback? && Open(cops, ends, i))
      && (forall a, b :: 0 <= a < b < |v.trace| ==> v.trace[a] < v.trace[b])
      && (v.halted <==> !Open(cops, ends, |cops|))
      && (forall p :: v.producer == Some(p) ==> EarliestProducerPanic(cops, p))
      && (v.producer == None ==> forall i :: 0 <= i < |cops| ==> !cops[i].ProducerPanic?)
      && (forall q :: v.callback == Some(q) ==> FirstCallbackPanic(cops, ends, q))
      && (v.callback == None ==> forall q :: !FirstCallbackPanic(cops, ends, q))
  {
    if cops == [] {
    } else {
      var n := |cops| - 1;
      var init := cops[..n];
      FoldMeaning(init, ends);
      OpenPrefix(cops, ends);
      FoldMeaningTrace(cops, ends);
      FoldMeaningPanics(cops, ends);
    }
  }

  /** Whether slot i is reached does not depend on the last slot. */
  lemma OpenPrefix(cops: seq<Cop>, ends: map<nat, CbEnd>)
    requires cops != []
    ensures forall i: nat :: i < |cops| ==> Open(cops[..|cops| - 1], ends, i) == Open(cops, ends, i)
    ensures Open(cops, ends, |cops|) <==> Open(cops, ends, |cops| - 1) && !Stops(cops, ends, |cops| - 1)
  {
    var init := cops[..|cops| - 1];
    assert forall j :: 0 <= j < |init| ==> Stops(init, ends, j) == Stops(cops, ends, j);
  }

  /** The inductive step of FoldMeaning for the trace. */
  lemma FoldMeaningTrace(cops: seq<Cop>, ends: map<nat, CbEnd>)
    requires cops != []
    requires var init := cops[..|cops| - 1]; var u := Fold(init, ends);
      && (forall i: nat :: i in u.trace <==> i < |init| && init[i].Callback? && Open(init, ends, i))
      && (forall a, b :: 0 <= a < b < |u.trace| ==> u.trace[a] < u.trace[b])
      && (u.halted <==> !Open(init, ends, |init|))
    ensures var v := Fold(cops, ends);
      && (forall i: nat :: i in v.trace <==> i < |cops| && cops[i].Callback? && Open(cops, ends, i))
      && (forall a, b :: 0 <= a < b < |v.trace| ==> v.trace[a] < v.trace[b])
  {
    var n := |cops| - 1;
    var u, v := Fold(cops[..n], ends), Fold(cops, ends);
    OpenPrefix(cops, ends);
    forall a | 0 <= a < |u.trace| ensures u.trace[a] < n {
      assert u.trace[a] in u.trace;
    }
    if cops[n].Callback? && Open(cops, ends, n) {
      assert v.trace == u.trace + [n];
    } else {
      assert v.trace == u.trace;
    }
  }

  /** The inductive step of FoldMeaning for the two panic cells. */
  lemma FoldMeaningPanics(cops: seq<Cop>, ends: map<nat, CbEnd>)
    requires cops != []
    requires var init := cops[..|cops| - 1]; var u := Fold(init, ends);
      && (u.halted <==> !Open(init, ends, |init|))
      && (forall p :: u.producer == Some(p) ==> EarliestProducerPanic(init, p))
      && (u.producer == None ==> forall i :: 0 <= i < |init| ==> !init[i].ProducerPanic?)
      && (forall q :: u.callback == Some(q) ==> FirstCallbackPanic(init, ends, q))
      && (u.callback == None ==> forall q :: !FirstCallbackPanic(init, ends, q))
    ensures var v := Fold(cops, ends);
      && (forall p :: v.producer == Some(p) ==> EarliestProducerPanic(cops, p))
      && (v.producer == None ==> forall i :: 0 <= i < |cops| ==> !cops[i].ProducerPanic?)
      && (forall q :: v.callback == Some(q) ==> FirstCallbackPanic(cops, ends, q))
      && (v.callback == None ==> forall q :: !FirstCallbackPanic(cops, ends, q))
  {
    var n := |cops| - 1;
    var init := cops[..n];
    var u, v := Fold(init, ends), Fold(cops, ends);
    OpenPrefix(cops, ends);
    assert forall j :: 0 <= j < n ==> init[j] == cops[j];
    forall p | v.producer == Some(p) ensures EarliestProducerPanic(cops, p) {
      if u.producer == Some(p) {
        var i :| 0 <= i < n && init[i] == ProducerPanic(p) && forall j :: 0 <= j < i ==> !init[j].ProducerPanic?;
        assert cops[i] == ProducerPanic(p);
      } else {
        assert cops[n] == ProducerPanic(p);
      }
    }
    forall q ensures FirstCallbackPanic(cops, ends, q) <==>
      FirstCallbackPanic(init, ends, q) || (cops[n].Callback? && EndOf(ends, n) == CbPanicked(q) && Open(cops, ends, n))
    {
      if FirstCallbackPanic(init, ends, q) {
        var i :| 0 <= i < n && init[i].Callback? && EndOf(ends, i) == CbPanicked(q) && Open(init, ends, i);
        assert cops[i].Callback? && Open(cops, ends, i);
      }
      if FirstCallbackPanic(cops, ends, q) {
        var i :| 0 <= i < |cops| && cops[i].Callback? && EndOf(ends, i) == CbPanicked(q) && Open(cops, ends, i);
        if i < n {
          assert init[i].Callback? && Open(init, ends, i);
        }
      }
    }
  }

  lemma {:induction false} FoldBasics(cops: seq<Cop>, ends: map<nat, CbEnd>)
    ensures var v := Fold(cops, ends);
      && (forall i :: i in v.trace ==> i < |cops|)
      && (!v.halted ==> v.producer == None && v.callback == None)
  {
    if cops == [] {
    } else {
      FoldBasics(cops[..|cops| - 1], ends);
    }
  }

  /** The fold looks only at how the callbacks it runs end. */
  lemma {:induction false} FoldAgree(cops: seq<Cop>, ends: map<nat, CbEnd>, other: map<nat, CbEnd>)
    requires forall i: nat :: i < |cops| && i in Fold(cops, ends).trace && i in Fold(cops, other).trace ==>
      EndOf(ends, i) == EndOf(other, i)
    ensures Fold(cops, ends) == Fold(cops, other)
  {
    if cops == [] {
    } else {
      var n := |cops| - 1;
      var u, w := Fold(cops[..n], ends), Fold(cops[..n], other);
      var v, x := Fold(cops, ends), Fold(cops, other);
      assert forall i :: i in u.trace ==> i in v.trace;
      assert forall i :: i in w.trace ==> i in x.trace;
      FoldAgree(cops[..n], ends, other);
      assert v == Handle(u, n, cops[n], EndOf(ends, n));
      assert x == Handle(u, n, cops[n], EndOf(other, n));
      if cops[n].Callback? && !u.halted {
        assert v.trace[|u.trace|] == n && x.trace[|u.trace|] == n;
      }
    }
  }
}
