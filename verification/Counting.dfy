/**
 * Sums of a weight over a sequence.  Semaphore tokens, wait-group counters and
 * termination measures are all stated as such sums over the goroutines of a system.
 */
module Counting {

  function Sum<T>(f: T -> nat, s: seq<T>): nat {
    if s == [] then 0 else Sum(f, s[..|s| - 1]) + f(s[|s| - 1])
  }

  lemma SumAppend<T>(f: T -> nat, s: seq<T>, x: T)
    ensures Sum(f, s + [x]) == Sum(f, s) + f(x)
  {
    assert (s + [x])[..|s|] == s;
  }

  /** Replacing one element moves the sum by the difference of the two weights. */
  lemma {:induction false} SumUpdate<T>(f: T -> nat, s: seq<T>, k: nat, x: T)
    requires k < |s|
    ensures Sum(f, s[k := x]) + f(s[k]) == Sum(f, s) + f(x)
  {
    var t := s[k := x];
    if k == |s| - 1 {
      assert t[..|s| - 1] == s[..|s| - 1];
    } else {
      assert t[..|s| - 1] == s[..|s| - 1][k := x];
      SumUpdate(f, s[..|s| - 1], k, x);
    }
  }

  lemma {:induction false} SumAtLeast<T>(f: T -> nat, s: seq<T>, k: nat)
    requires k < |s|
    ensures f(s[k]) <= Sum(f, s)
  {
    if k == |s| - 1 {
    } else {
      SumAtLeast(f, s[..|s| - 1], k);
    }
  }

  lemma {:induction false} SumZero<T>(f: T -> nat, s: seq<T>)
    requires forall k :: 0 <= k < |s| ==> f(s[k]) == 0
    ensures Sum(f, s) == 0
  {
    if s == [] {
    } else {
      SumZero(f, s[..|s| - 1]);
    }
  }

  /** Weights that are ordered pointwise have ordered sums. */
  lemma {:induction false} SumMonotone<T>(f: T -> nat, g: T -> nat, s: seq<T>)
    requires forall k :: 0 <= k < |s| ==> f(s[k]) <= g(s[k])
    ensures Sum(f, s) <= Sum(g, s)
  {
    if s == [] {
    } else {
      SumMonotone(f, g, s[..|s| - 1]);
    }
  }

  /** Weights that add up pointwise have sums that add up. */
  lemma {:induction false} SumPlus<T>(f: T -> nat, g: T -> nat, h: T -> nat, s: seq<T>)
    requires forall k :: 0 <= k < |s| ==> f(s[k]) == g(s[k]) + h(s[k])
    ensures Sum(f, s) == Sum(g, s) + Sum(h, s)
  {
    if s == [] {
    } else {
      SumPlus(f, g, h, s[..|s| - 1]);
    }
  }

  lemma {:induction false} SumTwo<T>(f: T -> nat, s: seq<T>, j: nat, k: nat)
    requires j < k < |s|
    ensures f(s[j]) + f(s[k]) <= Sum(f, s)
  {
    if k == |s| - 1 {
      SumAtLeast(f, s[..k], j);
    } else {
      SumTwo(f, s[..|s| - 1], j, k);
    }
  }

  /** Places of positive weight, and one more place, bound the sum from below. */
  lemma {:induction false} SumOfPlaces<T>(f: T -> nat, s: seq<T>, places: set<nat>, k: nat)
    requires k < |s| && k !in places && forall i :: i in places ==> i < |s| && f(s[i]) >= 1
    ensures |places| + f(s[k]) <= Sum(f, s)
  {
    var n := |s| - 1;
    if k == n {
      PlacesCount(f, s[..n], places);
    } else {
      forall i | i in places - {n} ensures i < n && f(s[..n][i]) >= 1 {
      }
      SumOfPlaces(f, s[..n], places - {n}, k);
    }
  }

  lemma {:induction false} PlacesCount<T>(f: T -> nat, s: seq<T>, places: set<nat>)
    requires forall i :: i in places ==> i < |s| && f(s[i]) >= 1
    ensures |places| <= Sum(f, s)
  {
    if s == [] {
      assert places == {};
    } else {
      var n := |s| - 1;
      forall i | i in places - {n} ensures i < n && f(s[..n][i]) >= 1 {
      }
      PlacesCount(f, s[..n], places - {n});
    }
  }

  lemma {:induction false} SumBelowLength<T>(f: T -> nat, s: seq<T>)
    requires forall i :: 0 <= i < |s| ==> f(s[i]) <= 1
    ensures Sum(f, s) <= |s|
  {
    if s == [] {
    } else {
      SumBelowLength(f, s[..|s| - 1]);
    }
  }

  lemma {:induction false} SumOfOnes<T>(f: T -> nat, s: seq<T>)
    requires forall i :: 0 <= i < |s| ==> f(s[i]) == 1
    ensures Sum(f, s) == |s|
  {
    if s != [] {
      SumOfOnes(f, s[..|s| - 1]);
    }
  }

  /** There are no more than m different numbers below m. */
  lemma {:induction false} DistinctBelow(s: seq<nat>, m: nat)
    requires forall i, j :: 0 <= i < j < |s| ==> s[i] != s[j]
    requires forall i :: 0 <= i < |s| ==> s[i] < m
    ensures |s| <= m
    decreases m
  {
    if s != [] {
      assert s[0] < m;
      if exists i :: 0 <= i < |s| && s[i] == m - 1 {
        var i :| 0 <= i < |s| && s[i] == m - 1;
        DistinctBelow(s[..i] + s[i + 1..], m - 1);
      } else {
        DistinctBelow(s, m - 1);
      }
    }
  }
}
