/**
 * Sorting by an integer key, as slices.SortFunc is used: the keys in use are distinct, so
 * the sorted sequence is determined by its elements and does not depend on the algorithm.
 */
module Sorting {

  /** An element with its sort key: an error with its element index, a result with its claimed index. */
  datatype Keyed<T> = Keyed(key: nat, val: T)

  ghost predicate Increasing<T>(s: seq<Keyed<T>>) {
    forall i, j :: 0 <= i < j < |s| ==> s[i].key < s[j].key
  }

  ghost predicate NonDecreasing<T>(s: seq<Keyed<T>>) {
    forall i, j :: 0 <= i < j < |s| ==> s[i].key <= s[j].key
  }

  ghost predicate DistinctKeys<T>(s: seq<Keyed<T>>) {
    forall i, j :: 0 <= i < j < |s| ==> s[i].key != s[j].key
  }

  /** Places x in a sorted sequence, behind the elements with keys up to its own. */
  function Insert<T>(s: seq<Keyed<T>>, x: Keyed<T>): seq<Keyed<T>> {
    if s == [] || s[|s| - 1].key <= x.key then s + [x]
    else Insert(s[..|s| - 1], x) + [s[|s| - 1]]
  }

  function Sort<T>(s: seq<Keyed<T>>): seq<Keyed<T>> {
    if s == [] then [] else Insert(Sort(s[..|s| - 1]), s[|s| - 1])
  }

  lemma {:induction false} InsertElements<T>(s: seq<Keyed<T>>, x: Keyed<T>)
    ensures multiset(Insert(s, x)) == multiset(s) + multiset{x}
    ensures |Insert(s, x)| == |s| + 1
  {
    if s != [] && s[|s| - 1].key > x.key {
      InsertElements(s[..|s| - 1], x);
      assert s == s[..|s| - 1] + [s[|s| - 1]];
    }
  }

  lemma {:induction false} InsertSorts<T>(s: seq<Keyed<T>>, x: Keyed<T>)
    requires NonDecreasing(s)
    ensures NonDecreasing(Insert(s, x))
  {
    if s != [] && s[|s| - 1].key > x.key {
      var init := s[..|s| - 1];
      InsertSorts(init, x);
      InsertElements(init, x);
      var t := Insert(init, x);
      forall i | 0 <= i < |t| ensures t[i].key <= s[|s| - 1].key {
        assert t[i] in multiset(t);
        assert t[i] == x || t[i] in multiset(init);
        assert t[i] == x || t[i] in init;
      }
    }
  }

  /** Sorting permutes and orders. */
  lemma {:induction false} SortCorrect<T>(s: seq<Keyed<T>>)
    ensures multiset(Sort(s)) == multiset(s) && |Sort(s)| == |s|
    ensures NonDecreasing(Sort(s))
  {
    if s == [] {
    } else {
      var init := s[..|s| - 1];
      SortCorrect(init);
      InsertElements(Sort(init), s[|s| - 1]);
      InsertSorts(Sort(init), s[|s| - 1]);
      assert s == init + [s[|s| - 1]];
    }
  }

  /** No element occurs twice, and no two elements share a key. */
  ghost predicate KeysUnique<T(!new)>(m: multiset<Keyed<T>>) {
    && (forall e :: m[e] <= 1)
    && (forall d, e :: d in m && e in m && d.key == e.key ==> d == e)
  }

  lemma CountedTwice<T>(s: seq<T>, i: nat, j: nat)
    requires i < j < |s| && s[i] == s[j]
    ensures multiset(s)[s[i]] >= 2
  {
    var rest := s[..j] + s[j + 1..];
    assert s == s[..j] + [s[j]] + s[j + 1..];
    assert rest[i] == s[i];
    assert s[i] in multiset(rest);
  }

  lemma DistinctFromMultiset<T(!new)>(s: seq<Keyed<T>>)
    requires KeysUnique(multiset(s))
    ensures DistinctKeys(s)
  {
    forall i, j | 0 <= i < j < |s| ensures s[i].key != s[j].key {
      assert s[i] in multiset(s) && s[j] in multiset(s);
      if s[i].key == s[j].key {
        CountedTwice(s, i, j);
      }
    }
  }

  /** With unique keys the sorted sequence is strictly increasing. */
  lemma SortIncreasing<T(!new)>(s: seq<Keyed<T>>)
    requires KeysUnique(multiset(s))
    ensures Increasing(Sort(s))
  {
    SortCorrect(s);
    DistinctFromMultiset(Sort(s));
  }

  ghost predicate Distinct<T>(s: seq<T>) {
    forall i, j :: 0 <= i < j < |s| ==> s[i] != s[j]
  }

  lemma DistinctCounts<T>(s: seq<T>, e: T)
    requires Distinct(s)
    ensures multiset(s)[e] == if e in s then 1 else 0
  {
    if e in s {
      var i :| 0 <= i < |s| && s[i] == e;
      assert s == s[..i] + [e] + s[i + 1..];
      assert e !in s[..i] && e !in s[i + 1..];
    }
  }

  ghost predicate IncreasingBy<T>(key: T -> int, s: seq<T>) {
    forall i, j :: 0 <= i < j < |s| ==> key(s[i]) < key(s[j])
  }

  /** Increasing arrangements of the same elements end with the same element. */
  lemma SameLast<T>(key: T -> int, s: seq<T>, t: seq<T>)
    requires IncreasingBy(key, s) && IncreasingBy(key, t) && multiset(s) == multiset(t) && |s| == |t| > 0
    ensures s[|s| - 1] == t[|t| - 1]
  {
    assert s[|s| - 1] in multiset(t);
    assert t[|t| - 1] in multiset(s);
  }

  lemma DropLast<T>(s: seq<T>)
    requires s != []
    ensures multiset(s[..|s| - 1]) == multiset(s) - multiset{s[|s| - 1]}
  {
    assert s == s[..|s| - 1] + [s[|s| - 1]];
  }

  /** Any strictly increasing arrangement of the same elements is the same sequence. */
  lemma {:induction false} IncreasingByUnique<T>(key: T -> int, s: seq<T>, t: seq<T>)
    requires IncreasingBy(key, s) && IncreasingBy(key, t) && multiset(s) == multiset(t)
    ensures s == t
  {
    assert |s| == |multiset(s)| && |t| == |multiset(t)|;
    if s == [] {
    } else {
      SameLast(key, s, t);
      DropLast(s);
      DropLast(t);
      IncreasingByUnique(key, s[..|s| - 1], t[..|t| - 1]);
    }
  }

  lemma IncreasingUnique<T>(s: seq<Keyed<T>>, t: seq<Keyed<T>>)
    requires Increasing(s) && Increasing(t) && multiset(s) == multiset(t)
    ensures s == t
  {
    IncreasingByUnique((e: Keyed<T>) => e.key, s, t);
  }

  lemma InsertDown<T>(s: seq<Keyed<T>>, x: Keyed<T>, tail: seq<Keyed<T>>)
    requires s != [] && s[|s| - 1].key > x.key
    ensures Insert(s, x) + tail == Insert(s[..|s| - 1], x) + ([s[|s| - 1]] + tail)
  {
    assert Insert(s, x) == Insert(s[..|s| - 1], x) + [s[|s| - 1]];
  }

  /** Moves a[i] down to its place among the sorted elements before it. */
  method SiftDown<T>(a: array<Keyed<T>>, i: nat)
    requires i < a.Length
    modifies a
    ensures a[..i + 1] == Insert(old(a[..i]), old(a[i]))
    ensures a[i + 1..] == old(a[i + 1..])
  {
    ghost var target := Insert(a[..i], a[i]);
    var j := i;
    assert Insert(a[..j], a[j]) + a[j + 1..i + 1] == target;
    while j > 0 && a[j - 1].key > a[j].key
      invariant 0 <= j <= i
      invariant Insert(a[..j], a[j]) + a[j + 1..i + 1] == target
      invariant a[i + 1..] == old(a[i + 1..])
    {
      ghost var before, x, y := a[..j], a[j], a[j - 1];
      ghost var tail := a[j + 1..i + 1];
      InsertDown(before, x, tail);
      assert before[|before| - 1] == y && before[..|before| - 1] == a[..j - 1];
      a[j - 1], a[j] := a[j], a[j - 1];
      assert a[..j - 1] == before[..|before| - 1];
      assert a[j..i + 1] == [y] + tail;
      j := j - 1;
    }
    assert a[..i + 1] == a[..j] + [a[j]] + a[j + 1..i + 1];
  }

  /** The in-place sort of an array of keyed elements. */
  method SortByKey<T>(a: array<Keyed<T>>)
    modifies a
    ensures a[..] == Sort(old(a[..]))
  {
    var i := 0;
    while i < a.Length
      invariant 0 <= i <= a.Length
      invariant a[..i] == Sort(old(a[..i]))
      invariant a[i..] == old(a[i..])
    {
      ghost var was := old(a[..]);
      assert was[..i + 1][..i] == was[..i];
      assert a[i] == a[i..][0] == was[i];
      SiftDown(a, i);
      assert old(a[..i + 1]) == was[..i + 1];
      i := i + 1;
    }
    assert a[..] == a[..a.Length];
    assert old(a[..]) == old(a[..a.Length]);
  }

  /** Sorts the elements of s in place in an array of their own. */
  method SortedCopy<T>(s: seq<Keyed<T>>) returns (sorted: seq<Keyed<T>>)
    ensures sorted == Sort(s)
  {
    sorted := s;
    if s != [] {
      var a := new Keyed<T>[|s|](i requires 0 <= i < |s| => s[i]);
      assert a[..] == s;
      SortByKey(a);
      sorted := a[..];
    }
  }
}
