/**
 * Sequence helpers shared by the models: order-preserving filtering (`Array.prototype.filter`)
 * and the distinct elements of a sequence in first-appearance order (`Array.from(new Set(xs))`).
 */
module Sequences {

  /** No element occurs twice. */
  predicate Distinct<T(==)>(s: seq<T>) {
    forall i, j :: 0 <= i < j < |s| ==> s[i] != s[j]
  }

  /** The elements of `s` for which `keep` holds, in their order in `s`. */
  function Filter<T>(s: seq<T>, keep: T -> bool): (r: seq<T>)
    ensures |r| <= |s|
    ensures forall i :: 0 <= i < |r| ==> r[i] in s && keep(r[i])
  {
    if s == [] then []
    else Filter(s[..|s| - 1], keep) + (if keep(s[|s| - 1]) then [s[|s| - 1]] else [])
  }

  /** Filtering drops nothing that `keep` accepts. */
  lemma {:induction false} FilterComplete<T>(s: seq<T>, keep: T -> bool)
    ensures forall i :: 0 <= i < |s| && keep(s[i]) ==> s[i] in Filter(s, keep)
  {
    if s != [] {
      FilterComplete(s[..|s| - 1], keep);
      assert forall i :: 0 <= i < |s| - 1 ==> s[i] == s[..|s| - 1][i];
    }
  }

  /** Filtering distributes over concatenation; with the membership clause of `Filter`
      this says the result keeps the input's order. */
  lemma {:induction false} FilterAppend<T>(a: seq<T>, b: seq<T>, keep: T -> bool)
    ensures Filter(a + b, keep) == Filter(a, keep) + Filter(b, keep)
    decreases |b|
  {
    if b == [] {
      assert a + b == a;
    } else {
      var b' := b[..|b| - 1];
      assert (a + b)[..|a + b| - 1] == a + b';
      assert (a + b)[|a + b| - 1] == b[|b| - 1];
      FilterAppend(a, b', keep);
    }
  }

  /** Filtering keeps distinctness. */
  lemma {:induction false} FilterDistinct<T>(s: seq<T>, keep: T -> bool)
    requires Distinct(s)
    ensures Distinct(Filter(s, keep))
    decreases |s|
  {
    if s != [] {
      var s' := s[..|s| - 1];
      assert Distinct(s');
      FilterDistinct(s', keep);
      assert s[|s| - 1] !in s';
    }
  }

  /** Index of the first occurrence of `x` in `s`. */
  function FirstIndex<T(==)>(s: seq<T>, x: T): (i: nat)
    requires x in s
    ensures i < |s| && s[i] == x
    ensures forall j :: 0 <= j < i ==> s[j] != x
  {
    if s[0] == x then 0 else 1 + FirstIndex(s[1..], x)
  }

  /** The distinct elements of `s`, each at the place of its first occurrence. */
  function DistinctInOrder<T(==)>(s: seq<T>): (r: seq<T>)
    ensures Distinct(r)
    ensures forall i :: 0 <= i < |r| ==> r[i] in s
    ensures forall i :: 0 <= i < |s| ==> s[i] in r
  {
    if s == [] then []
    else
      var d := DistinctInOrder(s[..|s| - 1]);
      var x := s[|s| - 1];
      if x in d then d else d + [x]
  }

  /** The distinct elements come in the order of their first occurrences in `s`. */
  lemma {:induction false} DistinctInOrderIsFirstAppearanceOrder<T>(s: seq<T>)
    ensures forall i, j :: 0 <= i < j < |DistinctInOrder(s)| ==>
      FirstIndex(s, DistinctInOrder(s)[i]) < FirstIndex(s, DistinctInOrder(s)[j])
    decreases |s|
  {
    if s != [] {
      var s' := s[..|s| - 1];
      var x := s[|s| - 1];
      assert s == s' + [x];
      var d := DistinctInOrder(s');
      var r := DistinctInOrder(s);
      DistinctInOrderIsFirstAppearanceOrder(s');
      FirstIndexSnoc(s', x);
      forall i, j | 0 <= i < j < |r|
        ensures FirstIndex(s, r[i]) < FirstIndex(s, r[j])
      {
        assert r[i] in d && r[i] in s';
        if j < |d| {
          assert r[j] == d[j] && r[j] in s';
        } else {
          assert r[j] == x && x !in s';
        }
      }
    }
  }

  /** On a sequence without repetitions, filtering keeps the order of the kept elements. */
  lemma {:induction false} FilterKeepsOrder<T>(s: seq<T>, keep: T -> bool)
    requires Distinct(s)
    ensures forall i, j :: 0 <= i < j < |Filter(s, keep)| ==>
      FirstIndex(s, Filter(s, keep)[i]) < FirstIndex(s, Filter(s, keep)[j])
    decreases |s|
  {
    if s != [] {
      var s' := s[..|s| - 1];
      var x := s[|s| - 1];
      assert s == s' + [x];
      assert Distinct(s') && x !in s';
      var f := Filter(s', keep);
      var r := Filter(s, keep);
      FilterKeepsOrder(s', keep);
      FirstIndexSnoc(s', x);
      forall i, j | 0 <= i < j < |r|
        ensures FirstIndex(s, r[i]) < FirstIndex(s, r[j])
      {
        assert r[i] == f[i] && r[i] in s';
        if j < |f| {
          assert r[j] == f[j] && r[j] in s';
        } else {
          assert r[j] == x;
        }
      }
    }
  }

  /** Helper for `DistinctInOrder`: appending an element does not move the first occurrence
      of an element already present, and a new element occurs first at the end. */
  lemma FirstIndexSnoc<T>(s': seq<T>, x: T)
    ensures forall y :: y in s' ==> FirstIndex(s' + [x], y) == FirstIndex(s', y)
    ensures x !in s' ==> FirstIndex(s' + [x], x) == |s'|
  {
    forall y | y in s'
      ensures FirstIndex(s' + [x], y) == FirstIndex(s', y)
    {
      assert (s' + [x])[FirstIndex(s', y)] == y;
    }
  }
}
