/** Ascending sort of a sequence by a natural-number key, the model of
    `Array.prototype.sort` with a comparator `(a, b) => key(a) - key(b)`.
    The sort is a functional insertion sort; elements with equal keys keep
    their input order, as the engine's stable sort keeps them. */
module Sorting {

  /** `s` is in ascending order of `key`. */
  ghost predicate SortedBy<T>(s: seq<T>, key: T -> nat) {
    forall i, j :: 0 <= i < j < |s| ==> key(s[i]) <= key(s[j])
  }

  /** Putting an element no larger than the head in front keeps a sorted
      sequence sorted. */
  lemma ConsSorted<T>(x: T, s: seq<T>, key: T -> nat)
    requires SortedBy(s, key)
    requires |s| > 0 ==> key(x) <= key(s[0])
    ensures SortedBy([x] + s, key)
  {
    var r := [x] + s;
    forall i, j | 0 <= i < j < |r|
      ensures key(r[i]) <= key(r[j])
    {
      if i == 0 && j > 1 {
        assert key(s[0]) <= key(s[j - 1]);
      }
    }
  }

  /** Inserts `x` into the sorted `s` before the first element whose key is
      not smaller than `x`'s. */
  function Insert<T>(x: T, s: seq<T>, key: T -> nat): (r: seq<T>)
    requires SortedBy(s, key)
    ensures SortedBy(r, key)
    ensures multiset(r) == multiset(s) + multiset{x}
    ensures r[0] == x || (|s| > 0 && r[0] == s[0])
  {
    if |s| == 0 || key(x) <= key(s[0]) then
      ConsSorted(x, s, key);
      [x] + s
    else
      var tail := s[1..];
      assert SortedBy(tail, key);
      var rest := Insert(x, tail, key);
      assert |tail| > 0 ==> key(s[0]) <= key(tail[0]);
      ConsSorted(s[0], rest, key);
      assert s == [s[0]] + tail;
      [s[0]] + rest
  }

  /** `s` sorted ascending by `key`: a permutation of `s` in key order. */
  function SortBy<T>(s: seq<T>, key: T -> nat): (r: seq<T>)
    ensures SortedBy(r, key)
    ensures multiset(r) == multiset(s)
    ensures |r| == |s|
  {
    if |s| == 0 then []
    else
      assert s == [s[0]] + s[1..];
      Insert(s[0], SortBy(s[1..], key), key)
  }

  /** Sorting leaves an already sorted sequence unchanged; in particular
      sorting a sorted result again changes nothing. */
  lemma {:induction false} SortBySortedIsIdentity<T>(s: seq<T>, key: T -> nat)
    requires SortedBy(s, key)
    ensures SortBy(s, key) == s
  {
    if |s| > 0 {
      assert SortedBy(s[1..], key);
      SortBySortedIsIdentity(s[1..], key);
    }
  }

  /** No two elements of `s` share a key. */
  ghost predicate DistinctKeys<T>(s: seq<T>, key: T -> nat) {
    forall i, j :: 0 <= i < j < |s| ==> key(s[i]) != key(s[j])
  }

  /** Two sorted permutations with distinct keys start with the same element. */
  lemma SortedHeadsEqual<T>(a: seq<T>, b: seq<T>, key: T -> nat)
    requires |a| > 0
    requires SortedBy(a, key) && SortedBy(b, key)
    requires multiset(a) == multiset(b)
    requires DistinctKeys(a, key)
    ensures |b| > 0 && a[0] == b[0]
  {
    assert |b| == |multiset(b)| > 0;
    assert a[0] in multiset(b);
    var j :| 0 <= j < |b| && b[j] == a[0];
    assert b[0] in multiset(a);
    var i :| 0 <= i < |a| && a[i] == b[0];
    assert key(a[0]) <= key(a[i]);
    assert key(b[0]) <= key(b[j]);
  }

  lemma TailsPermutation<T>(a: seq<T>, b: seq<T>)
    requires |a| > 0 && |b| > 0 && a[0] == b[0]
    requires multiset(a) == multiset(b)
    ensures multiset(a[1..]) == multiset(b[1..])
  {
    assert a == [a[0]] + a[1..];
    assert b == [b[0]] + b[1..];
    var ma, mb := multiset(a[1..]), multiset(b[1..]);
    assert multiset(a) == multiset{a[0]} + ma;
    assert multiset(b) == multiset{a[0]} + mb;
    forall x
      ensures ma[x] == mb[x]
    {
      assert multiset(a)[x] == multiset{a[0]}[x] + ma[x];
      assert multiset(b)[x] == multiset{a[0]}[x] + mb[x];
    }
  }

  /** When keys are distinct there is only one sorted arrangement of a
      multiset, so the sort's result is fixed by "sorted permutation". */
  lemma {:induction false} SortedPermutationUnique<T>(a: seq<T>, b: seq<T>, key: T -> nat)
    requires SortedBy(a, key) && SortedBy(b, key)
    requires multiset(a) == multiset(b)
    requires DistinctKeys(a, key)
    ensures a == b
  {
    if |a| == 0 {
      assert |multiset(b)| == 0;
    } else {
      SortedHeadsEqual(a, b, key);
      TailsPermutation(a, b);
      var a', b' := a[1..], b[1..];
      assert SortedBy(a', key) && SortedBy(b', key) && DistinctKeys(a', key);
      SortedPermutationUnique(a', b', key);
      assert a == [a[0]] + a';
      assert b == [b[0]] + b';
    }
  }
}
