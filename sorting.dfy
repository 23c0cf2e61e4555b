/**
 * `.sort(compareFn)` on a fresh array. ECMAScript requires `Array.prototype.sort`
 * to be stable, so the result is fixed by the keys alone: `SortBy` is the stable
 * insertion sort, `SortInPlace` runs it on an array, and `StableSortIsUnique`
 * shows that any sorted, order-keeping rearrangement equals `SortBy`.
 */
module Sorting {
  import opened Ordering

  /** Ascending by key. */
  ghost predicate Sorted<T>(key: T -> string, s: seq<T>) {
    forall i, j :: 0 <= i < j < |s| ==> StrLessEq(key(s[i]), key(s[j]))
  }

  /** The elements whose key is `k`, in order. */
  function WithKey<T>(key: T -> string, k: string, s: seq<T>): seq<T> {
    if s == [] then []
    else WithKey(key, k, s[..|s| - 1]) + (if key(s[|s| - 1]) == k then [s[|s| - 1]] else [])
  }

  /** Places `x` after every element of `s`, from the right, whose key is not greater. */
  function Insert<T>(key: T -> string, x: T, s: seq<T>): (r: seq<T>)
    ensures |r| == |s| + 1
  {
    if s == [] then [x]
    else if StrLess(key(x), key(s[|s| - 1])) then Insert(key, x, s[..|s| - 1]) + [s[|s| - 1]]
    else s + [x]
  }

  /** Stable ascending sort: inserts the elements one by one, left to right. */
  function SortBy<T>(key: T -> string, s: seq<T>): (r: seq<T>)
    ensures |r| == |s|
  {
    if s == [] then []
    else Insert(key, s[|s| - 1], SortBy(key, s[..|s| - 1]))
  }

  lemma {:induction false} InsertPermutation<T>(key: T -> string, x: T, s: seq<T>)
    ensures multiset(Insert(key, x, s)) == multiset(s) + multiset{x}
  {
    if s != [] && StrLess(key(x), key(s[|s| - 1])) {
      var front := s[..|s| - 1];
      assert s == front + [s[|s| - 1]];
      InsertPermutation(key, x, front);
    }
  }

  /** The sort rearranges its input: it is a permutation. */
  lemma {:induction false} SortByPermutation<T>(key: T -> string, s: seq<T>)
    ensures multiset(SortBy(key, s)) == multiset(s)
  {
    if s != [] {
      var front := s[..|s| - 1];
      assert s == front + [s[|s| - 1]];
      SortByPermutation(key, front);
      InsertPermutation(key, s[|s| - 1], SortBy(key, front));
    }
  }

  lemma {:induction false} InsertSorted<T>(key: T -> string, x: T, s: seq<T>)
    requires Sorted(key, s)
    ensures Sorted(key, Insert(key, x, s))
  {
    if s != [] {
      var front, last := s[..|s| - 1], s[|s| - 1];
      if StrLess(key(x), key(last)) {
        assert Sorted(key, front);
        InsertSorted(key, x, front);
        var ins := Insert(key, x, front);
        InsertPermutation(key, x, front);
        forall i | 0 <= i < |ins|
          ensures StrLessEq(key(ins[i]), key(last))
        {
          assert ins[i] in multiset(ins);
          if ins[i] != x {
            assert ins[i] in front;
          } else {
            StrLessAsymmetric(key(x), key(last));
          }
        }
      } else {
        forall i | 0 <= i < |s|
          ensures StrLessEq(key(s[i]), key(x))
        {
          if i < |s| - 1 {
            StrLessEqTransitive(key(s[i]), key(last), key(x));
          }
        }
      }
    }
  }

  /** The sorted sequence holds exactly the input's elements. */
  lemma SortByMembers<T>(key: T -> string, s: seq<T>)
    ensures forall x :: x in SortBy(key, s) <==> x in s
  {
    SortByPermutation(key, s);
    forall x
      ensures x in SortBy(key, s) <==> x in s
    {
      assert x in SortBy(key, s) <==> x in multiset(SortBy(key, s));
      assert x in s <==> x in multiset(s);
    }
  }

  /** The sort's output is ascending by key. */
  lemma {:induction false} SortBySorted<T>(key: T -> string, s: seq<T>)
    ensures Sorted(key, SortBy(key, s))
  {
    if s != [] {
      SortBySorted(key, s[..|s| - 1]);
      InsertSorted(key, s[|s| - 1], SortBy(key, s[..|s| - 1]));
    }
  }

  lemma {:induction false} WithKeyAppend<T>(key: T -> string, k: string, a: seq<T>, b: seq<T>)
    ensures WithKey(key, k, a + b) == WithKey(key, k, a) + WithKey(key, k, b)
    decreases |b|
  {
    if b == [] {
      assert a + b == a;
    } else {
      var front := b[..|b| - 1];
      assert (a + b)[..|a + b| - 1] == a + front;
      WithKeyAppend(key, k, a, front);
    }
  }

  lemma {:induction false} InsertWithKey<T>(key: T -> string, k: string, x: T, s: seq<T>)
    ensures WithKey(key, k, Insert(key, x, s)) ==
            WithKey(key, k, s) + (if key(x) == k then [x] else [])
  {
    if s == [] {
      assert [x][..0] == [];
    } else {
      var front, last := s[..|s| - 1], s[|s| - 1];
      if StrLess(key(x), key(last)) {
        InsertWithKey(key, k, x, front);
        WithKeyAppend(key, k, Insert(key, x, front), [last]);
        assert [last][..0] == [];
        if key(x) == k { StrLessIrreflexive(k); }
      } else {
        WithKeyAppend(key, k, s, [x]);
        assert [x][..0] == [];
      }
    }
  }

  /** Stability: the elements sharing one key keep their input order. */
  lemma {:induction false} SortByStable<T>(key: T -> string, k: string, s: seq<T>)
    ensures WithKey(key, k, SortBy(key, s)) == WithKey(key, k, s)
  {
    if s != [] {
      SortByStable(key, k, s[..|s| - 1]);
      InsertWithKey(key, k, s[|s| - 1], SortBy(key, s[..|s| - 1]));
    }
  }

  lemma {:induction false} WithKeyAll<T>(key: T -> string, k: string, s: seq<T>)
    requires forall i :: 0 <= i < |s| ==> key(s[i]) == k
    ensures WithKey(key, k, s) == s
  {
    if s != [] {
      WithKeyAll(key, k, s[..|s| - 1]);
    }
  }

  /** When every key is the same, the sort leaves the order unchanged. */
  lemma SortByConstantKey<T>(key: T -> string, k: string, s: seq<T>)
    requires forall i :: 0 <= i < |s| ==> key(s[i]) == k
    ensures SortBy(key, s) == s
  {
    var r := SortBy(key, s);
    SortByPermutation(key, s);
    forall i | 0 <= i < |r|
      ensures key(r[i]) == k
    {
      assert r[i] in multiset(s);
    }
    WithKeyAll(key, k, s);
    WithKeyAll(key, k, r);
    SortByStable(key, k, s);
  }

  lemma {:induction false} WithKeyMember<T>(key: T -> string, k: string, s: seq<T>, x: T)
    ensures x in WithKey(key, k, s) <==> x in s && key(x) == k
  {
    if s != [] {
      var front := s[..|s| - 1];
      assert s == front + [s[|s| - 1]];
      WithKeyMember(key, k, front, x);
    }
  }

  lemma WithKeySnoc<T>(key: T -> string, k: string, f: seq<T>, l: T)
    ensures WithKey(key, k, f + [l]) == WithKey(key, k, f) + (if key(l) == k then [l] else [])
  {
    assert (f + [l])[..|f|] == f;
  }

  lemma SortedLastIsGreatest<T>(key: T -> string, s: seq<T>, i: nat)
    requires Sorted(key, s) && i < |s|
    ensures StrLessEq(key(s[i]), key(s[|s| - 1]))
  {
    StrLessIrreflexive(key(s[i]));
  }

  lemma SameKeysNonEmpty<T>(key: T -> string, r1: seq<T>, r2: seq<T>)
    requires forall k :: WithKey(key, k, r1) == WithKey(key, k, r2)
    requires r2 != []
    ensures r1 != []
  {
    var l := r2[|r2| - 1];
    WithKeyMember(key, key(l), r2, l);
    WithKeyMember(key, key(l), r1, l);
  }

  /** Two sorted sequences with the same elements per key, in the same order, are equal. */
  lemma {:induction false} SortedByKeysEqual<T>(key: T -> string, r1: seq<T>, r2: seq<T>)
    requires Sorted(key, r1) && Sorted(key, r2)
    requires forall k :: WithKey(key, k, r1) == WithKey(key, k, r2)
    ensures r1 == r2
    decreases |r1|
  {
    if r1 == [] {
      if r2 != [] { SameKeysNonEmpty(key, r1, r2); }
    } else {
      SameKeysNonEmpty(key, r2, r1);
      var f1, l1 := r1[..|r1| - 1], r1[|r1| - 1];
      var f2, l2 := r2[..|r2| - 1], r2[|r2| - 1];
      assert r1 == f1 + [l1] && r2 == f2 + [l2];
      var k1, k2 := key(l1), key(l2);
      WithKeyMember(key, k2, r2, l2);
      WithKeyMember(key, k2, r1, l2);
      var i1 :| 0 <= i1 < |r1| && r1[i1] == l2;
      SortedLastIsGreatest(key, r1, i1);
      WithKeyMember(key, k1, r1, l1);
      WithKeyMember(key, k1, r2, l1);
      var i2 :| 0 <= i2 < |r2| && r2[i2] == l1;
      SortedLastIsGreatest(key, r2, i2);
      StrLessEqAntisymmetric(k1, k2);
      forall k
        ensures WithKey(key, k, f1) == WithKey(key, k, f2) && (k == k1 ==> l1 == l2)
      {
        WithKeySnoc(key, k, f1, l1);
        WithKeySnoc(key, k, f2, l2);
        var w := WithKey(key, k, r1);
        assert w == WithKey(key, k, r2);
        if k == k1 {
          assert w[..|w| - 1] == WithKey(key, k, f1) && w[|w| - 1] == l1;
          assert w[..|w| - 1] == WithKey(key, k, f2) && w[|w| - 1] == l2;
        } else {
          assert w == WithKey(key, k, f1);
          assert w == WithKey(key, k, f2);
        }
      }
      assert l1 == l2;
      assert Sorted(key, f1) && Sorted(key, f2);
      SortedByKeysEqual(key, f1, f2);
    }
  }

  /**
   * Any sorted result that keeps the input order within each key is exactly
   * `SortBy`: the model fixes what every stable sort returns.
   */
  lemma StableSortIsUnique<T>(key: T -> string, s: seq<T>, r: seq<T>)
    requires Sorted(key, r)
    requires forall k :: WithKey(key, k, r) == WithKey(key, k, s)
    ensures r == SortBy(key, s)
  {
    SortBySorted(key, s);
    forall k
      ensures WithKey(key, k, r) == WithKey(key, k, SortBy(key, s))
    {
      SortByStable(key, k, s);
    }
    SortedByKeysEqual(key, r, SortBy(key, s));
  }

  /**
   * Insertion sort of the array in place, comparing with `compareFn`: each
   * element is shifted left past the greater keys before it, never past an
   * equal one, so the sort is stable.
   */
  method SortInPlace<T>(a: array<T>, key: T -> string)
    modifies a
    ensures a[..] == SortBy(key, old(a[..]))
  {
    ghost var s := a[..];
    var i := 0;
    while i < a.Length
      invariant 0 <= i <= a.Length
      invariant a[..i] == SortBy(key, s[..i])
      invariant a[i..] == s[i..]
    {
      InsertAt(a, i, key);
      assert s[..i + 1][..i] == s[..i] && s[..i + 1][i] == s[i];
      i := i + 1;
    }
    assert a[..] == a[..a.Length] && s == s[..a.Length];
  }

  /** Moves `a[i]` into place among the `i` elements before it. */
  method InsertAt<T>(a: array<T>, i: nat, key: T -> string)
    requires i < a.Length
    modifies a
    ensures a[..i + 1] == Insert(key, old(a[i]), old(a[..i]))
    ensures a[i + 1..] == old(a[i + 1..])
  {
    var x := a[i];
    ghost var p := a[..i];
    var j := i;
    while j > 0 && Compare(key(x), key(a[j - 1])) < 0
      invariant 0 <= j <= i
      invariant forall k :: 0 <= k < j ==> a[k] == p[k]
      invariant forall k :: j < k <= i ==> a[k] == p[k - 1]
      invariant forall k :: i < k < a.Length ==> a[k] == old(a[k])
      invariant forall k :: j <= k < i ==> StrLess(key(x), key(p[k]))
    {
      a[j] := a[j - 1];
      j := j - 1;
    }
    InsertSplit(key, x, p, j);
    a[j] := x;
    InsertPlaced(a[..i + 1], p, x, j);
    assert a[i + 1..] == old(a[i + 1..]);
  }

  /** Where the shifting stops, `x` belongs: after `p[..j]`, before the greater `p[j..]`. */
  lemma {:induction false} InsertSplit<T>(key: T -> string, x: T, p: seq<T>, j: nat)
    requires j <= |p|
    requires forall k :: j <= k < |p| ==> StrLess(key(x), key(p[k]))
    requires j > 0 ==> !StrLess(key(x), key(p[j - 1]))
    ensures Insert(key, x, p) == p[..j] + [x] + p[j..]
    decreases |p|
  {
    if j < |p| {
      var front := p[..|p| - 1];
      InsertSplit(key, x, front, j);
      assert front[..j] == p[..j] && front[j..] + [p[|p| - 1]] == p[j..];
    }
  }

  lemma InsertPlaced<T>(r: seq<T>, p: seq<T>, x: T, j: nat)
    requires j < |r| == |p| + 1
    requires forall k :: 0 <= k < j ==> r[k] == p[k]
    requires r[j] == x
    requires forall k :: j < k < |r| ==> r[k] == p[k - 1]
    ensures r == p[..j] + [x] + p[j..]
  {
  }
}
