/**
 * The reference resolver. A single reference is written `t[k] ? t[k] : null`
 * in the server and is `Get` here (every stored value is an object, so a hit
 * is always truthy). A list of references is written
 * `ids.filter(k => t[k]).map(k => t[k])`: `Hits` is the filter, `LookupAll`
 * the map, `ResolveMany` the two together.
 */
module Resolve {
  import opened Wrappers
  import opened Lookup

  /** `ids.filter(k => t[k])`: the ids that are keys, in input order, duplicates kept. */
  function Hits<T>(t: Table<T>, ids: seq<string>): (r: seq<string>)
    ensures |r| <= |ids|
    ensures forall k :: k in r <==> k in ids && HasKey(t, k)
  {
    if ids == [] then []
    else
      var front, last := ids[..|ids| - 1], ids[|ids| - 1];
      assert ids == front + [last];
      Hits(t, front) + (if HasKey(t, last) then [last] else [])
  }

  /** `.map(k => t[k])` over ids that are all keys. */
  function LookupAll<T>(t: Table<T>, ks: seq<string>): (r: seq<T>)
    requires forall k :: k in ks ==> HasKey(t, k)
    ensures |r| == |ks|
    ensures forall i :: 0 <= i < |ks| ==> Get(t, ks[i]) == Some(r[i])
  {
    seq(|ks|, i requires 0 <= i < |ks| => Get(t, ks[i]).value)
  }

  /** `v` is what the table stores under one of `ids`. */
  ghost predicate StoredUnder<T>(t: Table<T>, ids: seq<string>, v: T) {
    exists k :: k in ids && Get(t, k) == Some(v)
  }

  /** The resolved list: every element is the stored value of some input id. */
  function ResolveMany<T>(t: Table<T>, ids: seq<string>): (r: seq<T>)
    ensures |r| <= |ids|
    ensures forall i :: 0 <= i < |r| ==> StoredUnder(t, ids, r[i])
    ensures ids == [] ==> r == []
  {
    var hits := Hits(t, ids);
    var vals := LookupAll(t, hits);
    forall i | 0 <= i < |vals|
      ensures StoredUnder(t, ids, vals[i])
    {
      var k := hits[i];
      assert k in hits;
      assert k in ids && Get(t, k) == Some(vals[i]);
    }
    vals
  }

  /** The filter distributes over concatenation. */
  lemma {:induction false} HitsAppend<T>(t: Table<T>, a: seq<string>, b: seq<string>)
    ensures Hits(t, a + b) == Hits(t, a) + Hits(t, b)
    decreases |b|
  {
    if b == [] {
      assert a + b == a;
    } else {
      var front, last := b[..|b| - 1], b[|b| - 1];
      assert (a + b)[..|a + b| - 1] == a + front;
      assert (a + b)[|a + b| - 1] == last;
      HitsAppend(t, a, front);
    }
  }

  lemma LookupAllAppend<T>(t: Table<T>, a: seq<string>, b: seq<string>)
    requires forall k :: k in a + b ==> HasKey(t, k)
    ensures LookupAll(t, a + b) == LookupAll(t, a) + LookupAll(t, b)
  {
    assert forall k :: k in a ==> k in a + b;
    assert forall k :: k in b ==> k in a + b;
    var l, la, lb := LookupAll(t, a + b), LookupAll(t, a), LookupAll(t, b);
    forall i | 0 <= i < |l|
      ensures l[i] == (la + lb)[i]
    {
      if i < |a| {
        assert (a + b)[i] == a[i];
      } else {
        assert (a + b)[i] == b[i - |a|];
      }
    }
  }

  /**
   * Resolving a concatenation resolves each part: together with
   * ResolveManySingle this says the output keeps input order and duplicates.
   */
  lemma ResolveManyAppend<T>(t: Table<T>, a: seq<string>, b: seq<string>)
    ensures ResolveMany(t, a + b) == ResolveMany(t, a) + ResolveMany(t, b)
  {
    HitsAppend(t, a, b);
    LookupAllAppend(t, Hits(t, a), Hits(t, b));
  }

  /** One id resolves to its stored value when it is a key, and to nothing otherwise. */
  lemma ResolveManySingle<T>(t: Table<T>, k: string)
    ensures ResolveMany(t, [k]) == if HasKey(t, k) then [Get(t, k).value] else []
  {
    assert [k][..0] == [];
  }

  /** When every id is a key, nothing is dropped and each id maps to its value. */
  lemma {:induction false} ResolveManyAllHits<T>(t: Table<T>, ids: seq<string>)
    requires forall k :: k in ids ==> HasKey(t, k)
    ensures Hits(t, ids) == ids
    ensures |ResolveMany(t, ids)| == |ids|
    ensures forall i :: 0 <= i < |ids| ==> Get(t, ids[i]) == Some(ResolveMany(t, ids)[i])
  {
    if ids != [] {
      var front := ids[..|ids| - 1];
      assert ids == front + [ids[|ids| - 1]];
      ResolveManyAllHits(t, front);
    }
  }

  /** Each id is kept exactly as often as it occurs when it is a key, and never otherwise. */
  lemma {:induction false} HitsCount<T>(t: Table<T>, ids: seq<string>, k: string)
    ensures multiset(Hits(t, ids))[k] == if HasKey(t, k) then multiset(ids)[k] else 0
  {
    if ids != [] {
      var front, last := ids[..|ids| - 1], ids[|ids| - 1];
      assert ids == front + [last];
      HitsCount(t, front, k);
    }
  }

  /** A resolved entry: the value together with the key it was found under. */
  datatype Stored<T> = Stored(key: string, value: T)

  /** The entries that `if (t[k]) result.push(t[k])` appends for each id in turn. */
  function Picked<T>(t: Table<T>, ids: seq<string>): (r: seq<Stored<T>>)
    ensures forall x :: x in r ==> x.key in ids && Get(t, x.key) == Some(x.value)
  {
    if ids == [] then []
    else
      var front, last := ids[..|ids| - 1], ids[|ids| - 1];
      assert ids == front + [last];
      Picked(t, front) + (match Get(t, last) case Some(v) => [Stored(last, v)] case None => [])
  }

  /** The pushed entries are the hits paired with exactly the values ResolveMany lists. */
  lemma {:induction false} PickedIsResolveMany<T>(t: Table<T>, ids: seq<string>)
    ensures |Picked(t, ids)| == |ResolveMany(t, ids)|
    ensures forall i :: 0 <= i < |Picked(t, ids)| ==>
      Picked(t, ids)[i] == Stored(Hits(t, ids)[i], ResolveMany(t, ids)[i])
  {
    if ids != [] {
      var front, last := ids[..|ids| - 1], ids[|ids| - 1];
      assert ids == front + [last];
      PickedIsResolveMany(t, front);
      ResolveManyAppend(t, front, [last]);
      HitsAppend(t, front, [last]);
      ResolveManySingle(t, last);
      assert [last][..0] == [];
    }
  }

  /** An entry is pushed exactly when its key is among the ids and it is the stored entry. */
  lemma {:induction false} PickedMembers<T>(t: Table<T>, ids: seq<string>, x: Stored<T>)
    ensures x in Picked(t, ids) <==> x.key in ids && Get(t, x.key) == Some(x.value)
  {
    if ids != [] {
      var front, last := ids[..|ids| - 1], ids[|ids| - 1];
      assert ids == front + [last];
      PickedMembers(t, front, x);
    }
  }
}
