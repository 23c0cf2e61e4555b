/**
 * The set aggregator: `[...new Set(result)]` keeps the first occurrence of
 * each value, in order. A JavaScript `Set` compares objects by identity; every
 * object here comes out of a table, so its identity is the key it was stored
 * under, which is why the values carry their key (`Stored`, `Cell`).
 */
module Aggregate {
  import opened Wrappers
  import opened Lookup
  import opened Resolve

  predicate NoDuplicates<T(==)>(s: seq<T>) {
    forall i, j :: 0 <= i < j < |s| ==> s[i] != s[j]
  }

  /** `[...new Set(xs)]`. */
  function Distinct<T(==)>(xs: seq<T>): (r: seq<T>)
    ensures NoDuplicates(r)
    ensures forall i :: 0 <= i < |r| ==> r[i] in xs
    ensures forall i :: 0 <= i < |xs| ==> xs[i] in r
    ensures |r| <= |xs|
  {
    if xs == [] then []
    else
      var front, last := xs[..|xs| - 1], xs[|xs| - 1];
      assert xs == front + [last];
      var d := Distinct(front);
      if last in d then d else d + [last]
  }

  /** The position of the first occurrence of `x`. */
  function FirstIndex<T(==)>(xs: seq<T>, x: T): (i: nat)
    requires x in xs
    ensures i < |xs| && xs[i] == x
    ensures forall j :: 0 <= j < i ==> xs[j] != x
  {
    if xs[0] == x then 0 else 1 + FirstIndex(xs[1..], x)
  }

  lemma {:induction false} FirstIndexSnoc<T>(xs: seq<T>, y: T, x: T)
    requires x in xs
    ensures FirstIndex(xs + [y], x) == FirstIndex(xs, x)
  {
    if xs[0] != x {
      assert (xs + [y])[1..] == xs[1..] + [y];
      FirstIndexSnoc(xs[1..], y, x);
    }
  }

  /** The kept values appear in the order of their first occurrences. */
  lemma {:induction false} DistinctFirstOccurrenceOrder<T>(xs: seq<T>)
    ensures forall i, j :: 0 <= i < j < |Distinct(xs)| ==>
      FirstIndex(xs, Distinct(xs)[i]) < FirstIndex(xs, Distinct(xs)[j])
  {
    if xs != [] {
      var front, last := xs[..|xs| - 1], xs[|xs| - 1];
      assert xs == front + [last];
      DistinctFirstOccurrenceOrder(front);
      var d, r := Distinct(front), Distinct(xs);
      forall x | x in d
        ensures FirstIndex(xs, x) == FirstIndex(front, x)
      {
        FirstIndexSnoc(front, last, x);
      }
      if last !in d {
        assert FirstIndex(xs, last) == |front|;
      }
    }
  }

  lemma DistinctMembers<T>(xs: seq<T>)
    ensures forall x :: x in Distinct(xs) <==> x in xs
  {
    var d := Distinct(xs);
    forall x | x in xs
      ensures x in d
    {
      var i :| 0 <= i < |xs| && xs[i] == x;
    }
  }

  /** Without duplicates there is nothing to remove. */
  lemma {:induction false} DistinctOfDistinct<T>(xs: seq<T>)
    requires NoDuplicates(xs)
    ensures Distinct(xs) == xs
  {
    if xs != [] {
      var front := xs[..|xs| - 1];
      assert NoDuplicates(front);
      DistinctOfDistinct(front);
    }
  }

  /** Deduplicating twice is deduplicating once. */
  lemma DistinctIdempotent<T>(xs: seq<T>)
    ensures Distinct(Distinct(xs)) == Distinct(xs)
  {
    DistinctOfDistinct(Distinct(xs));
  }

  /** A country slot of an aggregate: `null`, `undefined`, or a stored country. */
  datatype Cell<T> = Null | Undefined | Found(entry: Stored<T>)

  /** `countries[relation.country] ? countries[relation.country] : null`. */
  function CountryOfRelation(s: Store, r: Relation): (c: Cell<Country>)
    ensures c != Undefined
    ensures c == Null <==> !HasKey(s.countries, r.country)
    ensures c.Found? ==> c.entry.key == r.country && Get(s.countries, r.country) == Some(c.entry.value)
  {
    match Get(s.countries, r.country)
    case Some(v) => Found(Stored(r.country, v))
    case None => Null
  }

  /**
   * `relations[experience.relation] ? countries[relations[experience.relation].country] : null`:
   * `null` when the relation is missing, `undefined` when its country is.
   */
  function CountryOfExperience(s: Store, e: Experience): (c: Cell<Country>)
    ensures c == Null <==> !HasKey(s.relations, e.relation)
    ensures c == Undefined <==>
      exists r :: Get(s.relations, e.relation) == Some(r) && !HasKey(s.countries, r.country)
    ensures c.Found? ==>
      exists r :: Get(s.relations, e.relation) == Some(r) && c.entry.key == r.country &&
        Get(s.countries, r.country) == Some(c.entry.value)
  {
    match Get(s.relations, e.relation)
    case None => Null
    case Some(r) =>
      match Get(s.countries, r.country)
      case Some(v) => Found(Stored(r.country, v))
      case None => Undefined
  }

  /** The entries `result.push` collects over a list of tag lists. */
  function Gathered<T>(t: Table<T>, lists: seq<seq<string>>): (r: seq<Stored<T>>)
    ensures forall x :: x in r ==> Get(t, x.key) == Some(x.value)
  {
    if lists == [] then []
    else Gathered(t, lists[..|lists| - 1]) + Picked(t, lists[|lists| - 1])
  }

  /** A stored entry is gathered exactly when one of the lists names its key. */
  lemma {:induction false} GatheredMembers<T>(t: Table<T>, lists: seq<seq<string>>, x: Stored<T>)
    ensures x in Gathered(t, lists) <==>
      Get(t, x.key) == Some(x.value) && exists i :: 0 <= i < |lists| && x.key in lists[i]
  {
    if lists != [] {
      var front, last := lists[..|lists| - 1], lists[|lists| - 1];
      GatheredMembers(t, front, x);
      PickedMembers(t, last, x);
      if x.key in last {
        assert lists[|lists| - 1] == last;
      }
      if exists i :: 0 <= i < |lists| && x.key in lists[i] {
        var i :| 0 <= i < |lists| && x.key in lists[i];
        if i < |front| { assert front[i] == lists[i]; }
      }
    }
  }

  /**
   * The nested `forEach` of the tag routes: for every list and every key in
   * it, push the stored tag when the key is in the table.
   */
  method CollectTags(tags: Table<Tag>, lists: seq<seq<string>>) returns (result: seq<Stored<Tag>>)
    ensures result == Gathered(tags, lists)
    ensures forall x :: x in result ==> Get(tags, x.key) == Some(x.value)
  {
    result := [];
    for i := 0 to |lists|
      invariant result == Gathered(tags, lists[..i])
    {
      var ids := lists[i];
      for j := 0 to |ids|
        invariant result == Gathered(tags, lists[..i]) + Picked(tags, ids[..j])
      {
        var k := ids[j];
        assert ids[..j + 1][..j] == ids[..j];
        match Get(tags, k) {
          case Some(v) => result := result + [Stored(k, v)];
          case None =>
        }
      }
      assert lists[..i + 1][..i] == lists[..i] && ids[..|ids|] == ids;
    }
    assert lists[..|lists|] == lists;
  }
}
