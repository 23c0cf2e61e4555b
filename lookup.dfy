/**
 * The lookup store: the five static tables the server reads (countries,
 * languages, tags, relations, experiences) and the entities they hold.
 *
 * A table is a parsed JSON value read as a JavaScript object: its own
 * properties in JavaScript's own-property order (integer-like keys first, in
 * ascending numeric order, then the other keys in creation order). `t[k]`
 * looks a property up by key; `Object.values(t)` lists the values in that
 * order. The experiences file is used both as an
 * array (`experiences.filter`) and with `experiences[id]`; both views are the
 * same entries here (for an array the keys are the decimal indices).
 */
module Lookup {
  import opened Wrappers

  datatype Table<T> = Table(entries: seq<(string, T)>)

  /** `k` names a property of the table. */
  predicate HasKey<T>(t: Table<T>, k: string) {
    exists i :: 0 <= i < |t.entries| && t.entries[i].0 == k
  }

  /** A JSON object has each key once. */
  predicate DistinctKeys<T>(t: Table<T>) {
    forall i, j :: 0 <= i < j < |t.entries| ==> t.entries[i].0 != t.entries[j].0
  }

  /** `t[k]`: the stored value, or `undefined` (None) when `k` is not a key. */
  function Get<T>(t: Table<T>, k: string): (r: Option<T>)
    ensures r.Some? <==> HasKey(t, k)
    ensures r.Some? ==> (k, r.value) in t.entries
    decreases |t.entries|
  {
    if |t.entries| == 0 then None
    else if t.entries[0].0 == k then Some(t.entries[0].1)
    else
      var rest := Table(t.entries[1..]);
      assert HasKey(t, k) ==> HasKey(rest, k) by {
        if HasKey(t, k) {
          var i :| 0 <= i < |t.entries| && t.entries[i].0 == k;
          assert rest.entries[i - 1].0 == k;
        }
      }
      Get(rest, k)
  }

  /** With distinct keys, a lookup finds exactly the stored pair. */
  lemma {:induction false} GetExact<T>(t: Table<T>, k: string, v: T)
    requires DistinctKeys(t)
    ensures Get(t, k) == Some(v) <==> (k, v) in t.entries
    decreases |t.entries|
  {
    if |t.entries| > 0 {
      var rest := Table(t.entries[1..]);
      assert DistinctKeys(rest) by {
        forall i, j | 0 <= i < j < |rest.entries|
          ensures rest.entries[i].0 != rest.entries[j].0
        {
          assert rest.entries[i] == t.entries[i + 1] && rest.entries[j] == t.entries[j + 1];
        }
      }
      GetExact(rest, k, v);
      assert t.entries == [t.entries[0]] + rest.entries;
    }
  }

  /** `Object.values(t)`: the stored values in the table's entry (own-property) order. */
  function Values<T>(t: Table<T>): (r: seq<T>)
    ensures |r| == |t.entries|
    ensures forall i :: 0 <= i < |r| ==> r[i] == t.entries[i].1
  {
    seq(|t.entries|, i requires 0 <= i < |t.entries| => t.entries[i].1)
  }

  /** Every listed value is what a lookup of its own key returns. */
  lemma ValuesAreStored<T>(t: Table<T>, i: nat)
    requires DistinctKeys(t) && i < |t.entries|
    ensures Get(t, t.entries[i].0) == Some(Values(t)[i])
  {
    GetExact(t, t.entries[i].0, t.entries[i].1);
  }

  datatype Country = Country(code: string, name: string, emoji: string, flagSource: string)

  /** Display fields of a language, passed through verbatim. */
  datatype Language = Language(id: string, name: string)

  /** Display fields of a tag, passed through verbatim. */
  datatype Tag = Tag(id: string, name: string)

  /** `country`, `languages` and `tags` hold keys of the other tables. */
  datatype Relation = Relation(
    id: string, code: string, name: string, description: string,
    locations: string, imageURL: string,
    country: string, languages: seq<string>, tags: seq<string>)

  /** `language` holds a key of the languages table. */
  datatype Course = Course(name: string, description: string, language: string)

  /** An opaque contact record, passed through verbatim. */
  datatype Contact = Contact(fields: seq<(string, string)>)

  /** `relation` holds a key of the relations table; `tags` keys of the tags table. */
  datatype Experience = Experience(
    id: string, title: string, summary: string, imageURL: string,
    departureDate: string, returnDate: string,
    relation: string, tags: seq<string>, courses: seq<Course>, contact: Contact)

  datatype Store = Store(
    countries: Table<Country>,
    languages: Table<Language>,
    tags: Table<Tag>,
    relations: Table<Relation>,
    experiences: Table<Experience>)
}
