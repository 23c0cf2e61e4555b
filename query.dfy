/**
 * The collection query every listing route runs:
 * `Object.values(t).sort(compareFn).slice(offset, offset + limit)`,
 * with `offset`, `limit` and `sort` taken from the query string.
 */
module Query {
  import opened Wrappers
  import opened Lookup
  import opened Ordering
  import opened Sorting

  /**
   * The query string: None stands for a parameter that is absent or empty
   * (falsy), which falls back to the default.
   */
  datatype QueryParams = QueryParams(offset: Option<nat>, limit: Option<nat>, sort: Option<string>)

  /** `offset ? parseInt(offset) : 0`. */
  function Offset(q: QueryParams): (n: nat)
    ensures q.offset.None? ==> n == 0
    ensures q.offset.Some? ==> n == q.offset.value
  {
    match q.offset
    case Some(n) => n
    case None => 0
  }

  /** `limit ? parseInt(limit) : 10`. */
  function Limit(q: QueryParams): (n: nat)
    ensures q.limit.None? ==> n == 10
    ensures q.limit.Some? ==> n == q.limit.value
  {
    match q.limit
    case Some(n) => n
    case None => 10
  }

  /** `req.query.sort ? req.query.sort : "name"`: the empty string is falsy too. */
  function SortField(q: QueryParams): (f: string)
    ensures f != ""
    ensures q.sort.Some? && q.sort.value != "" ==> f == q.sort.value
    ensures q.sort.None? || q.sort.value == "" ==> f == "name"
  {
    match q.sort
    case Some(s) => if s != "" then s else "name"
    case None => "name"
  }

  /** The fields a relation holds as strings. */
  const RelationStringFields: set<string> :=
    {"id", "code", "name", "description", "locations", "imageURL", "country"}

  /** The fields an experience holds as strings (it has no `name`). */
  const ExperienceStringFields: set<string> :=
    {"id", "title", "summary", "imageURL", "departure_date", "return_date", "relation"}

  /** The fields a country holds. */
  const CountryStringFields: set<string> := {"code", "name", "emoji", "flagSource"}

  /** `a[field]` for a relation; None for a field it does not have as a string. */
  function RelationField(field: string, r: Relation): (v: Option<string>)
    ensures v.Some? <==> field in RelationStringFields
    ensures field == "name" ==> v == Some(r.name)
    ensures field == "code" ==> v == Some(r.code)
  {
    match field
    case "id" => Some(r.id)
    case "code" => Some(r.code)
    case "name" => Some(r.name)
    case "description" => Some(r.description)
    case "locations" => Some(r.locations)
    case "imageURL" => Some(r.imageURL)
    case "country" => Some(r.country)
    case _ => None
  }

  /** `a[field]` for an experience; None for a field it does not have as a string. */
  function ExperienceField(field: string, e: Experience): (v: Option<string>)
    ensures v.Some? <==> field in ExperienceStringFields
    ensures field == "name" ==> v.None?
    ensures field == "title" ==> v == Some(e.title)
  {
    match field
    case "id" => Some(e.id)
    case "title" => Some(e.title)
    case "summary" => Some(e.summary)
    case "imageURL" => Some(e.imageURL)
    case "departure_date" => Some(e.departureDate)
    case "return_date" => Some(e.returnDate)
    case "relation" => Some(e.relation)
    case _ => None
  }

  /** `a[field]` for a country. */
  function CountryField(field: string, c: Country): (v: Option<string>)
    ensures v.Some? <==> field in CountryStringFields
    ensures field == "name" ==> v == Some(c.name)
    ensures field == "code" ==> v == Some(c.code)
  {
    match field
    case "code" => Some(c.code)
    case "name" => Some(c.name)
    case "emoji" => Some(c.emoji)
    case "flagSource" => Some(c.flagSource)
    case _ => None
  }

  function RelationKey(field: string): Relation -> string {
    r => FieldKey(RelationField(field, r))
  }

  function ExperienceKey(field: string): Experience -> string {
    e => FieldKey(ExperienceField(field, e))
  }

  function CountryKey(field: string): Country -> string {
    c => FieldKey(CountryField(field, c))
  }

  /**
   * Whether a field is present depends on its name only, so `compareFn` over
   * the field agrees with the comparison of the sort keys.
   */
  lemma RelationKeyIsCompareFn(field: string, a: Relation, b: Relation)
    ensures CompareFields(RelationField(field, a), RelationField(field, b))
         == Compare(RelationKey(field)(a), RelationKey(field)(b))
  {
    CompareFieldsByKey(RelationField(field, a), RelationField(field, b));
  }

  lemma ExperienceKeyIsCompareFn(field: string, a: Experience, b: Experience)
    ensures CompareFields(ExperienceField(field, a), ExperienceField(field, b))
         == Compare(ExperienceKey(field)(a), ExperienceKey(field)(b))
  {
    CompareFieldsByKey(ExperienceField(field, a), ExperienceField(field, b));
  }

  lemma CountryKeyIsCompareFn(field: string, a: Country, b: Country)
    ensures CompareFields(CountryField(field, a), CountryField(field, b))
         == Compare(CountryKey(field)(a), CountryKey(field)(b))
  {
    CompareFieldsByKey(CountryField(field, a), CountryField(field, b));
  }

  function Min(a: int, b: int): int { if a <= b then a else b }
  function Max(a: int, b: int): int { if a <= b then b else a }

  /** `s.slice(offset, offset + limit)` for natural offset and limit. */
  function Window<T>(s: seq<T>, offset: nat, limit: nat): (r: seq<T>)
    ensures |r| == Min(limit, Max(0, |s| - offset))
    ensures forall i :: 0 <= i < |r| ==> r[i] == s[offset + i]
  {
    s[Min(offset, |s|)..Min(offset + limit, |s|)]
  }

  /** An empty limit or an offset at or past the end selects nothing. */
  lemma WindowEmpty<T>(s: seq<T>, offset: nat, limit: nat)
    requires limit == 0 || offset >= |s|
    ensures Window(s, offset, limit) == []
  {
  }

  /** A window starting at 0 that reaches the end is the whole sequence. */
  lemma WindowAll<T>(s: seq<T>, limit: nat)
    requires limit >= |s|
    ensures Window(s, 0, limit) == s
  {
  }

  /** A window that runs past the end holds everything from the offset on. */
  lemma WindowTail<T>(s: seq<T>, offset: nat, limit: nat)
    requires offset + limit >= |s|
    ensures Window(s, offset, limit) == if offset <= |s| then s[offset..] else []
  {
  }

  /** A window of a sorted sequence is sorted, and holds only elements of the sequence. */
  lemma WindowOfSorted<T>(key: T -> string, s: seq<T>, offset: nat, limit: nat)
    requires Sorted(key, s)
    ensures Sorted(key, Window(s, offset, limit))
    ensures forall x :: x in Window(s, offset, limit) ==> x in s
  {
    var r := Window(s, offset, limit);
    forall x | x in r
      ensures x in s
    {
      var i :| 0 <= i < |r| && r[i] == x;
      assert s[offset + i] == x;
    }
  }

  /** Copies the items into a fresh array, sorts it in place and slices the result. */
  method Run<T>(items: seq<T>, key: T -> string, offset: nat, limit: nat) returns (r: seq<T>)
    ensures r == Window(SortBy(key, items), offset, limit)
  {
    var a := new T[|items|](i requires 0 <= i < |items| => items[i]);
    assert a[..] == items;
    SortInPlace(a, key);
    r := Window(a[..], offset, limit);
  }
}
