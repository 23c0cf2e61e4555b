/**
 * The route handlers of the server, on an explicit store. Collection routes
 * sort and window a table and then project or aggregate each item; the two
 * single-entity routes answer NotFound with a fixed message on a miss.
 * `Threw` stands for a handler that throws a TypeError by reading a field
 * of a missing relation.
 */
module Routes {
  import opened Wrappers
  import opened Lookup
  import opened Resolve
  import opened Views
  import opened Ordering
  import opened Sorting
  import opened Query
  import opened Aggregate

  datatype Response<T> = Ok(body: T) | NotFound(message: string) | Threw

  /**
   * The relations a listing route works on: sorted by the field, then windowed.
   * The window is in key order and holds only stored values.
   */
  function RelationWindow(s: Store, q: QueryParams): (r: seq<Relation>)
    ensures |r| == Min(Limit(q), Max(0, |s.relations.entries| - Offset(q)))
    ensures Sorted(RelationKey(SortField(q)), r)
    ensures forall x :: x in r ==> x in Values(s.relations)
  {
    var key := RelationKey(SortField(q));
    SortBySorted(key, Values(s.relations));
    WindowOfSorted(key, SortBy(key, Values(s.relations)), Offset(q), Limit(q));
    SortByMembers(key, Values(s.relations));
    Window(SortBy(key, Values(s.relations)), Offset(q), Limit(q))
  }

  function ExperienceWindow(s: Store, q: QueryParams): (r: seq<Experience>)
    ensures |r| == Min(Limit(q), Max(0, |s.experiences.entries| - Offset(q)))
    ensures Sorted(ExperienceKey(SortField(q)), r)
    ensures forall x :: x in r ==> x in Values(s.experiences)
  {
    var key := ExperienceKey(SortField(q));
    SortBySorted(key, Values(s.experiences));
    WindowOfSorted(key, SortBy(key, Values(s.experiences)), Offset(q), Limit(q));
    SortByMembers(key, Values(s.experiences));
    Window(SortBy(key, Values(s.experiences)), Offset(q), Limit(q))
  }

  function CountryWindow(s: Store, q: QueryParams): (r: seq<Country>)
    ensures |r| == Min(Limit(q), Max(0, |s.countries.entries| - Offset(q)))
    ensures Sorted(CountryKey(SortField(q)), r)
    ensures forall x :: x in r ==> x in Values(s.countries)
  {
    var key := CountryKey(SortField(q));
    SortBySorted(key, Values(s.countries));
    WindowOfSorted(key, SortBy(key, Values(s.countries)), Offset(q), Limit(q));
    SortByMembers(key, Values(s.countries));
    Window(SortBy(key, Values(s.countries)), Offset(q), Limit(q))
  }

  /** GET /relations */
  method ListRelations(s: Store, q: QueryParams) returns (body: seq<RelationView>)
    ensures |body| == Min(Limit(q), Max(0, |s.relations.entries| - Offset(q)))
    ensures forall i :: 0 <= i < |body| ==>
      body[i] == ViewRelation(s, SortBy(RelationKey(SortField(q)), Values(s.relations))[Offset(q) + i])
  {
    var key := RelationKey(SortField(q));
    SortByPermutation(key, Values(s.relations));
    var window := Run(Values(s.relations), key, Offset(q), Limit(q));
    ghost var sorted := SortBy(key, Values(s.relations));
    assert forall i :: 0 <= i < |window| ==> window[i] == sorted[Offset(q) + i];
    body := seq(|window|, i requires 0 <= i < |window| => ViewRelation(s, window[i]));
  }

  /** GET /experiences */
  method ListExperiences(s: Store, q: QueryParams) returns (body: seq<ExperienceView>)
    ensures |body| == Min(Limit(q), Max(0, |s.experiences.entries| - Offset(q)))
    ensures forall i :: 0 <= i < |body| ==>
      body[i] == ViewExperience(s, SortBy(ExperienceKey(SortField(q)), Values(s.experiences))[Offset(q) + i])
  {
    var key := ExperienceKey(SortField(q));
    SortByPermutation(key, Values(s.experiences));
    var window := Run(Values(s.experiences), key, Offset(q), Limit(q));
    ghost var sorted := SortBy(key, Values(s.experiences));
    assert forall i :: 0 <= i < |window| ==> window[i] == sorted[Offset(q) + i];
    body := seq(|window|, i requires 0 <= i < |window| => ViewExperience(s, window[i]));
  }

  /** GET /countries: `{code, name, emoji, flagSource}` of each windowed country. */
  method ListCountries(s: Store, q: QueryParams) returns (body: seq<Country>)
    ensures |body| == Min(Limit(q), Max(0, |s.countries.entries| - Offset(q)))
    ensures forall i :: 0 <= i < |body| ==>
      body[i] == SortBy(CountryKey(SortField(q)), Values(s.countries))[Offset(q) + i]
  {
    SortByPermutation(CountryKey(SortField(q)), Values(s.countries));
    var window := Run(Values(s.countries), CountryKey(SortField(q)), Offset(q), Limit(q));
    body := seq(|window|, i requires 0 <= i < |window| =>
      Country(window[i].code, window[i].name, window[i].emoji, window[i].flagSource));
  }

  /** GET /relation/:id */
  function RelationById(s: Store, id: string): (r: Response<RelationView>)
    ensures r.Ok? <==> HasKey(s.relations, id)
    ensures r.Ok? ==> r.body == ViewRelation(s, Get(s.relations, id).value)
    ensures !r.Ok? ==> r == NotFound("Relation not found")
  {
    match Get(s.relations, id)
    case Some(rel) => Ok(ViewRelation(s, rel))
    case None => NotFound("Relation not found")
  }

  /** GET /experience/:id */
  function ExperienceById(s: Store, id: string): (r: Response<ExperienceView>)
    ensures r == NotFound("Experience not found") <==> !HasKey(s.experiences, id)
    ensures r.NotFound? ==> r.message == "Experience not found"
    ensures r.Threw? <==>
      exists e :: Get(s.experiences, id) == Some(e) && !HasKey(s.relations, e.relation)
    ensures r.Ok? ==>
      r.body == ViewExperience(s, Get(s.experiences, id).value) && r.body.relation.Some?
  {
    match Get(s.experiences, id)
    case None => NotFound("Experience not found")
    case Some(e) =>
      match ViewExperienceStrict(s, e)
      case Some(v) => Ok(v)
      case None => Threw
  }

  /** The experiences whose relation is `code`, in order. */
  function WithRelation(es: seq<Experience>, code: string): (r: seq<Experience>)
    ensures |r| <= |es|
    ensures forall i :: 0 <= i < |r| ==> r[i].relation == code && r[i] in es
    ensures forall i :: 0 <= i < |es| && es[i].relation == code ==> es[i] in r
  {
    if es == [] then []
    else
      var front, last := es[..|es| - 1], es[|es| - 1];
      assert es == front + [last];
      WithRelation(front, code) + (if last.relation == code then [last] else [])
  }

  /** The filter distributes over concatenation, so it keeps the input order. */
  lemma {:induction false} WithRelationAppend(a: seq<Experience>, b: seq<Experience>, code: string)
    ensures WithRelation(a + b, code) == WithRelation(a, code) + WithRelation(b, code)
    decreases |b|
  {
    if b == [] {
      assert a + b == a;
    } else {
      assert (a + b)[..|a + b| - 1] == a + b[..|b| - 1];
      WithRelationAppend(a, b[..|b| - 1], code);
    }
  }

  /** Every matching experience is kept as often as it occurs; no other is. */
  lemma {:induction false} WithRelationCount(es: seq<Experience>, code: string, e: Experience)
    ensures multiset(WithRelation(es, code))[e] == if e.relation == code then multiset(es)[e] else 0
  {
    if es != [] {
      var front := es[..|es| - 1];
      assert es == front + [es[|es| - 1]];
      WithRelationCount(front, code, e);
    }
  }

  /** `.map(...)` over the matches, which throws on the first missing relation. */
  function ViewAllOfRelation(s: Store, es: seq<Experience>): (r: Option<seq<ExperienceView>>)
    ensures r.Some? <==> forall i :: 0 <= i < |es| ==> HasKey(s.relations, es[i].relation)
    ensures r.Some? ==> |r.value| == |es|
    ensures r.Some? ==> forall i :: 0 <= i < |es| ==> Some(r.value[i]) == ViewExperienceOfRelation(s, es[i])
  {
    if es == [] then Some([])
    else
      var front, last := es[..|es| - 1], es[|es| - 1];
      assert es == front + [last];
      assert forall i :: 0 <= i < |front| ==> es[i] == front[i];
      match ViewAllOfRelation(s, front)
      case None => None
      case Some(vs) =>
        match ViewExperienceOfRelation(s, last)
        case None =>
          assert !HasKey(s.relations, es[|front|].relation);
          None
        case Some(v) =>
          assert forall i :: 0 <= i < |front| ==> (vs + [v])[i] == vs[i];
          assert (vs + [v])[|front|] == v;
          Some(vs + [v])
  }

  /** GET /relation/:code/experiences */
  function ExperiencesOfRelation(s: Store, code: string): (r: Response<seq<ExperienceView>>)
    ensures !r.NotFound?
    ensures r.Ok? <==> WithRelation(Values(s.experiences), code) == [] || HasKey(s.relations, code)
    ensures r.Ok? ==> |r.body| == |WithRelation(Values(s.experiences), code)|
    ensures r.Ok? ==> forall i :: 0 <= i < |r.body| ==>
      var e := WithRelation(Values(s.experiences), code)[i];
      r.body[i] == ViewExperience(s, e).(courses := Raw(e.courses)) && r.body[i].relation.Some?
  {
    var matching := WithRelation(Values(s.experiences), code);
    match ViewAllOfRelation(s, matching)
    case Some(vs) => Ok(vs)
    case None => Threw
  }

  /** The country slot of each relation of a window, as `.map` builds it. */
  function RelationCountries(s: Store, rs: seq<Relation>): (r: seq<Cell<Country>>)
    ensures |r| == |rs| && forall i :: 0 <= i < |rs| ==> r[i] == CountryOfRelation(s, rs[i])
  {
    seq(|rs|, i requires 0 <= i < |rs| => CountryOfRelation(s, rs[i]))
  }

  function ExperienceCountries(s: Store, es: seq<Experience>): (r: seq<Cell<Country>>)
    ensures |r| == |es| && forall i :: 0 <= i < |es| ==> r[i] == CountryOfExperience(s, es[i])
  {
    seq(|es|, i requires 0 <= i < |es| => CountryOfExperience(s, es[i]))
  }

  /** GET /relations/countries */
  method ListRelationCountries(s: Store, q: QueryParams) returns (body: seq<Cell<Country>>)
    ensures NoDuplicates(body) && Undefined !in body
    ensures forall c :: c in body <==> c in RelationCountries(s, RelationWindow(s, q))
    ensures body == Distinct(RelationCountries(s, RelationWindow(s, q)))
  {
    var window := Run(Values(s.relations), RelationKey(SortField(q)), Offset(q), Limit(q));
    var result := RelationCountries(s, window);
    body := Distinct(result);
    DistinctMembers(result);
  }

  /** GET /experiences/countries */
  method ListExperienceCountries(s: Store, q: QueryParams) returns (body: seq<Cell<Country>>)
    ensures NoDuplicates(body)
    ensures forall c :: c in body <==> c in ExperienceCountries(s, ExperienceWindow(s, q))
    ensures body == Distinct(ExperienceCountries(s, ExperienceWindow(s, q)))
  {
    var window := Run(Values(s.experiences), ExperienceKey(SortField(q)), Offset(q), Limit(q));
    var result := ExperienceCountries(s, window);
    body := Distinct(result);
    DistinctMembers(result);
  }

  /** The tag lists of a window of relations, in window order. */
  function RelationTagLists(rs: seq<Relation>): (r: seq<seq<string>>)
    ensures |r| == |rs| && forall i :: 0 <= i < |rs| ==> r[i] == rs[i].tags
  {
    seq(|rs|, i requires 0 <= i < |rs| => rs[i].tags)
  }

  function ExperienceTagLists(es: seq<Experience>): (r: seq<seq<string>>)
    ensures |r| == |es| && forall i :: 0 <= i < |es| ==> r[i] == es[i].tags
  {
    seq(|es|, i requires 0 <= i < |es| => es[i].tags)
  }

  /** `x` is a stored tag that some entity of the window references. */
  predicate TagOfRelations(s: Store, rs: seq<Relation>, x: Stored<Tag>) {
    Get(s.tags, x.key) == Some(x.value) && exists i :: 0 <= i < |rs| && x.key in rs[i].tags
  }

  predicate TagOfExperiences(s: Store, es: seq<Experience>, x: Stored<Tag>) {
    Get(s.tags, x.key) == Some(x.value) && exists i :: 0 <= i < |es| && x.key in es[i].tags
  }

  lemma RelationTagsGathered(s: Store, rs: seq<Relation>, x: Stored<Tag>)
    ensures x in Gathered(s.tags, RelationTagLists(rs)) <==> TagOfRelations(s, rs, x)
  {
    var lists := RelationTagLists(rs);
    GatheredMembers(s.tags, lists, x);
    if TagOfRelations(s, rs, x) {
      var i :| 0 <= i < |rs| && x.key in rs[i].tags;
      assert x.key in lists[i];
    }
  }

  lemma ExperienceTagsGathered(s: Store, es: seq<Experience>, x: Stored<Tag>)
    ensures x in Gathered(s.tags, ExperienceTagLists(es)) <==> TagOfExperiences(s, es, x)
  {
    var lists := ExperienceTagLists(es);
    GatheredMembers(s.tags, lists, x);
    if TagOfExperiences(s, es, x) {
      var i :| 0 <= i < |es| && x.key in es[i].tags;
      assert x.key in lists[i];
    }
  }

  /** GET /relations/tags */
  method ListRelationTags(s: Store, q: QueryParams) returns (body: seq<Stored<Tag>>)
    ensures NoDuplicates(body)
    ensures forall x :: x in body ==> Get(s.tags, x.key) == Some(x.value)
    ensures forall x :: x in body <==> TagOfRelations(s, RelationWindow(s, q), x)
    ensures body == Distinct(Gathered(s.tags, RelationTagLists(RelationWindow(s, q))))
  {
    var window := Run(Values(s.relations), RelationKey(SortField(q)), Offset(q), Limit(q));
    var result := CollectTags(s.tags, RelationTagLists(window));
    body := Distinct(result);
    DistinctMembers(result);
    forall x
      ensures x in result <==> TagOfRelations(s, window, x)
    {
      RelationTagsGathered(s, window, x);
    }
  }

  /** GET /experiences/tags */
  method ListExperienceTags(s: Store, q: QueryParams) returns (body: seq<Stored<Tag>>)
    ensures NoDuplicates(body)
    ensures forall x :: x in body ==> Get(s.tags, x.key) == Some(x.value)
    ensures forall x :: x in body <==> TagOfExperiences(s, ExperienceWindow(s, q), x)
    ensures body == Distinct(Gathered(s.tags, ExperienceTagLists(ExperienceWindow(s, q))))
  {
    var window := Run(Values(s.experiences), ExperienceKey(SortField(q)), Offset(q), Limit(q));
    var result := CollectTags(s.tags, ExperienceTagLists(window));
    body := Distinct(result);
    DistinctMembers(result);
    forall x
      ensures x in result <==> TagOfExperiences(s, window, x)
    {
      ExperienceTagsGathered(s, window, x);
    }
  }

  /** The relation embedded in an experience view is what `/relation/:id` returns for its key. */
  lemma EmbeddedRelationIsRelationRoute(s: Store, e: Experience)
    ensures ViewExperience(s, e).relation.Some? <==> RelationById(s, e.relation).Ok?
    ensures ViewExperience(s, e).relation.Some? ==>
      ViewExperience(s, e).relation.value == RelationById(s, e.relation).body
  {
  }

  /**
   * Experiences have no `name` field, so under the default sort every key is
   * equal and `/experiences` lists them in storage order.
   */
  lemma DefaultExperienceOrder(s: Store, q: QueryParams)
    requires SortField(q) == "name"
    ensures ExperienceWindow(s, q) == Window(Values(s.experiences), Offset(q), Limit(q))
  {
    SortByConstantKey(ExperienceKey("name"), "", Values(s.experiences));
  }

  /** Three relations named B, A, C, sorted by name, offset 1, limit 1: only B. */
  lemma SortedWindowExample()
    ensures
      var rb := Relation("rb", "", "B", "", "", "", "", [], []);
      var ra := Relation("ra", "", "A", "", "", "", "", [], []);
      var rc := Relation("rc", "", "C", "", "", "", "", [], []);
      var s := Store(Table([]), Table([]), Table([]), Table([("rb", rb), ("ra", ra), ("rc", rc)]), Table([]));
      RelationWindow(s, QueryParams(Some(1), Some(1), Some("name"))) == [rb]
  {
    var rb := Relation("rb", "", "B", "", "", "", "", [], []);
    var ra := Relation("ra", "", "A", "", "", "", "", [], []);
    var rc := Relation("rc", "", "C", "", "", "", "", [], []);
    var key := RelationKey("name");
    assert key(ra) == "A" && key(rb) == "B" && key(rc) == "C";
    assert StrLess("A", "B") && !StrLess("C", "A") && !StrLess("C", "B") && !StrLess("B", "A");
    var vals := [rb, ra, rc];
    assert vals[..1] == [rb] && vals[..2] == [rb, ra] && vals[..2][..1] == [rb] && vals[..3] == vals;
    assert SortBy(key, [rb]) == [rb];
    assert [rb][..0] == [];
    assert Insert(key, ra, []) == [ra];
    assert Insert(key, ra, [rb]) == [ra, rb];
    assert SortBy(key, [rb, ra]) == [ra, rb];
    assert Insert(key, rc, [ra, rb]) == [ra, rb, rc];
    assert SortBy(key, vals) == [ra, rb, rc];
    var s := Store(Table([]), Table([]), Table([]), Table([("rb", rb), ("ra", ra), ("rc", rc)]), Table([]));
    var q := QueryParams(Some(1), Some(1), Some("name"));
    assert Values(s.relations) == vals;
    assert SortField(q) == "name" && Offset(q) == 1 && Limit(q) == 1;
    assert Window([ra, rb, rc], 1, 1) == [rb];
  }
}
