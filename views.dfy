/**
 * The view projector: the denormalised shapes the routes return, with every
 * reference replaced by the entity it names. A scalar reference that misses
 * becomes `null` (None); a list reference that misses is dropped.
 */
module Views {
  import opened Wrappers
  import opened Lookup
  import opened Resolve

  datatype RelationView = RelationView(
    id: string, code: string, name: string, description: string,
    locations: string, imageURL: string,
    country: Option<Country>, languages: seq<Language>, tags: seq<Tag>)

  datatype CourseView = CourseView(name: string, description: string, language: Option<Language>)

  /** Projected courses, or the stored courses passed through unchanged. */
  datatype CourseList = Projected(views: seq<CourseView>) | Raw(courses: seq<Course>)

  datatype ExperienceView = ExperienceView(
    id: string, title: string, summary: string, imageURL: string,
    departureDate: string, returnDate: string,
    relation: Option<RelationView>, tags: seq<Tag>, courses: CourseList, contact: Contact)

  /** The relation view of the listing route and of `/relation/:id`. */
  function ViewRelation(s: Store, r: Relation): (v: RelationView)
    ensures v.id == r.id && v.code == r.code && v.name == r.name
    ensures v.description == r.description && v.locations == r.locations && v.imageURL == r.imageURL
    ensures v.country.Some? <==> HasKey(s.countries, r.country)
    ensures v.country.Some? ==> (r.country, v.country.value) in s.countries.entries
    ensures v.languages == ResolveMany(s.languages, r.languages)
    ensures v.tags == ResolveMany(s.tags, r.tags)
  {
    RelationView(
      r.id, r.code, r.name, r.description, r.locations, r.imageURL,
      Get(s.countries, r.country),
      ResolveMany(s.languages, r.languages),
      ResolveMany(s.tags, r.tags))
  }

  function ViewCourse(s: Store, c: Course): (v: CourseView)
    ensures v.name == c.name && v.description == c.description
    ensures v.language.Some? <==> HasKey(s.languages, c.language)
    ensures v.language.Some? ==> (c.language, v.language.value) in s.languages.entries
  {
    CourseView(c.name, c.description, Get(s.languages, c.language))
  }

  /** `experience.courses.map(...)`: one view per course, same order. */
  function ViewCourses(s: Store, cs: seq<Course>): (vs: seq<CourseView>)
    ensures |vs| == |cs|
    ensures forall i :: 0 <= i < |cs| ==> vs[i] == ViewCourse(s, cs[i])
  {
    seq(|cs|, i requires 0 <= i < |cs| => ViewCourse(s, cs[i]))
  }

  /** The experience view of the listing: a missing relation gives `relation: null`. */
  function ViewExperience(s: Store, e: Experience): (v: ExperienceView)
    ensures v.relation.Some? <==> HasKey(s.relations, e.relation)
    ensures v.relation.Some? ==> v.relation.value == ViewRelation(s, Get(s.relations, e.relation).value)
    ensures v.id == e.id && v.title == e.title && v.summary == e.summary && v.imageURL == e.imageURL
    ensures v.departureDate == e.departureDate && v.returnDate == e.returnDate
    ensures v.tags == ResolveMany(s.tags, e.tags)
    ensures v.courses == Projected(ViewCourses(s, e.courses))
    ensures v.contact == e.contact
  {
    ExperienceView(
      e.id, e.title, e.summary, e.imageURL, e.departureDate, e.returnDate,
      match Get(s.relations, e.relation)
      case Some(r) => Some(ViewRelation(s, r))
      case None => None,
      ResolveMany(s.tags, e.tags),
      Projected(ViewCourses(s, e.courses)),
      e.contact)
  }

  /**
   * The experience view of `/experience/:id`, which reads
   * `relations[experience.relation].id` without a check: None when that
   * throws, otherwise the listing's view.
   */
  function ViewExperienceStrict(s: Store, e: Experience): (v: Option<ExperienceView>)
    ensures v.Some? <==> HasKey(s.relations, e.relation)
    ensures v.Some? ==> v.value == ViewExperience(s, e) && v.value.relation.Some?
  {
    match Get(s.relations, e.relation)
    case None => None
    case Some(_) => Some(ViewExperience(s, e))
  }

  /**
   * The experience view of `/relation/:code/experiences`: the relation is read
   * without a check (None when that throws) and the courses are passed through
   * unprojected.
   */
  function ViewExperienceOfRelation(s: Store, e: Experience): (v: Option<ExperienceView>)
    ensures v.Some? <==> HasKey(s.relations, e.relation)
    ensures v.Some? ==> v.value == ViewExperience(s, e).(courses := Raw(e.courses))
  {
    match Get(s.relations, e.relation)
    case None => None
    case Some(_) => Some(ViewExperience(s, e).(courses := Raw(e.courses)))
  }

  /** A reference list that fully resolves keeps its length: nothing is dropped. */
  lemma ViewRelationComplete(s: Store, r: Relation)
    requires forall k :: k in r.languages ==> HasKey(s.languages, k)
    requires forall k :: k in r.tags ==> HasKey(s.tags, k)
    ensures |ViewRelation(s, r).languages| == |r.languages|
    ensures |ViewRelation(s, r).tags| == |r.tags|
    ensures forall i :: 0 <= i < |r.languages| ==>
      Get(s.languages, r.languages[i]) == Some(ViewRelation(s, r).languages[i])
    ensures forall i :: 0 <= i < |r.tags| ==> Get(s.tags, r.tags[i]) == Some(ViewRelation(s, r).tags[i])
  {
    ResolveManyAllHits(s.languages, r.languages);
    ResolveManyAllHits(s.tags, r.tags);
  }

  /** The denormalisation scenario: a known country and language resolve, an unknown tag is dropped. */
  lemma ViewRelationExample()
    ensures
      var fr := Country("FR", "France", "", "");
      var en := Language("en", "English");
      var s := Store(Table([("FR", fr)]), Table([("en", en)]), Table([]), Table([]), Table([]));
      var r1 := Relation("r1", "ABC", "", "", "", "", "FR", ["en"], ["bad-tag"]);
      var v := ViewRelation(s, r1);
      v.country == Some(fr) && v.languages == [en] && v.tags == []
  {
    var fr := Country("FR", "France", "", "");
    var en := Language("en", "English");
    var countries: Table<Country> := Table([("FR", fr)]);
    var langs: Table<Language> := Table([("en", en)]);
    var none: Table<Tag> := Table([]);
    assert countries.entries[0].0 == "FR" && langs.entries[0].0 == "en";
    assert Get(countries, "FR") == Some(fr);
    ResolveManySingle(langs, "en");
    ResolveManySingle(none, "bad-tag");
  }
}
