# Denormalising travel-data API: a Dafny model

This project models the core of a small read-only HTTP API, `src/server.ts`. The API serves travel
"relations" (partner organisations) and "experiences" (exchange programmes), plus the countries,
languages and tags those reference. Every route reads five static lookup tables. It expands the
string references into embedded objects (denormalisation) and drops or nulls the ones that do not
resolve. Listing routes sort with a three-way `compareFn` and take an `offset`/`limit` window. The
"distinct" routes deduplicate with `[...new Set(result)]`.

The modules follow the server's pieces:

- `Lookup` (lookup.dfy): the tables and the entities. A table is a JSON object's own properties in
  JavaScript's own-property order: integer-like keys first, in ascending numeric order, then the
  other keys in creation order. `Get` is `t[k]` and `Values` is `Object.values(t)`.
- `Resolve` (resolve.dfy): single references (`t[k] ? t[k] : null`) and reference lists
  (`ids.filter(k => t[k]).map(k => t[k])`). It also defines the entries the tag routes `push`.
- `Ordering` (ordering.dfy): JavaScript string `<`, and `compareFn` over field values that may be
  `undefined`.
- `Sorting` (sorting.dfy): the stable sort. `SortBy` is its functional specification. `SortInPlace`
  is an insertion sort on an array, proved equal to `SortBy`. `StableSortIsUnique` proves that every
  stable sort gives the same result.
- `Query` (query.dfy): query-string defaults, the field accessor of each entity kind, the `slice`
  window, and `Run`. `Run` copies the values into a fresh array, sorts it in place and slices it.
- `Views` (views.dfy): the relation, course and experience projections, including the two variants
  that read the relation without a check.
- `Aggregate` (aggregate.dfy): `Set` deduplication, the country cells (`null`, `undefined` or a
  stored country), and the nested push loop of the tag routes.
- `Routes` (routes.dfy): the ten handlers.

Modelling decisions:

- **Deduplication and the raw courses follow the server's code.**
  - Deduplication is by object identity (a JavaScript `Set`), not by structural equality. Every
    deduplicated object comes out of a table, so its identity is the key it is stored under.
    Aggregated values therefore carry that key (`Stored`, `Cell.Found`). Two field-identical
    entries under different keys stay apart.
  - `/relation/:code/experiences` passes `courses` through unprojected (`CourseList.Raw`).
- **Reading a missing relation's fields throws.** `/experience/:id` and
  `/relation/:code/experiences` read `relations[experience.relation].id` without a check, which
  throws a TypeError when the relation is missing. This is modelled as an explicit outcome
  (`Response.Threw`, or `None` from the strict views), not as a precondition. `/experiences` and
  `/experiences/countries` check, and give `null`.
- **Line 262 has two missing values.** It gives `null` when the relation is missing and `undefined`
  when the relation is found but its country is not. They are the separate constructors `Null` and
  `Undefined`, and the `Set` keeps them apart.
- **Sorting uses one string key per field.** A sort field is dispatched per entity kind to a string
  field, or to "absent" (`undefined`). Presence depends on the field name only. So `compareFn`
  agrees with comparing string keys where an absent field has the constant key `""`
  (`RelationKeyIsCompareFn` and its siblings). With the default field `name`, experiences, which
  have no `name`, keep their storage order (`DefaultExperienceOrder`).
- **The experiences file is used both as an array and through keyed lookup.** The code calls
  `experiences.filter` and also reads `experiences[id]`. Both read the same table here. For an
  array, the keys are the decimal indices.
- **The tables are parameters.** The five tables are one `Store` value passed to every handler.
  Offset, limit and sort come in as `QueryParams`, where an absent or empty parameter takes the
  default: 0, 10 and `"name"`.

## Model

| member | source | states |
|---|---|---|
| `Lookup.Get` | src/server.ts:44 | `t[k]` finds a value exactly when `k` is a key, and the value is stored under `k` |
| `Lookup.GetExact` | src/server.ts:99 | with distinct keys, a lookup gives `v` exactly when `(k, v)` is a stored entry |
| `Lookup.Values` | src/server.ts:36 | `Object.values` lists one value per entry, in the table's entry (own-property) order |
| `Lookup.ValuesAreStored` | src/server.ts:36 | each listed value is what a lookup of its own key returns |
| `Resolve.Hits` | src/server.ts:45 | the filter keeps exactly the ids that are keys and is no longer than its input |
| `Resolve.LookupAll` | src/server.ts:45 | the map gives, for each hit id, its stored value, in the same order |
| `Resolve.ResolveMany` | src/server.ts:45-46 | a resolved list is no longer than its input, every element is the stored value of an input id, and an empty input gives an empty output |
| `Resolve.HitsAppend` | src/server.ts:45 | the filter distributes over concatenation |
| `Resolve.LookupAllAppend` | src/server.ts:45 | the map distributes over concatenation |
| `Resolve.ResolveManyAppend` | src/server.ts:45-46 | resolving `a + b` is resolving `a`, then `b`: input order and duplicates are kept |
| `Resolve.ResolveManySingle` | src/server.ts:83 | one id resolves to its stored value if it is a key, otherwise to nothing |
| `Resolve.ResolveManyAllHits` | src/server.ts:45-46 | when every id is a key nothing is dropped and element `i` is the value of id `i` |
| `Resolve.HitsCount` | src/server.ts:45 | each key is kept exactly as often as it occurs; a non-key never is |
| `Resolve.Picked` | src/server.ts:240-244 | every pushed entry is a stored entry whose key is among the ids |
| `Resolve.PickedIsResolveMany` | src/server.ts:240-244 | the pushed entries are the hits paired with exactly the values the view's reference list holds |
| `Resolve.PickedMembers` | src/server.ts:240-244 | an entry is pushed exactly when its key is among the ids and it is the stored entry |
| `Ordering.StrLess` | src/server.ts:31-32 | JavaScript `<` on two strings: a proper prefix sorts first, and a smaller first character decides |
| `Ordering.FieldLess` | src/server.ts:31-32 | `<` on two field values is false when either is `undefined`, otherwise string `<`, and never holds both ways |
| `Ordering.StrLessIrreflexive` | src/server.ts:31-32 | no string is below itself |
| `Ordering.StrLessTransitive` | src/server.ts:31-32 | string `<` is transitive |
| `Ordering.StrLessAsymmetric` | src/server.ts:31-32 | `a < b` excludes `b < a` |
| `Ordering.StrLessTotal` | src/server.ts:31-32 | two different strings are ordered one way or the other |
| `Ordering.StrLessEqTransitive` | src/server.ts:31-32 | not-greater is transitive |
| `Ordering.StrLessEqAntisymmetric` | src/server.ts:31-32 | keys not greater than each other are equal |
| `Ordering.Compare` | src/server.ts:30-34 | the three-way result is -1, 0 or 1, negative exactly when `a < b`, positive exactly when `b < a`, zero exactly when equal |
| `Ordering.CompareFields` | src/server.ts:30-34 | `compareFn` gives 0 whenever a field is `undefined`, otherwise the three-way comparison |
| `Ordering.CompareFieldsByKey` | src/server.ts:30-34 | with both fields present or both absent, `compareFn` equals the comparison of their keys |
| `Query.Offset` | src/server.ts:26 | the offset is the query's when given, 0 otherwise |
| `Query.Limit` | src/server.ts:27 | the limit is the query's when given, 10 otherwise |
| `Query.SortField` | src/server.ts:28 | the sort field is the query's when non-empty, `"name"` otherwise, never empty |
| `Query.RelationField` | src/server.ts:31 | `a[compareField]` on a relation is defined exactly for its seven string fields; `name` and `code` give those fields |
| `Query.ExperienceField` | src/server.ts:58 | `a[compareField]` on an experience is defined exactly for its seven string fields; `name` is `undefined`, `title` gives the title |
| `Query.CountryField` | src/server.ts:194 | `a[compareField]` on a country is defined exactly for its four fields; `name` and `code` give those fields |
| `Query.RelationKeyIsCompareFn` | src/server.ts:30-34 | sorting relations by the key is sorting them with `compareFn` |
| `Query.ExperienceKeyIsCompareFn` | src/server.ts:57-61 | sorting experiences by the key is sorting them with `compareFn` |
| `Query.CountryKeyIsCompareFn` | src/server.ts:193-197 | sorting countries by the key is sorting them with `compareFn` |
| `Sorting.Insert` | src/server.ts:36 | one insertion adds exactly one element |
| `Sorting.SortBy` | src/server.ts:36 | the sort keeps the length |
| `Sorting.InsertPermutation` | src/server.ts:36 | insertion adds `x` to the multiset and nothing else |
| `Sorting.SortByPermutation` | src/server.ts:36 | the sorted sequence is a permutation of the input |
| `Sorting.InsertSorted` | src/server.ts:36 | insertion into a sorted sequence keeps it sorted |
| `Sorting.SortByMembers` | src/server.ts:36 | a value is in the sorted sequence exactly when it is in the input |
| `Sorting.SortBySorted` | src/server.ts:36 | the sorted sequence is ascending by key |
| `Sorting.WithKeyAppend` | src/server.ts:36 | selecting one key distributes over concatenation |
| `Sorting.InsertWithKey` | src/server.ts:36 | insertion puts `x` after every element with the same key |
| `Sorting.SortByStable` | src/server.ts:36 | elements with equal keys keep their input order |
| `Sorting.WithKeyAll` | src/server.ts:36 | when every key is `k`, selecting `k` keeps everything |
| `Sorting.SortByConstantKey` | src/server.ts:63 | when all keys are equal the order is unchanged |
| `Sorting.WithKeyMember` | src/server.ts:36 | an element is selected for `k` exactly when it occurs and has key `k` |
| `Sorting.SortedByKeysEqual` | src/server.ts:36 | two sorted sequences that agree key by key are equal |
| `Sorting.StableSortIsUnique` | src/server.ts:36 | any sorted rearrangement that keeps the order within each key equals `SortBy` |
| `Sorting.SortInPlace` | src/server.ts:36 | the array sorted in place holds exactly `SortBy` of its old contents |
| `Sorting.InsertAt` | src/server.ts:36 | shifting `a[i]` left past greater keys leaves the first `i + 1` cells as the insertion of `a[i]`, and the rest unchanged |
| `Sorting.InsertSplit` | src/server.ts:36 | insertion places `x` after the prefix it is not below and before the greater suffix |
| `Query.Window` | src/server.ts:36 | `slice(offset, offset + limit)` has length `min(limit, max(0, n - offset))` and element `i` is element `offset + i` |
| `Query.WindowEmpty` | src/server.ts:36 | `limit = 0` or `offset >= n` gives `[]` |
| `Query.WindowAll` | src/server.ts:36 | offset 0 with a limit covering the input keeps everything |
| `Query.WindowTail` | src/server.ts:36 | a window running past the end keeps everything from the offset |
| `Query.WindowOfSorted` | src/server.ts:36 | a slice of a sorted sequence is sorted and holds only elements of the sequence |
| `Query.Run` | src/server.ts:36 | copying into a fresh array, sorting it in place and slicing gives the window of `SortBy` |
| `Views.ViewRelation` | src/server.ts:36-48 | the six scalar fields are copied; `country` is present exactly when its key is, and is the stored one; `languages` and `tags` are the resolved reference lists (`ResolveMany`, whose order, multiplicity and membership lemmas then describe them) |
| `Views.ViewCourse` | src/server.ts:84-90 | `name` and `description` are copied; `language` is present exactly when its key is, and is the stored one |
| `Views.ViewCourses` | src/server.ts:84-90 | one course view per course, in the same order |
| `Views.ViewExperience` | src/server.ts:63-93 | `id`, `title`, `summary`, `imageURL`, the two dates and `contact` are copied; `relation` is null exactly when the relation key misses, otherwise the relation view of the stored relation; `tags` is the resolved tag list; `courses` is one course view per course, in order |
| `Views.ViewExperienceStrict` | src/server.ts:154-180 | throws exactly when the relation key misses; otherwise equals the listing's view, with a non-null relation |
| `Views.ViewExperienceOfRelation` | src/server.ts:122-145 | throws exactly when the relation key misses; otherwise equals the listing's view with raw courses |
| `Views.ViewRelationComplete` | src/server.ts:45-46 | fully resolvable reference lists lose nothing: language `i` and tag `i` are the stored values of reference `i` |
| `Views.ViewRelationExample` | src/server.ts:38-46 | a known country and language resolve and an unknown tag is dropped |
| `Aggregate.Distinct` | src/server.ts:224 | the result has no duplicates and has exactly the input's elements |
| `Aggregate.DistinctMembers` | src/server.ts:224 | a value is in the result exactly when it is in the input |
| `Aggregate.DistinctFirstOccurrenceOrder` | src/server.ts:224 | the kept values are in the order of their first occurrences |
| `Aggregate.DistinctOfDistinct` | src/server.ts:224 | a duplicate-free input is returned unchanged |
| `Aggregate.DistinctIdempotent` | src/server.ts:224 | deduplicating twice changes nothing |
| `Aggregate.CountryOfRelation` | src/server.ts:222 | never `undefined`; `null` exactly when the country key misses; otherwise the stored country under that key |
| `Aggregate.CountryOfExperience` | src/server.ts:262 | `null` exactly when the relation misses, `undefined` exactly when the relation is found but its country is not, otherwise that stored country |
| `Aggregate.Gathered` | src/server.ts:238-246 | every collected entry is a stored tag under its key |
| `Aggregate.GatheredMembers` | src/server.ts:238-246 | an entry is collected exactly when it is stored and one of the lists names its key |
| `Aggregate.CollectTags` | src/server.ts:238-246 | the nested push loop builds exactly `Gathered`, and everything pushed is a stored tag |
| `Routes.RelationWindow` | src/server.ts:36 | `Object.values(relations).sort(compareFn).slice(...)` has the window's length, is in key order, and holds only stored relations |
| `Routes.ExperienceWindow` | src/server.ts:63 | the same for experiences |
| `Routes.CountryWindow` | src/server.ts:199 | the same for countries |
| `Routes.ListRelations` | src/server.ts:25-50 | the body has the window's length and item `i` is the view of sorted relation `offset + i` |
| `Routes.ListExperiences` | src/server.ts:52-95 | the body has the window's length and item `i` is the view of sorted experience `offset + i` |
| `Routes.ListCountries` | src/server.ts:187-208 | the body has the window's length and item `i` is sorted country `offset + i` |
| `Routes.RelationById` | src/server.ts:97-115 | found exactly when the id is a key, with the view of the stored relation; otherwise NotFound "Relation not found" |
| `Routes.ExperienceById` | src/server.ts:150-185 | NotFound "Experience not found" exactly when the id misses; throws exactly when the stored experience's relation misses; otherwise the listing's view |
| `Routes.WithRelation` | src/server.ts:120-122 | every kept experience has `relation == code` and every matching one is kept |
| `Routes.WithRelationAppend` | src/server.ts:120-122 | the filter distributes over concatenation, keeping input order |
| `Routes.WithRelationCount` | src/server.ts:120-122 | each matching experience is kept as often as it occurs; no other is |
| `Routes.ViewAllOfRelation` | src/server.ts:122-145 | the map succeeds exactly when every relation key resolves, with one view per experience |
| `Routes.ExperiencesOfRelation` | src/server.ts:117-148 | never NotFound; succeeds exactly when nothing matches or `code` is a relation key; item `i` is the view of matching experience `i` with raw courses |
| `Routes.RelationCountries` | src/server.ts:221-223 | one country cell per windowed relation |
| `Routes.ExperienceCountries` | src/server.ts:261-263 | one country cell per windowed experience |
| `Routes.ListRelationCountries` | src/server.ts:210-225 | no duplicates, never `undefined`, exactly the cells of the window, in first-occurrence order |
| `Routes.ListExperienceCountries` | src/server.ts:250-265 | no duplicates, exactly the cells of the window, in first-occurrence order |
| `Routes.RelationTagLists` | src/server.ts:239-240 | one tag list per windowed relation |
| `Routes.ExperienceTagLists` | src/server.ts:279-280 | one tag list per windowed experience |
| `Routes.RelationTagsGathered` | src/server.ts:238-246 | a tag is collected exactly when it is stored and some windowed relation references it |
| `Routes.ExperienceTagsGathered` | src/server.ts:277-286 | a tag is collected exactly when it is stored and some windowed experience references it |
| `Routes.ListRelationTags` | src/server.ts:227-248 | no duplicates; exactly the stored tags referenced by the windowed relations, in first-occurrence order |
| `Routes.ListExperienceTags` | src/server.ts:267-288 | no duplicates; exactly the stored tags referenced by the windowed experiences, in first-occurrence order |
| `Routes.EmbeddedRelationIsRelationRoute` | src/server.ts:71-82 | the relation embedded in an experience is what `/relation/:id` returns for its key |
| `Routes.DefaultExperienceOrder` | src/server.ts:55-63 | when the sort field is `name` (given, absent or empty), experiences keep their storage order |
| `Routes.SortedWindowExample` | src/server.ts:30-36 | relations B, A, C sorted by name with offset 1 and limit 1 give only B |

## Left out

- HTTP plumbing. This covers Express and CORS setup, the `/` greeting, port binding and the
  `listen` log line (src/server.ts:1-23, 292-295). What Express does with a thrown TypeError (a 500
  response) is outside the model. The model stops at `Threw`.
- Loading of the JSON files and the unused `express` import (src/server.ts:4-9). The tables are
  the `Store` parameter.
- `parseInt` of query strings. Offset and limit are natural numbers, `None` when absent or empty.
  `NaN` and negative offsets or limits, and JavaScript `slice` behaviour for them, are not modelled.
- Sorting by `languages`, `tags` or `courses`. JavaScript converts each array to the comma-joined
  `String(...)` of its elements and compares those strings, which is a consistent order. The model
  does not reproduce it. It treats these fields as absent, so such a sort keeps storage order.
- `contact` is an object and becomes `"[object Object]"` on every entity, so a sort by it ties
  everywhere, as modelled.
- A field that some entities have and others lack is compared through `undefined`, which is not a
  consistent order. The model treats a field as present or absent per entity kind, never per
  entity.
- JavaScript compares strings by UTF-16 code units. The model compares characters, and the two
  orders differ only for characters outside the Basic Multilingual Plane.
- Keys that are not own entries but that `t[k]` still finds. These include names inherited from
  `Object.prototype` (`toString`, `constructor`, and so on) on every table. On the experiences
  array they also include `length` and the `Array.prototype` methods such as `filter`. `Get` sees
  only the table's own entries. So `Routes.ExperienceById` answers "Experience not found" for
  `/experience/length`, where the server finds a truthy value and then throws reading its relation
  (src/server.ts:152-162).
- Computing the own-property order from a JSON file's text. JavaScript moves integer-like keys to
  the front, in ascending numeric order. A `Table` is taken to list its entries already in that
  order, so `Values` and every stable-sort tie follow that order, not the file's.
- Duplicate keys in a JSON file. `JSON.parse` keeps the last value for a repeated key, but `Get`
  returns the first entry. `DistinctKeys` states when that
  entry is the only one.
- `res.json` serialisation. For example, `undefined` inside an array is written as `null`, so the
  `Undefined` cell may appear on the wire as `null`.
- The display fields of languages and tags, `locations`, and `contact` are passed through verbatim.
  Languages and tags are modelled as `id`/`name` pairs, `locations` as a string and `contact` as a
  list of string pairs. The country projection of `/countries` copies exactly the four fields a
  `Country` has here, so it is the identity.
