/** The shared casting store: an in-memory list of casting records with
    add (fresh id = current maximum id + 1), merge-style partial update by id,
    and delete by id. */
module CastingContext {
  import opened Wrappers
  import opened Seqs

  /** A casting call. The optional fields of the record are Options. */
  datatype Casting = Casting(
    id: int,
    title: string,
    production: string,
    castingType: string,
    category: string,
    location: string,
    deadline: string,
    description: string,
    requirements: seq<string>,
    compensation: string,
    status: Option<string>,
    applications: Option<int>,
    views: Option<int>,
    createdAt: Option<string>,
    ageMin: Option<string>,
    ageMax: Option<string>,
    gender: Option<string>,
    experience: Option<string>,
    languages: Option<seq<string>>,
    specialSkills: Option<seq<string>>)

  /** A `Partial<Casting>`: each field is either absent (None) or a new value. */
  datatype CastingPatch = CastingPatch(
    id: Option<int>,
    title: Option<string>,
    production: Option<string>,
    castingType: Option<string>,
    category: Option<string>,
    location: Option<string>,
    deadline: Option<string>,
    description: Option<string>,
    requirements: Option<seq<string>>,
    compensation: Option<string>,
    status: Option<string>,
    applications: Option<int>,
    views: Option<int>,
    createdAt: Option<string>,
    ageMin: Option<string>,
    ageMax: Option<string>,
    gender: Option<string>,
    experience: Option<string>,
    languages: Option<seq<string>>,
    specialSkills: Option<seq<string>>)

  const EmptyPatch := CastingPatch(None, None, None, None, None, None, None, None, None, None,
                                   None, None, None, None, None, None, None, None, None, None)

  /** Choose the patch's value when present. */
  function Pick<T>(old_: T, patch: Option<T>): T
  {
    match patch
    case Some(v) => v
    case None => old_
  }

  /** Choose the patch's value for an optional field. */
  function PickOpt<T>(old_: Option<T>, patch: Option<T>): Option<T>
  {
    if patch.Some? then patch else old_
  }

  /** `{ ...c, ...p }`: the fields present in p overwrite those of c. */
  function Merge(c: Casting, p: CastingPatch): Casting
  {
    Casting(
      Pick(c.id, p.id), Pick(c.title, p.title), Pick(c.production, p.production),
      Pick(c.castingType, p.castingType), Pick(c.category, p.category), Pick(c.location, p.location),
      Pick(c.deadline, p.deadline), Pick(c.description, p.description),
      Pick(c.requirements, p.requirements), Pick(c.compensation, p.compensation),
      PickOpt(c.status, p.status), PickOpt(c.applications, p.applications), PickOpt(c.views, p.views),
      PickOpt(c.createdAt, p.createdAt), PickOpt(c.ageMin, p.ageMin), PickOpt(c.ageMax, p.ageMax),
      PickOpt(c.gender, p.gender), PickOpt(c.experience, p.experience),
      PickOpt(c.languages, p.languages), PickOpt(c.specialSkills, p.specialSkills))
  }

  /** `{ ...p, ...q }` on two patches: a field of q wins over the same field of p. */
  function Combine(p: CastingPatch, q: CastingPatch): CastingPatch
  {
    CastingPatch(
      PickOpt(p.id, q.id), PickOpt(p.title, q.title), PickOpt(p.production, q.production),
      PickOpt(p.castingType, q.castingType), PickOpt(p.category, q.category), PickOpt(p.location, q.location),
      PickOpt(p.deadline, q.deadline), PickOpt(p.description, q.description),
      PickOpt(p.requirements, q.requirements), PickOpt(p.compensation, q.compensation),
      PickOpt(p.status, q.status), PickOpt(p.applications, q.applications), PickOpt(p.views, q.views),
      PickOpt(p.createdAt, q.createdAt), PickOpt(p.ageMin, q.ageMin), PickOpt(p.ageMax, q.ageMax),
      PickOpt(p.gender, q.gender), PickOpt(p.experience, q.experience),
      PickOpt(p.languages, q.languages), PickOpt(p.specialSkills, q.specialSkills))
  }

  /** `Math.max(...castings.map(c => c.id), 0)`. */
  function MaxId(castings: seq<Casting>): (m: int)
    ensures m >= 0
    ensures forall i :: 0 <= i < |castings| ==> castings[i].id <= m
    ensures m == 0 || exists i :: 0 <= i < |castings| && castings[i].id == m
  {
    if castings == [] then 0
    else
      var rest := MaxId(castings[1..]);
      if castings[0].id > rest then castings[0].id else rest
  }

  /** The id `addCasting` gives the next record. */
  function NextId(castings: seq<Casting>): int
  {
    MaxId(castings) + 1
  }

  /** `prev.map(c => c.id === id ? { ...c, ...p } : c)`. */
  function Updated(castings: seq<Casting>, id: int, p: CastingPatch): seq<Casting>
  {
    if castings == [] then []
    else [if castings[0].id == id then Merge(castings[0], p) else castings[0]] + Updated(castings[1..], id, p)
  }

  /** `prev.filter(c => c.id !== id)`. */
  function Deleted(castings: seq<Casting>, id: int): seq<Casting>
  {
    Filter(castings, (c: Casting) => c.id != id)
  }

  /** Ids are pairwise distinct, so every lookup by id is unambiguous. */
  ghost predicate DistinctIds(castings: seq<Casting>)
  {
    forall i, j :: 0 <= i < j < |castings| ==> castings[i].id != castings[j].id
  }

  function Ids(castings: seq<Casting>): (r: seq<int>)
    ensures |r| == |castings| && forall i :: 0 <= i < |castings| ==> r[i] == castings[i].id
  {
    seq(|castings|, i requires 0 <= i < |castings| => castings[i].id)
  }

  // ---- addCasting ----

  /** The new id is strictly greater than every id currently stored, and it is 1 for an empty list. */
  lemma NextIdFresh(castings: seq<Casting>)
    ensures forall i :: 0 <= i < |castings| ==> castings[i].id < NextId(castings)
    ensures NextId(castings) >= 1
    ensures castings == [] ==> NextId(castings) == 1
  {
  }

  /** Adding keeps the ids distinct. */
  lemma AddKeepsIdsDistinct(castings: seq<Casting>, draft: Casting)
    requires DistinctIds(castings)
    ensures DistinctIds(castings + [draft.(id := NextId(castings))])
  {
    var r := castings + [draft.(id := NextId(castings))];
    forall i, j | 0 <= i < j < |r| ensures r[i].id != r[j].id {
      if j == |castings| {
        NextIdFresh(castings);
      }
    }
  }

  /** The id is the current maximum plus one, not the largest ever issued: adding a record
      and deleting it again makes the next add issue the same id once more. */
  lemma {:induction false} DeletedMaxIsReissued(castings: seq<Casting>, draft: Casting)
    ensures var added := castings + [draft.(id := NextId(castings))];
      NextId(Deleted(added, NextId(castings))) == NextId(castings)
  {
    var n := NextId(castings);
    var added := castings + [draft.(id := n)];
    FilterAppend(castings, [draft.(id := n)], (c: Casting) => c.id != n);
    NextIdFresh(castings);
    FilterAll(castings, (c: Casting) => c.id != n);
    assert Filter([draft.(id := n)], (c: Casting) => c.id != n) == [];
    assert Deleted(added, n) == castings;
  }

  // ---- updateCasting ----

  /** Update keeps the length, rewrites exactly the records with the id by merging the patch,
      and leaves every other record untouched and in place. */
  lemma {:induction false} UpdatedAt(castings: seq<Casting>, id: int, p: CastingPatch)
    ensures |Updated(castings, id, p)| == |castings|
    ensures forall i :: 0 <= i < |castings| ==>
      Updated(castings, id, p)[i] == if castings[i].id == id then Merge(castings[i], p) else castings[i]
  {
    if castings != [] {
      UpdatedAt(castings[1..], id, p);
    }
  }

  /** On a matching record the fields named in the patch take its values and the others
      keep theirs; an empty patch changes nothing and applying a patch twice is the same as once. */
  lemma MergeFields(c: Casting, p: CastingPatch)
    ensures Merge(c, p).title == (if p.title.Some? then p.title.value else c.title)
    ensures Merge(c, p).id == (if p.id.Some? then p.id.value else c.id)
    ensures Merge(c, p).status == (if p.status.Some? then p.status else c.status)
    ensures Merge(c, EmptyPatch) == c
    ensures Merge(Merge(c, p), p) == Merge(c, p)
  {
  }

  /** Two successive updates of one record equal one update with the combined patch. */
  lemma MergeCombine(c: Casting, p: CastingPatch, q: CastingPatch)
    ensures Merge(Merge(c, p), q) == Merge(c, Combine(p, q))
  {
  }

  /** Updating an id no record carries leaves the list identical. */
  lemma {:induction false} UpdateAbsent(castings: seq<Casting>, id: int, p: CastingPatch)
    requires forall i :: 0 <= i < |castings| ==> castings[i].id != id
    ensures Updated(castings, id, p) == castings
  {
    if castings != [] {
      UpdateAbsent(castings[1..], id, p);
    }
  }

  /** A patch that does not rewrite the id keeps the ids distinct. */
  lemma UpdateKeepsIdsDistinct(castings: seq<Casting>, id: int, p: CastingPatch)
    requires DistinctIds(castings) && p.id.None?
    ensures DistinctIds(Updated(castings, id, p))
  {
    UpdatedAt(castings, id, p);
  }

  // ---- deleteCasting ----

  /** After delete no record has the id; the survivors are exactly the other records,
      in their original relative order. */
  lemma DeleteSpec(castings: seq<Casting>, id: int)
    ensures forall c :: c in Deleted(castings, id) ==> c.id != id
    ensures forall c :: c in castings && c.id != id ==> c in Deleted(castings, id)
    ensures IsSubsequence(Deleted(castings, id), castings)
    ensures forall c :: multiset(Deleted(castings, id))[c] == (if c.id == id then 0 else multiset(castings)[c])
  {
    FilterIsSubsequence(castings, (c: Casting) => c.id != id);
    forall c | c in castings && c.id != id ensures c in Deleted(castings, id) {
      FilterMembership(castings, (c: Casting) => c.id != id, c);
    }
    forall c ensures multiset(Deleted(castings, id))[c] == (if c.id == id then 0 else multiset(castings)[c]) {
      FilterCount(castings, (c: Casting) => c.id != id, c);
    }
  }

  /** Deleting an id no record carries leaves the list identical. */
  lemma DeleteAbsent(castings: seq<Casting>, id: int)
    requires forall i :: 0 <= i < |castings| ==> castings[i].id != id
    ensures Deleted(castings, id) == castings
  {
    FilterAll(castings, (c: Casting) => c.id != id);
  }

  /** Deleting keeps the ids distinct. */
  lemma DeleteKeepsIdsDistinct(castings: seq<Casting>, id: int)
    requires DistinctIds(castings)
    ensures DistinctIds(Deleted(castings, id))
  {
    assert NoDuplicates(Ids(castings));
    DeletedIds(castings, id);
    FilterNoDuplicates(Ids(castings), (x: int) => x != id);
    var d := Deleted(castings, id);
    assert Ids(d) == Filter(Ids(castings), (x: int) => x != id);
    assert NoDuplicates(Ids(d));
  }

  /** The ids of the survivors are the surviving ids. */
  lemma {:induction false} DeletedIds(castings: seq<Casting>, id: int)
    ensures Ids(Deleted(castings, id)) == Filter(Ids(castings), (x: int) => x != id)
  {
    if castings != [] {
      var rest := castings[1..];
      DeletedIds(rest, id);
      IdsCons(castings[0], rest);
      assert castings == [castings[0]] + rest;
      if castings[0].id != id {
        assert Deleted(castings, id) == [castings[0]] + Deleted(rest, id);
        IdsCons(castings[0], Deleted(rest, id));
      } else {
        assert Deleted(castings, id) == Deleted(rest, id);
      }
    }
  }

  lemma IdsCons(c: Casting, rest: seq<Casting>)
    ensures Ids([c] + rest) == [c.id] + Ids(rest)
  {
  }

  /** Once an id is deleted, updating it is a no-op. */
  lemma UpdateAfterDelete(castings: seq<Casting>, id: int, p: CastingPatch)
    ensures Updated(Deleted(castings, id), id, p) == Deleted(castings, id)
  {
    var d := Deleted(castings, id);
    forall i | 0 <= i < |d| ensures d[i].id != id {
      FilterMembership(castings, (c: Casting) => c.id != id, d[i]);
    }
    UpdateAbsent(d, id, p);
  }

  // ---- the seed ----
  // Long texts are written as concatenations of shorter literals.

  function InitialCastings(): seq<Casting>
  {
    [
      Casting(1, "Lead Role - " + "Historical Drama Series", "Carthage Productions", "TV Series", "tv", "Tunis",
        "2024-08-15",
        "Seeking male actor, " + "25-35 years old, " + "for lead role " + "in historical drama series " + "about ancient Carthage.",
        ["Professional acting " + "experience", "Fluent in Arabic " + "and French", "Available for 6 months"],
        "Professional rate", Some("Actif"), Some(45), Some(320), Some("2024-01-10"),
        None, None, None, None, None, None),
      Casting(2, "Supporting Actress - " + "Romantic Comedy", "Sidi Bou Said Films", "Feature Film", "film",
        "Sidi Bou Said", "2024-08-20",
        "Looking for talented actress, " + "20-30 years old, " + "for supporting role " + "in romantic comedy.",
        ["Acting experience " + "preferred", "Comfortable " + "with comedy", "Available for 2 months"],
        "Competitive pay", Some("Actif"), Some(32), Some(180), Some("2024-01-12"),
        None, None, None, None, None, None),
      Casting(3, "Ensemble Cast - " + "Modern Theater", "National Theater " + "of Tunisia", "Theater", "theater", "Tunis",
        "2024-08-25",
        "Multiple roles available " + "for contemporary theater " + "production exploring " + "modern Tunisian society.",
        ["Theater experience " + "required", "Strong stage presence", "Available " + "for rehearsals"],
        "Theater standard", Some("Actif"), Some(28), Some(95), Some("2024-01-15"),
        None, None, None, None, None, None),
      Casting(4, "Commercial Models - " + "Fashion Brand", "Medina Fashion House", "Commercial", "commercial", "Sousse",
        "2024-08-10",
        "Seeking diverse models " + "for upcoming fashion campaign " + "featuring traditional " + "and modern styles.",
        ["Modeling experience", "Height 170cm+", "Professional portfolio"],
        "Day rate + usage", Some("Actif"), Some(67), Some(245), Some("2024-01-08"),
        None, None, None, None, None, None)
    ]
  }

  /** The seed's ids are 1 to 4, so the first add issues 5. */
  lemma InitialCastingsIds()
    ensures DistinctIds(InitialCastings())
    ensures NextId(InitialCastings()) == 5
  {
    var cs := InitialCastings();
    assert |cs| == 4 && cs[0].id == 1 && cs[1].id == 2 && cs[2].id == 3 && cs[3].id == 4;
    IdsOneToFour(cs);
  }

  lemma IdsOneToFour(cs: seq<Casting>)
    requires |cs| == 4 && cs[0].id == 1 && cs[1].id == 2 && cs[2].id == 3 && cs[3].id == 4
    ensures DistinctIds(cs) && NextId(cs) == 5
  {
  }

  /** The provider's state: the current list of castings. */
  class CastingStore {
    var castings: seq<Casting>

    constructor ()
      ensures castings == InitialCastings() && DistinctIds(castings)
    {
      var seed := InitialCastings();
      InitialCastingsIds();
      castings := seed;
    }

    /** `addCasting`: append the draft under the next id (the draft's own id is ignored). */
    method AddCasting(draft: Casting) returns (id: int)
      modifies this
      ensures id == NextId(old(castings)) && id >= 1
      ensures forall i :: 0 <= i < |old(castings)| ==> old(castings)[i].id < id
      ensures castings == old(castings) + [draft.(id := id)]
      ensures old(DistinctIds(castings)) ==> DistinctIds(castings)
    {
      id := NextId(castings);
      NextIdFresh(castings);
      if DistinctIds(castings) {
        AddKeepsIdsDistinct(castings, draft);
      }
      castings := castings + [draft.(id := id)];
    }

    /** `updateCasting`: merge the patch into every record with the id. */
    method UpdateCasting(id: int, p: CastingPatch)
      modifies this
      ensures castings == Updated(old(castings), id, p)
      ensures |castings| == |old(castings)|
      ensures forall i :: 0 <= i < |castings| ==>
        castings[i] == if old(castings)[i].id == id then Merge(old(castings)[i], p) else old(castings)[i]
      ensures old(DistinctIds(castings)) && p.id.None? ==> DistinctIds(castings)
    {
      UpdatedAt(castings, id, p);
      if DistinctIds(castings) && p.id.None? {
        UpdateKeepsIdsDistinct(castings, id, p);
      }
      castings := Updated(castings, id, p);
    }

    /** `deleteCasting`: drop every record with the id. */
    method DeleteCasting(id: int)
      modifies this
      ensures castings == Deleted(old(castings), id)
      ensures forall c :: c in castings ==> c.id != id
      ensures IsSubsequence(castings, old(castings))
      ensures old(DistinctIds(castings)) ==> DistinctIds(castings)
    {
      DeleteSpec(castings, id);
      if DistinctIds(castings) {
        DeleteKeepsIdsDistinct(castings, id);
      }
      castings := Deleted(castings, id);
    }
  }
}
