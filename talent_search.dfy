/** The talent search page: a multi-criteria filter over the talent list, the favourites
    toggle and the filter reset. */
module TalentSearch {
  import opened Seqs
  import opened Text

  /** The fields of a talent profile that the page filters on. */
  datatype Talent = Talent(
    id: int,
    name: string,
    age: int,
    city: string,
    talentType: string,
    experience: string,
    bio: string,
    availability: string)

  /** `ageRange` is the pair [ageLow, ageHigh]. */
  datatype TalentFilters = TalentFilters(
    search: string,
    talentType: string,
    city: string,
    ageLow: int,
    ageHigh: int,
    experience: string,
    gender: string,
    availability: bool)

  const DefaultFilters := TalentFilters("", "", "", 18, 50, "", "", false)

  predicate MatchesSearch(t: Talent, f: TalentFilters)
  {
    Contains(Lower(t.name), Lower(f.search)) || Contains(Lower(t.bio), Lower(f.search))
  }

  /** The criteria other than the search and the age. An empty criterion is a wildcard. */
  predicate MatchesChoices(t: Talent, f: TalentFilters)
  {
    (f.talentType == "" || t.talentType == f.talentType) &&
    (f.city == "" || t.city == f.city) &&
    (f.experience == "" || t.experience == f.experience) &&
    (!f.availability || t.availability == "Disponible")
  }

  predicate InAgeRange(t: Talent, f: TalentFilters)
  {
    t.age >= f.ageLow && t.age <= f.ageHigh
  }

  predicate Kept(t: Talent, f: TalentFilters)
  {
    MatchesSearch(t, f) && MatchesChoices(t, f) && InAgeRange(t, f)
  }

  /** `filteredTalents`. */
  function FilteredTalents(talents: seq<Talent>, f: TalentFilters): seq<Talent>
  {
    Filter(talents, (t: Talent) => Kept(t, f))
  }

  /** The result is an order-preserving subsequence holding exactly the matching talents;
      each of them is within the age range, bounds included, and is available when the
      availability box is ticked. */
  lemma FilteredTalentsSpec(talents: seq<Talent>, f: TalentFilters)
    ensures IsSubsequence(FilteredTalents(talents, f), talents)
    ensures forall t :: t in FilteredTalents(talents, f) <==> t in talents && Kept(t, f)
    ensures forall t :: t in FilteredTalents(talents, f) ==> f.ageLow <= t.age <= f.ageHigh
    ensures f.availability ==> forall t :: t in FilteredTalents(talents, f) ==> t.availability == "Disponible"
    ensures forall t :: multiset(FilteredTalents(talents, f))[t] == (if Kept(t, f) then multiset(talents)[t] else 0)
  {
    FilterIsSubsequence(talents, (t: Talent) => Kept(t, f));
    forall t
      ensures t in FilteredTalents(talents, f) <==> t in talents && Kept(t, f)
      ensures multiset(FilteredTalents(talents, f))[t] == (if Kept(t, f) then multiset(talents)[t] else 0)
    {
      FilterMembership(talents, (t: Talent) => Kept(t, f), t);
      FilterCount(talents, (t: Talent) => Kept(t, f), t);
    }
  }

  /** With empty search, type, city and experience and the availability box clear, only the
      age range filters, and it keeps both of its end points. */
  lemma WildcardsKeepAgeRange(talents: seq<Talent>, f: TalentFilters)
    requires f.search == "" && f.talentType == "" && f.city == "" && f.experience == "" && !f.availability
    ensures FilteredTalents(talents, f) == Filter(talents, (t: Talent) => f.ageLow <= t.age <= f.ageHigh)
  {
    forall i | 0 <= i < |talents| ensures Kept(talents[i], f) == (f.ageLow <= talents[i].age <= f.ageHigh) {
      ContainsEmpty(Lower(talents[i].name));
    }
    FilterCongruence(talents, (t: Talent) => Kept(t, f), (t: Talent) => f.ageLow <= t.age <= f.ageHigh);
  }

  /** The gender filter has no effect on the result. */
  lemma GenderIgnored(talents: seq<Talent>, f: TalentFilters, gender: string)
    ensures FilteredTalents(talents, f.(gender := gender)) == FilteredTalents(talents, f)
  {
    var g := f.(gender := gender);
    assert forall i :: 0 <= i < |talents| ==> Kept(talents[i], g) == Kept(talents[i], f);
    FilterCongruence(talents, (t: Talent) => Kept(t, g), (t: Talent) => Kept(t, f));
    assert FilteredTalents(talents, g) == Filter(talents, (t: Talent) => Kept(t, g));
  }

  /** `toggleFavorite`: remove every occurrence of a present id, append an absent one. */
  function Toggled(favorites: seq<int>, talentId: int): seq<int>
  {
    if talentId in favorites then Filter(favorites, (x: int) => x != talentId) else favorites + [talentId]
  }

  /** A toggle flips the membership of the id and of nothing else, and keeps the list free
      of duplicates. */
  lemma ToggleFlips(favorites: seq<int>, talentId: int)
    ensures talentId in Toggled(favorites, talentId) <==> talentId !in favorites
    ensures forall x :: x != talentId ==> (x in Toggled(favorites, talentId) <==> x in favorites)
    ensures NoDuplicates(favorites) ==> NoDuplicates(Toggled(favorites, talentId))
  {
    forall x ensures x in Filter(favorites, (y: int) => y != talentId) <==> x in favorites && x != talentId {
      FilterMembership(favorites, (y: int) => y != talentId, x);
    }
    if NoDuplicates(favorites) && talentId in favorites {
      FilterNoDuplicates(favorites, (y: int) => y != talentId);
    }
  }

  /** Toggling an absent id twice restores the list. */
  lemma ToggleTwiceAbsent(favorites: seq<int>, talentId: int)
    requires talentId !in favorites
    ensures Toggled(Toggled(favorites, talentId), talentId) == favorites
  {
    var added := favorites + [talentId];
    FilterAppend(favorites, [talentId], (x: int) => x != talentId);
    FilterAll(favorites, (x: int) => x != talentId);
  }

  /** Toggling a present id twice restores membership but not order: the id moves to the end. */
  lemma ToggleTwiceMovesToEnd()
    ensures Toggled(Toggled([1, 2], 1), 1) == [2, 1]
  {
    assert Filter([1, 2], (x: int) => x != 1) == [2];
  }

  /** The page's state. */
  class TalentSearchPage {
    var filters: TalentFilters
    var favorites: seq<int>

    constructor ()
      ensures filters == DefaultFilters && favorites == []
    {
      filters := DefaultFilters;
      favorites := [];
    }

    method ToggleFavorite(talentId: int)
      modifies this
      ensures favorites == Toggled(old(favorites), talentId) && filters == old(filters)
      ensures talentId in favorites <==> talentId !in old(favorites)
      ensures old(NoDuplicates(favorites)) ==> NoDuplicates(favorites)
    {
      ToggleFlips(favorites, talentId);
      favorites := Toggled(favorites, talentId);
    }

    method SetFilters(f: TalentFilters)
      modifies this
      ensures filters == f && favorites == old(favorites)
    {
      filters := f;
    }

    /** Réinitialiser: back to the defaults, age range [18, 50] and availability off. */
    method ResetFilters()
      modifies this
      ensures filters == DefaultFilters && favorites == old(favorites)
    {
      filters := DefaultFilters;
    }
  }
}
