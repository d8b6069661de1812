/** The casting list page: text search over title, production and location, a category
    filter, and the Clear Filters reset. */
module CastingsPage {
  import opened Seqs
  import opened Text
  import opened CastingContext

  datatype CastingFilters = CastingFilters(searchTerm: string, selectedCategory: string)

  /** The lowercased term occurs in the lowercased title, production or location. */
  predicate MatchesSearch(c: Casting, searchTerm: string)
  {
    Contains(Lower(c.title), Lower(searchTerm)) ||
    Contains(Lower(c.production), Lower(searchTerm)) ||
    Contains(Lower(c.location), Lower(searchTerm))
  }

  predicate MatchesCategory(c: Casting, selectedCategory: string)
  {
    selectedCategory == "all" || c.category == selectedCategory
  }

  predicate Kept(c: Casting, f: CastingFilters)
  {
    MatchesSearch(c, f.searchTerm) && MatchesCategory(c, f.selectedCategory)
  }

  /** `filteredCastings`. */
  function FilteredCastings(castings: seq<Casting>, f: CastingFilters): seq<Casting>
  {
    Filter(castings, (c: Casting) => Kept(c, f))
  }

  /** The filters Clear Filters installs. */
  function ClearFilters(): CastingFilters
  {
    CastingFilters("", "all")
  }

  /** The result is an order-preserving subsequence of the castings holding exactly those
      that match both the search and the category. */
  lemma FilteredCastingsSpec(castings: seq<Casting>, f: CastingFilters)
    ensures IsSubsequence(FilteredCastings(castings, f), castings)
    ensures forall c :: c in FilteredCastings(castings, f) <==> c in castings && Kept(c, f)
    ensures forall c :: multiset(FilteredCastings(castings, f))[c] == (if Kept(c, f) then multiset(castings)[c] else 0)
  {
    FilterIsSubsequence(castings, (c: Casting) => Kept(c, f));
    forall c
      ensures c in FilteredCastings(castings, f) <==> c in castings && Kept(c, f)
      ensures multiset(FilteredCastings(castings, f))[c] == (if Kept(c, f) then multiset(castings)[c] else 0)
    {
      FilterMembership(castings, (c: Casting) => Kept(c, f), c);
      FilterCount(castings, (c: Casting) => Kept(c, f), c);
    }
  }

  /** With an empty search and category "all" (what Clear Filters restores) every casting is kept. */
  lemma ClearedFiltersKeepAll(castings: seq<Casting>)
    ensures FilteredCastings(castings, ClearFilters()) == castings
  {
    forall i | 0 <= i < |castings| ensures Kept(castings[i], ClearFilters()) {
      ContainsEmpty(Lower(castings[i].title));
    }
    FilterAll(castings, (c: Casting) => Kept(c, ClearFilters()));
  }

  /** The search ignores case: two terms with the same lowercase form give the same list;
      in particular searching for the lowercased term changes nothing. */
  lemma SearchIgnoresCase(castings: seq<Casting>, f: CastingFilters, term: string)
    requires Lower(term) == Lower(f.searchTerm)
    ensures FilteredCastings(castings, f.(searchTerm := term)) == FilteredCastings(castings, f)
    ensures FilteredCastings(castings, f.(searchTerm := Lower(f.searchTerm))) == FilteredCastings(castings, f)
  {
    SameSearchSameList(castings, f, term);
    LowerIdempotent(f.searchTerm);
    SameSearchSameList(castings, f, Lower(f.searchTerm));
  }

  lemma SameSearchSameList(castings: seq<Casting>, f: CastingFilters, term: string)
    requires Lower(term) == Lower(f.searchTerm)
    ensures FilteredCastings(castings, f.(searchTerm := term)) == FilteredCastings(castings, f)
  {
    var g := f.(searchTerm := term);
    assert forall i :: 0 <= i < |castings| ==> Kept(castings[i], g) == Kept(castings[i], f);
    FilterCongruence(castings, (c: Casting) => Kept(c, g), (c: Casting) => Kept(c, f));
    assert FilteredCastings(castings, g) == Filter(castings, (c: Casting) => Kept(c, g));
  }
}
