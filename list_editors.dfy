/** The tag-list editors shared by the casting forms: add the trimmed input unless it is
    blank or already present, and remove every entry equal to a value. */
module ListEditors {
  import opened Seqs
  import opened Text

  /** `input.trim() && !list.includes(input.trim())`. */
  predicate Accepts(list: seq<string>, input: string)
  {
    Trim(input) != "" && Trim(input) !in list
  }

  /** `[...list, input.trim()]` when accepted, the list itself otherwise. */
  function AddTrimmed(list: seq<string>, input: string): (r: seq<string>)
    ensures forall x :: x in r <==> x in list || (Accepts(list, input) && x == Trim(input))
    ensures |list| <= |r| <= |list| + 1 && r[..|list|] == list
  {
    if Accepts(list, input) then list + [Trim(input)] else list
  }

  /** `list.filter(x => x !== value)`. */
  function RemoveAll(list: seq<string>, value: string): seq<string>
  {
    Filter(list, (x: string) => x != value)
  }

  /** Adding grows the list by exactly the trimmed input when it is accepted, and leaves it
      unchanged for blank input or input already present. */
  lemma AddTrimmedCases(list: seq<string>, input: string)
    ensures Accepts(list, input) ==> AddTrimmed(list, input) == list + [Trim(input)]
    ensures !Accepts(list, input) ==> AddTrimmed(list, input) == list
    ensures (forall k :: 0 <= k < |input| ==> IsSpace(input[k])) ==> AddTrimmed(list, input) == list
  {
    TrimEmptyIff(input);
  }

  /** A duplicate-free list stays duplicate-free under add. */
  lemma AddTrimmedNoDuplicates(list: seq<string>, input: string)
    requires NoDuplicates(list)
    ensures NoDuplicates(AddTrimmed(list, input))
  {
  }

  /** Remove deletes every equal entry and keeps the others in their order. */
  lemma RemoveAllSpec(list: seq<string>, value: string)
    ensures value !in RemoveAll(list, value)
    ensures forall x :: x in RemoveAll(list, value) <==> x in list && x != value
    ensures IsSubsequence(RemoveAll(list, value), list)
    ensures NoDuplicates(list) ==> NoDuplicates(RemoveAll(list, value))
    ensures forall x :: multiset(RemoveAll(list, value))[x] == (if x == value then 0 else multiset(list)[x])
  {
    forall x
      ensures x in RemoveAll(list, value) <==> x in list && x != value
      ensures multiset(RemoveAll(list, value))[x] == (if x == value then 0 else multiset(list)[x])
    {
      FilterMembership(list, (x: string) => x != value, x);
      FilterCount(list, (x: string) => x != value, x);
    }
    FilterIsSubsequence(list, (x: string) => x != value);
    if NoDuplicates(list) {
      FilterNoDuplicates(list, (x: string) => x != value);
    }
  }
}
