/** The casting creation form: field editing, the language and skill tag lists, and
    Publish, which validates the three mandatory fields, derives the category, the
    requirement lines and the creation date, and adds the casting to the store. */
module CreateCasting {
  import opened Wrappers
  import opened Seqs
  import opened Text
  import opened ListEditors
  import opened CastingContext

  /** `formData`: every field is a string except the two tag lists. */
  datatype CastingForm = CastingForm(
    title: string,
    production: string,
    castingType: string,
    location: string,
    deadline: string,
    description: string,
    requirements: string,
    compensation: string,
    ageMin: string,
    ageMax: string,
    gender: string,
    experience: string,
    languages: seq<string>,
    specialSkills: seq<string>)

  const EmptyForm := CastingForm("", "", "", "", "", "", "", "", "", "", "", "", [], [])

  /** The text fields `handleInputChange` can set. */
  datatype TextField =
    | Title | Production | CastingType | Location | Deadline | Description
    | Requirements | Compensation | AgeMin | AgeMax | Gender | Experience

  function FieldOf(form: CastingForm, field: TextField): string
  {
    match field
    case Title => form.title
    case Production => form.production
    case CastingType => form.castingType
    case Location => form.location
    case Deadline => form.deadline
    case Description => form.description
    case Requirements => form.requirements
    case Compensation => form.compensation
    case AgeMin => form.ageMin
    case AgeMax => form.ageMax
    case Gender => form.gender
    case Experience => form.experience
  }

  /** `{ ...prev, [field]: value }`. */
  function WithField(form: CastingForm, field: TextField, value: string): (r: CastingForm)
    ensures FieldOf(r, field) == value
    ensures forall g :: g != field ==> FieldOf(r, g) == FieldOf(form, g)
    ensures r.languages == form.languages && r.specialSkills == form.specialSkills
  {
    match field
    case Title => form.(title := value)
    case Production => form.(production := value)
    case CastingType => form.(castingType := value)
    case Location => form.(location := value)
    case Deadline => form.(deadline := value)
    case Description => form.(description := value)
    case Requirements => form.(requirements := value)
    case Compensation => form.(compensation := value)
    case AgeMin => form.(ageMin := value)
    case AgeMax => form.(ageMax := value)
    case Gender => form.(gender := value)
    case Experience => form.(experience := value)
  }

  /** Publish refuses the form when the title, the production or the type is empty. */
  predicate Publishable(form: CastingForm)
  {
    form.title != "" && form.production != "" && form.castingType != ""
  }

  /** `type.toLowerCase().replace('é', 'e')`: only the first é is replaced. */
  function Category(castingType: string): string
  {
    ReplaceFirst(Lower(castingType), '\U{00E9}', 'e')
  }

  /** `requirements.split('\n').filter(req => req.trim())`: a line is kept when it has a
      non-whitespace character, and is kept untrimmed. */
  function RequirementLines(text: string): seq<string>
  {
    Filter(Split(text, '\n'), HasNonSpace)
  }

  /** `new Date().toISOString().split('T')[0]`, with the timestamp as a parameter. */
  function CreatedAt(isoNow: string): string
  {
    Split(isoNow, 'T')[0]
  }

  /** The record handed to `addCasting`; its id is replaced by the store. */
  function BuildCasting(form: CastingForm, isoNow: string): Casting
  {
    Casting(0, form.title, form.production, form.castingType, Category(form.castingType),
            form.location, form.deadline, form.description, RequirementLines(form.requirements),
            form.compensation, Some("Actif"), Some(0), Some(0), Some(CreatedAt(isoNow)),
            Some(form.ageMin), Some(form.ageMax), Some(form.gender), Some(form.experience),
            Some(form.languages), Some(form.specialSkills))
  }

  /** The requirement list holds, in order, exactly the lines of the text that `trim()`
      leaves non-empty; no entry contains a line break. */
  lemma RequirementLinesSpec(text: string)
    ensures IsSubsequence(RequirementLines(text), Split(text, '\n'))
    ensures forall l :: l in RequirementLines(text) <==> l in Split(text, '\n') && Trim(l) != ""
    ensures forall l :: l in RequirementLines(text) ==> '\n' !in l
    ensures forall l ::
      multiset(RequirementLines(text))[l] == (if Trim(l) != "" then multiset(Split(text, '\n'))[l] else 0)
  {
    var lines := Split(text, '\n');
    FilterIsSubsequence(lines, HasNonSpace);
    forall l
      ensures l in RequirementLines(text) <==> l in lines && Trim(l) != ""
      ensures multiset(RequirementLines(text))[l] == (if Trim(l) != "" then multiset(lines)[l] else 0)
    {
      FilterMembership(lines, HasNonSpace, l);
      FilterCount(lines, HasNonSpace, l);
      HasNonSpaceIff(l);
    }
    SplitJoin(text, '\n');
  }

  /** A text without blank lines keeps all of its lines, and rejoining them gives the text back. */
  lemma RequirementLinesNoBlank(text: string)
    requires forall k :: 0 <= k < |Split(text, '\n')| ==> Trim(Split(text, '\n')[k]) != ""
    ensures RequirementLines(text) == Split(text, '\n')
    ensures Join(RequirementLines(text), '\n') == text
  {
    var lines := Split(text, '\n');
    forall k | 0 <= k < |lines| ensures HasNonSpace(lines[k]) {
      HasNonSpaceIff(lines[k]);
    }
    FilterAll(lines, HasNonSpace);
    SplitJoin(text, '\n');
  }

  /** The creation date is the part of the timestamp before the first T. */
  lemma CreatedAtIsDate(date: string, rest: string)
    requires 'T' !in date
    ensures CreatedAt(date + "T" + rest) == date
  {
    SplitFirstPieceOf(date, 'T', rest);
  }

  /** A type without é gets its lowercase form as category. */
  lemma CategoryWithoutAccent(castingType: string)
    requires '\U{00E9}' !in Lower(castingType)
    ensures Category(castingType) == Lower(castingType)
  {
    ReplaceFirstAbsent(Lower(castingType), '\U{00E9}', 'e');
  }

  /** A type made of the letters a-z is its own category. */
  lemma CategoryOfLowercase(castingType: string)
    requires forall k :: 0 <= k < |castingType| ==> IsLower(castingType[k])
    ensures Category(castingType) == castingType
  {
    LowerOfLowercase(castingType);
    CategoryWithoutAccent(castingType);
  }

  /** The six values of the type selector, and the category ids of the casting list page. */
  const TypeOptions: seq<string> := ["cinema", "television", "theatre", "publicite", "clip", "web"]
  const ListedCategories: seq<string> := ["tv", "film", "theater", "commercial"]

  /** A casting published from the selector gets its type value as category, and that value
      is none of the list page's category ids, so it is shown only under "all". */
  lemma SelectorCategoriesNotListed(castingType: string)
    requires castingType in TypeOptions
    ensures Category(castingType) == castingType
    ensures Category(castingType) !in ListedCategories && Category(castingType) != "all"
  {
    SelectorValuesLowercase(castingType);
    CategoryOfLowercase(castingType);
  }

  lemma SelectorValuesLowercase(castingType: string)
    requires castingType in TypeOptions
    ensures forall k :: 0 <= k < |castingType| ==> IsLower(castingType[k])
    ensures castingType !in ListedCategories && castingType != "all"
  {
  }

  /** The page's state. */
  class CreateCastingPage {
    var formData: CastingForm
    var newLanguage: string
    var newSkill: string

    constructor ()
      ensures formData == EmptyForm && newLanguage == "" && newSkill == ""
    {
      formData := EmptyForm;
      newLanguage := "";
      newSkill := "";
    }

    /** `handleInputChange`. */
    method SetField(field: TextField, value: string)
      modifies this
      ensures formData == WithField(old(formData), field, value)
      ensures newLanguage == old(newLanguage) && newSkill == old(newSkill)
    {
      formData := WithField(formData, field, value);
    }

    method SetNewLanguage(value: string)
      modifies this
      ensures newLanguage == value && formData == old(formData) && newSkill == old(newSkill)
    {
      newLanguage := value;
    }

    method SetNewSkill(value: string)
      modifies this
      ensures newSkill == value && formData == old(formData) && newLanguage == old(newLanguage)
    {
      newSkill := value;
    }

    /** `addLanguage`: the input is cleared only when the language was added. */
    method AddLanguage()
      modifies this
      ensures formData == old(formData).(languages := AddTrimmed(old(formData.languages), old(newLanguage)))
      ensures newLanguage == if Accepts(old(formData.languages), old(newLanguage)) then "" else old(newLanguage)
      ensures newSkill == old(newSkill)
      ensures old(NoDuplicates(formData.languages)) ==> NoDuplicates(formData.languages)
    {
      if NoDuplicates(formData.languages) {
        AddTrimmedNoDuplicates(formData.languages, newLanguage);
      }
      if Accepts(formData.languages, newLanguage) {
        formData := formData.(languages := formData.languages + [Trim(newLanguage)]);
        newLanguage := "";
      }
    }

    method RemoveLanguage(language: string)
      modifies this
      ensures formData == old(formData).(languages := RemoveAll(old(formData.languages), language))
      ensures language !in formData.languages
      ensures newLanguage == old(newLanguage) && newSkill == old(newSkill)
    {
      RemoveAllSpec(formData.languages, language);
      formData := formData.(languages := RemoveAll(formData.languages, language));
    }

    /** `addSkill`: the input is cleared only when the skill was added. */
    method AddSkill()
      modifies this
      ensures formData == old(formData).(specialSkills := AddTrimmed(old(formData.specialSkills), old(newSkill)))
      ensures newSkill == if Accepts(old(formData.specialSkills), old(newSkill)) then "" else old(newSkill)
      ensures newLanguage == old(newLanguage)
      ensures old(NoDuplicates(formData.specialSkills)) ==> NoDuplicates(formData.specialSkills)
    {
      if NoDuplicates(formData.specialSkills) {
        AddTrimmedNoDuplicates(formData.specialSkills, newSkill);
      }
      if Accepts(formData.specialSkills, newSkill) {
        formData := formData.(specialSkills := formData.specialSkills + [Trim(newSkill)]);
        newSkill := "";
      }
    }

    method RemoveSkill(skill: string)
      modifies this
      ensures formData == old(formData).(specialSkills := RemoveAll(old(formData.specialSkills), skill))
      ensures skill !in formData.specialSkills
      ensures newLanguage == old(newLanguage) && newSkill == old(newSkill)
    {
      RemoveAllSpec(formData.specialSkills, skill);
      formData := formData.(specialSkills := RemoveAll(formData.specialSkills, skill));
    }

    /** `handlePublish`: an incomplete form changes nothing; otherwise the built casting is
        added under the store's next id, which is returned. */
    method HandlePublish(store: CastingStore, isoNow: string) returns (published: Option<int>)
      modifies store
      ensures published == if Publishable(formData) then Some(NextId(old(store.castings))) else None
      ensures store.castings == if Publishable(formData)
        then old(store.castings) + [BuildCasting(formData, isoNow).(id := NextId(old(store.castings)))]
        else old(store.castings)
    {
      if Publishable(formData) {
        var draft := BuildCasting(formData, isoNow);
        var id := store.AddCasting(draft);
        published := Some(id);
      } else {
        published := None;
      }
    }
  }
}
