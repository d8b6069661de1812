/** The roles step of the casting wizard: a list of role records edited by id (add, remove,
    field update, per-role skill tags with one pending skill input per role) and the single
    expanded role card. */
module StepRoles {
  import opened Wrappers
  import opened Seqs
  import opened Text

  datatype RoleData = RoleData(
    id: string,
    roleType: string,
    gender: string,
    ageMin: string,
    ageMax: string,
    ethnicity: string,
    skills: seq<string>,
    experienceLevel: string,
    talentsNeeded: string,
    description: string)

  /** The string-valued keys of a role `updateRole` is called with. */
  datatype RoleTextField =
    | RoleType | Gender | AgeMin | AgeMax | Ethnicity | ExperienceLevel | TalentsNeeded | Description

  /** The value given to `updateRole`: a string for a text field or the new skill list. */
  datatype RoleUpdate = SetText(field: RoleTextField, value: string) | SetSkills(skills: seq<string>)

  function TextOf(r: RoleData, field: RoleTextField): string
  {
    match field
    case RoleType => r.roleType
    case Gender => r.gender
    case AgeMin => r.ageMin
    case AgeMax => r.ageMax
    case Ethnicity => r.ethnicity
    case ExperienceLevel => r.experienceLevel
    case TalentsNeeded => r.talentsNeeded
    case Description => r.description
  }

  /** `{ ...r, [field]: value }`: the named field takes the value, every other field and the id
      are kept. */
  function Apply(r: RoleData, u: RoleUpdate): (r': RoleData)
    ensures r'.id == r.id
    ensures u.SetSkills? ==> r'.skills == u.skills && forall f :: TextOf(r', f) == TextOf(r, f)
    ensures u.SetText? ==> (r'.skills == r.skills && TextOf(r', u.field) == u.value &&
      forall f :: f != u.field ==> TextOf(r', f) == TextOf(r, f))
  {
    match u
    case SetSkills(s) => r.(skills := s)
    case SetText(field, v) =>
      match field
      case RoleType => r.(roleType := v)
      case Gender => r.(gender := v)
      case AgeMin => r.(ageMin := v)
      case AgeMax => r.(ageMax := v)
      case Ethnicity => r.(ethnicity := v)
      case ExperienceLevel => r.(experienceLevel := v)
      case TalentsNeeded => r.(talentsNeeded := v)
      case Description => r.(description := v)
  }

  /** `createEmptyRole`, with the generated id as a parameter. */
  function EmptyRole(freshId: string): RoleData
  {
    RoleData(freshId, "", "", "", "", "", [], "", "1", "")
  }

  /** `roles.map(r => r.id === id ? { ...r, [field]: value } : r)`. */
  function UpdateRoles(roles: seq<RoleData>, id: string, u: RoleUpdate): (r: seq<RoleData>)
    ensures |r| == |roles|
    ensures forall i :: 0 <= i < |roles| ==> r[i] == if roles[i].id == id then Apply(roles[i], u) else roles[i]
  {
    if roles == [] then []
    else [if roles[0].id == id then Apply(roles[0], u) else roles[0]] + UpdateRoles(roles[1..], id, u)
  }

  /** `roles.filter(r => r.id !== id)`. */
  function WithoutRole(roles: seq<RoleData>, id: string): seq<RoleData>
  {
    Filter(roles, (r: RoleData) => r.id != id)
  }

  function Ids(roles: seq<RoleData>): seq<string>
  {
    seq(|roles|, i requires 0 <= i < |roles| => roles[i].id)
  }

  /** `roles.find(r => r.id === roleId)`. */
  function FindRole(roles: seq<RoleData>, roleId: string): Option<RoleData>
  {
    Find(roles, (r: RoleData) => r.id == roleId)
  }

  /** `skillInputs[roleId] || ""`. */
  function InputOf(inputs: map<string, string>, roleId: string): string
  {
    if roleId in inputs then inputs[roleId] else ""
  }

  /** `(skillInputs[roleId] || "").trim()`. */
  function PendingSkill(inputs: map<string, string>, roleId: string): string
  {
    Trim(InputOf(inputs, roleId))
  }

  /** The outcome of `addSkill(roleId)` on the role list, given the pending skill. */
  function RolesAfterAddSkill(roles: seq<RoleData>, input: string, roleId: string): seq<RoleData>
  {
    if input == "" then roles
    else
      match FindRole(roles, roleId)
      case Some(role) =>
        if input in role.skills then roles else UpdateRoles(roles, roleId, SetSkills(role.skills + [input]))
      case None => roles
  }

  /** The outcome of `addSkill(roleId)` on the skill inputs: cleared unless the input was blank. */
  function InputsAfterAddSkill(inputs: map<string, string>, input: string, roleId: string): map<string, string>
  {
    if input == "" then inputs else inputs[roleId := ""]
  }

  /** `role.skills.filter(s => s !== skill)`. */
  function RemovedSkill(skills: seq<string>, skill: string): seq<string>
  {
    Filter(skills, (s: string) => s != skill)
  }

  /** The outcome of `removeSkill(roleId, skill)`. */
  function RolesAfterRemoveSkill(roles: seq<RoleData>, roleId: string, skill: string): seq<RoleData>
  {
    match FindRole(roles, roleId)
    case Some(role) => UpdateRoles(roles, roleId, SetSkills(RemovedSkill(role.skills, skill)))
    case None => roles
  }

  /** `getRoleTypeLabel`. */
  function RoleTypeLabel(roleType: string): string
  {
    if roleType == "lead" then "Principal"
    else if roleType == "supporting" then "Secondaire"
    else if roleType == "extra" then "Figurant"
    else "R\U{00F4}le"
  }

  /** The card header: the type label once a type is chosen. */
  function CardTitle(r: RoleData): string
  {
    if r.roleType != "" then RoleTypeLabel(r.roleType) else "Nouveau r\U{00F4}le"
  }

  /** The initial expanded card: `roles[0]?.id || null`. */
  function InitialExpanded(roles: seq<RoleData>): Option<string>
  {
    if roles != [] && roles[0].id != "" then Some(roles[0].id) else None
  }

  /** A header click: collapse the card when it is the expanded one, expand it otherwise. */
  function Toggled(expanded: Option<string>, roleId: string): Option<string>
  {
    if expanded == Some(roleId) then None else Some(roleId)
  }

  ghost predicate DistinctIds(roles: seq<RoleData>)
  {
    forall i, j :: 0 <= i < j < |roles| ==> roles[i].id != roles[j].id
  }

  // ---- properties ----

  /** The three known types get three different labels, and every other type the generic one. */
  lemma RoleTypeLabelCases(roleType: string, other: string)
    ensures RoleTypeLabel(roleType) == "R\U{00F4}le" <==> roleType !in ["lead", "supporting", "extra"]
    ensures roleType in ["lead", "supporting", "extra"] && RoleTypeLabel(roleType) == RoleTypeLabel(other) ==>
      roleType == other
  {
  }

  /** Updating touches only the roles with the id; no role with another id changes and the
      ids are kept, so distinct ids stay distinct. */
  lemma UpdateRolesKeepsIds(roles: seq<RoleData>, id: string, u: RoleUpdate)
    ensures Ids(UpdateRoles(roles, id, u)) == Ids(roles)
    ensures !(id in Ids(roles)) ==> UpdateRoles(roles, id, u) == roles
    ensures DistinctIds(roles) ==> DistinctIds(UpdateRoles(roles, id, u))
  {
    var r := UpdateRoles(roles, id, u);
    assert forall i :: 0 <= i < |roles| ==> r[i].id == roles[i].id;
    if id !in Ids(roles) {
      assert forall i :: 0 <= i < |roles| ==> roles[i].id == Ids(roles)[i];
    }
  }

  /** Removing drops exactly the roles with the id and keeps the others in order. */
  lemma RemoveRoleSpec(roles: seq<RoleData>, id: string)
    ensures IsSubsequence(WithoutRole(roles, id), roles)
    ensures forall r :: r in WithoutRole(roles, id) <==> r in roles && r.id != id
    ensures DistinctIds(roles) ==> DistinctIds(WithoutRole(roles, id))
  {
    var p := (r: RoleData) => r.id != id;
    FilterIsSubsequence(roles, p);
    forall r ensures r in WithoutRole(roles, id) <==> r in roles && r.id != id {
      FilterMembership(roles, p, r);
    }
    if DistinctIds(roles) {
      DistinctFilter(roles, p);
    }
  }

  lemma {:induction false} DistinctFilter(roles: seq<RoleData>, p: RoleData -> bool)
    requires DistinctIds(roles)
    ensures DistinctIds(Filter(roles, p))
  {
    if roles != [] {
      DistinctFilter(roles[1..], p);
      var rest := Filter(roles[1..], p);
      forall r | r in rest ensures r.id != roles[0].id {
        FilterMembership(roles[1..], p, r);
      }
    }
  }

  /** Adding a role appends the empty role, and keeps ids distinct when the new id is fresh. */
  lemma AddRoleKeepsIds(roles: seq<RoleData>, freshId: string)
    requires freshId !in Ids(roles)
    ensures DistinctIds(roles) ==> DistinctIds(roles + [EmptyRole(freshId)])
  {
    assert forall i :: 0 <= i < |roles| ==> roles[i].id == Ids(roles)[i];
  }

  /** A blank pending skill changes nothing, not even the input. */
  lemma AddBlankSkill(roles: seq<RoleData>, inputs: map<string, string>, roleId: string)
    ensures RolesAfterAddSkill(roles, "", roleId) == roles
    ensures InputsAfterAddSkill(inputs, "", roleId) == inputs
  {
  }

  /** After a non-blank add the input is cleared, the role with the id holds the skill,
      added at the end unless it was already there, and no other role changes. */
  lemma AddSkillSpec(roles: seq<RoleData>, inputs: map<string, string>, input: string, roleId: string)
    requires DistinctIds(roles)
    requires input != ""
    ensures InputOf(InputsAfterAddSkill(inputs, input, roleId), roleId) == ""
    ensures Ids(RolesAfterAddSkill(roles, input, roleId)) == Ids(roles)
    ensures forall i :: 0 <= i < |roles| && roles[i].id != roleId ==>
      RolesAfterAddSkill(roles, input, roleId)[i] == roles[i]
    ensures forall i :: 0 <= i < |roles| && roles[i].id == roleId ==>
      RolesAfterAddSkill(roles, input, roleId)[i].skills ==
        if input in roles[i].skills then roles[i].skills else roles[i].skills + [input]
    ensures forall i :: 0 <= i < |roles| && roles[i].id == roleId ==>
      RolesAfterAddSkill(roles, input, roleId)[i] ==
        roles[i].(skills := if input in roles[i].skills then roles[i].skills else roles[i].skills + [input])
  {
    var after := RolesAfterAddSkill(roles, input, roleId);
    FindFirst(roles, roleId);
    match FindRole(roles, roleId)
    case None =>
      assert after == roles;
    case Some(role) =>
      if input in role.skills {
        assert after == roles;
      } else {
        var u := SetSkills(role.skills + [input]);
        UpdateRolesKeepsIds(roles, roleId, u);
        assert after == UpdateRoles(roles, roleId, u);
      }
  }

  /** The pending skill is blank exactly when the input is missing or all whitespace. */
  lemma PendingSkillBlank(inputs: map<string, string>, roleId: string)
    ensures PendingSkill(inputs, roleId) == "" <==>
      roleId !in inputs || forall k :: 0 <= k < |inputs[roleId]| ==> IsSpace(inputs[roleId][k])
  {
    TrimEmptyIff(InputOf(inputs, roleId));
  }

  /** With distinct ids the found role is the one at the id's position. */
  lemma FindFirst(roles: seq<RoleData>, roleId: string)
    requires DistinctIds(roles)
    ensures FindRole(roles, roleId).Some? <==> exists i :: 0 <= i < |roles| && roles[i].id == roleId
    ensures forall i :: 0 <= i < |roles| && roles[i].id == roleId ==> FindRole(roles, roleId) == Some(roles[i])
  {
  }

  /** After removal the first role with the id no longer holds the skill; its other skills
      stay in order with all their copies, and its other fields are kept. */
  lemma RemoveSkillSpec(roles: seq<RoleData>, roleId: string, skill: string)
    requires DistinctIds(roles)
    ensures var after := RolesAfterRemoveSkill(roles, roleId, skill);
      |after| == |roles| && Ids(after) == Ids(roles) &&
      (forall i :: 0 <= i < |roles| && roles[i].id != roleId ==> after[i] == roles[i]) &&
      (forall i :: 0 <= i < |roles| && roles[i].id == roleId ==>
        skill !in after[i].skills && IsSubsequence(after[i].skills, roles[i].skills))
    ensures forall i :: 0 <= i < |roles| && roles[i].id == roleId ==>
      RolesAfterRemoveSkill(roles, roleId, skill)[i] == roles[i].(skills := RemovedSkill(roles[i].skills, skill))
    ensures forall i, x :: 0 <= i < |roles| && roles[i].id == roleId ==>
      multiset(RolesAfterRemoveSkill(roles, roleId, skill)[i].skills)[x] ==
        (if x == skill then 0 else multiset(roles[i].skills)[x])
  {
    FindFirst(roles, roleId);
    match FindRole(roles, roleId)
    case Some(role) =>
      var kept := RemovedSkill(role.skills, skill);
      FilterIsSubsequence(role.skills, (s: string) => s != skill);
      FilterMembership(role.skills, (s: string) => s != skill, skill);
      UpdateRolesKeepsIds(roles, roleId, SetSkills(kept));
      forall x ensures multiset(kept)[x] == (if x == skill then 0 else multiset(role.skills)[x]) {
        FilterCount(role.skills, (s: string) => s != skill, x);
      }
    case None =>
  }

  /** A header click expands the card exactly when it was not the expanded one;
      two clicks on a card that was expanded or no card collapsed restore the state. */
  lemma ToggledSpec(expanded: Option<string>, roleId: string)
    ensures Toggled(expanded, roleId) == Some(roleId) <==> expanded != Some(roleId)
    ensures Toggled(expanded, roleId) != Some(roleId) ==> Toggled(expanded, roleId) == None
    ensures expanded == None || expanded == Some(roleId) ==> Toggled(Toggled(expanded, roleId), roleId) == expanded
  {
  }

  /** The component's state, with the parent's role list as a field replaced on every change. */
  class StepRolesState {
    var roles: seq<RoleData>
    var expandedRole: Option<string>
    var skillInputs: map<string, string>

    constructor (initialRoles: seq<RoleData>)
      ensures roles == initialRoles && expandedRole == InitialExpanded(initialRoles) && skillInputs == map[]
    {
      roles := initialRoles;
      expandedRole := InitialExpanded(initialRoles);
      skillInputs := map[];
    }

    /** `addRole`: append an empty role and expand it. */
    method AddRole(freshId: string)
      modifies this
      ensures roles == old(roles) + [EmptyRole(freshId)] && expandedRole == Some(freshId)
      ensures skillInputs == old(skillInputs)
      ensures old(DistinctIds(roles)) && freshId !in Ids(old(roles)) ==> DistinctIds(roles)
    {
      if freshId !in Ids(roles) {
        AddRoleKeepsIds(roles, freshId);
      }
      roles := roles + [EmptyRole(freshId)];
      expandedRole := Some(freshId);
    }

    /** `removeRole`: the expanded card is left as it is. */
    method RemoveRole(id: string)
      modifies this
      ensures roles == WithoutRole(old(roles), id)
      ensures forall r :: r in roles ==> r.id != id
      ensures expandedRole == old(expandedRole) && skillInputs == old(skillInputs)
    {
      RemoveRoleSpec(roles, id);
      roles := WithoutRole(roles, id);
    }

    method UpdateRole(id: string, u: RoleUpdate)
      modifies this
      ensures roles == UpdateRoles(old(roles), id, u) && Ids(roles) == Ids(old(roles))
      ensures expandedRole == old(expandedRole) && skillInputs == old(skillInputs)
    {
      UpdateRolesKeepsIds(roles, id, u);
      roles := UpdateRoles(roles, id, u);
    }

    method SetSkillInput(roleId: string, value: string)
      modifies this
      ensures skillInputs == old(skillInputs)[roleId := value]
      ensures roles == old(roles) && expandedRole == old(expandedRole)
    {
      skillInputs := skillInputs[roleId := value];
    }

    /** `addSkill`: a blank pending skill changes nothing; otherwise the skill is added when
        new and the input is cleared either way. */
    method AddSkill(roleId: string)
      modifies this
      ensures roles == RolesAfterAddSkill(old(roles), PendingSkill(old(skillInputs), roleId), roleId)
      ensures skillInputs == InputsAfterAddSkill(old(skillInputs), PendingSkill(old(skillInputs), roleId), roleId)
      ensures expandedRole == old(expandedRole)
    {
      var input := PendingSkill(skillInputs, roleId);
      roles := RolesAfterAddSkill(roles, input, roleId);
      skillInputs := InputsAfterAddSkill(skillInputs, input, roleId);
    }

    method RemoveSkill(roleId: string, skill: string)
      modifies this
      ensures roles == RolesAfterRemoveSkill(old(roles), roleId, skill)
      ensures skillInputs == old(skillInputs) && expandedRole == old(expandedRole)
    {
      roles := RolesAfterRemoveSkill(roles, roleId, skill);
    }

    method ToggleExpanded(roleId: string)
      modifies this
      ensures expandedRole == Toggled(old(expandedRole), roleId)
      ensures expandedRole == Some(roleId) <==> old(expandedRole) != Some(roleId)
      ensures roles == old(roles) && skillInputs == old(skillInputs)
    {
      ToggledSpec(expandedRole, roleId);
      expandedRole := Toggled(expandedRole, roleId);
    }
  }
}
