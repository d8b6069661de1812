# Tunisia Casting — a verified model of the client-side logic

Tunisia Casting is a single-page casting marketplace. Producers publish casting calls, and
talents browse them, filter them and apply. A talent must be logged in and subscribed to
apply. Everything runs in the browser. There is no server: the state lives in two React
contexts and in the pages' own local state.

This project models the parts of that code that decide something, as Dafny 4.11 modules.

- **CastingContext** is the shared casting store.
  - `addCasting` issues the current maximum id plus one.
  - `updateCasting` merges a partial record into every record with the id.
  - `deleteCasting` removes every record with the id.
  - The store is the class `CastingStore`. Its methods are proved against the functions
    `NextId`, `Updated` and `Deleted`, and the lemmas beside them state what those functions
    guarantee.
- **AuthContext** is the session: at most one user, plus a one-shot "redirect after
  authentication" path.
  - The class `Session` models login (a demo e-mail lookup, otherwise a synthesised free
    user), demo login by id, signup, logout and the subscription switch.
- **FormValidation** is the validators hook.
  - The e-mail, password, confirmation, required, phone and age validators return an error
    string.
  - Each regular expression is stated as a predicate over split points, and proved equal to
    the test that is computed.
  - It also covers the 0–5 password-strength score and the errors/touched maps of the hook.
- **CastingsPage** is the casting list's search and category filter.
- **TalentSearch** is the talent filter, the favourites toggle and the filter reset.
- **CreateCasting** is the casting form.
  - Field edits and the language and skill tag editors.
  - `handlePublish`: the guard on mandatory fields, building the record (category,
    requirement lines, creation date) and adding it to the store.
- **StepRoles** and **StepMedia** are the role and media steps of the multi-step casting
  form.
  - Roles: add, remove and update a role, per-role skill tags, and the expanded card.
  - Media: required documents.
- **CastingDetail**: a casting is looked up from its route id, and the Apply button gates on
  login, role and subscription.
- **MyApplications**: status counts, tab lists and badge colours.
- **SignUp**: the account-type step switch, and a submission that uses the pending redirect.
- **Subscription**: choosing a plan, the processing flag, and the redirect after payment.

Helper modules:

- **Wrappers** holds `Option`.
- **Seqs** holds `filter`/`find` and their properties: order-preserving subsequence,
  membership, no duplicates, counting.
- **Text** holds the JavaScript string operations the pages rely on:
  - `trim`, `toLowerCase`, `split`, `includes`, `replace` with a string pattern;
  - `String(n)`, and `parseInt` without a radix.
- **ListEditors** holds the "add the trimmed entry unless blank or present" and "remove
  every equal entry" editors. They are shared by the language, skill and document lists.

Inputs the code takes from its environment are parameters of the model:

- the current ISO timestamp of `handlePublish`;
- the fresh id `createEmptyRole` draws from `Date.now()`;
- the route and query parameters.

Navigation is the returned target path.

### Behaviours worth knowing

Each of these follows from the code as written, and a lemma of the model shows it.

- **Reissued ids.** A new casting's id is the current maximum plus one, not the largest id
  ever issued. Deleting the casting with the highest id lets the next add issue that id
  again (`DeletedMaxIsReissued`).
- **Published categories never match a listed category.** The category of a published
  casting is its type value from the selector (`cinema`, `television`, …). None of these is
  a category id of the list page (`tv`, `film`, `theater`, `commercial`), so a published
  casting appears only under "all" (`SelectorCategoriesNotListed`).
- **The subscription redirect ignores the casting's path.** Paying from a casting's paywall
  leads to `/castings?apply=<id>`, not to the casting's own page, even when that page is the
  pending redirect (`FromPaywallGoesToList`). The casting list does not read `apply`.
- **Toggling twice can reorder favourites.** Toggling a favourite twice restores the list
  only when the id was absent. A present id that is not last moves to the end
  (`ToggleTwiceMovesToEnd`).

## Model

| member | source | states |
|---|---|---|
| CastingContext.MaxId | src/contexts/CastingContext.tsx:114 | `Math.max(...ids, 0)`: at least 0, no smaller than any stored id, and either 0 or one of the ids |
| CastingContext.NextIdFresh | src/contexts/CastingContext.tsx:114 | the issued id is strictly greater than every stored id, at least 1, and 1 for an empty store |
| CastingContext.AddKeepsIdsDistinct | src/contexts/CastingContext.tsx:114-115 | appending the record under the issued id keeps the stored ids pairwise distinct |
| CastingContext.DeletedMaxIsReissued | src/contexts/CastingContext.tsx:113-126 | adding a record and deleting it again makes the next add issue the same id once more |
| CastingContext.UpdatedAt | src/contexts/CastingContext.tsx:118-122 | the update keeps the length, merges the patch into exactly the records with the id, and leaves every other record unchanged in place |
| CastingContext.MergeFields | src/contexts/CastingContext.tsx:120 | a field present in the patch takes its value and an absent one keeps the old value (stated for title, id and the optional status; `Merge` treats every field alike); an empty patch is the identity; merging the same patch twice equals merging it once |
| CastingContext.MergeCombine | src/contexts/CastingContext.tsx:120 | two successive merges equal one merge of the combined patch, where the later patch wins |
| CastingContext.UpdateAbsent | src/contexts/CastingContext.tsx:118-122 | updating an id that no record has leaves the list identical |
| CastingContext.UpdateKeepsIdsDistinct | src/contexts/CastingContext.tsx:118-122 | a patch that does not set `id` keeps the ids distinct |
| CastingContext.DeleteSpec | src/contexts/CastingContext.tsx:124-126 | after delete no record has the id, every record with another id survives with all its copies, and the survivors keep their order |
| CastingContext.DeleteAbsent | src/contexts/CastingContext.tsx:125 | deleting an id that no record has leaves the list identical |
| CastingContext.DeleteKeepsIdsDistinct | src/contexts/CastingContext.tsx:125 | delete keeps the ids distinct |
| CastingContext.DeletedIds | src/contexts/CastingContext.tsx:125 | the ids after delete are the old ids with that id filtered out |
| CastingContext.UpdateAfterDelete | src/contexts/CastingContext.tsx:118-126 | updating an id just deleted changes nothing |
| CastingContext.InitialCastingsIds | src/contexts/CastingContext.tsx:43-108 | the seed's ids are distinct and the first add issues id 5 |
| CastingContext.CastingStore.constructor | src/contexts/CastingContext.tsx:111 | the store starts with the seed, whose ids are distinct |
| CastingContext.CastingStore.AddCasting | src/contexts/CastingContext.tsx:113-116 | the record is appended under the returned id, which exceeds every earlier id; earlier records stay unchanged and in order; distinct ids are preserved |
| CastingContext.CastingStore.UpdateCasting | src/contexts/CastingContext.tsx:118-122 | the new list is the per-record merge; same length; other records are untouched; distinct ids are kept when the patch has no id |
| CastingContext.CastingStore.DeleteCasting | src/contexts/CastingContext.tsx:124-126 | the new list is an order-preserving subsequence holding no record with the id; distinct ids are kept |
| AuthContext.DemoUsersDistinct | src/contexts/AuthContext.tsx:23-80 | the demo ids and the demo e-mails are pairwise distinct |
| AuthContext.LoginAsDemoEmail | src/contexts/AuthContext.tsx:108-114 | a demo e-mail logs in as that demo record without password, label and description, whatever role and password are given |
| AuthContext.LoginOtherEmail | src/contexts/AuthContext.tsx:115-122 | any other e-mail logs in as the synthesised user |
| AuthContext.FreshUserShape | src/contexts/AuthContext.tsx:116-122 | the synthesised user has id '1', the given role, no subscription, and its name is the part of the e-mail before the first '@' |
| AuthContext.Session.constructor | src/contexts/AuthContext.tsx:104-106 | no user and no pending redirect |
| AuthContext.Session.Login | src/contexts/AuthContext.tsx:108-123 | the user becomes the login user and the session is authenticated; the redirect is kept |
| AuthContext.Session.LoginAsDemo | src/contexts/AuthContext.tsx:125-131 | a known demo id installs that record; an unknown id leaves the session unchanged |
| AuthContext.Session.Signup | src/contexts/AuthContext.tsx:133-142 | the user is always an unsubscribed user '1' with the given e-mail, name and role |
| AuthContext.Session.Logout | src/contexts/AuthContext.tsx:144-147 | both the user and the pending redirect are cleared, and the session is unauthenticated |
| AuthContext.Session.SetSubscription | src/contexts/AuthContext.tsx:149-153 | a no-op without a user; otherwise only `hasSubscription` changes |
| AuthContext.Session.SetRedirectAfterAuth | src/contexts/AuthContext.tsx:106 | the redirect takes the value; the user is kept |
| FormValidation.EmailShapeIsPattern | src/hooks/useFormValidation.ts:7 | the computed e-mail test holds exactly when the e-mail pattern matches |
| FormValidation.ValidateEmail | src/hooks/useFormValidation.ts:10-14 | "" exactly when the pattern matches; the "required" message for the empty string, otherwise the "invalid" message |
| FormValidation.ValidatePassword | src/hooks/useFormValidation.ts:16-23 | "" exactly for at least 8 characters with an upper-case letter, a lower-case letter and a digit; otherwise the first failing condition, in the order empty, length, upper, lower, digit |
| FormValidation.ValidateConfirmPassword | src/hooks/useFormValidation.ts:25-29 | "" exactly when the confirmation is non-empty and equals the password; the "confirm" message when it is empty; the mismatch message when it is non-empty and differs |
| FormValidation.ValidateRequired | src/hooks/useFormValidation.ts:31-34 | an error exactly for values made only of whitespace, and then `<label> est requis` |
| FormValidation.Clean | src/hooks/useFormValidation.ts:38 | no whitespace character or dash is left; what is left is a subsequence of the input, and every other character keeps all its copies |
| FormValidation.PhoneShapeIsPattern | src/hooks/useFormValidation.ts:8 | without separators, the computed phone test holds exactly when the phone pattern matches |
| FormValidation.ValidatePhone | src/hooks/useFormValidation.ts:36-41 | "" exactly for the empty phone or a cleaned number that matches the pattern; otherwise the "invalid" message |
| FormValidation.ValidateAge | src/hooks/useFormValidation.ts:43-48 | "" exactly for the empty age or a `parseInt` value in 3..120 |
| FormValidation.AgeOfNumber | src/hooks/useFormValidation.ts:43-48 | an age typed as the decimal form of n is accepted exactly when 3 <= n <= 120 |
| FormValidation.Score | src/hooks/useFormValidation.ts:52-57 | the number of criteria met is at most 5 |
| FormValidation.ScoreCounts | src/hooks/useFormValidation.ts:52-57 | the score counts one point for each criterion met |
| FormValidation.GetPasswordStrength | src/hooks/useFormValidation.ts:50-62 | level 0 with empty label and colour for ""; otherwise the score, accumulated step by step, graded Faible up to 2, Moyen at 3 and Fort from 4 |
| FormValidation.AcceptedPasswordNotWeak | src/hooks/useFormValidation.ts:16-62 | a password the validator accepts scores at least 3 and is never graded Faible |
| FormValidation.UntouchedShowsNothing | src/hooks/useFormValidation.ts:78 | an untouched field shows "" whatever error is stored |
| FormValidation.UpdatesAreLocal | src/hooks/useFormValidation.ts:68-78 | setting one field's error or marking one field touched changes what another field shows in no way; a touched field shows its stored error |
| FormValidation.AnyErrorAfterSet | src/hooks/useFormValidation.ts:80 | after setting one error there are errors exactly when it is non-empty or another field still holds one |
| FormValidation.ValidationState.constructor | src/hooks/useFormValidation.ts:65-66 | empty maps and no errors |
| FormValidation.ValidationState.SetFieldError | src/hooks/useFormValidation.ts:68-70 | only that field's error changes |
| FormValidation.ValidationState.MarkTouched | src/hooks/useFormValidation.ts:72-74 | only that field's touched flag changes |
| FormValidation.ValidationState.SetErrors | src/hooks/useFormValidation.ts:82 | the errors map is replaced; `touched` is kept |
| CastingsPage.FilteredCastingsSpec | src/pages/Castings.tsx:23-29 | the filtered list is an order-preserving subsequence, and a casting is in it exactly when it matches the search and the category; a matching casting keeps all its copies |
| CastingsPage.ClearedFiltersKeepAll | src/pages/Castings.tsx:140 | the cleared filters (search "", category "all") keep every casting |
| CastingsPage.SearchIgnoresCase | src/pages/Castings.tsx:24-26 | two terms with the same lower-case form filter alike; lowercasing the term changes nothing |
| TalentSearch.FilteredTalentsSpec | src/pages/TalentSearch.tsx:102-112 | the filtered list is an order-preserving subsequence of the kept talents; the age bounds are inclusive; with availability on, only "Disponible" is kept; a kept talent keeps all its copies |
| TalentSearch.WildcardsKeepAgeRange | src/pages/TalentSearch.tsx:105-109 | with empty text filters and availability off, exactly the age filter remains |
| TalentSearch.GenderIgnored | src/pages/TalentSearch.tsx:21 | the gender filter does not affect the result |
| TalentSearch.ToggleFlips | src/pages/TalentSearch.tsx:114-120 | the toggle flips the membership of the id, keeps the other ids, and creates no duplicate |
| TalentSearch.ToggleTwiceAbsent | src/pages/TalentSearch.tsx:114-120 | toggling an absent id twice restores the list |
| TalentSearch.ToggleTwiceMovesToEnd | src/pages/TalentSearch.tsx:115-119 | toggling 1 twice in [1, 2] gives [2, 1]: a present id that is not last moves to the end instead of being restored |
| TalentSearch.TalentSearchPage.constructor | src/pages/TalentSearch.tsx:15-24 | default filters and no favourites |
| TalentSearch.TalentSearchPage.ToggleFavorite | src/pages/TalentSearch.tsx:114-120 | favourites become the toggled list; membership flips; no duplicate appears |
| TalentSearch.TalentSearchPage.SetFilters | src/pages/TalentSearch.tsx:15 | the filters are replaced; favourites are kept |
| TalentSearch.TalentSearchPage.ResetFilters | src/pages/TalentSearch.tsx:235-243 | the filters return to the defaults (ages 18–50, availability off) |
| ListEditors.AddTrimmed | src/pages/CreateCasting.tsx:45-53 | the result holds the old entries in place, plus the trimmed input exactly when it is non-blank and absent |
| ListEditors.AddTrimmedCases | src/pages/CreateCasting.tsx:45-53 | an accepted input is appended once trimmed; otherwise, and in particular for all-whitespace input, nothing changes |
| ListEditors.AddTrimmedNoDuplicates | src/pages/CreateCasting.tsx:46 | adding never creates a duplicate |
| ListEditors.RemoveAllSpec | src/pages/CreateCasting.tsx:55-60 | removal deletes every equal entry and keeps the others in order with all their copies, without duplicates if there were none |
| CreateCasting.WithField | src/pages/CreateCasting.tsx:41-43 | the named field takes the value and every other field and both lists are kept |
| CreateCasting.RequirementLinesSpec | src/pages/CreateCasting.tsx:105 | the requirements are an order-preserving subsequence of the lines; a line is in them exactly when its trimmed form is non-empty, and then it keeps all its copies; none contains a line break |
| CreateCasting.RequirementLinesNoBlank | src/pages/CreateCasting.tsx:105 | a text without blank lines keeps all its lines, and joining them gives the text back |
| CreateCasting.CreatedAtIsDate | src/pages/CreateCasting.tsx:110 | the creation date is the part of the timestamp before the first 'T' |
| CreateCasting.CategoryWithoutAccent | src/pages/CreateCasting.tsx:101 | a type without é gets its lower-case form as category |
| CreateCasting.SelectorCategoriesNotListed | src/pages/CreateCasting.tsx:192-197 | a type from the selector is its own category, which is none of the list page's category ids |
| CreateCasting.CreateCastingPage.constructor | src/pages/CreateCasting.tsx:21-39 | an empty form and empty inputs |
| CreateCasting.CreateCastingPage.SetField | src/pages/CreateCasting.tsx:41-43 | the form gets the field's value; the inputs are kept |
| CreateCasting.CreateCastingPage.SetNewLanguage | src/pages/CreateCasting.tsx:297 | only the language input changes |
| CreateCasting.CreateCastingPage.SetNewSkill | src/pages/CreateCasting.tsx:324 | only the skill input changes |
| CreateCasting.CreateCastingPage.AddLanguage | src/pages/CreateCasting.tsx:45-53 | the languages become the add-trimmed list; the input is cleared only when the language was added; no duplicates appear |
| CreateCasting.CreateCastingPage.RemoveLanguage | src/pages/CreateCasting.tsx:55-60 | every equal language is removed |
| CreateCasting.CreateCastingPage.AddSkill | src/pages/CreateCasting.tsx:62-70 | the same as AddLanguage for the special skills |
| CreateCasting.CreateCastingPage.RemoveSkill | src/pages/CreateCasting.tsx:72-77 | every equal skill is removed |
| CreateCasting.CreateCastingPage.HandlePublish | src/pages/CreateCasting.tsx:86-129 | without title, production or type the store is untouched; otherwise the built casting (category, requirement lines, status "Actif", 0 applications and views, creation date) is appended under the store's next id, which is returned |
| StepRoles.Apply | src/components/casting-form/StepRoles.tsx:56-58 | an update changes exactly the named field and keeps the id |
| StepRoles.UpdateRoles | src/components/casting-form/StepRoles.tsx:56-58 | the same length; the roles with the id are updated and the others are unchanged in place |
| StepRoles.UpdateRolesKeepsIds | src/components/casting-form/StepRoles.tsx:56-58 | the ids are kept; an absent id changes nothing; distinct ids stay distinct |
| StepRoles.RemoveRoleSpec | src/components/casting-form/StepRoles.tsx:52-54 | removal keeps, in order, exactly the roles with another id |
| StepRoles.AddRoleKeepsIds | src/components/casting-form/StepRoles.tsx:46-50 | adding a role under a fresh id keeps the ids distinct |
| StepRoles.AddBlankSkill | src/components/casting-form/StepRoles.tsx:61-62 | blank input changes neither the roles nor the inputs |
| StepRoles.AddSkillSpec | src/components/casting-form/StepRoles.tsx:60-68 | non-blank input clears that role's input even for a duplicate; the role gains the skill at the end exactly when it was absent and keeps its other fields; other roles are unchanged |
| StepRoles.PendingSkillBlank | src/components/casting-form/StepRoles.tsx:61 | the pending skill is blank exactly when the role's input is missing or all whitespace |
| StepRoles.RemoveSkillSpec | src/components/casting-form/StepRoles.tsx:70-75 | only the role with the id changes: its skills become the filtered list, so it loses every copy of the skill, keeps every other skill with all its copies and in order, and keeps its other fields |
| StepRoles.RoleTypeLabelCases | src/components/casting-form/StepRoles.tsx:77-84 | the generic label "Rôle" is returned exactly for unknown types, and the three known types have three different labels |
| StepRoles.ToggledSpec | src/components/casting-form/StepRoles.tsx:126 | a click expands the card exactly when it was not expanded and otherwise collapses all cards |
| StepRoles.StepRolesState.constructor | src/components/casting-form/StepRoles.tsx:43-44 | the first role is expanded and the inputs are empty |
| StepRoles.StepRolesState.AddRole | src/components/casting-form/StepRoles.tsx:46-50 | one empty role is appended and expanded; the ids stay distinct for a fresh id |
| StepRoles.StepRolesState.RemoveRole | src/components/casting-form/StepRoles.tsx:52-54 | no role with the id remains |
| StepRoles.StepRolesState.UpdateRole | src/components/casting-form/StepRoles.tsx:56-58 | the roles become the updated list with the same ids |
| StepRoles.StepRolesState.SetSkillInput | src/components/casting-form/StepRoles.tsx:44 | only that role's input changes |
| StepRoles.StepRolesState.AddSkill | src/components/casting-form/StepRoles.tsx:60-68 | the roles and the inputs become their values after adding the trimmed pending skill |
| StepRoles.StepRolesState.RemoveSkill | src/components/casting-form/StepRoles.tsx:70-75 | the roles become their value after removing the skill |
| StepRoles.StepRolesState.ToggleExpanded | src/components/casting-form/StepRoles.tsx:126 | the clicked card is expanded exactly when it was not |
| StepMedia.StepMediaState.constructor | src/components/casting-form/StepMedia.tsx:22 | the step's data as given and an empty document input |
| StepMedia.StepMediaState.SetNewDoc | src/components/casting-form/StepMedia.tsx:77 | only the document input changes |
| StepMedia.StepMediaState.SetAuditionInstructions | src/components/casting-form/StepMedia.tsx:56 | only the audition instructions change |
| StepMedia.StepMediaState.SetAdditionalNotes | src/components/casting-form/StepMedia.tsx:102 | only the additional notes change |
| StepMedia.StepMediaState.AddDocument | src/components/casting-form/StepMedia.tsx:24-30 | the documents become the add-trimmed list; the input is cleared only on success; no duplicates appear |
| StepMedia.StepMediaState.RemoveDocument | src/components/casting-form/StepMedia.tsx:32-34 | every equal document is removed |
| CastingDetail.ApplyGateSpec | src/pages/CastingDetail.tsx:65-78 | the dialog opens exactly for a subscribed talent; a visitor goes to login and an unsubscribed talent to the paywall |
| CastingDetail.DisabledOnlyWhenIgnored | src/pages/CastingDetail.tsx:296 | a disabled button is one whose click does nothing; an admin's button is enabled yet does nothing |
| CastingDetail.PathLeadsBack | src/pages/CastingDetail.tsx:46 | the route of a stored casting parses back to its id and shows that casting |
| CastingDetail.MissingRouteId | src/pages/CastingDetail.tsx:46-61 | a missing or empty route id reads as 0, which matches no casting, so "Casting introuvable" is shown |
| CastingDetail.CastingDetailPage.constructor | src/pages/CastingDetail.tsx:43-44 | the dialog is closed and no role is selected |
| CastingDetail.CastingDetailPage.HandleApplyForRole | src/pages/CastingDetail.tsx:65-78 | a visitor gets the casting's path as redirect and goes to login; a non-talent gets nothing; an unsubscribed talent goes to the paywall; otherwise the dialog opens for the role |
| MyApplications.StatusColorGrey | src/pages/MyApplications.tsx:49-60 | the badge is grey exactly for a status that is none of the three, in any casing |
| MyApplications.CountsBounded | src/pages/MyApplications.tsx:62-115 | each count is at most the total, and the three counts sum to at most the total |
| MyApplications.TabSpec | src/pages/MyApplications.tsx:183-239 | a tab shows, in order, exactly the applications with that exact status, each with all its copies, never more than its count |
| MyApplications.StatusesLower | src/pages/MyApplications.tsx:50-63 | the lower-case forms of the three statuses |
| SignUp.AfterSignUpTargetSpec | src/pages/SignUp.tsx:78-85 | a pending redirect wins; otherwise a talent goes to /castings and anyone else to /producer-dashboard |
| SignUp.ApplyThenSignUpReturns | src/pages/SignUp.tsx:78-82 | a visitor sent from a casting's Apply button comes back to that casting once signed up |
| SignUp.SignUpPage.constructor | src/pages/SignUp.tsx:21-53 | the choice step, no account type, and empty forms |
| SignUp.SignUpPage.SelectAccountType | src/pages/SignUp.tsx:104-107 | the type is chosen and the step becomes the form |
| SignUp.SignUpPage.Back | src/pages/SignUp.tsx:226 | the step returns to the choice |
| SignUp.SignUpPage.SetTalentForm | src/pages/SignUp.tsx:87-93 | only the talent form changes |
| SignUp.SignUpPage.SetProducerForm | src/pages/SignUp.tsx:95-101 | only the producer form changes |
| SignUp.SignUpPage.HandleSubmit | src/pages/SignUp.tsx:55-86 | a mismatched confirmation changes nothing and goes nowhere; otherwise the user is signed up with the composed name and role, a pending redirect is consumed and becomes the target, and else the account's home is the target |
| Subscription.SubscribeTargetSpec | src/pages/Subscription.tsx:87-93 | a truthy castingId wins, then a truthy redirect, then /castings; the target is never empty |
| Subscription.FromPaywallGoesToList | src/pages/Subscription.tsx:87-93 | coming from a casting's paywall leads to `/castings?apply=<id>`, not to the casting's path |
| Subscription.SubscriptionPage.constructor | src/pages/Subscription.tsx:16-20 | no plan selected, not processing, and the query parameters as given |
| Subscription.SubscriptionPage.StartSubscribe | src/pages/Subscription.tsx:71-73 | the plan is selected and processing; only that plan's button is disabled |
| Subscription.SubscriptionPage.CompleteSubscribe | src/pages/Subscription.tsx:78-93 | the user, if any, becomes subscribed; processing stops; the redirect is read, not cleared; the target follows the precedence |
| Subscription.SubscriptionPage.HandleSubscribe | src/pages/Subscription.tsx:71-95 | both halves in sequence, with the redirect that was pending when the plan was chosen |
| Seqs.FilterMembership | src/pages/Castings.tsx:23 | an element is kept exactly when it is in the list and satisfies the predicate |
| Seqs.FilterCount | src/pages/CreateCasting.tsx:105 | a filter keeps every copy of an element that satisfies the predicate and none of one that does not |
| Seqs.FilterIsSubsequence | src/pages/Castings.tsx:23 | a filter's output is an order-preserving subsequence of its input |
| Seqs.Find | src/pages/CastingDetail.tsx:46 | `find` returns a value exactly when an element matches, and then the first match |
| Text.TrimIsBlock | src/hooks/useFormValidation.ts:32 | `trim` returns the block between the leading and the trailing whitespace |
| Text.TrimEmptyIff | src/hooks/useFormValidation.ts:32 | the trimmed form is empty exactly for all-whitespace strings, and otherwise starts and ends with a non-space character |
| Text.HasNonSpaceIff | src/pages/CreateCasting.tsx:105 | the truthiness test on the trimmed form holds exactly when a non-space character is present |
| Text.SplitJoin | src/pages/CreateCasting.tsx:105 | joining split pieces with the separator gives the string back, and no piece contains the separator |
| Text.LowerIdempotent | src/pages/Castings.tsx:24-26 | lowercasing twice is the same as lowercasing once |
| Text.ParseIntOfIntToString | src/pages/CastingDetail.tsx:46 | `parseInt(String(i)) === i` |

## Left out

- The regular-expression engine is not modelled. The e-mail and phone patterns are stated as
  predicates over their split points.
- `toLowerCase` is modelled for ASCII and Latin-1 only. Every other character is left
  unchanged.
- Strings are sequences of characters, so UTF-16 code units and surrogate pairs are not
  modelled.
- `parseInt` is modelled as leading whitespace, a sign, an optional `0x` prefix and the
  longest run of digits. NaN is `None`.
- Clocks, randomness and timers are parameters or are dropped:
  - the fresh role id and the ISO timestamp are parameters;
  - the 2-second payment delay splits `handleSubscribe` into `StartSubscribe` and
    `CompleteSubscribe`;
  - timed navigations elsewhere are dropped.
- Subscription.SubscriptionPage.CompleteSubscribe: applies the subscription to the
  session's current user. The source's callback holds the user of the render in which the
  plan was chosen. The two differ only if the session changes during the payment delay.
- Rendering, icons, styling, toasts, routing wiring and the show-password toggles are not
  modelled.
- SignUp.SignUpPage.HandleSubmit: models the submit handler alone. The HTML form
  constraints are not modelled. In the real page the browser does not fire the handler if
  any `required` field is empty, if the e-mail field is not a valid e-mail address
  (`type="email"`), or if the terms box is unchecked. The required fields are the first
  and last name, e-mail, password and confirmation on the talent form (SignUp.tsx:255-412),
  and the company and contact name, e-mail, password and confirmation on the producer form
  (SignUp.tsx:501-644). So the model signs up a user from an all-empty talent form, which
  the browser would block.
- JavaScript numbers are IEEE doubles. The model uses unbounded integers for casting ids,
  application counts and ages. Double precision is not modelled. In particular,
  `CastingContext.NextIdFresh` ("the next id exceeds every stored id") holds only while
  ids stay below 2^53. Past that, `Math.max(...ids, 0) + 1` can round back to the maximum
  itself. A patch given to `updateCasting` can install such an id.
- Billing, About, News, Contact, Profile, Messages, ProducerDashboard, StepPreview,
  StepProjectInfo and PasswordStrengthBar are not modelled. They are static content,
  floating-point display, or forward `onChange` only.
- The application registry is left out: `addApplication`, the `CastingRole` type and the
  application dialog. They are referenced by the casting detail page but are not defined
  by the casting context. The role passed to the Apply handler is a type parameter.
- The talent seed and its ratings, `getCategoryColor` and `getCategoryIcon` are left out.
  They are static display data.
- CastingContext.Merge: a patch field is "absent or a new value". A `Partial<Casting>`
  given `undefined` explicitly for an optional field would unset it. The model has no such
  patch.
- CastingContext.CastingStore.AddCasting: the source computes the new id from the list of
  the current render and appends to the list pending in the state updater. The model reads
  and appends the same current list. The two agree when each render makes one call, as on
  the create-casting page. Two calls before a re-render would issue the same id twice.
- CreateCasting.CreateCastingPage.HandlePublish: does not restate that ids stay distinct.
  That follows from `AddKeepsIdsDistinct`, which `AddCasting` already guarantees.
- Subscription.ShowMessage and Subscription.SubscriptionPage.PlanDisabled are one-line
  predicates of the page and carry no contract of their own. `StartSubscribe` states which
  plan is disabled.
- The e-mail and password fields of the login page are not modelled. Login is modelled at
  the session (`Session.Login`).
