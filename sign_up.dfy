/** The sign-up page: account type choice, the talent and producer forms, and submission,
    which checks the password confirmation, signs the user up, and navigates to the pending
    redirect (consuming it) or to the account type's home. */
module SignUp {
  import opened Wrappers
  import opened AuthContext
  import opened CastingDetail

  /** `'talent' | 'producer' | null`. */
  datatype AccountType = TalentAccount | ProducerAccount | NoAccount

  datatype Step = Choose | Form

  datatype TalentForm = TalentForm(
    firstName: string, lastName: string, email: string, phone: string,
    password: string, confirmPassword: string, talentType: string, age: string, city: string,
    agreeToTerms: bool, agreeToMarketing: bool)

  datatype ProducerForm = ProducerForm(
    companyName: string, contactName: string, email: string, phone: string,
    password: string, confirmPassword: string, productionType: string, website: string,
    agreeToTerms: bool, agreeToMarketing: bool)

  const EmptyTalentForm := TalentForm("", "", "", "", "", "", "", "", "", false, false)
  const EmptyProducerForm := ProducerForm("", "", "", "", "", "", "", "", false, false)

  /** The role handed to `signup`. */
  function RoleOf(t: AccountType): UserRole
  {
    match t
    case TalentAccount => Talent
    case ProducerAccount => Producer
    case NoAccount => NoRole
  }

  /** What is submitted: the talent form for a talent account, the producer form otherwise. */
  datatype Submission = Submission(email: string, password: string, confirmPassword: string, name: string)

  function SubmissionOf(t: AccountType, talent: TalentForm, producer: ProducerForm): Submission
  {
    if t == TalentAccount then
      Submission(talent.email, talent.password, talent.confirmPassword, talent.firstName + " " + talent.lastName)
    else
      Submission(producer.email, producer.password, producer.confirmPassword, producer.contactName)
  }

  /** A JavaScript truthy optional string: present and non-empty. */
  predicate Truthy(o: Option<string>)
  {
    o.Some? && o.value != ""
  }

  /** Where a successful submission goes. */
  function AfterSignUpTarget(redirect: Option<string>, t: AccountType): string
  {
    if Truthy(redirect) then redirect.value
    else if t == TalentAccount then "/castings"
    else "/producer-dashboard"
  }

  /** A pending redirect wins over the account's home; without one a talent lands on the
      casting list and anyone else on the producer dashboard. */
  lemma AfterSignUpTargetSpec(redirect: Option<string>, t: AccountType)
    ensures Truthy(redirect) ==> AfterSignUpTarget(redirect, t) == redirect.value
    ensures !Truthy(redirect) ==>
      (AfterSignUpTarget(redirect, t) == "/castings" <==> t == TalentAccount)
    ensures AfterSignUpTarget(redirect, t) != ""
  {
  }

  /** A visitor sent to log in from a casting's Apply button comes back to that casting
      once signed up, whatever account type is chosen. */
  lemma ApplyThenSignUpReturns(castingId: int, t: AccountType)
    ensures AfterSignUpTarget(Some(CastingPath(castingId)), t) == CastingPath(castingId)
  {
  }

  /** The page's state. */
  class SignUpPage {
    var step: Step
    var accountType: AccountType
    var talentForm: TalentForm
    var producerForm: ProducerForm

    constructor ()
      ensures step == Choose && accountType == NoAccount
      ensures talentForm == EmptyTalentForm && producerForm == EmptyProducerForm
    {
      step := Choose;
      accountType := NoAccount;
      talentForm := EmptyTalentForm;
      producerForm := EmptyProducerForm;
    }

    /** `handleSelectAccountType`. */
    method SelectAccountType(t: AccountType)
      modifies this
      ensures accountType == t && step == Form
      ensures talentForm == old(talentForm) && producerForm == old(producerForm)
    {
      accountType := t;
      step := Form;
    }

    /** Retour: back to the choice, keeping the chosen type and both forms. */
    method Back()
      modifies this
      ensures step == Choose && accountType == old(accountType)
      ensures talentForm == old(talentForm) && producerForm == old(producerForm)
    {
      step := Choose;
    }

    /** `handleTalentChange` and the talent form's other setters. */
    method SetTalentForm(f: TalentForm)
      modifies this
      ensures talentForm == f && producerForm == old(producerForm)
      ensures step == old(step) && accountType == old(accountType)
    {
      talentForm := f;
    }

    /** `handleProducerChange` and the producer form's other setters. */
    method SetProducerForm(f: ProducerForm)
      modifies this
      ensures producerForm == f && talentForm == old(talentForm)
      ensures step == old(step) && accountType == old(accountType)
    {
      producerForm := f;
    }

    /** `handleSubmit`: a confirmation mismatch changes nothing and goes nowhere. */
    method HandleSubmit(session: Session) returns (navigation: Option<string>)
      modifies session
      ensures var sub := SubmissionOf(accountType, talentForm, producerForm);
        sub.password != sub.confirmPassword ==>
          navigation == None && session.user == old(session.user) &&
          session.redirectAfterAuth == old(session.redirectAfterAuth)
      ensures var sub := SubmissionOf(accountType, talentForm, producerForm);
        sub.password == sub.confirmPassword ==>
          session.user == Some(User("1", sub.email, sub.name, RoleOf(accountType), false, None, None, None, None)) &&
          navigation == Some(AfterSignUpTarget(old(session.redirectAfterAuth), accountType)) &&
          session.redirectAfterAuth == (if Truthy(old(session.redirectAfterAuth)) then None else old(session.redirectAfterAuth)) &&
          !Truthy(session.redirectAfterAuth)
    {
      var sub := SubmissionOf(accountType, talentForm, producerForm);
      if sub.password != sub.confirmPassword {
        navigation := None;
      } else {
        session.Signup(sub.email, sub.password, sub.name, RoleOf(accountType));
        if Truthy(session.redirectAfterAuth) {
          var redirect := session.redirectAfterAuth.value;
          session.SetRedirectAfterAuth(None);
          navigation := Some(redirect);
        } else {
          navigation := Some(if accountType == TalentAccount then "/castings" else "/producer-dashboard");
        }
      }
    }
  }
}
