/** The session: zero or one logged-in user plus a one-shot "redirect after auth" path,
    with login (demo e-mail lookup, otherwise a synthesised free user), demo login by id,
    signup, logout and the subscription switch. */
module AuthContext {
  import opened Wrappers
  import opened Seqs
  import opened Text

  /** `'talent' | 'producer' | 'admin' | null`. */
  datatype UserRole = Talent | Producer | Admin | NoRole

  datatype User = User(
    id: string,
    email: string,
    name: string,
    role: UserRole,
    hasSubscription: bool,
    avatar: Option<string>,
    bio: Option<string>,
    location: Option<string>,
    phone: Option<string>)

  /** A seeded identity: the user record plus the three fields (password, label, description) login strips from it. */
  datatype DemoUser = DemoUser(account: User, password: string, displayLabel: string, description: string)

  // Long texts are written as concatenations of shorter literals.
  function DemoUsers(): seq<DemoUser>
  {
    [
      DemoUser(User("demo-talent-sub", "talent@demo.tn", "Amira Ben Salah", Talent, true, Some(""),
          Some("Actrice et mannequin " + "basée à Tunis. " + "5 ans d'expérience " + "en cinéma et théâtre."),
          Some("Tunis, Tunisie"), Some("+216 50 123 456")),
        "demo", "Talent (Abonnée)",
        "Actrice professionnelle " + "avec abonnement actif — " + "accès complet " + "aux candidatures."),
      DemoUser(User("demo-talent-free", "free@demo.tn", "Karim Hammami", Talent, false, Some(""),
          Some("Jeune acteur passionné, " + "diplômé du conservatoire " + "de Tunis."),
          Some("Sousse, Tunisie"), Some("+216 55 987 654")),
        "demo", "Talent (Non abonné)",
        "Acteur débutant " + "sans abonnement — " + "teste le paywall " + "d'application."),
      DemoUser(User("demo-producer", "producer@demo.tn", "Nadia Bouazizi", Producer, true, Some(""),
          Some("Directrice de casting " + "chez Carthage Productions. " + "10 ans d'expérience."),
          Some("Tunis, Tunisie"), Some("+216 71 234 567")),
        "demo", "Productrice",
        "Directrice de casting — " + "gère les projets " + "et consulte les candidatures."),
      DemoUser(User("demo-admin", "admin@demo.tn", "Slim Trabelsi", Admin, true, Some(""),
          Some("Administrateur " + "de la plateforme " + "Tunisia Casting."),
          Some("Tunis, Tunisie"), Some("+216 71 000 000")),
        "demo", "Administrateur",
        "Accès administrateur — " + "supervision complète " + "de la plateforme.")
    ]
  }

  /** Demo ids and demo e-mails are pairwise distinct, so both lookups are unambiguous. */
  lemma DemoUsersDistinct()
    ensures forall i, j :: 0 <= i < j < |DemoUsers()| ==>
      DemoUsers()[i].account.id != DemoUsers()[j].account.id &&
      DemoUsers()[i].account.email != DemoUsers()[j].account.email
  {
  }

  function FindDemoByEmail(email: string): Option<DemoUser>
  {
    Find(DemoUsers(), (d: DemoUser) => d.account.email == email)
  }

  function FindDemoById(demoUserId: string): Option<DemoUser>
  {
    Find(DemoUsers(), (d: DemoUser) => d.account.id == demoUserId)
  }

  /** The user `login` installs. */
  function LoginUser(email: string, password: string, role: UserRole): User
  {
    match FindDemoByEmail(email)
    case Some(d) => d.account
    case None => FreshUser(email, role)
  }

  /** The user a non-demo login synthesises. */
  function FreshUser(email: string, role: UserRole): User
  {
    User("1", email, Split(email, '@')[0], role, false, None, None, None, None)
  }

  /** The synthesised user is '1', named by the text before the first '@', with the given
      role and no subscription. */
  lemma FreshUserShape(email: string, role: UserRole)
    ensures var u := FreshUser(email, role);
      u.id == "1" && u.email == email && u.role == role && !u.hasSubscription &&
      |u.name| <= |email| && u.name == email[..|u.name|] && '@' !in u.name && (|u.name| < |email| ==> email[|u.name|] == '@')
  {
    SplitFirstPiece(email, '@');
  }

  /** A demo e-mail logs in as that demo record, stripped of password, label and description,
      whatever role and password are given. */
  lemma LoginAsDemoEmail(i: nat, password: string, role: UserRole)
    requires i < |DemoUsers()|
    ensures LoginUser(DemoUsers()[i].account.email, password, role) == DemoUsers()[i].account
  {
    DemoUsersDistinct();
  }

  /** Any other e-mail logs in as the synthesised free user. */
  lemma LoginOtherEmail(email: string, password: string, role: UserRole)
    requires forall i :: 0 <= i < |DemoUsers()| ==> DemoUsers()[i].account.email != email
    ensures LoginUser(email, password, role) == FreshUser(email, role)
  {
  }

  /** The provider's state. */
  class Session {
    var user: Option<User>
    var redirectAfterAuth: Option<string>

    constructor ()
      ensures user == None && redirectAfterAuth == None
    {
      user := None;
      redirectAfterAuth := None;
    }

    /** `isAuthenticated = !!user`. */
    predicate IsAuthenticated()
      reads this
    {
      user.Some?
    }

    method Login(email: string, password: string, role: UserRole)
      modifies this
      ensures user == Some(LoginUser(email, password, role)) && IsAuthenticated()
      ensures redirectAfterAuth == old(redirectAfterAuth)
    {
      user := Some(LoginUser(email, password, role));
    }

    /** An unknown demo id leaves the session unchanged. */
    method LoginAsDemo(demoUserId: string)
      modifies this
      ensures FindDemoById(demoUserId).Some? ==> user == Some(FindDemoById(demoUserId).value.account)
      ensures FindDemoById(demoUserId).None? ==> user == old(user)
      ensures redirectAfterAuth == old(redirectAfterAuth)
    {
      var found := FindDemoById(demoUserId);
      if found.Some? {
        user := Some(found.value.account);
      }
    }

    /** Signup always yields an unsubscribed user '1' with the given name and role. */
    method Signup(email: string, password: string, name: string, role: UserRole)
      modifies this
      ensures user == Some(User("1", email, name, role, false, None, None, None, None)) && IsAuthenticated()
      ensures redirectAfterAuth == old(redirectAfterAuth)
    {
      user := Some(User("1", email, name, role, false, None, None, None, None));
    }

    /** Logout clears the user and the pending redirect. */
    method Logout()
      modifies this
      ensures user == None && redirectAfterAuth == None && !IsAuthenticated()
    {
      user := None;
      redirectAfterAuth := None;
    }

    /** A no-op when no one is logged in; otherwise only `hasSubscription` changes. */
    method SetSubscription(hasSubscription: bool)
      modifies this
      ensures old(user).None? ==> user == None
      ensures old(user).Some? ==> user == Some(old(user).value.(hasSubscription := hasSubscription))
      ensures redirectAfterAuth == old(redirectAfterAuth)
    {
      if user.Some? {
        user := Some(user.value.(hasSubscription := hasSubscription));
      }
    }

    method SetRedirectAfterAuth(path: Option<string>)
      modifies this
      ensures redirectAfterAuth == path && user == old(user)
    {
      redirectAfterAuth := path;
    }
  }
}
