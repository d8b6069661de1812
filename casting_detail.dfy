/** The casting detail page: the route id lookup, and the per-role Apply button with its
    gate (login, then talent role, then subscription) in front of the application dialog. */
module CastingDetail {
  import opened Wrappers
  import opened Seqs
  import opened Text
  import opened CastingContext
  import opened AuthContext

  /** `parseInt(id || "0")`: a missing or empty route id reads as "0"; None is NaN. */
  function RouteId(routeId: Option<string>): Option<int>
  {
    ParseInt(if routeId.None? || routeId.value == "" then "0" else routeId.value)
  }

  /** `castings.find(c => c.id === parseInt(...))`; NaN equals no id. None shows "Casting introuvable". */
  function LookupCasting(castings: seq<Casting>, routeId: Option<string>): Option<Casting>
  {
    match RouteId(routeId)
    case None => None
    case Some(n) => Find(castings, (c: Casting) => c.id == n)
  }

  /** The route `/casting/<id>` of a casting. */
  function CastingPath(id: int): string
  {
    "/casting/" + IntToString(id)
  }

  function LoginPath(id: int): string
  {
    "/login?message=login_required&castingId=" + IntToString(id)
  }

  function SubscriptionPath(id: int): string
  {
    "/subscription?message=subscription_required&castingId=" + IntToString(id)
  }

  /** What a click on a role's Apply button leads to. */
  datatype ApplyOutcome = ToLogin | Ignored | ToSubscription | OpenDialog

  /** The gate of `handleApplyForRole`, checked in the source's order. */
  function ApplyGate(user: Option<User>): ApplyOutcome
  {
    if user.None? then ToLogin
    else if user.value.role != Talent then Ignored
    else if !user.value.hasSubscription then ToSubscription
    else OpenDialog
  }

  /** `disabled={user?.role === 'producer'}`. */
  predicate ApplyDisabled(user: Option<User>)
  {
    user.Some? && user.value.role == Producer
  }

  /** The dialog opens exactly for a logged-in, subscribed talent; a visitor is sent to login
      and an unsubscribed talent to the subscription page. */
  lemma ApplyGateSpec(user: Option<User>)
    ensures ApplyGate(user) == OpenDialog <==> user.Some? && user.value.role == Talent && user.value.hasSubscription
    ensures ApplyGate(user) == ToLogin <==> user.None?
    ensures ApplyGate(user) == ToSubscription <==> user.Some? && user.value.role == Talent && !user.value.hasSubscription
  {
  }

  /** The button is disabled only for producers, whose clicks the gate ignores anyway; for an
      admin the button is enabled and the click does nothing. */
  lemma DisabledOnlyWhenIgnored(user: Option<User>)
    ensures ApplyDisabled(user) ==> ApplyGate(user) == Ignored
    ensures user.Some? && user.value.role == Admin ==> !ApplyDisabled(user) && ApplyGate(user) == Ignored
  {
  }

  /** The id written into a casting's path reads back as that id, so with distinct ids the path
      leads back to the same casting. */
  lemma PathLeadsBack(castings: seq<Casting>, c: Casting)
    requires DistinctIds(castings) && c in castings
    ensures RouteId(Some(IntToString(c.id))) == Some(c.id)
    ensures LookupCasting(castings, Some(IntToString(c.id))) == Some(c)
  {
    ParseIntOfIntToString(c.id);
    IntToStringNonEmpty(c.id);
    var r := Find(castings, (x: Casting) => x.id == c.id);
    var i :| 0 <= i < |castings| && castings[i] == c;
    assert r.Some?;
  }

  lemma IntToStringNonEmpty(i: int)
    ensures IntToString(i) != ""
  {
  }

  /** A missing route id looks up id 0, which no added casting has. */
  lemma MissingRouteId(castings: seq<Casting>)
    requires forall i :: 0 <= i < |castings| ==> castings[i].id >= 1
    ensures RouteId(None) == Some(0) && RouteId(Some("")) == Some(0)
    ensures LookupCasting(castings, None) == None
  {
    ParseIntOfIntToString(0);
    assert IntToString(0) == "0";
  }

  /** The page's state for one casting. The role type is left abstract. */
  class CastingDetailPage<R> {
    var applicationDialogOpen: bool
    var selectedRole: Option<R>

    constructor ()
      ensures !applicationDialogOpen && selectedRole == None
    {
      applicationDialogOpen := false;
      selectedRole := None;
    }

    /** `handleApplyForRole`: returns the navigation target, if any. A visitor also leaves the
        casting's path as the redirect after authentication. */
    method HandleApplyForRole(session: Session, casting: Casting, role: R) returns (navigation: Option<string>)
      modifies this, session
      ensures session.user == old(session.user)
      ensures ApplyGate(session.user) == ToLogin ==>
        navigation == Some(LoginPath(casting.id)) && session.redirectAfterAuth == Some(CastingPath(casting.id)) &&
        applicationDialogOpen == old(applicationDialogOpen) && selectedRole == old(selectedRole)
      ensures ApplyGate(session.user) == Ignored ==>
        navigation == None && session.redirectAfterAuth == old(session.redirectAfterAuth) &&
        applicationDialogOpen == old(applicationDialogOpen) && selectedRole == old(selectedRole)
      ensures ApplyGate(session.user) == ToSubscription ==>
        navigation == Some(SubscriptionPath(casting.id)) && session.redirectAfterAuth == old(session.redirectAfterAuth) &&
        applicationDialogOpen == old(applicationDialogOpen) && selectedRole == old(selectedRole)
      ensures ApplyGate(session.user) == OpenDialog ==>
        navigation == None && session.redirectAfterAuth == old(session.redirectAfterAuth) &&
        applicationDialogOpen && selectedRole == Some(role)
    {
      navigation := None;
      match ApplyGate(session.user)
      case ToLogin =>
        session.SetRedirectAfterAuth(Some(CastingPath(casting.id)));
        navigation := Some(LoginPath(casting.id));
      case Ignored =>
      case ToSubscription =>
        navigation := Some(SubscriptionPath(casting.id));
      case OpenDialog =>
        selectedRole := Some(role);
        applicationDialogOpen := true;
    }
  }
}
