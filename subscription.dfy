/** The subscription page: choosing a plan starts a simulated payment; when it completes the
    user is marked subscribed and sent on to the casting they came from, the pending
    redirect, or the casting list. */
module Subscription {
  import opened Wrappers
  import opened Text
  import opened AuthContext
  import opened CastingDetail
  import opened SignUp

  const PlanIds: seq<string> := ["monthly", "quarterly", "yearly"]

  /** `searchParams.get('message') === 'subscription_required'`. */
  predicate ShowMessage(message: Option<string>)
  {
    message == Some("subscription_required")
  }

  /** Where a completed subscription goes: a truthy `castingId` parameter first, then a truthy
      redirect captured when the plan was chosen, then the casting list. */
  function SubscribeTarget(castingId: Option<string>, redirect: Option<string>): string
  {
    if Truthy(castingId) then "/castings?apply=" + castingId.value
    else if Truthy(redirect) then redirect.value
    else "/castings"
  }

  /** The castingId parameter takes precedence over the redirect, which takes precedence over
      the default; the target is never empty. */
  lemma SubscribeTargetSpec(castingId: Option<string>, redirect: Option<string>)
    ensures Truthy(castingId) ==> SubscribeTarget(castingId, redirect) == "/castings?apply=" + castingId.value
    ensures !Truthy(castingId) && Truthy(redirect) ==> SubscribeTarget(castingId, redirect) == redirect.value
    ensures !Truthy(castingId) && !Truthy(redirect) ==> SubscribeTarget(castingId, redirect) == "/castings"
    ensures SubscribeTarget(castingId, redirect) != ""
  {
  }

  /** Coming from a casting's paywall, the payment leads to the casting list with the id as the
      `apply` parameter, not to the casting's own path, even when that path is the pending
      redirect. */
  lemma FromPaywallGoesToList(id: int)
    ensures SubscribeTarget(Some(IntToString(id)), Some(CastingPath(id))) == "/castings?apply=" + IntToString(id)
    ensures SubscribeTarget(Some(IntToString(id)), Some(CastingPath(id))) != CastingPath(id)
  {
    IntToStringNonEmpty(id);
    var t := SubscribeTarget(Some(IntToString(id)), Some(CastingPath(id)));
    assert t[8] == 's' && CastingPath(id)[8] == '/';
  }

  /** The state a started payment carries to its completion: the chosen plan and the redirect
      as it was when the plan was chosen. */
  datatype PendingSubscribe = PendingSubscribe(planId: string, redirect: Option<string>)

  /** The page's state; `castingId` and `message` are the query parameters. */
  class SubscriptionPage {
    const castingId: Option<string>
    const message: Option<string>
    var selectedPlan: Option<string>
    var isProcessing: bool

    constructor (castingId: Option<string>, message: Option<string>)
      ensures this.castingId == castingId && this.message == message
      ensures selectedPlan == None && !isProcessing
    {
      this.castingId := castingId;
      this.message := message;
      selectedPlan := None;
      isProcessing := false;
    }

    /** `disabled={isProcessing && selectedPlan === plan.id}`. */
    predicate PlanDisabled(planId: string)
      reads this
    {
      isProcessing && selectedPlan == Some(planId)
    }

    /** The first half of `handleSubscribe`, up to the simulated payment delay. */
    method StartSubscribe(session: Session, planId: string) returns (pending: PendingSubscribe)
      modifies this
      ensures selectedPlan == Some(planId) && isProcessing
      ensures pending == PendingSubscribe(planId, session.redirectAfterAuth)
      ensures PlanDisabled(planId) && forall p :: p != planId ==> !PlanDisabled(p)
    {
      selectedPlan := Some(planId);
      isProcessing := true;
      pending := PendingSubscribe(planId, session.redirectAfterAuth);
    }

    /** The second half: subscribe the user (a no-op without one), stop processing and return
        the target. The redirect is read, not cleared. */
    method CompleteSubscribe(session: Session, pending: PendingSubscribe) returns (navigation: string)
      modifies this, session
      ensures old(session.user).Some? ==> session.user == Some(old(session.user).value.(hasSubscription := true))
      ensures old(session.user).None? ==> session.user == None
      ensures session.redirectAfterAuth == old(session.redirectAfterAuth)
      ensures !isProcessing && selectedPlan == old(selectedPlan)
      ensures navigation == SubscribeTarget(castingId, pending.redirect)
    {
      session.SetSubscription(true);
      isProcessing := false;
      navigation := SubscribeTarget(castingId, pending.redirect);
    }

    /** `handleSubscribe` with the delay elapsed at once. */
    method HandleSubscribe(session: Session, planId: string) returns (navigation: string)
      modifies this, session
      ensures old(session.user).Some? ==> session.user == Some(old(session.user).value.(hasSubscription := true))
      ensures old(session.user).None? ==> session.user == None
      ensures session.redirectAfterAuth == old(session.redirectAfterAuth)
      ensures selectedPlan == Some(planId) && !isProcessing
      ensures navigation == SubscribeTarget(castingId, old(session.redirectAfterAuth))
    {
      var pending := StartSubscribe(session, planId);
      navigation := CompleteSubscribe(session, pending);
    }
  }
}
