/** Starting a PRO checkout (src/app/api/billing/checkout/route.ts): the preconditions on
    the configuration and the caller, and the checkout session the route asks Stripe for. */
module Checkout {
  import opened Common
  import opened Store
  import StripeWebhook

  /** The environment the route reads. */
  datatype Config = Config(
    secretKey: Option<string>,
    priceId: Option<string>,
    appUrl: Option<string>,
    nextAuthUrl: Option<string>)

  const DefaultBaseUrl: string := "http://localhost:3000"

  /** `NEXT_PUBLIC_APP_URL || NEXTAUTH_URL || "http://localhost:3000"`. */
  function BaseUrl(c: Config): (r: string)
    ensures r != ""
    ensures Truthy(c.appUrl) ==> r == c.appUrl.value
    ensures !Truthy(c.appUrl) && Truthy(c.nextAuthUrl) ==> r == c.nextAuthUrl.value
    ensures !Truthy(c.appUrl) && !Truthy(c.nextAuthUrl) ==> r == DefaultBaseUrl
  {
    if Truthy(c.appUrl) then c.appUrl.value
    else if Truthy(c.nextAuthUrl) then c.nextAuthUrl.value
    else DefaultBaseUrl
  }

  /** Who pays: an existing Stripe customer, or a new one created from the email. */
  datatype Payer = Customer(id: string) | CustomerEmail(email: string)

  /** The fields of the checkout session the route creates. */
  datatype SessionRequest = SessionRequest(
    priceId: string,
    successUrl: string,
    cancelUrl: string,
    metadataUserId: string,
    payer: Payer)

  /** The checks made before Stripe is called, in the route's order: session (401),
      configuration (500), user (404), already PRO (400), no way to reach the customer
      (400); then the session request. */
  function Prepare(users: map<string, User>, session: Option<string>, c: Config): (r: Result<SessionRequest, int>)
    ensures r.Failure? ==> r.error in {401, 500, 404, 400}
    ensures r == Failure(401) <==> session.None?
    ensures r == Failure(500) <==> session.Some? && (!Truthy(c.secretKey) || !Truthy(c.priceId))
    ensures r == Failure(404) <==>
      session.Some? && Truthy(c.secretKey) && Truthy(c.priceId) && session.value !in users
    ensures r == Failure(400) <==>
      && session.Some? && Truthy(c.secretKey) && Truthy(c.priceId) && session.value in users
      && (users[session.value].tier == Pro
          || (!Truthy(users[session.value].stripeCustomerId) && !Truthy(users[session.value].email)))
    ensures r.Success? ==>
      && session.Some? && session.value in users
      && var u := users[session.value];
         && u.tier == Free
         && r.value.metadataUserId == u.id
         && r.value.priceId == c.priceId.value
         && r.value.successUrl == BaseUrl(c) + "/dashboard/account?billing=success"
         && r.value.cancelUrl == BaseUrl(c) + "/dashboard/account?billing=cancel"
         && (Truthy(u.stripeCustomerId) ==> r.value.payer == Customer(u.stripeCustomerId.value))
         && (!Truthy(u.stripeCustomerId) ==> Truthy(u.email) && r.value.payer == CustomerEmail(u.email.value))
  {
    if session.None? then Failure(401)
    else if !Truthy(c.secretKey) || !Truthy(c.priceId) then Failure(500)
    else if session.value !in users then Failure(404)
    else
      var u := users[session.value];
      if u.tier == Pro then Failure(400)
      else if !Truthy(u.stripeCustomerId) && !Truthy(u.email) then Failure(400)
      else
        var base := BaseUrl(c);
        Success(SessionRequest(c.priceId.value, base + "/dashboard/account?billing=success",
                               base + "/dashboard/account?billing=cancel", u.id,
                               if Truthy(u.stripeCustomerId) then Customer(u.stripeCustomerId.value)
                               else CustomerEmail(u.email.value)))
  }

  /** `POST /api/billing/checkout`. `create` stands for `checkout.sessions.create`: the
      session's url (`None` for none) or a failure when the call throws. The answer is the
      url, or the status of the rejection. */
  function StartCheckout(users: map<string, User>, session: Option<string>, c: Config,
                         create: SessionRequest -> Result<Option<string>, string>): (r: Result<string, int>)
    ensures Prepare(users, session, c).Failure? ==> r == Failure(Prepare(users, session, c).error)
    ensures Prepare(users, session, c).Success? ==>
      var created := create(Prepare(users, session, c).value);
      && (r.Success? <==> created.Success? && Truthy(created.value))
      && (r.Success? ==> created == Success(Some(r.value)) && r.value != "")
      && (r.Failure? ==> r.error == 500)
  {
    match Prepare(users, session, c)
    case Failure(code) => Failure(code)
    case Success(request) =>
      match create(request)
      case Failure(_) => Failure(500)
      case Success(url) => if Truthy(url) then Success(url.value) else Failure(500)
  }

  /** A PRO user never reaches Stripe. */
  lemma ProUserIsRejected(users: map<string, User>, uid: string, c: Config,
                          create: SessionRequest -> Result<Option<string>, string>)
    requires uid in users && users[uid].tier == Pro
    ensures StartCheckout(users, Some(uid), c, create).Failure?
  {
  }

  /** The session carries the caller's id, so when it completes the webhook upgrades exactly
      the caller, whatever emails or customer the completed session reports. */
  lemma CheckoutUpgradesCaller(users: map<string, User>, uid: string, c: Config,
                               customerEmail: Option<string>, detailsEmail: Option<string>, customer: Option<string>)
    requires UsersById(users) && uid != ""
    requires Prepare(users, Some(uid), c).Success?
    ensures var request := Prepare(users, Some(uid), c).value;
      var completed := StripeWebhook.CheckoutSession(customerEmail, detailsEmail, Some(request.metadataUserId), customer);
      var after := StripeWebhook.ApplyEvent(users, StripeWebhook.CheckoutCompleted(completed));
      && after[uid].tier == Pro
      && forall other :: other in users && other != uid ==> after[other] == users[other]
  {
    var request := Prepare(users, Some(uid), c).value;
    var completed := StripeWebhook.CheckoutSession(customerEmail, detailsEmail, Some(request.metadataUserId), customer);
    assert StripeWebhook.CheckoutTarget(completed) == StripeWebhook.ById(uid);
    forall other | other in users
      ensures StripeWebhook.Matches(users[other], StripeWebhook.ById(uid)) <==> other == uid
    {
    }
  }
}
