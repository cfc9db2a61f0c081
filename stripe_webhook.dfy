/** The Stripe webhook (src/app/api/webhooks/stripe/route.ts): a verified event moves users
    between the free and the pro tier. Each branch is one `updateMany` over the user table. */
module StripeWebhook {
  import opened Common
  import opened Store

  /** The fields of a completed checkout session that the handler reads. `customer` is the
      customer id when the session carries it as a string, `None` when it is absent or an
      expanded object. */
  datatype CheckoutSession = CheckoutSession(
    customerEmail: Option<string>,
    detailsEmail: Option<string>,
    metadataUserId: Option<string>,
    customer: Option<string>)

  /** A verified event, reduced to the types the handler distinguishes. */
  datatype Event =
    | CheckoutCompleted(session: CheckoutSession)
    | SubscriptionDeleted(customer: string)
    | PaymentFailed(customer: string)
    | Other(eventType: string)

  /** `customer_email || customer_details?.email`. */
  function SessionEmail(s: CheckoutSession): (r: Option<string>)
    ensures Truthy(s.customerEmail) ==> r == s.customerEmail
    ensures !Truthy(s.customerEmail) ==> r == s.detailsEmail
  {
    if Truthy(s.customerEmail) then s.customerEmail else s.detailsEmail
  }

  /** Which users a completed checkout upgrades. */
  datatype Target = ById(id: string) | ByEmail(email: string) | ByCustomer(customerId: string) | NoTarget

  /** The user id from the metadata wins; failing it the email; failing both the customer id. */
  function CheckoutTarget(s: CheckoutSession): (r: Target)
    ensures r.ById? <==> Truthy(s.metadataUserId)
    ensures r.ById? ==> r.id == s.metadataUserId.value
    ensures r.ByEmail? <==> !Truthy(s.metadataUserId) && Truthy(SessionEmail(s))
    ensures r.ByEmail? ==> r.email == SessionEmail(s).value
    ensures r.ByCustomer? <==> !Truthy(s.metadataUserId) && !Truthy(SessionEmail(s)) && Truthy(s.customer)
    ensures r.ByCustomer? ==> r.customerId == s.customer.value
  {
    if Truthy(s.metadataUserId) then ById(s.metadataUserId.value)
    else if Truthy(SessionEmail(s)) then ByEmail(SessionEmail(s).value)
    else if Truthy(s.customer) then ByCustomer(s.customer.value)
    else NoTarget
  }

  /** The `where` clause of the chosen branch. */
  predicate Matches(u: User, target: Target) {
    match target
    case ById(id) => u.id == id
    case ByEmail(e) => u.email == Some(e)
    case ByCustomer(c) => u.stripeCustomerId == Some(c)
    case NoTarget => false
  }

  /** The `data` of the chosen branch: PRO, and for the id and email branches the session's
      customer id when it has one (`undefined` leaves the column alone). */
  function Upgrade(u: User, target: Target, customer: Option<string>): User {
    if target.ByCustomer? || customer.None? then u.(tier := Pro)
    else u.(tier := Pro, stripeCustomerId := customer)
  }

  /** Sets FREE on every user carrying the customer id. */
  function Downgrade(users: map<string, User>, customerId: string): map<string, User> {
    map id | id in users :: if users[id].stripeCustomerId == Some(customerId) then users[id].(tier := Free) else users[id]
  }

  /** The user table after the event. */
  function ApplyEvent(users: map<string, User>, e: Event): (r: map<string, User>)
    ensures r.Keys == users.Keys
    ensures forall id :: id in users ==>
      r[id] == users[id].(tier := r[id].tier, stripeCustomerId := r[id].stripeCustomerId)
  {
    match e
    case CheckoutCompleted(s) =>
      var target := CheckoutTarget(s);
      map id | id in users :: if Matches(users[id], target) then Upgrade(users[id], target, s.customer) else users[id]
    case SubscriptionDeleted(c) => Downgrade(users, c)
    case PaymentFailed(c) => Downgrade(users, c)
    case Other(_) => users
  }

  /** A completed checkout upgrades exactly the users its target matches: they become PRO,
      and take the session's customer id unless they were matched by customer id or the
      session has none; everyone else is left as they were. */
  lemma CheckoutUpgradesTarget(users: map<string, User>, s: CheckoutSession, id: string)
    requires id in users
    ensures var r := ApplyEvent(users, CheckoutCompleted(s)); var target := CheckoutTarget(s);
      && (Matches(users[id], target) ==> r[id].tier == Pro)
      && (Matches(users[id], target) && !target.ByCustomer? && s.customer.Some? ==> r[id].stripeCustomerId == s.customer)
      && (Matches(users[id], target) && (target.ByCustomer? || s.customer.None?) ==>
            r[id].stripeCustomerId == users[id].stripeCustomerId)
      && (!Matches(users[id], target) ==> r[id] == users[id])
  {
  }

  /** A deleted subscription or a failed payment makes every user with that customer id
      FREE and touches no one else. */
  lemma DowngradeByCustomer(users: map<string, User>, e: Event, id: string)
    requires e.SubscriptionDeleted? || e.PaymentFailed?
    requires id in users
    ensures users[id].stripeCustomerId == Some(e.customer) ==> ApplyEvent(users, e)[id] == users[id].(tier := Free)
    ensures users[id].stripeCustomerId != Some(e.customer) ==> ApplyEvent(users, e)[id] == users[id]
  {
  }

  /** Every update assigns constants, so delivering the same event again changes nothing. */
  lemma {:induction false} ApplyEventIdempotent(users: map<string, User>, e: Event)
    ensures ApplyEvent(ApplyEvent(users, e), e) == ApplyEvent(users, e)
  {
    var once := ApplyEvent(users, e);
    var twice := ApplyEvent(once, e);
    assert twice.Keys == once.Keys;
    forall id | id in once
      ensures twice[id] == once[id]
    {
      match e
      case CheckoutCompleted(s) =>
        var target := CheckoutTarget(s);
        if Matches(users[id], target) {
          assert once[id] == Upgrade(users[id], target, s.customer);
          assert Matches(once[id], target) by {
            match target
            case ById(_) =>
            case ByEmail(_) =>
            case ByCustomer(_) =>
            case NoTarget =>
          }
        } else {
          assert once[id] == users[id];
        }
      case SubscriptionDeleted(c) =>
        assert once == Downgrade(users, c);
      case PaymentFailed(c) =>
        assert once == Downgrade(users, c);
      case Other(_) =>
    }
  }

  /** Ids stay attached to their rows. */
  lemma ApplyEventKeepsIds(users: map<string, User>, e: Event)
    requires UsersById(users)
    ensures UsersById(ApplyEvent(users, e))
  {
  }

  /** `POST /api/webhooks/stripe`. `construct` stands for `constructEvent`: the event the
      payload carries when the signature verifies against the secret, `None` when it throws. */
  method HandleWebhook(db: Db, payload: string, signature: Option<string>, secret: Option<string>,
                       construct: (string, string, string) -> Option<Event>)
    returns (status: int)
    requires db.Valid()
    modifies db`users
    ensures db.Valid()
    ensures !Truthy(signature) || !Truthy(secret) ==> status == 400 && db.users == old(db.users)
    ensures Truthy(signature) && Truthy(secret) && construct(payload, signature.value, secret.value).None? ==>
      status == 400 && db.users == old(db.users)
    ensures Truthy(signature) && Truthy(secret) && construct(payload, signature.value, secret.value).Some? ==>
      status == 200 && db.users == ApplyEvent(old(db.users), construct(payload, signature.value, secret.value).value)
  {
    if !Truthy(signature) || !Truthy(secret) {
      return 400;
    }
    var event := construct(payload, signature.value, secret.value);
    if event.None? {
      return 400;
    }
    ApplyEventKeepsIds(db.users, event.value);
    db.users := ApplyEvent(db.users, event.value);
    status := 200;
  }
}
