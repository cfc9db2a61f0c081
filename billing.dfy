/** Subscription billing: the payload both billing routes answer with, the choice of the
    customer's latest active subscription (src/app/api/billing/cancel/route.ts and
    src/app/api/billing/subscription/route.ts carry identical copies), scheduling a
    cancellation, and reading the subscription. */
module Billing {
  import opened Common
  import opened Store
  import opened Sorting

  /** A Stripe subscription as the routes read it: `cancelAt` and the items' period ends are
      Unix seconds. */
  datatype Subscription = Subscription(
    id: string,
    customer: string,
    status: string,
    cancelAt: Option<int>,
    cancelAtPeriodEnd: bool,
    itemPeriodEnds: seq<int>)

  /** The items' latest period end, folding `Math.max` from 0. */
  function MaxItemEnd(ends: seq<int>): (r: int)
    ensures r >= 0
    ensures forall i :: 0 <= i < |ends| ==> ends[i] <= r
    ensures r == 0 || r in ends
  {
    if ends == [] then 0
    else
      var init := ends[..|ends| - 1];
      var m := MaxItemEnd(init);
      var e := ends[|ends| - 1];
      assert ends == init + [e];
      if e > m then e else m
  }

  /** `cancel_at || max(items' current_period_end)`: a `cancel_at` of 0 or null falls through. */
  function PeriodEnd(s: Subscription): int {
    if s.cancelAt.Some? && s.cancelAt.value != 0 then s.cancelAt.value else MaxItemEnd(s.itemPeriodEnds)
  }

  /** The JSON both routes answer with; `currentPeriodEnd` is kept in Unix seconds. */
  datatype Payload = Payload(
    hasActiveSubscription: bool,
    cancelAtPeriodEnd: bool,
    currentPeriodEnd: Option<int>,
    subscriptionId: Option<string>)

  const NoSubscription: Payload := Payload(false, false, None, None)

  /** `getSubscriptionPayload`. */
  function PayloadOf(s: Option<Subscription>): (r: Payload)
    ensures r.hasActiveSubscription <==> s.Some?
    ensures s.None? ==> r == NoSubscription
    ensures s.Some? ==> r.cancelAtPeriodEnd == s.value.cancelAtPeriodEnd && r.subscriptionId == Some(s.value.id)
    ensures s.Some? ==> (r.currentPeriodEnd.None? <==> PeriodEnd(s.value) <= 0)
    ensures r.currentPeriodEnd.Some? ==> s.Some? && r.currentPeriodEnd.value == PeriodEnd(s.value) > 0
  {
    match s
    case None => NoSubscription
    case Some(sub) =>
      var end := PeriodEnd(sub);
      Payload(true, sub.cancelAtPeriodEnd, if end > 0 then Some(end) else None, Some(sub.id))
  }

  predicate IsActive(s: Subscription) {
    s.status != "canceled" && s.status != "incomplete_expired"
  }

  /** The active subscriptions, in order. */
  function Active(subs: seq<Subscription>): (r: seq<Subscription>)
    ensures |r| <= |subs|
    ensures forall s :: s in r <==> s in subs && IsActive(s)
  {
    if subs == [] then []
    else
      var init := Active(subs[..|subs| - 1]);
      var last := subs[|subs| - 1];
      assert subs == subs[..|subs| - 1] + [last];
      if IsActive(last) then init + [last] else init
  }

  /** The sort comparator `bPeriodEnd - aPeriodEnd`: later period ends first. */
  predicate LaterEnd(a: Subscription, b: Subscription) {
    PeriodEnd(a) >= PeriodEnd(b)
  }

  /** A reference definition of the choice: the first subscription with the greatest period
      end, found by a scan that moves on only at a strictly later end. */
  function Best(subs: seq<Subscription>): (r: Option<Subscription>)
    ensures r.None? <==> subs == []
    ensures r.Some? ==> r.value in subs
    ensures r.Some? ==> forall s :: s in subs ==> PeriodEnd(s) <= PeriodEnd(r.value)
  {
    if subs == [] then None
    else
      var init := subs[..|subs| - 1];
      var b := Best(init);
      var last := subs[|subs| - 1];
      assert subs == init + [last];
      if b.None? || PeriodEnd(last) > PeriodEnd(b.value) then Some(last) else b
  }

  /** Among subscriptions ending equally late, the chosen one comes first: it occurs no later
      than any subscription whose period end equals its own. */
  lemma {:induction false} BestIsFirst(subs: seq<Subscription>, j: nat)
    requires j < |subs| && PeriodEnd(subs[j]) == PeriodEnd(Best(subs).value)
    ensures Best(subs).value in subs[..j + 1]
  {
    var n := |subs| - 1;
    var init := subs[..n];
    var b := Best(init);
    var last := subs[n];
    assert subs == init + [last];
    if b.None? || PeriodEnd(last) > PeriodEnd(b.value) {
      assert j == n by {
        if j < n {
          assert false;
        }
      }
      assert subs[..j + 1] == subs;
    } else if j < n {
      assert subs[j] == init[j];
      BestIsFirst(init, j);
      assert init[..j + 1] == subs[..j + 1];
    } else {
      assert b.value in init;
      assert subs[..j + 1] == subs;
    }
  }

  /** Sorting with a stable sort by later period end puts that first subscription in front. */
  lemma {:induction false} SortHeadIsBest(subs: seq<Subscription>)
    requires subs != []
    ensures Sort(subs, LaterEnd)[0] == Best(subs).value
  {
    var init := subs[..|subs| - 1];
    var last := subs[|subs| - 1];
    if init == [] {
      assert Sort(init, LaterEnd) == [];
    } else {
      SortHeadIsBest(init);
      var sorted := Sort(init, LaterEnd);
      assert |sorted| > 0 by {
        assert |multiset(sorted)| == |multiset(init)|;
      }
      assert Sort(subs, LaterEnd) == Insert(sorted, last, LaterEnd);
    }
  }

  /** `getLatestActiveSubscription` on the listed subscriptions: drop canceled and expired
      ones, sort by period end, latest first, and take the first. */
  function Latest(subs: seq<Subscription>): (r: Option<Subscription>)
    ensures r == Best(Active(subs))
    ensures r.None? <==> forall s :: s in subs ==> !IsActive(s)
    ensures r.Some? ==> r.value in subs && IsActive(r.value)
    ensures r.Some? ==> forall s :: s in subs && IsActive(s) ==> PeriodEnd(s) <= PeriodEnd(r.value)
  {
    var active := Active(subs);
    if active == [] then None
    else
      var sorted := Sort(active, LaterEnd);
      assert |sorted| == |active| by {
        assert |multiset(sorted)| == |multiset(active)|;
      }
      SortHeadIsBest(active);
      Some(sorted[0])
  }

  /** The most subscriptions one listing returns. */
  const ListLimit: nat := 20

  /** The subscriptions of one customer, in the order the account keeps them. */
  function ForCustomer(subs: seq<Subscription>, customer: string): (r: seq<Subscription>)
    ensures forall s :: s in r <==> s in subs && s.customer == customer
  {
    if subs == [] then []
    else
      var init := ForCustomer(subs[..|subs| - 1], customer);
      var last := subs[|subs| - 1];
      assert subs == subs[..|subs| - 1] + [last];
      if last.customer == customer then init + [last] else init
  }

  /** `subscriptions.list({customer, status: "all", limit: 20})`. */
  function Listed(subs: seq<Subscription>, customer: string): (r: seq<Subscription>)
    ensures |r| <= ListLimit
    ensures forall s :: s in r ==> s in subs && s.customer == customer
    // The customer's subscriptions in list order, cut off after the first `ListLimit`.
    ensures r == if |ForCustomer(subs, customer)| <= ListLimit then ForCustomer(subs, customer)
                 else ForCustomer(subs, customer)[..ListLimit]
  {
    var mine := ForCustomer(subs, customer);
    if |mine| <= ListLimit then mine else mine[..ListLimit]
  }

  /** The active filter keeps order: it distributes over concatenation. */
  lemma {:induction false} ActiveAppend(a: seq<Subscription>, b: seq<Subscription>)
    ensures Active(a + b) == Active(a) + Active(b)
  {
    if b == [] {
      assert a + b == a;
    } else {
      var init := b[..|b| - 1];
      var last := b[|b| - 1];
      assert b == init + [last];
      assert a + b == (a + init) + [last];
      assert (a + b)[..|a + b| - 1] == a + init;
      ActiveAppend(a, init);
    }
  }

  /** The subscription once `cancel_at_period_end` is set on it, if it carries the id. */
  function Flag(s: Subscription, id: string): Subscription {
    if s.id == id then s.(cancelAtPeriodEnd := true) else s
  }

  /** `subscriptions.update(id, {cancel_at_period_end: true})` on the account's subscriptions. */
  function ScheduleCancel(subs: seq<Subscription>, id: string): (r: seq<Subscription>)
    ensures |r| == |subs|
    ensures forall i :: 0 <= i < |subs| ==> r[i] == Flag(subs[i], id)
  {
    if subs == [] then [] else ScheduleCancel(subs[..|subs| - 1], id) + [Flag(subs[|subs| - 1], id)]
  }

  lemma ScheduleCancelPrefix(subs: seq<Subscription>, id: string, n: nat)
    requires n <= |subs|
    ensures ScheduleCancel(subs, id)[..n] == ScheduleCancel(subs[..n], id)
  {
  }

  lemma {:induction false} ForCustomerSchedule(subs: seq<Subscription>, id: string, customer: string)
    ensures ForCustomer(ScheduleCancel(subs, id), customer) == ScheduleCancel(ForCustomer(subs, customer), id)
  {
    if subs != [] {
      var n := |subs| - 1;
      ForCustomerSchedule(subs[..n], id, customer);
      ScheduleCancelPrefix(subs, id, n);
      var mine := ForCustomer(subs[..n], customer);
      assert ScheduleCancel(mine + [subs[n]], id) == ScheduleCancel(mine, id) + [Flag(subs[n], id)] by {
        assert (mine + [subs[n]])[..|mine|] == mine;
      }
    }
  }

  lemma {:induction false} ActiveSchedule(subs: seq<Subscription>, id: string)
    ensures Active(ScheduleCancel(subs, id)) == ScheduleCancel(Active(subs), id)
  {
    if subs != [] {
      var n := |subs| - 1;
      ActiveSchedule(subs[..n], id);
      ScheduleCancelPrefix(subs, id, n);
      var act := Active(subs[..n]);
      assert ScheduleCancel(act + [subs[n]], id) == ScheduleCancel(act, id) + [Flag(subs[n], id)] by {
        assert (act + [subs[n]])[..|act|] == act;
      }
    }
  }

  lemma {:induction false} BestSchedule(subs: seq<Subscription>, id: string)
    ensures Best(ScheduleCancel(subs, id)) == if subs == [] then None else Some(Flag(Best(subs).value, id))
  {
    if subs != [] {
      var n := |subs| - 1;
      ScheduleCancelPrefix(subs, id, n);
      BestSchedule(subs[..n], id);
    }
  }

  /** Scheduling the cancellation of a subscription changes nothing about which subscription
      is chosen, except that the chosen one now carries the flag when it has the id. */
  lemma LatestAfterSchedule(subs: seq<Subscription>, customer: string, id: string)
    ensures var before := Latest(Listed(subs, customer));
      Latest(Listed(ScheduleCancel(subs, id), customer))
        == if before.None? then None else Some(Flag(before.value, id))
  {
    ForCustomerSchedule(subs, id, customer);
    var mine := ForCustomer(subs, customer);
    var listed := Listed(subs, customer);
    assert Listed(ScheduleCancel(subs, id), customer) == ScheduleCancel(listed, id) by {
      if |mine| > ListLimit {
        ScheduleCancelPrefix(mine, id, ListLimit);
      }
    }
    ActiveSchedule(listed, id);
    BestSchedule(Active(listed), id);
  }

  /** The caller may cancel: a user row with a customer id and the PRO tier. */
  predicate ProCustomer(users: map<string, User>, uid: string) {
    uid in users && Truthy(users[uid].stripeCustomerId) && users[uid].tier == Pro
  }

  /** A billing response and the account's subscriptions afterwards. */
  datatype CancelOutcome = CancelOutcome(status: int, payload: Option<Payload>, subscriptions: seq<Subscription>)

  /** `POST /api/billing/cancel`. `configured` says whether the Stripe secret key is set and
      `stripeUp` whether the Stripe calls succeed (a failure is caught as a 500). */
  function CancelSpec(users: map<string, User>, subs: seq<Subscription>, session: Option<string>,
                      configured: bool, stripeUp: bool): (r: CancelOutcome)
    ensures r.status in {401, 500, 404, 200}
    ensures r.status != 200 ==> r.payload.None? && r.subscriptions == subs
    ensures r.status == 401 <==> session.None?
    ensures r.status == 500 <==> session.Some? && (!configured || (ProCustomer(users, session.value) && !stripeUp))
    ensures r.status == 404 <==>
      && session.Some? && configured
      && (!ProCustomer(users, session.value)
          || (stripeUp && Latest(Listed(subs, users[session.value].stripeCustomerId.value)).None?))
    ensures r.status == 200 <==>
      && session.Some? && configured && stripeUp && ProCustomer(users, session.value)
      && Latest(Listed(subs, users[session.value].stripeCustomerId.value)).Some?
    ensures r.status == 200 ==>
      var s := Latest(Listed(subs, users[session.value].stripeCustomerId.value));
         && s.Some?
         && r.payload == Some(PayloadOf(Some(s.value.(cancelAtPeriodEnd := true))))
         && r.subscriptions == (if s.value.cancelAtPeriodEnd then subs else ScheduleCancel(subs, s.value.id))
  {
    if session.None? then CancelOutcome(401, None, subs)
    else if !configured then CancelOutcome(500, None, subs)
    else if !ProCustomer(users, session.value) then CancelOutcome(404, None, subs)
    else if !stripeUp then CancelOutcome(500, None, subs)
    else match Latest(Listed(subs, users[session.value].stripeCustomerId.value))
      case None => CancelOutcome(404, None, subs)
      case Some(s) =>
        if s.cancelAtPeriodEnd then CancelOutcome(200, Some(PayloadOf(Some(s))), subs)
        else
          var subs2 := ScheduleCancel(subs, s.id);
          CancelOutcome(200, Some(PayloadOf(Some(s.(cancelAtPeriodEnd := true)))), subs2)
  }

  /** Cancelling again answers the same and changes nothing more. */
  lemma CancelIdempotent(users: map<string, User>, subs: seq<Subscription>, session: Option<string>,
                         configured: bool, stripeUp: bool)
    requires CancelSpec(users, subs, session, configured, stripeUp).status == 200
    ensures var first := CancelSpec(users, subs, session, configured, stripeUp);
      CancelSpec(users, first.subscriptions, session, configured, stripeUp) == first
  {
    var customer := users[session.value].stripeCustomerId.value;
    var s := Latest(Listed(subs, customer)).value;
    if !s.cancelAtPeriodEnd {
      LatestAfterSchedule(subs, customer, s.id);
    }
  }

  /** `GET /api/billing/subscription`: a user without a customer id gets the empty payload
      without Stripe being asked. */
  function SubscriptionSpec(users: map<string, User>, subs: seq<Subscription>, session: Option<string>,
                            configured: bool, stripeUp: bool): (r: Result<Payload, int>)
    ensures r.Failure? ==> r.error in {401, 500}
    ensures r == Failure(401) <==> session.None?
    ensures r == Failure(500) <==>
      && session.Some? && (!configured
          || (session.value in users && Truthy(users[session.value].stripeCustomerId) && !stripeUp))
    ensures r.Success? && !(session.value in users && Truthy(users[session.value].stripeCustomerId)) ==>
      r.value == NoSubscription
    ensures r.Success? && session.value in users && Truthy(users[session.value].stripeCustomerId) ==>
      r.value == PayloadOf(Latest(Listed(subs, users[session.value].stripeCustomerId.value)))
  {
    if session.None? then Failure(401)
    else if !configured then Failure(500)
    else if session.value !in users || !Truthy(users[session.value].stripeCustomerId) then Success(NoSubscription)
    else if !stripeUp then Failure(500)
    else Success(PayloadOf(Latest(Listed(subs, users[session.value].stripeCustomerId.value))))
  }

  /** What a cancellation answers is what reading the subscription answers afterwards. */
  lemma CancelThenRead(users: map<string, User>, subs: seq<Subscription>, session: Option<string>,
                       configured: bool, stripeUp: bool)
    requires CancelSpec(users, subs, session, configured, stripeUp).status == 200
    ensures var c := CancelSpec(users, subs, session, configured, stripeUp);
      SubscriptionSpec(users, c.subscriptions, session, configured, stripeUp) == Success(c.payload.value)
  {
    var customer := users[session.value].stripeCustomerId.value;
    var s := Latest(Listed(subs, customer)).value;
    if !s.cancelAtPeriodEnd {
      LatestAfterSchedule(subs, customer, s.id);
    }
  }

  /** The account's subscriptions as Stripe holds them. */
  class StripeAccount {
    var subscriptions: seq<Subscription>

    constructor (subscriptions: seq<Subscription>)
      ensures this.subscriptions == subscriptions
    {
      this.subscriptions := subscriptions;
    }
  }

  /** `POST /api/billing/cancel` against the user table and the Stripe account. */
  method Cancel(db: Db, account: StripeAccount, session: Option<string>, configured: bool, stripeUp: bool)
    returns (status: int, payload: Option<Payload>)
    modifies account
    ensures var r := CancelSpec(db.users, old(account.subscriptions), session, configured, stripeUp);
      status == r.status && payload == r.payload && account.subscriptions == r.subscriptions
  {
    if session.None? {
      return 401, None;
    }
    if !configured {
      return 500, None;
    }
    if !ProCustomer(db.users, session.value) {
      return 404, None;
    }
    if !stripeUp {
      return 500, None;
    }
    var latest := Latest(Listed(account.subscriptions, db.users[session.value].stripeCustomerId.value));
    if latest.None? {
      return 404, None;
    }
    var s := latest.value;
    if s.cancelAtPeriodEnd {
      return 200, Some(PayloadOf(Some(s)));
    }
    account.subscriptions := ScheduleCancel(account.subscriptions, s.id);
    status := 200;
    payload := Some(PayloadOf(Some(s.(cancelAtPeriodEnd := true))));
  }
}
