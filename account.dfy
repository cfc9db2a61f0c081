/** The account endpoint (src/app/api/account/route.ts): the caller's account with the limits
    of their tier, a measurement system guessed and stored on first read, and a partial
    update of the two settings a user may change. */
module Account {
  import opened Common
  import opened Measurement
  import opened Schemas
  import opened Store
  import PlanGeneration
  import Members

  // The limits this route reports (the defaults of its own environment-driven constants).
  const PlanDailyLimitFree: nat := 1
  const PlanDailyLimitPro: nat := 3
  const PlanMaxDaysFree: nat := 3
  const PlanMaxDaysPro: nat := 30
  const MembersMaxFree: nat := 2
  const MembersMaxPro: nat := 6

  datatype Limits = Limits(dailyGenerations: nat, maxPlanDays: nat, maxMembers: nat)

  /** The limits shown for a tier. The generation limits are the ones the plan route
      enforces; the member cap agrees with the members route for PRO, and for FREE it
      reports 2 where the members route admits 3. */
  function LimitsFor(tier: Tier): (r: Limits)
    ensures r.dailyGenerations == PlanGeneration.DailyLimit(tier)
    ensures r.maxPlanDays == PlanGeneration.MaxDays(tier)
    ensures tier == Pro ==> r.maxMembers == Members.MembersMaxPro
    ensures tier == Free ==> r.maxMembers == Members.MembersMaxFree - 1
  {
    if tier == Pro then Limits(PlanDailyLimitPro, PlanMaxDaysPro, MembersMaxPro)
    else Limits(PlanDailyLimitFree, PlanMaxDaysFree, MembersMaxFree)
  }

  /** What `GET` answers: the stored account fields, the measurement system in effect and
      the limits. */
  datatype AccountView = AccountView(
    email: Option<string>,
    tier: Tier,
    stripeCustomerId: Option<string>,
    generationsToday: nat,
    generationsResetAt: int,
    measurementSystem: MeasurementSystem,
    newsletterSubscribed: bool,
    createdAt: int,
    limits: Limits)

  /** A response: status, body when the status is a success, and the tables afterwards. */
  datatype Reply<T> = Reply(status: int, body: Option<T>, tables: Tables)

  /** `GET /api/account`, `timezone` being the query parameter of that name. */
  function GetAccount(t: Tables, session: Option<string>, timezone: Option<string>): (r: Reply<AccountView>)
    ensures r.status in {401, 404, 200}
    ensures r.status == 401 <==> session.None?
    ensures r.status == 404 <==> session.Some? && session.value !in t.users
    ensures r.status != 200 ==> r.body.None? && r.tables == t
    ensures r.status == 200 ==>
      && session.Some? && session.value in t.users && r.body.Some?
      && var u := t.users[session.value];
         var v := r.body.value;
         && v.measurementSystem == (if u.measurementSystem.Some? then u.measurementSystem.value
                                    else GuessMeasurementSystem(timezone))
         && r.tables == t.(users := t.users[session.value := u.(measurementSystem := Some(v.measurementSystem))])
         && (u.measurementSystem.Some? ==> r.tables == t)
         && v.limits == LimitsFor(u.tier)
         && v.tier == u.tier && v.email == u.email && v.stripeCustomerId == u.stripeCustomerId
         && v.generationsToday == u.generationsToday && v.generationsResetAt == u.generationsResetAt
         && v.newsletterSubscribed == u.newsletterSubscribed && v.createdAt == u.createdAt
  {
    if session.None? then Reply(401, None, t)
    else if session.value !in t.users then Reply(404, None, t)
    else
      var u := t.users[session.value];
      var system := if u.measurementSystem.Some? then u.measurementSystem.value else GuessMeasurementSystem(timezone);
      var t2 := if u.measurementSystem.Some? then t
                else t.(users := t.users[session.value := u.(measurementSystem := Some(system))]);
      Reply(200, Some(AccountView(u.email, u.tier, u.stripeCustomerId, u.generationsToday,
                                  u.generationsResetAt, system, u.newsletterSubscribed, u.createdAt, LimitsFor(u.tier))), t2)
  }

  /** Once a measurement system has been stored, later reads return the same one whatever
      timezone they pass, and write nothing. */
  lemma GuessIsSticky(t: Tables, session: Option<string>, tz1: Option<string>, tz2: Option<string>)
    requires GetAccount(t, session, tz1).status == 200
    ensures var first := GetAccount(t, session, tz1);
      var second := GetAccount(first.tables, session, tz2);
      second.tables == first.tables && second.body == first.body
  {
  }

  /** A free user with two members is told the member limit is reached, yet the members
      route admits a third. */
  lemma FreeMemberCapsDisagree(t: Tables, uid: string, tz: Option<string>, body: Json, memberId: string)
    requires uid in t.users && t.users[uid].tier == Free && uid in t.households
    requires |MembersOf(t.members, t.households[uid].id)| == 2
    requires ParseMemberCreate(body).Success?
    ensures GetAccount(t, Some(uid), tz).body.value.limits.maxMembers == 2
    ensures Members.AddSpec(t, Some(uid), body, memberId).status == 201
  {
  }

  /** The typed body of a `PUT`: the two settings, each optional. */
  datatype AccountPatch = AccountPatch(measurementSystem: Option<MeasurementSystem>, newsletterSubscribed: Option<bool>)

  /** The user row after the update: a present field is written, an absent one keeps its
      stored value, and no other column changes. */
  function Patched(u: User, p: AccountPatch): (r: User)
    ensures r == u.(measurementSystem := r.measurementSystem, newsletterSubscribed := r.newsletterSubscribed)
    ensures p.measurementSystem.Some? ==> r.measurementSystem == p.measurementSystem
    ensures p.measurementSystem.None? ==> r.measurementSystem == u.measurementSystem
    ensures r.newsletterSubscribed == p.newsletterSubscribed.GetOr(u.newsletterSubscribed)
  {
    var u1 := if p.measurementSystem.Some? then u.(measurementSystem := p.measurementSystem) else u;
    if p.newsletterSubscribed.Some? then u1.(newsletterSubscribed := p.newsletterSubscribed.value) else u1
  }

  /** The patch whose present fields are those of `q`, falling back to those of `p`. */
  function Then(p: AccountPatch, q: AccountPatch): AccountPatch {
    AccountPatch(if q.measurementSystem.Some? then q.measurementSystem else p.measurementSystem,
                 if q.newsletterSubscribed.Some? then q.newsletterSubscribed else p.newsletterSubscribed)
  }

  /** An empty body changes nothing. */
  lemma EmptyPatchIsIdentity(u: User)
    ensures Patched(u, AccountPatch(None, None)) == u
  {
  }

  /** Sending the same update twice has the effect of sending it once. */
  lemma PatchIdempotent(u: User, p: AccountPatch)
    ensures Patched(Patched(u, p), p) == Patched(u, p)
  {
  }

  /** Two updates in a row are one update with the later fields winning. */
  lemma PatchCompose(u: User, p: AccountPatch, q: AccountPatch)
    ensures Patched(Patched(u, p), q) == Patched(u, Then(p, q))
  {
  }

  /** What `PUT` answers: the two settings as stored afterwards. */
  datatype Settings = Settings(measurementSystem: Option<MeasurementSystem>, newsletterSubscribed: bool)

  /** `PUT /api/account`. `validate` stands for the account update schema, which is not part
      of this model: `None` for a body it rejects. An update of a user row that does not
      exist throws, which the route does not catch (500). */
  function PutAccount(t: Tables, session: Option<string>, body: Json, validate: Json -> Option<AccountPatch>)
    : (r: Reply<Settings>)
    ensures r.status in {401, 400, 500, 200}
    ensures r.status == 401 <==> session.None?
    ensures r.status == 400 <==> session.Some? && validate(body).None?
    ensures r.status == 500 <==> session.Some? && validate(body).Some? && session.value !in t.users
    ensures r.status != 200 ==> r.body.None? && r.tables == t
    ensures r.status == 200 ==>
      && session.Some? && session.value in t.users && validate(body).Some? && r.body.Some?
      && var u := Patched(t.users[session.value], validate(body).value);
         && r.tables == t.(users := t.users[session.value := u])
         && r.body.value == Settings(u.measurementSystem, u.newsletterSubscribed)
  {
    if session.None? then Reply(401, None, t)
    else match validate(body)
      case None => Reply(400, None, t)
      case Some(p) =>
        if session.value !in t.users then Reply(500, None, t)
        else
          var u := Patched(t.users[session.value], p);
          Reply(200, Some(Settings(u.measurementSystem, u.newsletterSubscribed)), t.(users := t.users[session.value := u]))
  }

  /** `GET /api/account` on the store. */
  method Get(db: Db, session: Option<string>, timezone: Option<string>) returns (status: int, view: Option<AccountView>)
    requires db.Valid()
    modifies db`users
    ensures db.Valid()
    ensures var r := GetAccount(old(db.Snapshot()), session, timezone);
      status == r.status && view == r.body && db.Snapshot() == r.tables
  {
    if session.None? {
      return 401, None;
    }
    var uid := session.value;
    if uid !in db.users {
      return 404, None;
    }
    var user := db.users[uid];
    var system: MeasurementSystem;
    if user.measurementSystem.Some? {
      system := user.measurementSystem.value;
    } else {
      system := GuessMeasurementSystem(timezone);
      db.users := db.users[uid := user.(measurementSystem := Some(system))];
    }
    status := 200;
    view := Some(AccountView(user.email, user.tier, user.stripeCustomerId, user.generationsToday,
                             user.generationsResetAt, system, user.newsletterSubscribed, user.createdAt, LimitsFor(user.tier)));
  }

  /** `PUT /api/account` on the store. */
  method Put(db: Db, session: Option<string>, body: Json, validate: Json -> Option<AccountPatch>)
    returns (status: int, settings: Option<Settings>)
    requires db.Valid()
    modifies db`users
    ensures db.Valid()
    ensures var r := PutAccount(old(db.Snapshot()), session, body, validate);
      status == r.status && settings == r.body && db.Snapshot() == r.tables
  {
    if session.None? {
      return 401, None;
    }
    var patch := validate(body);
    if patch.None? {
      return 400, None;
    }
    var uid := session.value;
    if uid !in db.users {
      return 500, None;
    }
    var updated := Patched(db.users[uid], patch.value);
    db.users := db.users[uid := updated];
    status := 200;
    settings := Some(Settings(updated.measurementSystem, updated.newsletterSubscribed));
  }
}
