/** The plan generation endpoint (src/app/api/plans/generate/route.ts): the rolling daily
    quota, the tier gates, the normalisation of each generated day to the configured meal
    slots, and the plan's passage from `generating` to `ready` or `failed`. */
module PlanGeneration {
  import opened Common
  import opened Text
  import opened Records
  import opened Measurement
  import opened Constraints
  import opened Schemas
  import opened Llm
  import opened Store
  import opened Sorting

  // ---------------------------------------------------------------------------
  // Tier limits (the defaults of the route's environment-driven constants).

  const PlanDailyLimitFree: nat := 1
  const PlanDailyLimitPro: nat := 3
  const PlanMaxDaysFree: nat := 3
  const PlanMaxDaysPro: nat := 30

  function DailyLimit(tier: Tier): nat {
    if tier == Pro then PlanDailyLimitPro else PlanDailyLimitFree
  }

  function MaxDays(tier: Tier): nat {
    if tier == Pro then PlanMaxDaysPro else PlanMaxDaysFree
  }

  // ---------------------------------------------------------------------------
  // The rolling quota.

  /** Twenty-four hours in milliseconds. */
  const DayMillis: int := 24 * 60 * 60 * 1000

  /** At least twenty-four hours have passed since the counter was last reset. */
  predicate WindowExpired(now: int, resetAt: int) {
    now - resetAt >= DayMillis
  }

  /** The generations counted against today's quota: none once the window has expired. */
  function EffectiveCount(u: User, now: int): nat {
    if WindowExpired(now, u.generationsResetAt) then 0 else u.generationsToday
  }

  /** The counter update of a successful generation: restart the window at one, or count
      one more in the current window. */
  function CountAfterSuccess(u: User, now: int): (r: User)
    ensures r == u.(generationsToday := r.generationsToday, generationsResetAt := r.generationsResetAt)
    ensures EffectiveCount(r, now) == EffectiveCount(u, now) + 1
    ensures WindowExpired(now, u.generationsResetAt) ==> r.generationsResetAt == now
    ensures !WindowExpired(now, u.generationsResetAt) ==> r.generationsResetAt == u.generationsResetAt
  {
    if WindowExpired(now, u.generationsResetAt) then u.(generationsToday := 1, generationsResetAt := now)
    else u.(generationsToday := u.generationsToday + 1)
  }

  /** Waiting never uses up quota: the count seen later is at most the count seen now. */
  lemma EffectiveCountFallsWithTime(u: User, now: int, later: int)
    requires now <= later
    ensures EffectiveCount(u, later) <= EffectiveCount(u, now)
    ensures WindowExpired(now, u.generationsResetAt) ==> EffectiveCount(u, later) == 0
  {
  }

  // ---------------------------------------------------------------------------
  // Normalising a generated day to the configured slots.

  /** The value stored for one configured slot: `null` when the slot is disabled, else the
      generated value under the slot's key, else `null`. */
  function SlotValue(raw: seq<(string, Option<Meal>)>, e: SlotEntry): Option<Meal> {
    if !e.slot.enabled then None
    else match Get(raw, e.key)
      case Some(v) => v
      case None => None
  }

  /** The record `normalizeMealsForConfiguredSlots` builds: one assignment per configured slot,
      in the configuration's order. */
  function Normalized(raw: seq<(string, Option<Meal>)>, slots: seq<SlotEntry>): seq<(string, Option<Meal>)> {
    if slots == [] then []
    else
      var last := slots[|slots| - 1];
      Put(Normalized(raw, slots[..|slots| - 1]), last.key, SlotValue(raw, last))
  }

  function SlotKeys(slots: seq<SlotEntry>): set<string> {
    set i | 0 <= i < |slots| :: slots[i].key
  }

  /** The normalised record has exactly the configured keys, each once; generated keys
      that are not configured are dropped. */
  lemma {:induction false} NormalizedKeys(raw: seq<(string, Option<Meal>)>, slots: seq<SlotEntry>)
    ensures KeySet(Normalized(raw, slots)) == SlotKeys(slots)
    ensures UniqueKeys(Normalized(raw, slots))
  {
    if slots != [] {
      var init := slots[..|slots| - 1];
      var last := slots[|slots| - 1];
      NormalizedKeys(raw, init);
      KeySetPut(Normalized(raw, init), last.key, SlotValue(raw, last));
      UniqueKeysPut(Normalized(raw, init), last.key, SlotValue(raw, last));
      assert SlotKeys(slots) == SlotKeys(init) + {last.key} by {
        forall k ensures k in SlotKeys(slots) <==> k in SlotKeys(init) + {last.key} {
          if k in SlotKeys(slots) {
            var i :| 0 <= i < |slots| && slots[i].key == k;
            if i < |init| {
              assert init[i].key == k;
            }
          }
          if k in SlotKeys(init) {
            var i :| 0 <= i < |init| && init[i].key == k;
            assert slots[i].key == k;
          }
        }
      }
    }
  }

  /** Each configured slot holds `null` when disabled, whatever was generated for it; when
      enabled, the generated value if its key was generated, else `null`. (A key configured
      twice takes the value of its last configuration.) */
  lemma {:induction false} NormalizedValue(raw: seq<(string, Option<Meal>)>, slots: seq<SlotEntry>, i: nat)
    requires i < |slots|
    requires forall j :: i < j < |slots| ==> slots[j].key != slots[i].key
    ensures Get(Normalized(raw, slots), slots[i].key) ==
      Some(if !slots[i].slot.enabled then None
           else if Get(raw, slots[i].key).Some? then Get(raw, slots[i].key).value
           else None)
  {
    var init := slots[..|slots| - 1];
    var last := slots[|slots| - 1];
    GetPut(Normalized(raw, init), last.key, SlotValue(raw, last), slots[i].key);
    GetSomeIffKey(raw, slots[i].key);
    if i < |init| {
      assert init[i] == slots[i];
      NormalizedValue(raw, init, i);
    }
  }

  /** `normalizeMealsForConfiguredSlots`. */
  method NormalizeMeals(raw: seq<(string, Option<Meal>)>, slots: seq<SlotEntry>) returns (normalized: seq<(string, Option<Meal>)>)
    ensures normalized == Normalized(raw, slots)
  {
    normalized := [];
    for i := 0 to |slots|
      invariant normalized == Normalized(raw, slots[..i])
    {
      assert slots[..i + 1][..i] == slots[..i];
      var e := slots[i];
      if !e.slot.enabled {
        normalized := Put(normalized, e.key, None);
      } else {
        var found := Get(raw, e.key);
        normalized := Put(normalized, e.key, if found.Some? then found.value else None);
      }
    }
    assert slots[..|slots|] == slots;
  }

  /** The plan day rows written for the generated days, in the generated order. */
  function PlanDaysFor(planId: string, days: seq<LlmDay>, slots: seq<SlotEntry>): (r: seq<PlanDay>)
    ensures |r| == |days|
  {
    if days == [] then []
    else
      var last := days[|days| - 1];
      PlanDaysFor(planId, days[..|days| - 1], slots) + [PlanDay(planId, last.dayIndex, Normalized(last.meals, slots))]
  }

  /** Every written day belongs to the plan, keeps its generated index and holds exactly the
      configured slots. */
  lemma {:induction false} PlanDaysForShape(planId: string, days: seq<LlmDay>, slots: seq<SlotEntry>, k: nat)
    requires k < |days|
    ensures var d := PlanDaysFor(planId, days, slots)[k];
      && d.planId == planId
      && d.dayIndex == days[k].dayIndex
      && d.meals == Normalized(days[k].meals, slots)
      && KeySet(d.meals) == SlotKeys(slots)
  {
    NormalizedKeys(days[k].meals, slots);
    if k < |days| - 1 {
      PlanDaysForShape(planId, days[..|days| - 1], slots, k);
    }
  }

  method BuildPlanDays(planId: string, days: seq<LlmDay>, slots: seq<SlotEntry>) returns (rows: seq<PlanDay>)
    ensures rows == PlanDaysFor(planId, days, slots)
  {
    rows := [];
    for i := 0 to |days|
      invariant rows == PlanDaysFor(planId, days[..i], slots)
    {
      assert days[..i + 1][..i] == days[..i];
      var meals := NormalizeMeals(days[i].meals, slots);
      rows := rows + [PlanDay(planId, days[i].dayIndex, meals)];
    }
    assert days[..|days|] == days;
  }

  // ---------------------------------------------------------------------------
  // The measurement default (see the timezone finding in the README).

  /** The `timezone` member the page sends with the request, when it is a string. */
  function BodyTimezone(body: Json): Option<string> {
    if !body.JObj? then None
    else match Get(body.members, "timezone")
      case Some(v) => if v.JStr? then Some(v.s) else None
      case None => None
  }

  /** As written: the route reads `timezone` from the parsed request, which never has one
      because the request schema does not declare it, so the guess is always metric. */
  function InitialMeasurementAsWritten(request: PlanRequest): (m: MeasurementSystem)
    ensures m == Metric
  {
    GuessMeasurementSystem(None)
  }

  /** Corrected: the guess is made from the timezone the client sent. */
  function InitialMeasurement(body: Json): (m: MeasurementSystem)
    ensures m == Imperial <==> BodyTimezone(body).Some? && StartsWith(BodyTimezone(body).value, "America/")
  {
    GuessMeasurementSystem(BodyTimezone(body))
  }

  /** A request from New York that the schema accepts is guessed metric as written, and
      imperial once the client's timezone is read. */
  lemma TimezoneIsDropped(dateParses: string -> bool)
    requires dateParses("2026-01-05")
    ensures var body := JObj([("startDate", JStr("2026-01-05")), ("numDays", JNum(3.0)),
                              ("timezone", JStr("America/New_York"))]);
      && ParseGeneratePlan(body, dateParses).Success?
      && InitialMeasurementAsWritten(ParseGeneratePlan(body, dateParses).value) == Metric
      && InitialMeasurement(body) == Imperial
  {
    var f := [("startDate", JStr("2026-01-05")), ("numDays", JNum(3.0)), ("timezone", JStr("America/New_York"))];
    GetFirst(f, "startDate", 0);
    GetFirst(f, "numDays", 1);
    GetFirst(f, "timezone", 2);
    assert Get(f, "mealsEnabled") == None;
    assert Get(f, "useItUpMode") == None;
    assert "America/New_York"[..8] == "America/";
  }

  // ---------------------------------------------------------------------------
  // The handler.

  /** What the request gates let through: the caller's user row, the parsed request and
      whether use-it-up mode is in effect. */
  datatype Admitted = Admitted(user: User, request: PlanRequest, useItUp: bool)

  /** The checks made before anything is written, in the route's order: session (401),
      user (404), quota (429), body (400), day count against the tier (403). */
  function Admission(users: map<string, User>, session: Option<string>, body: Json, now: int,
                     dateParses: string -> bool): (r: Result<Admitted, int>)
    ensures r.Failure? ==> r.error in {401, 404, 429, 400, 403}
    ensures r == Failure(401) <==> session.None?
    ensures r == Failure(404) <==> session.Some? && session.value !in users
    ensures r == Failure(429) <==>
      && session.Some? && session.value in users
      && EffectiveCount(users[session.value], now) >= DailyLimit(users[session.value].tier)
    ensures r == Failure(400) <==>
      && session.Some? && session.value in users
      && EffectiveCount(users[session.value], now) < DailyLimit(users[session.value].tier)
      && ParseGeneratePlan(body, dateParses).Failure?
    ensures r == Failure(403) <==>
      && session.Some? && session.value in users
      && EffectiveCount(users[session.value], now) < DailyLimit(users[session.value].tier)
      && ParseGeneratePlan(body, dateParses).Success?
      && ParseGeneratePlan(body, dateParses).value.numDays > MaxDays(users[session.value].tier)
    ensures r.Success? ==>
      && session.Some? && session.value in users && r.value.user == users[session.value]
      && EffectiveCount(r.value.user, now) < DailyLimit(r.value.user.tier)
      && ParseGeneratePlan(body, dateParses) == Success(r.value.request)
      && 1 <= r.value.request.numDays <= MaxDays(r.value.user.tier)
      && (r.value.useItUp <==> r.value.user.tier == Pro && r.value.request.useItUpMode)
  {
    if session.None? then Failure(401)
    else if session.value !in users then Failure(404)
    else
      var user := users[session.value];
      if EffectiveCount(user, now) >= DailyLimit(user.tier) then Failure(429)
      else match ParseGeneratePlan(body, dateParses)
        case Failure(_) => Failure(400)
        case Success(request) =>
          if request.numDays > MaxDays(user.tier) then Failure(403)
          else Success(Admitted(user, request, if user.tier == Pro then request.useItUpMode else false))
  }

  /** The user row once a missing measurement system has been guessed and stored. */
  function MeasuredUser(u: User, body: Json): (r: User)
    ensures r == u.(measurementSystem := r.measurementSystem)
    ensures u.measurementSystem.Some? ==> r == u
    ensures u.measurementSystem.None? ==> r.measurementSystem == Some(InitialMeasurement(body))
  {
    if u.measurementSystem.None? then u.(measurementSystem := Some(InitialMeasurement(body))) else u
  }

  /** The tables once the caller's measurement default has been stored. */
  function Measured(t: Tables, uid: string, body: Json): (r: Tables)
    requires uid in t.users
    ensures r == t.(users := t.users[uid := MeasuredUser(t.users[uid], body)])
    ensures t.users[uid].measurementSystem.Some? ==> r == t
  {
    if t.users[uid].measurementSystem.Some? then t
    else t.(users := t.users[uid := MeasuredUser(t.users[uid], body)])
  }

  function PantryNames(items: seq<PantryItem>): (r: seq<string>)
    ensures |r| == |items| && forall i :: 0 <= i < |items| ==> r[i] == items[i].name
  {
    if items == [] then [] else PantryNames(items[..|items| - 1]) + [items[|items| - 1].name]
  }

  /** What the generation is given once the household has been read: the household, its
      constraints (from the members in `sortOrder`) and the pantry names, which are passed
      only in use-it-up mode. */
  datatype Prepared = Prepared(household: Household, constraints: ConstraintResult, pantry: Option<seq<string>>)

  /** Reads the caller's household; `None` is the 400 for a missing or empty household. */
  function Prepare(t: Tables, uid: string, useItUp: bool): (r: Option<Prepared>)
    ensures r.None? <==> uid !in t.households || MembersOf(t.members, t.households[uid].id) == []
    ensures r.Some? ==>
      && r.value.household == t.households[uid]
      && r.value.constraints == Constraints.Constraints(Sort(MembersOf(t.members, r.value.household.id), BySortOrder))
      && r.value.constraints.householdSize == |MembersOf(t.members, r.value.household.id)|
      && (r.value.pantry.Some? <==> useItUp)
      && (useItUp ==> r.value.pantry.value == PantryNames(PantryOf(t.pantry, r.value.household.id)))
  {
    if uid !in t.households then None
    else
      var household := t.households[uid];
      var ms := MembersOf(t.members, household.id);
      if ms == [] then None
      else
        var sorted := Sort(ms, BySortOrder);
        assert |sorted| == |ms| by {
          assert |multiset(sorted)| == |multiset(ms)|;
        }
        Some(Prepared(household, Constraints.Constraints(sorted),
                      if useItUp then Some(PantryNames(PantryOf(t.pantry, household.id))) else None))
  }

  /** The end of a request that created its plan, from the tables before the plan was
      inserted: the transaction that stores the days, marks the plan `ready` and counts the
      generation, or the update that marks it `failed`. */
  function Complete(t: Tables, uid: string, plan: Plan, now: int, generated: Result<seq<LlmDay>, string>): (r: Outcome)
    requires uid in t.users
    ensures r.status == (if generated.Success? then 201 else 500)
    ensures r.tables.plans == t.plans + [plan.(status := if generated.Success? then Ready else Failed)]
    ensures r.tables.households == t.households && r.tables.members == t.members && r.tables.pantry == t.pantry
    ensures generated.Failure? ==> r.tables.users == t.users && r.tables.planDays == t.planDays
    ensures generated.Success? ==>
      && r.tables.users == t.users[uid := CountAfterSuccess(t.users[uid], now)]
      && r.tables.planDays == t.planDays + PlanDaysFor(plan.id, generated.value, plan.mealsEnabled)
  {
    match generated
    case Failure(_) => Outcome(500, t.(plans := t.plans + [plan.(status := Failed)]))
    case Success(days) =>
      Outcome(201, t.(users := t.users[uid := CountAfterSuccess(t.users[uid], now)],
                      plans := t.plans + [plan.(status := Ready)],
                      planDays := t.planDays + PlanDaysFor(plan.id, days, plan.mealsEnabled)))
  }

  /** The generation `generateMealPlan` performs: from the constraints, the request, the
      pantry names and the unit system to the generated days, or the error it throws. */
  type Generation = (ConstraintResult, PlanRequest, Option<seq<string>>, MeasurementSystem) -> Result<seq<LlmDay>, string>

  /** The services the handler relies on: date parsing (`Date.parse`) and the generation. */
  datatype Services = Services(dateParses: string -> bool, generate: Generation)

  /** The deployed generation: the model configuration, the chat completion call and
      `JSON.parse` plugged into `Llm.GenerateMealPlan`. */
  function Deployed(envModel: Option<string>, envMaxTokens: Option<string>,
                    call: Request -> Result<Option<string>, string>, parse: string -> Option<Json>): Generation
  {
    (c: ConstraintResult, request: PlanRequest, pantry: Option<seq<string>>, m: MeasurementSystem) =>
      GenerateMealPlan(c, request, pantry, m, envModel, envMaxTokens, call, parse)
  }

  /** The whole request, with the insert of the plan, the generation and the transaction that
      completes it taken as one step. */
  function GenerateSpec(t: Tables, session: Option<string>, body: Json, now: int, planId: string,
                        s: Services): (r: Outcome)
    ensures r.status in {401, 404, 429, 400, 403, 201, 500}
    ensures Admission(t.users, session, body, now, s.dateParses).Failure? ==>
      r == Outcome(Admission(t.users, session, body, now, s.dateParses).error, t)
    ensures r.tables.households == t.households && r.tables.members == t.members && r.tables.pantry == t.pantry
    ensures r.status !in {201, 500} ==> r.tables.plans == t.plans && r.tables.planDays == t.planDays
    // An admitted request is refused with 400 exactly when the household is missing or empty;
    // otherwise it is answered 201 or 500 as the generation succeeds or fails, and a success
    // stores one row per generated day.
    ensures Admission(t.users, session, body, now, s.dateParses).Success? ==>
      var a := Admission(t.users, session, body, now, s.dateParses).value;
      var uid := session.value;
      && (r.status == 400 <==> uid !in t.households || MembersOf(t.members, t.households[uid].id) == [])
      && (r.status == 400 ==> r.tables == Measured(t, uid, body))
      && (r.status != 400 ==>
            var p := Prepare(Measured(t, uid, body), uid, a.useItUp).value;
            var g := s.generate(p.constraints, a.request, p.pantry, MeasuredUser(t.users[uid], body).measurementSystem.value);
            && (r.status == 201 <==> g.Success?)
            && (g.Success? ==> r.tables.planDays == t.planDays + PlanDaysFor(planId, g.value, a.request.mealsEnabled)))
  {
    match Admission(t.users, session, body, now, s.dateParses)
    case Failure(code) => Outcome(code, t)
    case Success(a) =>
      var uid := session.value;
      var t1 := Measured(t, uid, body);
      match Prepare(t1, uid, a.useItUp)
      case None => Outcome(400, t1)
      case Some(p) =>
        var plan := Plan(planId, p.household.id, a.request.startDate, a.request.numDays,
                         a.request.mealsEnabled, a.useItUp, Generating);
        Complete(t1, uid, plan, now,
                 s.generate(p.constraints, a.request, p.pantry, t1.users[uid].measurementSystem.value))
  }

  /** No account is added, removed or moved to another tier, and a refusal for the body
      only stores the guessed unit system. */
  lemma GenerateKeepsAccounts(t: Tables, session: Option<string>, body: Json, now: int, planId: string, s: Services)
    ensures var r := GenerateSpec(t, session, body, now, planId, s);
      && r.tables.users.Keys == t.users.Keys
      && (forall id :: id in t.users ==> r.tables.users[id].tier == t.users[id].tier)
      && (UsersById(t.users) ==> UsersById(r.tables.users))
      && (r.status == 400 ==> forall id :: id in t.users ==>
            r.tables.users[id] == t.users[id].(measurementSystem := r.tables.users[id].measurementSystem))
  {
    match Admission(t.users, session, body, now, s.dateParses)
    case Failure(_) =>
    case Success(a) =>
      var uid := session.value;
      var t1 := Measured(t, uid, body);
      assert t1.users[uid].tier == t.users[uid].tier;
  }

  /** A failed generation leaves the quota alone; a successful one counts against the
      caller's quota and no one else's, and never beyond the daily limit. */
  lemma GenerateCountsQuota(t: Tables, session: Option<string>, body: Json, now: int, planId: string, s: Services)
    ensures var r := GenerateSpec(t, session, body, now, planId, s);
      && (r.status == 500 ==> r.tables.planDays == t.planDays && forall id :: id in t.users ==>
            && r.tables.users[id].generationsToday == t.users[id].generationsToday
            && r.tables.users[id].generationsResetAt == t.users[id].generationsResetAt)
      && (r.status == 201 ==>
            && session.Some? && session.value in t.users
            && EffectiveCount(r.tables.users[session.value], now) == EffectiveCount(t.users[session.value], now) + 1
            && EffectiveCount(r.tables.users[session.value], now) <= DailyLimit(t.users[session.value].tier)
            && (forall id :: id in t.users && id != session.value ==> r.tables.users[id] == t.users[id]))
  {
    match Admission(t.users, session, body, now, s.dateParses)
    case Failure(_) =>
    case Success(a) =>
      var uid := session.value;
      var t1 := Measured(t, uid, body);
      match Prepare(t1, uid, a.useItUp)
      case None =>
      case Some(p) =>
        assert t1.users[uid].generationsToday == t.users[uid].generationsToday;
        assert t1.users[uid].generationsResetAt == t.users[uid].generationsResetAt;
  }

  /** A request that reaches the generation appends exactly one plan: for the caller's
      household, which has members, with the id given, within the tier's day limit, in
      use-it-up mode only on PRO, and `ready` or `failed` as the status says; a successful
      one only appends days. */
  lemma GenerateAppendsPlan(t: Tables, session: Option<string>, body: Json, now: int, planId: string, s: Services)
    ensures var r := GenerateSpec(t, session, body, now, planId, s);
      && (r.status in {201, 500} ==>
            && session.Some? && session.value in t.users && session.value in t.households
            && |r.tables.plans| == |t.plans| + 1 && r.tables.plans[..|t.plans|] == t.plans
            && var plan := r.tables.plans[|t.plans|];
            && plan.id == planId && plan.householdId == t.households[session.value].id
            && plan.status == (if r.status == 201 then Ready else Failed)
            && 1 <= plan.numDays <= MaxDays(t.users[session.value].tier)
            && (plan.useItUpMode ==> t.users[session.value].tier == Pro)
            && MembersOf(t.members, plan.householdId) != [])
      && (r.status == 201 ==>
            |r.tables.planDays| >= |t.planDays| && r.tables.planDays[..|t.planDays|] == t.planDays)
  {
    match Admission(t.users, session, body, now, s.dateParses)
    case Failure(_) =>
    case Success(a) =>
      var uid := session.value;
      var t1 := Measured(t, uid, body);
      match Prepare(t1, uid, a.useItUp)
      case None =>
      case Some(p) =>
        var r := GenerateSpec(t, session, body, now, planId, s);
        assert r.tables.plans[..|t.plans|] == t.plans;
        assert |r.tables.planDays| >= |t.planDays| ==> r.tables.planDays[..|t.planDays|] == t1.planDays;
  }

  /** On the free tier a user gets one plan per window: once a generation has succeeded, every
      request made before the window it counted in has lasted twenty-four hours is refused
      with 429, whatever its body. */
  lemma FreeTierOnePlanPerWindow(t: Tables, uid: string, first: Json, second: Json, now: int, later: int,
                                 firstId: string, secondId: string, s: Services)
    requires uid in t.users && t.users[uid].tier == Free
    requires GenerateSpec(t, Some(uid), first, now, firstId, s).status == 201
    requires later - GenerateSpec(t, Some(uid), first, now, firstId, s).tables.users[uid].generationsResetAt < DayMillis
    ensures GenerateSpec(GenerateSpec(t, Some(uid), first, now, firstId, s).tables, Some(uid), second, later, secondId, s).status == 429
  {
    GenerateCountsQuota(t, Some(uid), first, now, firstId, s);
    var t2 := GenerateSpec(t, Some(uid), first, now, firstId, s).tables;
    var u := t2.users[uid];
    assert u.tier == Free;
    assert EffectiveCount(u, now) >= 1;
    assert EffectiveCount(u, later) == u.generationsToday >= 1;
    assert Admission(t2.users, Some(uid), second, later, s.dateParses) == Failure(429);
  }

  /** `POST /api/plans/generate`. */
  method Generate(db: Db, session: Option<string>, body: Json, now: int, planId: string, s: Services)
    returns (status: int)
    requires db.Valid()
    modifies db
    ensures db.Valid()
    ensures status == GenerateSpec(old(db.Snapshot()), session, body, now, planId, s).status
    ensures db.Snapshot() == GenerateSpec(old(db.Snapshot()), session, body, now, planId, s).tables
  {
    ghost var t0 := db.Snapshot();
    var admission := Admission(db.users, session, body, now, s.dateParses);
    if admission.Failure? {
      return admission.error;
    }
    var a := admission.value;
    var uid := session.value;

    if a.user.measurementSystem.None? {
      db.users := db.users[uid := a.user.(measurementSystem := Some(InitialMeasurement(body)))];
    }
    assert db.Snapshot() == Measured(t0, uid, body);

    if uid !in db.households || MembersOf(db.members, db.households[uid].id) == [] {
      return 400;
    }
    status := CreatePlan(db, uid, a, now, planId, s);
  }

  /** The part of the request that runs once the household is known to have members: insert
      the plan as `generating`, generate, and finish. */
  method CreatePlan(db: Db, uid: string, a: Admitted, now: int, planId: string, s: Services)
    returns (status: int)
    requires db.Valid() && uid in db.users && db.users[uid].measurementSystem.Some?
    requires Prepare(db.Snapshot(), uid, a.useItUp).Some?
    modifies db
    ensures db.Valid()
    ensures var t := old(db.Snapshot());
      var p := Prepare(t, uid, a.useItUp).value;
      var plan := Plan(planId, p.household.id, a.request.startDate, a.request.numDays,
                       a.request.mealsEnabled, a.useItUp, Generating);
      Outcome(status, db.Snapshot())
        == Complete(t, uid, plan, now, s.generate(p.constraints, a.request, p.pantry, t.users[uid].measurementSystem.value))
  {
    ghost var t := db.Snapshot();
    var p := ReadHousehold(db, uid, a.useItUp);
    var plan := Plan(planId, p.household.id, a.request.startDate, a.request.numDays,
                     a.request.mealsEnabled, a.useItUp, Generating);
    db.plans := db.plans + [plan];
    var result := s.generate(p.constraints, a.request, p.pantry, db.users[uid].measurementSystem.value);
    status := Finish(db, uid, t, plan, now, result);
  }

  /** Reads the household with its members in `sortOrder` and, in use-it-up mode, its pantry,
      and builds the constraints. */
  method ReadHousehold(db: Db, uid: string, useItUp: bool) returns (p: Prepared)
    requires Prepare(db.Snapshot(), uid, useItUp).Some?
    ensures p == Prepare(db.Snapshot(), uid, useItUp).value
  {
    var household := db.households[uid];
    var sorted := SortBy(MembersOf(db.members, household.id), BySortOrder);
    var constraints := BuildConstraints(sorted);
    var pantry := if useItUp then Some(PantryNames(PantryOf(db.pantry, household.id))) else None;
    p := Prepared(household, constraints, pantry);
  }

  /** The end of a request that created its plan (the last row of `plans`, inserted into the
      tables `t`): the transaction that writes the days, the `ready` status and the counter,
      or the update to `failed`. */
  method Finish(db: Db, uid: string, ghost t: Tables, plan: Plan, now: int, generated: Result<seq<LlmDay>, string>)
    returns (status: int)
    requires db.Valid() && uid in t.users
    requires db.Snapshot() == t.(plans := t.plans + [plan])
    modifies db
    ensures db.Valid()
    ensures Outcome(status, db.Snapshot()) == Complete(t, uid, plan, now, generated)
  {
    var index := |db.plans| - 1;
    var row := db.plans[index];
    var updated := row.(status := if generated.Success? then Ready else Failed);
    assert db.plans[index := updated] == t.plans + [updated];
    if generated.Failure? {
      db.plans := db.plans[index := updated];
      return 500;
    }
    var days := BuildPlanDays(row.id, generated.value, row.mealsEnabled);
    db.planDays := db.planDays + days;
    db.plans := db.plans[index := updated];
    db.users := db.users[uid := CountAfterSuccess(db.users[uid], now)];
    status := 201;
  }
}
