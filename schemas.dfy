/** The input validators of src/lib/schemas.ts. A validator takes a parsed JSON
    value and either yields the typed value (with defaults filled in for absent
    fields) or fails. Only success or failure is modelled, not the wording of the
    issues it reports. */
module Schemas {
  import opened Common
  import opened Records

  /** A parsed JSON value. Object members keep their enumeration order; a lookup
      sees the first member with the key. An absent member is JavaScript's `undefined`. */
  datatype Json =
    | JNull
    | JBool(b: bool)
    | JNum(n: real)
    | JStr(s: string)
    | JArr(items: seq<Json>)
    | JObj(members: seq<(string, Json)>)

  type Error = string

  // ---------------------------------------------------------------------------
  // Building blocks: one per zod combinator that the schemas use.

  /** `z.string().min(lo).max(hi)`. */
  function Str(j: Json, lo: nat, hi: nat): (r: Result<string, Error>)
    ensures r.Success? <==> j.JStr? && lo <= |j.s| <= hi
    ensures r.Success? ==> r.value == j.s
  {
    if j.JStr? && lo <= |j.s| <= hi then Success(j.s) else Failure("invalid string")
  }

  /** `z.string()` without bounds. */
  function AnyStr(j: Json): (r: Result<string, Error>)
    ensures r.Success? <==> j.JStr?
    ensures r.Success? ==> r.value == j.s
  {
    if j.JStr? then Success(j.s) else Failure("expected string")
  }

  /** `z.enum([...])`. */
  function Enum(j: Json, values: set<string>): (r: Result<string, Error>)
    ensures r.Success? <==> j.JStr? && j.s in values
    ensures r.Success? ==> r.value == j.s
  {
    if j.JStr? && j.s in values then Success(j.s) else Failure("invalid enum value")
  }

  /** `z.boolean()`. */
  function Bool(j: Json): (r: Result<bool, Error>)
    ensures r.Success? <==> j.JBool?
    ensures r.Success? ==> r.value == j.b
  {
    if j.JBool? then Success(j.b) else Failure("expected boolean")
  }

  /** `z.number()`. */
  function Num(j: Json): (r: Result<real, Error>)
    ensures r.Success? <==> j.JNum?
    ensures r.Success? ==> r.value == j.n
  {
    if j.JNum? then Success(j.n) else Failure("expected number")
  }

  /** A member without `.optional()` or `.default()`: absence is an error. */
  function Required<T>(o: Option<Json>, p: Json -> Result<T, Error>): (r: Result<T, Error>)
    ensures o.None? ==> r.Failure?
    ensures o.Some? ==> r == p(o.value)
  {
    if o.None? then Failure("required") else p(o.value)
  }

  /** `.default(d)`: an absent member takes the default; a present one must validate. */
  function Defaulted<T>(o: Option<Json>, d: T, p: Json -> Result<T, Error>): (r: Result<T, Error>)
    ensures o.None? ==> r == Success(d)
    ensures o.Some? ==> r == p(o.value)
  {
    if o.None? then Success(d) else p(o.value)
  }

  /** `.optional()`: an absent member stays absent; a present one must validate. */
  function Optional<T>(o: Option<Json>, p: Json -> Result<T, Error>): (r: Result<Option<T>, Error>)
    ensures o.None? ==> r == Success(None)
    ensures o.Some? ==> (r.Success? <==> p(o.value).Success?)
    ensures o.Some? && r.Success? ==> r.value == Some(p(o.value).value)
  {
    if o.None? then Success(None)
    else
      var v :- p(o.value);
      Success(Some(v))
  }

  /** The member is present and holds a string. */
  predicate IsStr(o: Option<Json>) {
    o.Some? && o.value.JStr?
  }

  /** The member is present and holds a number. */
  predicate IsNum(o: Option<Json>) {
    o.Some? && o.value.JNum?
  }

  /** A member read with `.default(d)` or `.optional()` passes: it is absent or validates. */
  predicate AbsentOr<T>(o: Option<Json>, p: Json -> Result<T, Error>) {
    o.None? || p(o.value).Success?
  }

  /** The member holds `v`, or is absent and the value read is the default. */
  predicate OrDefault(o: Option<Json>, v: Json, isDefault: bool) {
    if o.None? then isDefault else o.value == v
  }

  /** The elements of a JSON array, each validated by `p`; one failure fails the whole array. */
  function Items<T>(js: seq<Json>, p: Json -> Result<T, Error>): (r: Result<seq<T>, Error>)
    ensures r.Success? <==> forall i :: 0 <= i < |js| ==> p(js[i]).Success?
    ensures r.Success? ==> |r.value| == |js| && forall i :: 0 <= i < |js| ==> r.value[i] == p(js[i]).value
  {
    if js == [] then Success([])
    else
      var x :- p(js[0]);
      var rest :- Items(js[1..], p);
      Success([x] + rest)
  }

  /** `z.array(p)`. */
  function Array<T>(j: Json, p: Json -> Result<T, Error>): (r: Result<seq<T>, Error>)
    ensures r.Success? <==> j.JArr? && forall i :: 0 <= i < |j.items| ==> p(j.items[i]).Success?
    ensures r.Success? ==> |r.value| == |j.items| && forall i :: 0 <= i < |j.items| ==> r.value[i] == p(j.items[i]).value
  {
    if j.JArr? then Items(j.items, p) else Failure("expected array")
  }

  /** `z.array(z.string())`: the strings the array holds, in order. */
  function Strings(j: Json): (r: Result<seq<string>, Error>)
    ensures r.Success? <==> j.JArr? && forall i :: 0 <= i < |j.items| ==> j.items[i].JStr?
    ensures r.Success? ==> j == JArr(EncodeStrings(r.value))
  {
    var r := Array(j, AnyStr);
    assert r.Success? ==> j.items == EncodeStrings(r.value) by {
      if r.Success? {
        forall i | 0 <= i < |j.items| ensures j.items[i] == EncodeStrings(r.value)[i] {
          assert AnyStr(j.items[i]).Success?;
        }
      }
    }
    r
  }

  /** `z.array(z.string().max(hi)).max(n)`. */
  function StringList(j: Json, hi: nat, n: nat): (r: Result<seq<string>, Error>)
    ensures r.Success? <==> j.JArr? && |j.items| <= n && forall i :: 0 <= i < |j.items| ==> j.items[i].JStr? && |j.items[i].s| <= hi
    ensures r.Success? ==> ValidStrings(r.value, hi, n) && j == JArr(EncodeStrings(r.value))
  {
    if j.JArr? && |j.items| <= n then
      var r := Items(j.items, (v: Json) => Str(v, 0, hi));
      assert r.Success? ==> j.items == EncodeStrings(r.value) by {
        if r.Success? {
          forall i | 0 <= i < |j.items| ensures j.items[i] == EncodeStrings(r.value)[i] {
            assert Str(j.items[i], 0, hi).Success?;
          }
        }
      }
      r
    else Failure("invalid list")
  }

  predicate ValidStrings(xs: seq<string>, hi: nat, n: nat) {
    |xs| <= n && forall i :: 0 <= i < |xs| ==> |xs[i]| <= hi
  }

  function EncodeStrings(xs: seq<string>): (r: seq<Json>)
    ensures |r| == |xs| && forall i :: 0 <= i < |xs| ==> r[i] == JStr(xs[i])
  {
    if xs == [] then [] else [JStr(xs[0])] + EncodeStrings(xs[1..])
  }

  /** A list that respects the bounds validates back to itself. */
  lemma StringListRoundTrip(xs: seq<string>, hi: nat, n: nat)
    requires ValidStrings(xs, hi, n)
    ensures StringList(JArr(EncodeStrings(xs)), hi, n) == Success(xs)
  {
    var r := StringList(JArr(EncodeStrings(xs)), hi, n);
    assert r.Success?;
    assert r.value == xs;
  }

  // ---------------------------------------------------------------------------
  // Members.

  const DietValues: set<string> :=
    {"none", "vegetarian", "vegan", "pescatarian", "keto", "paleo", "halal", "kosher"}
  const AgeGroups: set<string> := {"adult", "teen", "child"}

  /** The typed body of a member create request. */
  datatype MemberInput = MemberInput(
    name: string,
    ageGroup: string,
    diet: string,
    allergies: seq<string>,
    dislikes: seq<string>,
    goals: seq<string>)

  predicate ValidMember(m: MemberInput) {
    && 1 <= |m.name| <= 50
    && m.ageGroup in AgeGroups
    && m.diet in DietValues
    && ValidStrings(m.allergies, 50, 20)
    && ValidStrings(m.dislikes, 50, 20)
    && ValidStrings(m.goals, 100, 10)
  }

  // The member fields' validators.
  function MemberName(j: Json): Result<string, Error> { Str(j, 1, 50) }
  function AgeGroup(j: Json): Result<string, Error> { Enum(j, AgeGroups) }
  function Diet(j: Json): Result<string, Error> { Enum(j, DietValues) }
  function ShortList(j: Json): Result<seq<string>, Error> { StringList(j, 50, 20) }
  function GoalList(j: Json): Result<seq<string>, Error> { StringList(j, 100, 10) }

  /** Every member field the body carries validates; `name` must be present when creating. */
  predicate MemberFieldsValid(f: seq<(string, Json)>, nameRequired: bool) {
    && (if nameRequired then Get(f, "name").Some? && MemberName(Get(f, "name").value).Success?
        else AbsentOr(Get(f, "name"), MemberName))
    && AbsentOr(Get(f, "ageGroup"), AgeGroup)
    && AbsentOr(Get(f, "diet"), Diet)
    && AbsentOr(Get(f, "allergies"), ShortList)
    && AbsentOr(Get(f, "dislikes"), ShortList)
    && AbsentOr(Get(f, "goals"), GoalList)
  }

  /** `m` is the member the body's fields hold, with the defaults for the absent ones. */
  predicate CarriesMember(f: seq<(string, Json)>, m: MemberInput) {
    && Get(f, "name") == Some(JStr(m.name))
    && OrDefault(Get(f, "ageGroup"), JStr(m.ageGroup), m.ageGroup == "adult")
    && OrDefault(Get(f, "diet"), JStr(m.diet), m.diet == "none")
    && OrDefault(Get(f, "allergies"), JArr(EncodeStrings(m.allergies)), m.allergies == [])
    && OrDefault(Get(f, "dislikes"), JArr(EncodeStrings(m.dislikes)), m.dislikes == [])
    && OrDefault(Get(f, "goals"), JArr(EncodeStrings(m.goals)), m.goals == [])
  }

  /** `memberCreateSchema`: an object is accepted iff its name is present and every field it
      carries validates; the result is the member it carries. */
  function ParseMemberCreate(j: Json): (r: Result<MemberInput, Error>)
    ensures r.Success? <==> j.JObj? && MemberFieldsValid(j.members, true)
    ensures r.Success? ==> ValidMember(r.value) && CarriesMember(j.members, r.value)
  {
    if !j.JObj? then Failure("expected object")
    else
      var f := j.members;
      var name := Required(Get(f, "name"), MemberName);
      var ageGroup := Defaulted(Get(f, "ageGroup"), "adult", AgeGroup);
      var diet := Defaulted(Get(f, "diet"), "none", Diet);
      var allergies := Defaulted(Get(f, "allergies"), [], ShortList);
      var dislikes := Defaulted(Get(f, "dislikes"), [], ShortList);
      var goals := Defaulted(Get(f, "goals"), [], GoalList);
      if name.Success? && ageGroup.Success? && diet.Success? && allergies.Success? && dislikes.Success? && goals.Success? then
        Success(MemberInput(name.value, ageGroup.value, diet.value, allergies.value, dislikes.value, goals.value))
      else Failure("invalid member")
  }

  function EncodeMember(m: MemberInput): Json {
    JObj([
      ("name", JStr(m.name)),
      ("ageGroup", JStr(m.ageGroup)),
      ("diet", JStr(m.diet)),
      ("allergies", JArr(EncodeStrings(m.allergies))),
      ("dislikes", JArr(EncodeStrings(m.dislikes))),
      ("goals", JArr(EncodeStrings(m.goals)))])
  }

  /** The create schema accepts an object whose members carry exactly the values of `m`. */
  lemma ParseMemberFields(f: seq<(string, Json)>, m: MemberInput)
    requires Required(Get(f, "name"), MemberName) == Success(m.name)
    requires Defaulted(Get(f, "ageGroup"), "adult", AgeGroup) == Success(m.ageGroup)
    requires Defaulted(Get(f, "diet"), "none", Diet) == Success(m.diet)
    requires Defaulted(Get(f, "allergies"), [], ShortList) == Success(m.allergies)
    requires Defaulted(Get(f, "dislikes"), [], ShortList) == Success(m.dislikes)
    requires Defaulted(Get(f, "goals"), [], GoalList) == Success(m.goals)
    ensures ParseMemberCreate(JObj(f)) == Success(m)
  {
  }

  /** Every member that respects the bounds is accepted unchanged. */
  lemma MemberRoundTrip(m: MemberInput)
    requires ValidMember(m)
    ensures ParseMemberCreate(EncodeMember(m)) == Success(m)
  {
    var f := EncodeMember(m).members;
    EncodedLookups(m);
    StringListRoundTrip(m.allergies, 50, 20);
    StringListRoundTrip(m.dislikes, 50, 20);
    StringListRoundTrip(m.goals, 100, 10);
    ParseMemberFields(f, m);
  }

  /** Each field of the encoded member is found under its key. */
  lemma EncodedLookups(m: MemberInput)
    ensures var f := EncodeMember(m).members;
      && Get(f, "name") == Some(JStr(m.name))
      && Get(f, "ageGroup") == Some(JStr(m.ageGroup))
      && Get(f, "diet") == Some(JStr(m.diet))
      && Get(f, "allergies") == Some(JArr(EncodeStrings(m.allergies)))
      && Get(f, "dislikes") == Some(JArr(EncodeStrings(m.dislikes)))
      && Get(f, "goals") == Some(JArr(EncodeStrings(m.goals)))
  {
    var f := EncodeMember(m).members;
    GetFirst(f, "name", 0);
    GetFirst(f, "ageGroup", 1);
    GetFirst(f, "diet", 2);
    GetFirst(f, "allergies", 3);
    GetFirst(f, "dislikes", 4);
    GetFirst(f, "goals", 5);
  }

  /** A body holding only a name gets an adult with no diet and empty lists. */
  lemma MemberDefaults(name: string)
    requires 1 <= |name| <= 50
    ensures ParseMemberCreate(JObj([("name", JStr(name))])) == Success(MemberInput(name, "adult", "none", [], [], []))
  {
    ParseMemberFields([("name", JStr(name))], MemberInput(name, "adult", "none", [], [], []));
  }

  /** The typed body of a member update: every field optional, no defaults. */
  datatype MemberPatch = MemberPatch(
    name: Option<string>,
    ageGroup: Option<string>,
    diet: Option<string>,
    allergies: Option<seq<string>>,
    dislikes: Option<seq<string>>,
    goals: Option<seq<string>>)

  predicate ValidPatch(p: MemberPatch) {
    && (p.name.Some? ==> 1 <= |p.name.value| <= 50)
    && (p.ageGroup.Some? ==> p.ageGroup.value in AgeGroups)
    && (p.diet.Some? ==> p.diet.value in DietValues)
    && (p.allergies.Some? ==> ValidStrings(p.allergies.value, 50, 20))
    && (p.dislikes.Some? ==> ValidStrings(p.dislikes.value, 50, 20))
    && (p.goals.Some? ==> ValidStrings(p.goals.value, 100, 10))
  }

  /** A string field of a patch as the body carries it. */
  function StrMember(o: Option<string>): Option<Json> {
    if o.None? then None else Some(JStr(o.value))
  }

  /** A list field of a patch as the body carries it. */
  function ListMember(o: Option<seq<string>>): Option<Json> {
    if o.None? then None else Some(JArr(EncodeStrings(o.value)))
  }

  /** `p` holds exactly the fields the body carries. */
  predicate CarriesPatch(f: seq<(string, Json)>, p: MemberPatch) {
    && Get(f, "name") == StrMember(p.name)
    && Get(f, "ageGroup") == StrMember(p.ageGroup)
    && Get(f, "diet") == StrMember(p.diet)
    && Get(f, "allergies") == ListMember(p.allergies)
    && Get(f, "dislikes") == ListMember(p.dislikes)
    && Get(f, "goals") == ListMember(p.goals)
  }

  /** `memberUpdateSchema = memberCreateSchema.partial()`: an absent field stays absent
      (the create schema's defaults are not applied). */
  function ParseMemberUpdate(j: Json): (r: Result<MemberPatch, Error>)
    ensures r.Success? <==> j.JObj? && MemberFieldsValid(j.members, false)
    ensures r.Success? ==> ValidPatch(r.value) && CarriesPatch(j.members, r.value)
  {
    if !j.JObj? then Failure("expected object")
    else
      var f := j.members;
      var name :- Optional(Get(f, "name"), MemberName);
      var ageGroup :- Optional(Get(f, "ageGroup"), AgeGroup);
      var diet :- Optional(Get(f, "diet"), Diet);
      var allergies :- Optional(Get(f, "allergies"), ShortList);
      var dislikes :- Optional(Get(f, "dislikes"), ShortList);
      var goals :- Optional(Get(f, "goals"), GoalList);
      Success(MemberPatch(name, ageGroup, diet, allergies, dislikes, goals))
  }

  /** Every valid create body is a valid update body, and the fields it carries agree. */
  lemma CreateBodyIsUpdateBody(j: Json)
    requires ParseMemberCreate(j).Success?
    ensures ParseMemberUpdate(j).Success?
    ensures ParseMemberUpdate(j).value.name == Some(ParseMemberCreate(j).value.name)
  {
  }

  // ---------------------------------------------------------------------------
  // Household.

  /** `householdUpdateSchema`. */
  function ParseHouseholdUpdate(j: Json): (r: Result<string, Error>)
    ensures r.Success? ==> 1 <= |r.value| <= 100
    ensures r.Success? <==> j.JObj? && Get(j.members, "name").Some? && Str(Get(j.members, "name").value, 1, 100).Success?
    ensures r.Success? ==> Get(j.members, "name") == Some(JStr(r.value))
  {
    if !j.JObj? then Failure("expected object")
    else Required(Get(j.members, "name"), (v: Json) => Str(v, 1, 100))
  }

  /** A name of 1..100 characters, sent on its own, is accepted as itself. */
  lemma HouseholdRoundTrip(name: string)
    requires 1 <= |name| <= 100
    ensures ParseHouseholdUpdate(JObj([("name", JStr(name))])) == Success(name)
  {
    GetFirst([("name", JStr(name))], "name", 0);
  }

  // ---------------------------------------------------------------------------
  // Plan generation request.

  const SlotTypes: set<string> := {"breakfast", "meal", "snack"}

  datatype MealSlot = MealSlot(enabled: bool, slotLabel: string, slotType: string)

  /** One member of the `mealsEnabled` record, in the record's order. */
  datatype SlotEntry = SlotEntry(key: string, slot: MealSlot)

  const DefaultSlots: seq<SlotEntry> := [
    SlotEntry("meal_1", MealSlot(true, "Breakfast", "breakfast")),
    SlotEntry("meal_2", MealSlot(true, "Lunch", "meal")),
    SlotEntry("meal_3", MealSlot(true, "Dinner", "meal")),
    SlotEntry("meal_4", MealSlot(false, "Evening snack", "snack"))]

  /** The typed body of a plan generation request. */
  datatype PlanRequest = PlanRequest(
    startDate: string,
    numDays: nat,
    mealsEnabled: seq<SlotEntry>,
    useItUpMode: bool)

  /** `mealSlotSchema`: accepted iff `enabled` is a boolean, `label` a string and `type` one
      of the slot types; the slot holds those three values. */
  function ParseMealSlot(j: Json): (r: Result<MealSlot, Error>)
    ensures r.Success? <==>
      && j.JObj?
      && Get(j.members, "enabled").Some? && Get(j.members, "enabled").value.JBool?
      && IsStr(Get(j.members, "label"))
      && IsStr(Get(j.members, "type")) && Get(j.members, "type").value.s in SlotTypes
    ensures r.Success? ==>
      && Get(j.members, "enabled") == Some(JBool(r.value.enabled))
      && Get(j.members, "label") == Some(JStr(r.value.slotLabel))
      && Get(j.members, "type") == Some(JStr(r.value.slotType))
      && r.value.slotType in SlotTypes
  {
    if !j.JObj? then Failure("expected object")
    else
      var enabled :- Required(Get(j.members, "enabled"), Bool);
      var slotLabel :- Required(Get(j.members, "label"), AnyStr);
      var slotType :- Required(Get(j.members, "type"), (v: Json) => Enum(v, SlotTypes));
      Success(MealSlot(enabled, slotLabel, slotType))
  }

  /** `z.record(z.string(), mealSlotSchema)` over the members of an object, in order. */
  function ParseSlots(ms: seq<(string, Json)>): (r: Result<seq<SlotEntry>, Error>)
    ensures r.Success? <==> forall i :: 0 <= i < |ms| ==> ParseMealSlot(ms[i].1).Success?
    ensures r.Success? ==> |r.value| == |ms| && forall i :: 0 <= i < |ms| ==>
      r.value[i].key == ms[i].0 && ParseMealSlot(ms[i].1) == Success(r.value[i].slot)
  {
    if ms == [] then Success([])
    else
      var slot :- ParseMealSlot(ms[0].1);
      var rest :- ParseSlots(ms[1..]);
      Success([SlotEntry(ms[0].0, slot)] + rest)
  }

  /** `z.number().int().min(1).max(31)`. */
  function NumDays(j: Json): (r: Result<nat, Error>)
    ensures r.Success? <==> j.JNum? && j.n.Floor as real == j.n && 1.0 <= j.n <= 31.0
    ensures r.Success? ==> 1 <= r.value <= 31 && r.value as real == j.n
  {
    if j.JNum? && j.n.Floor as real == j.n && 1.0 <= j.n <= 31.0 then Success(j.n.Floor as nat)
    else Failure("numDays must be an integer between 1 and 31")
  }

  /** `z.record(z.string(), mealSlotSchema)`. */
  function SlotRecord(j: Json): Result<seq<SlotEntry>, Error> {
    if j.JObj? then ParseSlots(j.members) else Failure("expected object")
  }

  /** Every member of a plan request validates, the optional ones when present. */
  predicate RequestFieldsValid(f: seq<(string, Json)>, dateParses: string -> bool) {
    && IsStr(Get(f, "startDate")) && dateParses(Get(f, "startDate").value.s)
    && Get(f, "numDays").Some? && NumDays(Get(f, "numDays").value).Success?
    && AbsentOr(Get(f, "mealsEnabled"), SlotRecord)
    && AbsentOr(Get(f, "useItUpMode"), Bool)
  }

  /** `generatePlanSchema`; `dateParses` stands for `!isNaN(Date.parse(d))`. Members the schema
      does not name (such as `timezone`) are dropped, as zod's object schemas drop them. */
  function ParseGeneratePlan(j: Json, dateParses: string -> bool): (r: Result<PlanRequest, Error>)
    ensures r.Success? <==> j.JObj? && RequestFieldsValid(j.members, dateParses)
    ensures r.Success? ==> 1 <= r.value.numDays <= 31 && dateParses(r.value.startDate)
    ensures r.Success? ==>
      && Get(j.members, "startDate") == Some(JStr(r.value.startDate))
      && Get(j.members, "numDays") == Some(JNum(r.value.numDays as real))
      && (Get(j.members, "mealsEnabled").None? ==> r.value.mealsEnabled == DefaultSlots)
      && (Get(j.members, "mealsEnabled").Some? ==>
            SlotRecord(Get(j.members, "mealsEnabled").value) == Success(r.value.mealsEnabled))
      && OrDefault(Get(j.members, "useItUpMode"), JBool(r.value.useItUpMode), !r.value.useItUpMode)
  {
    if !j.JObj? then Failure("expected object")
    else
      var f := j.members;
      var startDate :- Required(Get(f, "startDate"), AnyStr);
      if !dateParses(startDate) then Failure("Invalid date")
      else
        var numDays :- Required(Get(f, "numDays"), NumDays);
        var slots :- Defaulted(Get(f, "mealsEnabled"), DefaultSlots, SlotRecord);
        var useItUp :- Defaulted(Get(f, "useItUpMode"), false, Bool);
        Success(PlanRequest(startDate, numDays, slots, useItUp))
  }

  // ---------------------------------------------------------------------------
  // Generated plan output.

  datatype ShoppingItem = ShoppingItem(name: string, qty: string, category: string)
  datatype Swap = Swap(original: string, replacement: string)
  datatype Fork = Fork(reason: string, swaps: seq<Swap>, notes: string)
  datatype Macros = Macros(calories: real, proteinG: real, carbsG: real, fatG: real)
  datatype Meal = Meal(
    name: string,
    description: string,
    ingredients: seq<string>,
    steps: seq<string>,
    prepTimeMin: real,
    servings: real,
    macros: Option<Macros>,
    shoppingItems: seq<ShoppingItem>,
    forks: seq<(string, Fork)>)

  /** One generated day: its index and its slot values in the record's order (`None` is `null`). */
  datatype LlmDay = LlmDay(dayIndex: real, meals: seq<(string, Option<Meal>)>)

  /** `shoppingItemSchema`: three strings, each kept as the body holds it. */
  function ParseShoppingItem(j: Json): (r: Result<ShoppingItem, Error>)
    ensures r.Success? <==>
      j.JObj? && IsStr(Get(j.members, "name")) && IsStr(Get(j.members, "qty")) && IsStr(Get(j.members, "category"))
    ensures r.Success? ==>
      && Get(j.members, "name") == Some(JStr(r.value.name))
      && Get(j.members, "qty") == Some(JStr(r.value.qty))
      && Get(j.members, "category") == Some(JStr(r.value.category))
  {
    if !j.JObj? then Failure("expected object")
    else
      var name :- Required(Get(j.members, "name"), AnyStr);
      var qty :- Required(Get(j.members, "qty"), AnyStr);
      var category :- Required(Get(j.members, "category"), AnyStr);
      Success(ShoppingItem(name, qty, category))
  }

  /** A swap: two strings, each kept as the body holds it. */
  function ParseSwap(j: Json): (r: Result<Swap, Error>)
    ensures r.Success? <==> j.JObj? && IsStr(Get(j.members, "original")) && IsStr(Get(j.members, "replacement"))
    ensures r.Success? ==>
      && Get(j.members, "original") == Some(JStr(r.value.original))
      && Get(j.members, "replacement") == Some(JStr(r.value.replacement))
  {
    if !j.JObj? then Failure("expected object")
    else
      var original :- Required(Get(j.members, "original"), AnyStr);
      var replacement :- Required(Get(j.members, "replacement"), AnyStr);
      Success(Swap(original, replacement))
  }

  function SwapList(j: Json): Result<seq<Swap>, Error> {
    Array(j, ParseSwap)
  }

  /** `forkSchema`: accepted iff `reason` is a string and the optional members validate when
      present; `swaps` defaults to [] and `notes` to "". */
  function ParseFork(j: Json): (r: Result<Fork, Error>)
    ensures r.Success? <==>
      && j.JObj? && IsStr(Get(j.members, "reason"))
      && AbsentOr(Get(j.members, "swaps"), SwapList)
      && AbsentOr(Get(j.members, "notes"), AnyStr)
    ensures r.Success? ==>
      && Get(j.members, "reason") == Some(JStr(r.value.reason))
      && (Get(j.members, "swaps").None? ==> r.value.swaps == [])
      && (Get(j.members, "swaps").Some? ==> SwapList(Get(j.members, "swaps").value) == Success(r.value.swaps))
      && OrDefault(Get(j.members, "notes"), JStr(r.value.notes), r.value.notes == "")
  {
    if !j.JObj? then Failure("expected object")
    else
      var reason :- Required(Get(j.members, "reason"), AnyStr);
      var swaps :- Defaulted(Get(j.members, "swaps"), [], SwapList);
      var notes :- Defaulted(Get(j.members, "notes"), "", AnyStr);
      Success(Fork(reason, swaps, notes))
  }

  /** `z.record(z.string(), forkSchema)` over the members of an object, in order. */
  function ParseForks(ms: seq<(string, Json)>): (r: Result<seq<(string, Fork)>, Error>)
    ensures r.Success? <==> forall i :: 0 <= i < |ms| ==> ParseFork(ms[i].1).Success?
    ensures r.Success? ==> |r.value| == |ms| && forall i :: 0 <= i < |ms| ==>
      r.value[i].0 == ms[i].0 && ParseFork(ms[i].1) == Success(r.value[i].1)
  {
    if ms == [] then Success([])
    else
      var fork :- ParseFork(ms[0].1);
      var rest :- ParseForks(ms[1..]);
      Success([(ms[0].0, fork)] + rest)
  }

  function ForkRecord(j: Json): Result<seq<(string, Fork)>, Error> {
    if j.JObj? then ParseForks(j.members) else Failure("expected object")
  }

  /** The macro estimates: four numbers, each kept as the body holds it. */
  function ParseMacros(j: Json): (r: Result<Macros, Error>)
    ensures r.Success? <==>
      && j.JObj? && IsNum(Get(j.members, "calories")) && IsNum(Get(j.members, "protein_g"))
      && IsNum(Get(j.members, "carbs_g")) && IsNum(Get(j.members, "fat_g"))
    ensures r.Success? ==>
      && Get(j.members, "calories") == Some(JNum(r.value.calories))
      && Get(j.members, "protein_g") == Some(JNum(r.value.proteinG))
      && Get(j.members, "carbs_g") == Some(JNum(r.value.carbsG))
      && Get(j.members, "fat_g") == Some(JNum(r.value.fatG))
  {
    if !j.JObj? then Failure("expected object")
    else
      var calories :- Required(Get(j.members, "calories"), Num);
      var protein :- Required(Get(j.members, "protein_g"), Num);
      var carbs :- Required(Get(j.members, "carbs_g"), Num);
      var fat :- Required(Get(j.members, "fat_g"), Num);
      Success(Macros(calories, protein, carbs, fat))
  }

  function ItemList(j: Json): Result<seq<ShoppingItem>, Error> {
    Array(j, ParseShoppingItem)
  }

  /** Every member of a meal validates, the optional ones when present. */
  predicate MealFieldsValid(f: seq<(string, Json)>) {
    && IsStr(Get(f, "name")) && IsStr(Get(f, "description"))
    && Get(f, "ingredients").Some? && Strings(Get(f, "ingredients").value).Success?
    && Get(f, "steps").Some? && Strings(Get(f, "steps").value).Success?
    && IsNum(Get(f, "prep_time_min")) && IsNum(Get(f, "servings"))
    && AbsentOr(Get(f, "macro_estimates"), ParseMacros)
    && AbsentOr(Get(f, "shopping_items"), ItemList)
    && AbsentOr(Get(f, "forks"), ForkRecord)
  }

  /** `m` is the meal the body's members hold, with the defaults for the absent ones. */
  predicate CarriesMeal(f: seq<(string, Json)>, m: Meal) {
    && Get(f, "name") == Some(JStr(m.name))
    && Get(f, "description") == Some(JStr(m.description))
    && Get(f, "ingredients") == Some(JArr(EncodeStrings(m.ingredients)))
    && Get(f, "steps") == Some(JArr(EncodeStrings(m.steps)))
    && Get(f, "prep_time_min") == Some(JNum(m.prepTimeMin))
    && Get(f, "servings") == Some(JNum(m.servings))
    && (Get(f, "macro_estimates").None? <==> m.macros.None?)
    && (m.macros.Some? ==> ParseMacros(Get(f, "macro_estimates").value) == Success(m.macros.value))
    && (Get(f, "shopping_items").None? ==> m.shoppingItems == [])
    && (Get(f, "shopping_items").Some? ==> ItemList(Get(f, "shopping_items").value) == Success(m.shoppingItems))
    && (Get(f, "forks").None? ==> m.forks == [])
    && (Get(f, "forks").Some? ==> ForkRecord(Get(f, "forks").value) == Success(m.forks))
  }

  /** `mealSchema`: accepted iff every member validates; the meal is the one the body holds. */
  function ParseMeal(j: Json): (r: Result<Meal, Error>)
    ensures r.Success? <==> j.JObj? && MealFieldsValid(j.members)
    ensures r.Success? ==> CarriesMeal(j.members, r.value)
  {
    if !j.JObj? then Failure("expected object")
    else
      var f := j.members;
      var name :- Required(Get(f, "name"), AnyStr);
      var description :- Required(Get(f, "description"), AnyStr);
      var ingredients :- Required(Get(f, "ingredients"), Strings);
      var steps :- Required(Get(f, "steps"), Strings);
      var prep :- Required(Get(f, "prep_time_min"), Num);
      var servings :- Required(Get(f, "servings"), Num);
      var macros :- Optional(Get(f, "macro_estimates"), ParseMacros);
      var items :- Defaulted(Get(f, "shopping_items"), [], ItemList);
      var forks :- Defaulted(Get(f, "forks"), [], ForkRecord);
      Success(Meal(name, description, ingredients, steps, prep, servings, macros, items, forks))
  }

  /** `mealSchema.nullable()`: `null` is no meal; anything else is read as a meal. */
  function ParseMealOrNull(j: Json): (r: Result<Option<Meal>, Error>)
    ensures j == JNull ==> r == Success(None)
    ensures j != JNull ==> (r.Success? <==> ParseMeal(j).Success?)
    ensures j != JNull && r.Success? ==> r.value == Some(ParseMeal(j).value)
  {
    if j == JNull then Success(None)
    else
      var m :- ParseMeal(j);
      Success(Some(m))
  }

  /** `dayMealsSchema` over the members of an object, in order. */
  function ParseDayMeals(ms: seq<(string, Json)>): (r: Result<seq<(string, Option<Meal>)>, Error>)
    ensures r.Success? <==> forall i :: 0 <= i < |ms| ==> ParseMealOrNull(ms[i].1).Success?
    ensures r.Success? ==> |r.value| == |ms| && forall i :: 0 <= i < |ms| ==>
      r.value[i].0 == ms[i].0 && ParseMealOrNull(ms[i].1) == Success(r.value[i].1)
  {
    if ms == [] then Success([])
    else
      var meal :- ParseMealOrNull(ms[0].1);
      var rest :- ParseDayMeals(ms[1..]);
      Success([(ms[0].0, meal)] + rest)
  }

  function DayMealsRecord(j: Json): Result<seq<(string, Option<Meal>)>, Error> {
    if j.JObj? then ParseDayMeals(j.members) else Failure("expected object")
  }

  /** One generated day: accepted iff `day_index` is a number and `meals` a valid record. */
  function ParseDay(j: Json): (r: Result<LlmDay, Error>)
    ensures r.Success? <==>
      j.JObj? && IsNum(Get(j.members, "day_index")) &&
      Get(j.members, "meals").Some? && DayMealsRecord(Get(j.members, "meals").value).Success?
    ensures r.Success? ==>
      && Get(j.members, "day_index") == Some(JNum(r.value.dayIndex))
      && DayMealsRecord(Get(j.members, "meals").value) == Success(r.value.meals)
  {
    if !j.JObj? then Failure("expected object")
    else
      var index :- Required(Get(j.members, "day_index"), Num);
      var meals :- Required(Get(j.members, "meals"), DayMealsRecord);
      Success(LlmDay(index, meals))
  }

  /** `llmPlanOutputSchema`: accepted iff `days` is an array of valid days (one malformed day
      or meal rejects the whole output); the result is those days in order. */
  function ParseLlmOutput(j: Json): (r: Result<seq<LlmDay>, Error>)
    ensures r.Success? <==>
      && j.JObj? && Get(j.members, "days").Some? && Get(j.members, "days").value.JArr?
      && forall i :: 0 <= i < |Get(j.members, "days").value.items| ==>
           ParseDay(Get(j.members, "days").value.items[i]).Success?
    ensures r.Success? ==>
      && |r.value| == |Get(j.members, "days").value.items|
      && forall i :: 0 <= i < |r.value| ==> r.value[i] == ParseDay(Get(j.members, "days").value.items[i]).value
  {
    if !j.JObj? then Failure("expected object")
    else Required(Get(j.members, "days"), (v: Json) => Array(v, ParseDay))
  }
}
