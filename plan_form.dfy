/** The new-plan form (src/app/dashboard/plans/new/page.tsx): the day-count field with its
    parse, range and tier checks, the meal-slot toggles, use-it-up mode, the limits loaded
    from the account, and the request body the form sends. */
module PlanForm {
  import opened Common
  import opened Text
  import opened Records
  import opened Measurement
  import opened Schemas
  import PlanGeneration

  // ---------------------------------------------------------------------------
  // The day-count field.

  const MinDays: nat := 1
  const MaxDaysAnyTier: nat := 31

  /** The field holds a whole number once trimmed. */
  predicate IsWholeNumber(input: string) {
    AllDigits(Trim(input))
  }

  /** `Number.parseInt(trimmed, 10)` for a whole number. */
  function Parsed(input: string): nat
    requires IsWholeNumber(input)
  {
    DigitsValue(Trim(input))
  }

  /** `isNumDaysInRange`. */
  predicate InRange(input: string) {
    IsWholeNumber(input) && MinDays <= Parsed(input) <= MaxDaysAnyTier
  }

  /** `exceedsTierLimit`. */
  predicate ExceedsTierLimit(input: string, maxPlanDays: int) {
    InRange(input) && Parsed(input) > maxPlanDays
  }

  /** `displayNumDays`: the value in range, else 1. */
  function DisplayNumDays(input: string): (r: nat)
    ensures MinDays <= r <= MaxDaysAnyTier
    ensures InRange(input) ==> r == Parsed(input)
    ensures !InRange(input) ==> r == 1
  {
    if InRange(input) then Parsed(input) else 1
  }

  /** `Math.min(Math.max(n, 1), 31)`. */
  function Clamp(n: nat): (r: nat)
    ensures MinDays <= r <= MaxDaysAnyTier
    ensures MinDays <= n <= MaxDaysAnyTier ==> r == n
  {
    if n < MinDays then MinDays else if n > MaxDaysAnyTier then MaxDaysAnyTier else n
  }

  /** `String(n)` reads back as `n` in the field. */
  lemma NumberFieldRoundTrip(n: nat)
    ensures IsWholeNumber(NatToString(n)) && Parsed(NatToString(n)) == n
  {
    var s := NatToString(n);
    TrimNoSpace(s);
    NatToStringRoundTrip(n);
  }

  /** The field's text after it loses focus: "1" unless it holds a whole number, otherwise
      that number clamped to 1..31. Afterwards the field is always in range, and a field
      already in range keeps its value. */
  function Blurred(input: string): (r: string)
    ensures InRange(r)
    ensures !IsWholeNumber(input) ==> r == "1"
    ensures IsWholeNumber(input) ==> r == NatToString(Clamp(Parsed(input))) && Parsed(r) == Clamp(Parsed(input))
    ensures InRange(input) ==> Parsed(r) == Parsed(input)
  {
    if !IsWholeNumber(input) then
      NumberFieldRoundTrip(1);
      assert NatToString(1) == "1";
      "1"
    else
      var n := Clamp(Parsed(input));
      NumberFieldRoundTrip(n);
      NatToString(n)
  }

  /** Blurring a blurred field changes nothing. */
  lemma BlurIdempotent(input: string)
    ensures Blurred(Blurred(input)) == Blurred(input)
  {
    var once := Blurred(input);
    var k := if IsWholeNumber(input) then Clamp(Parsed(input)) else 1;
    assert NatToString(1) == "1";
    assert once == NatToString(k);
    NumberFieldRoundTrip(k);
  }

  /** The field's text after typing: only the digits are kept. A non-empty result is a whole
      number and needs no trimming. */
  function Typed(raw: string): (r: string)
    ensures forall i :: 0 <= i < |r| ==> IsDigit(r[i])
    ensures IsWholeNumber(r) <==> r != []
  {
    var r := KeepDigits(raw);
    TrimNoSpace(r);
    r
  }

  // ---------------------------------------------------------------------------
  // Meal slots.

  /** The slot keys in order. */
  function SlotKeyList(meals: seq<SlotEntry>): (r: seq<string>)
    ensures |r| == |meals| && forall i :: 0 <= i < |meals| ==> r[i] == meals[i].key
  {
    if meals == [] then [] else [meals[0].key] + SlotKeyList(meals[1..])
  }

  /** `toggleMeal(key)`: flips `enabled` on the slot with the key; every other slot, and
      the order, stay as they were. */
  function Toggled(meals: seq<SlotEntry>, key: string): (r: seq<SlotEntry>)
    ensures |r| == |meals|
    ensures forall i :: 0 <= i < |meals| ==> r[i].key == meals[i].key
    ensures forall i :: 0 <= i < |meals| && meals[i].key != key ==> r[i] == meals[i]
    ensures forall i :: 0 <= i < |meals| && meals[i].key == key ==>
      r[i].slot == meals[i].slot.(enabled := !meals[i].slot.enabled)
  {
    if meals == [] then []
    else
      var e := meals[0];
      var head := if e.key == key then SlotEntry(e.key, e.slot.(enabled := !e.slot.enabled)) else e;
      [head] + Toggled(meals[1..], key)
  }

  /** Toggling a slot twice restores the form. */
  lemma ToggleTwice(meals: seq<SlotEntry>, key: string)
    ensures Toggled(Toggled(meals, key), key) == meals
  {
    var r := Toggled(Toggled(meals, key), key);
    assert forall i :: 0 <= i < |meals| ==> r[i] == meals[i];
  }

  /** Every slot has a type the schema accepts. */
  predicate SlotTypesValid(meals: seq<SlotEntry>) {
    forall i :: 0 <= i < |meals| ==> meals[i].slot.slotType in SlotTypes
  }

  // ---------------------------------------------------------------------------
  // The request body.

  function EncodeSlot(s: MealSlot): Json {
    JObj([("enabled", JBool(s.enabled)), ("label", JStr(s.slotLabel)), ("type", JStr(s.slotType))])
  }

  /** `mealsEnabled` as `JSON.stringify` writes it. */
  function EncodeSlots(meals: seq<SlotEntry>): (r: seq<(string, Json)>)
    ensures |r| == |meals|
  {
    if meals == [] then [] else [(meals[0].key, EncodeSlot(meals[0].slot))] + EncodeSlots(meals[1..])
  }

  lemma SlotRoundTrip(s: MealSlot)
    requires s.slotType in SlotTypes
    ensures ParseMealSlot(EncodeSlot(s)) == Success(s)
  {
    var f := EncodeSlot(s).members;
    GetFirst(f, "enabled", 0);
    GetFirst(f, "label", 1);
    GetFirst(f, "type", 2);
  }

  /** The slot schema accepts the form's slots unchanged. */
  lemma {:induction false} SlotsRoundTrip(meals: seq<SlotEntry>)
    requires SlotTypesValid(meals)
    ensures ParseSlots(EncodeSlots(meals)) == Success(meals)
  {
    if meals != [] {
      SlotRoundTrip(meals[0].slot);
      SlotsRoundTrip(meals[1..]);
      assert EncodeSlots(meals)[1..] == EncodeSlots(meals[1..]);
      assert meals == [meals[0]] + meals[1..];
    }
  }

  /** The body `handleGenerate` posts. */
  function RequestBody(startDate: string, numDays: nat, timezone: string, meals: seq<SlotEntry>, useItUp: bool): Json {
    JObj([("startDate", JStr(startDate)), ("numDays", JNum(numDays as real)), ("timezone", JStr(timezone)),
          ("mealsEnabled", JObj(EncodeSlots(meals))), ("useItUpMode", JBool(useItUp))])
  }

  /** The generate route accepts what the form sends, with the day count and slots as the
      form holds them, and would guess the measurement system from the form's timezone if
      it read it. */
  lemma RequestAccepted(startDate: string, numDays: nat, timezone: string, meals: seq<SlotEntry>, useItUp: bool,
                        dateParses: string -> bool)
    requires dateParses(startDate) && MinDays <= numDays <= MaxDaysAnyTier && SlotTypesValid(meals)
    ensures var body := RequestBody(startDate, numDays, timezone, meals, useItUp);
      && ParseGeneratePlan(body, dateParses) == Success(PlanRequest(startDate, numDays, meals, useItUp))
      && PlanGeneration.InitialMeasurement(body) == GuessMeasurementSystem(Some(timezone))
  {
    var f := RequestBody(startDate, numDays, timezone, meals, useItUp).members;
    GetFirst(f, "startDate", 0);
    GetFirst(f, "numDays", 1);
    GetFirst(f, "timezone", 2);
    GetFirst(f, "mealsEnabled", 3);
    GetFirst(f, "useItUpMode", 4);
    SlotsRoundTrip(meals);
    assert (numDays as real).Floor == numDays;
  }

  // ---------------------------------------------------------------------------
  // The account limits.

  /** The day limit the form assumes when the account answer has none. */
  function FallbackMaxDays(tier: Tier): (r: nat)
    ensures r == PlanGeneration.MaxDays(tier)
  {
    if tier == Pro then 30 else 3
  }

  /** What the account fetch gave: a network failure, a non-OK response, or the tier (when
      it is FREE or PRO) and the `maxPlanDays` limit (when it is a number). */
  datatype AccountFetch = FetchFailed | NotOk | Loaded(tier: Option<Tier>, maxPlanDays: Option<int>)

  /** The form's state. */
  class Form {
    var numDaysInput: string
    var mealsEnabled: seq<SlotEntry>
    var useItUpMode: bool
    var tier: Tier
    var maxPlanDays: int
    var loading: bool
    var error: string

    /** The slots are those the form starts with, each with a type the schema accepts. */
    ghost predicate Valid()
      reads this
    {
      SlotTypesValid(mealsEnabled) && SlotKeyList(mealsEnabled) == SlotKeyList(DefaultSlots)
    }

    constructor ()
      ensures Valid()
      ensures numDaysInput == "1" && mealsEnabled == DefaultSlots && !useItUpMode
      ensures tier == Free && maxPlanDays == 3 && !loading && error == ""
    {
      numDaysInput := "1";
      mealsEnabled := DefaultSlots;
      useItUpMode := false;
      tier := Free;
      maxPlanDays := 3;
      loading := false;
      error := "";
    }

    /** The field's `onChange`. */
    method OnDaysInput(raw: string)
      modifies this`numDaysInput
      ensures numDaysInput == Typed(raw)
    {
      numDaysInput := Typed(raw);
    }

    /** `handleNumDaysBlur`. */
    method OnDaysBlur()
      modifies this`numDaysInput
      ensures numDaysInput == Blurred(old(numDaysInput))
      ensures InRange(numDaysInput)
    {
      numDaysInput := Blurred(numDaysInput);
    }

    /** `toggleMeal`; the buttons only ever name the form's own slots. */
    method ToggleMeal(key: string)
      requires Valid() && key in SlotKeyList(mealsEnabled)
      modifies this`mealsEnabled
      ensures Valid()
      ensures mealsEnabled == Toggled(old(mealsEnabled), key)
    {
      mealsEnabled := Toggled(mealsEnabled, key);
      assert SlotKeyList(mealsEnabled) == SlotKeyList(old(mealsEnabled));
    }

    /** The use-it-up button: it does nothing unless the tier is PRO. */
    method ToggleUseItUp()
      modifies this`useItUpMode
      ensures useItUpMode == (if tier == Pro then !old(useItUpMode) else old(useItUpMode))
    {
      if tier != Pro {
        return;
      }
      useItUpMode := !useItUpMode;
    }

    /** The effect that switches use-it-up mode off when the tier is not PRO. */
    method SyncUseItUp()
      modifies this`useItUpMode
      ensures tier != Pro ==> !useItUpMode
      ensures tier == Pro ==> useItUpMode == old(useItUpMode)
    {
      if tier != Pro {
        useItUpMode := false;
      }
    }

    /** The effect that loads the tier and the day limit from the account. */
    method AccountLoaded(fetch: AccountFetch)
      modifies this`tier, this`maxPlanDays
      ensures fetch.FetchFailed? ==> tier == Free && maxPlanDays == 3
      ensures fetch.NotOk? || (fetch.Loaded? && fetch.tier.None?) ==>
        tier == old(tier) && maxPlanDays == old(maxPlanDays)
      ensures fetch.Loaded? && fetch.tier.Some? ==>
        && tier == fetch.tier.value
        && maxPlanDays == (if fetch.maxPlanDays.Some? then fetch.maxPlanDays.value else FallbackMaxDays(tier))
    {
      match fetch
      case FetchFailed =>
        tier := Free;
        maxPlanDays := 3;
      case NotOk =>
      case Loaded(t, limit) =>
        if t.Some? {
          tier := t.value;
          maxPlanDays := if limit.Some? then limit.value else FallbackMaxDays(t.value);
        }
    }

    /** The checks of `handleGenerate` up to the request: the body it posts, or none with an
        error message when the day count is out of range or over the tier's limit. */
    method Generate(startDate: string, timezone: string) returns (body: Option<Json>)
      modifies this`error, this`loading
      ensures body.Some? <==> InRange(numDaysInput) && !ExceedsTierLimit(numDaysInput, maxPlanDays)
      ensures body.None? ==> error != "" && loading == old(loading)
      ensures body.Some? ==>
        && error == "" && loading
        && Parsed(numDaysInput) <= maxPlanDays
        && body.value == RequestBody(startDate, Parsed(numDaysInput), timezone, mealsEnabled,
                                     tier == Pro && useItUpMode)
    {
      error := "";
      if !InRange(numDaysInput) {
        error := "Enter a whole number of days between 1 and 31.";
        return None;
      }
      if ExceedsTierLimit(numDaysInput, maxPlanDays) {
        error := "Reduce days or upgrade to Pro.";
        return None;
      }
      loading := true;
      body := Some(RequestBody(startDate, Parsed(numDaysInput), timezone, mealsEnabled, tier == Pro && useItUpMode));
    }
  }
}
