/** Assembly of the meal-plan request and reading of the reply (src/lib/llm.ts). The chat
    completion call itself is a parameter: its reply is whatever the caller supplies. */
module Llm {
  import opened Common
  import opened Text
  import opened Constraints
  import opened Schemas
  import opened Measurement

  // ---------------------------------------------------------------------------
  // Meal slots.

  /** `key: label (type)`. */
  function SlotLine(e: SlotEntry): string {
    e.key + ": " + e.slot.slotLabel + " (" + e.slot.slotType + ")"
  }

  /** The lines of the enabled slots, in the record's order. */
  function EnabledSlotLines(slots: seq<SlotEntry>): seq<string> {
    if slots == [] then []
    else
      var last := slots[|slots| - 1];
      EnabledSlotLines(slots[..|slots| - 1]) + (if last.slot.enabled then [SlotLine(last)] else [])
  }

  /** The positions of the enabled slots, in increasing order. */
  function EnabledSlotIndices(slots: seq<SlotEntry>): seq<nat> {
    if slots == [] then []
    else
      EnabledSlotIndices(slots[..|slots| - 1]) + (if slots[|slots| - 1].slot.enabled then [|slots| - 1] else [])
  }

  /** The slot lines are exactly the enabled slots, each once, in the record's order. */
  lemma {:induction false} EnabledSlotLinesFilter(slots: seq<SlotEntry>)
    ensures var idx := EnabledSlotIndices(slots);
      && |idx| == |EnabledSlotLines(slots)|
      && (forall k :: 0 <= k < |idx| ==> idx[k] < |slots| && EnabledSlotLines(slots)[k] == SlotLine(slots[idx[k]]))
      && (forall k, l :: 0 <= k < l < |idx| ==> idx[k] < idx[l])
      && (forall i :: 0 <= i < |slots| ==> (i in idx <==> slots[i].slot.enabled))
  {
    if slots != [] {
      var init := slots[..|slots| - 1];
      EnabledSlotLinesFilter(init);
      assert forall i :: 0 <= i < |init| ==> init[i] == slots[i];
    }
  }

  /** The `Meal slots per day` text. */
  function EnabledMeals(slots: seq<SlotEntry>): string {
    Join(EnabledSlotLines(slots), ", ")
  }

  /** Every enabled slot is named in the slot text. */
  lemma EnabledMealsMentionsEnabled(slots: seq<SlotEntry>, i: nat)
    requires i < |slots| && slots[i].slot.enabled
    ensures Contains(EnabledMeals(slots), SlotLine(slots[i]))
  {
    EnabledSlotLinesFilter(slots);
    var idx := EnabledSlotIndices(slots);
    var k :| 0 <= k < |idx| && idx[k] == i;
    JoinContains(EnabledSlotLines(slots), ", ", k);
  }

  // ---------------------------------------------------------------------------
  // Forks, pantry, units, excludes.

  const NoForksText: string := "\nAll household members share the same dietary profile. Do NOT include any forks."
  const ForksHeader: string := "\nMembers needing personal forks:\n"
  const ForksFooter: string :=
    "\n\nFor each meal, include a \"forks\" object keyed by memberId with { reason, swaps: [{ original, replacement }], notes } ONLY for members who differ from the base meal. If the base meal already suits a member, omit their fork."

  /** `- name (id: id): reason`. */
  function ForkLine(f: ForkSpec): string {
    "- " + f.memberName + " (id: " + f.memberId + "): " + f.reason
  }

  function ForkLines(specs: seq<ForkSpec>): (r: seq<string>)
    ensures |r| == |specs| && forall i :: 0 <= i < |specs| ==> r[i] == ForkLine(specs[i])
  {
    if specs == [] then [] else [ForkLine(specs[0])] + ForkLines(specs[1..])
  }

  function ForkInstructions(specs: seq<ForkSpec>): string {
    if |specs| > 0 then ForksHeader + Join(ForkLines(specs), "\n") + ForksFooter else NoForksText
  }

  /** Without fork specs the generator is told to emit no forks; otherwise the text opens with
      the fork header. */
  lemma ForkInstructionsCases(specs: seq<ForkSpec>)
    ensures specs == [] <==> ForkInstructions(specs) == NoForksText
    ensures specs != [] ==> StartsWith(ForkInstructions(specs), ForksHeader)
  {
    if specs != [] {
      var lines := Join(ForkLines(specs), "\n");
      var text := ForksHeader + lines + ForksFooter;
      assert ForkInstructions(specs) == text;
      assert |text| > |NoForksText|;
      assert text[..|ForksHeader|] == ForksHeader;
    }
  }

  /** Every fork spec gets its own line. */
  lemma ForkInstructionsListEveryone(specs: seq<ForkSpec>, i: nat)
    requires i < |specs|
    ensures Contains(ForkInstructions(specs), ForkLine(specs[i]))
  {
    JoinContains(ForkLines(specs), "\n", i);
    ContainsInMiddle(ForksHeader, Join(ForkLines(specs), "\n"), ForksFooter, ForkLine(specs[i]));
  }

  const PantryHeader: string := "\nPrioritize using these pantry items: "

  /** The pantry note appears exactly when pantry names are given and there is at least one. */
  function PantryNote(pantry: Option<seq<string>>): (r: string)
    ensures r == "" <==> pantry.None? || pantry.value == []
    ensures r != "" ==> StartsWith(r, PantryHeader)
    ensures r != "" ==> r == PantryHeader + Join(pantry.value, ", ")
    ensures r != "" ==> forall i :: 0 <= i < |pantry.value| ==> Contains(r, pantry.value[i])
  {
    if pantry.Some? && |pantry.value| > 0 then
      var names := Join(pantry.value, ", ");
      forall i | 0 <= i < |pantry.value| ensures Contains(PantryHeader + names, pantry.value[i]) {
        JoinContains(pantry.value, ", ", i);
        ContainsInMiddle(PantryHeader, names, "", pantry.value[i]);
        assert PantryHeader + names + "" == PantryHeader + names;
      }
      PantryHeader + names
    else ""
  }

  const ImperialUnits: string := "Use imperial units for ingredient quantities and instructions (oz, lb, cups, tbsp, tsp, F)."
  const MetricUnits: string := "Use metric units for ingredient quantities and instructions (g, kg, ml, l, C)."

  function MeasurementInstructions(m: MeasurementSystem): (r: string)
    ensures r == ImperialUnits <==> m == Imperial
    ensures r == MetricUnits <==> m == Metric
  {
    assert |ImperialUnits| != |MetricUnits|;
    match m
    case Imperial => ImperialUnits
    case Metric => MetricUnits
  }

  /** The hard excludes, comma-joined, or "none" when there are none. */
  function ExcludesText(excludes: seq<string>): (r: string)
    ensures excludes == [] ==> r == "none"
    ensures excludes != [] ==> StartsWith(r, excludes[0])
    ensures excludes != [] ==> r == Join(excludes, ", ")
    ensures forall i :: 0 <= i < |excludes| ==> Contains(r, excludes[i])
  {
    if |excludes| > 0 then
      JoinStartsWithFirst(excludes, ", ");
      forall i | 0 <= i < |excludes| ensures Contains(Join(excludes, ", "), excludes[i]) {
        JoinContains(excludes, ", ", i);
      }
      Join(excludes, ", ")
    else "none"
  }

  // ---------------------------------------------------------------------------
  // The prompt.

  // The fixed texts of the request lines.
  const IntroOpen: string := "You are a meal planning assistant. Generate a "
  const IntroClose: string := "-day meal plan as JSON."
  const HouseholdLabel: string := "Household: "
  const PeopleLabel: string := " people"
  const BaseDietLabel: string := "Base diet: "
  const ExcludesLabel: string := "Hard allergen excludes: "
  const SlotsLabel: string := "Meal slots per day: "
  const SystemLabel: string := "Measurement system: "

  /** The lines of the prompt that carry the request. */
  function RequestLines(c: ConstraintResult, numDays: nat, slots: seq<SlotEntry>,
                        pantry: Option<seq<string>>, m: MeasurementSystem): seq<string>
  {
    [ IntroOpen + NatToString(numDays) + IntroClose,
      "",
      HouseholdLabel + NatToString(c.householdSize) + PeopleLabel,
      BaseDietLabel + c.baseDiet,
      ExcludesLabel + ExcludesText(c.hardExcludes),
      SlotsLabel + EnabledMeals(slots),
      SystemLabel + SystemName(m),
      MeasurementInstructions(m),
      ForkInstructions(c.forkSpecs) + PantryNote(pantry) ]
  }

  /** The closing text of the prompt, the output format the reply must follow, around the
      one value it carries: the servings per meal. */
  const FormatOpen: string :=
    "\n\nOutput ONLY valid JSON matching this structure exactly:\n{\n  \"days\": [\n    {\n      \"day_index\": 0,\n"
    + "      \"meals\": {\n        \"<meal_slot_key>\": {\n          \"name\": \"Meal Name\",\n"
    + "          \"description\": \"Brief description\",\n"
    + "          \"ingredients\": [\"ingredient1\", \"ingredient2\"],\n"
    + "          \"steps\": [\"Step 1...\", \"Step 2...\"],\n          \"prep_time_min\": 30,\n"
    + "          \"servings\": "
  const FormatClose: string :=
    ",\n          \"macro_estimates\": { \"calories\": 500, \"protein_g\": 30, \"carbs_g\": 60, \"fat_g\": 15 },\n"
    + "          \"shopping_items\": [{ \"name\": \"item\", \"qty\": \"amount\", \"category\": \"produce|pantry|protein|dairy|other\" }],\n"
    + "          \"forks\": {}\n        }\n      }\n    }\n  ]\n}\n\n"
    + "Set disabled meal slots to null. Ensure variety across days. Keep recipes practical and family-friendly.\n"
    + "Macro estimates are rough approximations â€” label them as such."

  function Prompt(c: ConstraintResult, numDays: nat, slots: seq<SlotEntry>,
                  pantry: Option<seq<string>>, m: MeasurementSystem): string
  {
    Join(RequestLines(c, numDays, slots, pantry, m), "\n") + FormatText(c.householdSize)
  }

  /** The closing text with the household size as the servings. */
  function FormatText(householdSize: nat): string {
    FormatOpen + NatToString(householdSize) + FormatClose
  }

  /** The prompt opens with the request for a plan of the asked number of days. */
  lemma PromptOpensWithDayCount(c: ConstraintResult, numDays: nat, slots: seq<SlotEntry>,
                                pantry: Option<seq<string>>, m: MeasurementSystem)
    ensures StartsWith(Prompt(c, numDays, slots, pantry, m),
      IntroOpen + NatToString(numDays) + IntroClose)
  {
    LinesInText(RequestLines(c, numDays, slots, pantry, m), FormatText(c.householdSize));
  }

  /** The prompt carries the excludes, the enabled slots, the unit instruction, the fork
      instructions and the pantry note. */
  lemma PromptCarriesPieces(c: ConstraintResult, numDays: nat, slots: seq<SlotEntry>,
                            pantry: Option<seq<string>>, m: MeasurementSystem)
    ensures Contains(Prompt(c, numDays, slots, pantry, m), ExcludesLabel + ExcludesText(c.hardExcludes))
    ensures Contains(Prompt(c, numDays, slots, pantry, m), SlotsLabel + EnabledMeals(slots))
    ensures Contains(Prompt(c, numDays, slots, pantry, m), MeasurementInstructions(m))
    ensures Contains(Prompt(c, numDays, slots, pantry, m), ForkInstructions(c.forkSpecs) + PantryNote(pantry))
    // Every hard exclude, and every pantry name passed, reaches the model.
    ensures forall i :: 0 <= i < |c.hardExcludes| ==> Contains(Prompt(c, numDays, slots, pantry, m), c.hardExcludes[i])
    ensures pantry.Some? ==> forall i :: 0 <= i < |pantry.value| ==>
      Contains(Prompt(c, numDays, slots, pantry, m), pantry.value[i])
  {
    var request := RequestLines(c, numDays, slots, pantry, m);
    var text := Join(request, "\n") + FormatText(c.householdSize);
    LinesInText(request, FormatText(c.householdSize));
    assert Contains(text, request[4]);
    assert Contains(text, request[5]);
    assert Contains(text, request[7]);
    assert Contains(text, request[8]);
    var prompt := Prompt(c, numDays, slots, pantry, m);
    var excludes := ExcludesText(c.hardExcludes);
    forall i | 0 <= i < |c.hardExcludes| ensures Contains(prompt, c.hardExcludes[i]) {
      ContainsInMiddle(ExcludesLabel, excludes, "", c.hardExcludes[i]);
      assert ExcludesLabel + excludes + "" == ExcludesLabel + excludes;
      ContainsTransitive(prompt, ExcludesLabel + excludes, c.hardExcludes[i]);
    }
    if pantry.Some? {
      var forks := ForkInstructions(c.forkSpecs);
      var note := PantryNote(pantry);
      forall i | 0 <= i < |pantry.value| ensures Contains(prompt, pantry.value[i]) {
        ContainsInMiddle(forks, note, "", pantry.value[i]);
        assert forks + note + "" == forks + note;
        ContainsTransitive(prompt, forks + note, pantry.value[i]);
      }
    }
  }

  /** The first line opens the newline-joined text and each line occurs in it, whatever
      follows. */
  lemma LinesInText(lines: seq<string>, tail: string)
    requires |lines| == 9
    ensures StartsWith(Join(lines, "\n") + tail, lines[0])
    ensures forall i :: 0 <= i < |lines| ==> Contains(Join(lines, "\n") + tail, lines[i])
  {
    var head := Join(lines, "\n");
    JoinStartsWithFirst(lines, "\n");
    assert (head + tail)[..|lines[0]|] == head[..|lines[0]|];
    forall i | 0 <= i < |lines|
      ensures Contains(head + tail, lines[i])
    {
      JoinContains(lines, "\n", i);
      ContainsInMiddle("", head, tail, lines[i]);
      assert "" + head + tail == head + tail;
    }
  }

  // ---------------------------------------------------------------------------
  // The request and the reply.

  /** `process.env.LLM_MODEL || "gpt-4o-mini"`. */
  function ModelName(envModel: Option<string>): (r: string)
    ensures envModel.None? || envModel.value == "" ==> r == "gpt-4o-mini"
    ensures envModel.Some? && envModel.value != "" ==> r == envModel.value
  {
    if envModel.Some? && envModel.value != "" then envModel.value else "gpt-4o-mini"
  }

  /** `Number(process.env.LLM_MAX_TOKENS || 4096)`; `None` is NaN. Only plain decimal digits
      are read as a number. */
  function MaxTokenValue(envMaxTokens: Option<string>): Option<nat> {
    if envMaxTokens.None? || envMaxTokens.value == "" then Some(4096)
    else if AllDigits(envMaxTokens.value) then Some(DigitsValue(envMaxTokens.value))
    else None
  }

  /** A configured decimal count is read back as itself; an unset one is 4096. */
  lemma MaxTokenValueReadsConfig(n: nat)
    ensures MaxTokenValue(Some(NatToString(n))) == Some(n)
    ensures MaxTokenValue(None) == Some(4096)
  {
    NatToStringRoundTrip(n);
  }

  /** The token limit goes under `max_completion_tokens` for gpt-5 models, else `max_tokens`. */
  datatype TokenLimit = MaxCompletionTokens(count: Option<nat>) | MaxTokens(count: Option<nat>)

  datatype Request = Request(model: string, prompt: string, temperature: real, limit: TokenLimit)

  function BuildRequest(c: ConstraintResult, input: PlanRequest, pantry: Option<seq<string>>,
                        m: MeasurementSystem, envModel: Option<string>, envMaxTokens: Option<string>): (r: Request)
    ensures r.model == ModelName(envModel)
    ensures r.limit.MaxCompletionTokens? <==> StartsWith(r.model, "gpt-5")
    ensures r.limit.count == MaxTokenValue(envMaxTokens)
    ensures r.prompt == Prompt(c, input.numDays, input.mealsEnabled, pantry, m)
  {
    var model := ModelName(envModel);
    var limit := if StartsWith(model, "gpt-5") then MaxCompletionTokens(MaxTokenValue(envMaxTokens))
                 else MaxTokens(MaxTokenValue(envMaxTokens));
    Request(model, Prompt(c, input.numDays, input.mealsEnabled, pantry, m), 0.7, limit)
  }

  /** Reads the first choice's content: a missing or empty content is the "Empty LLM response"
      error; otherwise the content must parse as JSON (`parse` stands for `JSON.parse`, `None`
      for a syntax error) and then validate as a plan. */
  function ReadReply(content: Option<string>, parse: string -> Option<Json>): (r: Result<seq<LlmDay>, string>)
    ensures content.None? || content.value == "" ==> r == Failure("Empty LLM response")
    ensures r.Success? ==>
      && content.Some? && content.value != ""
      && parse(content.value).Some?
      && ParseLlmOutput(parse(content.value).value) == r
    ensures content.Some? && content.value != "" && parse(content.value).Some? ==>
      r == ParseLlmOutput(parse(content.value).value)
  {
    if content.None? || content.value == "" then Failure("Empty LLM response")
    else
      match parse(content.value)
      case None => Failure("invalid JSON")
      case Some(j) => ParseLlmOutput(j)
  }

  /** `generateMealPlan`: builds the request, sends it through `call` (the chat completion,
      whose failure is a thrown error) and reads the reply. */
  function GenerateMealPlan(c: ConstraintResult, input: PlanRequest, pantry: Option<seq<string>>,
                            m: MeasurementSystem, envModel: Option<string>, envMaxTokens: Option<string>,
                            call: Request -> Result<Option<string>, string>,
                            parse: string -> Option<Json>): (r: Result<seq<LlmDay>, string>)
    // A thrown completion error propagates unchanged.
    ensures var reply := call(BuildRequest(c, input, pantry, m, envModel, envMaxTokens));
      reply.Failure? ==> r == Failure(reply.error)
    // A reply without content, or with empty content, is the "Empty LLM response" error.
    ensures var reply := call(BuildRequest(c, input, pantry, m, envModel, envMaxTokens));
      reply.Success? && (reply.value.None? || reply.value.value == "") ==>
        r == Failure("Empty LLM response")
    // Content that parses is exactly what the plan schema makes of it.
    ensures var reply := call(BuildRequest(c, input, pantry, m, envModel, envMaxTokens));
      reply.Success? && reply.value.Some? && reply.value.value != "" && parse(reply.value.value).Some? ==>
        r == ParseLlmOutput(parse(reply.value.value).value)
    // Content that is not JSON is an error, never a plan.
    ensures var reply := call(BuildRequest(c, input, pantry, m, envModel, envMaxTokens));
      reply.Success? && reply.value.Some? && parse(reply.value.value).None? ==> r.Failure?
    // A plan comes back only from a successful call on the request that `BuildRequest` makes
    // (model, token-limit field, prompt), and it is exactly the validated reply content.
    ensures r.Success? ==>
      var req := BuildRequest(c, input, pantry, m, envModel, envMaxTokens);
      && req.model == ModelName(envModel)
      && (req.limit.MaxCompletionTokens? <==> StartsWith(req.model, "gpt-5"))
      && req.limit.count == MaxTokenValue(envMaxTokens)
      && call(req).Success? && call(req).value.Some? && call(req).value.value != ""
      && parse(call(req).value.value).Some?
      && ParseLlmOutput(parse(call(req).value.value).value) == r
  {
    var reply := call(BuildRequest(c, input, pantry, m, envModel, envMaxTokens));
    if reply.Failure? then Failure(reply.error) else ReadReply(reply.value, parse)
  }
}
