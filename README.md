# Meal-planner core in Dafny

This project models the deterministic core of a household meal-planning web application. The
application is built with Next.js, Prisma, Stripe and OpenAI. A household lists its members with
their diets, allergies, dislikes and goals. The application then:

- resolves the members into one set of constraints (a base diet, hard allergen excludes and a
  personal "fork" for each member who needs one);
- asks a language model for a plan of several days;
- stores each generated day, keeping only the meal slots the user configured;
- aggregates the plan's shopping list.

A free tier and a PRO tier differ in daily quota, plan length, member cap and pantry access.
Stripe checkout, the Stripe webhook and the billing routes move users between the two tiers.

The model has one module per source file, in that file's own form:

- **Pure code** becomes datatypes, functions and lemmas: the schemas, the prompt assembly, the
  measurement guess, the currency symbol, the billing selection, the checkout preconditions and
  the derived values of the account settings page.
- **Code that mutates** becomes methods with loop invariants. This covers the loops of
  `buildConstraints`, `aggregateShoppingList` and `normalizeMealsForConfiguredSlots`. It also
  covers the route handlers, which are methods on a `Db` class holding the Prisma tables, and
  the component state of two forms, which are classes.
- **Each handler method** is proved equal to a specification function over a snapshot of the
  tables, and the properties the routes promise are proved about those functions.

Conventions used throughout:

- **Sessions.** A session is `Option<string>`: `None` stands for a missing or empty user id.
- **Time.** Time is an integer count of milliseconds, and a quota window has expired once
  86,400,000 ms have passed.
- **Truthiness.** JavaScript truthiness of an optional string is `Truthy` (present and
  non-empty).
- **JSON.** JSON values are the `Json` datatype. Objects are member lists in insertion order,
  as `Object.entries` sees them.
- **Limits.** Every limit constant is the default that the source's `process.env` fallback
  gives.

The two copies of the subscription helpers are identical: `src/app/api/billing/cancel/route.ts`
and `src/app/api/billing/subscription/route.ts` each carry one. The model defines them once, in
`Billing`, and the rows below cite the cancel route's copy.

The free-tier member cap differs between files, and each file's constant is modelled as written:

- `src/app/api/account/route.ts:11` reports 2;
- `src/app/api/members/route.ts:6` enforces 3.

`Account.FreeMemberCapsDisagree` shows the result: a free user with two members is told that
the limit is reached, yet the members route accepts a third.

## Model

| member | source | states |
|---|---|---|
| Measurement.GuessMeasurementSystem | src/lib/measurement.ts:3-6 | imperial exactly when the timezone starts with "America/"; a missing or empty timezone gives metric |
| Pricing.CurrencySymbol | src/components/landing/pricing.tsx:14-33 | "£" exactly for the four British zones, "€" exactly for the other "Europe/" zones, "$" exactly for everything else |
| Pricing.DisplayedSymbol | src/components/landing/pricing.tsx:36-43 | without a resolved timezone the page shows "$", otherwise the zone's symbol |
| Pricing.PoundZonesAreEuropean | src/components/landing/pricing.tsx:15-26 | every pound zone also starts with "Europe/", so the £ test must come first |
| Pricing.ImperialZonesPayDollars | src/components/landing/pricing.tsx:28-32 | every zone guessed imperial is shown prices in dollars |
| Pricing.CallsToActionFor | src/components/landing/pricing.tsx:48-50 | logged-in visitors get the dashboard labels and the account href; others get the signup labels and `ctaHref` |
| Constraints.Rank | src/lib/constraints.ts:19-28 | ranks lie in 0..5, an unknown diet ranks 0, and only vegan ranks 5 |
| Constraints.LowerAll | src/lib/constraints.ts:32 | each allergy is case-folded, position by position |
| Constraints.AddAllFacts | src/lib/constraints.ts:31-32 | adding tokens to the set keeps it duplicate-free and holds exactly the old and the new tokens |
| Constraints.AllergyTokensMembership | src/lib/constraints.ts:31-32 | a token is collected iff it is the lower-cased form of some member's allergy |
| Constraints.HardExcludesAreAllergyUnion | src/lib/constraints.ts:31-32 | `hardExcludes` is duplicate-free, lower case, and is exactly the union of the members' lower-cased allergies |
| Constraints.ScanDietsFacts | src/lib/constraints.ts:34-42 | the running maximum is the largest rank seen, its diet has that rank, and it is the diet of the first member reaching it |
| Constraints.BaseDietIsMostRestrictive | src/lib/constraints.ts:34-42 | every member's rank is at most the base diet's rank |
| Constraints.BaseDietIsEarliestMaximum | src/lib/constraints.ts:38-41 | when some rank is positive, the base diet belongs to the earliest member of maximal rank (strict `>`) |
| Constraints.BaseDietNone | src/lib/constraints.ts:34-35 | the base diet is "none" iff every member ranks 0, the empty household included |
| Constraints.ReasonParts | src/lib/constraints.ts:55-59 | the kept reason parts are never empty |
| Constraints.ReasonEmpty | src/lib/constraints.ts:55-59 | the reason is empty iff the diet matches and there are no allergies and no goals |
| Constraints.ReasonOrder | src/lib/constraints.ts:55-59 | a differing diet opens the reason; otherwise the allergy part does when allergies exist |
| Constraints.ForkSpecsFilterMembers | src/lib/constraints.ts:44-65 | fork specs are exactly the members that need one, each once, in member order, carrying that member's data |
| Constraints.DislikesNeverMatter | src/lib/constraints.ts:46-49 | members differing only in their dislikes give the same constraint result |
| Constraints.BuildConstraints | src/lib/constraints.ts:30-73 | the method's result equals the reference constraint result |
| Constraints.CollectAllergies | src/lib/constraints.ts:31-32 | the loop collects exactly the reference hard excludes |
| Constraints.AddAllergies | src/lib/constraints.ts:32 | the inner loop adds one member's lower-cased allergies to the set |
| Constraints.ChooseBaseDiet | src/lib/constraints.ts:34-42 | the running-max loop returns the reference base diet |
| Constraints.CollectForks | src/lib/constraints.ts:44-65 | the push loop returns the reference fork specs |
| ShoppingList.CollectKeys | src/lib/shopping-list.ts:19-40 | the item map's keys are duplicate-free, match its entries, and are exactly the lower-cased names seen |
| ShoppingList.CollectQuantities | src/lib/shopping-list.ts:26-37 | each entry's quantities are the quantities of the occurrences of its name, in occurrence order |
| ShoppingList.CollectFirst | src/lib/shopping-list.ts:31-36 | each entry keeps the name and category of the first occurrence of its key |
| ShoppingList.QuantitiesAreOccurrences | src/lib/shopping-list.ts:26-37 | the quantity lists together hold exactly as many quantities as there were item occurrences |
| ShoppingList.TotalIsDistinctNames | src/lib/shopping-list.ts:54 | `totalItems` is the number of distinct lower-cased names |
| ShoppingList.InCategoryCount | src/lib/shopping-list.ts:42-46 | a category's group holds each entry of that category with its multiplicity and nothing else |
| ShoppingList.GroupsCoverItems | src/lib/shopping-list.ts:42-46 | no group is empty, and every entry lands in the group named by its category |
| ShoppingList.GroupedSnoc | src/lib/shopping-list.ts:43-45 | pushing one more entry extends only its own category's group |
| ShoppingList.ByNameTotal | src/lib/shopping-list.ts:49 | the name comparison orders any two entries |
| ShoppingList.AddItems | src/lib/shopping-list.ts:26-37 | the item loop's map equals the reference fold over the items seen so far |
| ShoppingList.AddMeals | src/lib/shopping-list.ts:23-39 | the meal loop skips null meals and meals without items, and folds in the others' items |
| ShoppingList.CollectItems | src/lib/shopping-list.ts:19-40 | the day loop's map equals the reference fold over all occurrences |
| ShoppingList.GroupByCategory | src/lib/shopping-list.ts:42-46 | the grouping loop equals the reference grouping of the map's values in insertion order |
| ShoppingList.SortGroups | src/lib/shopping-list.ts:48-50 | each group comes out sorted by name as a permutation of itself; the categories are unchanged |
| ShoppingList.AggregateShoppingList | src/lib/shopping-list.ts:18-56 | groups are the reference groups, each sorted by name and holding the same entries, and the total counts the distinct names |
| Sorting.SortBy | src/lib/shopping-list.ts:49 | the in-place sort yields a sorted permutation of its input |
| Sorting.SortSnocGreatest | src/app/api/members/route.ts:22-25 | an element no smaller than the rest sorts last |
| Sorting.SortSnocLeast | src/app/api/pantry/route.ts:33-36 | an element ordered before none of the rest sorts first |
| Text.Lower | src/lib/constraints.ts:32 | `toLowerCase` keeps the length and folds every character |
| Text.Trim | src/app/dashboard/plans/new/page.tsx:26 | `trim` returns a slice of the input with no space at either end, empty exactly for all-space input |
| Text.JoinContains | src/lib/llm.ts:23-25 | every joined part occurs in the joined text |
| Text.NatToStringRoundTrip | src/app/dashboard/plans/new/page.tsx:81-82 | `parseInt(String(n))` is `n` |
| Text.KeepDigitsCount | src/app/dashboard/plans/new/page.tsx:145 | stripping non-digits keeps every digit with its multiplicity and drops every other character |
| Text.LexLeTotal | src/lib/shopping-list.ts:49 | the name order relates any two strings |
| Store.MembersOf | src/app/api/members/route.ts:22-23 | the household's members are exactly the member rows with its id |
| Store.PantryOf | src/app/api/pantry/route.ts:33-34 | the household's pantry is exactly the items with its id |
| Schemas.Str | src/lib/schemas.ts:10 | a string is accepted iff its length is within the bounds, and is kept unchanged |
| Schemas.Enum | src/lib/schemas.ts:3-7 | a value is accepted iff it is one of the enumerated strings |
| Schemas.Items | src/lib/schemas.ts:13 | an array is accepted iff every element is, and the result is the elements' results in order |
| Schemas.Array | src/lib/schemas.ts:60-61 | accepted iff the value is an array whose every element is accepted; the result is the elements' results, position by position |
| Schemas.Strings | src/lib/schemas.ts:60-61 | accepted iff every element is a string, and the array is exactly those strings in order |
| Schemas.StringList | src/lib/schemas.ts:13-15 | accepted iff an array of at most the count bound whose every entry is a string within the length bound; the result is exactly those strings, in order |
| Schemas.StringListRoundTrip | src/lib/schemas.ts:13-15 | a list within the bounds parses back to itself |
| Schemas.ParseMemberCreate | src/lib/schemas.ts:9-16 | accepted iff the body is an object with a name of 1..50 and every optional field, when present, valid; the member holds the body's values, and "adult", "none" and empty lists for the absent fields |
| Schemas.MemberRoundTrip | src/lib/schemas.ts:9-16 | every valid member, written out as JSON, parses back to itself |
| Schemas.MemberDefaults | src/lib/schemas.ts:11-15 | a body with only a name gets age group "adult", diet "none" and empty lists |
| Schemas.ParseMemberUpdate | src/lib/schemas.ts:18 | accepted iff every field present meets the create bounds; the patch holds exactly the fields present, with the body's values |
| Schemas.CreateBodyIsUpdateBody | src/lib/schemas.ts:18 | every create body is also an update body with the same name |
| Schemas.ParseHouseholdUpdate | src/lib/schemas.ts:20-22 | accepted iff the body has a `name` string of length 1..100, and the result is that name |
| Schemas.HouseholdRoundTrip | src/lib/schemas.ts:20-22 | a name of 1..100 characters, sent on its own, is accepted as itself |
| Schemas.ParseMealSlot | src/lib/schemas.ts:24-28 | accepted iff `enabled` is a boolean, `label` a string and `type` one of breakfast, meal or snack; the slot holds those three values |
| Schemas.ParseSlots | src/lib/schemas.ts:33 | accepted iff every member is a valid slot; the record keeps every key in order, each with its parsed slot |
| Schemas.NumDays | src/lib/schemas.ts:32 | accepted iff an integer in 1..31, and then it is that integer |
| Schemas.ParseGeneratePlan | src/lib/schemas.ts:30-40 | accepted iff the start date is a parseable string, the day count an integer in 1..31, and the optional fields valid when present; the request holds the body's date and count, its slot record or the four default slots, and its use-it-up flag or off |
| Schemas.ParseShoppingItem | src/lib/schemas.ts:42-46 | accepted iff name, quantity and category are strings; the item holds those strings |
| Schemas.ParseSwap | src/lib/schemas.ts:50-53 | accepted iff both sides are strings; the swap holds them |
| Schemas.ParseFork | src/lib/schemas.ts:48-55 | accepted iff `reason` is a string and `swaps` and `notes`, when present, validate; the fork holds the reason, the parsed swaps or [], and the notes or "" |
| Schemas.ParseForks | src/lib/schemas.ts:71 | accepted iff every member is a valid fork; the record keeps every key in order, each with its parsed fork |
| Schemas.ParseMacros | src/lib/schemas.ts:64-69 | accepted iff the four estimates are numbers; the macros hold those numbers |
| Schemas.ParseMeal | src/lib/schemas.ts:57-72 | accepted iff every required field has its type and the optional ones validate when present; the meal holds the body's name, description, ingredients, steps, time and servings, its macros iff sent, and its items and forks or [] and {} |
| Schemas.ParseMealOrNull | src/lib/schemas.ts:74-77 | null is accepted as no meal; anything else is accepted iff it is a valid meal, and then is that meal |
| Schemas.ParseDayMeals | src/lib/schemas.ts:74-77 | accepted iff every member is null or a valid meal; the record keeps every key in order, each with its parsed meal or none |
| Schemas.ParseDay | src/lib/schemas.ts:80-83 | accepted iff `day_index` is a number and `meals` a valid record; the day holds that index and that record's meals |
| Schemas.ParseLlmOutput | src/lib/schemas.ts:79-84 | accepted iff `days` is an array whose every element is a valid day (one bad day rejects the whole reply); the result is those days, position by position |
| Llm.EnabledSlotLinesFilter | src/lib/llm.ts:17-20 | the slot lines are exactly the enabled slots, each once, in record order |
| Llm.EnabledMealsMentionsEnabled | src/lib/llm.ts:17-20 | every enabled slot's `key: label (type)` line appears in the slot text |
| Llm.ForkLines | src/lib/llm.ts:23-25 | one line per fork spec, in order |
| Llm.ForkInstructionsCases | src/lib/llm.ts:22-26 | the "Do NOT include any forks" text appears iff there are no fork specs; otherwise the fork header opens the text |
| Llm.ForkInstructionsListEveryone | src/lib/llm.ts:23-25 | every fork spec's line appears in the fork instructions |
| Llm.PantryNote | src/lib/llm.ts:28-30 | the note is present iff pantry names are given and non-empty, and then it is the header followed by the names joined with ", ", so it contains every name |
| Llm.MeasurementInstructions | src/lib/llm.ts:32-34 | the imperial instruction exactly for imperial, the metric one exactly for metric |
| Llm.ExcludesText | src/lib/llm.ts:40 | "none" for no excludes; otherwise the excludes joined with ", ", which starts with the first and contains every one |
| Llm.PromptOpensWithDayCount | src/lib/llm.ts:36 | the prompt opens with the requested day count |
| Llm.PromptCarriesPieces | src/lib/llm.ts:36-44 | the prompt contains the excludes, the slot list, the unit instruction, and the fork instructions followed by the pantry note; every hard exclude and every pantry name passed occurs in it |
| Llm.ModelName | src/lib/llm.ts:71 | the configured model, or "gpt-4o-mini" when unset or empty |
| Llm.MaxTokenValueReadsConfig | src/lib/llm.ts:72 | a configured decimal count is read back exactly, and the default is 4096 |
| Llm.BuildRequest | src/lib/llm.ts:74-89 | the request carries the model and the prompt, and uses `max_completion_tokens` iff the model starts with "gpt-5" |
| Llm.ReadReply | src/lib/llm.ts:91-98 | missing or empty content is the "Empty LLM response" error; content that parses is exactly what the plan schema makes of it, and a plan comes only from such content |
| Llm.GenerateMealPlan | src/lib/llm.ts:11-99 | a failed call gives its error; missing or empty content gives "Empty LLM response"; content that is not JSON is an error; content that parses gives exactly what the plan schema makes of it; a plan comes only from a successful call on the built request (configured model, `max_completion_tokens` iff a gpt-5 model, the configured token count) |
| PlanGeneration.CountAfterSuccess | src/app/api/plans/generate/route.ts:136-141 | a success raises the effective count by one, resets the window when it had expired, and changes no other field |
| PlanGeneration.EffectiveCountFallsWithTime | src/app/api/plans/generate/route.ts:46-52 | the effective count never rises as time passes, and is 0 once the window has expired |
| PlanGeneration.NormalizedKeys | src/app/api/plans/generate/route.ts:18-29 | the normalised meals have exactly the configured slot keys, each once |
| PlanGeneration.NormalizedValue | src/app/api/plans/generate/route.ts:20-27 | a disabled slot is null; an enabled one takes the raw value if present, else null |
| PlanGeneration.NormalizeMeals | src/app/api/plans/generate/route.ts:14-30 | the loop returns the reference normalisation |
| PlanGeneration.PlanDaysFor | src/app/api/plans/generate/route.ts:118-131 | one stored day per generated day |
| PlanGeneration.PlanDaysForShape | src/app/api/plans/generate/route.ts:124-130 | each stored day has the plan id, the generated day index, and meals normalised to the configured slots |
| PlanGeneration.BuildPlanDays | src/app/api/plans/generate/route.ts:118-131 | the map over the days equals the reference rows |
| PlanGeneration.InitialMeasurementAsWritten | src/app/api/plans/generate/route.ts:78-85 | as written, the guess is always metric |
| PlanGeneration.InitialMeasurement | src/app/api/plans/generate/route.ts:78-85 | corrected: imperial iff the request's timezone starts with "America/" |
| PlanGeneration.TimezoneIsDropped | src/app/api/plans/generate/route.ts:80 | a New York request that the schema accepts is guessed metric as written and imperial when corrected |
| PlanGeneration.Admission | src/app/api/plans/generate/route.ts:33-76 | 401, 404, 429, 400 and 403 in the route's order, each under exactly its condition, and admission otherwise; admitted requests are under quota and within the tier's days, and use-it-up is in effect iff PRO and requested |
| PlanGeneration.MeasuredUser | src/app/api/plans/generate/route.ts:78-85 | a stored system is kept; a missing one becomes the corrected guess from the request's timezone; nothing else changes |
| PlanGeneration.Measured | src/app/api/plans/generate/route.ts:81-84 | only the caller's row is updated, and only when it had no system |
| PlanGeneration.PantryNames | src/app/api/plans/generate/route.ts:112 | the pantry items' names, in order |
| PlanGeneration.Prepare | src/app/api/plans/generate/route.ts:87-113 | the household is refused iff missing or without members; the constraints are those built from its members sorted by `sortOrder`; pantry names are passed iff use-it-up is in effect |
| PlanGeneration.Complete | src/app/api/plans/generate/route.ts:117-156 | success gives 201, marks the plan ready, appends its days and counts the generation; failure gives 500, marks it failed, and changes neither days nor counters |
| PlanGeneration.GenerateSpec | src/app/api/plans/generate/route.ts:32-157 | every refusal before the insert leaves the tables unchanged; an admitted request gets 400 iff the household is missing or empty, storing only the unit system, and otherwise 201 iff the generation succeeds, with one stored day per generated day; households, members and pantry never change; plans and days change only on 201 or 500 |
| PlanGeneration.GenerateKeepsAccounts | src/app/api/plans/generate/route.ts:78-85 | no account is added, removed or moved between tiers, and a 400 stores only the guessed unit system |
| PlanGeneration.GenerateCountsQuota | src/app/api/plans/generate/route.ts:136-150 | 500 leaves every counter alone; 201 adds one to the caller's effective count, stays within the daily limit, and leaves other users unchanged |
| PlanGeneration.GenerateAppendsPlan | src/app/api/plans/generate/route.ts:98-150 | 201 and 500 append exactly one plan (the given id, the caller's non-empty household, within the tier's days, use-it-up only on PRO, ready or failed as the status says); 201 only appends days |
| PlanGeneration.FreeTierOnePlanPerWindow | src/app/api/plans/generate/route.ts:46-60 | after a free user's success, any request within 24 hours of the window start is refused with 429 |
| PlanGeneration.Generate | src/app/api/plans/generate/route.ts:32-157 | the handler's status and new tables are those of the specification |
| PlanGeneration.CreatePlan | src/app/api/plans/generate/route.ts:98-156 | inserting the generating plan, generating and finishing gives `Complete` |
| PlanGeneration.ReadHousehold | src/app/api/plans/generate/route.ts:87-113 | reads the specified household, constraints and pantry names |
| PlanGeneration.Finish | src/app/api/plans/generate/route.ts:117-156 | the transaction or the failure update gives `Complete` |
| StripeWebhook.SessionEmail | src/app/api/webhooks/stripe/route.ts:31 | `customer_email` when truthy, else `customer_details.email` |
| StripeWebhook.CheckoutTarget | src/app/api/webhooks/stripe/route.ts:35-56 | the user id if truthy, else the email if truthy, else the customer id if present, exclusively |
| StripeWebhook.ApplyEvent | src/app/api/webhooks/stripe/route.ts:28-77 | no user is added or removed, and only tier and customer id ever change |
| StripeWebhook.CheckoutUpgradesTarget | src/app/api/webhooks/stripe/route.ts:35-56 | matched users become PRO and take the session's customer id unless matched by customer id or there is none; others are untouched |
| StripeWebhook.DowngradeByCustomer | src/app/api/webhooks/stripe/route.ts:59-76 | exactly the users with that customer id become FREE, and nothing else changes |
| StripeWebhook.ApplyEventIdempotent | src/app/api/webhooks/stripe/route.ts:36-75 | applying the same event twice is applying it once |
| StripeWebhook.ApplyEventKeepsIds | src/app/api/webhooks/stripe/route.ts:36-75 | users stay stored under their own ids |
| StripeWebhook.HandleWebhook | src/app/api/webhooks/stripe/route.ts:13-80 | a missing signature or secret, or a failed verification, gives 400 with no change; otherwise 200 and the event's update |
| Members.ListMembers | src/app/api/members/route.ts:9-28 | 401 iff no session, 404 iff no household; otherwise the household's members sorted by `sortOrder` |
| Members.GetMembers | src/app/api/members/route.ts:9-28 | the handler returns the specified list |
| Members.AddSpec | src/app/api/members/route.ts:30-72 | 401, 404, 403 (cap reached, checked before the body) and 400 each under exactly its condition, with no change; 201 appends the parsed member to the caller's household with `sortOrder` equal to the previous count, stays within the cap, and leaves other households alone |
| Members.AddKeepsDenseOrder | src/app/api/members/route.ts:63-69 | if the `sortOrder`s were 0..n-1 they still are after an add |
| Members.AddedMemberListedLast | src/app/api/members/route.ts:22-25 | after an add, the list is the previous list followed by the new member |
| Members.FullHouseholdRejects | src/app/api/members/route.ts:49-55 | a household at its cap gets 403 and nothing changes |
| Members.AddsStayUnderCap | src/app/api/members/route.ts:49-55 | any sequence of adds keeps the household within the cap |
| Members.AddMember | src/app/api/members/route.ts:30-72 | the handler's status and new tables are those of the specification |
| Account.LimitsFor | src/app/api/account/route.ts:59-63 | daily generations and plan days match the generate route's limits; members are 6 for PRO and one below the members route's free cap for FREE |
| Account.GetAccount | src/app/api/account/route.ts:14-65 | 401 and 404 under exactly their conditions, with no change; otherwise the stored system, or the timezone's guess stored before answering, together with the user's fields (creation time included) and the tier's limits |
| Account.GuessIsSticky | src/app/api/account/route.ts:38-46 | once stored, the system is returned for any later timezone and nothing more is written |
| Account.FreeMemberCapsDisagree | src/app/api/account/route.ts:11 | a free user with two members is told the cap is 2, yet the members route admits a third |
| Account.Patched | src/app/api/account/route.ts:79-88 | fields present in the update are written, absent ones kept, and no other field changes |
| Account.EmptyPatchIsIdentity | src/app/api/account/route.ts:79-88 | an update with no fields changes nothing |
| Account.PatchIdempotent | src/app/api/account/route.ts:79-88 | repeating an update changes nothing more |
| Account.PatchCompose | src/app/api/account/route.ts:79-88 | two updates in a row equal one combined update |
| Account.PutAccount | src/app/api/account/route.ts:67-93 | 401, 400 (invalid body) and 500 (no user row) with no change; otherwise the patched user is stored and exactly its two settings are answered |
| Account.Get | src/app/api/account/route.ts:14-65 | the handler's status, body and new tables are those of the specification |
| Account.Put | src/app/api/account/route.ts:67-93 | the handler's status, body and new tables are those of the specification |
| Billing.MaxItemEnd | src/app/api/billing/cancel/route.ts:26-28 | the fold from 0 is at least every item's period end, and is 0 or one of them |
| Billing.PayloadOf | src/app/api/billing/cancel/route.ts:14-40 | active iff there is a subscription; none gives the all-false payload; `currentPeriodEnd` is null iff the period end is ≤ 0, else that end |
| Billing.Active | src/app/api/billing/cancel/route.ts:50 | exactly the subscriptions that are neither canceled nor incomplete_expired |
| Billing.ActiveAppend | src/app/api/billing/cancel/route.ts:50 | the active filter distributes over concatenation, so it keeps list order |
| Billing.Best | src/app/api/billing/cancel/route.ts:51-57 | none iff the list is empty; otherwise a member with the greatest period end |
| Billing.BestIsFirst | src/app/api/billing/cancel/route.ts:51-57 | on ties the earliest subscription in the list is chosen |
| Billing.SortHeadIsBest | src/app/api/billing/cancel/route.ts:51-57 | the head of the stable descending sort is that choice |
| Billing.Latest | src/app/api/billing/cancel/route.ts:42-58 | none iff no subscription is active; otherwise an active one whose period end no active one exceeds |
| Billing.ForCustomer | src/app/api/billing/cancel/route.ts:44-47 | exactly the customer's subscriptions |
| Billing.Listed | src/app/api/billing/cancel/route.ts:44-47 | the customer's subscriptions in list order, cut off after the first 20 |
| Billing.ScheduleCancel | src/app/api/billing/cancel/route.ts:89-93 | only the chosen subscription gets `cancel_at_period_end` |
| Billing.LatestAfterSchedule | src/app/api/billing/cancel/route.ts:89-93 | after scheduling, the latest active subscription is the same one, now flagged |
| Billing.CancelSpec | src/app/api/billing/cancel/route.ts:60-98 | 401, 500 (not configured, or Stripe fails), 404 (no PRO customer, or nothing active) and 200 (a PRO customer with an active subscription) each under exactly its condition; refusals leave Stripe unchanged; 200 answers the payload with the cancellation flag, updating Stripe only if it was not yet set |
| Billing.CancelIdempotent | src/app/api/billing/cancel/route.ts:85-87 | cancelling again gives the same answer and changes nothing |
| Billing.SubscriptionSpec | src/app/api/billing/subscription/route.ts:60-86 | 401 and 500 under exactly their conditions; no customer id gives the empty payload without Stripe; otherwise the latest active subscription's payload |
| Billing.CancelThenRead | src/app/api/billing/subscription/route.ts:79-81 | after a cancellation, reading the subscription answers what the cancellation answered |
| Billing.Cancel | src/app/api/billing/cancel/route.ts:60-98 | the handler's status, payload and the account's new subscriptions are those of the specification |
| Checkout.BaseUrl | src/app/api/billing/checkout/route.ts:46 | `NEXT_PUBLIC_APP_URL`, else `NEXTAUTH_URL`, else "http://localhost:3000" |
| Checkout.Prepare | src/app/api/billing/checkout/route.ts:14-65 | 401, 500 (before any lookup), 404 and 400 (already PRO, or no customer id and no email) each under exactly its condition; otherwise a FREE user's session with the price, both return URLs, the user id as metadata, and the customer id in preference to the email |
| Checkout.StartCheckout | src/app/api/billing/checkout/route.ts:14-76 | a rejection keeps its status; otherwise the created url, or 500 when the call fails or returns none |
| Checkout.ProUserIsRejected | src/app/api/billing/checkout/route.ts:38-40 | a PRO user never gets a checkout url |
| Checkout.CheckoutUpgradesCaller | src/app/api/billing/checkout/route.ts:59-61 | the completed session upgrades exactly the caller, whatever emails or customer it reports |
| Pantry.ParsePantryCreate | src/app/api/pantry/route.ts:6-9 | accepted iff the body has a name of 1..100 and, when present, a category of at most 50; the item holds the name sent and the category sent or "other" |
| Pantry.PantryRoundTrip | src/app/api/pantry/route.ts:6-9 | every valid item, written out, parses back to itself |
| Pantry.PantryDefaultCategory | src/app/api/pantry/route.ts:8 | a body with only a name gets the category "other" |
| Pantry.ListPantry | src/app/api/pantry/route.ts:11-39 | 401, 403 (not PRO, before the household) and 404 under exactly their conditions; otherwise the household's items, newest first |
| Pantry.GetPantry | src/app/api/pantry/route.ts:11-39 | the handler returns the specified list |
| Pantry.AddSpec | src/app/api/pantry/route.ts:41-74 | 401, 403, 404 and 400 in that order with no change; 201 appends the parsed item to the caller's household only |
| Pantry.FreeUserTurnedAway | src/app/api/pantry/route.ts:21-23 | a FREE user gets 403 on both routes and nothing changes |
| Pantry.NewItemListedFirst | src/app/api/pantry/route.ts:33-36 | an item newer than all others is listed first, before the previous list |
| Pantry.AddItem | src/app/api/pantry/route.ts:41-74 | the handler's status and new tables are those of the specification |
| PlanForm.DisplayNumDays | src/app/dashboard/plans/new/page.tsx:31 | the parsed value when valid, else 1; always within 1..31 |
| PlanForm.Clamp | src/app/dashboard/plans/new/page.tsx:81 | the result lies in 1..31 and equals the input when the input already does |
| PlanForm.NumberFieldRoundTrip | src/app/dashboard/plans/new/page.tsx:82 | a number written into the field reads back as itself |
| PlanForm.Blurred | src/app/dashboard/plans/new/page.tsx:74-83 | after blur the field is valid; non-digits become "1", digits become the decimal text of the clamped number, and a valid value is kept |
| PlanForm.BlurIdempotent | src/app/dashboard/plans/new/page.tsx:74-83 | blurring twice equals blurring once |
| PlanForm.Typed | src/app/dashboard/plans/new/page.tsx:145 | the typed text keeps only digits, and is a whole number iff non-empty |
| PlanForm.Toggled | src/app/dashboard/plans/new/page.tsx:67-72 | only the named slot's `enabled` flips; keys and other slots are unchanged |
| PlanForm.ToggleTwice | src/app/dashboard/plans/new/page.tsx:67-72 | toggling a slot twice restores the slots |
| PlanForm.SlotRoundTrip | src/app/dashboard/plans/new/page.tsx:108 | a slot the form sends is accepted by the slot schema as itself |
| PlanForm.SlotsRoundTrip | src/app/dashboard/plans/new/page.tsx:108 | the form's slots are accepted as themselves |
| PlanForm.RequestAccepted | src/app/dashboard/plans/new/page.tsx:101-110 | the body the form posts parses to the request it holds, and carries the timezone the corrected guess reads |
| PlanForm.FallbackMaxDays | src/app/dashboard/plans/new/page.tsx:45 | the fallback day limit equals the generate route's tier limit |
| PlanForm.Form.constructor | src/app/dashboard/plans/new/page.tsx:17-23 | the initial state: "1", the default slots, use-it-up off, FREE with 3 days |
| PlanForm.Form.OnDaysInput | src/app/dashboard/plans/new/page.tsx:145 | the field holds the typed text stripped of non-digits |
| PlanForm.Form.OnDaysBlur | src/app/dashboard/plans/new/page.tsx:74-83 | the field holds the blurred value, which is in range |
| PlanForm.Form.ToggleMeal | src/app/dashboard/plans/new/page.tsx:67-72 | the slots are toggled at the key and keep their keys |
| PlanForm.Form.ToggleUseItUp | src/app/dashboard/plans/new/page.tsx:189-192 | flips use-it-up only on PRO |
| PlanForm.Form.SyncUseItUp | src/app/dashboard/plans/new/page.tsx:61-65 | use-it-up is off whenever the tier is not PRO |
| PlanForm.Form.AccountLoaded | src/app/dashboard/plans/new/page.tsx:33-59 | a network failure resets to FREE with 3 days; a non-OK answer or unknown tier changes nothing; otherwise the tier and its limit or fallback |
| PlanForm.Form.Generate | src/app/dashboard/plans/new/page.tsx:85-111 | a body is posted iff the days are in range and within the tier's limit, with use-it-up sent only on PRO; otherwise an error is shown |
| HouseholdForm.WithChip | src/components/dashboard/household-manager.tsx:79-84 | the trimmed, lower-cased value is appended unless empty or present, so lists stay duplicate-free |
| HouseholdForm.WithoutChip | src/components/dashboard/household-manager.tsx:86-88 | every occurrence of the value goes, every other value keeps its count, and duplicate-freedom is kept |
| HouseholdForm.WithoutChipAppend | src/components/dashboard/household-manager.tsx:87 | removal distributes over concatenation, so the kept values stay in their order |
| HouseholdForm.RemoveUndoesAdd | src/components/dashboard/household-manager.tsx:79-88 | adding a new chip and removing it restores the list |
| HouseholdForm.ToggleAllergy | src/components/dashboard/household-manager.tsx:186 | a present allergy is removed as `removeChip` removes it; an absent one is added as `addChip` adds it |
| HouseholdForm.ToggleAllergyFlips | src/components/dashboard/household-manager.tsx:186 | a click flips whether a common allergy is listed, and two clicks on an absent one restore the list |
| HouseholdForm.SaveDisabled | src/components/dashboard/household-manager.tsx:232 | Save is disabled iff saving or the name is blank |
| HouseholdForm.AddMemberDisabled | src/components/dashboard/household-manager.tsx:294 | disabled iff a limit is given and reached; a missing limit never disables |
| HouseholdForm.AddNeverDisabledAsWritten | src/app/dashboard/household/page.tsx:31-35 | as written, a household at the route's cap still sees Add Member enabled, and the route answers 403 |
| HouseholdForm.AddDisabledIffCapReached | src/components/dashboard/household-manager.tsx:294-300 | with that limit, Add Member is disabled iff the route would answer 403 |
| HouseholdForm.Form.constructor | src/components/dashboard/household-manager.tsx:50-57 | the empty form: adult, no diet, no chips |
| HouseholdForm.Form.Reset | src/components/dashboard/household-manager.tsx:61-65 | back to the empty form |
| HouseholdForm.Form.StartEdit | src/components/dashboard/household-manager.tsx:67-77 | the form takes the member's fields |
| HouseholdForm.Form.SaveButtonDisabled | src/components/dashboard/household-manager.tsx:232 | disabled iff saving or the name is blank |
| HouseholdForm.Form.AddChip | src/components/dashboard/household-manager.tsx:79-84 | only the named list changes, as `WithChip` says |
| HouseholdForm.Form.RemoveChip | src/components/dashboard/household-manager.tsx:86-88 | only the named list changes, as `WithoutChip` says |
| HouseholdForm.Form.ClickAllergy | src/components/dashboard/household-manager.tsx:186 | the allergies toggle; dislikes and goals are unchanged |
| AccountSettings.IndexOf | src/components/dashboard/account-settings.tsx:34 | the first position of the character, or the length when absent |
| AccountSettings.SplitAtSign | src/components/dashboard/account-settings.tsx:34 | the local part has no "@"; the domain is absent iff the address has no "@"; otherwise local, "@" and domain open the address |
| AccountSettings.SplitJoined | src/components/dashboard/account-settings.tsx:34 | only the second piece is the domain, whatever follows a further "@" |
| AccountSettings.Masked | src/components/dashboard/account-settings.tsx:37-41 | the first two characters, at least three stars, the last character when longer than three; exactly three stars after the prefix for a part shorter than four; never shorter than the input |
| AccountSettings.MaskHidesMiddle | src/components/dashboard/account-settings.tsx:37-41 | local parts of 4..6 characters agreeing at both ends mask alike |
| AccountSettings.RedactEmail | src/components/dashboard/account-settings.tsx:32-42 | no email gives "No email on file"; a missing local part or domain gives "Hidden"; otherwise the mask, "@" and the domain |
| AccountSettings.RedactAddress | src/components/dashboard/account-settings.tsx:37-41 | a well-formed address keeps its domain in full |
| AccountSettings.RedactMalformed | src/components/dashboard/account-settings.tsx:35 | no "@", an empty local part, or an empty domain shows "Hidden" |
| AccountSettings.VisibleInfo | src/components/dashboard/account-settings.tsx:120-127 | subscription details are held only for a PRO account with a customer id |
| AccountSettings.PeriodLabel | src/components/dashboard/account-settings.tsx:134 | a date label exists iff there is a period end |
| AccountSettings.LabelOr | src/components/dashboard/account-settings.tsx:139-140 | the label when truthy, else the fallback |
| AccountSettings.BillingStatusLabel | src/components/dashboard/account-settings.tsx:135-143 | loading first, then cancels/renews for an active PRO subscription, then "Stripe connected" with a customer, else no subscription |
| AccountSettings.FreeShowsNoDate | src/components/dashboard/account-settings.tsx:137-143 | a FREE account never shows a renewal or cancellation date |
| AccountSettings.CancelShowsCancelsOn | src/components/dashboard/account-settings.tsx:292-300 | after a successful cancellation the page keeps the cancel answer as its subscription details, so it shows "Cancels on"; a reload shows the same details |
| AccountSettings.SaveUnitsDisabled | src/components/dashboard/account-settings.tsx:130 | disabled unless the selection differs and no save is running |
| AccountSettings.LoadedSelection | src/components/dashboard/account-settings.tsx:87 | the stored system, or the timezone's guess |
| AccountSettings.NothingToSaveAfterLoad | src/components/dashboard/account-settings.tsx:86-87 | right after loading there is nothing to save |
| AccountSettings.NothingToSaveAfterSave | src/components/dashboard/account-settings.tsx:166-174 | after the route stores the selection there is nothing left to save |

## Left out

Omitted behaviour, with reasons:

- **Locale and Unicode.** `toLowerCase`, `trim` and `localeCompare` are modelled on ASCII: ASCII case folding, ASCII white space and code-unit lexicographic order. String lengths are counted in characters.
- **Environment overrides.** The quotas and the day and member caps take their default values; overrides of them are not modelled. `LLM_MAX_TOKENS` is read as `Llm.MaxTokenValue` says below.
- **Bodies that are not JSON.** `await req.json()` throws on a body that is not JSON, and the routes do not catch it, so Next.js answers 500. This happens at src/app/api/plans/generate/route.ts:62, src/app/api/members/route.ts:57, src/app/api/pantry/route.ts:63 and src/app/api/account/route.ts:73. The handlers here take the body already parsed, so that 500 is not modelled.
- **Inherited slot keys.** src/app/api/plans/generate/route.ts:26 tests `slotKey in rawMeals`, which also finds members inherited from `Object.prototype`. The model looks only at the reply's own keys (see `PlanGeneration.NormalizedValue` below).
- **Inherited category names.** src/lib/shopping-list.ts:44-45 groups entries in a plain `{}`. A category such as "constructor", "toString" or "__proto__" finds an inherited member there rather than an absent one, and the `push` throws a `TypeError`. The model's grouping treats every category as an ordinary key, so that failure is not modelled.
- **Foreign services.** These are parameters rather than models:
  - the OpenAI call, as `call`;
  - `JSON.parse`, as `parse`;
  - `Date.parse`, as `dateParses`;
  - Stripe's `constructEvent` (signature verification), as `construct`;
  - Stripe's `checkout.sessions.create`, as `create`;
  - Stripe's subscription calls, as the account's subscription list and the `stripeUp` flag;
  - the generation a plan request runs, as `Services.generate`.
- **Stripe list order.** Stripe's own list order is taken as the order of the account's list.
- **Validators outside the model.**
  - `accountUpdateSchema` is not part of this model; it is the `validate` parameter.
  - Validation of `[key: string]` records with duplicate keys is not modelled.
- **Ids and creation times.** Prisma's generated ids and creation times are parameters.
- **Ties in Prisma's `orderBy`.** Ties are broken by insertion order, as a stable sort.
- **Atomicity and races.**
  - Concurrency is not modelled. In particular, two simultaneous requests could both pass the quota check.
  - The transaction that completes a plan is one atomic step.
  - A failure of the store itself is not modelled.
- **Time.** The floating-point hours since the last reset are exact integer milliseconds.
- **Usage bar.** `usagePercent` on the account settings page is floating point and is not modelled.
- **Date formatting.** `formatBillingDate` and the ISO formatting of the period end are the `format` parameter. The payload keeps the period end in Unix seconds.
- **Newsletter toggle.** The newsletter toggle of the account settings page is not modelled. It only forwards the account update.
- **React and browser.** The React hooks are modelled as the methods the effects call. `router.push`, `router.refresh`, `confirm` and `fetch` are not modelled.
- **Member and pantry `[id]` routes.** The update and delete routes for a single member or pantry item are not modelled. They are plain Prisma updates and deletes.
- **JSON numbers.** Numbers are exact reals, and a parsed day count is exact.
- **Record order.** A JSON object's member order is its insertion order.
- **Webhook session fields.** The webhook reads `customer` only when it is a string. An expanded customer object counts as absent.

Members whose contracts are deliberately weaker or narrower than the source:

- PlanForm.Form.Generate: the tier-limit error message keeps only its last sentence. The text naming the tier and its limit is omitted.
- PlanForm.Form.Generate: ends when the request body is ready. The response handling and the navigation to the new plan are not modelled.
- PlanGeneration.GenerateSpec: plan creation, generation and completion are one step. A failure of the plan insert, or of the unit update before it, is not modelled.
- Llm.GenerateMealPlan: the prompt's fixed output-format text is a constant. Temperature and `response_format` are fixed fields of the request.
- Llm.MaxTokenValue: reads only a plain string of decimal digits as a number, and every other string as `NaN` (`None`). `Number()` also accepts surrounding white space, a sign, a fraction, an exponent ("1e3"), the "0x", "0o" and "0b" prefixes and "Infinity"; those overrides are read as `NaN` here.
- PlanGeneration.MeasuredUser: models the corrected route. A user with no stored system gets the guess from the request's timezone (`InitialMeasurement`); as written, src/app/api/plans/generate/route.ts:80 always stores metric (`InitialMeasurementAsWritten`; see Findings).
- PlanGeneration.Measured: stores the corrected guess, as `MeasuredUser` does, not the metric that the route as written always stores.
- PlanGeneration.GenerateSpec: the unit system it stores and passes to the prompt is the corrected guess, not the as-written metric.
- PlanGeneration.GenerateKeepsAccounts: the unit system a 400 stores is the corrected guess, not the as-written metric.
- PlanGeneration.Generate: the handler follows the corrected `GenerateSpec`, so it stores the corrected guess.
- PlanGeneration.NormalizedValue: an enabled slot whose key the reply lacks is null. In the source, a slot key such as "constructor" or "toString" is found on the prototype by `in`, and the inherited function is stored instead; a key "__proto__" sets the prototype of the normalised object rather than a member. Both are left out.
- Billing.Listed: takes the first 20 of the customer's subscriptions in list order, standing in for Stripe's ordering of `subscriptions.list`.

## Findings

| source | as written | input that shows it | evidently intended | confidence | as-written member | corrected member |
|---|---|---|---|---|---|---|
| src/app/api/plans/generate/route.ts:78-85 | The unit system is guessed from `parsed.data.timezone`. The request schema (src/lib/schemas.ts:30-40) declares no `timezone`, so zod drops it and the guess is always metric. | A first request from the new-plan page, which sends `timezone` (src/app/dashboard/plans/new/page.tsx:107), from "America/New_York", by a user with no stored system. | The timezone the client sends decides; New York gives imperial. The schemas.ts shown may be older or newer than the route, and a version of it that declares `timezone` would make the route correct. | not executed | PlanGeneration.TimezoneIsDropped | PlanGeneration.InitialMeasurement |
| src/components/dashboard/household-manager.tsx:294-300 | Add Member is disabled when `members.length >= maxMembers`. The household page (src/app/dashboard/household/page.tsx:31-35) passes no `maxMembers`, so the comparison with `undefined` is always false. | A free household with three members, the members route's cap (src/app/api/members/route.ts:6). | The button is disabled exactly when the members route would refuse with 403. The page and the component may come from different versions. | not executed | HouseholdForm.AddNeverDisabledAsWritten | HouseholdForm.AddDisabledIffCapReached |
