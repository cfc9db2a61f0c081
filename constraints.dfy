/** Household constraint resolution (src/lib/constraints.ts): the household's
    base diet, its hard allergen excludes and the members who need a personal
    fork of each meal. */
module Constraints {
  import opened Common
  import opened Text

  /** A household member row. `diet` is the stored diet name. */
  datatype Member = Member(
    id: string,
    name: string,
    ageGroup: string,
    diet: string,
    allergies: seq<string>,
    dislikes: seq<string>,
    goals: seq<string>,
    sortOrder: int)

  /** What the generator is told about one member who deviates from the base meal. */
  datatype ForkSpec = ForkSpec(
    memberId: string,
    memberName: string,
    reason: string,
    diet: string,
    allergies: seq<string>,
    goals: seq<string>)

  datatype ConstraintResult = ConstraintResult(
    hardExcludes: seq<string>,
    baseDiet: string,
    forkSpecs: seq<ForkSpec>,
    householdSize: nat)

  const KnownDiets: set<string> :=
    {"none", "pescatarian", "halal", "kosher", "keto", "paleo", "vegetarian", "vegan"}

  /** The fixed restrictiveness ranking; a diet missing from the table ranks 0. */
  function Rank(diet: string): (r: nat)
    ensures r <= 5
    ensures diet !in KnownDiets ==> r == 0
    ensures r == 5 <==> diet == "vegan"
  {
    if diet == "pescatarian" then 1
    else if diet == "halal" || diet == "kosher" then 2
    else if diet == "keto" || diet == "paleo" then 3
    else if diet == "vegetarian" then 4
    else if diet == "vegan" then 5
    else 0
  }

  // ---------------------------------------------------------------------------
  // Hard excludes: the case-folded union of all allergies, in first-seen order.

  /** `Set.add`: appends `x` unless it is already present. */
  function AddNew(acc: seq<string>, x: string): seq<string> {
    if x in acc then acc else acc + [x]
  }

  /** Adds every element of `xs` in order. */
  function AddAll(acc: seq<string>, xs: seq<string>): seq<string> {
    if xs == [] then acc else AddNew(AddAll(acc, xs[..|xs| - 1]), xs[|xs| - 1])
  }

  function LowerAll(xs: seq<string>): (r: seq<string>)
    ensures |r| == |xs|
    ensures forall i :: 0 <= i < |xs| ==> r[i] == Lower(xs[i])
  {
    if xs == [] then [] else LowerAll(xs[..|xs| - 1]) + [Lower(xs[|xs| - 1])]
  }

  /** Every member's allergies, lower-cased, member by member. */
  function AllergyTokens(ms: seq<Member>): seq<string> {
    if ms == [] then [] else AllergyTokens(ms[..|ms| - 1]) + LowerAll(ms[|ms| - 1].allergies)
  }

  function HardExcludes(ms: seq<Member>): seq<string> {
    AddAll([], AllergyTokens(ms))
  }

  lemma {:induction false} AddAllFacts(acc: seq<string>, xs: seq<string>)
    requires NoDuplicates(acc)
    ensures NoDuplicates(AddAll(acc, xs))
    ensures forall x :: x in AddAll(acc, xs) <==> x in acc || x in xs
  {
    if xs != [] {
      var init := xs[..|xs| - 1];
      AddAllFacts(acc, init);
      assert xs == init + [xs[|xs| - 1]];
    }
  }

  lemma {:induction false} AllergyTokensMembership(ms: seq<Member>)
    ensures forall x :: x in AllergyTokens(ms) <==>
      exists i, j :: 0 <= i < |ms| && 0 <= j < |ms[i].allergies| && x == Lower(ms[i].allergies[j])
  {
    if ms != [] {
      var init := ms[..|ms| - 1];
      AllergyTokensMembership(init);
      var last := ms[|ms| - 1];
      forall x ensures x in AllergyTokens(ms) <==>
        exists i, j :: 0 <= i < |ms| && 0 <= j < |ms[i].allergies| && x == Lower(ms[i].allergies[j])
      {
        if x in AllergyTokens(ms) {
          if x in AllergyTokens(init) {
            var i, j :| 0 <= i < |init| && 0 <= j < |init[i].allergies| && x == Lower(init[i].allergies[j]);
            assert ms[i] == init[i];
          } else {
            var j :| 0 <= j < |LowerAll(last.allergies)| && LowerAll(last.allergies)[j] == x;
            assert x == Lower(ms[|ms| - 1].allergies[j]);
          }
        }
        if exists i, j :: 0 <= i < |ms| && 0 <= j < |ms[i].allergies| && x == Lower(ms[i].allergies[j]) {
          var i, j :| 0 <= i < |ms| && 0 <= j < |ms[i].allergies| && x == Lower(ms[i].allergies[j]);
          if i < |init| {
            assert init[i] == ms[i];
            assert x in AllergyTokens(init);
          } else {
            assert LowerAll(last.allergies)[j] == x;
          }
        }
      }
    }
  }

  /** `hardExcludes` holds each member allergy once, lower-cased, and nothing else. */
  lemma HardExcludesAreAllergyUnion(ms: seq<Member>)
    ensures NoDuplicates(HardExcludes(ms))
    ensures forall x :: x in HardExcludes(ms) <==>
      exists i, j :: 0 <= i < |ms| && 0 <= j < |ms[i].allergies| && x == Lower(ms[i].allergies[j])
    ensures forall x :: x in HardExcludes(ms) ==> IsLower(x)
  {
    AddAllFacts([], AllergyTokens(ms));
    AllergyTokensMembership(ms);
    forall x | x in HardExcludes(ms) ensures IsLower(x) {
      var i, j :| 0 <= i < |ms| && 0 <= j < |ms[i].allergies| && x == Lower(ms[i].allergies[j]);
      LowerIsLower(ms[i].allergies[j]);
    }
  }

  // ---------------------------------------------------------------------------
  // Base diet: a running maximum that moves only on a strictly higher rank.

  datatype Scan = Scan(maxRank: nat, diet: string)

  function ScanDiets(ms: seq<Member>): Scan {
    if ms == [] then Scan(0, "none")
    else
      var prev := ScanDiets(ms[..|ms| - 1]);
      var level := Rank(ms[|ms| - 1].diet);
      if level > prev.maxRank then Scan(level, ms[|ms| - 1].diet) else prev
  }

  function BaseDiet(ms: seq<Member>): string {
    ScanDiets(ms).diet
  }

  lemma {:induction false} ScanDietsFacts(ms: seq<Member>)
    ensures Rank(ScanDiets(ms).diet) == ScanDiets(ms).maxRank
    ensures forall i :: 0 <= i < |ms| ==> Rank(ms[i].diet) <= ScanDiets(ms).maxRank
    ensures ScanDiets(ms).maxRank == 0 ==> ScanDiets(ms).diet == "none"
    ensures ScanDiets(ms).maxRank > 0 ==>
      exists k :: 0 <= k < |ms| && ms[k].diet == ScanDiets(ms).diet &&
        forall j :: 0 <= j < k ==> Rank(ms[j].diet) < ScanDiets(ms).maxRank
  {
    if ms != [] {
      var init := ms[..|ms| - 1];
      ScanDietsFacts(init);
      assert forall i :: 0 <= i < |init| ==> init[i] == ms[i];
      var s := ScanDiets(ms);
      if s.maxRank > 0 {
        if Rank(ms[|ms| - 1].diet) > ScanDiets(init).maxRank {
          assert ms[|ms| - 1].diet == s.diet;
        } else {
          var k :| 0 <= k < |init| && init[k].diet == s.diet &&
            forall j :: 0 <= j < k ==> Rank(init[j].diet) < s.maxRank;
          assert ms[k].diet == s.diet;
        }
      }
    }
  }

  /** No member's diet is more restrictive than the base diet. */
  lemma BaseDietIsMostRestrictive(ms: seq<Member>)
    ensures forall i :: 0 <= i < |ms| ==> Rank(ms[i].diet) <= Rank(BaseDiet(ms))
  {
    ScanDietsFacts(ms);
  }

  /** The base diet is the diet of the earliest member whose rank is the maximum. */
  lemma BaseDietIsEarliestMaximum(ms: seq<Member>)
    requires exists i :: 0 <= i < |ms| && Rank(ms[i].diet) > 0
    ensures exists k :: (0 <= k < |ms| && ms[k].diet == BaseDiet(ms) &&
                         (forall j :: 0 <= j < |ms| ==> Rank(ms[j].diet) <= Rank(ms[k].diet)) &&
                         (forall j :: 0 <= j < k ==> Rank(ms[j].diet) < Rank(ms[k].diet)))
  {
    ScanDietsFacts(ms);
  }

  /** The base diet is "none" exactly when no member has a ranked diet (in particular for no members). */
  lemma BaseDietNone(ms: seq<Member>)
    ensures BaseDiet(ms) == "none" <==> forall i :: 0 <= i < |ms| ==> Rank(ms[i].diet) == 0
  {
    ScanDietsFacts(ms);
  }

  // ---------------------------------------------------------------------------
  // Fork specifications.

  predicate NeedsFork(m: Member, baseDiet: string) {
    m.diet != baseDiet || |m.allergies| > 0 || |m.goals| > 0
  }

  /** The reason parts that apply, in the order diet, allergies, goals; empty strings are
      dropped as `filter(Boolean)` drops them. */
  function ReasonParts(m: Member, baseDiet: string): (r: seq<string>)
    ensures forall i :: 0 <= i < |r| ==> r[i] != ""
  {
    (if m.diet != baseDiet && m.diet != "" then [m.diet] else [])
    + (if |m.allergies| > 0 then ["allergies: " + Join(m.allergies, ", ")] else [])
    + (if |m.goals| > 0 then ["goals: " + Join(m.goals, ", ")] else [])
  }

  function Reason(m: Member, baseDiet: string): string {
    Join(ReasonParts(m, baseDiet), "; ")
  }

  /** The reason is empty only when no part applies. */
  lemma ReasonEmpty(m: Member, baseDiet: string)
    ensures Reason(m, baseDiet) == "" <==>
      !((m.diet != baseDiet && m.diet != "") || |m.allergies| > 0 || |m.goals| > 0)
  {
    JoinEmpty(ReasonParts(m, baseDiet), "; ");
  }

  /** A differing diet opens the reason; otherwise allergies come first when present. */
  lemma ReasonOrder(m: Member, baseDiet: string)
    ensures m.diet != baseDiet && m.diet != "" ==> StartsWith(Reason(m, baseDiet), m.diet)
    ensures (m.diet == baseDiet || m.diet == "") && |m.allergies| > 0 ==>
      StartsWith(Reason(m, baseDiet), "allergies: " + Join(m.allergies, ", "))
  {
    var parts := ReasonParts(m, baseDiet);
    if parts != [] {
      JoinStartsWithFirst(parts, "; ");
    }
  }

  function SpecOf(m: Member, baseDiet: string): ForkSpec {
    ForkSpec(m.id, m.name, Reason(m, baseDiet), m.diet, m.allergies, m.goals)
  }

  function ForkSpecs(ms: seq<Member>, baseDiet: string): seq<ForkSpec> {
    if ms == [] then []
    else
      var m := ms[|ms| - 1];
      ForkSpecs(ms[..|ms| - 1], baseDiet) + (if NeedsFork(m, baseDiet) then [SpecOf(m, baseDiet)] else [])
  }

  /** The positions of the members that need a fork, in increasing order. */
  function ForkIndices(ms: seq<Member>, baseDiet: string): seq<nat> {
    if ms == [] then []
    else
      ForkIndices(ms[..|ms| - 1], baseDiet) + (if NeedsFork(ms[|ms| - 1], baseDiet) then [|ms| - 1] else [])
  }

  /** `forkSpecs` is exactly the members that need a fork, each once, in member order,
      each carrying that member's own data. */
  lemma {:induction false} ForkSpecsFilterMembers(ms: seq<Member>, baseDiet: string)
    ensures var idx := ForkIndices(ms, baseDiet);
      && |idx| == |ForkSpecs(ms, baseDiet)|
      && (forall k :: 0 <= k < |idx| ==> idx[k] < |ms| && ForkSpecs(ms, baseDiet)[k] == SpecOf(ms[idx[k]], baseDiet))
      && (forall k, l :: 0 <= k < l < |idx| ==> idx[k] < idx[l])
      && (forall i :: 0 <= i < |ms| ==> (i in idx <==> NeedsFork(ms[i], baseDiet)))
  {
    if ms != [] {
      var n := |ms| - 1;
      var init := ms[..n];
      ForkSpecsFilterMembers(init, baseDiet);
      assert forall i :: 0 <= i < n ==> init[i] == ms[i];
      if NeedsFork(ms[n], baseDiet) {
        assert ForkIndices(ms, baseDiet) == ForkIndices(init, baseDiet) + [n];
        assert ForkSpecs(ms, baseDiet) == ForkSpecs(init, baseDiet) + [SpecOf(ms[n], baseDiet)];
      } else {
        assert ForkIndices(ms, baseDiet) == ForkIndices(init, baseDiet);
        assert ForkSpecs(ms, baseDiet) == ForkSpecs(init, baseDiet);
      }
    }
  }

  // ---------------------------------------------------------------------------
  // The whole result.

  function Constraints(ms: seq<Member>): ConstraintResult {
    ConstraintResult(HardExcludes(ms), BaseDiet(ms), ForkSpecs(ms, BaseDiet(ms)), |ms|)
  }

  /** `buildConstraints`: three passes over the members, as in the source. */
  method BuildConstraints(members: seq<Member>) returns (r: ConstraintResult)
    ensures r == Constraints(members)
  {
    var allAllergies := CollectAllergies(members);
    var baseDiet := ChooseBaseDiet(members);
    var forkSpecs := CollectForks(members, baseDiet);
    r := ConstraintResult(allAllergies, baseDiet, forkSpecs, |members|);
  }

  /** Adding two runs of tokens is adding their concatenation. */
  lemma {:induction false} AddAllAppend(acc: seq<string>, xs: seq<string>, ys: seq<string>)
    ensures AddAll(acc, xs + ys) == AddAll(AddAll(acc, xs), ys)
  {
    if ys == [] {
      assert xs + ys == xs;
    } else {
      var init := ys[..|ys| - 1];
      AddAllAppend(acc, xs, init);
      assert (xs + ys)[..|xs + ys| - 1] == xs + init;
    }
  }

  /** The first pass: every member's allergies, lower-cased, each once. */
  method CollectAllergies(members: seq<Member>) returns (allAllergies: seq<string>)
    ensures allAllergies == HardExcludes(members)
  {
    allAllergies := [];
    for i := 0 to |members|
      invariant allAllergies == AddAll([], AllergyTokens(members[..i]))
    {
      assert members[..i + 1][..i] == members[..i];
      AddAllAppend([], AllergyTokens(members[..i]), LowerAll(members[i].allergies));
      allAllergies := AddAllergies(allAllergies, members[i].allergies);
    }
    assert members[..|members|] == members;
  }

  /** The inner loop of the first pass: one member's allergies. */
  method AddAllergies(acc: seq<string>, allergies: seq<string>) returns (r: seq<string>)
    ensures r == AddAll(acc, LowerAll(allergies))
  {
    r := acc;
    for j := 0 to |allergies|
      invariant r == AddAll(acc, LowerAll(allergies[..j]))
    {
      assert allergies[..j + 1][..j] == allergies[..j];
      ghost var next := LowerAll(allergies[..j + 1]);
      assert next[..|next| - 1] == LowerAll(allergies[..j]);
      r := AddNew(r, Lower(allergies[j]));
    }
    assert allergies[..|allergies|] == allergies;
  }

  /** The second pass: the most restrictive diet, the first one on ties. */
  method ChooseBaseDiet(members: seq<Member>) returns (baseDiet: string)
    ensures baseDiet == BaseDiet(members)
  {
    baseDiet := "none";
    var maxRestriction := 0;
    for i := 0 to |members|
      invariant ScanDiets(members[..i]) == Scan(maxRestriction, baseDiet)
    {
      assert members[..i + 1][..i] == members[..i];
      var level := Rank(members[i].diet);
      if level > maxRestriction {
        maxRestriction := level;
        baseDiet := members[i].diet;
      }
    }
    assert members[..|members|] == members;
  }

  /** The third pass: a fork for every member who differs from the base diet. */
  method CollectForks(members: seq<Member>, baseDiet: string) returns (forkSpecs: seq<ForkSpec>)
    ensures forkSpecs == ForkSpecs(members, baseDiet)
  {
    forkSpecs := [];
    for i := 0 to |members|
      invariant forkSpecs == ForkSpecs(members[..i], baseDiet)
    {
      assert members[..i + 1][..i] == members[..i];
      var m := members[i];
      var needsFork := m.diet != baseDiet || |m.allergies| > 0 || |m.goals| > 0;
      if needsFork {
        forkSpecs := forkSpecs + [ForkSpec(m.id, m.name, Reason(m, baseDiet), m.diet, m.allergies, m.goals)];
      }
    }
    assert members[..|members|] == members;
  }

  // ---------------------------------------------------------------------------
  // Dislikes never matter.

  predicate SameButDislikes(a: Member, b: Member) {
    a.(dislikes := b.dislikes) == b
  }

  /** Changing only members' dislikes changes nothing in the result. */
  lemma {:induction false} DislikesNeverMatter(ms: seq<Member>, ms': seq<Member>)
    requires |ms| == |ms'|
    requires forall i :: 0 <= i < |ms| ==> SameButDislikes(ms[i], ms'[i])
    ensures Constraints(ms) == Constraints(ms')
  {
    DislikesScan(ms, ms');
    DislikesTokens(ms, ms');
    DislikesForks(ms, ms', BaseDiet(ms));
  }

  lemma {:induction false} DislikesScan(ms: seq<Member>, ms': seq<Member>)
    requires |ms| == |ms'|
    requires forall i :: 0 <= i < |ms| ==> SameButDislikes(ms[i], ms'[i])
    ensures ScanDiets(ms) == ScanDiets(ms')
  {
    if ms != [] {
      DislikesScan(ms[..|ms| - 1], ms'[..|ms| - 1]);
      assert ms[|ms| - 1].diet == ms'[|ms| - 1].diet;
    }
  }

  lemma {:induction false} DislikesTokens(ms: seq<Member>, ms': seq<Member>)
    requires |ms| == |ms'|
    requires forall i :: 0 <= i < |ms| ==> SameButDislikes(ms[i], ms'[i])
    ensures AllergyTokens(ms) == AllergyTokens(ms')
  {
    if ms != [] {
      DislikesTokens(ms[..|ms| - 1], ms'[..|ms| - 1]);
      assert ms[|ms| - 1].allergies == ms'[|ms| - 1].allergies;
    }
  }

  lemma {:induction false} DislikesForks(ms: seq<Member>, ms': seq<Member>, baseDiet: string)
    requires |ms| == |ms'|
    requires forall i :: 0 <= i < |ms| ==> SameButDislikes(ms[i], ms'[i])
    ensures ForkSpecs(ms, baseDiet) == ForkSpecs(ms', baseDiet)
  {
    if ms != [] {
      DislikesForks(ms[..|ms| - 1], ms'[..|ms| - 1], baseDiet);
      var m, m' := ms[|ms| - 1], ms'[|ms| - 1];
      assert m.diet == m'.diet && m.allergies == m'.allergies && m.goals == m'.goals;
      assert m.id == m'.id && m.name == m'.name;
      assert ReasonParts(m, baseDiet) == ReasonParts(m', baseDiet);
    }
  }
}
