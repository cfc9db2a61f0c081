/** The member form of the household manager (src/components/dashboard/household-manager.tsx):
    the allergy, dislike and goal chips, the common-allergy toggles and the states of the
    Save and Add Member buttons. */
module HouseholdForm {
  import opened Common
  import opened Text
  import opened Store
  import Members
  import Schemas
  import Constraints

  /** The stored form of a chip: trimmed and lower-cased. */
  function Normalize(value: string): string {
    Lower(Trim(value))
  }

  /** The list after `addChip`: the normalized value is appended unless it is empty or
      already present. */
  function WithChip(list: seq<string>, value: string): (r: seq<string>)
    ensures Normalize(value) != "" && Normalize(value) !in list ==> r == list + [Normalize(value)]
    ensures Normalize(value) == "" || Normalize(value) in list ==> r == list
    ensures NoDuplicates(list) ==> NoDuplicates(r)
  {
    var t := Normalize(value);
    if t != "" && t !in list then list + [t] else list
  }

  /** The list after `removeChip`: every occurrence of the value goes, the rest keep their
      order. */
  function WithoutChip(list: seq<string>, value: string): (r: seq<string>)
    ensures |r| <= |list|
    ensures forall x :: multiset(r)[x] == if x == value then 0 else multiset(list)[x]
    ensures NoDuplicates(list) ==> NoDuplicates(r)
  {
    if list == [] then []
    else
      var init := list[..|list| - 1];
      var last := list[|list| - 1];
      assert list == init + [last];
      if last == value then WithoutChip(init, value) else WithoutChip(init, value) + [last]
  }

  /** Removing a value that is not there changes nothing. */
  lemma {:induction false} WithoutAbsent(list: seq<string>, value: string)
    requires value !in list
    ensures WithoutChip(list, value) == list
  {
    if list != [] {
      WithoutAbsent(list[..|list| - 1], value);
      assert list == list[..|list| - 1] + [list[|list| - 1]];
    }
  }

  /** Removal is a filter: it distributes over concatenation, so the kept values stay in
      their original order. */
  lemma {:induction false} WithoutChipAppend(a: seq<string>, b: seq<string>, value: string)
    ensures WithoutChip(a + b, value) == WithoutChip(a, value) + WithoutChip(b, value)
  {
    if b == [] {
      assert a + b == a;
    } else {
      var init := b[..|b| - 1];
      var last := b[|b| - 1];
      assert b == init + [last];
      assert a + b == (a + init) + [last];
      assert (a + b)[..|a + b| - 1] == a + init;
      WithoutChipAppend(a, init, value);
    }
  }

  /** Adding a new chip and removing it again restores the list. */
  lemma RemoveUndoesAdd(list: seq<string>, value: string)
    requires Normalize(value) != "" && Normalize(value) !in list
    ensures WithoutChip(WithChip(list, value), Normalize(value)) == list
  {
    var t := Normalize(value);
    assert (list + [t])[..|list|] == list;
    WithoutAbsent(list, t);
  }

  /** A value that is already in stored form: no white space, no upper-case letter. */
  predicate IsChipValue(a: string) {
    a != "" && IsLower(a) && forall i :: 0 <= i < |a| ==> !IsSpace(a[i])
  }

  lemma NormalizeStored(a: string)
    requires IsChipValue(a)
    ensures Normalize(a) == a
  {
    TrimNoSpace(a);
    LowerOfLower(a);
  }

  const CommonAllergies: seq<string> :=
    ["dairy", "gluten", "nuts", "peanuts", "shellfish", "soy", "eggs", "fish", "sesame", "wheat"]

  /** A click on a common allergy: removes it when present, adds it otherwise. */
  function ToggleAllergy(list: seq<string>, a: string): (r: seq<string>)
    ensures a in list ==> r == WithoutChip(list, a) && a !in r
    ensures a !in list ==> r == WithChip(list, a)
  {
    if a in list then
      var r := WithoutChip(list, a);
      assert multiset(r)[a] == 0;
      r
    else WithChip(list, a)
  }

  /** For a value in stored form a click flips whether the list holds it, and two clicks on
      a value the list lacked restore the list. */
  lemma ToggleAllergyFlips(list: seq<string>, a: string)
    requires IsChipValue(a)
    ensures a in ToggleAllergy(list, a) <==> a !in list
    ensures a !in list ==> ToggleAllergy(ToggleAllergy(list, a), a) == list
  {
    NormalizeStored(a);
    if a !in list {
      assert ToggleAllergy(list, a) == list + [a];
      RemoveUndoesAdd(list, a);
    } else {
      assert multiset(ToggleAllergy(list, a))[a] == 0;
    }
  }

  /** Save is disabled while saving and while the name is blank. */
  function SaveDisabled(loading: bool, name: string): (r: bool)
    ensures r <==> loading || forall i :: 0 <= i < |name| ==> IsSpace(name[i])
  {
    loading || Trim(name) == ""
  }

  /** Add Member is disabled once the household has `maxMembers` members. JavaScript
      compares a count with a missing (`undefined`) limit as false. */
  function AddMemberDisabled(count: nat, maxMembers: Option<int>): (r: bool)
    ensures maxMembers.None? ==> !r
    ensures maxMembers.Some? ==> (r <==> count >= maxMembers.value)
  {
    maxMembers.Some? && count >= maxMembers.value
  }

  /** The `maxMembers` the household page passes: none, as written. */
  const PageMaxMembersAsWritten: Option<int> := None

  /** As written, Add Member stays enabled however many members the household has, so a full
      household only learns of the cap from the members route's 403. */
  lemma AddNeverDisabledAsWritten(t: Tables, uid: string, body: Schemas.Json, memberId: string)
    requires uid in t.households
    requires |MembersOf(t.members, t.households[uid].id)| >= Members.MaxMembers(t.users, uid)
    ensures !AddMemberDisabled(|MembersOf(t.members, t.households[uid].id)|, PageMaxMembersAsWritten)
    ensures Members.AddSpec(t, Some(uid), body, memberId).status == 403
  {
  }

  /** The limit the page evidently means to pass: the cap the members route enforces. */
  function PageMaxMembers(users: map<string, User>, uid: string): (r: Option<int>)
    ensures r.Some? && r.value == Members.MaxMembers(users, uid)
  {
    Some(Members.MaxMembers(users, uid))
  }

  /** With that limit the button is disabled exactly when the route would refuse for the cap. */
  lemma AddDisabledIffCapReached(t: Tables, uid: string, body: Schemas.Json, memberId: string)
    requires uid in t.households
    ensures AddMemberDisabled(|MembersOf(t.members, t.households[uid].id)|, PageMaxMembers(t.users, uid))
      <==> Members.AddSpec(t, Some(uid), body, memberId).status == 403
  {
  }

  /** Which chip list an operation works on. */
  datatype ChipField = Allergies | Dislikes | Goals

  /** The form's state. */
  class Form {
    var name: string
    var ageGroup: string
    var diet: string
    var allergies: seq<string>
    var dislikes: seq<string>
    var goals: seq<string>
    var loading: bool

    /** The list a field names. */
    function Chips(field: ChipField): seq<string>
      reads this
    {
      match field
      case Allergies => allergies
      case Dislikes => dislikes
      case Goals => goals
    }

    /** The form `resetForm` leaves. */
    constructor ()
      ensures name == "" && ageGroup == "adult" && diet == "none"
      ensures allergies == [] && dislikes == [] && goals == [] && !loading
    {
      name := "";
      ageGroup := "adult";
      diet := "none";
      allergies := [];
      dislikes := [];
      goals := [];
      loading := false;
    }

    /** `resetForm`: back to the empty form. */
    method Reset()
      modifies this`name, this`ageGroup, this`diet, this`allergies, this`dislikes, this`goals
      ensures name == "" && ageGroup == "adult" && diet == "none"
      ensures allergies == [] && dislikes == [] && goals == []
    {
      name, ageGroup, diet := "", "adult", "none";
      allergies, dislikes, goals := [], [], [];
    }

    /** `startEdit`: the form takes a copy of a stored member's fields. */
    method StartEdit(m: Constraints.Member)
      modifies this`name, this`ageGroup, this`diet, this`allergies, this`dislikes, this`goals
      ensures name == m.name && ageGroup == m.ageGroup && diet == m.diet
      ensures allergies == m.allergies && dislikes == m.dislikes && goals == m.goals
    {
      name, ageGroup, diet := m.name, m.ageGroup, m.diet;
      allergies, dislikes, goals := m.allergies, m.dislikes, m.goals;
    }

    /** Whether Save is disabled in the current state. */
    method SaveButtonDisabled() returns (r: bool)
      ensures r <==> loading || forall i :: 0 <= i < |name| ==> IsSpace(name[i])
    {
      r := SaveDisabled(loading, name);
    }

    /** Replaces one chip list. */
    method SetChips(field: ChipField, list: seq<string>)
      modifies this`allergies, this`dislikes, this`goals
      ensures Chips(field) == list
      ensures forall f :: f != field ==> Chips(f) == old(Chips(f))
    {
      match field
      case Allergies => allergies := list;
      case Dislikes => dislikes := list;
      case Goals => goals := list;
    }

    /** `addChip`. */
    method AddChip(field: ChipField, value: string)
      modifies this`allergies, this`dislikes, this`goals
      ensures Chips(field) == WithChip(old(Chips(field)), value)
      ensures NoDuplicates(old(Chips(field))) ==> NoDuplicates(Chips(field))
      ensures forall f :: f != field ==> Chips(f) == old(Chips(f))
    {
      SetChips(field, WithChip(Chips(field), value));
    }

    /** `removeChip`. */
    method RemoveChip(field: ChipField, value: string)
      modifies this`allergies, this`dislikes, this`goals
      ensures Chips(field) == WithoutChip(old(Chips(field)), value)
      ensures forall f :: f != field ==> Chips(f) == old(Chips(f))
    {
      SetChips(field, WithoutChip(Chips(field), value));
    }

    /** A click on one of the common allergies. */
    method ClickAllergy(a: string)
      requires a in CommonAllergies
      modifies this`allergies, this`dislikes, this`goals
      ensures allergies == ToggleAllergy(old(allergies), a)
      ensures dislikes == old(dislikes) && goals == old(goals)
    {
      if a in allergies {
        RemoveChip(Allergies, a);
      } else {
        AddChip(Allergies, a);
      }
      assert Chips(Dislikes) == dislikes && Chips(Goals) == goals;
    }
  }
}
