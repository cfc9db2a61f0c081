/** The household members endpoint (src/app/api/members/route.ts): listing the caller's
    members in `sortOrder`, and adding one under the tier's member cap. */
module Members {
  import opened Common
  import opened Constraints
  import opened Schemas
  import opened Store
  import opened Sorting

  // The member caps (the defaults of the route's environment-driven constants).
  const MembersMaxFree: nat := 3
  const MembersMaxPro: nat := 6

  /** The cap the route applies to the caller; a missing user row gets the free cap. */
  function MaxMembers(users: map<string, User>, uid: string): nat {
    if uid in users && users[uid].tier == Pro then MembersMaxPro else MembersMaxFree
  }

  /** `GET /api/members`: the caller's members in ascending `sortOrder`. */
  function ListMembers(t: Tables, session: Option<string>): (r: Result<seq<Member>, int>)
    ensures r.Failure? ==> r.error in {401, 404}
    ensures r == Failure(401) <==> session.None?
    ensures r == Failure(404) <==> session.Some? && session.value !in t.households
    ensures r.Success? ==>
      && session.Some? && session.value in t.households
      && Sorted(r.value, BySortOrder)
      && multiset(r.value) == multiset(MembersOf(t.members, t.households[session.value].id))
  {
    if session.None? then Failure(401)
    else if session.value !in t.households then Failure(404)
    else Success(Sort(MembersOf(t.members, t.households[session.value].id), BySortOrder))
  }

  /** Reads the members of the caller's household and sorts them. */
  method GetMembers(db: Db, session: Option<string>) returns (r: Result<seq<Member>, int>)
    ensures r == ListMembers(db.Snapshot(), session)
  {
    if session.None? {
      return Failure(401);
    }
    if session.value !in db.households {
      return Failure(404);
    }
    var sorted := SortBy(MembersOf(db.members, db.households[session.value].id), BySortOrder);
    r := Success(sorted);
  }

  /** The member row a create request stores. */
  function NewMember(id: string, input: MemberInput, sortOrder: int): Member {
    Member(id, input.name, input.ageGroup, input.diet, input.allergies, input.dislikes, input.goals, sortOrder)
  }

  /** `POST /api/members`, with `memberId` the id the store assigns: the session (401), the
      household (404), the cap (403) and the body (400) are checked in that order, and only
      then is the member appended with the household's current member count as its
      `sortOrder`. */
  function AddSpec(t: Tables, session: Option<string>, body: Json, memberId: string): (r: Outcome)
    ensures r.status in {401, 404, 403, 400, 201}
    ensures r.status != 201 ==> r.tables == t
    ensures r.status == 401 <==> session.None?
    ensures r.status == 404 <==> session.Some? && session.value !in t.households
    ensures r.status == 403 <==>
      && session.Some? && session.value in t.households
      && |MembersOf(t.members, t.households[session.value].id)| >= MaxMembers(t.users, session.value)
    ensures r.status == 400 <==>
      && session.Some? && session.value in t.households
      && |MembersOf(t.members, t.households[session.value].id)| < MaxMembers(t.users, session.value)
      && ParseMemberCreate(body).Failure?
    ensures r.status == 201 ==>
      && session.Some? && session.value in t.households && ParseMemberCreate(body).Success?
      && var hid := t.households[session.value].id;
         var before := MembersOf(t.members, hid);
         var m := NewMember(memberId, ParseMemberCreate(body).value, |before|);
         && r.tables == t.(members := t.members + [MemberRow(hid, m)])
         && MembersOf(r.tables.members, hid) == before + [m]
         && |MembersOf(r.tables.members, hid)| <= MaxMembers(t.users, session.value)
         && forall other :: other != hid ==> MembersOf(r.tables.members, other) == MembersOf(t.members, other)
  {
    if session.None? then Outcome(401, t)
    else if session.value !in t.households then Outcome(404, t)
    else
      var hid := t.households[session.value].id;
      var before := MembersOf(t.members, hid);
      if |before| >= MaxMembers(t.users, session.value) then Outcome(403, t)
      else match ParseMemberCreate(body)
        case Failure(_) => Outcome(400, t)
        case Success(input) =>
          var row := MemberRow(hid, NewMember(memberId, input, |before|));
          MembersOfSnoc(t.members, row, hid);
          forall other | other != hid
            ensures MembersOf(t.members + [row], other) == MembersOf(t.members, other)
          {
            MembersOfSnoc(t.members, row, other);
          }
          Outcome(201, t.(members := t.members + [row]))
  }

  /** Each member's `sortOrder` is its position in the household. */
  predicate DenseOrder(ms: seq<Member>) {
    forall i :: 0 <= i < |ms| ==> ms[i].sortOrder == i
  }

  /** Adding keeps the positions dense in a household that only ever grows by this route. */
  lemma AddKeepsDenseOrder(t: Tables, session: Option<string>, body: Json, memberId: string)
    requires session.Some? && session.value in t.households
    requires DenseOrder(MembersOf(t.members, t.households[session.value].id))
    ensures DenseOrder(MembersOf(AddSpec(t, session, body, memberId).tables.members, t.households[session.value].id))
  {
  }

  /** When every member's `sortOrder` is below the member count (as it is with dense
      positions), a member added by `POST` is listed by `GET` after all the others. */
  lemma AddedMemberListedLast(t: Tables, session: Option<string>, body: Json, memberId: string)
    requires session.Some? && session.value in t.households
    requires var ms := MembersOf(t.members, t.households[session.value].id);
      forall m :: m in ms ==> m.sortOrder < |ms|
    requires AddSpec(t, session, body, memberId).status == 201
    ensures var t2 := AddSpec(t, session, body, memberId).tables;
      var hid := t.households[session.value].id;
      var m := NewMember(memberId, ParseMemberCreate(body).value, |MembersOf(t.members, hid)|);
      ListMembers(t2, session) == Success(ListMembers(t, session).value + [m])
  {
    var hid := t.households[session.value].id;
    var ms := MembersOf(t.members, hid);
    var m := NewMember(memberId, ParseMemberCreate(body).value, |ms|);
    SortSnocGreatest(ms, m, BySortOrder);
  }

  /** A household at its cap takes no new member, whatever the body. */
  lemma FullHouseholdRejects(t: Tables, session: Option<string>, body: Json, memberId: string)
    requires session.Some? && session.value in t.households
    requires |MembersOf(t.members, t.households[session.value].id)| >= MaxMembers(t.users, session.value)
    ensures AddSpec(t, session, body, memberId) == Outcome(403, t)
  {
  }

  /** Repeated adds never take a household past its cap. */
  lemma {:induction false} AddsStayUnderCap(t: Tables, uid: string, bodies: seq<Json>, ids: seq<string>)
    requires uid in t.households && |ids| == |bodies|
    requires |MembersOf(t.members, t.households[uid].id)| <= MaxMembers(t.users, uid)
    ensures var t2 := AddMany(t, uid, bodies, ids);
      uid in t2.households && t2.households[uid] == t.households[uid] && t2.users == t.users
      && |MembersOf(t2.members, t.households[uid].id)| <= MaxMembers(t.users, uid)
    decreases |bodies|
  {
    if bodies != [] {
      AddsStayUnderCap(t, uid, bodies[..|bodies| - 1], ids[..|ids| - 1]);
    }
  }

  /** The tables after a sequence of `POST` requests by one caller. */
  function AddMany(t: Tables, uid: string, bodies: seq<Json>, ids: seq<string>): Tables
    requires |ids| == |bodies|
    decreases |bodies|
  {
    if bodies == [] then t
    else AddSpec(AddMany(t, uid, bodies[..|bodies| - 1], ids[..|ids| - 1]), Some(uid),
                 bodies[|bodies| - 1], ids[|ids| - 1]).tables
  }

  /** `POST /api/members` on the store. */
  method AddMember(db: Db, session: Option<string>, body: Json, memberId: string) returns (status: int)
    requires db.Valid()
    modifies db`members
    ensures db.Valid()
    ensures status == AddSpec(old(db.Snapshot()), session, body, memberId).status
    ensures db.Snapshot() == AddSpec(old(db.Snapshot()), session, body, memberId).tables
  {
    if session.None? {
      return 401;
    }
    var uid := session.value;
    if uid !in db.households {
      return 404;
    }
    var household := db.households[uid];
    var count := |MembersOf(db.members, household.id)|;
    if count >= MaxMembers(db.users, uid) {
      return 403;
    }
    var parsed := ParseMemberCreate(body);
    if parsed.Failure? {
      return 400;
    }
    db.members := db.members + [MemberRow(household.id, NewMember(memberId, parsed.value, count))];
    status := 201;
  }
}
