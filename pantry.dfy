/** The pantry endpoint (src/app/api/pantry/route.ts), a PRO feature: listing the
    household's pantry items newest first, and adding one. */
module Pantry {
  import opened Common
  import opened Records
  import opened Schemas
  import opened Store
  import opened Sorting

  /** The typed body of a create request. */
  datatype PantryInput = PantryInput(name: string, category: string)

  predicate ValidPantryInput(p: PantryInput) {
    1 <= |p.name| <= 100 && |p.category| <= 50
  }

  function ItemName(j: Json): Result<string, Error> { Str(j, 1, 100) }
  function ItemCategory(j: Json): Result<string, Error> { Str(j, 0, 50) }

  /** `pantryCreateSchema`: a name of 1 to 100 characters and a category of at most 50,
      "other" when absent. Accepted iff both members validate; the item holds their values. */
  function ParsePantryCreate(j: Json): (r: Result<PantryInput, Error>)
    ensures r.Success? <==>
      j.JObj? && Get(j.members, "name").Some? && ItemName(Get(j.members, "name").value).Success?
      && AbsentOr(Get(j.members, "category"), ItemCategory)
    ensures r.Success? ==> ValidPantryInput(r.value)
    ensures r.Success? ==>
      && Get(j.members, "name") == Some(JStr(r.value.name))
      && OrDefault(Get(j.members, "category"), JStr(r.value.category), r.value.category == "other")
  {
    if !j.JObj? then Failure("expected object")
    else
      var name := Required(Get(j.members, "name"), ItemName);
      var category := Defaulted(Get(j.members, "category"), "other", ItemCategory);
      if name.Success? && category.Success? then Success(PantryInput(name.value, category.value))
      else Failure("invalid pantry item")
  }

  function EncodePantryInput(p: PantryInput): Json {
    JObj([("name", JStr(p.name)), ("category", JStr(p.category))])
  }

  /** Every input within the bounds is accepted unchanged. */
  lemma PantryRoundTrip(p: PantryInput)
    requires ValidPantryInput(p)
    ensures ParsePantryCreate(EncodePantryInput(p)) == Success(p)
  {
    var f := EncodePantryInput(p).members;
    GetFirst(f, "name", 0);
    GetFirst(f, "category", 1);
  }

  /** A body holding only a name is filed under "other". */
  lemma PantryDefaultCategory(name: string)
    requires 1 <= |name| <= 100
    ensures ParsePantryCreate(JObj([("name", JStr(name))])) == Success(PantryInput(name, "other"))
  {
    var f := [("name", JStr(name))];
    GetFirst(f, "name", 0);
    assert Get(f, "category") == None by {
      assert f[1..] == [];
    }
  }

  /** The caller may use the pantry: a user row on the PRO tier. */
  predicate IsPro(users: map<string, User>, uid: string) {
    uid in users && users[uid].tier == Pro
  }

  /** `orderBy: {createdAt: "desc"}`. */
  predicate Newer(a: PantryItem, b: PantryItem) {
    a.createdAt >= b.createdAt
  }

  /** `GET /api/pantry`. */
  function ListPantry(t: Tables, session: Option<string>): (r: Result<seq<PantryItem>, int>)
    ensures r.Failure? ==> r.error in {401, 403, 404}
    ensures r == Failure(401) <==> session.None?
    ensures r == Failure(403) <==> session.Some? && !IsPro(t.users, session.value)
    ensures r == Failure(404) <==> session.Some? && IsPro(t.users, session.value) && session.value !in t.households
    ensures r.Success? ==>
      && session.Some? && session.value in t.households
      && Sorted(r.value, Newer)
      && multiset(r.value) == multiset(PantryOf(t.pantry, t.households[session.value].id))
  {
    if session.None? then Failure(401)
    else if !IsPro(t.users, session.value) then Failure(403)
    else if session.value !in t.households then Failure(404)
    else Success(Sort(PantryOf(t.pantry, t.households[session.value].id), Newer))
  }

  /** Reads the caller's pantry and sorts it. */
  method GetPantry(db: Db, session: Option<string>) returns (r: Result<seq<PantryItem>, int>)
    ensures r == ListPantry(db.Snapshot(), session)
  {
    if session.None? {
      return Failure(401);
    }
    if !IsPro(db.users, session.value) {
      return Failure(403);
    }
    if session.value !in db.households {
      return Failure(404);
    }
    var sorted := SortBy(PantryOf(db.pantry, db.households[session.value].id), Newer);
    r := Success(sorted);
  }

  /** `POST /api/pantry`, with `itemId` the id the store assigns and `now` the creation time:
      session (401), tier (403), household (404) and body (400) are checked in that order. */
  function AddSpec(t: Tables, session: Option<string>, body: Json, itemId: string, now: int): (r: Outcome)
    ensures r.status in {401, 403, 404, 400, 201}
    ensures r.status != 201 ==> r.tables == t
    ensures r.status == 401 <==> session.None?
    ensures r.status == 403 <==> session.Some? && !IsPro(t.users, session.value)
    ensures r.status == 404 <==> session.Some? && IsPro(t.users, session.value) && session.value !in t.households
    ensures r.status == 400 <==>
      session.Some? && IsPro(t.users, session.value) && session.value in t.households
      && ParsePantryCreate(body).Failure?
    ensures r.status == 201 ==>
      && session.Some? && session.value in t.households && ParsePantryCreate(body).Success?
      && var hid := t.households[session.value].id;
         var input := ParsePantryCreate(body).value;
         var item := PantryItem(itemId, hid, input.name, input.category, now);
         && r.tables == t.(pantry := t.pantry + [item])
         && PantryOf(r.tables.pantry, hid) == PantryOf(t.pantry, hid) + [item]
         && forall other :: other != hid ==> PantryOf(r.tables.pantry, other) == PantryOf(t.pantry, other)
  {
    if session.None? then Outcome(401, t)
    else if !IsPro(t.users, session.value) then Outcome(403, t)
    else if session.value !in t.households then Outcome(404, t)
    else match ParsePantryCreate(body)
      case Failure(_) => Outcome(400, t)
      case Success(input) =>
        var hid := t.households[session.value].id;
        var item := PantryItem(itemId, hid, input.name, input.category, now);
        assert (t.pantry + [item])[..|t.pantry|] == t.pantry;
        Outcome(201, t.(pantry := t.pantry + [item]))
  }

  /** A free user is turned away before the household or the body is looked at. */
  lemma FreeUserTurnedAway(t: Tables, uid: string, body: Json, itemId: string, now: int)
    requires uid in t.users && t.users[uid].tier == Free
    ensures AddSpec(t, Some(uid), body, itemId, now) == Outcome(403, t)
    ensures ListPantry(t, Some(uid)) == Failure(403)
  {
  }

  /** An item added later than every item already in the household is listed first. */
  lemma NewItemListedFirst(t: Tables, session: Option<string>, body: Json, itemId: string, now: int)
    requires AddSpec(t, session, body, itemId, now).status == 201
    requires forall p :: p in t.pantry ==> p.createdAt < now
    ensures var t2 := AddSpec(t, session, body, itemId, now).tables;
      var input := ParsePantryCreate(body).value;
      var item := PantryItem(itemId, t.households[session.value].id, input.name, input.category, now);
      ListPantry(t2, session) == Success([item] + ListPantry(t, session).value)
  {
    var hid := t.households[session.value].id;
    var input := ParsePantryCreate(body).value;
    var item := PantryItem(itemId, hid, input.name, input.category, now);
    SortSnocLeast(PantryOf(t.pantry, hid), item, Newer);
  }

  /** `POST /api/pantry` on the store. */
  method AddItem(db: Db, session: Option<string>, body: Json, itemId: string, now: int) returns (status: int)
    requires db.Valid()
    modifies db`pantry
    ensures db.Valid()
    ensures status == AddSpec(old(db.Snapshot()), session, body, itemId, now).status
    ensures db.Snapshot() == AddSpec(old(db.Snapshot()), session, body, itemId, now).tables
  {
    if session.None? {
      return 401;
    }
    var uid := session.value;
    if !IsPro(db.users, uid) {
      return 403;
    }
    if uid !in db.households {
      return 404;
    }
    var parsed := ParsePantryCreate(body);
    if parsed.Failure? {
      return 400;
    }
    var input := parsed.value;
    db.pantry := db.pantry + [PantryItem(itemId, db.households[uid].id, input.name, input.category, now)];
    status := 201;
  }
}
