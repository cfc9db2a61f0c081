/** The database the route handlers read and write: the user, household, member, pantry
    item, plan and plan day tables. Rows are values; the tables are fields of one `Db`
    object that the handlers update in place. */
module Store {
  import opened Common
  import opened Measurement
  import opened Constraints
  import opened Schemas

  /** A user row. Times are milliseconds since the epoch. */
  datatype User = User(
    id: string,
    email: Option<string>,
    tier: Tier,
    stripeCustomerId: Option<string>,
    generationsToday: nat,
    generationsResetAt: int,
    measurementSystem: Option<MeasurementSystem>,
    newsletterSubscribed: bool,
    createdAt: int)

  /** A household row; each user owns at most one, so the table is keyed by the owner. */
  datatype Household = Household(id: string, name: string)

  /** A member row: the member and the household it belongs to. */
  datatype MemberRow = MemberRow(householdId: string, member: Member)

  datatype PantryItem = PantryItem(id: string, householdId: string, name: string, category: string, createdAt: int)

  datatype PlanStatus = Generating | Ready | Failed

  datatype Plan = Plan(
    id: string,
    householdId: string,
    startDate: string,
    numDays: nat,
    mealsEnabled: seq<SlotEntry>,
    useItUpMode: bool,
    status: PlanStatus)

  /** A plan day row: the meals record keyed by slot, `None` standing for `null`. */
  datatype PlanDay = PlanDay(planId: string, dayIndex: real, meals: seq<(string, Option<Meal>)>)

  /** The contents of every table at one moment. */
  datatype Tables = Tables(
    users: map<string, User>,
    households: map<string, Household>,
    members: seq<MemberRow>,
    pantry: seq<PantryItem>,
    plans: seq<Plan>,
    planDays: seq<PlanDay>)

  /** The response status of a request and the tables afterwards. */
  datatype Outcome = Outcome(status: int, tables: Tables)

  /** Every user row is filed under its own id. */
  ghost predicate UsersById(users: map<string, User>) {
    forall id :: id in users ==> users[id].id == id
  }

  class Db {
    /** Users by id. */
    var users: map<string, User>
    /** Households by the id of the owning user. */
    var households: map<string, Household>
    var members: seq<MemberRow>
    var pantry: seq<PantryItem>
    var plans: seq<Plan>
    var planDays: seq<PlanDay>

    ghost predicate Valid()
      reads this
    {
      UsersById(users)
    }

    /** The contents of the tables. */
    function Snapshot(): Tables
      reads this
    {
      Tables(users, households, members, pantry, plans, planDays)
    }

    constructor ()
      ensures Valid()
      ensures Snapshot() == Tables(map[], map[], [], [], [], [])
    {
      users := map[];
      households := map[];
      members := [];
      pantry := [];
      plans := [];
      planDays := [];
    }
  }

  /** The members of one household, in table order. */
  function MembersOf(rows: seq<MemberRow>, householdId: string): (r: seq<Member>)
    ensures |r| <= |rows|
    ensures forall m :: m in r <==> MemberRow(householdId, m) in rows
  {
    if rows == [] then []
    else
      var init := MembersOf(rows[..|rows| - 1], householdId);
      var last := rows[|rows| - 1];
      assert rows == rows[..|rows| - 1] + [last];
      if last.householdId == householdId then init + [last.member] else init
  }

  /** Appending a row of another household leaves this household's members alone; appending
      one of this household adds its member at the end. */
  lemma MembersOfSnoc(rows: seq<MemberRow>, row: MemberRow, householdId: string)
    ensures MembersOf(rows + [row], householdId)
      == MembersOf(rows, householdId) + (if row.householdId == householdId then [row.member] else [])
  {
    assert (rows + [row])[..|rows|] == rows;
  }

  /** Members are listed in ascending `sortOrder`. */
  predicate BySortOrder(a: Member, b: Member) {
    a.sortOrder <= b.sortOrder
  }

  /** The pantry items of one household, in table order. */
  function PantryOf(rows: seq<PantryItem>, householdId: string): (r: seq<PantryItem>)
    ensures |r| <= |rows|
    ensures forall p :: p in r <==> p in rows && p.householdId == householdId
  {
    if rows == [] then []
    else
      var init := PantryOf(rows[..|rows| - 1], householdId);
      var last := rows[|rows| - 1];
      assert rows == rows[..|rows| - 1] + [last];
      if last.householdId == householdId then init + [last] else init
  }
}
