/** Shopping list aggregation (src/lib/shopping-list.ts): the shopping items of
    every meal of a plan are merged by case-folded name, grouped by category and
    sorted by name within each category. */
module ShoppingList {
  import opened Common
  import opened Text
  import opened Sorting
  import opened Schemas

  /** One line of the shopping list: every quantity asked for under one name. */
  datatype AggregatedItem = AggregatedItem(name: string, quantities: seq<string>, category: string)

  /** A stored plan day: its slot values in the record's order (`None` is `null`). */
  datatype PlanDay = PlanDay(meals: seq<(string, Option<Meal>)>)

  datatype Aggregation = Aggregation(grouped: map<string, seq<AggregatedItem>>, totalItems: nat)

  // ---------------------------------------------------------------------------
  // The item occurrences, in the order the loops visit them.

  /** A `null` slot contributes nothing. */
  function SlotItems(meal: Option<Meal>): seq<ShoppingItem> {
    if meal.None? then [] else meal.value.shoppingItems
  }

  function MealItems(meals: seq<(string, Option<Meal>)>): seq<ShoppingItem> {
    if meals == [] then [] else MealItems(meals[..|meals| - 1]) + SlotItems(meals[|meals| - 1].1)
  }

  function Occurrences(days: seq<PlanDay>): seq<ShoppingItem> {
    if days == [] then [] else Occurrences(days[..|days| - 1]) + MealItems(days[|days| - 1].meals)
  }

  // ---------------------------------------------------------------------------
  // The item map: insertion order of its keys and the entry under each key.

  datatype Table = Table(order: seq<string>, entries: map<string, AggregatedItem>)

  /** One step of the item loop: a known name gets one more quantity, a new name a new entry. */
  function Add(t: Table, item: ShoppingItem): Table {
    var key := Lower(item.name);
    if key in t.entries then
      Table(t.order, t.entries[key := t.entries[key].(quantities := t.entries[key].quantities + [item.qty])])
    else
      Table(t.order + [key], t.entries[key := AggregatedItem(item.name, [item.qty], item.category)])
  }

  function Collect(items: seq<ShoppingItem>): Table
  {
    if items == [] then Table([], map[]) else Add(Collect(items[..|items| - 1]), items[|items| - 1])
  }

  lemma CollectSnoc(items: seq<ShoppingItem>, item: ShoppingItem)
    ensures Collect(items + [item]) == Add(Collect(items), item)
  {
    assert (items + [item])[..|items|] == items;
  }

  /** The case-folded names that occur. */
  function Keys(items: seq<ShoppingItem>): set<string> {
    set i | 0 <= i < |items| :: Lower(items[i].name)
  }

  /** The quantities of every occurrence of `key`, in order. */
  function QuantitiesOf(items: seq<ShoppingItem>, key: string): seq<string> {
    if items == [] then []
    else
      var last := items[|items| - 1];
      QuantitiesOf(items[..|items| - 1], key) + (if Lower(last.name) == key then [last.qty] else [])
  }

  /** `i` is the first occurrence of `key`. */
  predicate FirstWithKey(items: seq<ShoppingItem>, key: string, i: int) {
    0 <= i < |items| && Lower(items[i].name) == key &&
    forall j :: 0 <= j < i ==> Lower(items[j].name) != key
  }

  lemma {:induction false} QuantitiesOfAbsent(items: seq<ShoppingItem>, key: string)
    requires key !in Keys(items)
    ensures QuantitiesOf(items, key) == []
  {
    if items != [] {
      var init := items[..|items| - 1];
      assert Keys(init) <= Keys(items) by {
        forall k | k in Keys(init) ensures k in Keys(items) {
          var i :| 0 <= i < |init| && Lower(init[i].name) == k;
          assert items[i] == init[i];
        }
      }
      QuantitiesOfAbsent(init, key);
      assert Lower(items[|items| - 1].name) in Keys(items);
    }
  }

  /** A longer list adds the case-folded name of its last item. */
  lemma KeysSnoc(items: seq<ShoppingItem>)
    requires items != []
    ensures Keys(items) == Keys(items[..|items| - 1]) + {Lower(items[|items| - 1].name)}
  {
    var init := items[..|items| - 1];
    forall k | k in Keys(items) ensures k in Keys(init) + {Lower(items[|items| - 1].name)} {
      var i :| 0 <= i < |items| && Lower(items[i].name) == k;
      if i < |init| {
        assert init[i] == items[i];
      }
    }
    forall k | k in Keys(init) ensures k in Keys(items) {
      var i :| 0 <= i < |init| && Lower(init[i].name) == k;
      assert items[i] == init[i];
    }
  }

  /** The item map holds each case-folded name that occurs, once, in first-seen order. */
  lemma {:induction false} CollectKeys(items: seq<ShoppingItem>)
    ensures NoDuplicates(Collect(items).order)
    ensures forall k :: k in Collect(items).order <==> k in Collect(items).entries
    ensures forall k :: k in Collect(items).entries <==> k in Keys(items)
  {
    if items != [] {
      CollectKeys(items[..|items| - 1]);
      KeysSnoc(items);
    }
  }

  /** Each entry holds the quantities of every occurrence of its name, in order. */
  lemma {:induction false} CollectQuantities(items: seq<ShoppingItem>)
    ensures forall k :: k in Collect(items).entries ==>
      Collect(items).entries[k].quantities == QuantitiesOf(items, k)
  {
    if items != [] {
      var init := items[..|items| - 1];
      var key := Lower(items[|items| - 1].name);
      CollectQuantities(init);
      CollectKeys(init);
      if key !in Collect(init).entries {
        QuantitiesOfAbsent(init, key);
      }
    }
  }

  /** Each entry keeps the spelling and the category of the first occurrence of its name. */
  lemma {:induction false} CollectFirst(items: seq<ShoppingItem>)
    ensures forall k :: k in Collect(items).entries ==>
      exists i ::
        && FirstWithKey(items, k, i)
        && Collect(items).entries[k].name == items[i].name
        && Collect(items).entries[k].category == items[i].category
  {
    if items != [] {
      var n := |items| - 1;
      var init := items[..n];
      var key := Lower(items[n].name);
      var t0 := Collect(init);
      var t := Collect(items);
      CollectFirst(init);
      CollectKeys(init);
      assert forall j :: 0 <= j < n ==> items[j] == init[j];
      forall k | k in t.entries
        ensures exists i ::
          && FirstWithKey(items, k, i)
          && t.entries[k].name == items[i].name
          && t.entries[k].category == items[i].category
      {
        if k in t0.entries {
          var i :| FirstWithKey(init, k, i) &&
            t0.entries[k].name == init[i].name && t0.entries[k].category == init[i].category;
          assert FirstWithKey(items, k, i);
        } else {
          assert FirstWithKey(items, k, n);
        }
      }
    }
  }

  /** The sum of the quantity counts of the listed entries. */
  function QuantityCount(order: seq<string>, entries: map<string, AggregatedItem>): nat
    requires forall k :: k in order ==> k in entries
  {
    if order == [] then 0
    else QuantityCount(order[..|order| - 1], entries) + |entries[order[|order| - 1]].quantities|
  }

  lemma {:induction false} QuantityCountUpdate(order: seq<string>, e: map<string, AggregatedItem>, key: string, v: AggregatedItem)
    requires forall k :: k in order ==> k in e
    requires NoDuplicates(order)
    ensures QuantityCount(order, e[key := v]) ==
      QuantityCount(order, e) + (if key in order then |v.quantities| - |e[key].quantities| else 0)
  {
    if order != [] {
      var init := order[..|order| - 1];
      QuantityCountUpdate(init, e, key, v);
      assert key in order <==> key in init || key == order[|order| - 1];
    }
  }

  /** One step of the item loop adds exactly one quantity. */
  lemma AddCountsOne(t: Table, item: ShoppingItem)
    requires NoDuplicates(t.order)
    requires forall k :: k in t.order <==> k in t.entries
    ensures forall k :: k in Add(t, item).order ==> k in Add(t, item).entries
    ensures QuantityCount(Add(t, item).order, Add(t, item).entries) == QuantityCount(t.order, t.entries) + 1
  {
    var key := Lower(item.name);
    if key in t.entries {
      QuantityCountUpdate(t.order, t.entries, key,
        t.entries[key].(quantities := t.entries[key].quantities + [item.qty]));
    } else {
      var v := AggregatedItem(item.name, [item.qty], item.category);
      QuantityCountUpdate(t.order, t.entries, key, v);
      assert (t.order + [key])[..|t.order|] == t.order;
    }
  }

  /** No quantity is lost or duplicated: the entries hold as many quantities as there were occurrences. */
  lemma {:induction false} QuantitiesAreOccurrences(items: seq<ShoppingItem>)
    ensures (forall k :: k in Collect(items).order ==> k in Collect(items).entries) &&
            QuantityCount(Collect(items).order, Collect(items).entries) == |items|
  {
    CollectKeys(items);
    if items != [] {
      var init := items[..|items| - 1];
      QuantitiesAreOccurrences(init);
      CollectKeys(init);
      AddCountsOne(Collect(init), items[|items| - 1]);
    }
  }

  /** `totalItems` (the item map's size) is the number of distinct case-folded names. */
  lemma TotalIsDistinctNames(items: seq<ShoppingItem>)
    ensures |Collect(items).order| == |Keys(items)|
  {
    var t := Collect(items);
    CollectKeys(items);
    NoDuplicatesSize(t.order);
    assert (set k | k in t.order) == Keys(items);
  }

  // ---------------------------------------------------------------------------
  // Grouping by category.

  /** The entries in the map's insertion order (`itemMap.values()`). */
  function Values(order: seq<string>, entries: map<string, AggregatedItem>): (r: seq<AggregatedItem>)
    requires forall k :: k in order ==> k in entries
    ensures |r| == |order| && forall i :: 0 <= i < |order| ==> r[i] == entries[order[i]]
  {
    if order == [] then [] else Values(order[..|order| - 1], entries) + [entries[order[|order| - 1]]]
  }

  function InCategory(xs: seq<AggregatedItem>, c: string): seq<AggregatedItem> {
    if xs == [] then []
    else InCategory(xs[..|xs| - 1], c) + (if xs[|xs| - 1].category == c then [xs[|xs| - 1]] else [])
  }

  function Categories(xs: seq<AggregatedItem>): set<string> {
    set i | 0 <= i < |xs| :: xs[i].category
  }

  /** The collected entries in the map's insertion order. */
  function CollectedItems(items: seq<ShoppingItem>): seq<AggregatedItem> {
    var t := Collect(items);
    CollectKeys(items);
    Values(t.order, t.entries)
  }

  /** The reference grouping: one group per category that occurs, holding that category's items in order. */
  function Grouped(xs: seq<AggregatedItem>): map<string, seq<AggregatedItem>> {
    map c | c in Categories(xs) :: InCategory(xs, c)
  }

  /** A group holds exactly the items of its category, each as often as it occurs. */
  lemma {:induction false} InCategoryCount(xs: seq<AggregatedItem>, c: string, y: AggregatedItem)
    ensures multiset(InCategory(xs, c))[y] == if y.category == c then multiset(xs)[y] else 0
  {
    if xs != [] {
      var init := xs[..|xs| - 1];
      InCategoryCount(init, c, y);
      assert xs == init + [xs[|xs| - 1]];
    }
  }

  /** Every group is non-empty, and every item is in the group named by its category. */
  lemma GroupsCoverItems(xs: seq<AggregatedItem>)
    ensures forall c :: c in Grouped(xs) ==> Grouped(xs)[c] != []
    ensures forall i :: 0 <= i < |xs| ==> xs[i].category in Grouped(xs) && xs[i] in Grouped(xs)[xs[i].category]
  {
    forall c | c in Grouped(xs) ensures Grouped(xs)[c] != [] {
      var i :| 0 <= i < |xs| && xs[i].category == c;
      InCategoryCount(xs, c, xs[i]);
    }
    forall i | 0 <= i < |xs| ensures xs[i] in Grouped(xs)[xs[i].category] {
      InCategoryCount(xs, xs[i].category, xs[i]);
    }
  }

  lemma {:induction false} InCategoryAbsent(xs: seq<AggregatedItem>, c: string)
    requires c !in Categories(xs)
    ensures InCategory(xs, c) == []
  {
    if xs != [] {
      var init := xs[..|xs| - 1];
      assert Categories(init) <= Categories(xs) by {
        forall d | d in Categories(init) ensures d in Categories(xs) {
          var i :| 0 <= i < |init| && init[i].category == d;
          assert xs[i] == init[i];
        }
      }
      InCategoryAbsent(init, c);
    }
  }

  /** One step of the grouping loop. */
  lemma GroupedSnoc(xs: seq<AggregatedItem>, x: AggregatedItem)
    ensures Grouped(xs + [x]) ==
      Grouped(xs)[x.category := (if x.category in Grouped(xs) then Grouped(xs)[x.category] else []) + [x]]
  {
    var ys := xs + [x];
    assert ys[..|xs|] == xs;
    assert Categories(ys) == Categories(xs) + {x.category} by {
      forall c | c in Categories(ys) ensures c in Categories(xs) + {x.category} {
        var i :| 0 <= i < |ys| && ys[i].category == c;
        if i < |xs| {
          assert ys[i] == xs[i];
        }
      }
      forall c | c in Categories(xs) ensures c in Categories(ys) {
        var i :| 0 <= i < |xs| && xs[i].category == c;
        assert ys[i] == xs[i];
      }
    }
    var lhs := Grouped(ys);
    var rhs := Grouped(xs)[x.category := (if x.category in Grouped(xs) then Grouped(xs)[x.category] else []) + [x]];
    assert lhs.Keys == rhs.Keys;
    forall c | c in lhs ensures lhs[c] == rhs[c] {
      assert InCategory(ys, c) == InCategory(xs, c) + (if x.category == c then [x] else []);
      if c == x.category && c !in Categories(xs) {
        InCategoryAbsent(xs, c);
      }
    }
  }

  /** Orders shopping lines by name. */
  predicate ByName(a: AggregatedItem, b: AggregatedItem) {
    LexLe(a.name, b.name)
  }

  lemma ByNameTotal()
    ensures Total(ByName)
  {
    forall a: AggregatedItem, b: AggregatedItem ensures ByName(a, b) || ByName(b, a) {
      LexLeTotal(a.name, b.name);
    }
  }

  // ---------------------------------------------------------------------------
  // The aggregation.

  /** The innermost merging loop of `aggregateShoppingList`: the items of one meal go through `Add`. */
  method AddItems(order0: seq<string>, itemMap0: map<string, AggregatedItem>, items: seq<ShoppingItem>,
                  ghost seen: seq<ShoppingItem>)
    returns (order: seq<string>, itemMap: map<string, AggregatedItem>)
    requires Table(order0, itemMap0) == Collect(seen)
    ensures Table(order, itemMap) == Collect(seen + items)
  {
    order, itemMap := order0, itemMap0;
    assert seen + items[..0] == seen;
    for k := 0 to |items|
      invariant Table(order, itemMap) == Collect(seen + items[..k])
    {
      var item := items[k];
      ghost var t := Table(order, itemMap);
      var key := Lower(item.name);
      if key in itemMap {
        var existing := itemMap[key];
        itemMap := itemMap[key := existing.(quantities := existing.quantities + [item.qty])];
      } else {
        order := order + [key];
        itemMap := itemMap[key := AggregatedItem(item.name, [item.qty], item.category)];
      }
      assert Table(order, itemMap) == Add(t, item);
      CollectSnoc(seen + items[..k], item);
      assert seen + items[..k + 1] == (seen + items[..k]) + [item];
    }
    assert items[..|items|] == items;
  }

  /** The middle merging loop: the meals of one day, skipping `null` slots. */
  method AddMeals(order0: seq<string>, itemMap0: map<string, AggregatedItem>, meals: seq<(string, Option<Meal>)>,
                  ghost seen: seq<ShoppingItem>)
    returns (order: seq<string>, itemMap: map<string, AggregatedItem>)
    requires Table(order0, itemMap0) == Collect(seen)
    ensures Table(order, itemMap) == Collect(seen + MealItems(meals))
  {
    order, itemMap := order0, itemMap0;
    ghost var done := seen;
    assert meals[..0] == [];
    for m := 0 to |meals|
      invariant done == seen + MealItems(meals[..m])
      invariant Table(order, itemMap) == Collect(done)
    {
      var meal := meals[m].1;
      assert meals[..m + 1][..m] == meals[..m];
      if meal.Some? {
        var items := meal.value.shoppingItems;
        assert SlotItems(meal) == items;
        order, itemMap := AddItems(order, itemMap, items, done);
      } else {
        assert done + SlotItems(meal) == done;
      }
      done := done + SlotItems(meal);
    }
    assert meals[..|meals|] == meals;
  }

  /** The merging loops of `aggregateShoppingList`: every shopping item of every non-null meal of
      every day, in order, goes through `Add`. */
  method CollectItems(days: seq<PlanDay>) returns (order: seq<string>, itemMap: map<string, AggregatedItem>)
    ensures Table(order, itemMap) == Collect(Occurrences(days))
  {
    order := [];
    itemMap := map[];
    for d := 0 to |days|
      invariant Table(order, itemMap) == Collect(Occurrences(days[..d]))
    {
      order, itemMap := AddMeals(order, itemMap, days[d].meals, Occurrences(days[..d]));
      assert days[..d + 1][..d] == days[..d];
    }
    assert days[..|days|] == days;
  }

  /** The grouping loop of `aggregateShoppingList`: each entry, in insertion order, is appended
      to the group of its category. */
  method GroupByCategory(order: seq<string>, itemMap: map<string, AggregatedItem>)
    returns (grouped: map<string, seq<AggregatedItem>>)
    requires forall k :: k in order ==> k in itemMap
    ensures grouped == Grouped(Values(order, itemMap))
  {
    grouped := map[];
    for i := 0 to |order|
      invariant grouped == Grouped(Values(order[..i], itemMap))
    {
      var item := itemMap[order[i]];
      var bucket := if item.category in grouped then grouped[item.category] else [];
      assert order[..i + 1][..i] == order[..i];
      GroupedSnoc(Values(order[..i], itemMap), item);
      grouped := grouped[item.category := bucket + [item]];
    }
    assert order[..|order|] == order;
  }

  /** The sorting loop of `aggregateShoppingList`: every group is sorted by name. */
  method SortGroups(g: map<string, seq<AggregatedItem>>) returns (grouped: map<string, seq<AggregatedItem>>)
    ensures grouped.Keys == g.Keys
    ensures forall c :: c in grouped ==> Sorted(grouped[c], ByName) && multiset(grouped[c]) == multiset(g[c])
  {
    grouped := g;
    ByNameTotal();
    var pending := grouped.Keys;
    while pending != {}
      invariant pending <= g.Keys == grouped.Keys
      invariant forall c :: c in pending ==> grouped[c] == g[c]
      invariant forall c :: c in g && c !in pending ==>
        Sorted(grouped[c], ByName) && multiset(grouped[c]) == multiset(g[c])
      decreases pending
    {
      var c :| c in pending;
      var sorted := SortBy(grouped[c], ByName);
      grouped := grouped[c := sorted];
      pending := pending - {c};
    }
  }

  /** `aggregateShoppingList`: the result is the reference grouping of the collected entries with
      each group sorted by name, and the count of distinct names. */
  method AggregateShoppingList(days: seq<PlanDay>) returns (r: Aggregation)
    ensures r.totalItems == |Collect(Occurrences(days)).order|
    ensures r.grouped.Keys == Grouped(CollectedItems(Occurrences(days))).Keys
    ensures forall c :: c in r.grouped ==>
      && Sorted(r.grouped[c], ByName)
      && multiset(r.grouped[c]) == multiset(Grouped(CollectedItems(Occurrences(days)))[c])
  {
    var order, itemMap := CollectItems(days);
    CollectKeys(Occurrences(days));
    var grouped := GroupByCategory(order, itemMap);
    grouped := SortGroups(grouped);
    r := Aggregation(grouped, |order|);
  }
}
