/** The items of one cloud-kitchen division (the customer hook
    `useCustomerDivisionItems`): every joined dish/cook row becomes one item
    with its own key, and the items are sorted by dish name, then by kitchen
    name. The query that produces the rows is not modelled; the rows are
    the input. String comparison is code-point lexicographic order. */
module DivisionItems {
  import opened Common

  datatype Image = Image(id: string, imageUrl: string, isPrimary: bool)

  datatype CookInfo = CookInfo(id: string, kitchenName: string, rating: Option<int>)

  /** One row of the dish/cook join, with the nullable columns as options. */
  datatype DishCookRow = DishCookRow(
    foodId: string,
    name: string,
    description: Option<string>,
    price: int,
    isVegetarian: bool,
    setSize: Option<int>,
    minOrderSets: Option<int>,
    slotId: Option<string>,
    images: Option<seq<Image>>,
    cook: CookInfo)

  datatype Item = Item(
    id: string,
    name: string,
    description: Option<string>,
    price: int,
    isVegetarian: bool,
    setSize: int,
    minOrderSets: int,
    slotId: Option<string>,
    images: seq<Image>,
    cook: CookInfo,
    uniqueKey: string)

  function UniqueKey(foodId: string, cookId: string): string {
    foodId + "_" + cookId
  }

  function ToItem(row: DishCookRow): (item: Item)
    ensures item.id == row.foodId && item.name == row.name && item.cook == row.cook
    ensures item.uniqueKey == row.foodId + "_" + row.cook.id
    // a missing or zero count becomes 1
    ensures item.setSize == NumberOr(row.setSize, 1) && item.minOrderSets == NumberOr(row.minOrderSets, 1)
    ensures item.setSize != 0 && item.minOrderSets != 0
    ensures item.images == OrElse(row.images, [])
    ensures item.description == row.description && item.price == row.price
    ensures item.isVegetarian == row.isVegetarian && item.slotId == row.slotId
  {
    Item(row.foodId, row.name, row.description, row.price, row.isVegetarian,
         NumberOr(row.setSize, 1), NumberOr(row.minOrderSets, 1), row.slotId,
         OrElse(row.images, []), row.cook, UniqueKey(row.foodId, row.cook.id))
  }

  function ToItems(rows: seq<DishCookRow>): (items: seq<Item>)
    ensures |items| == |rows|
    ensures forall i :: 0 <= i < |rows| ==> items[i] == ToItem(rows[i])
  {
    seq(|rows|, i requires 0 <= i < |rows| => ToItem(rows[i]))
  }

  // ------------------------------------------------------------ the order

  /** Lexicographic order on strings by code point. */
  predicate LexLeq(a: string, b: string)
    decreases |a|
  {
    a == [] || (b != [] && (a[0] < b[0] || (a[0] == b[0] && LexLeq(a[1..], b[1..]))))
  }

  lemma {:induction false} LexLeqTotal(a: string, b: string)
    ensures LexLeq(a, b) || LexLeq(b, a)
    decreases |a|
  {
    if a != [] && b != [] && a[0] == b[0] {
      LexLeqTotal(a[1..], b[1..]);
    }
  }

  lemma {:induction false} LexLeqTransitive(a: string, b: string, c: string)
    requires LexLeq(a, b) && LexLeq(b, c)
    ensures LexLeq(a, c)
    decreases |a|
  {
    if a != [] && a[0] == b[0] && b[0] == c[0] {
      LexLeqTransitive(a[1..], b[1..], c[1..]);
    }
  }

  lemma {:induction false} LexLeqAntisymmetric(a: string, b: string)
    requires LexLeq(a, b) && LexLeq(b, a)
    ensures a == b
    decreases |a|
  {
    if a != [] {
      LexLeqAntisymmetric(a[1..], b[1..]);
      assert a == [a[0]] + a[1..] && b == [b[0]] + b[1..];
    }
  }

  /** The comparator: by dish name, and by kitchen name on equal dish names. */
  predicate ItemLeq(a: Item, b: Item) {
    if a.name != b.name then LexLeq(a.name, b.name)
    else LexLeq(a.cook.kitchenName, b.cook.kitchenName)
  }

  lemma {:induction false} ItemLeqTotal(a: Item, b: Item)
    ensures ItemLeq(a, b) || ItemLeq(b, a)
  {
    LexLeqTotal(a.name, b.name);
    LexLeqTotal(a.cook.kitchenName, b.cook.kitchenName);
  }

  lemma {:induction false} ItemLeqTransitive(a: Item, b: Item, c: Item)
    requires ItemLeq(a, b) && ItemLeq(b, c)
    ensures ItemLeq(a, c)
  {
    if a.name != b.name && b.name != c.name {
      LexLeqTransitive(a.name, b.name, c.name);
      if a.name == c.name { LexLeqAntisymmetric(a.name, b.name); }
    } else if a.name == b.name && b.name == c.name {
      LexLeqTransitive(a.cook.kitchenName, b.cook.kitchenName, c.cook.kitchenName);
    }
  }

  predicate SortedByNameThenKitchen(s: seq<Item>) {
    forall i, j :: 0 <= i < j < |s| ==> ItemLeq(s[i], s[j])
  }

  /** Insert `x` before the first element it does not follow. */
  function Insert(x: Item, s: seq<Item>): (r: seq<Item>)
    requires SortedByNameThenKitchen(s)
    ensures SortedByNameThenKitchen(r)
    ensures multiset(r) == multiset(s) + multiset{x}
    ensures |r| == |s| + 1
  {
    if s == [] then [x]
    else if ItemLeq(x, s[0]) then
      InsertAtFront(x, s);
      [x] + s
    else
      var rest := Insert(x, s[1..]);
      InsertBehindHead(x, s, rest);
      [s[0]] + rest
  }

  lemma {:induction false} InsertAtFront(x: Item, s: seq<Item>)
    requires SortedByNameThenKitchen(s) && s != [] && ItemLeq(x, s[0])
    ensures SortedByNameThenKitchen([x] + s)
    ensures multiset([x] + s) == multiset(s) + multiset{x}
  {
    var r := [x] + s;
    forall i, j | 0 <= i < j < |r| ensures ItemLeq(r[i], r[j]) {
      if i == 0 && j > 1 { ItemLeqTransitive(x, s[0], s[j - 1]); }
    }
  }

  lemma {:induction false} InsertBehindHead(x: Item, s: seq<Item>, rest: seq<Item>)
    requires SortedByNameThenKitchen(s) && s != [] && !ItemLeq(x, s[0])
    requires SortedByNameThenKitchen(rest)
    requires multiset(rest) == multiset(s[1..]) + multiset{x}
    ensures SortedByNameThenKitchen([s[0]] + rest)
    ensures multiset([s[0]] + rest) == multiset(s) + multiset{x}
  {
    assert s == [s[0]] + s[1..];
    ItemLeqTotal(x, s[0]);
    var r := [s[0]] + rest;
    forall j | 0 <= j < |rest| ensures ItemLeq(s[0], rest[j]) {
      assert rest[j] in multiset(rest);
      if rest[j] != x {
        assert rest[j] in multiset(s[1..]);
        var k :| 0 <= k < |s[1..]| && s[1..][k] == rest[j];
        assert s[k + 1] == rest[j];
      }
    }
    forall i, j | 0 <= i < j < |r| ensures ItemLeq(r[i], r[j]) {
      if i > 0 { assert r[i] == rest[i - 1] && r[j] == rest[j - 1]; }
      else { assert r[j] == rest[j - 1]; }
    }
  }

  /** Insertion sort by the comparator. */
  function Sort(s: seq<Item>): (r: seq<Item>)
    ensures SortedByNameThenKitchen(r)
    ensures multiset(r) == multiset(s)
    ensures |r| == |s|
  {
    if s == [] then []
    else
      assert s == [s[0]] + s[1..];
      Insert(s[0], Sort(s[1..]))
  }

  /** The hook's result: nothing without a division, otherwise one item per
      row, sorted by dish name and then kitchen name. */
  function DivisionItems(divisionId: Option<string>, rows: seq<DishCookRow>): (items: seq<Item>)
    ensures divisionId.None? || divisionId.value == "" ==> items == []
    ensures divisionId.Some? && divisionId.value != "" ==>
      && SortedByNameThenKitchen(items)
      && multiset(items) == multiset(ToItems(rows))
  {
    if divisionId.None? || divisionId.value == "" then [] else Sort(ToItems(rows))
  }

  /** Every item of the result comes from a row, and every row is there. */
  lemma {:induction false} DivisionItemsFromRows(divisionId: string, rows: seq<DishCookRow>)
    requires divisionId != ""
    ensures |DivisionItems(Some(divisionId), rows)| == |rows|
    ensures forall it :: it in DivisionItems(Some(divisionId), rows) <==>
      exists i :: 0 <= i < |rows| && it == ToItem(rows[i])
  {
    var items := DivisionItems(Some(divisionId), rows);
    var mapped := ToItems(rows);
    assert multiset(items) == multiset(mapped);
    assert |items| == |multiset(items)| == |multiset(mapped)| == |mapped|;
    forall it
      ensures it in items <==> exists i :: 0 <= i < |rows| && it == ToItem(rows[i])
    {
      assert it in items <==> it in multiset(items);
      assert it in mapped <==> it in multiset(mapped);
      if it in mapped {
        var i :| 0 <= i < |mapped| && mapped[i] == it;
        assert it == ToItem(rows[i]);
      }
      if exists i :: 0 <= i < |rows| && it == ToItem(rows[i]) {
        var i :| 0 <= i < |rows| && it == ToItem(rows[i]);
        assert mapped[i] == it;
      }
    }
  }
}
