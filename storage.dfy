/** The SQLite meal store, as two in-memory tables: `meals` (one header row per meal, its id the
    primary key) and `foods` (one row per food with an AUTOINCREMENT id and the owning meal's id).
    The SQL engine's part (the WHERE, ORDER BY and LIMIT of the meal query) is modelled by
    `SelectRows`; the Go code's part (transaction, insert loop, scan loop) by the methods. */
module Storage {
  import opened Wrappers
  import opened Times
  import opened Models

  /** A row of `meals`. The three time columns hold the values SQLite compares; the text Go
      reads back from them is the driver's encoding of those values. */
  datatype MealRow = MealRow(
    id: string,
    description: string,
    timestamp: Time,
    totalCarbs: real,
    confidence: string,
    createdAt: Time,
    updatedAt: Time,
    source: string)

  /** A row of `foods`. */
  datatype FoodRow = FoodRow(id: nat, mealId: string, food: Food)

  /** Both tables and the AUTOINCREMENT counter (the next food row id). */
  datatype Db = Db(meals: seq<MealRow>, foods: seq<FoodRow>, nextFoodId: nat)

  /** How a time value is written by the driver and parsed back with `time.Parse(time.RFC3339, ...)`. */
  datatype Codec = Codec(encode: Time -> string, parse: string -> Option<Time>)

  /** Every written time is read back as itself. */
  ghost predicate RoundTrips(codec: Codec) {
    forall t :: codec.parse(codec.encode(t)) == Some(t)
  }

  datatype StoreError =
    | BeginFailed
    | InsertMealFailed          // duplicate primary key, or the engine refused the statement
    | InsertFoodFailed
    | CommitFailed
    | TimestampUnparsable
    | CreatedAtUnparsable
    | UpdatedAtUnparsable

  /** A failure of the storage engine itself, injected: the transaction cannot begin, the k-th
      INSERT of the transaction is refused (0 is the header, k >= 1 the k-th food), or COMMIT fails. */
  datatype Fault = NoFault | BeginFails | StatementFails(k: nat) | CommitFails

  function Ids(meals: seq<MealRow>): set<string> {
    set r | r in meals :: r.id
  }

  /** The table invariants: the primary key is unique, food row ids increase along the table and
      stay below the counter, and every food row references an existing meal. */
  predicate WellFormed(db: Db) {
    && (forall i, j :: 0 <= i < j < |db.meals| ==> db.meals[i].id != db.meals[j].id)
    && (forall i, j :: 0 <= i < j < |db.foods| ==> db.foods[i].id < db.foods[j].id)
    && (forall i :: 0 <= i < |db.foods| ==> db.foods[i].id < db.nextFoodId)
    && (forall i :: 0 <= i < |db.foods| ==> db.foods[i].mealId in Ids(db.meals))
  }

  function HeaderRow(meal: Meal): MealRow {
    MealRow(meal.id, meal.description, meal.timestamp, meal.totalCarbs, meal.confidence,
            meal.createdAt, meal.updatedAt, meal.source)
  }

  /** The food rows inserted for `foods`, numbered from `next` on. */
  function FoodRows(mealId: string, foods: seq<Food>, next: nat): (rows: seq<FoodRow>)
    ensures |rows| == |foods|
    ensures forall k :: 0 <= k < |rows| ==> rows[k] == FoodRow(next + k, mealId, foods[k])
  {
    if foods == [] then [] else [FoodRow(next, mealId, foods[0])] + FoodRows(mealId, foods[1..], next + 1)
  }

  lemma FoodRowsSnoc(mealId: string, foods: seq<Food>, next: nat, i: nat)
    requires i < |foods|
    ensures FoodRows(mealId, foods[..i + 1], next)
         == FoodRows(mealId, foods[..i], next) + [FoodRow(next + i, mealId, foods[i])]
  {
    var a := FoodRows(mealId, foods[..i + 1], next);
    var b := FoodRows(mealId, foods[..i], next) + [FoodRow(next + i, mealId, foods[i])];
    assert |a| == |b|;
    forall k | 0 <= k < |a| ensures a[k] == b[k] { }
  }

  /** The tables after `meal` has been committed. */
  function Inserted(db: Db, meal: Meal): Db {
    Db(db.meals + [HeaderRow(meal)],
       db.foods + FoodRows(meal.id, meal.foods, db.nextFoodId),
       db.nextFoodId + |meal.foods|)
  }

  /** What `SaveMeal` reports: nothing on success, otherwise the first statement that failed. */
  function SaveOutcome(db: Db, meal: Meal, fault: Fault): (err: Option<StoreError>)
    ensures err == None <==>
      meal.id !in Ids(db.meals) && (fault.NoFault? || (fault.StatementFails? && fault.k > |meal.foods|))
    ensures meal.id in Ids(db.meals) && !fault.BeginFails? ==> err == Some(InsertMealFailed)
  {
    if fault.BeginFails? then Some(BeginFailed)
    else if meal.id in Ids(db.meals) || fault == StatementFails(0) then Some(InsertMealFailed)
    else if fault.StatementFails? && fault.k <= |meal.foods| then Some(InsertFoodFailed)
    else if fault.CommitFails? then Some(CommitFailed)
    else None
  }

  /** The rows of `foods` that belong to `mealId`, in table order. */
  function FoodRowsOf(foods: seq<FoodRow>, mealId: string): (rows: seq<FoodRow>)
    ensures forall r :: r in rows <==> r in foods && r.mealId == mealId
  {
    if foods == [] then []
    else (if foods[0].mealId == mealId then [foods[0]] else []) + FoodRowsOf(foods[1..], mealId)
  }

  function FoodsOf(foods: seq<FoodRow>, mealId: string): (r: seq<Food>)
    ensures |r| == |FoodRowsOf(foods, mealId)|
    ensures forall k :: 0 <= k < |r| ==> r[k] == FoodRowsOf(foods, mealId)[k].food
  {
    var rows := FoodRowsOf(foods, mealId);
    seq(|rows|, k requires 0 <= k < |rows| => rows[k].food)
  }

  lemma {:induction false} FoodRowsOfAppend(a: seq<FoodRow>, b: seq<FoodRow>, mealId: string)
    ensures FoodRowsOf(a + b, mealId) == FoodRowsOf(a, mealId) + FoodRowsOf(b, mealId)
  {
    if a == [] {
      assert a + b == b;
    } else {
      var head := if a[0].mealId == mealId then [a[0]] else [];
      assert (a + b)[0] == a[0];
      assert (a + b)[1..] == a[1..] + b;
      FoodRowsOfAppend(a[1..], b, mealId);
      calc {
        FoodRowsOf(a + b, mealId);
        head + FoodRowsOf(a[1..] + b, mealId);
        head + (FoodRowsOf(a[1..], mealId) + FoodRowsOf(b, mealId));
        (head + FoodRowsOf(a[1..], mealId)) + FoodRowsOf(b, mealId);
      }
    }
  }

  lemma {:induction false} FoodRowsOfOwn(mealId: string, foods: seq<Food>, next: nat)
    ensures FoodsOf(FoodRows(mealId, foods, next), mealId) == foods
    ensures forall other :: other != mealId ==> FoodRowsOf(FoodRows(mealId, foods, next), other) == []
  {
    if foods != [] {
      FoodRowsOfOwn(mealId, foods[1..], next + 1);
      var rows := FoodRows(mealId, foods, next);
      assert rows[1..] == FoodRows(mealId, foods[1..], next + 1);
      assert rows == [rows[0]] + rows[1..];
    }
  }

  /** Rows are read back in ascending row id: the table is kept in that order. */
  lemma {:induction false} FoodRowsOfIncreasing(db: Db, mealId: string)
    requires WellFormed(db)
    ensures var rows := FoodRowsOf(db.foods, mealId);
      forall i, j :: 0 <= i < j < |rows| ==> rows[i].id < rows[j].id
  {
    SubsequenceOrder(db.foods, mealId);
  }

  predicate IdsIncreasing(rows: seq<FoodRow>) {
    forall i, j :: 0 <= i < j < |rows| ==> rows[i].id < rows[j].id
  }

  lemma {:induction false} SubsequenceOrder(foods: seq<FoodRow>, mealId: string)
    requires IdsIncreasing(foods)
    ensures IdsIncreasing(FoodRowsOf(foods, mealId))
  {
    if foods != [] {
      var tail := foods[1..];
      assert IdsIncreasing(tail) by {
        forall a, b | 0 <= a < b < |tail| ensures tail[a].id < tail[b].id {
          assert tail[a] == foods[a + 1] && tail[b] == foods[b + 1];
        }
      }
      SubsequenceOrder(tail, mealId);
      if foods[0].mealId == mealId {
        var rest := FoodRowsOf(tail, mealId);
        forall x | x in rest ensures foods[0].id < x.id {
          TailAbove(foods, x);
        }
        PrependIncreasing(foods[0], rest);
      }
    }
  }

  lemma TailAbove(foods: seq<FoodRow>, x: FoodRow)
    requires IdsIncreasing(foods) && foods != [] && x in foods[1..]
    ensures foods[0].id < x.id
  {
    var b :| 0 <= b < |foods[1..]| && foods[1..][b] == x;
    assert foods[b + 1] == x;
  }

  lemma PrependIncreasing(head: FoodRow, rows: seq<FoodRow>)
    requires IdsIncreasing(rows) && forall x :: x in rows ==> head.id < x.id
    ensures IdsIncreasing([head] + rows)
  {
    var s := [head] + rows;
    forall i, j | 0 <= i < j < |s| ensures s[i].id < s[j].id {
      assert s[j] == rows[j - 1];
      if i > 0 { assert s[i] == rows[i - 1]; }
    }
  }

  lemma {:induction false} FoodRowsOfNone(foods: seq<FoodRow>, mealId: string)
    requires forall i :: 0 <= i < |foods| ==> foods[i].mealId != mealId
    ensures FoodRowsOf(foods, mealId) == []
  {
    if foods != [] {
      assert forall i :: 0 <= i < |foods[1..]| ==> foods[1..][i].mealId != mealId by {
        forall i | 0 <= i < |foods[1..]| ensures foods[1..][i].mealId != mealId {
          assert foods[1..][i] == foods[i + 1];
        }
      }
      FoodRowsOfNone(foods[1..], mealId);
    }
  }

  /** A fresh id has no food rows yet; after the insert it has exactly the meal's foods, in order,
      and every other meal's foods are unchanged. */
  lemma InsertedFoods(db: Db, meal: Meal)
    requires WellFormed(db) && meal.id !in Ids(db.meals)
    ensures FoodsOf(Inserted(db, meal).foods, meal.id) == meal.foods
    ensures forall other :: other != meal.id ==>
      FoodsOf(Inserted(db, meal).foods, other) == FoodsOf(db.foods, other)
  {
    var added := FoodRows(meal.id, meal.foods, db.nextFoodId);
    assert Inserted(db, meal).foods == db.foods + added;
    InsertedOwnFoods(db, meal, added);
    forall other | other != meal.id
      ensures FoodsOf(Inserted(db, meal).foods, other) == FoodsOf(db.foods, other)
    {
      InsertedOtherFoods(db.foods, meal, db.nextFoodId, other);
    }
  }

  lemma InsertedOwnFoods(db: Db, meal: Meal, added: seq<FoodRow>)
    requires WellFormed(db) && meal.id !in Ids(db.meals)
    requires added == FoodRows(meal.id, meal.foods, db.nextFoodId)
    ensures FoodsOf(db.foods + added, meal.id) == meal.foods
  {
    FoodRowsOfAppend(db.foods, added, meal.id);
    FoodRowsOfOwn(meal.id, meal.foods, db.nextFoodId);
    assert forall i :: 0 <= i < |db.foods| ==> db.foods[i].mealId != meal.id by {
      forall i | 0 <= i < |db.foods| ensures db.foods[i].mealId != meal.id {
        assert db.foods[i].mealId in Ids(db.meals);
      }
    }
    FoodRowsOfNone(db.foods, meal.id);
    assert FoodRowsOf(db.foods + added, meal.id) == FoodRowsOf(added, meal.id);
    SameRowsSameFoods(db.foods + added, added, meal.id);
  }

  lemma InsertedOtherFoods(foods: seq<FoodRow>, meal: Meal, next: nat, other: string)
    requires other != meal.id
    ensures FoodsOf(foods + FoodRows(meal.id, meal.foods, next), other) == FoodsOf(foods, other)
  {
    var added := FoodRows(meal.id, meal.foods, next);
    FoodRowsOfAppend(foods, added, other);
    FoodRowsOfOwn(meal.id, meal.foods, next);
    assert FoodRowsOf(foods + added, other) == FoodRowsOf(foods, other);
    SameRowsSameFoods(foods + added, foods, other);
  }

  lemma SameRowsSameFoods(a: seq<FoodRow>, b: seq<FoodRow>, mealId: string)
    requires FoodRowsOf(a, mealId) == FoodRowsOf(b, mealId)
    ensures FoodsOf(a, mealId) == FoodsOf(b, mealId)
  {
  }

  /** Committing a meal under a fresh id keeps every table invariant. */
  lemma InsertedWellFormed(db: Db, meal: Meal)
    requires WellFormed(db) && meal.id !in Ids(db.meals)
    ensures WellFormed(Inserted(db, meal))
  {
    var n := Inserted(db, meal);
    assert Ids(n.meals) == Ids(db.meals) + {meal.id} by {
      assert forall r :: r in n.meals <==> r in db.meals || r == HeaderRow(meal);
    }
    forall i, j | 0 <= i < j < |n.meals| ensures n.meals[i].id != n.meals[j].id {
      if j == |db.meals| { assert n.meals[i] in db.meals; }
    }
    forall i | 0 <= i < |n.foods| ensures n.foods[i].mealId in Ids(n.meals) {
      if i >= |db.foods| { assert n.foods[i].mealId == meal.id; }
    }
  }

  /** `SaveMeal` on success adds one header row and one food row per food, in order, with
      consecutive ids above every existing row; nothing that was there changes. */
  lemma SaveAddsExactlyTheMeal(db: Db, meal: Meal)
    requires WellFormed(db)
    ensures var n := Inserted(db, meal);
      && |n.meals| == |db.meals| + 1 && n.meals[..|db.meals|] == db.meals
      && n.meals[|db.meals|].id == meal.id
      && |n.foods| == |db.foods| + |meal.foods| && n.foods[..|db.foods|] == db.foods
      && (forall k :: |db.foods| <= k < |n.foods| ==>
            n.foods[k].mealId == meal.id && n.foods[k].food == meal.foods[k - |db.foods|])
      && (forall i, j :: 0 <= i < j < |n.foods| ==> n.foods[i].id < n.foods[j].id)
  {
    var n := Inserted(db, meal);
    var added := FoodRows(meal.id, meal.foods, db.nextFoodId);
    assert n.foods[..|db.foods|] == db.foods;
    forall k | |db.foods| <= k < |n.foods|
      ensures n.foods[k].mealId == meal.id && n.foods[k].food == meal.foods[k - |db.foods|]
    {
      assert n.foods[k] == added[k - |db.foods|];
    }
    forall i, j | 0 <= i < j < |n.foods| ensures n.foods[i].id < n.foods[j].id {
      if j >= |db.foods| {
        assert n.foods[j] == added[j - |db.foods|];
        if i >= |db.foods| { assert n.foods[i] == added[i - |db.foods|]; }
      }
    }
  }

  // ---------------------------------------------------------------------------------------
  // The meal query: WHERE DATE(timestamp) >= start AND DATE(timestamp) <= end
  //                 ORDER BY timestamp DESC LIMIT limit

  /** Each bound applies only when its text is non-empty; both are inclusive on the date. */
  predicate InRange(t: Time, startDate: string, endDate: string) {
    && (startDate != "" ==> StrLe(startDate, t.date))
    && (endDate != "" ==> StrLe(t.date, endDate))
  }

  function Filter(rows: seq<MealRow>, startDate: string, endDate: string): (r: seq<MealRow>)
    ensures forall x :: x in r <==> x in rows && InRange(x.timestamp, startDate, endDate)
    ensures |r| <= |rows|
  {
    if rows == [] then []
    else (if InRange(rows[0].timestamp, startDate, endDate) then [rows[0]] else [])
         + Filter(rows[1..], startDate, endDate)
  }

  predicate SortedDesc(rows: seq<MealRow>) {
    forall i, j :: 0 <= i < j < |rows| ==> TimeLe(rows[j].timestamp, rows[i].timestamp)
  }

  function InsertDesc(r: MealRow, rows: seq<MealRow>): seq<MealRow> {
    if rows == [] then [r]
    else if TimeLe(rows[0].timestamp, r.timestamp) then [r] + rows
    else [rows[0]] + InsertDesc(r, rows[1..])
  }

  /** Latest first. Rows with equal timestamps come in an order SQL leaves unspecified; this one
      is fixed, and nothing proved below depends on it. */
  function SortDesc(rows: seq<MealRow>): seq<MealRow> {
    if rows == [] then [] else InsertDesc(rows[0], SortDesc(rows[1..]))
  }

  lemma {:induction false} InsertDescPermutes(r: MealRow, rows: seq<MealRow>)
    ensures multiset(InsertDesc(r, rows)) == multiset(rows) + multiset{r}
  {
    if rows != [] && !TimeLe(rows[0].timestamp, r.timestamp) {
      var tail := rows[1..];
      InsertDescPermutes(r, tail);
      assert rows == [rows[0]] + tail;
      calc {
        multiset(InsertDesc(r, rows));
        multiset([rows[0]] + InsertDesc(r, tail));
        multiset([rows[0]]) + multiset(InsertDesc(r, tail));
        multiset([rows[0]]) + multiset(tail) + multiset{r};
        multiset([rows[0]] + tail) + multiset{r};
      }
    }
  }

  lemma {:induction false} InsertDescSorted(r: MealRow, rows: seq<MealRow>)
    requires SortedDesc(rows)
    ensures SortedDesc(InsertDesc(r, rows))
  {
    if rows == [] {
    } else if TimeLe(rows[0].timestamp, r.timestamp) {
      assert rows == [rows[0]] + rows[1..];
      forall x | x in rows ensures TimeLe(x.timestamp, r.timestamp) {
        if x != rows[0] {
          HeadIsLatest(rows, x);
          TimeLeTransitive(x.timestamp, rows[0].timestamp, r.timestamp);
        }
      }
      PrependLatest(r, rows);
    } else {
      var tail := InsertDesc(r, rows[1..]);
      assert SortedDesc(rows[1..]);
      InsertDescSorted(r, rows[1..]);
      InsertDescPermutes(r, rows[1..]);
      TimeLeTotal(rows[0].timestamp, r.timestamp);
      forall x | x in tail ensures TimeLe(x.timestamp, rows[0].timestamp) {
        assert x in multiset(tail);
        if x != r { HeadIsLatest(rows, x); }
      }
      PrependLatest(rows[0], tail);
    }
  }

  /** In a latest-first list the head is no earlier than any other row. */
  lemma HeadIsLatest(rows: seq<MealRow>, x: MealRow)
    requires SortedDesc(rows) && rows != [] && x in rows[1..]
    ensures TimeLe(x.timestamp, rows[0].timestamp)
  {
    var k :| 0 <= k < |rows[1..]| && rows[1..][k] == x;
    assert rows[k + 1] == x;
  }

  /** A row no earlier than the head of a latest-first list can go in front of it. */
  lemma PrependLatest(r: MealRow, rows: seq<MealRow>)
    requires SortedDesc(rows)
    requires forall x :: x in rows ==> TimeLe(x.timestamp, r.timestamp)
    ensures SortedDesc([r] + rows)
  {
    var s := [r] + rows;
    forall i, j | 0 <= i < j < |s| ensures TimeLe(s[j].timestamp, s[i].timestamp) {
      assert s[j] == rows[j - 1];
      if i > 0 { assert s[i] == rows[i - 1]; }
    }
  }

  lemma {:induction false} SortDescProperties(rows: seq<MealRow>)
    ensures SortedDesc(SortDesc(rows))
    ensures multiset(SortDesc(rows)) == multiset(rows)
  {
    if rows != [] {
      SortDescProperties(rows[1..]);
      InsertDescSorted(rows[0], SortDesc(rows[1..]));
      InsertDescPermutes(rows[0], SortDesc(rows[1..]));
      assert rows == [rows[0]] + rows[1..];
    }
  }

  /** LIMIT: a negative limit means no limit in SQLite. */
  function Take(rows: seq<MealRow>, limit: int): (r: seq<MealRow>)
    ensures limit >= 0 ==> |r| == if limit < |rows| then limit else |rows|
    ensures limit < 0 ==> r == rows
    ensures r <= rows
  {
    if limit < 0 || limit >= |rows| then rows else rows[..limit]
  }

  /** The header rows the meal query returns, in order. */
  function SelectRows(meals: seq<MealRow>, startDate: string, endDate: string, limit: int): seq<MealRow> {
    Take(SortDesc(Filter(meals, startDate, endDate)), limit)
  }

  /** The query returns at most `limit` rows (all matching rows when the limit is negative or
      large enough), latest first, each of them in the date range; when rows are cut off, every
      row left out is no later than every row returned. */
  lemma SelectRowsProperties(meals: seq<MealRow>, startDate: string, endDate: string, limit: int)
    ensures var r := SelectRows(meals, startDate, endDate, limit);
      && (limit >= 0 ==> |r| <= limit)
      && (limit >= 0 ==> |r| == if limit < |Filter(meals, startDate, endDate)| then limit
                                else |Filter(meals, startDate, endDate)|)
      && multiset(r) <= multiset(Filter(meals, startDate, endDate))
      && SortedDesc(r)
      && (forall x :: x in r ==> x in meals && InRange(x.timestamp, startDate, endDate))
      && (forall x, y :: x in meals && InRange(x.timestamp, startDate, endDate) && x !in r && y in r
            ==> TimeLe(x.timestamp, y.timestamp))
      && ((limit < 0 || limit >= |meals|) ==>
            forall x :: x in meals && InRange(x.timestamp, startDate, endDate) ==> x in r)
  {
    var f := Filter(meals, startDate, endDate);
    var s := SortDesc(f);
    var r := SelectRows(meals, startDate, endDate, limit);
    SelectRowsSize(meals, startDate, endDate, limit);
    SelectRowsMembers(meals, startDate, endDate, limit);
    SortDescProperties(f);
    PrefixSorted(s, r);
    forall x | x in f ensures x in s {
      assert x in multiset(f);
    }
    forall x, y | x in meals && InRange(x.timestamp, startDate, endDate) && x !in r && y in r
      ensures TimeLe(x.timestamp, y.timestamp)
    {
      PrefixIsLatest(s, r, x, y);
    }
  }

  /** LIMIT keeps exactly min(limit, matches) of the sorted matching rows, none of them twice. */
  lemma SelectRowsSize(meals: seq<MealRow>, startDate: string, endDate: string, limit: int)
    ensures var f := Filter(meals, startDate, endDate);
      var r := SelectRows(meals, startDate, endDate, limit);
      && |SortDesc(f)| == |f|
      && r <= SortDesc(f)
      && multiset(r) <= multiset(f)
      && (limit >= 0 ==> |r| == if limit < |f| then limit else |f|)
      && (limit < 0 || limit >= |f| ==> r == SortDesc(f))
  {
    var f := Filter(meals, startDate, endDate);
    var s := SortDesc(f);
    var r := SelectRows(meals, startDate, endDate, limit);
    SortDescProperties(f);
    assert |s| == |f| by { assert |multiset(s)| == |multiset(f)|; }
    assert multiset(r) <= multiset(s) by {
      assert s == r + s[|r|..];
    }
  }

  /** Every selected row is a row of the table within the date bounds. */
  lemma SelectRowsMembers(meals: seq<MealRow>, startDate: string, endDate: string, limit: int)
    ensures forall x :: x in SelectRows(meals, startDate, endDate, limit) ==>
      x in meals && InRange(x.timestamp, startDate, endDate)
  {
    var f := Filter(meals, startDate, endDate);
    var r := SelectRows(meals, startDate, endDate, limit);
    SelectRowsSize(meals, startDate, endDate, limit);
    forall x | x in r ensures x in f {
      assert x in multiset(r);
    }
  }

  /** A prefix of a latest-first list is latest-first. */
  lemma PrefixSorted(s: seq<MealRow>, r: seq<MealRow>)
    requires SortedDesc(s) && r <= s
    ensures SortedDesc(r)
  {
    forall i, j | 0 <= i < j < |r| ensures TimeLe(r[j].timestamp, r[i].timestamp) {
      assert r[i] == s[i] && r[j] == s[j];
    }
  }

  /** A row of a latest-first list left out of a prefix is no later than any row of the prefix. */
  lemma PrefixIsLatest(s: seq<MealRow>, r: seq<MealRow>, x: MealRow, y: MealRow)
    requires SortedDesc(s) && r <= s
    requires x in s && x !in r && y in r
    ensures TimeLe(x.timestamp, y.timestamp)
  {
    var i :| 0 <= i < |s| && s[i] == x;
    var j :| 0 <= j < |r| && r[j] == y;
    assert s[j] == y;
    assert forall k :: 0 <= k < |r| ==> r[k] == s[k];
  }

  // ---------------------------------------------------------------------------------------
  // Reading rows back into meals

  /** One scanned header row turned into a meal: the three time columns are parsed as RFC 3339,
      in this order, and the meal's foods are its food rows. */
  function ReadRow(row: MealRow, foods: seq<FoodRow>, codec: Codec): Result<Meal, StoreError> {
    match codec.parse(codec.encode(row.timestamp))
    case None => Failure(TimestampUnparsable)
    case Some(timestamp) =>
      match codec.parse(codec.encode(row.createdAt))
      case None => Failure(CreatedAtUnparsable)
      case Some(createdAt) =>
        match codec.parse(codec.encode(row.updatedAt))
        case None => Failure(UpdatedAtUnparsable)
        case Some(updatedAt) =>
          Success(Meal(row.id, row.description, timestamp, FoodsOf(foods, row.id), row.totalCarbs,
                       row.confidence, createdAt, updatedAt, row.source))
  }

  /** All selected rows read back in order; the first row that fails fails the whole read. */
  function ReadAll(rows: seq<MealRow>, foods: seq<FoodRow>, codec: Codec): Result<seq<Meal>, StoreError> {
    if rows == [] then Success([])
    else match ReadAll(rows[..|rows| - 1], foods, codec)
      case Failure(e) => Failure(e)
      case Success(meals) =>
        match ReadRow(rows[|rows| - 1], foods, codec)
        case Failure(e) => Failure(e)
        case Success(m) => Success(meals + [m])
  }

  lemma {:induction false} ReadAllFailureSticks(rows: seq<MealRow>, n: nat, foods: seq<FoodRow>, codec: Codec)
    requires n <= |rows| && ReadAll(rows[..n], foods, codec).Failure?
    ensures ReadAll(rows, foods, codec) == ReadAll(rows[..n], foods, codec)
    decreases |rows| - n
  {
    if n < |rows| {
      assert rows[..n + 1][..n] == rows[..n];
      ReadAllFailureSticks(rows, n + 1, foods, codec);
    } else {
      assert rows[..n] == rows;
    }
  }

  /** A successful read has one meal per row, each the row read back; a read fails exactly when
      some row fails, with the error of the first such row. */
  lemma ReadAllMeaning(rows: seq<MealRow>, foods: seq<FoodRow>, codec: Codec)
    ensures var r := ReadAll(rows, foods, codec);
      && (r.Success? ==>
            && |r.value| == |rows|
            && forall i :: 0 <= i < |rows| ==> ReadRow(rows[i], foods, codec) == Success(r.value[i]))
      && (r.Failure? <==> exists i :: 0 <= i < |rows| && ReadRow(rows[i], foods, codec).Failure?)
      && (forall i :: 0 <= i < |rows| && ReadRow(rows[i], foods, codec).Failure? &&
            (forall k :: 0 <= k < i ==> ReadRow(rows[k], foods, codec).Success?)
            ==> r == Failure(ReadRow(rows[i], foods, codec).error))
  {
    ReadAllSuccess(rows, foods, codec);
    ReadAllSucceedsIfEveryRowReads(rows, foods, codec);
    forall i | 0 <= i < |rows| && ReadRow(rows[i], foods, codec).Failure? &&
               (forall k :: 0 <= k < i ==> ReadRow(rows[k], foods, codec).Success?)
      ensures ReadAll(rows, foods, codec) == Failure(ReadRow(rows[i], foods, codec).error)
    {
      ReadAllFirstError(rows, i, foods, codec);
    }
  }

  lemma {:induction false} ReadAllSuccess(rows: seq<MealRow>, foods: seq<FoodRow>, codec: Codec)
    ensures var r := ReadAll(rows, foods, codec);
      r.Success? ==>
        && |r.value| == |rows|
        && forall i :: 0 <= i < |rows| ==> ReadRow(rows[i], foods, codec) == Success(r.value[i])
  {
    if rows != [] && ReadAll(rows, foods, codec).Success? {
      var init := rows[..|rows| - 1];
      ReadAllSnoc(rows, foods, codec);
      ReadAllSuccess(init, foods, codec);
      var all := ReadAll(rows, foods, codec).value;
      var prefix := ReadAll(init, foods, codec).value;
      forall i | 0 <= i < |rows| ensures ReadRow(rows[i], foods, codec) == Success(all[i]) {
        if i < |init| { assert init[i] == rows[i] && all[i] == prefix[i]; }
      }
    }
  }

  /** A successful read of several rows is the read of all but the last, then the last. */
  lemma ReadAllSnoc(rows: seq<MealRow>, foods: seq<FoodRow>, codec: Codec)
    requires rows != [] && ReadAll(rows, foods, codec).Success?
    ensures var init := ReadAll(rows[..|rows| - 1], foods, codec);
      var last := ReadRow(rows[|rows| - 1], foods, codec);
      && init.Success? && last.Success?
      && ReadAll(rows, foods, codec).value == init.value + [last.value]
  {
  }

  lemma {:induction false} ReadAllSucceedsIfEveryRowReads(rows: seq<MealRow>, foods: seq<FoodRow>, codec: Codec)
    ensures (forall i :: 0 <= i < |rows| ==> ReadRow(rows[i], foods, codec).Success?)
      ==> ReadAll(rows, foods, codec).Success?
  {
    if rows != [] {
      var init := rows[..|rows| - 1];
      assert forall i :: 0 <= i < |init| ==> init[i] == rows[i];
      ReadAllSucceedsIfEveryRowReads(init, foods, codec);
    }
  }

  lemma ReadAllFirstError(rows: seq<MealRow>, i: nat, foods: seq<FoodRow>, codec: Codec)
    requires i < |rows| && ReadRow(rows[i], foods, codec).Failure?
    requires forall k :: 0 <= k < i ==> ReadRow(rows[k], foods, codec).Success?
    ensures ReadAll(rows, foods, codec) == Failure(ReadRow(rows[i], foods, codec).error)
  {
    var before := rows[..i];
    assert forall k :: 0 <= k < |before| ==> before[k] == rows[k];
    ReadAllSucceedsIfEveryRowReads(before, foods, codec);
    assert rows[..i + 1][..i] == before;
    ReadAllFailureSticks(rows, i + 1, foods, codec);
  }

  /** With a codec that round-trips every time, each row reads back without error. */
  lemma ReadRowRoundTrip(row: MealRow, foods: seq<FoodRow>, codec: Codec)
    requires RoundTrips(codec)
    ensures ReadRow(row, foods, codec) == Success(Meal(row.id, row.description, row.timestamp,
              FoodsOf(foods, row.id), row.totalCarbs, row.confidence, row.createdAt, row.updatedAt, row.source))
  {
    assert codec.parse(codec.encode(row.timestamp)) == Some(row.timestamp);
    assert codec.parse(codec.encode(row.createdAt)) == Some(row.createdAt);
    assert codec.parse(codec.encode(row.updatedAt)) == Some(row.updatedAt);
  }

  /** What `GetMeals` returns for a database. */
  function QueryMeals(db: Db, codec: Codec, startDate: string, endDate: string, limit: int): Result<seq<Meal>, StoreError> {
    ReadAll(SelectRows(db.meals, startDate, endDate, limit), db.foods, codec)
  }

  /** `GetMeals` never returns more than `limit` meals, and each meal carries exactly its own
      food rows in row-id order. */
  lemma QueryMealsShape(db: Db, codec: Codec, startDate: string, endDate: string, limit: int)
    ensures var r := QueryMeals(db, codec, startDate, endDate, limit);
      r.Success? ==>
        && |r.value| == |SelectRows(db.meals, startDate, endDate, limit)|
        && (limit >= 0 ==> |r.value| <= limit)
        && (forall i :: 0 <= i < |r.value| ==>
              r.value[i].foods == FoodsOf(db.foods, r.value[i].id)
              && r.value[i].id in Ids(db.meals))
  {
    var rows := SelectRows(db.meals, startDate, endDate, limit);
    SelectRowsMembers(db.meals, startDate, endDate, limit);
    ReadAllSuccess(rows, db.foods, codec);
    var r := QueryMeals(db, codec, startDate, endDate, limit);
    if r.Success? {
      forall i | 0 <= i < |r.value|
        ensures r.value[i].foods == FoodsOf(db.foods, r.value[i].id) && r.value[i].id in Ids(db.meals)
      {
        assert ReadRow(rows[i], db.foods, codec) == Success(r.value[i]);
        assert rows[i] in rows;
      }
    }
  }

  /** With a round-tripping codec the meals come back latest first, all within the bounds. */
  lemma QueryMealsOrdered(db: Db, codec: Codec, startDate: string, endDate: string, limit: int)
    requires RoundTrips(codec)
    ensures var r := QueryMeals(db, codec, startDate, endDate, limit);
      && r.Success?
      && (forall i, j :: 0 <= i < j < |r.value| ==> TimeLe(r.value[j].timestamp, r.value[i].timestamp))
      && (forall i :: 0 <= i < |r.value| ==> InRange(r.value[i].timestamp, startDate, endDate))
  {
    var rows := SelectRows(db.meals, startDate, endDate, limit);
    SelectRowsProperties(db.meals, startDate, endDate, limit);
    ReadAllMeaning(rows, db.foods, codec);
    forall i | 0 <= i < |rows| ensures ReadRow(rows[i], db.foods, codec).Success? {
      ReadRowRoundTrip(rows[i], db.foods, codec);
    }
    var r := QueryMeals(db, codec, startDate, endDate, limit);
    forall i | 0 <= i < |rows| ensures r.value[i].timestamp == rows[i].timestamp {
      ReadRowRoundTrip(rows[i], db.foods, codec);
    }
    forall i | 0 <= i < |rows| ensures InRange(r.value[i].timestamp, startDate, endDate) {
      assert rows[i] in rows;
    }
  }

  /** A stored time that does not parse back fails the whole call, whichever column it is in;
      the meal is not skipped. */
  lemma CorruptRowFailsQuery(db: Db, codec: Codec, startDate: string, endDate: string, limit: int, row: MealRow)
    requires row in SelectRows(db.meals, startDate, endDate, limit)
    requires codec.parse(codec.encode(row.timestamp)).None?
          || codec.parse(codec.encode(row.createdAt)).None?
          || codec.parse(codec.encode(row.updatedAt)).None?
    ensures QueryMeals(db, codec, startDate, endDate, limit).Failure?
  {
    var rows := SelectRows(db.meals, startDate, endDate, limit);
    ReadAllMeaning(rows, db.foods, codec);
    var i :| 0 <= i < |rows| && rows[i] == row;
    assert ReadRow(rows[i], db.foods, codec).Failure?;
  }

  /** Round trip: a meal saved under a fresh id is returned, equal in every field and with the
      same foods in the same order, by a query whose range holds its date and whose limit leaves
      no row out. */
  lemma SaveThenQueryRoundTrip(db: Db, codec: Codec, meal: Meal, startDate: string, endDate: string, limit: int)
    requires WellFormed(db) && meal.id !in Ids(db.meals) && RoundTrips(codec)
    requires InRange(meal.timestamp, startDate, endDate)
    requires limit < 0 || limit > |db.meals|
    ensures var r := QueryMeals(Inserted(db, meal), codec, startDate, endDate, limit);
      r.Success? && meal in r.value
  {
    var n := Inserted(db, meal);
    var rows := SelectRows(n.meals, startDate, endDate, limit);
    SelectRowsProperties(n.meals, startDate, endDate, limit);
    QueryMealsOrdered(n, codec, startDate, endDate, limit);
    ReadAllMeaning(rows, n.foods, codec);
    var header := HeaderRow(meal);
    assert header in n.meals;
    assert header in rows;
    var i :| 0 <= i < |rows| && rows[i] == header;
    ReadRowRoundTrip(header, n.foods, codec);
    InsertedFoods(db, meal);
    var r := QueryMeals(n, codec, startDate, endDate, limit);
    assert r.value[i] == meal;
  }

  /** Of meals dated 2023-12-31 and 2024-01-15, a query for January returns only the second. */
  lemma JanuaryQueryExample(a: MealRow, b: MealRow)
    requires a.timestamp.date == "2023-12-31" && b.timestamp.date == "2024-01-15"
    ensures SelectRows([a, b], "2024-01-01", "2024-01-31", 10) == [b]
  {
    assert !InRange(a.timestamp, "2024-01-01", "2024-01-31") by {
      StrLtAt("2023-12-31", "2024-01-01", 3);
    }
    assert InRange(b.timestamp, "2024-01-01", "2024-01-31") by {
      StrLtAt("2024-01-01", "2024-01-15", 8);
      StrLtAt("2024-01-15", "2024-01-31", 8);
    }
    assert Filter([a, b], "2024-01-01", "2024-01-31") == [b] by {
      assert [a, b][1..] == [b];
      assert [b][1..] == [];
    }
    assert SortDesc([b]) == [b] by { assert [b][1..] == []; }
  }

  // ---------------------------------------------------------------------------------------

  /** The store object: both tables and the counter, which `SaveMeal` replaces in one step at
      commit; the time codec is fixed when the store is opened. */
  class SQLiteStorage {
    var meals: seq<MealRow>
    var foods: seq<FoodRow>
    var nextFoodId: nat
    const codec: Codec

    function State(): Db
      reads this
    {
      Db(meals, foods, nextFoodId)
    }

    predicate Valid()
      reads this
    {
      WellFormed(State())
    }

    /** An empty database; AUTOINCREMENT ids start at 1. */
    constructor (codec: Codec)
      ensures Valid() && State() == Db([], [], 1) && this.codec == codec
    {
      meals, foods, nextFoodId := [], [], 1;
      this.codec := codec;
    }

    /** Inserts the header and then the foods in one transaction: all rows or none. */
    method SaveMeal(meal: Meal, fault: Fault) returns (err: Option<StoreError>)
      requires Valid()
      modifies this
      ensures Valid()
      ensures err == SaveOutcome(old(State()), meal, fault)
      ensures State() == if err.None? then Inserted(old(State()), meal) else old(State())
    {
      ghost var db := State();
      if fault.BeginFails? {
        return Some(BeginFailed);
      }
      // the transaction works on its own copy of the tables until COMMIT
      var txMeals, txFoods, txNext := meals, foods, nextFoodId;
      if meal.id in Ids(txMeals) || fault == StatementFails(0) {
        assert SaveOutcome(db, meal, fault) == Some(InsertMealFailed);
        return Some(InsertMealFailed);
      }
      txMeals := txMeals + [HeaderRow(meal)];
      var i := 0;
      while i < |meal.foods|
        invariant 0 <= i <= |meal.foods|
        invariant txFoods == db.foods + FoodRows(meal.id, meal.foods[..i], db.nextFoodId)
        invariant txNext == db.nextFoodId + i
        invariant !(fault.StatementFails? && 1 <= fault.k <= i)
        invariant unchanged(this)
      {
        if fault == StatementFails(i + 1) {
          assert SaveOutcome(db, meal, fault) == Some(InsertFoodFailed);
          return Some(InsertFoodFailed);
        }
        FoodRowsSnoc(meal.id, meal.foods, db.nextFoodId, i);
        txFoods := txFoods + [FoodRow(txNext, meal.id, meal.foods[i])];
        txNext := txNext + 1;
        i := i + 1;
      }
      if fault.CommitFails? {
        assert SaveOutcome(db, meal, fault) == Some(CommitFailed);
        return Some(CommitFailed);
      }
      assert meal.foods[..i] == meal.foods;
      assert SaveOutcome(db, meal, fault) == None;
      InsertedWellFormed(db, meal);
      meals, foods, nextFoodId := txMeals, txFoods, txNext;
      assert State() == Inserted(db, meal);
      return None;
    }

    /** `loadFoodsForMeal`: the meal with its foods replaced by its food rows, by ascending id. */
    method LoadFoodsForMeal(meal: Meal) returns (r: Meal)
      ensures r == meal.(foods := FoodsOf(foods, meal.id))
    {
      var loaded: seq<Food> := [];
      var i := 0;
      while i < |foods|
        invariant 0 <= i <= |foods|
        invariant loaded == FoodsOf(foods[..i], meal.id)
      {
        assert foods[..i + 1] == foods[..i] + [foods[i]];
        FoodRowsOfAppend(foods[..i], [foods[i]], meal.id);
        if foods[i].mealId == meal.id {
          loaded := loaded + [foods[i].food];
        }
        i := i + 1;
      }
      assert foods[..i] == foods;
      r := meal.(foods := loaded);
    }

    /** `GetMeals`: runs the meal query, then reads each returned row back in order, failing on
      the first time column that does not parse. */
    method GetMeals(startDate: string, endDate: string, limit: int) returns (r: Result<seq<Meal>, StoreError>)
      ensures r == QueryMeals(State(), codec, startDate, endDate, limit)
    {
      var rows := SelectRows(meals, startDate, endDate, limit);
      var result: seq<Meal> := [];
      var i := 0;
      while i < |rows|
        invariant 0 <= i <= |rows|
        invariant ReadAll(rows[..i], foods, codec) == Success(result)
      {
        var row := rows[i];
        assert rows[..i + 1][..i] == rows[..i];
        var timestamp := codec.parse(codec.encode(row.timestamp));
        if timestamp.None? {
          ReadAllFailureSticks(rows, i + 1, foods, codec);
          return Failure(TimestampUnparsable);
        }
        var createdAt := codec.parse(codec.encode(row.createdAt));
        if createdAt.None? {
          ReadAllFailureSticks(rows, i + 1, foods, codec);
          return Failure(CreatedAtUnparsable);
        }
        var updatedAt := codec.parse(codec.encode(row.updatedAt));
        if updatedAt.None? {
          ReadAllFailureSticks(rows, i + 1, foods, codec);
          return Failure(UpdatedAtUnparsable);
        }
        var meal := Meal(row.id, row.description, timestamp.value, [], row.totalCarbs,
                         row.confidence, createdAt.value, updatedAt.value, row.source);
        meal := LoadFoodsForMeal(meal);
        result := result + [meal];
        i := i + 1;
      }
      assert rows[..i] == rows;
      return Success(result);
    }
  }
}
