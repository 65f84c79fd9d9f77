// Statistics (ThongKeController): totals, per-category breakdowns with
// their percentage share, per-day series, the twelve months of a year and
// the trend over the last n months, for the signed-in user's incomes and
// expenses. Incomes are placed by their receipt date throughout.
module ThongKe {
  import opened Common
  import opened Calendar
  import opened Entities
  import opened Store
  import opened NganSach
  import opened ChiTieu

  // ----- GroupBy(key).Select(Sum) ---------------------------------------------

  /** One group of a GroupBy: its key and the sum of its amounts. */
  datatype Bucket<K> = Bucket(key: K, total: int)

  function BucketTotal<K>(b: Bucket<K>): int { b.total }

  /** The position of the group with key k, if there is one. */
  function FindBucket<K(==)>(bs: seq<Bucket<K>>, k: K): (r: Option<nat>)
    ensures r.Some? ==> r.value < |bs| && bs[r.value].key == k
    ensures r.None? ==> forall j :: 0 <= j < |bs| ==> bs[j].key != k
  {
    if bs == [] then None
    else if bs[|bs| - 1].key == k then Some(|bs| - 1)
    else FindBucket(bs[..|bs| - 1], k)
  }

  /** The reference for a group's sum: the amounts of exactly the elements with key k. */
  function KeyTotal<T, K(==)>(s: seq<T>, key: T -> K, amount: T -> int, k: K): int
  {
    if s == [] then 0
    else KeyTotal(s[..|s| - 1], key, amount, k) + (if key(s[|s| - 1]) == k then amount(s[|s| - 1]) else 0)
  }

  lemma {:induction false} KeyTotalAbsent<T, K>(s: seq<T>, key: T -> K, amount: T -> int, k: K)
    requires forall x :: x in s ==> key(x) != k
    ensures KeyTotal(s, key, amount, k) == 0
    decreases |s|
  {
    if s != [] {
      assert s[|s| - 1] in s;
      KeyTotalAbsent(s[..|s| - 1], key, amount, k);
    }
  }

  /**
   * LINQ GroupBy(key) followed by a Sum per group: the groups in order of
   * their key's first appearance, each holding the sum of its elements.
   */
  function GroupSums<T, K(==)>(s: seq<T>, key: T -> K, amount: T -> int): (r: seq<Bucket<K>>)
    ensures |r| <= |s|
  {
    if s == [] then []
    else
      var g := GroupSums(s[..|s| - 1], key, amount);
      var x := s[|s| - 1];
      var found := FindBucket(g, key(x));
      if found.Some? then g[found.value := Bucket(key(x), g[found.value].total + amount(x))]
      else g + [Bucket(key(x), amount(x))]
  }

  predicate DistinctKeys<K(==)>(r: seq<Bucket<K>>)
  {
    forall i, j :: 0 <= i < j < |r| ==> r[i].key != r[j].key
  }

  /** No key has two groups. */
  lemma {:induction false} GroupSumsDistinct<T, K>(s: seq<T>, key: T -> K, amount: T -> int)
    ensures DistinctKeys(GroupSums(s, key, amount))
    decreases |s|
  {
    if s != [] {
      var p, x := s[..|s| - 1], s[|s| - 1];
      GroupSumsDistinct(p, key, amount);
      var g := GroupSums(p, key, amount);
      var found := FindBucket(g, key(x));
      if found.Some? {
        var r := g[found.value := Bucket(key(x), g[found.value].total + amount(x))];
        assert forall j :: 0 <= j < |r| ==> r[j].key == g[j].key;
      }
    }
  }

  predicate HasGroup<K(==)>(r: seq<Bucket<K>>, k: K)
  {
    exists j :: 0 <= j < |r| && r[j].key == k
  }

  predicate HasMember<T, K(==)>(s: seq<T>, key: T -> K, k: K)
  {
    exists i :: 0 <= i < |s| && key(s[i]) == k
  }

  /** Every element's key has a group. */
  lemma {:induction false} GroupSumsCover<T, K>(s: seq<T>, key: T -> K, amount: T -> int)
    ensures forall x :: x in s ==> HasGroup(GroupSums(s, key, amount), key(x))
    decreases |s|
  {
    if s != [] {
      var p, x := s[..|s| - 1], s[|s| - 1];
      assert s == p + [x];
      GroupSumsCover(p, key, amount);
      var g := GroupSums(p, key, amount);
      var r := GroupSums(s, key, amount);
      var found := FindBucket(g, key(x));
      forall y | y in s
        ensures HasGroup(r, key(y))
      {
        if y == x {
          if found.Some? {
            assert r[found.value].key == key(y);
          } else {
            assert r[|g|].key == key(y);
          }
        } else {
          assert y in p && HasGroup(g, key(y));
          var j :| 0 <= j < |g| && g[j].key == key(y);
          assert r[j].key == key(y);
        }
      }
    }
  }

  /** Every group has an element. */
  lemma {:induction false} GroupSumsNonEmpty<T, K>(s: seq<T>, key: T -> K, amount: T -> int)
    ensures forall j :: 0 <= j < |GroupSums(s, key, amount)| ==> HasMember(s, key, GroupSums(s, key, amount)[j].key)
    decreases |s|
  {
    if s != [] {
      var p, x := s[..|s| - 1], s[|s| - 1];
      assert s == p + [x];
      GroupSumsNonEmpty(p, key, amount);
      var g := GroupSums(p, key, amount);
      var r := GroupSums(s, key, amount);
      forall j | 0 <= j < |r|
        ensures HasMember(s, key, r[j].key)
      {
        if j < |g| && r[j].key == g[j].key {
          var i :| 0 <= i < |p| && key(p[i]) == g[j].key;
          assert s[i] == p[i];
        } else {
          assert r[j].key == key(s[|s| - 1]);
        }
      }
    }
  }

  lemma KeyTotalSnoc<T, K>(s: seq<T>, key: T -> K, amount: T -> int, k: K)
    requires s != []
    ensures KeyTotal(s, key, amount, k) ==
      KeyTotal(s[..|s| - 1], key, amount, k) + (if key(s[|s| - 1]) == k then amount(s[|s| - 1]) else 0)
  {
  }

  /** Each group's sum is the sum of the elements with its key. */
  lemma {:induction false} GroupSumsTotals<T, K>(s: seq<T>, key: T -> K, amount: T -> int)
    ensures forall j :: 0 <= j < |GroupSums(s, key, amount)| ==>
      GroupSums(s, key, amount)[j].total == KeyTotal(s, key, amount, GroupSums(s, key, amount)[j].key)
    decreases |s|
  {
    if s != [] {
      var p, x := s[..|s| - 1], s[|s| - 1];
      GroupSumsTotals(p, key, amount);
      GroupSumsDistinct(p, key, amount);
      var g := GroupSums(p, key, amount);
      var r := GroupSums(s, key, amount);
      var found := FindBucket(g, key(x));
      if found.Some? {
        var f := found.value;
        assert r == g[f := Bucket(key(x), g[f].total + amount(x))];
        forall j | 0 <= j < |r|
          ensures r[j].total == KeyTotal(s, key, amount, r[j].key)
        {
          KeyTotalSnoc(s, key, amount, r[j].key);
          if j != f {
            assert g[j].key != g[f].key;
          }
        }
      } else {
        assert r == g + [Bucket(key(x), amount(x))];
        assert s == p + [x];
        GroupSumsCover(p, key, amount);
        KeyTotalAbsent(p, key, amount, key(x));
        forall j | 0 <= j < |r|
          ensures r[j].total == KeyTotal(s, key, amount, r[j].key)
        {
          KeyTotalSnoc(s, key, amount, r[j].key);
          if j < |g| {
            assert r[j] == g[j];
          }
        }
      }
    }
  }

  /** The groups' sums add up to the sum of the whole list. */
  lemma {:induction false} GroupSumsAddUp<T, K>(s: seq<T>, key: T -> K, amount: T -> int)
    ensures SumOf(GroupSums(s, key, amount), BucketTotal) == SumOf(s, amount)
    decreases |s|
  {
    if s != [] {
      var p, x := s[..|s| - 1], s[|s| - 1];
      assert s == p + [x];
      GroupSumsAddUp(p, key, amount);
      SumOfConcat(p, [x], amount);
      assert [x][1..] == [];
      var g := GroupSums(p, key, amount);
      var found := FindBucket(g, key(x));
      if found.Some? {
        SumOfUpdate(g, found.value, Bucket(key(x), g[found.value].total + amount(x)), BucketTotal);
      } else {
        var b := Bucket(key(x), amount(x));
        SumOfConcat(g, [b], BucketTotal);
        assert [b][1..] == [];
      }
    }
  }

  // ----- Selecting a user's rows in a date range ---------------------------------

  /** The columns of a table the statistics read. */
  datatype Columns<!T> = Columns(owner: T -> Option<int>, category: T -> Option<int>, date: T -> Date, amount: T -> int)

  function ExpenseOwner(e: Expense): Option<int> { e.owner }
  function ExpenseCategory(e: Expense): Option<int> { e.category }
  function ExpenseDate(e: Expense): Date { e.date }
  function IncomeOwner(i: Income): Option<int> { i.owner }
  function IncomeCategory(i: Income): Option<int> { i.category }
  /** Incomes are dated by NgayNhap, the day they were received, not by the month they count for. */
  function IncomeReceived(i: Income): Date { i.received }

  const ExpenseColumns: Columns<Expense> := Columns(ExpenseOwner, ExpenseCategory, ExpenseDate, ExpenseAmount)
  const IncomeColumns: Columns<Income> := Columns(IncomeOwner, IncomeCategory, IncomeReceived, IncomeAmount)

  /** `d >= from && d <= to` on nullable bounds: false when either bound is null. */
  predicate InRange(d: Date, range: (Option<Date>, Option<Date>))
  {
    range.0.Some? && range.1.Some? && InWindow(d, range.0.value, range.1.value)
  }

  /** A row of the user's dated within the range. */
  predicate Picked<T>(x: T, cols: Columns<T>, user: int, range: (Option<Date>, Option<Date>))
  {
    cols.owner(x) == Some(user) && InRange(cols.date(x), range)
  }

  /** The user's rows dated within the range, in table order, each as often as it is stored. */
  function Selected<T>(s: seq<T>, cols: Columns<T>, user: int, range: (Option<Date>, Option<Date>)): (r: seq<T>)
    ensures forall x :: x in r ==> x in s && cols.owner(x) == Some(user) && InRange(cols.date(x), range)
    ensures forall x :: x in s && cols.owner(x) == Some(user) && InRange(cols.date(x), range) ==> x in r
    ensures IsSubsequence(r, s)
    ensures forall x :: x in s ==> multiset(r)[x] == if Picked(x, cols, user, range) then multiset(s)[x] else 0
  {
    var p := (x: T) => cols.owner(x) == Some(user) && InRange(cols.date(x), range);
    FilterKeepsOrder(s, p);
    FilterCounts(s, p);
    Filter(s, p)
  }

  /** The sum of the amounts of the user's rows within the range, row by row. */
  function RangeTotal<T>(s: seq<T>, cols: Columns<T>, user: int, range: (Option<Date>, Option<Date>)): Money
    decreases |s|
  {
    if s == [] then 0
    else (if Picked(s[0], cols, user, range) then cols.amount(s[0]) else 0) + RangeTotal(s[1..], cols, user, range)
  }

  /** The row-by-row total is the Sum over the Where. */
  lemma {:induction false} RangeTotalIsSumOfSelected<T>(s: seq<T>, cols: Columns<T>, user: int, range: (Option<Date>, Option<Date>))
    ensures RangeTotal(s, cols, user, range) == SumOf(Selected(s, cols, user, range), cols.amount)
    decreases |s|
  {
    if s != [] {
      RangeTotalIsSumOfSelected(s[1..], cols, user, range);
      var rest := Selected(s[1..], cols, user, range);
      if Picked(s[0], cols, user, range) {
        assert Selected(s, cols, user, range) == [s[0]] + rest;
        assert ([s[0]] + rest)[1..] == rest;
      }
    }
  }

  /**
   * A range that two other ranges split without overlap, as far as the rows'
   * dates go, has the sum of their totals.
   */
  lemma {:induction false} RangeTotalSplit<T>(s: seq<T>, cols: Columns<T>, user: int,
                                             whole: (Option<Date>, Option<Date>), a: (Option<Date>, Option<Date>), b: (Option<Date>, Option<Date>))
    requires forall x :: x in s ==> (InRange(cols.date(x), whole) <==> InRange(cols.date(x), a) || InRange(cols.date(x), b))
    requires forall x :: x in s ==> !(InRange(cols.date(x), a) && InRange(cols.date(x), b))
    ensures RangeTotal(s, cols, user, whole) == RangeTotal(s, cols, user, a) + RangeTotal(s, cols, user, b)
    decreases |s|
  {
    if s != [] {
      assert s[0] in s;
      assert forall x :: x in s[1..] ==> x in s;
      RangeTotalSplit(s[1..], cols, user, whole, a, b);
    }
  }

  // ----- Per-day series -----------------------------------------------------------

  function DayKey(b: Bucket<Date>): int { DateKey(b.key) }

  /** GroupBy(date).Select(Sum).OrderBy(date): the daily totals by ascending date. */
  function DailySeries<T>(rows: seq<T>, date: T -> Date, amount: T -> int): (r: seq<Bucket<Date>>)
    ensures SortedBy(r, DayKey) && multiset(r) == multiset(GroupSums(rows, date, amount))
  {
    SortBy(GroupSums(rows, date, amount), DayKey)
  }

  /**
   * The daily series of rows with valid dates has one entry per distinct
   * date, strictly ascending, each holding the sum of that day's rows.
   */
  lemma DailySeriesShape<T>(rows: seq<T>, date: T -> Date, amount: T -> int)
    requires forall x :: x in rows ==> ValidDate(date(x))
    ensures var r := DailySeries(rows, date, amount);
      (forall a, b :: 0 <= a < b < |r| ==> DayKey(r[a]) < DayKey(r[b])) &&
      (forall x :: x in rows ==> exists j :: 0 <= j < |r| && r[j].key == date(x)) &&
      (forall j :: 0 <= j < |r| ==> r[j].total == KeyTotal(rows, date, amount, r[j].key))
  {
    DailyAscending(rows, date, amount);
    DailyCover(rows, date, amount);
    DailyTotals(rows, date, amount);
  }

  lemma DailyAscending<T>(rows: seq<T>, date: T -> Date, amount: T -> int)
    requires forall x :: x in rows ==> ValidDate(date(x))
    ensures var r := DailySeries(rows, date, amount);
      forall a, b :: 0 <= a < b < |r| ==> DayKey(r[a]) < DayKey(r[b])
  {
    var g := GroupSums(rows, date, amount);
    var r := DailySeries(rows, date, amount);
    GroupSumsDistinct(rows, date, amount);
    GroupSumsNonEmpty(rows, date, amount);
    forall i, j | 0 <= i < j < |g|
      ensures DayKey(g[i]) != DayKey(g[j])
    {
      var a :| 0 <= a < |rows| && date(rows[a]) == g[i].key;
      var b :| 0 <= b < |rows| && date(rows[b]) == g[j].key;
      assert rows[a] in rows && rows[b] in rows;
      DateKeyLexicographic(g[i].key, g[j].key);
    }
    SortedDistinct(r, g, DayKey);
  }

  lemma DailyCover<T>(rows: seq<T>, date: T -> Date, amount: T -> int)
    ensures var r := DailySeries(rows, date, amount);
      forall x :: x in rows ==> exists j :: 0 <= j < |r| && r[j].key == date(x)
  {
    var g := GroupSums(rows, date, amount);
    var r := DailySeries(rows, date, amount);
    GroupSumsCover(rows, date, amount);
    SameMembers(r, g);
    forall x | x in rows
      ensures exists j :: 0 <= j < |r| && r[j].key == date(x)
    {
      assert HasGroup(g, date(x));
      var i :| 0 <= i < |g| && g[i].key == date(x);
      assert g[i] in r;
    }
  }

  lemma DailyTotals<T>(rows: seq<T>, date: T -> Date, amount: T -> int)
    ensures var r := DailySeries(rows, date, amount);
      forall j :: 0 <= j < |r| ==> r[j].total == KeyTotal(rows, date, amount, r[j].key)
  {
    var g := GroupSums(rows, date, amount);
    var r := DailySeries(rows, date, amount);
    GroupSumsTotals(rows, date, amount);
    SameMembers(r, g);
    forall j | 0 <= j < |r|
      ensures r[j].total == KeyTotal(rows, date, amount, r[j].key)
    {
      assert r[j] in g;
      var i :| 0 <= i < |g| && g[i] == r[j];
      assert g[i].total == KeyTotal(rows, date, amount, g[i].key);
    }
  }

  // ----- Per-category breakdown with percentages -------------------------------

  /** One row of a per-category table: the category, its total and its share in hundredths of a percent. */
  datatype CategoryTotal = CategoryTotal(category: Option<int>, total: Money, percent: int)

  function CategoryTotalOf(c: CategoryTotal): int { c.total }

  /** The groups as table rows whose share is not yet set (PhanTram starts at 0). */
  function CategoryRows(bs: seq<Bucket<Option<int>>>): (r: seq<CategoryTotal>)
    ensures |r| == |bs|
    ensures forall j :: 0 <= j < |r| ==> r[j] == CategoryTotal(bs[j].key, bs[j].total, 0)
    ensures SumOf(r, CategoryTotalOf) == SumOf(bs, BucketTotal)
  {
    if bs == [] then []
    else
      var rest := CategoryRows(bs[1..]);
      assert ([CategoryTotal(bs[0].key, bs[0].total, 0)] + rest)[1..] == rest;
      [CategoryTotal(bs[0].key, bs[0].total, 0)] + rest
  }

  /** The rows after the percentage loop: each share set from its total when the overall total is positive. */
  function WithPercents(rows: seq<CategoryTotal>, whole: Money): (r: seq<CategoryTotal>)
    ensures |r| == |rows|
  {
    if whole > 0 then seq(|rows|, i requires 0 <= i < |rows| => rows[i].(percent := UsagePercent(rows[i].total, whole)))
    else rows
  }

  /** The percentage loop leaves the categories and totals alone, so the totals still add up. */
  lemma WithPercentsKeepsTotals(rows: seq<CategoryTotal>, whole: Money)
    ensures forall j :: 0 <= j < |rows| ==>
      WithPercents(rows, whole)[j].category == rows[j].category && WithPercents(rows, whole)[j].total == rows[j].total
    ensures SumOf(WithPercents(rows, whole), CategoryTotalOf) == SumOf(rows, CategoryTotalOf)
  {
    var r := WithPercents(rows, whole);
    SumOfPointwiseWeak(r, rows, CategoryTotalOf);
    SumOfPointwiseWeak(rows, r, CategoryTotalOf);
  }

  /** A share of a positive whole lies between 0% and 100%. */
  lemma ShareBounds(part: Money, whole: Money)
    requires 0 <= part <= whole && whole > 0
    ensures 0 <= UsagePercent(part, whole) <= 10000
  {
    UsagePercentMonotone(0, part, whole);
    UsagePercentMonotone(part, whole, whole);
    RoundHalfEvenUnique(0, whole, 0);
    RoundHalfEvenUnique(whole * 10000, whole, 10000);
  }

  /**
   * The shares are rounded one by one, so they need not add up to 100%:
   * three equal categories show 33.33% each.
   */
  lemma SharesNeedNotAddUp()
    ensures var r := WithPercents([CategoryTotal(Some(1), 100, 0), CategoryTotal(Some(2), 100, 0), CategoryTotal(Some(3), 100, 0)], 300);
      r[0].percent == 3333 && r[1].percent == 3333 && r[2].percent == 3333
  {
    RoundHalfEvenUnique(100 * 10000, 300, 3333);
  }

  /** PhanTram is set in place, row by row, when the overall total is positive. */
  method SetPercents(a: array<CategoryTotal>, whole: Money)
    requires whole > 0
    modifies a
    ensures a[..] == WithPercents(old(a[..]), whole)
  {
    var i := 0;
    while i < a.Length
      invariant 0 <= i <= a.Length
      invariant forall j :: 0 <= j < i ==> a[j] == old(a[j]).(percent := UsagePercent(old(a[j]).total, whole))
      invariant forall j :: i <= j < a.Length ==> a[j] == old(a[j])
    {
      a[i] := a[i].(percent := UsagePercent(a[i].total, whole));
      i := i + 1;
    }
  }

  // ----- Index and SoSanhDanhMuc ------------------------------------------------

  /** The statistics of one table: its total, its per-category table and its daily series. */
  datatype Side = Side(total: Money, byCategory: seq<CategoryTotal>, byDay: seq<Bucket<Date>>)

  function SideOf<T>(s: seq<T>, cols: Columns<T>, user: int, range: (Option<Date>, Option<Date>)): Side
  {
    var rows := Selected(s, cols, user, range);
    var total := SumOf(rows, cols.amount);
    Side(total, WithPercents(CategoryRows(GroupSums(rows, cols.category, cols.amount)), total),
         DailySeries(rows, cols.date, cols.amount))
  }

  /**
   * The per-category table has one row per distinct category of the
   * selected rows, each with the sum of that category's rows, and the rows
   * add up to the overall total.
   */
  lemma SideAddsUp<T>(s: seq<T>, cols: Columns<T>, user: int, range: (Option<Date>, Option<Date>))
    ensures var side := SideOf(s, cols, user, range);
      var rows := Selected(s, cols, user, range);
      side.total == RangeTotal(s, cols, user, range) &&
      SumOf(side.byCategory, CategoryTotalOf) == side.total &&
      (forall i, j :: 0 <= i < j < |side.byCategory| ==> side.byCategory[i].category != side.byCategory[j].category) &&
      (forall j :: 0 <= j < |side.byCategory| ==>
        side.byCategory[j].total == KeyTotal(rows, cols.category, cols.amount, side.byCategory[j].category)) &&
      (forall x :: x in rows ==> exists j :: 0 <= j < |side.byCategory| && side.byCategory[j].category == cols.category(x))
  {
    var rows := Selected(s, cols, user, range);
    var g := GroupSums(rows, cols.category, cols.amount);
    var side := SideOf(s, cols, user, range);
    RangeTotalIsSumOfSelected(s, cols, user, range);
    GroupSumsAddUp(rows, cols.category, cols.amount);
    GroupSumsDistinct(rows, cols.category, cols.amount);
    GroupSumsTotals(rows, cols.category, cols.amount);
    WithPercentsKeepsTotals(CategoryRows(g), side.total);
    SideCovers(s, cols, user, range);
  }

  /** Every selected row's category has a row in the per-category table. */
  lemma SideCovers<T>(s: seq<T>, cols: Columns<T>, user: int, range: (Option<Date>, Option<Date>))
    ensures var side := SideOf(s, cols, user, range);
      var rows := Selected(s, cols, user, range);
      forall x :: x in rows ==> exists j :: 0 <= j < |side.byCategory| && side.byCategory[j].category == cols.category(x)
  {
    var rows := Selected(s, cols, user, range);
    var g := GroupSums(rows, cols.category, cols.amount);
    var side := SideOf(s, cols, user, range);
    GroupSumsCover(rows, cols.category, cols.amount);
    WithPercentsKeepsTotals(CategoryRows(g), side.total);
    forall x | x in rows
      ensures exists j :: 0 <= j < |side.byCategory| && side.byCategory[j].category == cols.category(x)
    {
      assert HasGroup(g, cols.category(x));
      var j :| 0 <= j < |g| && g[j].key == cols.category(x);
      assert side.byCategory[j].category == cols.category(x);
    }
  }

  lemma {:induction false} KeyTotalNonNegative<T, K>(s: seq<T>, key: T -> K, amount: T -> int, k: K)
    requires forall x :: x in s ==> amount(x) >= 0
    ensures KeyTotal(s, key, amount, k) >= 0
    decreases |s|
  {
    if s != [] {
      assert s[|s| - 1] in s;
      KeyTotalNonNegative(s[..|s| - 1], key, amount, k);
    }
  }

  /**
   * With no negative amounts every share lies between 0% and 100%; with a
   * zero total the shares are left at 0.
   */
  lemma SidePercentsBounded<T>(s: seq<T>, cols: Columns<T>, user: int, range: (Option<Date>, Option<Date>))
    requires forall x :: x in s ==> cols.amount(x) >= 0
    ensures var side := SideOf(s, cols, user, range);
      forall j :: 0 <= j < |side.byCategory| ==> 0 <= side.byCategory[j].percent <= 10000
    ensures var side := SideOf(s, cols, user, range);
      side.total <= 0 ==> forall j :: 0 <= j < |side.byCategory| ==> side.byCategory[j].percent == 0
  {
    var rows := Selected(s, cols, user, range);
    var side := SideOf(s, cols, user, range);
    var g := GroupSums(rows, cols.category, cols.amount);
    SideAddsUp(s, cols, user, range);
    forall j | 0 <= j < |side.byCategory|
      ensures side.byCategory[j].total >= 0
    {
      KeyTotalNonNegative(rows, cols.category, cols.amount, side.byCategory[j].category);
    }
    if side.total > 0 {
      forall j | 0 <= j < |side.byCategory|
        ensures 0 <= side.byCategory[j].percent <= 10000
      {
        SumOfAtLeastTerm(side.byCategory, CategoryTotalOf, j);
        ShareBounds(side.byCategory[j].total, side.total);
      }
    }
  }

  /** The statistics page: both tables' side of it. */
  datatype Statistics = Statistics(income: Side, expense: Side)

  /** Computes one side, running the percentage loop in place when the total is positive. */
  method Breakdown<T>(s: seq<T>, cols: Columns<T>, user: int, range: (Option<Date>, Option<Date>)) returns (side: Side)
    ensures side == SideOf(s, cols, user, range)
  {
    var rows := Selected(s, cols, user, range);
    var total := SumOf(rows, cols.amount);
    var table := CategoryRows(GroupSums(rows, cols.category, cols.amount));
    var a := new CategoryTotal[|table|](i requires 0 <= i < |table| => table[i]);
    assert a[..] == table;
    if total > 0 {
      SetPercents(a, total);
    }
    side := Side(total, a[..], DailySeries(rows, cols.date, cols.amount));
  }

  /**
   * GET Index: the user's incomes (by receipt date) and expenses between the
   * two dates, the current month when no start date is given.
   */
  method StatisticsIndex(incomes: seq<Income>, expenses: seq<Expense>, session: Option<int>,
                         from: Option<Date>, to: Option<Date>, today: Date) returns (page: Page<Statistics>)
    requires ValidDate(today)
    ensures session.None? ==> page == ToLogin
    ensures session.Some? ==> page == Shown(Statistics(
      SideOf(incomes, IncomeColumns, session.value, ListedRange(from, to, today)),
      SideOf(expenses, ExpenseColumns, session.value, ListedRange(from, to, today))))
  {
    if session.None? {
      return ToLogin;
    }
    var range := ListedRange(from, to, today);
    var income := Breakdown(incomes, IncomeColumns, session.value, range);
    var expense := Breakdown(expenses, ExpenseColumns, session.value, range);
    page := Shown(Statistics(income, expense));
  }

  /** The comparison page: the kind compared, its per-category table and its total. */
  datatype Comparison = Comparison(kind: string, rows: seq<CategoryTotal>, total: Money)

  /** The kind compared: "ChiTieu" when none is given. */
  function ComparedKind(loai: Option<string>): (r: string)
    ensures loai.None? ==> r == KindExpense
    ensures loai.Some? ==> r == loai.value
  {
    if loai.Some? then loai.value else KindExpense
  }

  /**
   * GET SoSanhDanhMuc: the per-category table of the user's expenses when
   * the kind is "ChiTieu" (the default), of the incomes for any other kind.
   */
  method CategoryComparison(incomes: seq<Income>, expenses: seq<Expense>, session: Option<int>, loai: Option<string>,
                            from: Option<Date>, to: Option<Date>, today: Date) returns (page: Page<Comparison>)
    requires ValidDate(today)
    ensures session.None? ==> page == ToLogin
    ensures session.Some? && ComparedKind(loai) == KindExpense ==>
      var side := SideOf(expenses, ExpenseColumns, session.value, ListedRange(from, to, today));
      page == Shown(Comparison(KindExpense, side.byCategory, side.total))
    ensures session.Some? && ComparedKind(loai) != KindExpense ==>
      var side := SideOf(incomes, IncomeColumns, session.value, ListedRange(from, to, today));
      page == Shown(Comparison(ComparedKind(loai), side.byCategory, side.total))
  {
    if session.None? {
      return ToLogin;
    }
    var kind := ComparedKind(loai);
    var range := ListedRange(from, to, today);
    var side: Side;
    if kind == KindExpense {
      side := Breakdown(expenses, ExpenseColumns, session.value, range);
    } else {
      side := Breakdown(incomes, IncomeColumns, session.value, range);
    }
    page := Shown(Comparison(kind, side.byCategory, side.total));
  }

  // ----- TheoThang and XuHuongChiTieu -------------------------------------------

  /** One month of a series: the month, its year, and the user's income and spending in it. */
  datatype MonthTotals = MonthTotals(month: int, year: int, income: Money, expense: Money)

  function RowIncome(r: MonthTotals): int { r.income }
  function RowExpense(r: MonthTotals): int { r.expense }

  /** From the first to the last day of month m of year y. */
  function MonthRange(y: int, m: int): (Option<Date>, Option<Date>)
    requires 1 <= m <= 12
  {
    (Some(FirstOfMonth(y, m)), Some(LastOfMonth(y, m)))
  }

  function MonthRow(incomes: seq<Income>, expenses: seq<Expense>, user: int, y: int, m: int): MonthTotals
    requires 1 <= m <= 12
  {
    MonthTotals(m, y, RangeTotal(incomes, IncomeColumns, user, MonthRange(y, m)),
                RangeTotal(expenses, ExpenseColumns, user, MonthRange(y, m)))
  }

  /** Months 1..n of year y. */
  function YearSeries(incomes: seq<Income>, expenses: seq<Expense>, user: int, y: int, n: nat): (r: seq<MonthTotals>)
    requires n <= 12
    ensures |r| == n
    ensures forall i :: 0 <= i < n ==> r[i].month == i + 1 && r[i].year == y
  {
    if n == 0 then [] else YearSeries(incomes, expenses, user, y, n - 1) + [MonthRow(incomes, expenses, user, y, n)]
  }

  /**
   * GET TheoThang: twelve rows, January to December of the requested year
   * (the current one by default); a year before 1 cannot be built and ends
   * in the error page.
   */
  method YearTotals(incomes: seq<Income>, expenses: seq<Expense>, session: Option<int>, year: Option<int>, today: Date)
    returns (page: Page<seq<MonthTotals>>)
    ensures session.None? ==> page == ToLogin
    ensures session.Some? ==>
      var y := if year.Some? then year.value else today.year;
      (y < 1 ==> page == Failed) &&
      (y >= 1 ==> page == Shown(YearSeries(incomes, expenses, session.value, y, 12)))
  {
    if session.None? {
      return ToLogin;
    }
    var y := if year.Some? then year.value else today.year;
    if y < 1 {
      return Failed;
    }
    var rows: seq<MonthTotals> := [];
    for m := 1 to 13
      invariant rows == YearSeries(incomes, expenses, session.value, y, m - 1)
    {
      rows := rows + [MonthRow(incomes, expenses, session.value, y, m)];
    }
    page := Shown(rows);
  }

  /** The window of months 1..n of a year holds exactly the valid dates of those months. */
  lemma FirstMonthsWindow(d: Date, y: int, n: int)
    requires ValidDate(d) && y >= 1 && 1 <= n <= 12
    ensures InWindow(d, FirstOfMonth(y, 1), LastOfMonth(y, n)) <==> d.year == y && d.month <= n
  {
    DateKeyLexicographic(FirstOfMonth(y, 1), d);
    DateKeyLexicographic(d, LastOfMonth(y, n));
  }

  /** The year so far: months 1..n summed one month at a time. */
  function MonthsTotal<T>(s: seq<T>, cols: Columns<T>, user: int, y: int, n: nat): int
    requires n <= 12
  {
    if n == 0 then 0 else MonthsTotal(s, cols, user, y, n - 1) + RangeTotal(s, cols, user, MonthRange(y, n))
  }

  /** The user's total from 1 January of year y to the end of month n. */
  function WindowTotal<T>(s: seq<T>, cols: Columns<T>, user: int, y: int, n: int): int
    requires 1 <= n <= 12
  {
    RangeTotal(s, cols, user, (Some(FirstOfMonth(y, 1)), Some(LastOfMonth(y, n))))
  }

  /** Every row carries a valid date. */
  ghost predicate AllDated<T>(s: seq<T>, cols: Columns<T>)
  {
    forall x :: x in s ==> ValidDate(cols.date(x))
  }

  /** Months 1..n split the window from 1 January to the end of month n. */
  lemma {:induction false} MonthsPartitionWindow<T>(s: seq<T>, cols: Columns<T>, user: int, y: int, n: nat)
    requires y >= 1 && 1 <= n <= 12
    requires AllDated(s, cols)
    ensures MonthsTotal(s, cols, user, y, n) == WindowTotal(s, cols, user, y, n)
    decreases n
  {
    if n == 1 {
      JanuaryWindow(s, cols, user, y);
    } else {
      MonthsPartitionWindow(s, cols, user, y, n - 1);
      PartitionStep(s, cols, user, y, n);
    }
  }

  /** Adding month n to both sides keeps the sum of months equal to the window. */
  lemma PartitionStep<T>(s: seq<T>, cols: Columns<T>, user: int, y: int, n: int)
    requires y >= 1 && 2 <= n <= 12
    requires AllDated(s, cols)
    requires MonthsTotal(s, cols, user, y, n - 1) == WindowTotal(s, cols, user, y, n - 1)
    ensures MonthsTotal(s, cols, user, y, n) == WindowTotal(s, cols, user, y, n)
  {
    WindowStep(s, cols, user, y, n);
    MonthsTotalStep(s, cols, user, y, n);
  }

  lemma MonthsTotalStep<T>(s: seq<T>, cols: Columns<T>, user: int, y: int, n: nat)
    requires 1 <= n <= 12
    ensures MonthsTotal(s, cols, user, y, n) == MonthsTotal(s, cols, user, y, n - 1) + RangeTotal(s, cols, user, MonthRange(y, n))
  {
  }

  /** The window through January is January. */
  lemma JanuaryWindow<T>(s: seq<T>, cols: Columns<T>, user: int, y: int)
    ensures MonthsTotal(s, cols, user, y, 1) == WindowTotal(s, cols, user, y, 1)
  {
    assert MonthsTotal(s, cols, user, y, 0) == 0;
  }

  /** The window through month n totals the window through month n - 1 plus month n. */
  lemma WindowStep<T>(s: seq<T>, cols: Columns<T>, user: int, y: int, n: nat)
    requires y >= 1 && 2 <= n <= 12
    requires AllDated(s, cols)
    ensures WindowTotal(s, cols, user, y, n) == WindowTotal(s, cols, user, y, n - 1) + RangeTotal(s, cols, user, MonthRange(y, n))
  {
    var whole := (Some(FirstOfMonth(y, 1)), Some(LastOfMonth(y, n)));
    var before := (Some(FirstOfMonth(y, 1)), Some(LastOfMonth(y, n - 1)));
    forall x | x in s
      ensures InRange(cols.date(x), whole) <==> InRange(cols.date(x), before) || InRange(cols.date(x), MonthRange(y, n))
      ensures !(InRange(cols.date(x), before) && InRange(cols.date(x), MonthRange(y, n)))
    {
      MonthSplitsWindow(cols.date(x), y, n);
    }
    RangeTotalSplit(s, cols, user, whole, before, MonthRange(y, n));
  }

  /** A date lies in months 1..n exactly when it lies in months 1..n-1 or in month n, and never in both. */
  lemma MonthSplitsWindow(d: Date, y: int, n: int)
    requires ValidDate(d) && y >= 1 && 2 <= n <= 12
    ensures InRange(d, (Some(FirstOfMonth(y, 1)), Some(LastOfMonth(y, n)))) <==>
      InRange(d, (Some(FirstOfMonth(y, 1)), Some(LastOfMonth(y, n - 1)))) || InRange(d, MonthRange(y, n))
    ensures !(InRange(d, (Some(FirstOfMonth(y, 1)), Some(LastOfMonth(y, n - 1)))) && InRange(d, MonthRange(y, n)))
  {
    FirstMonthsWindow(d, y, n);
    FirstMonthsWindow(d, y, n - 1);
    InMonthWindow(d, y, n);
  }

  lemma {:induction false} YearSeriesSums(incomes: seq<Income>, expenses: seq<Expense>, user: int, y: int, n: nat)
    requires n <= 12
    ensures SumOf(YearSeries(incomes, expenses, user, y, n), RowIncome) == MonthsTotal(incomes, IncomeColumns, user, y, n)
    ensures SumOf(YearSeries(incomes, expenses, user, y, n), RowExpense) == MonthsTotal(expenses, ExpenseColumns, user, y, n)
  {
    if n > 0 {
      var prefix := YearSeries(incomes, expenses, user, y, n - 1);
      var row := MonthRow(incomes, expenses, user, y, n);
      YearSeriesSums(incomes, expenses, user, y, n - 1);
      SumOfConcat(prefix, [row], RowIncome);
      SumOfConcat(prefix, [row], RowExpense);
      assert [row][1..] == [];
    }
  }

  /**
   * The twelve months of TheoThang add up to the user's income and spending
   * of the whole year, 1 January to 31 December: every dated row falls in
   * exactly one month.
   */
  lemma YearSeriesAddsUp(incomes: seq<Income>, expenses: seq<Expense>, user: int, y: int)
    requires y >= 1
    requires forall i :: i in incomes ==> ValidDate(i.received)
    requires forall e :: e in expenses ==> ValidDate(e.date)
    ensures SumOf(YearSeries(incomes, expenses, user, y, 12), RowIncome) ==
      RangeTotal(incomes, IncomeColumns, user, (Some(FirstOfMonth(y, 1)), Some(LastOfMonth(y, 12))))
    ensures SumOf(YearSeries(incomes, expenses, user, y, 12), RowExpense) ==
      RangeTotal(expenses, ExpenseColumns, user, (Some(FirstOfMonth(y, 1)), Some(LastOfMonth(y, 12))))
  {
    YearSeriesSums(incomes, expenses, user, y, 12);
    MonthsPartitionWindow(incomes, IncomeColumns, user, y, 12);
    MonthsPartitionWindow(expenses, ExpenseColumns, user, y, 12);
  }

  /** The first day of the month with index k (months since January of year 0). */
  function MonthStart(k: int): (r: Date)
    ensures k >= 12 ==> ValidDate(r) && MonthIndex(r) == k && r.day == 1
  {
    Date(k / 12, k % 12 + 1, 1)
  }

  /** A first-of-month date is the MonthStart of its index. */
  lemma MonthStartOf(d: Date)
    requires ValidDate(d) && d.day == 1
    ensures d == MonthStart(MonthIndex(d))
  {
    var k := MonthIndex(d);
    assert k == 12 * d.year + (d.month - 1);
    assert k / 12 == d.year && k % 12 == d.month - 1;
  }

  /** A first of the month is on or before a date exactly when its month is not later. */
  lemma MonthStartNotLater(c: Date, today: Date)
    requires ValidDate(c) && c.day == 1 && ValidDate(today)
    ensures DateLe(c, today) <==> MonthIndex(c) <= MonthIndex(today)
  {
    if MonthIndex(c) < MonthIndex(today) {
      MonthIndexOrder(c, today);
    } else if MonthIndex(today) < MonthIndex(c) {
      MonthIndexOrder(today, c);
    } else {
      DateKeyLexicographic(c, today);
    }
  }

  /** `count` consecutive months starting at month index `start`. */
  function TrendSeries(incomes: seq<Income>, expenses: seq<Expense>, user: int, start: int, count: nat): (r: seq<MonthTotals>)
    requires start >= 12
    ensures |r| == count
    ensures forall i :: 0 <= i < count ==> 1 <= r[i].month <= 12 && r[i].year * 12 + r[i].month - 1 == start + i
  {
    if count == 0 then []
    else
      var d := MonthStart(start + count - 1);
      TrendSeries(incomes, expenses, user, start, count - 1) + [MonthRow(incomes, expenses, user, d.year, d.month)]
  }

  /** How many months XuHuongChiTieu shows: n, or none when n is not positive. */
  function TrendLength(n: int): nat
  {
    if n > 0 then n else 0
  }

  /** The first day of the month k months away from d starts the month with index MonthIndex(d) + k. */
  lemma FirstOfShifted(d: Date, k: int)
    requires ValidDate(d) && MonthIndex(d) + k >= 12
    ensures var f := FirstOfMonth(AddMonths(d, k).year, AddMonths(d, k).month);
      ValidDate(f) && f.day == 1 && MonthIndex(f) == MonthIndex(d) + k
  {
    var s := AddMonths(d, k);
    assert 1 <= DaysInMonth(s.year, s.month);
  }

  lemma TrendStep(incomes: seq<Income>, expenses: seq<Expense>, user: int, start: int, k: nat, current: Date)
    requires start >= 12 && ValidDate(current) && current.day == 1 && MonthIndex(current) == start + k
    ensures TrendSeries(incomes, expenses, user, start, k) + [MonthRow(incomes, expenses, user, current.year, current.month)] ==
      TrendSeries(incomes, expenses, user, start, k + 1)
    ensures AddMonths(current, 1).day == 1 && MonthIndex(AddMonths(current, 1)) == start + k + 1
  {
    MonthStartOf(current);
  }

  /** The while loop of XuHuongChiTieu: a row per month from `first` through today's month. */
  method MonthsThrough(incomes: seq<Income>, expenses: seq<Expense>, user: int, first: Date, start: int, today: Date)
    returns (rows: seq<MonthTotals>)
    requires ValidDate(first) && first.day == 1 && MonthIndex(first) == start && ValidDate(today)
    ensures rows == TrendSeries(incomes, expenses, user, start, TrendLength(MonthIndex(today) - start + 1))
  {
    var current := first;
    rows := [];
    while DateLe(current, today)
      invariant ValidDate(current) && current.day == 1
      invariant MonthIndex(current) == start + |rows|
      invariant |rows| <= TrendLength(MonthIndex(today) - start + 1)
      invariant rows == TrendSeries(incomes, expenses, user, start, |rows|)
      decreases MonthIndex(today) + 1 - MonthIndex(current)
    {
      MonthStartNotLater(current, today);
      TrendStep(incomes, expenses, user, start, |rows|, current);
      rows := rows + [MonthRow(incomes, expenses, user, current.year, current.month)];
      current := AddMonths(current, 1);
    }
    MonthStartNotLater(current, today);
  }

  /**
   * The month shift `-(soThang ?? 6) + 1`, computed in C# `int`: 1 - n
   * unless the negation or the addition wraps.
   */
  function TrendOffset(n: int): (k: int)
    ensures -0x8000_0000 <= k < 0x8000_0000
    ensures -0x7FFF_FFFF < n < 0x8000_0000 ==> k == 1 - n
  {
    Int32(Int32(-n) + 1)
  }

  /** The two requested lengths at the bottom of the `int` range wrap. */
  lemma TrendOffsetWraps()
    ensures TrendOffset(-0x8000_0000) == -0x7FFF_FFFF
    ensures TrendOffset(-0x7FFF_FFFF) == -0x8000_0000
  {
    assert Int32(0x8000_0000) == -0x8000_0000 by {
      assert (0x8000_0000 + 0x8000_0000) % 0x1_0000_0000 == 0;
    }
    assert Int32(0x7FFF_FFFF + 1) == -0x8000_0000;
  }

  /**
   * For a date up to year 9999, either wrapped shift reaches before year 1,
   * so AddMonths throws and the page is an error.
   */
  lemma WrappedTrendFails(today: Date)
    requires ValidDate(today) && today.year <= 9999
    ensures MonthIndex(today) + TrendOffset(-0x8000_0000) < 12
    ensures MonthIndex(today) + TrendOffset(-0x7FFF_FFFF) < 12
  {
    assert MonthIndex(today) < 120000 by {
      assert today.month <= 12;
    }
    TrendOffsetWraps();
  }

  /**
   * GET XuHuongChiTieu: the months from the one n - 1 months before today's
   * (n = 6 by default) through the current one, the shift computed in
   * `int`; a start before year 1 cannot be computed and ends in the error
   * page.
   */
  method Trend(incomes: seq<Income>, expenses: seq<Expense>, session: Option<int>, months: Option<int>, today: Date)
    returns (page: Page<seq<MonthTotals>>)
    requires ValidDate(today)
    requires months.Some? ==> -0x8000_0000 <= months.value < 0x8000_0000
    ensures session.None? ==> page == ToLogin
    ensures session.Some? ==>
      var n := if months.Some? then months.value else 6;
      var start := MonthIndex(today) + TrendOffset(n);
      (start < 12 ==> page == Failed) &&
      (start >= 12 ==> page == Shown(TrendSeries(incomes, expenses, session.value, start, TrendLength(1 - TrendOffset(n)))))
  {
    if session.None? {
      return ToLogin;
    }
    var n := if months.Some? then months.value else 6;
    var k := TrendOffset(n);
    var start := MonthIndex(today) + k;
    if start < 12 {
      return Failed;
    }
    var first := TrendStart(today, k);
    var rows := MonthsThrough(incomes, expenses, session.value, first, start, today);
    assert MonthIndex(today) - start + 1 == 1 - k;
    page := Shown(rows);
  }

  /** today.AddMonths(k), moved to the first of its month: the first month the trend shows. */
  method TrendStart(today: Date, k: int) returns (first: Date)
    requires ValidDate(today) && MonthIndex(today) + k >= 12
    ensures ValidDate(first) && first.day == 1 && MonthIndex(first) == MonthIndex(today) + k
  {
    var shifted := AddMonths(today, k);
    first := FirstOfMonth(shifted.year, shifted.month);
    FirstOfShifted(today, k);
  }

  /** The trend ends with the current month. */
  lemma TrendEndsThisMonth(incomes: seq<Income>, expenses: seq<Expense>, user: int, today: Date, n: int)
    requires ValidDate(today) && n >= 1 && MonthIndex(today) - n + 1 >= 12
    ensures var r := TrendSeries(incomes, expenses, user, MonthIndex(today) - n + 1, TrendLength(n));
      r[n - 1].month == today.month && r[n - 1].year == today.year
  {
  }
}
