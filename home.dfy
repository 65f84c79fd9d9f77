// The dashboard (HomeController.Index): the signed-in user's current month
// at a glance. It shows:
//   - the month's income and spending, the balance and the spend ratio;
//   - the latest transactions and the nearest goals;
//   - the budgets close to their cap and the coming reminders;
//   - the month's charts.
module Home {
  import opened Common
  import opened Calendar
  import opened Entities
  import opened Store
  import opened NganSach
  import opened MucTieu
  import opened ThongKe

  /** How many latest expenses, latest incomes, goals and reminders are shown. */
  const RecentCount: nat := 5
  const GoalCount: nat := 3
  const ReminderCount: nat := 5

  /** A budget is listed from 80% usage on, in hundredths of a percent. */
  const NearLimitPercent: int := 8000

  // ----- The month's income -------------------------------------------------------

  /** The income counts for the month when both attribution fields are set to it. */
  predicate AttributedTo(i: Income, user: int, month: int, year: int)
  {
    i.owner == Some(user) && i.month.Some? && i.year.Some? && i.month.value == month && i.year.value == year
  }

  /** The user's incomes attributed to the current month, in table order. */
  function MonthIncomes(incomes: seq<Income>, user: int, today: Date): (r: seq<Income>)
    ensures forall x :: x in r <==> x in incomes && AttributedTo(x, user, today.month, today.year)
    ensures IsSubsequence(r, incomes)
    ensures forall x :: multiset(r)[x] == if AttributedTo(x, user, today.month, today.year) then multiset(incomes)[x] else 0
  {
    var p := (i: Income) => AttributedTo(i, user, today.month, today.year);
    FilterKeepsOrder(incomes, p);
    FilterCounts(incomes, p);
    Filter(incomes, p)
  }

  /**
   * The dashboard counts an income in the month it is attributed to, while
   * the statistics page places it by its receipt date. An income received
   * on 28 February 2025 and attributed to March 2025 counts in the
   * dashboard's March income but not in the March statistics.
   */
  lemma IncomeMonthIsAttributionNotReceipt()
    ensures var i := Income(1, Some(7), None, 500, Date(2025, 2, 28), Some(3), Some(2025), None);
      var today := Date(2025, 3, 10);
      SumOf(MonthIncomes([i], 7, today), IncomeAmount) == 500 &&
      RangeTotal([i], IncomeColumns, 7, MonthRange(2025, 3)) == 0
  {
    var i := Income(1, Some(7), None, 500, Date(2025, 2, 28), Some(3), Some(2025), None);
    assert MonthIncomes([i], 7, Date(2025, 3, 10)) == [i];
    assert !Picked(i, IncomeColumns, 7, MonthRange(2025, 3));
    assert [i][1..] == [];
  }

  // ----- The spend ratio ------------------------------------------------------------

  /**
   * The spend ratio is the month's spending over its income in hundredths
   * of a percent (NganSach.UsagePercent). It is 0 without a positive
   * income. Spending within the income shows 0% to 100%. Spending that
   * reaches the income shows at least 100%.
   */
  lemma SpendRatioBounds(income: Money, expense: Money)
    ensures income <= 0 ==> UsagePercent(expense, income) == 0
    ensures income > 0 && 0 <= expense <= income ==> 0 <= UsagePercent(expense, income) <= 10000
    ensures income > 0 && expense >= income ==> UsagePercent(expense, income) >= 10000
  {
    if income > 0 && 0 <= expense <= income {
      ShareBounds(expense, income);
    }
    if income > 0 && expense >= income {
      UsagePercentMonotone(income, expense, income);
      RoundHalfEvenUnique(income * 10000, income, 10000);
    }
  }

  // ----- Latest transactions, nearest goals, coming reminders -------------------------

  function SpentOn(e: Expense): int { DateKey(e.date) }
  function ReceivedOn(i: Income): int { DateKey(i.received) }
  function DueAt(x: Reminder): int { InstantKey(x.time) }

  predicate OwnExpense(e: Expense, user: int) { e.owner == Some(user) }
  predicate OwnIncome(i: Income, user: int) { i.owner == Some(user) }

  /** The user's five latest expenses, latest first. */
  function RecentExpenses(expenses: seq<Expense>, user: int): (r: seq<Expense>)
    ensures |r| <= RecentCount
    ensures forall x :: x in r ==> x in expenses && OwnExpense(x, user)
    ensures forall a, b :: 0 <= a < b < |r| ==> SpentOn(r[a]) >= SpentOn(r[b])
  {
    var mine := Filter(expenses, (e: Expense) => OwnExpense(e, user));
    var sorted := SortByDescending(mine, SpentOn);
    SameMembers(sorted, mine);
    Take(sorted, RecentCount)
  }

  /** An expense of the user left out means five are shown, none dated earlier than it. */
  lemma RecentExpensesAreLatest(expenses: seq<Expense>, user: int, x: Expense)
    requires x in expenses && OwnExpense(x, user) && x !in RecentExpenses(expenses, user)
    ensures var r := RecentExpenses(expenses, user);
      |r| == RecentCount && forall y :: y in r ==> SpentOn(y) >= SpentOn(x)
  {
    var mine := Filter(expenses, (e: Expense) => OwnExpense(e, user));
    var sorted := SortByDescending(mine, SpentOn);
    SameMembers(sorted, mine);
    TakeSortedGreatest(sorted, SpentOn, RecentCount, x);
  }

  /** The user's five latest incomes by receipt date, latest first. */
  function RecentIncomes(incomes: seq<Income>, user: int): (r: seq<Income>)
    ensures |r| <= RecentCount
    ensures forall x :: x in r ==> x in incomes && OwnIncome(x, user)
    ensures forall a, b :: 0 <= a < b < |r| ==> ReceivedOn(r[a]) >= ReceivedOn(r[b])
  {
    var mine := Filter(incomes, (i: Income) => OwnIncome(i, user));
    var sorted := SortByDescending(mine, ReceivedOn);
    SameMembers(sorted, mine);
    Take(sorted, RecentCount)
  }

  lemma RecentIncomesAreLatest(incomes: seq<Income>, user: int, x: Income)
    requires x in incomes && OwnIncome(x, user) && x !in RecentIncomes(incomes, user)
    ensures var r := RecentIncomes(incomes, user);
      |r| == RecentCount && forall y :: y in r ==> ReceivedOn(y) >= ReceivedOn(x)
  {
    var mine := Filter(incomes, (i: Income) => OwnIncome(i, user));
    var sorted := SortByDescending(mine, ReceivedOn);
    SameMembers(sorted, mine);
    TakeSortedGreatest(sorted, ReceivedOn, RecentCount, x);
  }

  /** The first three goals of the goal listing: goals without a deadline, then the earliest deadlines. */
  function NearestGoals(goals: seq<Goal>, user: int): (r: seq<Goal>)
    ensures |r| <= GoalCount
    ensures forall g :: g in r ==> g in goals && g.owner == Some(user)
    ensures SortedBy(r, GoalDeadlineKey)
  {
    Take(GoalIndex(goals, user), GoalCount)
  }

  /** A goal of the user left out means three are shown, none with a later deadline key. */
  lemma NearestGoalsAreEarliest(goals: seq<Goal>, user: int, g: Goal)
    requires g in goals && g.owner == Some(user) && g !in NearestGoals(goals, user)
    ensures var r := NearestGoals(goals, user);
      |r| == GoalCount && forall y :: y in r ==> GoalDeadlineKey(y) <= GoalDeadlineKey(g)
  {
    TakeSortedLeast(GoalIndex(goals, user), GoalDeadlineKey, GoalCount, g);
  }

  /** The reminder is the user's and falls at or after midnight today. */
  predicate Coming(x: Reminder, user: int, today: Date)
  {
    x.owner == Some(user) && InstantLe(At(today, 0), x.time)
  }

  /** The user's next five reminders from midnight today on, soonest first. */
  function ComingReminders(reminders: seq<Reminder>, user: int, today: Date): (r: seq<Reminder>)
    ensures |r| <= ReminderCount
    ensures forall x :: x in r ==> x in reminders && Coming(x, user, today)
    ensures SortedBy(r, DueAt)
  {
    var coming := Filter(reminders, (x: Reminder) => Coming(x, user, today));
    var sorted := SortBy(coming, DueAt);
    SameMembers(sorted, coming);
    Take(sorted, ReminderCount)
  }

  /** A coming reminder left out means five are shown, none due later than it. */
  lemma ComingRemindersAreSoonest(reminders: seq<Reminder>, user: int, today: Date, x: Reminder)
    requires x in reminders && Coming(x, user, today) && x !in ComingReminders(reminders, user, today)
    ensures var r := ComingReminders(reminders, user, today);
      |r| == ReminderCount && forall y :: y in r ==> DueAt(y) <= DueAt(x)
  {
    var coming := Filter(reminders, (y: Reminder) => Coming(y, user, today));
    var sorted := SortBy(coming, DueAt);
    SameMembers(sorted, coming);
    TakeSortedLeast(sorted, DueAt, ReminderCount, x);
  }

  // ----- Budgets close to their cap -------------------------------------------------

  /** The usage rows of the month's budgets, as the budget listing computes them. */
  function UsageRows(budgets: seq<Budget>, expenses: seq<Expense>, user: int, month: int, year: int): (r: seq<BudgetUsage>)
    requires 1 <= month <= 12
    ensures |r| == |MonthBudgets(budgets, user, month, year)|
    ensures forall k :: 0 <= k < |r| ==> r[k] == UsageRow(MonthBudgets(budgets, user, month, year)[k], expenses, user, month, year)
  {
    var rows := MonthBudgets(budgets, user, month, year);
    seq(|rows|, k requires 0 <= k < |rows| => UsageRow(rows[k], expenses, user, month, year))
  }

  predicate IsNearLimit(u: BudgetUsage) { u.percent >= NearLimitPercent }

  /** The budgets of the month whose rounded usage reaches 80%, in listing order. */
  function NearLimitRows(budgets: seq<Budget>, expenses: seq<Expense>, user: int, month: int, year: int): (r: seq<BudgetUsage>)
    requires 1 <= month <= 12
  {
    Filter(UsageRows(budgets, expenses, user, month, year), IsNearLimit)
  }

  /**
   * A budget is listed exactly when its cap is positive and its spend
   * reaches 79.995% of the cap (which rounds to 80.00%). A budget with a
   * zero cap is never listed, however much is spent.
   */
  lemma NearLimitExactly(budgets: seq<Budget>, expenses: seq<Expense>, user: int, month: int, year: int)
    requires 1 <= month <= 12
    ensures forall u :: u in NearLimitRows(budgets, expenses, user, month, year) <==>
      u in UsageRows(budgets, expenses, user, month, year) &&
      u.budget.cap > 0 && 20000 * u.spent >= 15999 * u.budget.cap
  {
    var rows := UsageRows(budgets, expenses, user, month, year);
    forall u | u in rows
      ensures IsNearLimit(u) <==> u.budget.cap > 0 && 20000 * u.spent >= 15999 * u.budget.cap
    {
      var k :| 0 <= k < |rows| && rows[k] == u;
      assert u.percent == UsagePercent(u.spent, u.budget.cap);
      if u.budget.cap > 0 {
        RoundHalfEvenAtLeast(u.spent * 10000, u.budget.cap, NearLimitPercent);
      }
    }
  }

  lemma FilterStep<T>(s: seq<T>, k: nat, p: T -> bool)
    requires k < |s|
    ensures Filter(s[..k + 1], p) == Filter(s[..k], p) + (if p(s[k]) then [s[k]] else [])
  {
    assert s[..k + 1] == s[..k] + [s[k]];
    FilterConcat(s[..k], [s[k]], p);
  }

  /** One budget's row: its spend in the month summed, and the usage rounded. */
  method MeasureBudget(b: Budget, expenses: seq<Expense>, user: int, month: int, year: int)
    returns (u: BudgetUsage)
    requires 1 <= month <= 12
    ensures u == UsageRow(b, expenses, user, month, year)
  {
    var spent := WindowSpend(expenses, Some(user), b.category, FirstOfMonth(year, month), LastOfMonth(year, month));
    var percent := if b.cap > 0 then RoundHalfEven(spent * 10000, b.cap) else 0;
    u := BudgetUsage(b, spent, percent);
  }

  /** The foreach over the month's budgets, keeping those at 80% or more. */
  method NearLimit(budgets: seq<Budget>, expenses: seq<Expense>, user: int, month: int, year: int)
    returns (r: seq<BudgetUsage>)
    requires 1 <= month <= 12
    ensures r == NearLimitRows(budgets, expenses, user, month, year)
  {
    var rows := MonthBudgets(budgets, user, month, year);
    ghost var usage := UsageRows(budgets, expenses, user, month, year);
    r := [];
    var k := 0;
    while k < |rows|
      invariant 0 <= k <= |rows| == |usage|
      invariant r == Filter(usage[..k], IsNearLimit)
    {
      var u := MeasureBudget(rows[k], expenses, user, month, year);
      FilterStep(usage, k, IsNearLimit);
      if u.percent >= NearLimitPercent {
        r := r + [u];
      }
      k := k + 1;
    }
    assert usage[..k] == usage;
  }

  // ----- The page -----------------------------------------------------------------

  /** Everything the dashboard shows. */
  datatype Dashboard = Dashboard(
    user: User,
    monthIncome: Money, monthExpense: Money, balance: Money, ratio: int,
    recentExpenses: seq<Expense>, recentIncomes: seq<Income>, goals: seq<Goal>,
    nearLimit: seq<BudgetUsage>, coming: seq<Reminder>,
    byCategory: seq<CategoryTotal>, incomeByDay: seq<Bucket<Date>>, expenseByDay: seq<Bucket<Date>>)

  /** The guest home page, NotFound for a signed-in id without a user row, or the dashboard. */
  datatype HomePage = GuestPage | NoSuchUser | DashboardPage(content: Dashboard)

  /**
   * The dashboard of a user for the month of `today`. Its expense figures
   * are those of the statistics page over the whole month: the month's
   * total, the per-category table with shares, and the daily series.
   */
  function DashboardOf(u: User, incomes: seq<Income>, expenses: seq<Expense>, budgets: seq<Budget>,
                       goals: seq<Goal>, reminders: seq<Reminder>, today: Date): (r: Dashboard)
    requires ValidDate(today)
    ensures r.user == u
    ensures r.monthIncome == SumOf(MonthIncomes(incomes, u.id, today), IncomeAmount)
    ensures r.monthExpense == RangeTotal(expenses, ExpenseColumns, u.id, MonthRange(today.year, today.month))
    ensures r.balance == r.monthIncome - r.monthExpense
    ensures r.ratio == UsagePercent(r.monthExpense, r.monthIncome)
    ensures SumOf(r.byCategory, CategoryTotalOf) == r.monthExpense
  {
    var range := MonthRange(today.year, today.month);
    var income := SumOf(MonthIncomes(incomes, u.id, today), IncomeAmount);
    var expense := SideOf(expenses, ExpenseColumns, u.id, range);
    SideAddsUp(expenses, ExpenseColumns, u.id, range);
    Dashboard(u, income, expense.total, income - expense.total, UsagePercent(expense.total, income),
      RecentExpenses(expenses, u.id), RecentIncomes(incomes, u.id), NearestGoals(goals, u.id),
      NearLimitRows(budgets, expenses, u.id, today.month, today.year), ComingReminders(reminders, u.id, today),
      expense.byCategory, DailySeries(MonthIncomes(incomes, u.id, today), IncomeReceived, IncomeAmount),
      expense.byDay)
  }

  /** Computes the dashboard, running the share and near-limit loops. */
  method Build(u: User, incomes: seq<Income>, expenses: seq<Expense>, budgets: seq<Budget>,
               goals: seq<Goal>, reminders: seq<Reminder>, today: Date) returns (d: Dashboard)
    requires ValidDate(today)
    ensures d == DashboardOf(u, incomes, expenses, budgets, goals, reminders, today)
  {
    var range := MonthRange(today.year, today.month);
    var mine := MonthIncomes(incomes, u.id, today);
    var income := SumOf(mine, IncomeAmount);
    var expense := Breakdown(expenses, ExpenseColumns, u.id, range);
    var nearLimit := NearLimit(budgets, expenses, u.id, today.month, today.year);
    d := Dashboard(u, income, expense.total, income - expense.total,
      UsagePercent(expense.total, income),
      RecentExpenses(expenses, u.id), RecentIncomes(incomes, u.id), NearestGoals(goals, u.id),
      nearLimit, ComingReminders(reminders, u.id, today),
      expense.byCategory, DailySeries(mine, IncomeReceived, IncomeAmount), expense.byDay);
  }

  /**
   * GET Index: the guest page without a session, NotFound when the
   * session's user row is missing, otherwise the dashboard of that user.
   */
  method Index(users: seq<User>, incomes: seq<Income>, expenses: seq<Expense>, budgets: seq<Budget>,
               goals: seq<Goal>, reminders: seq<Reminder>, session: Option<int>, today: Date)
    returns (page: HomePage)
    requires ValidDate(today)
    ensures session.None? ==> page == GuestPage
    ensures session.Some? && IndexOfKey(users, UserKey, session.value).None? ==> page == NoSuchUser
    ensures session.Some? && IndexOfKey(users, UserKey, session.value).Some? ==>
      page == DashboardPage(DashboardOf(users[IndexOfKey(users, UserKey, session.value).value],
                                        incomes, expenses, budgets, goals, reminders, today))
  {
    if session.None? {
      return GuestPage;
    }
    var found := IndexOfKey(users, UserKey, session.value);
    if found.None? {
      return NoSuchUser;
    }
    var d := Build(users[found.value], incomes, expenses, budgets, goals, reminders, today);
    page := DashboardPage(d);
  }
}
