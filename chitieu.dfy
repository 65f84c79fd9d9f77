// Expenses (ChiTieuController): the dated listing with its total, create /
// edit / delete, and the over-budget reminder written after an expense is
// saved (KiemTraVaCapNhatNganSach).
module ChiTieu {
  import opened Common
  import opened Calendar
  import opened Entities
  import opened Store
  import opened NganSach

  // ----- Index --------------------------------------------------------------

  /**
   * The listed range: without a start date, the first to the last day of
   * the current month (the end date is replaced too); otherwise the dates
   * as given, the end possibly missing.
   */
  function ListedRange(from: Option<Date>, to: Option<Date>, today: Date): (r: (Option<Date>, Option<Date>))
    requires 1 <= today.month <= 12
    ensures from.None? ==> r == (Some(FirstOfMonth(today.year, today.month)), Some(LastOfMonth(today.year, today.month)))
    ensures from.Some? ==> r == (from, to)
  {
    if from.None? then (Some(FirstOfMonth(today.year, today.month)), Some(LastOfMonth(today.year, today.month)))
    else (from, to)
  }

  /** The user's expense dated inside the range; a missing bound compares false (lifted comparison). */
  predicate ListedExpense(e: Expense, user: int, range: (Option<Date>, Option<Date>))
  {
    e.owner == Some(user) && range.0.Some? && range.1.Some? && InWindow(e.date, range.0.value, range.1.value)
  }

  datatype ExpenseListing = ExpenseListing(rows: seq<Expense>, total: Money)

  /** GET Index: the user's expenses in the range, latest first, and their total. */
  function ExpenseIndex(expenses: seq<Expense>, user: int, from: Option<Date>, to: Option<Date>, today: Date): (r: ExpenseListing)
    requires 1 <= today.month <= 12
    ensures forall x :: x in r.rows <==> x in expenses && ListedExpense(x, user, ListedRange(from, to, today))
    ensures forall x :: (multiset(r.rows)[x] ==
      if ListedExpense(x, user, ListedRange(from, to, today)) then multiset(expenses)[x] else 0)
    ensures forall a, b :: 0 <= a < b < |r.rows| ==> DateKey(r.rows[a].date) >= DateKey(r.rows[b].date)
    ensures r.total == SumOf(r.rows, ExpenseAmount)
  {
    var range := ListedRange(from, to, today);
    var p := (e: Expense) => ListedExpense(e, user, range);
    var listed := Filter(expenses, p);
    var rows := SortByDescending(listed, (e: Expense) => DateKey(e.date));
    SameMembers(rows, listed);
    FilterCounts(expenses, p);
    ExpenseListing(rows, SumOf(rows, ExpenseAmount))
  }

  /** Without a start date, exactly the user's expenses of the current calendar month are listed. */
  lemma ExpenseIndexDefaultsToCurrentMonth(expenses: seq<Expense>, user: int, to: Option<Date>, today: Date)
    requires ValidDate(today) && forall e :: e in expenses ==> ValidDate(e.date)
    ensures forall x :: x in ExpenseIndex(expenses, user, None, to, today).rows <==>
      x in expenses && x.owner == Some(user) && x.date.year == today.year && x.date.month == today.month
  {
    forall x | x in expenses
      ensures ListedExpense(x, user, ListedRange(None, to, today)) <==>
        x.owner == Some(user) && x.date.year == today.year && x.date.month == today.month
    {
      InMonthWindow(x.date, today.year, today.month);
    }
  }

  /** A start date without an end date lists nothing: the lifted comparison with null is false. */
  lemma ExpenseIndexOpenEndedIsEmpty(expenses: seq<Expense>, user: int, from: Date, today: Date)
    requires 1 <= today.month <= 12
    ensures ExpenseIndex(expenses, user, Some(from), None, today).rows == []
    ensures ExpenseIndex(expenses, user, Some(from), None, today).total == 0
  {
  }

  // ----- The over-budget check ----------------------------------------------

  /** Whether an expense counts in the month of (owner, category, month, year), nulls matching nulls. */
  predicate InMonthOf(e: Expense, owner: Option<int>, category: Option<int>, year: int, month: int)
  {
    e.owner == owner && e.category == category && e.date.month == month && e.date.year == year
  }

  /** The month total the check compares with the cap: same owner, category, month and year. */
  function MonthSpend(expenses: seq<Expense>, owner: Option<int>, category: Option<int>, year: int, month: int): Money
  {
    SumOf(Filter(expenses, (e: Expense) => InMonthOf(e, owner, category, year, month)), ExpenseAmount)
  }

  /** The saved expense itself is part of the month total: appending one adds exactly its amount when it matches. */
  lemma MonthSpendAppend(expenses: seq<Expense>, x: Expense, owner: Option<int>, category: Option<int>, year: int, month: int)
    ensures MonthSpend(expenses + [x], owner, category, year, month) ==
      MonthSpend(expenses, owner, category, year, month) + (if InMonthOf(x, owner, category, year, month) then x.amount else 0)
  {
    var p := (e: Expense) => InMonthOf(e, owner, category, year, month);
    FilterConcat(expenses, [x], p);
    SumOfConcat(Filter(expenses, p), Filter([x], p), ExpenseAmount);
    assert Filter([x], p) == if p(x) then [x] else [];
  }

  /**
   * Matching on month and year and matching on the window from the first to
   * the last day of that month select the same expenses: the expense-side
   * and the budget-side checks compute the same total.
   */
  lemma MonthSpendIsBudgetWindow(expenses: seq<Expense>, owner: Option<int>, category: Option<int>, year: int, month: int)
    requires 1 <= month <= 12 && forall e :: e in expenses ==> ValidDate(e.date)
    ensures MonthSpend(expenses, owner, category, year, month) ==
      WindowSpend(expenses, owner, category, FirstOfMonth(year, month), LastOfMonth(year, month))
  {
    forall e | e in expenses
      ensures InMonthOf(e, owner, category, year, month) ==
        (e.owner == owner && e.category == category && InWindow(e.date, FirstOfMonth(year, month), LastOfMonth(year, month)))
    {
      InMonthWindow(e.date, year, month);
    }
    FilterCongruent(expenses, (e: Expense) => InMonthOf(e, owner, category, year, month),
      (e: Expense) => e.owner == owner && e.category == category && InWindow(e.date, FirstOfMonth(year, month), LastOfMonth(year, month)));
  }

  /** The budget of the expense's owner, category, month and year, first in table order. */
  function MatchingBudget(budgets: seq<Budget>, e: Expense): (r: Option<nat>)
    ensures r.Some? ==> (r.value < |budgets| &&
      budgets[r.value].owner == e.owner && budgets[r.value].category == e.category &&
      budgets[r.value].month == e.date.month && budgets[r.value].year == e.date.year)
    ensures r.None? ==> forall b :: b in budgets ==>
      !(b.owner == e.owner && b.category == e.category && b.month == e.date.month && b.year == e.date.year)
  {
    var r := FirstIndex(budgets, (b: Budget) => b.owner == e.owner && b.category == e.category && b.month == e.date.month && b.year == e.date.year);
    assert r.None? ==> forall j :: 0 <= j < |budgets| ==>
      !(budgets[j].owner == e.owner && budgets[j].category == e.category && budgets[j].month == e.date.month && budgets[j].year == e.date.year);
    r
  }

  /**
   * The reminder KiemTraVaCapNhatNganSach writes for a saved expense: only
   * with an owner and a category, only when that month has a budget, and
   * only when the month's spend exceeds a positive cap.
   */
  function ExpenseAlert(expenses: seq<Expense>, budgets: seq<Budget>, e: Expense, now: Instant, id: int): (r: Option<Reminder>)
    ensures r.Some? <==>
      e.owner.Some? && e.category.Some? && MatchingBudget(budgets, e).Some? &&
      budgets[MatchingBudget(budgets, e).value].cap > 0 &&
      MonthSpend(expenses, e.owner, e.category, e.date.year, e.date.month) > budgets[MatchingBudget(budgets, e).value].cap
    ensures r.Some? ==> r.value.id == id && r.value.owner == e.owner && r.value.time == now && r.value.kind == Some(TagOverBudget)
  {
    if e.category.Some? && e.owner.Some? then
      var found := MatchingBudget(budgets, e);
      if found.Some? then
        var cap := budgets[found.value].cap;
        var spent := MonthSpend(expenses, e.owner, e.category, e.date.year, e.date.month);
        if spent > cap && cap > 0 then
          Some(Reminder(id, e.owner, Some(OverBudget(e.date.month, e.date.year, spent, cap)), now, Some(TagOverBudget)))
        else None
      else None
    else None
  }

  /**
   * The expense-side check writes exactly the reminder the budget-side
   * check (KiemTraVuotNganSach) would write for the matched budget.
   */
  lemma ExpenseAlertAgreesWithBudgetCheck(expenses: seq<Expense>, budgets: seq<Budget>, e: Expense, now: Instant, id: int)
    requires ValidDate(e.date) && forall x :: x in expenses ==> ValidDate(x.date)
    requires MatchingBudget(budgets, e).Some?
    ensures ExpenseAlert(expenses, budgets, e, now, id) == OverrunAlert(expenses, budgets[MatchingBudget(budgets, e).value], now, id)
  {
    MonthSpendIsBudgetWindow(expenses, e.owner, e.category, e.date.year, e.date.month);
  }

  /**
   * Once a month is over budget, every further matching expense of a
   * positive amount triggers the reminder again: nothing remembers that the
   * user was already told.
   */
  lemma AlertRepeats(expenses: seq<Expense>, budgets: seq<Budget>, e: Expense, x: Expense, now: Instant, id1: int, id2: int)
    requires ExpenseAlert(expenses, budgets, e, now, id1).Some?
    requires x.amount >= 0 && InMonthOf(x, e.owner, e.category, e.date.year, e.date.month)
    ensures ExpenseAlert(expenses + [x], budgets, x, now, id2).Some?
  {
    MonthSpendAppend(expenses, x, e.owner, e.category, e.date.year, e.date.month);
    assert MatchingBudget(budgets, x) == MatchingBudget(budgets, e);
  }

  /** KiemTraVaCapNhatNganSach on the store. */
  method CheckExpenseBudget(db: Db, e: Expense, now: Instant)
    requires db.Valid() && ValidInstant(now)
    modifies db`reminders, db`nextReminderId
    ensures db.Valid()
    ensures db.reminders == old(db.reminders) + AsSeq(ExpenseAlert(db.expenses, db.budgets, e, now, old(db.nextReminderId)))
    ensures db.nextReminderId == old(db.nextReminderId) + |AsSeq(ExpenseAlert(db.expenses, db.budgets, e, now, old(db.nextReminderId)))|
  {
    if e.category.Some? && e.owner.Some? {
      var found := MatchingBudget(db.budgets, e);
      if found.Some? {
        var cap := db.budgets[found.value].cap;
        var spent := MonthSpend(db.expenses, e.owner, e.category, e.date.year, e.date.month);
        if spent > cap && cap > 0 {
          var note := Reminder(db.nextReminderId, e.owner, Some(OverBudget(e.date.month, e.date.year, spent, cap)), now, Some(TagOverBudget));
          TableAppend(db.reminders, ReminderKey, db.nextReminderId, ValidReminder, note);
          db.reminders := db.reminders + [note];
          db.nextReminderId := db.nextReminderId + 1;
        }
      }
    }
  }

  // ----- Create / Edit / Delete ---------------------------------------------

  /** POST Create: the expense is saved as the user's, then the over-budget check runs on it. */
  method CreateExpense(db: Db, session: Option<int>, posted: Expense, now: Instant) returns (outcome: Outcome)
    requires db.Valid() && ValidInstant(now)
    modifies db`expenses, db`nextExpenseId, db`reminders, db`nextReminderId
    ensures db.Valid()
    ensures session.None? ==> outcome == LoginRequired && unchanged(db)
    ensures session.Some? && !ValidExpense(posted) ==> outcome == FormRejected && unchanged(db)
    ensures session.Some? && ValidExpense(posted) ==>
      var row := posted.(id := old(db.nextExpenseId), owner := session);
      outcome == Saved &&
      db.expenses == old(db.expenses) + [row] &&
      db.reminders == old(db.reminders) + AsSeq(ExpenseAlert(db.expenses, db.budgets, row, now, old(db.nextReminderId)))
  {
    if session.None? {
      return LoginRequired;
    }
    var row := posted.(owner := session);
    if !ValidExpense(row) {
      return FormRejected;
    }
    row := row.(id := db.nextExpenseId);
    TableAppend(db.expenses, ExpenseKey, db.nextExpenseId, ValidExpense, row);
    db.expenses := db.expenses + [row];
    db.nextExpenseId := db.nextExpenseId + 1;
    CheckExpenseBudget(db, row, now);
    outcome := Saved;
  }

  /**
   * POST Edit: the posted expense, owned by the user, replaces the row with
   * its key whoever owned it; a key with no row ends in NotFound. The
   * over-budget check then runs on it.
   */
  method EditExpense(db: Db, session: Option<int>, id: int, posted: Expense, now: Instant) returns (outcome: Outcome)
    requires db.Valid() && ValidInstant(now)
    modifies db`expenses, db`reminders, db`nextReminderId
    ensures db.Valid()
    ensures session.None? ==> outcome == LoginRequired && unchanged(db)
    ensures session.Some? && id != posted.id ==> outcome == NotFound && unchanged(db)
    ensures session.Some? && id == posted.id && !ValidExpense(posted) ==> outcome == FormRejected && unchanged(db)
    ensures session.Some? && id == posted.id && ValidExpense(posted) && IndexOfKey(old(db.expenses), ExpenseKey, id).None? ==>
      outcome == NotFound && unchanged(db)
    ensures session.Some? && id == posted.id && ValidExpense(posted) && IndexOfKey(old(db.expenses), ExpenseKey, id).Some? ==>
      var row := posted.(owner := session);
      outcome == Saved &&
      db.expenses == old(db.expenses)[IndexOfKey(old(db.expenses), ExpenseKey, id).value := row] &&
      db.reminders == old(db.reminders) + AsSeq(ExpenseAlert(db.expenses, db.budgets, row, now, old(db.nextReminderId)))
  {
    if session.None? {
      return LoginRequired;
    }
    if id != posted.id {
      return NotFound;
    }
    var row := posted.(owner := session);
    if !ValidExpense(row) {
      return FormRejected;
    }
    var found := IndexOfKey(db.expenses, ExpenseKey, id);
    if found.None? {
      return NotFound;
    }
    TableReplace(db.expenses, ExpenseKey, db.nextExpenseId, ValidExpense, found.value, row);
    db.expenses := db.expenses[found.value := row];
    CheckExpenseBudget(db, row, now);
    outcome := Saved;
  }

  /** The first expense with this key that the user owns. */
  function OwnedExpense(expenses: seq<Expense>, id: int, user: int): (r: Option<nat>)
    ensures r.Some? ==> r.value < |expenses| && expenses[r.value].id == id && expenses[r.value].owner == Some(user)
    ensures r.None? ==> forall x :: x in expenses ==> !(x.id == id && x.owner == Some(user))
  {
    var r := FirstIndex(expenses, (e: Expense) => e.id == id && e.owner == Some(user));
    assert r.None? ==> forall j :: 0 <= j < |expenses| ==> !(expenses[j].id == id && expenses[j].owner == Some(user));
    r
  }

  /** POST Delete: an expense the user owns is removed; no budget check and no goal update follow. */
  method DeleteExpense(db: Db, session: Option<int>, id: int) returns (outcome: Outcome)
    requires db.Valid()
    modifies db`expenses
    ensures db.Valid()
    ensures session.None? ==> outcome == LoginRequired && unchanged(db)
    ensures session.Some? && OwnedExpense(old(db.expenses), id, session.value).None? ==>
      outcome == Saved && unchanged(db)
    ensures session.Some? && OwnedExpense(old(db.expenses), id, session.value).Some? ==>
      outcome == Saved && db.expenses == RemoveAt(old(db.expenses), OwnedExpense(old(db.expenses), id, session.value).value)
  {
    if session.None? {
      return LoginRequired;
    }
    var found := OwnedExpense(db.expenses, id, session.value);
    if found.Some? {
      TableRemove(db.expenses, ExpenseKey, db.nextExpenseId, ValidExpense, found.value);
      db.expenses := RemoveAt(db.expenses, found.value);
    }
    outcome := Saved;
  }
}
