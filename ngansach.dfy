// Monthly budgets (NganSachController): the usage listing, create and edit
// under the one-budget-per-slot rule, delete, and the over-budget reminder
// written after an edit.
module NganSach {
  import opened Common
  import opened Calendar
  import opened Entities
  import opened Store

  /** The date lies in the inclusive window [first, last]. */
  predicate InWindow(d: Date, first: Date, last: Date)
  {
    DateLe(first, d) && DateLe(d, last)
  }

  /** The spend of one owner in one category (null matching null) between two dates inclusive. */
  function WindowSpend(expenses: seq<Expense>, owner: Option<int>, category: Option<int>, first: Date, last: Date): Money
  {
    SumOf(Filter(expenses, (e: Expense) => e.owner == owner && e.category == category && InWindow(e.date, first, last)), ExpenseAmount)
  }

  /** The spend counted against a budget: its owner, its category, its month. */
  function BudgetSpend(expenses: seq<Expense>, b: Budget): Money
    requires 1 <= b.month <= 12
  {
    WindowSpend(expenses, b.owner, b.category, FirstOfMonth(b.year, b.month), LastOfMonth(b.year, b.month))
  }

  /**
   * Usage of a budget in hundredths of a percent: spent/cap * 100 rounded
   * to two decimals (half to even), and 0 when the cap is not positive.
   */
  function UsagePercent(spent: Money, cap: Money): (r: int)
    ensures cap <= 0 ==> r == 0
    ensures cap > 0 ==> 2 * (r * cap - spent * 10000) <= cap && 2 * (spent * 10000 - r * cap) <= cap
  {
    if cap > 0 then RoundHalfEven(spent * 10000, cap) else 0
  }

  /** Spending more never shows a lower usage. */
  lemma UsagePercentMonotone(spent1: Money, spent2: Money, cap: Money)
    requires spent1 <= spent2
    ensures UsagePercent(spent1, cap) <= UsagePercent(spent2, cap)
  {
    if cap > 0 {
      RoundHalfEvenMonotone(spent1 * 10000, spent2 * 10000, cap);
    }
  }

  /** A positive cap shows at least 100% exactly when the spend reaches 99.995% of it. */
  lemma UsageAtLeastFull(spent: Money, cap: Money)
    requires cap > 0
    ensures UsagePercent(spent, cap) >= 10000 <==> 20000 * spent >= 19999 * cap
  {
    RoundHalfEvenAtLeast(spent * 10000, cap, 10000);
  }

  // ----- Index --------------------------------------------------------------

  /** One row of the budget listing. */
  datatype BudgetUsage = BudgetUsage(budget: Budget, spent: Money, percent: int)

  /** The user's budgets for the month. */
  function MonthBudgets(budgets: seq<Budget>, user: int, month: int, year: int): (r: seq<Budget>)
    ensures forall b :: b in r <==> b in budgets && b.owner == Some(user) && b.month == month && b.year == year
  {
    Filter(budgets, (b: Budget) => b.owner == Some(user) && b.month == month && b.year == year)
  }

  /** The month's budgets keep table order, each listed as often as it is stored. */
  lemma MonthBudgetsInTableOrder(budgets: seq<Budget>, user: int, month: int, year: int)
    ensures IsSubsequence(MonthBudgets(budgets, user, month, year), budgets)
    ensures forall b :: (multiset(MonthBudgets(budgets, user, month, year))[b] ==
      if b.owner == Some(user) && b.month == month && b.year == year then multiset(budgets)[b] else 0)
  {
    var p := (b: Budget) => b.owner == Some(user) && b.month == month && b.year == year;
    FilterKeepsOrder(budgets, p);
    FilterCounts(budgets, p);
  }

  /** The listing row of one budget of the month: the user's spend in its category and the usage. */
  function UsageRow(b: Budget, expenses: seq<Expense>, user: int, month: int, year: int): BudgetUsage
    requires 1 <= month <= 12
  {
    var spent := WindowSpend(expenses, Some(user), b.category, FirstOfMonth(year, month), LastOfMonth(year, month));
    BudgetUsage(b, spent, UsagePercent(spent, b.cap))
  }

  /**
   * GET Index: month and year default to today's; a month outside 1..12
   * (or a year before 1) makes the first-of-month date throw; otherwise
   * one usage row per budget of the month.
   */
  method BudgetIndex(budgets: seq<Budget>, expenses: seq<Expense>, session: Option<int>,
                     month: Option<int>, year: Option<int>, today: Date)
    returns (page: Page<seq<BudgetUsage>>)
    ensures session.None? ==> page == ToLogin
    ensures session.Some? ==>
      var m := if month.Some? then month.value else today.month;
      var y := if year.Some? then year.value else today.year;
      (page.Failed? <==> !(1 <= m <= 12 && y >= 1)) &&
      (page.Shown? <==> 1 <= m <= 12 && y >= 1) &&
      (page.Shown? ==>
        |page.content| == |MonthBudgets(budgets, session.value, m, y)| &&
        forall k :: 0 <= k < |page.content| ==>
          page.content[k] == UsageRow(MonthBudgets(budgets, session.value, m, y)[k], expenses, session.value, m, y))
  {
    if session.None? {
      return ToLogin;
    }
    var user := session.value;
    var m := if month.Some? then month.value else today.month;
    var y := if year.Some? then year.value else today.year;
    if !(1 <= m <= 12 && y >= 1) {
      return Failed;
    }
    var rows := MonthBudgets(budgets, user, m, y);
    var first := FirstOfMonth(y, m);
    var last := LastOfMonth(y, m);
    var out: seq<BudgetUsage> := [];
    var k := 0;
    while k < |rows|
      invariant 0 <= k <= |rows| && |out| == k
      invariant forall j :: 0 <= j < k ==> out[j] == UsageRow(rows[j], expenses, user, m, y)
    {
      var spent := WindowSpend(expenses, session, rows[k].category, first, last);
      var percent := if rows[k].cap > 0 then RoundHalfEven(spent * 10000, rows[k].cap) else 0;
      ghost var prev := out;
      out := out + [BudgetUsage(rows[k], spent, percent)];
      assert out[k] == UsageRow(rows[k], expenses, user, m, y);
      assert forall j :: 0 <= j < k ==> out[j] == prev[j];
      k := k + 1;
    }
    page := Shown(out);
  }

  // ----- One budget per (owner, category, month, year) ----------------------

  predicate SameSlot(a: Budget, b: Budget)
  {
    a.owner == b.owner && a.category == b.category && a.month == b.month && a.year == b.year
  }

  /** No two budgets share a slot. */
  predicate UniqueSlots(budgets: seq<Budget>)
  {
    forall i, j :: 0 <= i < j < |budgets| ==> !SameSlot(budgets[i], budgets[j])
  }

  /** Some budget other than the one keyed `except` already holds the slot of `b`. */
  predicate SlotTaken(budgets: seq<Budget>, b: Budget, except: Option<int>)
  {
    exists i :: 0 <= i < |budgets| && SameSlot(budgets[i], b) && (except.None? || budgets[i].id != except.value)
  }

  /** Adding a budget whose slot is free keeps the slots unique. */
  lemma AppendFreeSlot(budgets: seq<Budget>, b: Budget)
    requires UniqueSlots(budgets) && !SlotTaken(budgets, b, None)
    ensures UniqueSlots(budgets + [b])
  {
    var r := budgets + [b];
    forall i, j | 0 <= i < j < |r|
      ensures !SameSlot(r[i], r[j])
    {
      if j == |budgets| {
        assert !SameSlot(budgets[i], b);
      }
    }
  }

  /** Moving budget k into a slot no other budget holds keeps the slots unique. */
  lemma ReplaceFreeSlot(budgets: seq<Budget>, k: nat, b: Budget)
    requires UniqueSlots(budgets) && k < |budgets| && b.id == budgets[k].id
    requires forall i, j :: 0 <= i < j < |budgets| ==> budgets[i].id != budgets[j].id
    requires !SlotTaken(budgets, b, Some(b.id))
    ensures UniqueSlots(budgets[k := b])
  {
    var r := budgets[k := b];
    forall i, j | 0 <= i < j < |r|
      ensures !SameSlot(r[i], r[j])
    {
      if i == k {
        assert budgets[j].id != b.id;
        assert !SameSlot(budgets[j], b);
      } else if j == k {
        assert budgets[i].id != b.id;
        assert !SameSlot(budgets[i], b);
      }
    }
  }

  /** POST Create: a valid budget is saved as the user's unless its slot is taken; no overage check. */
  method CreateBudget(db: Db, session: Option<int>, posted: Budget) returns (outcome: Outcome)
    requires db.Valid()
    modifies db`budgets, db`nextBudgetId
    ensures db.Valid()
    ensures session.None? ==> outcome == LoginRequired && unchanged(db)
    ensures session.Some? && !ValidBudget(posted) ==> outcome == FormRejected && unchanged(db)
    ensures session.Some? && ValidBudget(posted) && SlotTaken(old(db.budgets), posted.(owner := session), None) ==>
      outcome == FormRejected && unchanged(db)
    ensures session.Some? && ValidBudget(posted) && !SlotTaken(old(db.budgets), posted.(owner := session), None) ==>
      outcome == Saved && db.budgets == old(db.budgets) + [posted.(id := old(db.nextBudgetId), owner := session)]
    ensures UniqueSlots(old(db.budgets)) ==> UniqueSlots(db.budgets)
  {
    if session.None? {
      return LoginRequired;
    }
    var row := posted.(owner := session);
    if !ValidBudget(row) {
      return FormRejected;
    }
    if exists i :: 0 <= i < |db.budgets| && SameSlot(db.budgets[i], row) {
      return FormRejected;
    }
    row := row.(id := db.nextBudgetId);
    assert SameSlot(row, posted.(owner := session));
    if UniqueSlots(db.budgets) {
      AppendFreeSlot(db.budgets, row);
    }
    TableAppend(db.budgets, BudgetKey, db.nextBudgetId, ValidBudget, row);
    db.budgets := db.budgets + [row];
    db.nextBudgetId := db.nextBudgetId + 1;
    outcome := Saved;
  }

  /** The first budget with this key that the user owns. */
  function OwnedBudget(budgets: seq<Budget>, id: int, user: int): (r: Option<nat>)
    ensures r.Some? ==> r.value < |budgets| && budgets[r.value].id == id && budgets[r.value].owner == Some(user)
    ensures r.None? ==> forall b :: b in budgets ==> !(b.id == id && b.owner == Some(user))
  {
    var r := FirstIndex(budgets, (b: Budget) => b.id == id && b.owner == Some(user));
    assert r.None? ==> forall j :: 0 <= j < |budgets| ==> !(budgets[j].id == id && budgets[j].owner == Some(user));
    r
  }

  /** The fields an edit copies onto the stored budget: cap, month, year, category. */
  function EditedBudget(stored: Budget, posted: Budget): (r: Budget)
    ensures r.id == stored.id && r.owner == stored.owner
    ensures r.cap == posted.cap && r.month == posted.month && r.year == posted.year && r.category == posted.category
  {
    stored.(cap := posted.cap, month := posted.month, year := posted.year, category := posted.category)
  }

  /**
   * The reminder written when a budget's month spend exceeds a positive cap
   * (KiemTraVuotNganSach); nothing for a budget without owner or category.
   */
  function OverrunAlert(expenses: seq<Expense>, b: Budget, now: Instant, id: int): (r: Option<Reminder>)
    requires 1 <= b.month <= 12
    ensures r.Some? <==> b.owner.Some? && b.category.Some? && b.cap > 0 && BudgetSpend(expenses, b) > b.cap
    ensures r.Some? ==> r.value == Reminder(id, b.owner, Some(OverBudget(b.month, b.year, BudgetSpend(expenses, b), b.cap)), now, Some(TagOverBudget))
  {
    if b.owner.Some? && b.category.Some? then
      var spent := BudgetSpend(expenses, b);
      if spent > b.cap && b.cap > 0 then
        Some(Reminder(id, b.owner, Some(OverBudget(b.month, b.year, spent, b.cap)), now, Some(TagOverBudget)))
      else None
    else None
  }

  /** A budget that triggers the reminder shows a usage of at least 100%. */
  lemma OverrunMeansFullUsage(expenses: seq<Expense>, b: Budget, now: Instant, id: int)
    requires 1 <= b.month <= 12 && OverrunAlert(expenses, b, now, id).Some?
    ensures UsagePercent(BudgetSpend(expenses, b), b.cap) >= 10000
  {
    UsageAtLeastFull(BudgetSpend(expenses, b), b.cap);
  }

  /** A cap of zero or less never triggers the reminder, however much is spent. */
  lemma NonPositiveCapNeverAlerts(expenses: seq<Expense>, b: Budget, now: Instant, id: int)
    requires 1 <= b.month <= 12 && b.cap <= 0
    ensures OverrunAlert(expenses, b, now, id).None?
  {
  }

  /** KiemTraVuotNganSach: appends the over-budget reminder when it is due. */
  method CheckBudgetOverrun(db: Db, b: Budget, now: Instant)
    requires db.Valid() && ValidInstant(now) && ValidBudget(b)
    modifies db`reminders, db`nextReminderId
    ensures db.Valid()
    ensures db.reminders == old(db.reminders) + AsSeq(OverrunAlert(db.expenses, b, now, old(db.nextReminderId)))
    ensures db.nextReminderId == old(db.nextReminderId) + |AsSeq(OverrunAlert(db.expenses, b, now, old(db.nextReminderId)))|
  {
    if b.category.Some? && b.owner.Some? {
      var spent := WindowSpend(db.expenses, b.owner, b.category, FirstOfMonth(b.year, b.month), LastOfMonth(b.year, b.month));
      if spent > b.cap && b.cap > 0 {
        var note := Reminder(db.nextReminderId, b.owner, Some(OverBudget(b.month, b.year, spent, b.cap)), now, Some(TagOverBudget));
        TableAppend(db.reminders, ReminderKey, db.nextReminderId, ValidReminder, note);
        db.reminders := db.reminders + [note];
        db.nextReminderId := db.nextReminderId + 1;
      }
    }
  }

  /**
   * POST Edit: the budget must be the user's; a valid form whose slot is
   * free elsewhere copies cap, month, year and category onto it, then the
   * overage check runs on the updated budget.
   */
  method EditBudget(db: Db, session: Option<int>, id: int, posted: Budget, now: Instant) returns (outcome: Outcome)
    requires db.Valid() && ValidInstant(now)
    modifies db`budgets, db`reminders, db`nextReminderId
    ensures db.Valid()
    ensures session.None? ==> outcome == LoginRequired && unchanged(db)
    ensures session.Some? && (id != posted.id || OwnedBudget(old(db.budgets), id, session.value).None?) ==>
      outcome == NotFound && unchanged(db)
    ensures session.Some? && id == posted.id && OwnedBudget(old(db.budgets), id, session.value).Some? ==>
      var k := OwnedBudget(old(db.budgets), id, session.value).value;
      var row := EditedBudget(old(db.budgets)[k], posted);
      if !ValidBudget(posted) || SlotTaken(old(db.budgets), posted.(owner := session), Some(id)) then
        outcome == FormRejected && unchanged(db)
      else
        outcome == Saved && db.budgets == old(db.budgets)[k := row] &&
        db.reminders == old(db.reminders) + AsSeq(OverrunAlert(db.expenses, row, now, old(db.nextReminderId)))
    ensures UniqueSlots(old(db.budgets)) ==> UniqueSlots(db.budgets)
  {
    if session.None? {
      return LoginRequired;
    }
    var user := session.value;
    if id != posted.id {
      return NotFound;
    }
    var found := OwnedBudget(db.budgets, id, user);
    if found.None? {
      return NotFound;
    }
    if !ValidBudget(posted) {
      return FormRejected;
    }
    var slot := posted.(owner := session);
    if exists i :: 0 <= i < |db.budgets| && SameSlot(db.budgets[i], slot) && db.budgets[i].id != id {
      return FormRejected;
    }
    var k := found.value;
    var row := EditedBudget(db.budgets[k], posted);
    assert SameSlot(row, slot);
    SaveBudget(db, k, row, now);
    outcome := Saved;
  }

  /** Stores the edited row in place of row k, then runs the overage check on it. */
  method SaveBudget(db: Db, k: nat, row: Budget, now: Instant)
    requires db.Valid() && ValidInstant(now) && ValidBudget(row)
    requires k < |db.budgets| && row.id == db.budgets[k].id && !SlotTaken(db.budgets, row, Some(row.id))
    modifies db`budgets, db`reminders, db`nextReminderId
    ensures db.Valid()
    ensures db.budgets == old(db.budgets)[k := row]
    ensures db.reminders == old(db.reminders) + AsSeq(OverrunAlert(db.expenses, row, now, old(db.nextReminderId)))
    ensures UniqueSlots(old(db.budgets)) ==> UniqueSlots(db.budgets)
  {
    if UniqueSlots(db.budgets) {
      ReplaceFreeSlot(db.budgets, k, row);
    }
    TableReplace(db.budgets, BudgetKey, db.nextBudgetId, ValidBudget, k, row);
    db.budgets := db.budgets[k := row];
    CheckBudgetOverrun(db, row, now);
  }

  /** POST Delete: only a budget the user owns is removed; otherwise an error and no change. */
  method DeleteBudget(db: Db, session: Option<int>, id: int) returns (outcome: Outcome)
    requires db.Valid()
    modifies db`budgets
    ensures db.Valid()
    ensures session.None? ==> outcome == LoginRequired && unchanged(db)
    ensures session.Some? && OwnedBudget(old(db.budgets), id, session.value).None? ==>
      outcome == Refused && unchanged(db)
    ensures session.Some? && OwnedBudget(old(db.budgets), id, session.value).Some? ==>
      outcome == Saved && db.budgets == RemoveAt(old(db.budgets), OwnedBudget(old(db.budgets), id, session.value).value)
  {
    if session.None? {
      return LoginRequired;
    }
    var found := OwnedBudget(db.budgets, id, session.value);
    if found.None? {
      return Refused;
    }
    TableRemove(db.budgets, BudgetKey, db.nextBudgetId, ValidBudget, found.value);
    db.budgets := RemoveAt(db.budgets, found.value);
    outcome := Saved;
  }
}
