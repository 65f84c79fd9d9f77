// The application's database context: one table per entity, an identity
// counter that hands out fresh keys, and the constraints the schema and the
// validated write paths keep on the rows.
module Store {
  import opened Common
  import opened Calendar
  import opened Entities

  /** Every key is below the identity counter and no two rows share a key. */
  predicate KeysOk<T>(rows: seq<T>, key: T -> int, next: int)
  {
    (forall i :: 0 <= i < |rows| ==> key(rows[i]) < next) &&
    (forall i, j :: 0 <= i < j < |rows| ==> key(rows[i]) != key(rows[j]))
  }

  /** A table in good shape: fresh distinct keys and every row satisfying the row rule `ok`. */
  predicate TableOk<T>(rows: seq<T>, key: T -> int, next: int, ok: T -> bool)
  {
    KeysOk(rows, key, next) && forall i :: 0 <= i < |rows| ==> ok(rows[i])
  }

  /** Inserting a row keyed by the counter, which then moves on. */
  lemma TableAppend<T>(rows: seq<T>, key: T -> int, next: int, ok: T -> bool, row: T)
    requires TableOk(rows, key, next, ok) && key(row) == next && ok(row)
    ensures TableOk(rows + [row], key, next + 1, ok)
  {
  }

  /** Inserting several rows keyed by consecutive counter values. */
  lemma {:induction false} TableAppendMany<T>(rows: seq<T>, key: T -> int, next: int, ok: T -> bool, more: seq<T>)
    requires TableOk(rows, key, next, ok)
    requires forall k :: 0 <= k < |more| ==> key(more[k]) == next + k && ok(more[k])
    ensures TableOk(rows + more, key, next + |more|, ok)
    decreases |more|
  {
    if more != [] {
      TableAppend(rows, key, next, ok, more[0]);
      TableAppendMany(rows + [more[0]], key, next + 1, ok, more[1..]);
      assert rows + more == rows + [more[0]] + more[1..];
    }
  }

  /** Updating the row at index i without changing its key. */
  lemma TableReplace<T>(rows: seq<T>, key: T -> int, next: int, ok: T -> bool, i: nat, row: T)
    requires TableOk(rows, key, next, ok) && i < |rows| && key(row) == key(rows[i]) && ok(row)
    ensures TableOk(rows[i := row], key, next, ok)
  {
  }

  /** Removing the row at index i. */
  lemma TableRemove<T>(rows: seq<T>, key: T -> int, next: int, ok: T -> bool, i: nat)
    requires TableOk(rows, key, next, ok) && i < |rows|
    ensures TableOk(RemoveAt(rows, i), key, next, ok)
  {
    var r := RemoveAt(rows, i);
    assert r == rows[..i] + rows[i+1..];
    forall a, b | 0 <= a < b < |r|
      ensures key(r[a]) != key(r[b])
    {
      var a' := if a < i then a else a + 1;
      var b' := if b < i then b else b + 1;
      assert r[a] == rows[a'] && r[b] == rows[b'];
    }
    forall a | 0 <= a < |r|
      ensures ok(r[a])
    {
      assert r[a] == rows[if a < i then a else a + 1];
    }
  }

  /** The index of the first row with the given key, if any (FindAsync / FirstOrDefault by key). */
  function IndexOfKey<T>(rows: seq<T>, key: T -> int, k: int): (r: Option<nat>)
    ensures r.Some? ==> r.value < |rows| && key(rows[r.value]) == k
    ensures r.Some? ==> forall j :: 0 <= j < r.value ==> key(rows[j]) != k
    ensures r.None? ==> forall j :: 0 <= j < |rows| ==> key(rows[j]) != k
    decreases |rows|
  {
    if rows == [] then None
    else if key(rows[0]) == k then Some(0)
    else
      var t := IndexOfKey(rows[1..], key, k);
      if t.Some? then Some(t.value + 1) else None
  }

  /** The index of the first row satisfying `p` (LINQ FirstOrDefault with a predicate). */
  function FirstIndex<T>(rows: seq<T>, p: T -> bool): (r: Option<nat>)
    ensures r.Some? ==> r.value < |rows| && p(rows[r.value])
    ensures r.Some? ==> forall j :: 0 <= j < r.value ==> !p(rows[j])
    ensures r.None? ==> forall j :: 0 <= j < |rows| ==> !p(rows[j])
    decreases |rows|
  {
    if rows == [] then None
    else if p(rows[0]) then Some(0)
    else
      var t := FirstIndex(rows[1..], p);
      if t.Some? then Some(t.value + 1) else None
  }

  function RemoveAt<T>(rows: seq<T>, i: nat): (r: seq<T>)
    requires i < |rows|
    ensures |r| == |rows| - 1
    ensures multiset(r) + multiset{rows[i]} == multiset(rows)
  {
    assert rows == rows[..i] + [rows[i]] + rows[i+1..];
    rows[..i] + rows[i+1..]
  }

  /** Removing a row the predicate rejects leaves the selection unchanged. */
  lemma FilterRemoveAt<T>(rows: seq<T>, i: nat, p: T -> bool)
    requires i < |rows| && !p(rows[i])
    ensures Filter(RemoveAt(rows, i), p) == Filter(rows, p)
  {
    var a, c := rows[..i], rows[i..];
    assert rows == a + c;
    assert c[1..] == rows[i+1..];
    assert RemoveAt(rows, i) == a + c[1..];
    assert Filter(c, p) == Filter(c[1..], p);
    FilterConcat(a, c, p);
    FilterConcat(a, c[1..], p);
  }

  /**
   * How a controller action ends, as far as the store is concerned: sent to
   * the login page, NotFound, the form shown again, the change saved, a
   * redirect carrying an error message, or the error page after the
   * database refused the save (a check constraint it enforces).
   */
  datatype Outcome = LoginRequired | NotFound | FormRejected | Saved | Refused | Faulted

  /** What a read-only page shows: the login redirect, an error, or its content. */
  datatype Page<T> = ToLogin | Failed | Shown(content: T)

  function UserKey(u: User): int { u.id }
  function CategoryKey(c: Category): int { c.id }
  function ExpenseKey(e: Expense): int { e.id }
  function IncomeKey(i: Income): int { i.id }
  function BudgetKey(b: Budget): int { b.id }
  function GoalKey(g: Goal): int { g.id }
  function ReminderKey(r: Reminder): int { r.id }

  class Db {
    var users: seq<User>
    var categories: seq<Category>
    var expenses: seq<Expense>
    var incomes: seq<Income>
    var budgets: seq<Budget>
    var goals: seq<Goal>
    var reminders: seq<Reminder>
    /** The next identity value of each table. */
    var nextUserId: int
    var nextCategoryId: int
    var nextExpenseId: int
    var nextIncomeId: int
    var nextBudgetId: int
    var nextGoalId: int
    var nextReminderId: int

    ghost predicate Valid()
      reads this
    {
      TableOk(users, UserKey, nextUserId, UserRowOk) &&
      TableOk(categories, CategoryKey, nextCategoryId, CategoryKindAllowed) &&
      TableOk(expenses, ExpenseKey, nextExpenseId, ValidExpense) &&
      TableOk(incomes, IncomeKey, nextIncomeId, ValidIncome) &&
      TableOk(budgets, BudgetKey, nextBudgetId, ValidBudget) &&
      TableOk(goals, GoalKey, nextGoalId, ValidGoal) &&
      TableOk(reminders, ReminderKey, nextReminderId, ValidReminder)
    }

    constructor ()
      ensures Valid()
      ensures users == [] && categories == [] && expenses == [] && incomes == []
      ensures budgets == [] && goals == [] && reminders == []
    {
      users, categories, expenses, incomes := [], [], [], [];
      budgets, goals, reminders := [], [], [];
      nextUserId, nextCategoryId, nextExpenseId, nextIncomeId := 1, 1, 1, 1;
      nextBudgetId, nextGoalId, nextReminderId := 1, 1, 1;
    }
  }

  /** Adds a reminder keyed by the reminder counter (NhacNhos.Add followed by SaveChanges). */
  method AddReminder(db: Db, note: Reminder)
    requires db.Valid() && ValidReminder(note) && note.id == db.nextReminderId
    modifies db`reminders, db`nextReminderId
    ensures db.Valid()
    ensures db.reminders == old(db.reminders) + [note]
    ensures db.nextReminderId == old(db.nextReminderId) + 1
  {
    TableAppend(db.reminders, ReminderKey, db.nextReminderId, ValidReminder, note);
    db.reminders := db.reminders + [note];
    db.nextReminderId := db.nextReminderId + 1;
  }

  /**
   * Adds reminders keyed by consecutive counter values in one save
   * (several NhacNhos.Add followed by one SaveChanges).
   */
  method AddReminders(db: Db, notes: seq<Reminder>)
    requires db.Valid()
    requires forall k :: 0 <= k < |notes| ==> ValidReminder(notes[k]) && notes[k].id == db.nextReminderId + k
    modifies db`reminders, db`nextReminderId
    ensures db.Valid()
    ensures db.reminders == old(db.reminders) + notes
    ensures db.nextReminderId == old(db.nextReminderId) + |notes|
  {
    TableAppendMany(db.reminders, ReminderKey, db.nextReminderId, ValidReminder, notes);
    db.reminders := db.reminders + notes;
    db.nextReminderId := db.nextReminderId + |notes|;
  }
}
