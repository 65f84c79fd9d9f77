// The records of the personal-finance store (users, categories, expenses,
// incomes, monthly budgets, saving goals, reminders), the validation rules
// their data annotations impose on posted forms, and the goal's derived
// completion percentage.
module Entities {
  import opened Common
  import opened Calendar

  /** Category kinds allowed by the CK_DanhMuc_Loai check constraint. */
  const KindExpense: string := "ChiTieu"
  const KindIncome: string := "ThuNhap"

  /** Reminder type tags written by the controllers. */
  const TagGoal: string := "MucTieu"
  const TagOverBudget: string := "VuotNganSach"

  /**
   * What a reminder says. User-written reminders carry their text; the ones
   * the application writes itself carry the values their message
   * interpolates (the wording and the N0 number formatting are not modelled).
   */
  datatype Content =
    | Text(text: string)
    | NewGoal(goalName: string, target: Money, deadline: Option<Date>)
    | GoalCompleted(goalName: string, target: Money)
    | OverBudget(month: int, year: int, spent: Money, cap: Money)

  datatype User = User(
    id: int, userName: string, password: string,
    fullName: Option<string>, email: Option<string>, phone: Option<string>,
    address: Option<string>, avatar: Option<string>,
    failedLogins: Option<int>, lockedUntil: Option<Instant>)

  datatype Category = Category(
    id: int, name: string, kind: string, group: Option<string>,
    note: Option<string>, owner: Option<int>)

  datatype Expense = Expense(
    id: int, owner: Option<int>, category: Option<int>,
    amount: Money, date: Date, note: Option<string>)

  /** `received` is the actual receipt date; month/year name the month the income counts for. */
  datatype Income = Income(
    id: int, owner: Option<int>, category: Option<int>, amount: Money,
    received: Date, month: Option<int>, year: Option<int>, note: Option<string>)

  datatype Budget = Budget(
    id: int, owner: Option<int>, category: Option<int>,
    cap: Money, month: int, year: int)

  datatype Goal = Goal(
    id: int, owner: Option<int>, name: string, target: Money,
    saved: Option<Money>, deadline: Option<Date>)

  datatype Reminder = Reminder(
    id: int, owner: Option<int>, content: Option<Content>,
    time: Instant, kind: Option<string>)

  // ----- Data-annotation validation ------------------------------------------

  /**
   * char.IsWhiteSpace of .NET: tab to carriage return, space, next line
   * (U+0085), no-break space, and the space separators and line and
   * paragraph separators of Unicode.
   */
  predicate IsWhiteSpace(c: char)
  {
    ('\t' <= c <= '\r') || c == ' ' || c == '\U{0085}' || c == '\U{00A0}' || c == '\U{1680}' ||
    ('\U{2000}' <= c <= '\U{200A}') || c == '\U{2028}' || c == '\U{2029}' || c == '\U{202F}' ||
    c == '\U{205F}' || c == '\U{3000}'
  }

  /** [Required] on a string: present and not only white space. */
  predicate HasText(s: string)
  {
    exists i :: 0 <= i < |s| && !IsWhiteSpace(s[i])
  }

  /** [StringLength(n)] on a nullable string. */
  predicate AtMost(s: Option<string>, n: nat)
  {
    s.None? || |s.value| <= n
  }

  /** The failed-login counter, when set, is never negative. */
  predicate UserRowOk(u: User)
  {
    u.failedLogins.None? || u.failedLogins.value >= 0
  }

  predicate ValidExpense(e: Expense)
  {
    e.amount >= 1 && ValidDate(e.date) && AtMost(e.note, 200)
  }

  predicate ValidIncome(i: Income)
  {
    i.amount >= 1 && ValidDate(i.received) && AtMost(i.note, 200) &&
    (i.month.None? || 1 <= i.month.value <= 12) &&
    (i.year.None? || 2020 <= i.year.value <= 2030)
  }

  predicate ValidBudget(b: Budget)
  {
    1 <= b.month <= 12 && 2000 <= b.year <= 2100
  }

  predicate ValidGoal(g: Goal)
  {
    HasText(g.name) && |g.name| <= 100 && (g.deadline.None? || ValidDate(g.deadline.value))
  }

  /** The form rules; the kind is constrained by the database, see CategoryKindAllowed. */
  predicate ValidCategory(c: Category)
  {
    HasText(c.name) && |c.name| <= 100 && |c.kind| <= 20 && AtMost(c.group, 20) && AtMost(c.note, 200)
  }

  predicate CategoryKindAllowed(c: Category)
  {
    c.kind == KindExpense || c.kind == KindIncome
  }

  predicate ValidReminder(r: Reminder)
  {
    ValidInstant(r.time) && AtMost(r.kind, 50) &&
    (r.content.None? || !r.content.value.Text? || |r.content.value.text| <= 200)
  }

  /** The amount column, as a function for sums over a table. */
  function ExpenseAmount(e: Expense): int { e.amount }
  function IncomeAmount(i: Income): int { i.amount }

  // ----- MucTieu.PhanTramHoanThanh ------------------------------------------

  function SavedSoFar(g: Goal): Money
  {
    OrZero(g.saved)
  }

  /**
   * The progress shown for a goal: zero when the target is not positive,
   * otherwise saved/target as a whole percentage (rounded half to even)
   * capped at 100, cast to `int`. The cast throws below the `int` range,
   * which only negative savings reach: None.
   */
  function CompletionPercent(g: Goal): (r: Option<int>)
    ensures r.Some? ==> -0x8000_0000 <= r.value <= 100
    ensures g.target <= 0 ==> r == Some(0)
    ensures r.None? ==> g.target > 0 && SavedSoFar(g) < 0
    ensures g.target > 0 && r.Some? && r.value < 100 ==>
      2 * (r.value * g.target - SavedSoFar(g) * 100) <= g.target &&
      2 * (SavedSoFar(g) * 100 - r.value * g.target) <= g.target
  {
    if g.target <= 0 then Some(0)
    else
      var p := Min(100, RoundHalfEven(SavedSoFar(g) * 100, g.target));
      assert SavedSoFar(g) >= 0 ==> p >= 0 by {
        if SavedSoFar(g) >= 0 {
          RoundHalfEvenMonotone(0, SavedSoFar(g) * 100, g.target);
          RoundHalfEvenUnique(0, g.target, 0);
        }
      }
      if p < -0x8000_0000 then None else Some(p)
  }

  /** The cast throws exactly when saved/target lies below -2^31 % by at least half a percent. */
  lemma CompletionPercentThrows(g: Goal)
    ensures CompletionPercent(g).None? <==>
      g.target > 0 && 2 * (SavedSoFar(g) * 100) < (2 * -0x8000_0000 - 1) * g.target
  {
    if g.target > 0 {
      RoundHalfEvenAtLeast(SavedSoFar(g) * 100, g.target, -0x8000_0000);
    }
  }

  /** A target of 1.00 with savings of -30,000,000.00 is -3,000,000,000 %: the getter throws. */
  lemma CompletionPercentOverflowExample()
    ensures CompletionPercent(Goal(1, Some(1), "g", 100, Some(-3_000_000_000), None)).None?
  {
    CompletionPercentThrows(Goal(1, Some(1), "g", 100, Some(-3_000_000_000), None));
  }

  /** A goal whose savings reach a positive target shows exactly 100. */
  lemma CompletionPercentFull(g: Goal)
    requires g.target > 0 && SavedSoFar(g) >= g.target
    ensures CompletionPercent(g) == Some(100)
  {
    RoundHalfEvenMonotone(100 * g.target, SavedSoFar(g) * 100, g.target);
    RoundHalfEvenUnique(100 * g.target, g.target, 100);
  }

  /** Savings short of a positive target show less than 100 unless within half a percent. */
  lemma CompletionPercentBelowFull(g: Goal)
    requires g.target > 0 && 200 * SavedSoFar(g) < 199 * g.target
    ensures CompletionPercent(g).None? || CompletionPercent(g).value < 100
  {
    RoundHalfEvenAtLeast(SavedSoFar(g) * 100, g.target, 100);
    assert 2 * (SavedSoFar(g) * 100) < (2 * 100 - 1) * g.target;
  }

  /** Non-negative savings always show a percentage, and never a negative one. */
  lemma CompletionPercentNonNegative(g: Goal)
    requires SavedSoFar(g) >= 0
    ensures CompletionPercent(g).Some? && CompletionPercent(g).value >= 0
  {
    if g.target > 0 {
      RoundHalfEvenMonotone(0, SavedSoFar(g) * 100, g.target);
      RoundHalfEvenUnique(0, g.target, 0);
    }
  }

  /** Saving more never lowers the percentage, nor makes a shown percentage throw. */
  lemma CompletionPercentMonotone(g: Goal, more: Money)
    requires SavedSoFar(g) <= more
    ensures CompletionPercent(g).Some? ==>
      CompletionPercent(g.(saved := Some(more))).Some? &&
      CompletionPercent(g).value <= CompletionPercent(g.(saved := Some(more))).value
  {
    if g.target > 0 {
      RoundHalfEvenMonotone(SavedSoFar(g) * 100, more * 100, g.target);
    }
  }
}
