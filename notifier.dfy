// The background notifier (ReminderBackgroundService). Each pass does two
// things:
//   - it mails every reminder falling due within the next five minutes;
//   - it warns each user by mail about the current month's budgets that are
//     between 80% and 100% used.
// Neither pass writes to the store. The mails are the passes' output.
module Notifier {
  import opened Common
  import opened Calendar
  import opened Entities
  import opened Store
  import opened NganSach
  import opened ChiTieu

  /** The look-ahead of the reminder pass: five minutes. */
  const WindowSeconds: nat := 300

  /** The user's display name: the full name when set, otherwise the login name. */
  function DisplayName(u: User): string
  {
    if u.fullName.Some? then u.fullName.value else u.userName
  }

  /** Mail goes only to a user whose email is neither null nor empty. */
  predicate Mailable(u: User)
  {
    !NullOrEmpty(u.email)
  }

  // ----- Reminder mails --------------------------------------------------------------

  /** The reminder falls due between now and five minutes from now, both ends included. */
  predicate Due(x: Reminder, now: Instant)
    requires ValidInstant(now)
  {
    InstantLe(now, x.time) && InstantLe(x.time, AddSeconds(now, WindowSeconds))
  }

  /** What a reminder mail carries: address, name, content (empty when null), time and type ("Khac" when null). */
  datatype ReminderMail = ReminderMail(to: string, name: string, body: Content, time: Instant, kind: string)

  /** The reminder's user as loaded with it: none for a null owner or a missing user row. */
  function OwnerOf(x: Reminder, users: seq<User>): (r: Option<User>)
    ensures r.Some? ==> x.owner == Some(r.value.id) && r.value in users
  {
    if x.owner.None? then None
    else
      var k := IndexOfKey(users, UserKey, x.owner.value);
      if k.Some? then Some(users[k.value]) else None
  }

  /** The mail for a reminder whose owner can be mailed. */
  function MailFor(x: Reminder, u: User): (m: ReminderMail)
    requires Mailable(u)
    ensures m.to == u.email.value && m.to != [] && m.time == x.time
  {
    ReminderMail(u.email.value, DisplayName(u),
      if x.content.Some? then x.content.value else Text(""),
      x.time, if x.kind.Some? then x.kind.value else "Khac")
  }

  /** The reminder gets a mail: its owner is loaded and has an email. */
  predicate Deliverable(x: Reminder, users: seq<User>)
  {
    OwnerOf(x, users).Some? && Mailable(OwnerOf(x, users).value)
  }

  /** The mails for a list of reminders, in order, skipping the undeliverable ones. */
  function MailsFor(xs: seq<Reminder>, users: seq<User>): (r: seq<ReminderMail>)
    ensures |r| <= |xs|
    ensures forall m :: m in r ==> m.to != []
  {
    if xs == [] then []
    else
      var last := xs[|xs| - 1];
      MailsFor(xs[..|xs| - 1], users) + (if Deliverable(last, users) then [MailFor(last, OwnerOf(last, users).value)] else [])
  }

  /** The reminder is deliverable and m is its mail. */
  predicate Yields(x: Reminder, users: seq<User>, m: ReminderMail)
  {
    Deliverable(x, users) && m == MailFor(x, OwnerOf(x, users).value)
  }

  /** A mail is among the mails for a list exactly when a reminder of the list yields it. */
  lemma {:induction false} MailsForExactly(xs: seq<Reminder>, users: seq<User>, m: ReminderMail)
    ensures m in MailsFor(xs, users) <==> exists i :: 0 <= i < |xs| && Yields(xs[i], users, m)
    decreases |xs|
  {
    if xs != [] {
      var p := xs[..|xs| - 1];
      MailsForExactly(p, users, m);
      if m in MailsFor(p, users) {
        var i :| 0 <= i < |p| && Yields(p[i], users, m);
        assert xs[i] == p[i];
      } else {
        assert forall j :: 0 <= j < |p| ==> xs[j] == p[j];
      }
    }
  }

  /** The reminders the pass loads: those due in the window, in table order. */
  function DueReminders(reminders: seq<Reminder>, now: Instant): (r: seq<Reminder>)
    requires ValidInstant(now)
    ensures forall x :: x in r <==> x in reminders && Due(x, now)
  {
    Filter(reminders, (x: Reminder) => Due(x, now))
  }

  /**
   * The pass mails, for every due reminder whose owner has an email, that
   * reminder's content, time and type, and nothing else.
   */
  lemma ReminderPassExactly(reminders: seq<Reminder>, users: seq<User>, now: Instant)
    requires ValidInstant(now)
    ensures forall x :: x in reminders && Due(x, now) && Deliverable(x, users) ==>
      MailFor(x, OwnerOf(x, users).value) in MailsFor(DueReminders(reminders, now), users)
    ensures forall m :: m in MailsFor(DueReminders(reminders, now), users) ==>
      exists x :: x in reminders && Due(x, now) && Yields(x, users, m)
  {
    var due := DueReminders(reminders, now);
    forall x | x in reminders && Due(x, now) && Deliverable(x, users)
      ensures MailFor(x, OwnerOf(x, users).value) in MailsFor(due, users)
    {
      var i :| 0 <= i < |due| && due[i] == x;
      assert Yields(due[i], users, MailFor(x, OwnerOf(x, users).value));
      MailsForExactly(due, users, MailFor(x, OwnerOf(x, users).value));
    }
    forall m | m in MailsFor(due, users)
      ensures exists x :: x in reminders && Due(x, now) && Yields(x, users, m)
    {
      MailsForExactly(due, users, m);
      var i :| 0 <= i < |due| && Yields(due[i], users, m);
      assert due[i] in due;
    }
  }

  /**
   * The next pass starts five minutes after the previous one ended, so a
   * pass that took any time leaves a gap: a reminder due after the first
   * window closed and before the next pass began is never mailed.
   */
  lemma LatePassMissesReminder(x: Reminder, now1: Instant, now2: Instant)
    requires ValidInstant(now1) && ValidInstant(now2)
    requires InstantKey(AddSeconds(now1, WindowSeconds)) < InstantKey(x.time) < InstantKey(now2)
    ensures !Due(x, now1) && !Due(x, now2)
  {
  }

  /** CheckAndSendRemindersAsync: the loop over the due reminders, mailing the deliverable ones. */
  method ReminderPass(reminders: seq<Reminder>, users: seq<User>, now: Instant) returns (sent: seq<ReminderMail>)
    requires ValidInstant(now)
    ensures sent == MailsFor(DueReminders(reminders, now), users)
  {
    var due := DueReminders(reminders, now);
    sent := [];
    for k := 0 to |due|
      invariant sent == MailsFor(due[..k], users)
    {
      assert due[..k + 1][..k] == due[..k];
      var x := due[k];
      if x.owner.Some? {
        var found := IndexOfKey(users, UserKey, x.owner.value);
        if found.Some? && !NullOrEmpty(users[found.value].email) {
          sent := sent + [MailFor(x, users[found.value])];
        }
      }
    }
    assert due[..|due|] == due;
  }

  // ----- Budget warnings -------------------------------------------------------------

  /** What a budget warning carries: address, name, category name, spend and cap. */
  datatype BudgetMail = BudgetMail(to: string, name: string, category: string, spent: Money, cap: Money)

  /** The fallback category name, "Không xác định". */
  const UnknownCategory: string := "Kh\U{00F4}ng x\U{00E1}c \U{0111}\U{1ECB}nh"

  /** The budget's category name, or the fallback when it has none or the row is missing. */
  function CategoryName(categories: seq<Category>, b: Budget): string
  {
    if b.category.None? then UnknownCategory
    else
      var k := IndexOfKey(categories, CategoryKey, b.category.value);
      if k.Some? then categories[k.value].name else UnknownCategory
  }

  /**
   * The exact percentage spent/cap*100 lies in [80, 100). The division is
   * exact here: a zero cap throws before this test and is handled apart.
   */
  predicate InWarningBand(spent: Money, cap: Money)
    requires cap != 0
  {
    var percentage := (spent as real / cap as real) * 100.0;
    80.0 <= percentage < 100.0
  }

  /**
   * The band in whole numbers: for a positive cap, 80% of the cap up to
   * but not including the cap; for a negative cap the inequalities turn.
   */
  lemma WarningBandInIntegers(spent: Money, cap: Money)
    requires cap != 0
    ensures cap > 0 ==> (InWarningBand(spent, cap) <==> 80 * cap <= 100 * spent < 100 * cap)
    ensures cap < 0 ==> (InWarningBand(spent, cap) <==> 100 * cap < 100 * spent <= 80 * cap)
  {
    if cap > 0 {
      QuotientBandPositive(spent as real, cap as real);
    } else {
      QuotientBandNegative(spent as real, cap as real);
    }
  }

  lemma QuotientBandPositive(s: real, c: real)
    requires c > 0.0
    ensures 80.0 <= (s / c) * 100.0 < 100.0 <==> 0.8 * c <= s < c
  {
    var q := s / c;
    assert q * c == s;
    ScaledBound(0.8, q, c, s);
    ScaledBound(1.0, q, c, s);
  }

  lemma QuotientBandNegative(s: real, c: real)
    requires c < 0.0
    ensures 80.0 <= (s / c) * 100.0 < 100.0 <==> c < s <= 0.8 * c
  {
    var q := s / c;
    var d := -c;
    assert q * d == -s;
    ScaledBound(0.8, q, d, -s);
    ScaledBound(1.0, q, d, -s);
  }

  /** Comparing q with a bound a, where q * c == s for a positive c. */
  lemma ScaledBound(a: real, q: real, c: real, s: real)
    requires c > 0.0 && q * c == s
    ensures a <= q <==> a * c <= s
    ensures q < a <==> s < a * c
  {
    ScaleOrder(a, q, c);
    ScaleOrder(q, a, c);
  }

  /** Multiplying by a positive real keeps both orders. */
  lemma ScaleOrder(a: real, b: real, c: real)
    requires c > 0.0
    ensures a <= b <==> a * c <= b * c
    ensures a < b <==> a * c < b * c
  {
    assert b * c - a * c == (b - a) * c;
  }

  /** A budget already spent to its positive cap gets no warning: the band stops short of 100%. */
  lemma OverLimitNotWarned(spent: Money, cap: Money)
    requires 0 < cap <= spent
    ensures !InWarningBand(spent, cap)
  {
    WarningBandInIntegers(spent, cap);
  }

  /**
   * The dashboard lists a budget whose usage rounds to 80.00%, while the
   * notifier compares the unrounded percentage: 159.99 spent of a 200.00
   * cap (79.995%) is listed on the dashboard and gets no warning.
   */
  lemma RoundedAndExactBandsDiffer()
    ensures UsagePercent(15999, 20000) >= 8000
    ensures !InWarningBand(15999, 20000)
  {
    RoundHalfEvenAtLeast(15999 * 10000, 20000, 8000);
    WarningBandInIntegers(15999, 20000);
  }

  /** The month's spend of the user in the budget's category, matched on the expense date's month and year. */
  function BudgetMonthSpend(expenses: seq<Expense>, u: User, b: Budget, today: Date): Money
  {
    MonthSpend(expenses, Some(u.id), b.category, today.year, today.month)
  }

  function WarningFor(u: User, b: Budget, categories: seq<Category>, expenses: seq<Expense>, today: Date): (m: BudgetMail)
    requires Mailable(u)
    ensures m.to == u.email.value && m.spent == BudgetMonthSpend(expenses, u, b, today) && m.cap == b.cap
  {
    BudgetMail(u.email.value, DisplayName(u), CategoryName(categories, b), BudgetMonthSpend(expenses, u, b, today), b.cap)
  }

  /**
   * The warnings for one user's budgets, in order. A zero cap makes the
   * division throw; the exception ends this user's turn, so no later budget
   * of theirs is looked at.
   */
  function UserWarnings(u: User, mine: seq<Budget>, categories: seq<Category>, expenses: seq<Expense>, today: Date): (r: seq<BudgetMail>)
    requires Mailable(u)
    ensures |r| <= |mine|
  {
    if mine == [] || mine[0].cap == 0 then []
    else
      BudgetWarning(u, mine[0], categories, expenses, today) + UserWarnings(u, mine[1..], categories, expenses, today)
  }

  /** The warning for one budget with a nonzero cap: one mail when its spend is in the band, none otherwise. */
  function BudgetWarning(u: User, b: Budget, categories: seq<Category>, expenses: seq<Expense>, today: Date): (r: seq<BudgetMail>)
    requires Mailable(u) && b.cap != 0
    ensures r != [] <==> InWarningBand(BudgetMonthSpend(expenses, u, b, today), b.cap)
    ensures r != [] ==> r == [WarningFor(u, b, categories, expenses, today)]
  {
    if InWarningBand(BudgetMonthSpend(expenses, u, b, today), b.cap) then [WarningFor(u, b, categories, expenses, today)] else []
  }

  /** Every warning of a user goes to that user, for a nonzero cap and a spend in the band. */
  lemma {:induction false} UserWarningsInBand(u: User, mine: seq<Budget>, categories: seq<Category>, expenses: seq<Expense>, today: Date)
    requires Mailable(u)
    ensures forall m :: m in UserWarnings(u, mine, categories, expenses, today) ==>
      m.to == u.email.value && m.cap != 0 && InWarningBand(m.spent, m.cap)
  {
    if mine != [] && mine[0].cap != 0 {
      UserWarningsInBand(u, mine[1..], categories, expenses, today);
    }
  }

  /** A budget with a zero cap silences every later budget of the same user. */
  lemma {:induction false} ZeroCapSilencesLater(u: User, mine: seq<Budget>, categories: seq<Category>, expenses: seq<Expense>, today: Date, i: nat)
    requires Mailable(u) && i < |mine| && mine[i].cap == 0
    ensures UserWarnings(u, mine, categories, expenses, today) == UserWarnings(u, mine[..i], categories, expenses, today)
    decreases i
  {
    if i > 0 && mine[0].cap != 0 {
      assert mine[1..][..i - 1] == mine[..i][1..];
      ZeroCapSilencesLater(u, mine[1..], categories, expenses, today, i - 1);
    }
  }

  /** Every budget in the band and ahead of any zero cap gets its warning. */
  lemma {:induction false} UserWarningsComplete(u: User, mine: seq<Budget>, categories: seq<Category>, expenses: seq<Expense>, today: Date, j: nat)
    requires Mailable(u) && j < |mine|
    requires forall i :: 0 <= i <= j ==> mine[i].cap != 0
    requires InWarningBand(BudgetMonthSpend(expenses, u, mine[j], today), mine[j].cap)
    ensures WarningFor(u, mine[j], categories, expenses, today) in UserWarnings(u, mine, categories, expenses, today)
    decreases j
  {
    if j > 0 {
      UserWarningsComplete(u, mine[1..], categories, expenses, today, j - 1);
    }
  }

  /** The current month's budgets of each mailable user, user by user in table order. */
  function BudgetWarnings(users: seq<User>, budgets: seq<Budget>, categories: seq<Category>, expenses: seq<Expense>, today: Date): (r: seq<BudgetMail>)
    ensures forall m :: m in r ==> m.to != [] && m.cap != 0 && InWarningBand(m.spent, m.cap)
  {
    if users == [] then []
    else
      var u := users[|users| - 1];
      BudgetWarnings(users[..|users| - 1], budgets, categories, expenses, today) +
      (if Mailable(u) then
         UserWarningsInBand(u, MonthBudgets(budgets, u.id, today.month, today.year), categories, expenses, today);
         UserWarnings(u, MonthBudgets(budgets, u.id, today.month, today.year), categories, expenses, today) else [])
  }

  lemma UserWarningsStep(u: User, mine: seq<Budget>, k: nat, categories: seq<Category>, expenses: seq<Expense>, today: Date)
    requires Mailable(u) && k < |mine| && mine[k].cap != 0
    ensures UserWarnings(u, mine[k..], categories, expenses, today) ==
      BudgetWarning(u, mine[k], categories, expenses, today) + UserWarnings(u, mine[k + 1..], categories, expenses, today)
  {
    assert mine[k..][0] == mine[k];
    assert mine[k..][1..] == mine[k + 1..];
  }

  /** One user's turn of CheckBudgetWarningsAsync: the loop over their budgets of the month, left at a zero cap. */
  method WarnUser(u: User, budgets: seq<Budget>, categories: seq<Category>, expenses: seq<Expense>, today: Date)
    returns (sent: seq<BudgetMail>)
    requires Mailable(u)
    ensures sent == UserWarnings(u, MonthBudgets(budgets, u.id, today.month, today.year), categories, expenses, today)
  {
    var mine := MonthBudgets(budgets, u.id, today.month, today.year);
    ghost var all := UserWarnings(u, mine, categories, expenses, today);
    sent := [];
    var k := 0;
    while k < |mine|
      invariant 0 <= k <= |mine|
      invariant sent + UserWarnings(u, mine[k..], categories, expenses, today) == all
    {
      var b := mine[k];
      if b.cap == 0 {
        assert UserWarnings(u, mine[k..], categories, expenses, today) == [];
        assert sent + [] == sent;
        break;
      }
      var w := BudgetWarning(u, b, categories, expenses, today);
      UserWarningsStep(u, mine, k, categories, expenses, today);
      ghost var rest := UserWarnings(u, mine[k + 1..], categories, expenses, today);
      assert sent + (w + rest) == all;
      assert sent + w + rest == sent + (w + rest);
      sent := sent + w;
      k := k + 1;
    }
    if k == |mine| {
      assert mine[k..] == [];
    }
  }

  /** CheckBudgetWarningsAsync: every user with an email, in table order. */
  method WarningPass(users: seq<User>, budgets: seq<Budget>, categories: seq<Category>, expenses: seq<Expense>, today: Date)
    returns (sent: seq<BudgetMail>)
    ensures sent == BudgetWarnings(users, budgets, categories, expenses, today)
  {
    sent := [];
    for k := 0 to |users|
      invariant sent == BudgetWarnings(users[..k], budgets, categories, expenses, today)
    {
      assert users[..k + 1][..k] == users[..k];
      if !NullOrEmpty(users[k].email) {
        var mine := WarnUser(users[k], budgets, categories, expenses, today);
        sent := sent + mine;
      }
    }
    assert users[..|users|] == users;
  }
}
