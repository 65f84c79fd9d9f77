# QuanLyCTCN — a verified model of the personal-finance core

QuanLyCTCN ("Quản lý chi tiêu cá nhân") is an ASP.NET Core MVC application for tracking
personal finances. A signed-in user records the following:

- expenses (ChiTieu) and incomes (ThuNhap), each filed under a category (DanhMuc);
- a monthly spending cap per category (NganSach);
- savings goals (MucTieu), which the application fills from the user's surplus;
- reminders (NhacNho), some of them recurring.

A background service mails due reminders and near-limit budget warnings. Two browser
scripts format the budget amount field and drive the reminder page.

This Dafny project models those parts.

- **Records** are `datatype`s (`entities.dfy`). Money is a whole number of hundredths, because the
  `decimal(18,2)` columns hold two decimals. The form rules of the data annotations are
  predicates over these records.
- **The database** is a class `Store.Db` (`store.dfy`). It holds one `seq` per table and one identity
  counter per table. `Db.Valid()` states that keys are distinct and below their
  counter. Each controller action is a method over a `Db`. Its `modifies` clause names the tables it may
  write. Its `ensures` gives the outcome (saved, form rejected, not found, login required) and the
  exact new table contents.
- **Queries** are functions over the tables:
  - LINQ `Where` is `Common.Filter`.
  - `OrderBy` and `OrderByDescending` are a stable insertion sort by an integer key (`Common.SortBy`).
  - `Take` is `Common.Take` and `Sum` is `Common.SumOf`.
  - EF Core compares a nullable key with a null one as equal. Dafny's `==` on `Option` does the same.
  - A lifted comparison with a null operand is false.
- **`Math.Round(x, 2)`** on a percentage is computed exactly, as a result in hundredths of a percent
  rounded half to even (`Common.RoundHalfEven`).
  JavaScript's `Math.round` is `Common.RoundHalfUp`.
- **Dates** are `(year, month, day)` triples, ordered by a day number. `AddDays` and `AddMonths` follow .NET,
  including the month-end clamping. Instants add a second of the day (`calendar.dfy`).

One file per controller covers the actions and the properties they promise or exhibit:

| file | what it covers |
|---|---|
| `thunhap.dfy` | incomes, and the goal allocator `KiemTraVaCapNhatMucTieu` |
| `chitieu.dfy` | expenses, and the over-budget check run after each saved expense |
| `ngansach.dfy` | budgets, their usage percentage and the over-budget reminder |
| `muctieu.dfy` | goals, savings top-ups and completion reminders |
| `danhmuc.dfy` | categories, unique names per kind, and deletion only when unused |
| `nguoidung.dfy` | sign-in with the five-failure, fifteen-minute lock; registration; password and settings changes |
| `nhacnho.dfy` | reminders and recurring reminders |
| `thongke.dfy` | statistics: totals, per-category shares, daily, monthly and trend series |
| `home.dfy` | the dashboard |
| `notifier.dfy` | `ReminderBackgroundService`: one reminder pass and one budget-warning pass |
| `ngansach_js.dfy` | `ngansach.js`: thousand-separator formatting, the amount field's focus/blur/input handlers, field validation |
| `nhacnho_js.dfy` | `nhacnho.js`: countdown text, status badges, the repeat-interval control, field validation |

The remaining files hold shared definitions: `common.dfy`, `calendar.dfy`, `text.dfy`, `entities.dfy` and `store.dfy`.

## Behaviour of the code worth knowing

- **Allocator ordering.** The allocator orders tracked goals with `OrderBy(m => m.Han)` on a nullable date, so goals
  without a deadline come first (`ThuNhap.VisitOrderByDeadline`).
- **Repeated completion reminders.** Every run of the allocator writes a completion reminder for every tracked goal it
  finds full, so rerunning it repeats the reminders
  (`ThuNhap.AllocationRerunRepeatsReminders`). The allocator runs only after an income is
  created, edited or deleted, never after an expense change.
- **Repeated over-budget reminders.** The over-budget reminder is written again for every further expense in a month that is
  already over (`ChiTieu.AlertRepeats`). Nothing prevents duplicates.
- **Two near-limit tests.** The dashboard lists budgets whose rounded usage reaches 80.00%. The notifier tests the
  unrounded percentage against [80, 100) (`Notifier.RoundedAndExactBandsDiffer`).
- **Two income months.** The dashboard counts an income in the month it is attributed to. The statistics page counts it
  by receipt date (`Home.IncomeMonthIsAttributionNotReceipt`).
- **Edits of another user's row.** The Edit POST actions of ChiTieu, MucTieu and NhacNho replace the row with the posted key
  whoever owned it. The model states this in `ChiTieu.EditExpense`, `MucTieu.EditGoal` and `NhacNho.EditReminder`.
- **Soon badge and countdown class.** On the reminder page, the badge says "soon" from one minute up to one hour ahead.
  The countdown class still says "upcoming" there (`NhacNhoJs.BadgeVersusRemaining`).
- **Wrapped trend length.** The trend page computes its month shift `-(soThang ?? 6) + 1` in 32-bit `int`. A requested
  length of -2147483648 or -2147483647 wraps to a shift far before year 1, so the page errors
  (`ThongKe.TrendOffsetWraps`, `ThongKe.WrappedTrendFails`).
- **Content length.** The page refuses content of 1 to 4 characters after trimming. The server accepts it.
- **Weekly interval overflow.** The recurring-reminder action computes the weekly shift `i * 7 * soNgayLap` in 32-bit
  `int`. An interval of 613566756 makes the first copy's shift wrap to -4 days, so that copy falls before the base reminder
  (`NhacNho.WeeklyOffsetWraps`). A product that wraps to a date before year 1, or a monthly shift that does, makes
  `AddDays`/`AddMonths` throw after the base reminder is already saved (`NhacNho.MonthlyOffsetThrows`); the model ends the
  action `Faulted` with only the base reminder stored.
- **Completion percentage cast.** `PhanTramHoanThanh` casts the rounded percentage to `int`. Savings can be negative
  (a negative top-up is accepted), and a percentage below the `int` range makes the cast throw: a target of 1.00 with
  savings of -30,000,000.00 does (`Entities.CompletionPercentThrows`, `Entities.CompletionPercentOverflowExample`).

## Model

| member | source | states |
|---|---|---|
| ThuNhap.ListedPeriod | QuanLyCTCN/Controllers/ThuNhapController.cs:31-42 | the month filter is the requested month and year when both are given, and today's month when there is no start date; otherwise it is the values as passed, possibly missing |
| ThuNhap.IncomeIndex | QuanLyCTCN/Controllers/ThuNhapController.cs:20-58 | as a multiset, exactly the user's incomes attributed to the listed month (null matching null), each as often as stored; newest receipt first; the total is their sum |
| ThuNhap.IncomeIndexIgnoresDates | QuanLyCTCN/Controllers/ThuNhapController.cs:20-49 | the date-range parameters never filter: two different start dates give the same listing |
| ThuNhap.IncomeIndexPartialPeriod | QuanLyCTCN/Controllers/ThuNhapController.cs:32-47 | a start date without a year lists only incomes with no attributed year |
| ThuNhap.OwnedIncome | QuanLyCTCN/Controllers/ThuNhapController.cs:208-209 | finds an income with the key that the user owns, or reports that none exists |
| ThuNhap.EditedIncome | QuanLyCTCN/Controllers/ThuNhapController.cs:223-227 | an edit changes only amount, receipt date, category and note; key, owner and attribution are kept |
| ThuNhap.CreateIncome | QuanLyCTCN/Controllers/ThuNhapController.cs:121-153 | a valid income is appended as the user's and the store is then the allocator's result; otherwise nothing changes |
| ThuNhap.EditIncome | QuanLyCTCN/Controllers/ThuNhapController.cs:193-259 | only an income the user owns is edited, with only its four editable fields changed, and then the allocator runs |
| ThuNhap.DeleteIncome | QuanLyCTCN/Controllers/ThuNhapController.cs:293-340 | removes the user's income and runs the allocator; any other key changes nothing |
| ThuNhap.Tracked | QuanLyCTCN/Controllers/ThuNhapController.cs:352 | a goal is tracked when it is the user's and has no deadline or one not before today; TrackedIndices and VisitOrderTracked state which goals the allocator visits |
| ThuNhap.Surplus | QuanLyCTCN/Controllers/ThuNhapController.cs:358-368 | all-time income minus all-time spending of the user; AllocationIdle and AllocationBounds state that nothing is given unless it is positive and never more than it |
| ThuNhap.TrackedIndices | QuanLyCTCN/Controllers/ThuNhapController.cs:351-353 | holds exactly the positions of the user's goals whose deadline is missing or not before today, ascending |
| ThuNhap.VisitOrder | QuanLyCTCN/Controllers/ThuNhapController.cs:373 | a permutation of the tracked positions, sorted by the deadline key |
| ThuNhap.VisitOrderTracked | QuanLyCTCN/Controllers/ThuNhapController.cs:351-373 | the visit order holds exactly the tracked goals |
| ThuNhap.VisitOrderDistinct | QuanLyCTCN/Controllers/ThuNhapController.cs:373 | no goal is visited twice |
| ThuNhap.VisitOrderByDeadline | QuanLyCTCN/Controllers/ThuNhapController.cs:373 | goals without a deadline come before all goals with one, and dated goals ascend by deadline |
| ThuNhap.Visit | QuanLyCTCN/Controllers/ThuNhapController.cs:375-395 | one iteration keeps the number of goals; ThuNhap.VisitFacts states what it moves |
| ThuNhap.Run | QuanLyCTCN/Controllers/ThuNhapController.cs:373-396 | the loop over the visit order keeps the number of goals; what it does to them is stated by the Run lemmas below |
| ThuNhap.CompletionReminders | QuanLyCTCN/Controllers/ThuNhapController.cs:384-395 | one reminder per goal reported complete, in order, with consecutive keys |
| ThuNhap.RemindIfComplete | QuanLyCTCN/Controllers/ThuNhapController.cs:384-395 | appends the completion reminder exactly when the visited goal is complete |
| ThuNhap.GiveToGoal | QuanLyCTCN/Controllers/ThuNhapController.cs:375-381 | the goal table becomes the one Visit computes; the remaining amount drops by what was given |
| ThuNhap.VisitGoal | QuanLyCTCN/Controllers/ThuNhapController.cs:373-396 | one iteration on the store leaves the goals, the remaining amount and the reminders of the next Run state |
| ThuNhap.VisitFacts | QuanLyCTCN/Controllers/ThuNhapController.cs:375-381 | a visit neither creates nor loses money; only the visited goal's savings change, and never past the target |
| ThuNhap.RunConserves | QuanLyCTCN/Controllers/ThuNhapController.cs:375-381 | what the goals gain equals what leaves the remaining amount |
| ThuNhap.RunBounds | QuanLyCTCN/Controllers/ThuNhapController.cs:375-381 | every goal only gains, never beyond its target, and keeps all its other fields |
| ThuNhap.RunUntouched | QuanLyCTCN/Controllers/ThuNhapController.cs:373-381 | a goal that is not visited is left exactly as it was |
| ThuNhap.RunSaturates | QuanLyCTCN/Controllers/ThuNhapController.cs:373-381 | money left over at the end means every visited goal has reached its target |
| ThuNhap.RunCompleted | QuanLyCTCN/Controllers/ThuNhapController.cs:383-395 | every goal reported complete holds non-null savings at or above its target |
| ThuNhap.RunRepeats | QuanLyCTCN/Controllers/ThuNhapController.cs:383-395 | on goals already full, a run changes nothing, keeps the money and reports every visited goal complete again |
| ThuNhap.RunRepeatsAt | QuanLyCTCN/Controllers/ThuNhapController.cs:383-395 | on goals already full, the k-th goal reported complete is the k-th goal of the visit order |
| ThuNhap.RunProgress | QuanLyCTCN/Controllers/ThuNhapController.cs:375-381 | with money to give and a visited goal short of its target, the total saved strictly increases |
| ThuNhap.AllocationIdle | QuanLyCTCN/Controllers/ThuNhapController.cs:355-370 | with no tracked goal or no positive surplus, the goals and reminders stay as they are |
| ThuNhap.Allocation | QuanLyCTCN/Controllers/ThuNhapController.cs:348-401 | the allocator as a whole: nothing happens without a tracked goal and a positive surplus; otherwise the loop runs over the visit order from the full surplus (its properties are the Allocation lemmas) |
| ThuNhap.AllocationBounds | QuanLyCTCN/Controllers/ThuNhapController.cs:348-401 | the goals together gain exactly what was given away, never more than the surplus; each goal gains, never past its target, and untracked goals are untouched |
| ThuNhap.AllocationGreedy | QuanLyCTCN/Controllers/ThuNhapController.cs:370-381 | surplus left after allocation means every tracked goal is full |
| ThuNhap.AllocationRerunRepeatsReminders | QuanLyCTCN/Controllers/ThuNhapController.cs:383-395 | rerunning on filled goals changes no goal and reports every tracked goal complete again, one reminder each, in visit order |
| ThuNhap.AllocationProgress | QuanLyCTCN/Controllers/ThuNhapController.cs:370-381 | a positive surplus and a tracked goal short of its target mean the total saved strictly increases |
| ThuNhap.RunLoop | QuanLyCTCN/Controllers/ThuNhapController.cs:373-398 | the imperative loop leaves the goals, remaining amount and reminders that Run and CompletionReminders specify |
| ThuNhap.AllocateSavings | QuanLyCTCN/Controllers/ThuNhapController.cs:348-401 | the store after the allocator is the Allocation result: goals filled and completion reminders appended |
| ChiTieu.ListedRange | QuanLyCTCN/Controllers/ChiTieuController.cs:31-36 | with no start date, the range is the first to the last day of today's month (the end is replaced too); otherwise it is the dates as given |
| ChiTieu.ExpenseIndex | QuanLyCTCN/Controllers/ChiTieuController.cs:20-53 | as a multiset, exactly the user's expenses in the range, each as often as stored; latest first; the total is their sum |
| ChiTieu.ExpenseIndexDefaultsToCurrentMonth | QuanLyCTCN/Controllers/ChiTieuController.cs:31-47 | with no start date, exactly the user's expenses of the current month are listed |
| ChiTieu.ExpenseIndexOpenEndedIsEmpty | QuanLyCTCN/Controllers/ChiTieuController.cs:39-47 | a start date without an end date lists nothing, because comparison with null is false |
| ChiTieu.MonthSpend | QuanLyCTCN/Controllers/ChiTieuController.cs:306-311 | the sum of the expenses with the same owner, category, month and year, null matching null; MonthSpendAppend and MonthSpendIsBudgetWindow state how it moves and what it equals |
| ChiTieu.MonthSpendAppend | QuanLyCTCN/Controllers/ChiTieuController.cs:306-311 | the saved expense counts in its own month total |
| ChiTieu.MonthSpendIsBudgetWindow | QuanLyCTCN/Controllers/ChiTieuController.cs:306-311 | matching by month and year gives the same total as the first-to-last-day window used by the budget side |
| ChiTieu.MatchingBudget | QuanLyCTCN/Controllers/ChiTieuController.cs:296-301 | the first budget of the expense's owner, category, month and year, or none when there is no such budget |
| ChiTieu.ExpenseAlert | QuanLyCTCN/Controllers/ChiTieuController.cs:292-328 | a reminder only for an expense with owner and category whose month has a budget with a positive cap that the month's spend exceeds |
| ChiTieu.ExpenseAlertAgreesWithBudgetCheck | QuanLyCTCN/Controllers/ChiTieuController.cs:314-325 | the expense-side check writes exactly what the budget-side check writes for the matched budget |
| ChiTieu.AlertRepeats | QuanLyCTCN/Controllers/ChiTieuController.cs:314-325 | once the month is over, every further matching expense triggers the reminder again |
| ChiTieu.CheckExpenseBudget | QuanLyCTCN/Controllers/ChiTieuController.cs:292-328 | appends ExpenseAlert's reminder when there is one and changes nothing else |
| ChiTieu.CreateExpense | QuanLyCTCN/Controllers/ChiTieuController.cs:112-143 | a valid expense is appended as the user's and the over-budget check follows |
| ChiTieu.EditExpense | QuanLyCTCN/Controllers/ChiTieuController.cs:182-225 | the posted expense replaces the row with its key whoever owned it; an unknown key is NotFound |
| ChiTieu.OwnedExpense | QuanLyCTCN/Controllers/ChiTieuController.cs:274 | finds an expense with the key that the user owns, or reports that none exists |
| ChiTieu.DeleteExpense | QuanLyCTCN/Controllers/ChiTieuController.cs:264-284 | removes the user's expense and nothing else; any other key changes nothing |
| NganSach.UsagePercent | QuanLyCTCN/Controllers/NganSachController.cs:57-58 | within half a hundredth of a percent of spent/cap × 100 for a positive cap; 0 for a cap that is not positive |
| NganSach.UsagePercentMonotone | QuanLyCTCN/Controllers/NganSachController.cs:57-58 | spending more never shows a lower usage |
| NganSach.UsageAtLeastFull | QuanLyCTCN/Controllers/NganSachController.cs:57-58 | a positive cap shows 100% or more exactly when the spend reaches 99.995% of it |
| NganSach.MonthBudgets | QuanLyCTCN/Controllers/NganSachController.cs:38-41 | exactly the user's budgets of that month and year |
| NganSach.MonthBudgetsInTableOrder | QuanLyCTCN/Controllers/NganSachController.cs:38-41 | the month's budgets are a subsequence of the table (table order), each listed as often as it is stored |
| NganSach.WindowSpend | QuanLyCTCN/Controllers/NganSachController.cs:382-390 | the sum of the expenses of one owner and category dated from the first to the last day inclusive; MonthSpendIsBudgetWindow ties it to the expense side |
| NganSach.BudgetIndex | QuanLyCTCN/Controllers/NganSachController.cs:21-72 | defaults to today's month; the page is shown exactly when the month is 1..12 and the year at least 1, and is an error otherwise; a shown page has one usage row per budget of the month, in order, with its spend and usage |
| NganSach.SlotTaken | QuanLyCTCN/Controllers/NganSachController.cs:125-140 | some other budget already has the same owner, category, month and year; AppendFreeSlot and ReplaceFreeSlot show that refusing a taken slot keeps slots unique |
| NganSach.AppendFreeSlot | QuanLyCTCN/Controllers/NganSachController.cs:124-140 | adding a budget to a free (owner, category, month, year) slot keeps slots unique |
| NganSach.ReplaceFreeSlot | QuanLyCTCN/Controllers/NganSachController.cs:227-243 | moving a budget to a slot no other budget holds keeps slots unique |
| NganSach.CreateBudget | QuanLyCTCN/Controllers/NganSachController.cs:108-156 | a valid budget in a free slot is appended as the user's; a taken slot or an invalid form changes nothing |
| NganSach.OwnedBudget | QuanLyCTCN/Controllers/NganSachController.cs:214 | finds a budget with the key that the user owns, or reports that none exists |
| NganSach.EditedBudget | QuanLyCTCN/Controllers/NganSachController.cs:246-254 | an edit changes only cap, month, year and category |
| NganSach.OverrunAlert | QuanLyCTCN/Controllers/NganSachController.cs:378-412 | a reminder exactly when the budget has owner and category, a positive cap, and a month spend above the cap |
| NganSach.OverrunMeansFullUsage | QuanLyCTCN/Controllers/NganSachController.cs:393 | a budget that triggers the reminder shows at least 100% |
| NganSach.NonPositiveCapNeverAlerts | QuanLyCTCN/Controllers/NganSachController.cs:393 | a cap of zero or less never triggers the reminder |
| NganSach.CheckBudgetOverrun | QuanLyCTCN/Controllers/NganSachController.cs:378-412 | appends OverrunAlert's reminder when due and changes nothing else |
| NganSach.SaveBudget | QuanLyCTCN/Controllers/NganSachController.cs:246-257 | the row is replaced in place, the overage check's reminder (if any) is appended, and unique slots stay unique |
| NganSach.EditBudget | QuanLyCTCN/Controllers/NganSachController.cs:196-283 | only the user's budget is edited, only when the form is valid and the slot is free elsewhere; the overrun check follows |
| NganSach.DeleteBudget | QuanLyCTCN/Controllers/NganSachController.cs:317-370 | removes only a budget the user owns; otherwise nothing changes |
| Entities.CompletionPercent | QuanLyCTCN/Models/MucTieu.cs:47-57 | 0 for a target that is not positive; never above 100; no value (the cast throws) only for a positive target and negative savings; below 100 it is the whole percentage nearest to saved/target, within half a percent |
| Entities.CompletionPercentThrows | QuanLyCTCN/Models/MucTieu.cs:47-57 | the cast throws exactly when the target is positive and the rounded percentage lies below the 32-bit range |
| Entities.CompletionPercentOverflowExample | QuanLyCTCN/Models/MucTieu.cs:47-57 | a target of 1.00 with savings of -30,000,000.00 has no percentage |
| Entities.CompletionPercentFull | QuanLyCTCN/Models/MucTieu.cs:47-57 | savings reaching a positive target show exactly 100 |
| Entities.CompletionPercentBelowFull | QuanLyCTCN/Models/MucTieu.cs:47-57 | savings short of the target show under 100 (or throw) unless within half a percent |
| Entities.CompletionPercentNonNegative | QuanLyCTCN/Models/MucTieu.cs:47-57 | non-negative savings always give a percentage, and it is not negative |
| Entities.CompletionPercentMonotone | QuanLyCTCN/Models/MucTieu.cs:47-57 | saving more never lowers the percentage and never makes a defined percentage throw |
| MucTieu.GoalIndex | QuanLyCTCN/Controllers/MucTieuController.cs:19-35 | as a multiset, exactly the user's goals, each as often as stored, ordered by the nullable deadline |
| MucTieu.GoalIndexUndatedFirst | QuanLyCTCN/Controllers/MucTieuController.cs:31 | no dated goal precedes an undated one in the listing |
| MucTieu.NewGoalReminder | QuanLyCTCN/Controllers/MucTieuController.cs:103-113 | the reminder carries the goal's name, target and deadline, is the user's, and is dated now |
| MucTieu.CreateGoal | QuanLyCTCN/Controllers/MucTieuController.cs:87-121 | a valid goal is appended as the user's, followed by exactly one new-goal reminder |
| MucTieu.CompletedReminder | QuanLyCTCN/Controllers/MucTieuController.cs:184-190 | the congratulation reminder names the goal and is the user's goal-type reminder |
| MucTieu.EditCompletes | QuanLyCTCN/Controllers/MucTieuController.cs:181-182 | the Edit test on nullable decimals: new savings at or above the target and stored savings below the stored target; the two lemmas below state where it differs from the top-up test |
| MucTieu.EditWithNullSavingsNeverCompletes | QuanLyCTCN/Controllers/MucTieuController.cs:181-182 | null savings on either side means Edit writes no completion reminder |
| MucTieu.TopUpCompletes | QuanLyCTCN/Controllers/MucTieuController.cs:290 | the top-up test on savings with null read as 0: below the target before, at or above it after; TopUpsRemindOnce and WithdrawalRemindsAgain state how often it fires |
| MucTieu.NullSavingsPathsDisagree | QuanLyCTCN/Controllers/MucTieuController.cs:283-290 | for never-set savings, a top-up that fills the goal reminds, while an edit to the same amount does not |
| MucTieu.TopUpsRemindOnce | QuanLyCTCN/Controllers/MucTieuController.cs:283-290 | without withdrawals, top-ups remind exactly once, when they cross the target, and only if they cross it |
| MucTieu.WithdrawalRemindsAgain | QuanLyCTCN/Controllers/MucTieuController.cs:283-290 | a withdrawal between deposits makes the same goal remind twice |
| MucTieu.EditGoal | QuanLyCTCN/Controllers/MucTieuController.cs:152-210 | the posted goal replaces the row with its key whoever owned it; a completion reminder follows exactly when the Edit test holds |
| MucTieu.OwnedGoal | QuanLyCTCN/Controllers/MucTieuController.cs:276 | finds a goal with the key that the user owns, or reports that none exists |
| MucTieu.AddSavings | QuanLyCTCN/Controllers/MucTieuController.cs:266-310 | adds the amount to the user's goal (null read as 0), and reminds exactly when the savings cross the target upwards |
| MucTieu.TopUpReminderMeansFull | QuanLyCTCN/Controllers/MucTieuController.cs:290 | a top-up that reminds leaves a goal with a positive target at 100% |
| MucTieu.DeleteGoal | QuanLyCTCN/Controllers/MucTieuController.cs:241-262 | removes the user's goal; any other key changes nothing |
| DanhMuc.CategoryIndex | QuanLyCTCN/Controllers/DanhMucController.cs:19-60 | expense categories (narrowed by group when one is given) and income categories; the kind filter empties the other list |
| DanhMuc.CategoryIndexPartitions | QuanLyCTCN/Controllers/DanhMucController.cs:29-52 | no category is in both lists, and without filters every stored category is listed |
| DanhMuc.CategoryIndexListsOnce | QuanLyCTCN/Controllers/DanhMucController.cs:29-52 | the two lists together hold a category at most as often as it is stored, so at most once when keys are distinct |
| DanhMuc.AppendFreeName | QuanLyCTCN/Controllers/DanhMucController.cs:88-90 | adding a category whose name is new in its kind keeps names unique |
| DanhMuc.ReplaceFreeName | QuanLyCTCN/Controllers/DanhMucController.cs:148-150 | renaming to a name free among the other rows of the kind keeps names unique |
| DanhMuc.NameTaken | QuanLyCTCN/Controllers/DanhMucController.cs:89-90 | another category of the same kind already has the name; AppendFreeName and ReplaceFreeName show that refusing a taken name keeps names unique |
| DanhMuc.CreateCategory | QuanLyCTCN/Controllers/DanhMucController.cs:77-105 | a valid category with a new name and an allowed kind is appended; otherwise nothing changes |
| DanhMuc.EditCategory | QuanLyCTCN/Controllers/DanhMucController.cs:132-179 | the posted category replaces its row when valid and its name is free; an unknown key is NotFound |
| DanhMuc.RemoveUnusedKeepsReferences | QuanLyCTCN/Controllers/DanhMucController.cs:236-242 | removing a category that nothing references leaves no dangling reference |
| DanhMuc.InUse | QuanLyCTCN/Controllers/DanhMucController.cs:232-234 | some expense, income or budget refers to the category; DeletePage and DeleteCategory refuse to delete it then |
| DanhMuc.DeletePage | QuanLyCTCN/Controllers/DanhMucController.cs:180-211 | the confirmation page exactly for a stored category not in use; a category in use is refused; a missing or unknown key is NotFound; no session goes to login |
| DanhMuc.DeleteConfirmKeepsReferences | QuanLyCTCN/Controllers/DanhMucController.cs:203-211 | a category the confirmation page offers can be removed without leaving a dangling reference |
| DanhMuc.DeleteCategory | QuanLyCTCN/Controllers/DanhMucController.cs:219-248 | removes a stored category that is not in use; a category in use is refused; an unknown key changes nothing |
| NguoiDung.LoginStep | QuanLyCTCN/Controllers/NguoiDungController.cs:52-81 | rejected and unchanged while locked; a wrong password counts a failure and locks for 15 minutes from the fifth on; the right password clears both |
| NguoiDung.IsLocked | QuanLyCTCN/Controllers/NguoiDungController.cs:52 | a lock time that is set and strictly later than now; LockHoldsFifteenMinutes and RelockAfterExpiry state how long it lasts |
| NguoiDung.LoginStepKeepsRowOk | QuanLyCTCN/Controllers/NguoiDungController.cs:58-67 | an attempt never makes the failure counter negative |
| NguoiDung.LockHoldsFifteenMinutes | QuanLyCTCN/Controllers/NguoiDungController.cs:52-67 | after a lock, every attempt in the next fifteen minutes is rejected, whatever the password |
| NguoiDung.RelockAfterExpiry | QuanLyCTCN/Controllers/NguoiDungController.cs:52-67 | after the lock expires, one wrong password locks again |
| NguoiDung.FailuresCountUp | QuanLyCTCN/Controllers/NguoiDungController.cs:58-67 | consecutive wrong passwords count up one by one and lock nothing below five |
| NguoiDung.FifthFailureLocks | QuanLyCTCN/Controllers/NguoiDungController.cs:58-67 | the fifth consecutive wrong password locks the account for fifteen minutes from that attempt |
| NguoiDung.UserNamed | QuanLyCTCN/Controllers/NguoiDungController.cs:42-43 | the first user with that name, or none when no user has it |
| NguoiDung.Login | QuanLyCTCN/Controllers/NguoiDungController.cs:38-95 | an invalid form or an unknown name changes nothing; otherwise LoginStep is applied to that row, and success signs the user in |
| NguoiDung.Register | QuanLyCTCN/Controllers/NguoiDungController.cs:106-151 | a taken name, then a taken e-mail, is refused; otherwise a new account with no failures is appended and signed in |
| NguoiDung.UniqueNameFindsOnlyAccount | QuanLyCTCN/Controllers/NguoiDungController.cs:42-43 | with unique names, sign-in finds the only account with the name |
| NguoiDung.ChangedPassword | QuanLyCTCN/Controllers/NguoiDungController.cs:168-201 | the new password is set only when the current one matches exactly |
| NguoiDung.ChangePassword | QuanLyCTCN/Controllers/NguoiDungController.cs:168-201 | the signed-in user's row becomes ChangedPassword's result; other rows are unchanged |
| NguoiDung.AppliedSettings | QuanLyCTCN/Controllers/NguoiDungController.cs:318-363 | nothing is saved for an invalid form or a new password without the right current one; otherwise the profile is copied and the password replaced |
| NguoiDung.SaveSettings | QuanLyCTCN/Controllers/NguoiDungController.cs:318-363 | the signed-in user's row becomes AppliedSettings' result |
| NhacNho.ReminderIndex | QuanLyCTCN/Controllers/NhacNhoController.cs:19-36 | as a multiset, exactly the user's reminders, each as often as stored, latest first |
| NhacNho.CreateReminder | QuanLyCTCN/Controllers/NhacNhoController.cs:87-107 | a valid reminder is appended as the user's; otherwise nothing changes |
| NhacNho.EditReminder | QuanLyCTCN/Controllers/NhacNhoController.cs:138-178 | the posted reminder replaces the row with its key whoever owned it; an unknown key is NotFound |
| NhacNho.OwnedReminder | QuanLyCTCN/Controllers/NhacNhoController.cs:218 | finds a reminder with the key that the user owns, or reports that none exists |
| NhacNho.WithoutOwned | QuanLyCTCN/Controllers/NhacNhoController.cs:208-228 | removes exactly that one row, as a multiset, when it exists |
| NhacNho.WithoutOwnedKeepsOthers | QuanLyCTCN/Controllers/NhacNhoController.cs:218-222 | every other user's reminders keep their contents and order |
| NhacNho.DeleteReminder | QuanLyCTCN/Controllers/NhacNhoController.cs:208-228 | removes the user's reminder; any other key changes nothing |
| NhacNho.MarkRead | QuanLyCTCN/Controllers/NhacNhoController.cs:231-259 | marking as read deletes the user's reminder; a missing one is NotFound |
| NhacNho.RepeatCount | QuanLyCTCN/Controllers/NhacNhoController.cs:308-319 | daily gives 30 copies, weekly 12, monthly 12, anything else none |
| NhacNho.CopyCount | QuanLyCTCN/Controllers/NhacNhoController.cs:304-319 | no copies unless the kind is not "none" and the interval positive; then RepeatCount of the kind |
| Common.Int32 | QuanLyCTCN/Controllers/NhacNhoController.cs:325-327 | the product computed in C# `int`: a value in the 32-bit range, equal to the exact product when that fits |
| Calendar.ShiftDays | QuanLyCTCN/Controllers/NhacNhoController.cs:325-326 | `AddDays` for any whole count: a value it gives is a valid instant at the same time of day, and a non-negative count gives the ordinary day shift |
| Calendar.ShiftMonths | QuanLyCTCN/Controllers/NhacNhoController.cs:327 | `AddMonths` for any whole count: a value exactly when the shifted month is from year 1 on, and then a valid instant at the same time of day |
| NhacNho.RepeatTime | QuanLyCTCN/Controllers/NhacNhoController.cs:321-344 | a repeat time that exists is a valid instant at the base's time of day; none when the 32-bit shift lands before year 1 |
| NhacNho.Copy | QuanLyCTCN/Controllers/NhacNhoController.cs:321-344 | every copy of a valid reminder is itself valid |
| NhacNho.Copies | QuanLyCTCN/Controllers/NhacNhoController.cs:321-344 | exactly n copies (CopiesAt says which) |
| NhacNho.CopiesAt | QuanLyCTCN/Controllers/NhacNhoController.cs:321-344 | the k-th copy is copy k + 1 of the base, keyed firstId + k |
| NhacNho.RepeatTimesIncrease | QuanLyCTCN/Controllers/NhacNhoController.cs:321-344 | while the shift fits in 32 bits, later copies fall strictly later, all after the base reminder |
| NhacNho.MonthlyCopiesDoNotDrift | QuanLyCTCN/Controllers/NhacNhoController.cs:321-344 | from 31 January, the monthly copies fall on 28 February and then 31 March |
| NhacNho.WeeklyOffsetWraps | QuanLyCTCN/Controllers/NhacNhoController.cs:326 | an interval of 613566756 weeks makes the first copy's shift wrap to -4 days: 31 January 2025 gives 27 January |
| NhacNho.MonthlyOffsetThrows | QuanLyCTCN/Controllers/NhacNhoController.cs:327 | an interval of 2^30 months wraps the second copy's shift to -2^31, and AddMonths throws |
| NhacNho.StageCopies | QuanLyCTCN/Controllers/NhacNhoController.cs:321-344 | the loop yields exactly Copies(…) when every copy's time exists, and nothing otherwise |
| NhacNho.CreateRecurring | QuanLyCTCN/Controllers/NhacNhoController.cs:285-350 | a valid base reminder is saved, followed by CopyCount copies at their repeat times; when a copy's date cannot be computed the base stays saved and the action faults |
| ThongKe.GroupSums | QuanLyCTCN/Controllers/ThongKeController.cs:54-62 | LINQ GroupBy then Sum: never more groups than elements; keys and sums are stated by the lemmas below |
| ThongKe.GroupSumsDistinct | QuanLyCTCN/Controllers/ThongKeController.cs:54-62 | no key has two groups |
| ThongKe.GroupSumsCover | QuanLyCTCN/Controllers/ThongKeController.cs:54-62 | every element's key has a group |
| ThongKe.GroupSumsNonEmpty | QuanLyCTCN/Controllers/ThongKeController.cs:54-62 | every group has an element |
| ThongKe.GroupSumsTotals | QuanLyCTCN/Controllers/ThongKeController.cs:54-62 | each group's sum is the sum of exactly the elements with its key |
| ThongKe.GroupSumsAddUp | QuanLyCTCN/Controllers/ThongKeController.cs:54-62 | the group sums add up to the whole list's sum |
| ThongKe.Selected | QuanLyCTCN/Controllers/ThongKeController.cs:37-48 | exactly the user's rows dated within the range, each as often as stored, as a subsequence of the table (table order) |
| ThongKe.RangeTotal | QuanLyCTCN/Controllers/ThongKeController.cs:37-52 | the row-by-row total of the user's rows within the range; RangeTotalIsSumOfSelected and RangeTotalSplit state that it is the Sum over the Where and adds up over split ranges |
| ThongKe.RangeTotalIsSumOfSelected | QuanLyCTCN/Controllers/ThongKeController.cs:37-52 | the row-by-row total equals the Sum over the Where, for every table and range |
| ThongKe.RangeTotalSplit | QuanLyCTCN/Controllers/ThongKeController.cs:37-52 | a range split without overlap into two ranges totals the sum of their totals |
| ThongKe.DailySeries | QuanLyCTCN/Controllers/ThongKeController.cs:93-111 | the day groups, a permutation of GroupSums by day, sorted by date |
| ThongKe.DailySeriesShape | QuanLyCTCN/Controllers/ThongKeController.cs:93-111 | one entry per distinct day, strictly ascending, each with that day's sum |
| ThongKe.CategoryRows | QuanLyCTCN/Controllers/ThongKeController.cs:54-62 | one row per group with its total and a share of 0 |
| ThongKe.WithPercents | QuanLyCTCN/Controllers/ThongKeController.cs:64-71 | keeps the number of rows; the lemmas below state what the loop keeps and what bounds the shares obey |
| ThongKe.WithPercentsKeepsTotals | QuanLyCTCN/Controllers/ThongKeController.cs:64-71 | the percentage loop keeps categories and totals |
| ThongKe.ShareBounds | QuanLyCTCN/Controllers/ThongKeController.cs:69 | a share of a positive whole lies between 0% and 100% |
| ThongKe.SharesNeedNotAddUp | QuanLyCTCN/Controllers/ThongKeController.cs:69 | three equal categories show 33.33% each, which does not add up to 100% |
| ThongKe.SetPercents | QuanLyCTCN/Controllers/ThongKeController.cs:64-71 | the in-place loop leaves the array equal to WithPercents of its old contents |
| ThongKe.SideAddsUp | QuanLyCTCN/Controllers/ThongKeController.cs:51-62 | one row per distinct category with that category's sum, and the rows add up to the overall total |
| ThongKe.SidePercentsBounded | QuanLyCTCN/Controllers/ThongKeController.cs:64-71 | with non-negative amounts every share lies in 0%..100%; a zero total leaves them at 0 |
| ThongKe.SideOf | QuanLyCTCN/Controllers/ThongKeController.cs:37-111 | one table's statistics: the total, the per-category rows with shares and the daily series of the selected rows; SideAddsUp and SidePercentsBounded state their properties |
| ThongKe.Breakdown | QuanLyCTCN/Controllers/ThongKeController.cs:51-90 | the computed side is SideOf: the total, the per-category rows with their shares, and the daily series |
| ThongKe.StatisticsIndex | QuanLyCTCN/Controllers/ThongKeController.cs:19-127 | incomes by receipt date and expenses of the range (today's month by default): totals, category tables and daily series |
| ThongKe.ComparedKind | QuanLyCTCN/Controllers/ThongKeController.cs:195 | the compared kind is "ChiTieu" when none is given, otherwise the kind given |
| ThongKe.CategoryComparison | QuanLyCTCN/Controllers/ThongKeController.cs:172-251 | the per-category table of expenses for "ChiTieu", and of incomes for any other kind |
| ThongKe.YearSeries | QuanLyCTCN/Controllers/ThongKeController.cs:145-163 | n rows, row i being month i + 1 of year y |
| ThongKe.MonthRow | QuanLyCTCN/Controllers/ThongKeController.cs:148-162 | the income and spending totals of one month, from its first to its last day; YearSeriesSums and YearSeriesAddsUp add them up |
| ThongKe.YearTotals | QuanLyCTCN/Controllers/ThongKeController.cs:130-169 | twelve monthly rows of the requested year (the current one by default); a year before 1 is an error |
| ThongKe.FirstMonthsWindow | QuanLyCTCN/Controllers/ThongKeController.cs:145-163 | the window of months 1..n holds exactly the valid dates of those months |
| ThongKe.MonthsPartitionWindow | QuanLyCTCN/Controllers/ThongKeController.cs:145-163 | months 1..n split 1 January to the end of month n |
| ThongKe.YearSeriesSums | QuanLyCTCN/Controllers/ThongKeController.cs:145-163 | the first n monthly rows sum to the totals of the window of those months |
| ThongKe.YearSeriesAddsUp | QuanLyCTCN/Controllers/ThongKeController.cs:145-163 | the twelve months add up to the whole year's income and spending |
| ThongKe.MonthStart | QuanLyCTCN/Controllers/ThongKeController.cs:268-269 | for a month index from year 1 on, a valid first-of-month date with that index |
| ThongKe.MonthStartOf | QuanLyCTCN/Controllers/ThongKeController.cs:268-269 | a first-of-month date is the MonthStart of its own index |
| ThongKe.MonthStartNotLater | QuanLyCTCN/Controllers/ThongKeController.cs:275 | a first-of-month is on or before a date exactly when its month is not later |
| ThongKe.TrendSeries | QuanLyCTCN/Controllers/ThongKeController.cs:275-298 | `count` rows whose month indices run consecutively from the start index |
| ThongKe.FirstOfShifted | QuanLyCTCN/Controllers/ThongKeController.cs:268-269 | the first day k months away starts the month with index shifted by k |
| ThongKe.MonthsThrough | QuanLyCTCN/Controllers/ThongKeController.cs:275-298 | the while loop produces the TrendSeries from the first month through today's |
| ThongKe.TrendStart | QuanLyCTCN/Controllers/ThongKeController.cs:268-269 | the start is a valid first of a month, k months from today's month |
| ThongKe.TrendOffset | QuanLyCTCN/Controllers/ThongKeController.cs:268 | the shift computed in C# `int`: in the 32-bit range, and 1 - n whenever neither the negation nor the addition wraps |
| ThongKe.TrendOffsetWraps | QuanLyCTCN/Controllers/ThongKeController.cs:268 | n = -2147483648 gives a shift of -2147483647, and n = -2147483647 gives -2147483648 |
| ThongKe.WrappedTrendFails | QuanLyCTCN/Controllers/ThongKeController.cs:268 | for a date up to year 9999, both wrapped shifts land before year 1, so the page is the error page |
| ThongKe.Trend | QuanLyCTCN/Controllers/ThongKeController.cs:254-304 | the months from the start through today's, the start being today's month shifted by the 32-bit `-(n) + 1` (n = 6 by default); a start before year 1 is an error |
| ThongKe.TrendEndsThisMonth | QuanLyCTCN/Controllers/ThongKeController.cs:275-298 | the trend's last row is the current month |
| Home.MonthIncomes | QuanLyCTCN/Controllers/HomeController.cs:49-53 | exactly the user's incomes attributed to the current month and year, each as often as stored, as a subsequence of the table (table order) |
| Home.IncomeMonthIsAttributionNotReceipt | QuanLyCTCN/Controllers/HomeController.cs:48-53 | an income received in February but attributed to March counts in the dashboard's March, not in March statistics |
| Home.SpendRatioBounds | QuanLyCTCN/Controllers/HomeController.cs:62-66 | 0 without positive income; 0%..100% for spending within the income; at least 100% when spending reaches it |
| Home.RecentExpenses | QuanLyCTCN/Controllers/HomeController.cs:69-74 | at most five of the user's expenses, latest first |
| Home.RecentExpensesAreLatest | QuanLyCTCN/Controllers/HomeController.cs:69-74 | an expense left out means five are shown, none dated earlier than it |
| Home.RecentIncomes | QuanLyCTCN/Controllers/HomeController.cs:77-82 | at most five of the user's incomes, latest receipt first |
| Home.RecentIncomesAreLatest | QuanLyCTCN/Controllers/HomeController.cs:77-82 | an income left out means five are shown, none received earlier than it |
| Home.NearestGoals | QuanLyCTCN/Controllers/HomeController.cs:85-89 | at most three of the user's goals, ordered by the nullable deadline |
| Home.NearestGoalsAreEarliest | QuanLyCTCN/Controllers/HomeController.cs:85-89 | a goal left out means three are shown, none with a later deadline key |
| Home.ComingReminders | QuanLyCTCN/Controllers/HomeController.cs:122-126 | at most five of the user's reminders from midnight today on, soonest first |
| Home.ComingRemindersAreSoonest | QuanLyCTCN/Controllers/HomeController.cs:122-126 | a coming reminder left out means five are shown, none due later than it |
| Home.UsageRows | QuanLyCTCN/Controllers/HomeController.cs:92-108 | one row per budget of the month, with its spend and usage as on the budget page |
| Home.NearLimitExactly | QuanLyCTCN/Controllers/HomeController.cs:107-110 | a budget is listed exactly when its cap is positive and the spend reaches 79.995% of it |
| Home.MeasureBudget | QuanLyCTCN/Controllers/HomeController.cs:101-108 | the spend and the rounded usage of one budget |
| Home.NearLimit | QuanLyCTCN/Controllers/HomeController.cs:97-119 | the loop keeps exactly the rows NearLimitRows selects |
| Home.DashboardOf | QuanLyCTCN/Controllers/HomeController.cs:43-192 | the month's income is the attributed income; its spending is the statistics total for the month; balance is income minus spending; the ratio is the usage percentage; category rows add up to the spending |
| Home.Build | QuanLyCTCN/Controllers/HomeController.cs:43-192 | the loops produce DashboardOf's dashboard |
| Home.Index | QuanLyCTCN/Controllers/HomeController.cs:21-195 | the guest page without a session, NotFound for a missing user row, otherwise the user's dashboard |
| Notifier.OwnerOf | QuanLyCTCN/BackgroundServices/ReminderBackgroundService.cs:58-59 | a user found is a stored row whose key is the reminder's owner |
| Notifier.DisplayName | QuanLyCTCN/BackgroundServices/ReminderBackgroundService.cs:70 | the full name when set, otherwise the login name; MailFor puts it in the mail |
| Notifier.MailFor | QuanLyCTCN/BackgroundServices/ReminderBackgroundService.cs:67-75 | the mail goes to the owner's non-empty address, at the reminder's time |
| Notifier.MailsFor | QuanLyCTCN/BackgroundServices/ReminderBackgroundService.cs:63-84 | at most one mail per reminder, each to a non-empty address |
| Notifier.MailsForExactly | QuanLyCTCN/BackgroundServices/ReminderBackgroundService.cs:63-84 | a mail is sent exactly when a reminder of the list yields it |
| Notifier.DueReminders | QuanLyCTCN/BackgroundServices/ReminderBackgroundService.cs:57-61 | exactly the reminders due between now and five minutes later, inclusive |
| Notifier.Due | QuanLyCTCN/BackgroundServices/ReminderBackgroundService.cs:57-61 | due from now to five minutes later, both ends included; DueReminders and LatePassMissesReminder state what the pass then mails and misses |
| Notifier.ReminderPassExactly | QuanLyCTCN/BackgroundServices/ReminderBackgroundService.cs:56-84 | the pass mails each due reminder whose owner has an e-mail address, and nothing else |
| Notifier.LatePassMissesReminder | QuanLyCTCN/BackgroundServices/ReminderBackgroundService.cs:32-44 | a reminder due after one window closes and before the next pass starts is never mailed |
| Notifier.ReminderPass | QuanLyCTCN/BackgroundServices/ReminderBackgroundService.cs:50-85 | the loop sends exactly MailsFor of the due reminders |
| Notifier.WarningBandInIntegers | QuanLyCTCN/BackgroundServices/ReminderBackgroundService.cs:125-126 | for a positive cap the band is 80% of the cap up to but excluding the cap; for a negative cap the inequalities turn |
| Notifier.InWarningBand | QuanLyCTCN/BackgroundServices/ReminderBackgroundService.cs:125-126 | the exact percentage spent/cap × 100 lies in [80, 100); WarningBandInIntegers restates it in whole numbers |
| Notifier.OverLimitNotWarned | QuanLyCTCN/BackgroundServices/ReminderBackgroundService.cs:126 | a budget spent to its positive cap gets no warning |
| Notifier.RoundedAndExactBandsDiffer | QuanLyCTCN/BackgroundServices/ReminderBackgroundService.cs:125-126 | 159.99 spent of a 200.00 cap is on the dashboard's list but gets no mail |
| Notifier.WarningFor | QuanLyCTCN/BackgroundServices/ReminderBackgroundService.cs:128-134 | the warning goes to the user's address and carries the month's spend in the category and the cap |
| Notifier.BudgetWarning | QuanLyCTCN/BackgroundServices/ReminderBackgroundService.cs:124-137 | one mail exactly when the month's spend is in the warning band, and it is that budget's warning |
| Notifier.UserWarnings | QuanLyCTCN/BackgroundServices/ReminderBackgroundService.cs:114-138 | at most one warning per budget (UserWarningsInBand says which) |
| Notifier.UserWarningsInBand | QuanLyCTCN/BackgroundServices/ReminderBackgroundService.cs:114-138 | every warning goes to the user, for a nonzero cap and a spend in the band |
| Notifier.ZeroCapSilencesLater | QuanLyCTCN/BackgroundServices/ReminderBackgroundService.cs:98-143 | a zero cap silences every later budget of that user |
| Notifier.UserWarningsComplete | QuanLyCTCN/BackgroundServices/ReminderBackgroundService.cs:114-138 | every budget in the band that comes before any zero cap gets its warning |
| Notifier.BudgetWarnings | QuanLyCTCN/BackgroundServices/ReminderBackgroundService.cs:94-144 | every warning goes to a non-empty address, for a nonzero cap and a spend in the band |
| Notifier.WarnUser | QuanLyCTCN/BackgroundServices/ReminderBackgroundService.cs:96-143 | the loop over one user's budgets sends exactly UserWarnings |
| Notifier.WarningPass | QuanLyCTCN/BackgroundServices/ReminderBackgroundService.cs:87-145 | the pass sends exactly BudgetWarnings |
| NganSachJs.StripDots | QuanLyCTCN/wwwroot/js/ngansach.js:351 | the result has no '.' and is no longer than the input |
| NganSachJs.StripDotsNone | QuanLyCTCN/wwwroot/js/ngansach.js:351 | text without a '.' is left as it is |
| NganSachJs.GroupShape | QuanLyCTCN/wwwroot/js/ngansach.js:406-408 | one '.' per full group of three after the first digit; counted from the end, every fourth character is a '.' and no other is |
| NganSachJs.GroupStripDots | QuanLyCTCN/wwwroot/js/ngansach.js:406-408 | removing the dots from grouped digits gives the digits back |
| NganSachJs.FormatNumberRoundTrip | QuanLyCTCN/wwwroot/js/ngansach.js:406-408 | the shown text with its dots removed gives the digits of n, which denote n |
| NganSachJs.FormatNumberInjective | QuanLyCTCN/wwwroot/js/ngansach.js:406-408 | two numbers that format alike are equal |
| NganSachJs.FormatNumberExample | QuanLyCTCN/wwwroot/js/ngansach.js:406-408 | 1500000 is shown as "1.500.000" |
| NganSachJs.FormatNumber | QuanLyCTCN/wwwroot/js/ngansach.js:405-408 | the digits of n with a '.' before every group of three; FormatNumberRoundTrip and FormatNumberInjective show it reads back as n |
| NganSachJs.ReadsNonNegative | QuanLyCTCN/wwwroot/js/ngansach.js:358-363 | parseFloat of the dot-free text gives a number that is not negative |
| NganSachJs.ReadNumber | QuanLyCTCN/wwwroot/js/ngansach.js:358-363 | the number read from the dot-free text; Blur and the constructor format it |
| NganSachJs.DigitsOnly | QuanLyCTCN/wwwroot/js/ngansach.js:382 | only digits remain, and the result is no longer than the input |
| NganSachJs.DigitsOnlyKeepsDigits | QuanLyCTCN/wwwroot/js/ngansach.js:382 | a digit string is kept whole |
| NganSachJs.Sanitize | QuanLyCTCN/wwwroot/js/ngansach.js:382-387 | digits only, at most one character shorter than the digits typed |
| NganSachJs.LeadingZeroValue | QuanLyCTCN/wwwroot/js/ngansach.js:385-387 | a leading zero does not change the value of a digit string |
| NganSachJs.SanitizeKeepsValue | QuanLyCTCN/wwwroot/js/ngansach.js:382-387 | cleaning keeps the number the typed digits denote |
| NganSachJs.SanitizeDropsOneZero | QuanLyCTCN/wwwroot/js/ngansach.js:385-387 | one zero goes per input event: "007" becomes "07", and "0" alone stays |
| NganSachJs.CurrencyField.constructor | QuanLyCTCN/wwwroot/js/ngansach.js:393-403 | an initial value that reads as a non-negative number is shown formatted; otherwise it is kept as it is |
| NganSachJs.CurrencyField.Focus | QuanLyCTCN/wwwroot/js/ngansach.js:348-355 | a formatted, non-empty text loses its dots and the field becomes unformatted |
| NganSachJs.CurrencyField.Blur | QuanLyCTCN/wwwroot/js/ngansach.js:357-378 | readable text is formatted and remembered (and mirrored into the hidden input, which disables the field); other text is restored to the remembered value |
| NganSachJs.CurrencyField.Input | QuanLyCTCN/wwwroot/js/ngansach.js:380-391 | the text becomes Sanitize of what was typed, and the field becomes unformatted |
| NganSachJs.ValidateField | QuanLyCTCN/wwwroot/js/ngansach.js:108-121 | fails for a required blank field and for a non-blank cap that parseFloat does not read as positive; RequiredBlankFails and FormattedCapValid state both rules |
| Text.WhiteSpaceSetsDiffer | QuanLyCTCN/wwwroot/js/ngansach.js:103 | JavaScript's trim skips the byte order mark but not next line (U+0085), which .NET's char.IsWhiteSpace treats the other way round; every other .NET white-space character is JavaScript white space too |
| Text.IdeographicSpaceIsBlank | QuanLyCTCN/Models/DanhMuc.cs:15 | a name of one ideographic space (U+3000) fails [Required], and trim in the browser empties it |
| NganSachJs.RequiredBlankFails | QuanLyCTCN/wwwroot/js/ngansach.js:108-121 | a required field fails exactly when blank; a blank optional field passes |
| NganSachJs.FormattedCapValid | QuanLyCTCN/wwwroot/js/ngansach.js:108-121 | the formatted cap passes exactly when the number is positive |
| NhacNhoJs.GetTimeRemaining | src/wwwroot/js/nhacnho.js:329-345 | each bucket holds exactly for its range of the difference; minutes 1..60, hours 1..24, days at least 1, each within half a unit of the difference |
| NhacNhoJs.TimeDisplay | src/wwwroot/js/nhacnho.js:224-245 | a past time shows a number of hours ago that is never negative |
| NhacNhoJs.DisplayAgreesWithRemaining | src/wwwroot/js/nhacnho.js:224-245 | countdown and getTimeRemaining agree exactly when not past due; an hour and a half ago shows 1 |
| NhacNhoJs.StatusOf | src/wwwroot/js/nhacnho.js:260-269 | overdue before the time, soon up to one hour ahead, upcoming after (and for an unreadable date) |
| NhacNhoJs.BadgeVersusRemaining | src/wwwroot/js/nhacnho.js:260-269 | the badge and the countdown class disagree exactly from one minute to one hour ahead |
| NhacNhoJs.UpdateStatusBadges | src/wwwroot/js/nhacnho.js:247-272 | every element's badge becomes StatusOf its own target against its clock reading; targets are kept |
| NhacNhoJs.UpdateTimeDisplays | src/wwwroot/js/nhacnho.js:224-245 | every element's text becomes TimeDisplay of its own target; targets are kept |
| NhacNhoJs.IntervalMax | src/wwwroot/js/nhacnho.js:191-206 | 30 for daily, 4 for weekly, 12 for monthly, nothing otherwise; IntervalMaxMatchesRepeat ties it to the server's copy counts |
| NhacNhoJs.IntervalMaxMatchesRepeat | src/wwwroot/js/nhacnho.js:184-207 | the kinds with an interval range are exactly those the server repeats; the reset interval 1 yields the kind's full copy count |
| NhacNhoJs.IntervalInput.OnRepeatChange | src/wwwroot/js/nhacnho.js:184-207 | "none" hides the input and sets it to 1; a repeat kind shows it at 1 with 1..max; other choices only show it |
| NhacNhoJs.ValidateField | src/wwwroot/js/nhacnho.js:106-126 | fails for a required blank field, for NoiDung of 1 to 4 trimmed characters, and for a readable ThoiGian before now; ValidateFieldRules states each rule |
| NhacNhoJs.ValidateFieldRules | src/wwwroot/js/nhacnho.js:107-126 | blank required fields fail; NoiDung of 1..4 trimmed characters fails; a readable ThoiGian in the past fails; an unreadable one passes |
| NhacNhoJs.ShortContentStoppedInBrowser | src/wwwroot/js/nhacnho.js:107-126 | "abcd" and "  abcd  " are refused by the page, although the server accepts them |

## Left out

- Databases, sessions, views and mail: EF Core and SQL (collations, concurrency exceptions), sessions and TempData,
  views, antiforgery, the GET pages that only show forms, and avatar upload are not part of this model. E-mail sending over SMTP is
  not modelled either; a mail is a value in the output list, and send failures are not modelled.
- Time of day: the dates posted by the forms carry no time of day, so `NgayChi`/`NgayNhap` are modelled as dates.
  Sub-second clock ticks are left out.
- Date range: `AddDays`/`AddMonths` beyond year 9999 throw in .NET. The model has unbounded years above; only a date before year 1 is treated as the exception it raises.
- Decimal precision: `decimal` has 28 significant digits. Percentages are computed exactly here.
- Integer cast: the `(int)` cast in `MucTieu.PhanTramHoanThanh` is modelled as `None` when it would throw; the property page that reads it is not part of this model.
- Background service timing: the `Task.Delay` loop, cancellation and logging are left out. Each pass is modelled as one call
  with the clock as a parameter, and `DateTime.Now` is read once per pass rather than once per user.
- Keys: `Db.Valid()` does not state that keys are positive; no modelled operation depends on their sign.
- Messages: the text of error and success messages is left out. Outcomes are values of `Store.Outcome`.
- Category kinds: an empty kind on the category page is treated as "no filter".
- Browser scripts: the DOM, tooltips, auto-refresh timers and the culture formatting of server-rendered values are left out.
  Targets are given in milliseconds, and a `new Date` that does not parse is `None`.
- NganSachJs.FormatNumber: covers only the whole numbers the field holds. It leaves out `Number.toString`'s exponent form at
  1e21 and above, and float precision above 2^53.
- NganSachJs.ReadNumber: `parseFloat`'s exponent forms and "Infinity" are not modelled. Only digit strings,
  with an optional sign after white space, are read.
- NhacNhoJs.ValidateField: string length is counted in Dafny characters, not UTF-16 code units.
- NhacNho.Copies: the source skips a copy whose time equals `DateTime.MinValue` (midnight, 1 January of year 1). The model keeps that copy. Only a shift wrapped to a negative value can reach that instant.
