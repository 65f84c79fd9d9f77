// Incomes (ThuNhapController): the monthly listing, create / edit / delete,
// and the savings allocator that runs after each of those writes and pours
// the user's all-time surplus into their open goals, earliest deadline first.
module ThuNhap {
  import opened Common
  import opened Calendar
  import opened Entities
  import opened Store

  // ----- Index --------------------------------------------------------------

  /**
   * The month the listing asks for: the requested month and year when both
   * are given; the current month when no start date is given; otherwise the
   * (possibly missing) values as passed.
   */
  function ListedPeriod(from: Option<Date>, month: Option<int>, year: Option<int>, today: Date): (r: (Option<int>, Option<int>))
    ensures month.Some? && year.Some? ==> r == (month, year)
    ensures (month.None? || year.None?) && from.None? ==> r == (Some(today.month), Some(today.year))
    ensures (month.None? || year.None?) && from.Some? ==> r == (month, year)
  {
    if month.Some? && year.Some? then (month, year)
    else if from.None? then (Some(today.month), Some(today.year))
    else (month, year)
  }

  predicate Listed(i: Income, user: int, period: (Option<int>, Option<int>))
  {
    i.owner == Some(user) && i.month == period.0 && i.year == period.1
  }

  datatype IncomeListing = IncomeListing(rows: seq<Income>, total: Money, shownMonth: int, shownYear: int)

  /**
   * The income listing: the user's incomes attributed to the listed month
   * (null compared with null matches), newest receipt first, with their
   * total. The date-range parameters never filter anything.
   */
  function IncomeIndex(incomes: seq<Income>, user: int, from: Option<Date>, month: Option<int>, year: Option<int>, today: Date): (r: IncomeListing)
    ensures forall x :: x in r.rows <==> x in incomes && Listed(x, user, ListedPeriod(from, month, year, today))
    ensures forall x :: (multiset(r.rows)[x] ==
      if Listed(x, user, ListedPeriod(from, month, year, today)) then multiset(incomes)[x] else 0)
    ensures forall a, b :: 0 <= a < b < |r.rows| ==> DateKey(r.rows[a].received) >= DateKey(r.rows[b].received)
    ensures r.total == SumOf(r.rows, IncomeAmount)
  {
    var period := ListedPeriod(from, month, year, today);
    var p := (i: Income) => Listed(i, user, period);
    var listed := Filter(incomes, p);
    var rows := SortByDescending(listed, (i: Income) => DateKey(i.received));
    SameMembers(rows, listed);
    FilterCounts(incomes, p);
    IncomeListing(rows, SumOf(rows, IncomeAmount),
      if period.0.Some? then period.0.value else today.month,
      if period.1.Some? then period.1.value else today.year)
  }

  /** Two different start dates give the same listing: the range is never applied. */
  lemma IncomeIndexIgnoresDates(incomes: seq<Income>, user: int, from1: Date, from2: Date, month: Option<int>, year: Option<int>, today: Date)
    ensures IncomeIndex(incomes, user, Some(from1), month, year, today) == IncomeIndex(incomes, user, Some(from2), month, year, today)
  {
  }

  /** With a start date but no year, only incomes without an attributed year are listed. */
  lemma IncomeIndexPartialPeriod(incomes: seq<Income>, user: int, from: Date, month: Option<int>, today: Date)
    ensures forall x :: x in IncomeIndex(incomes, user, Some(from), month, None, today).rows ==> x.year.None?
  {
  }

  // ----- Create / Edit / Delete ---------------------------------------------

  /** The first income with this key that the user owns. */
  function OwnedIncome(incomes: seq<Income>, id: int, user: int): (r: Option<nat>)
    ensures r.Some? ==> r.value < |incomes| && incomes[r.value].id == id && incomes[r.value].owner == Some(user)
    ensures r.None? ==> forall x :: x in incomes ==> !(x.id == id && x.owner == Some(user))
  {
    var r := FirstIndex(incomes, (i: Income) => i.id == id && i.owner == Some(user));
    assert r.None? ==> forall j :: 0 <= j < |incomes| ==> !(incomes[j].id == id && incomes[j].owner == Some(user));
    r
  }

  /** The fields an edit copies onto the stored income: amount, receipt date, category, note. */
  function EditedIncome(stored: Income, posted: Income): (r: Income)
    ensures r.id == stored.id && r.owner == stored.owner
    ensures r.month == stored.month && r.year == stored.year
    ensures r.amount == posted.amount && r.received == posted.received
    ensures r.category == posted.category && r.note == posted.note
  {
    stored.(amount := posted.amount, received := posted.received, category := posted.category, note := posted.note)
  }

  /** POST Create: the income is saved as the signed-in user's, then the allocator runs. */
  method CreateIncome(db: Db, session: Option<int>, posted: Income, now: Instant) returns (outcome: Outcome)
    requires db.Valid() && ValidInstant(now)
    modifies db`incomes, db`nextIncomeId, db`goals, db`reminders, db`nextReminderId
    ensures db.Valid()
    ensures session.None? ==> outcome == LoginRequired && unchanged(db)
    ensures session.Some? && !ValidIncome(posted) ==> outcome == FormRejected && unchanged(db)
    ensures session.Some? && ValidIncome(posted) ==>
      outcome == Saved &&
      db.incomes == old(db.incomes) + [posted.(id := old(db.nextIncomeId), owner := session)] &&
      AllocatedFrom(db, old(db.goals), old(db.reminders), old(db.nextReminderId), session.value, now)
  {
    if session.None? {
      return LoginRequired;
    }
    if !ValidIncome(posted) {
      return FormRejected;
    }
    var row := posted.(id := db.nextIncomeId, owner := session);
    TableAppend(db.incomes, IncomeKey, db.nextIncomeId, ValidIncome, row);
    db.incomes := db.incomes + [row];
    db.nextIncomeId := db.nextIncomeId + 1;
    AllocateSavings(db, session.value, now);
    outcome := Saved;
  }

  /**
   * POST Edit: only an income the user owns can be edited, and only its
   * amount, date, category and note change; then the allocator runs.
   */
  method EditIncome(db: Db, session: Option<int>, id: int, posted: Income, now: Instant) returns (outcome: Outcome)
    requires db.Valid() && ValidInstant(now)
    modifies db`incomes, db`nextIncomeId, db`goals, db`reminders, db`nextReminderId
    ensures db.Valid()
    ensures session.None? ==> outcome == LoginRequired && unchanged(db)
    ensures session.Some? && (id != posted.id || OwnedIncome(old(db.incomes), id, session.value).None?) ==>
      outcome == NotFound && unchanged(db)
    ensures session.Some? && id == posted.id && OwnedIncome(old(db.incomes), id, session.value).Some? ==>
      var k := OwnedIncome(old(db.incomes), id, session.value).value;
      if !ValidIncome(posted.(owner := session)) then
        outcome == FormRejected && unchanged(db)
      else
        outcome == Saved &&
        db.incomes == old(db.incomes)[k := EditedIncome(old(db.incomes)[k], posted)] &&
        AllocatedFrom(db, old(db.goals), old(db.reminders), old(db.nextReminderId), session.value, now)
  {
    if session.None? {
      return LoginRequired;
    }
    var found := OwnedIncome(db.incomes, id, session.value);
    if id != posted.id || found.None? {
      return NotFound;
    }
    if !ValidIncome(posted.(owner := session)) {
      return FormRejected;
    }
    var k := found.value;
    var row := EditedIncome(db.incomes[k], posted);
    assert db.incomes[k] in db.incomes;
    TableReplace(db.incomes, IncomeKey, db.nextIncomeId, ValidIncome, k, row);
    db.incomes := db.incomes[k := row];
    AllocateSavings(db, session.value, now);
    outcome := Saved;
  }

  /** POST Delete: an income the user owns is removed and the allocator runs; otherwise nothing changes. */
  method DeleteIncome(db: Db, session: Option<int>, id: int, now: Instant) returns (outcome: Outcome)
    requires db.Valid() && ValidInstant(now)
    modifies db`incomes, db`nextIncomeId, db`goals, db`reminders, db`nextReminderId
    ensures db.Valid()
    ensures session.None? ==> outcome == LoginRequired && unchanged(db)
    ensures session.Some? && OwnedIncome(old(db.incomes), id, session.value).None? ==>
      outcome == Refused && unchanged(db)
    ensures session.Some? && OwnedIncome(old(db.incomes), id, session.value).Some? ==>
      outcome == Saved &&
      db.incomes == RemoveAt(old(db.incomes), OwnedIncome(old(db.incomes), id, session.value).value) &&
      AllocatedFrom(db, old(db.goals), old(db.reminders), old(db.nextReminderId), session.value, now)
  {
    if session.None? {
      return LoginRequired;
    }
    var found := OwnedIncome(db.incomes, id, session.value);
    if found.None? {
      return Refused;
    }
    TableRemove(db.incomes, IncomeKey, db.nextIncomeId, ValidIncome, found.value);
    db.incomes := RemoveAt(db.incomes, found.value);
    AllocateSavings(db, session.value, now);
    outcome := Saved;
  }

  // ----- KiemTraVaCapNhatMucTieu: the savings allocator -----------------------

  /** A goal the allocator tracks: the user's, with no deadline or a deadline not before today. */
  predicate Tracked(g: Goal, user: int, today: Date)
  {
    g.owner == Some(user) && (g.deadline.None? || DateLe(today, g.deadline.value))
  }

  /** The positions of the tracked goals, in table order. */
  function TrackedIndices(goals: seq<Goal>, user: int, today: Date): (r: seq<nat>)
    ensures forall k :: 0 <= k < |r| ==> r[k] < |goals| && Tracked(goals[r[k]], user, today)
    ensures forall j :: 0 <= j < |goals| && Tracked(goals[j], user, today) ==> j in r
    ensures forall a, b :: 0 <= a < b < |r| ==> r[a] < r[b]
    decreases |goals|
  {
    if goals == [] then []
    else
      var n := |goals| - 1;
      var front := TrackedIndices(goals[..n], user, today);
      assert forall k :: 0 <= k < |front| ==> goals[..n][front[k]] == goals[front[k]];
      if Tracked(goals[n], user, today) then front + [n] else front
  }

  /** The OrderBy key on a nullable deadline: a null deadline sorts before every date. */
  function DeadlineKey(goals: seq<Goal>, i: nat): int
  {
    if i < |goals| && goals[i].deadline.Some? then DateKey(goals[i].deadline.value) else 0
  }

  /** The order in which the allocator visits the tracked goals (OrderBy(m => m.Han)). */
  function VisitOrder(goals: seq<Goal>, user: int, today: Date): (r: seq<nat>)
    ensures multiset(r) == multiset(TrackedIndices(goals, user, today))
    ensures SortedBy(r, i => DeadlineKey(goals, i))
  {
    SortBy(TrackedIndices(goals, user, today), i => DeadlineKey(goals, i))
  }

  /** The visit order holds exactly the tracked goals. */
  lemma VisitOrderTracked(goals: seq<Goal>, user: int, today: Date)
    ensures var r := VisitOrder(goals, user, today);
      (forall k :: 0 <= k < |r| ==> r[k] < |goals| && Tracked(goals[r[k]], user, today)) &&
      (forall j :: 0 <= j < |goals| && Tracked(goals[j], user, today) ==> j in r)
  {
    var t := TrackedIndices(goals, user, today);
    var r := VisitOrder(goals, user, today);
    SameMembers(r, t);
    forall k | 0 <= k < |r|
      ensures r[k] < |goals| && Tracked(goals[r[k]], user, today)
    {
      assert r[k] in t;
      var m :| 0 <= m < |t| && t[m] == r[k];
    }
  }

  /** The visit order visits each goal at most once. */
  lemma VisitOrderDistinct(goals: seq<Goal>, user: int, today: Date)
    ensures var r := VisitOrder(goals, user, today);
      forall a, b :: 0 <= a < b < |r| ==> r[a] != r[b]
  {
    var t := TrackedIndices(goals, user, today);
    var r := VisitOrder(goals, user, today);
    forall a, b | 0 <= a < b < |r|
      ensures r[a] != r[b]
    {
      if r[a] == r[b] {
        DistinctMultiplicity(t, r[a]);
        RepeatedMultiplicity(r, a, b);
      }
    }
  }

  /**
   * The visit order is ascending by deadline, and every goal without a
   * deadline comes before every goal with one.
   */
  lemma VisitOrderByDeadline(goals: seq<Goal>, user: int, today: Date)
    requires forall g :: g in goals ==> ValidGoal(g)
    ensures var r := VisitOrder(goals, user, today);
      (forall a, b :: 0 <= a < b < |r| && r[b] < |goals| && goals[r[b]].deadline.None? ==>
         r[a] < |goals| && goals[r[a]].deadline.None?) &&
      (forall a, b :: (0 <= a < b < |r| && r[a] < |goals| && r[b] < |goals| &&
         goals[r[a]].deadline.Some? && goals[r[b]].deadline.Some?) ==>
         DateKey(goals[r[a]].deadline.value) <= DateKey(goals[r[b]].deadline.value))
  {
    var r := VisitOrder(goals, user, today);
    VisitOrderTracked(goals, user, today);
    forall a, b | 0 <= a < b < |r| && r[b] < |goals| && goals[r[b]].deadline.None?
      ensures r[a] < |goals| && goals[r[a]].deadline.None?
    {
      assert DeadlineKey(goals, r[a]) <= DeadlineKey(goals, r[b]);
      if goals[r[a]].deadline.Some? {
        assert goals[r[a]] in goals;
      }
    }
    forall a, b | 0 <= a < b < |r| && r[a] < |goals| && r[b] < |goals| &&
         goals[r[a]].deadline.Some? && goals[r[b]].deadline.Some?
      ensures DateKey(goals[r[a]].deadline.value) <= DateKey(goals[r[b]].deadline.value)
    {
      assert DeadlineKey(goals, r[a]) <= DeadlineKey(goals, r[b]);
    }
  }

  /** In a strictly increasing sequence every value occurs at most once. */
  lemma {:induction false} DistinctMultiplicity(s: seq<nat>, x: nat)
    requires forall a, b :: 0 <= a < b < |s| ==> s[a] < s[b]
    ensures multiset(s)[x] <= 1
    decreases |s|
  {
    if s != [] {
      DistinctMultiplicity(s[1..], x);
      assert s == [s[0]] + s[1..];
      if s[0] == x {
        assert x !in s[1..];
      }
    }
  }

  /** All-time income minus all-time expense of the user: the amount there is to distribute. */
  function Surplus(incomes: seq<Income>, expenses: seq<Expense>, user: int): int
  {
    SumOf(Filter(incomes, (i: Income) => i.owner == Some(user)), IncomeAmount) -
    SumOf(Filter(expenses, (e: Expense) => e.owner == Some(user)), ExpenseAmount)
  }

  /** The allocator's running state: the goals table, what is left to give, and the goals found complete. */
  datatype AllocState = AllocState(goals: seq<Goal>, remaining: Money, completed: seq<Goal>)

  /** What the allocator still owes a goal to reach its target. */
  function Needed(g: Goal): int
  {
    g.target - SavedSoFar(g)
  }

  /**
   * One iteration of the allocation loop on goal i: it receives
   * min(needed, remaining) when both are positive, and it is reported
   * complete when its (non-null) savings reach the target.
   */
  function Visit(s: AllocState, i: nat): (r: AllocState)
    requires i < |s.goals|
    ensures |r.goals| == |s.goals|
  {
    var g := s.goals[i];
    var g' := if Needed(g) > 0 && s.remaining > 0 then g.(saved := Some(SavedSoFar(g) + Min(Needed(g), s.remaining))) else g;
    var remaining := s.remaining - (SavedSoFar(g') - SavedSoFar(g));
    AllocState(s.goals[i := g'], remaining, if LiftedGe(g'.saved, g'.target) then s.completed + [g'] else s.completed)
  }

  /** The allocation loop run over the visit order. */
  function Run(start: AllocState, order: seq<nat>): (r: AllocState)
    ensures |r.goals| == |start.goals|
    decreases |order|
  {
    if order == [] then start
    else
      var s := Run(start, order[..|order| - 1]);
      var i := order[|order| - 1];
      if i < |s.goals| then Visit(s, i) else s
  }

  /**
   * The whole allocator: nothing happens unless the user has a tracked goal
   * and a positive surplus; otherwise the loop runs from the full surplus.
   */
  function Allocation(goals: seq<Goal>, incomes: seq<Income>, expenses: seq<Expense>, user: int, today: Date): AllocState
  {
    var order := VisitOrder(goals, user, today);
    var surplus := Surplus(incomes, expenses, user);
    if order != [] && surplus > 0 then Run(AllocState(goals, surplus, []), order)
    else AllocState(goals, surplus, [])
  }

  /** The completion reminder for one goal. */
  function CompletionReminder(g: Goal, user: int, now: Instant, id: int): Reminder
  {
    Reminder(id, Some(user), Some(GoalCompleted(g.name, g.target)), now, Some(TagGoal))
  }

  /** The completion reminders written, in order, for the goals the allocator reports complete. */
  function CompletionReminders(completed: seq<Goal>, user: int, now: Instant, firstId: int): (r: seq<Reminder>)
    ensures |r| == |completed|
    ensures forall k :: 0 <= k < |r| ==>
      r[k].id == firstId + k && r[k].owner == Some(user) && r[k].time == now &&
      r[k].kind == Some(TagGoal) && r[k].content == Some(GoalCompleted(completed[k].name, completed[k].target))
    decreases |completed|
  {
    if completed == [] then []
    else
      var n := |completed| - 1;
      var front := CompletionReminders(completed[..n], user, now, firstId);
      assert forall k :: 0 <= k < n ==> completed[..n][k] == completed[k];
      front + [CompletionReminder(completed[n], user, now, firstId + n)]
  }

  /** The store after the allocator, given the goals, reminders and counter it started from. */
  ghost predicate AllocatedFrom(db: Db, goals0: seq<Goal>, reminders0: seq<Reminder>, next0: int, user: int, now: Instant)
    reads db
  {
    var a := Allocation(goals0, db.incomes, db.expenses, user, now.date);
    db.goals == a.goals &&
    db.reminders == reminders0 + CompletionReminders(a.completed, user, now, next0) &&
    db.nextReminderId == next0 + |a.completed|
  }

  /** The completion reminder the loop writes for a goal it has just visited. */
  method RemindIfComplete(db: Db, g: Goal, user: int, now: Instant)
    requires db.Valid() && ValidInstant(now)
    modifies db`reminders, db`nextReminderId
    ensures db.Valid()
    ensures LiftedGe(g.saved, g.target) ==>
      db.reminders == old(db.reminders) + [CompletionReminder(g, user, now, old(db.nextReminderId))] &&
      db.nextReminderId == old(db.nextReminderId) + 1
    ensures !LiftedGe(g.saved, g.target) ==> unchanged(db)
  {
    if LiftedGe(g.saved, g.target) {
      var note := CompletionReminder(g, user, now, db.nextReminderId);
      TableAppend(db.reminders, ReminderKey, db.nextReminderId, ValidReminder, note);
      db.reminders := db.reminders + [note];
      db.nextReminderId := db.nextReminderId + 1;
    }
  }

  /** The transfer part of one iteration: goal i receives min(needed, remaining) when both are positive. */
  method GiveToGoal(db: Db, i: nat, remaining: Money) returns (rest: Money, g: Goal)
    requires db.Valid() && i < |db.goals|
    modifies db`goals
    ensures db.Valid()
    ensures db.goals == Visit(AllocState(old(db.goals), remaining, []), i).goals
    ensures rest == Visit(AllocState(old(db.goals), remaining, []), i).remaining
    ensures g == db.goals[i]
  {
    rest := remaining;
    g := db.goals[i];
    if Needed(g) > 0 && remaining > 0 {
      var add := Min(Needed(g), remaining);
      g := g.(saved := Some(SavedSoFar(g) + add));
      TableReplace(db.goals, GoalKey, db.nextGoalId, ValidGoal, i, g);
      db.goals := db.goals[i := g];
      rest := remaining - add;
    }
  }

  /**
   * One iteration of the allocation loop, on the store: given a store whose
   * reminders are those of `completed`, it leaves the store of the next state.
   */
  method VisitGoal(db: Db, i: nat, remaining: Money, user: int, now: Instant,
                   ghost completed: seq<Goal>, ghost next: AllocState, ghost reminders0: seq<Reminder>, ghost firstId: int)
    returns (rest: Money)
    requires db.Valid() && ValidInstant(now) && i < |db.goals|
    requires next == Visit(AllocState(db.goals, remaining, completed), i)
    requires db.reminders == reminders0 + CompletionReminders(completed, user, now, firstId)
    requires db.nextReminderId == firstId + |completed|
    modifies db`goals, db`reminders, db`nextReminderId
    ensures db.Valid()
    ensures db.goals == next.goals && rest == next.remaining
    ensures db.reminders == reminders0 + CompletionReminders(next.completed, user, now, firstId)
    ensures db.nextReminderId == firstId + |next.completed|
  {
    var g;
    ghost var goals0 := db.goals;
    rest, g := GiveToGoal(db, i, remaining);
    VisitOutcome(goals0, remaining, completed, i, user, now, firstId);
    ghost var earlier := CompletionReminders(completed, user, now, firstId);
    RemindIfComplete(db, g, user, now);
    if LiftedGe(g.saved, g.target) {
      AppendAssoc(reminders0, earlier, [CompletionReminder(g, user, now, firstId + |completed|)]);
    } else {
      assert earlier + [] == earlier;
    }
  }

  /** What one visit adds to the completed goals and so to their reminders. */
  lemma VisitOutcome(goals: seq<Goal>, remaining: Money, completed: seq<Goal>, i: nat, user: int, now: Instant, firstId: int)
    requires i < |goals|
    ensures var v := Visit(AllocState(goals, remaining, completed), i);
      var w := Visit(AllocState(goals, remaining, []), i);
      var g := w.goals[i];
      v == AllocState(w.goals, w.remaining, v.completed) &&
      CompletionReminders(v.completed, user, now, firstId) ==
        CompletionReminders(completed, user, now, firstId) +
        (if LiftedGe(g.saved, g.target) then [CompletionReminder(g, user, now, firstId + |completed|)] else []) &&
      |v.completed| == |completed| + (if LiftedGe(g.saved, g.target) then 1 else 0)
  {
    var w := Visit(AllocState(goals, remaining, []), i);
    var g := w.goals[i];
    VisitShape(goals, remaining, completed, i);
    if LiftedGe(g.saved, g.target) {
      CompletionRemindersSnoc(completed, g, user, now, firstId);
    } else {
      assert completed + [] == completed;
    }
  }

  lemma VisitShape(goals: seq<Goal>, remaining: Money, completed: seq<Goal>, i: nat)
    requires i < |goals|
    ensures var v := Visit(AllocState(goals, remaining, completed), i);
      var w := Visit(AllocState(goals, remaining, []), i);
      v.goals == w.goals && v.remaining == w.remaining &&
      v.completed == completed + (if LiftedGe(w.goals[i].saved, w.goals[i].target) then [w.goals[i]] else [])
  {
  }

  lemma CompletionRemindersSnoc(completed: seq<Goal>, g: Goal, user: int, now: Instant, firstId: int)
    ensures CompletionReminders(completed + [g], user, now, firstId) ==
      CompletionReminders(completed, user, now, firstId) + [CompletionReminder(g, user, now, firstId + |completed|)]
  {
    assert (completed + [g])[..|completed|] == completed;
  }

  // ----- What the allocator guarantees ---------------------------------------

  /** The savings held by all goals together. */
  function TotalSaved(goals: seq<Goal>): int
  {
    SumOf(goals, SavedSoFar)
  }

  /** A goal has everything it needs. */
  predicate Saturated(g: Goal)
  {
    SavedSoFar(g) >= g.target
  }

  /** Only the savings of a goal ever change; they never fall and never pass the target from below. */
  predicate StepBounds(before: Goal, after: Goal)
  {
    after == before.(saved := after.saved) &&
    SavedSoFar(before) <= SavedSoFar(after) <= Max(SavedSoFar(before), before.target)
  }

  lemma StepBoundsTransitive(a: Goal, b: Goal, c: Goal)
    requires StepBounds(a, b) && StepBounds(b, c)
    ensures StepBounds(a, c)
  {
  }

  /** One visit moves money from `remaining` into goal i without creating or losing any. */
  lemma VisitFacts(s: AllocState, i: nat)
    requires i < |s.goals|
    ensures var r := Visit(s, i);
      TotalSaved(r.goals) + r.remaining == TotalSaved(s.goals) + s.remaining &&
      (s.remaining >= 0 ==> 0 <= r.remaining <= s.remaining) &&
      (forall j :: 0 <= j < |s.goals| ==> StepBounds(s.goals[j], r.goals[j])) &&
      (forall j :: 0 <= j < |s.goals| && j != i ==> r.goals[j] == s.goals[j]) &&
      (s.remaining > 0 && r.remaining > 0 ==> Saturated(r.goals[i])) &&
      |r.completed| <= |s.completed| + 1
  {
    var r := Visit(s, i);
    SumOfUpdate(s.goals, i, r.goals[i], SavedSoFar);
  }

  /** Money is conserved: what the goals gain is exactly what leaves `remaining`. */
  lemma {:induction false} RunConserves(start: AllocState, order: seq<nat>)
    ensures TotalSaved(Run(start, order).goals) + Run(start, order).remaining == TotalSaved(start.goals) + start.remaining
    ensures start.remaining >= 0 ==> 0 <= Run(start, order).remaining <= start.remaining
    decreases |order|
  {
    if order != [] {
      var prefix := order[..|order| - 1];
      RunConserves(start, prefix);
      var s := Run(start, prefix);
      if order[|order| - 1] < |s.goals| {
        VisitFacts(s, order[|order| - 1]);
      }
    }
  }

  /** Each goal only gains, never beyond its target, and keeps every other field. */
  lemma {:induction false} RunBounds(start: AllocState, order: seq<nat>)
    ensures forall j :: 0 <= j < |start.goals| ==> StepBounds(start.goals[j], Run(start, order).goals[j])
    decreases |order|
  {
    if order == [] {
      assert forall j :: 0 <= j < |start.goals| ==> StepBounds(start.goals[j], start.goals[j]);
    } else {
      var prefix := order[..|order| - 1];
      RunBounds(start, prefix);
      var s := Run(start, prefix);
      var i := order[|order| - 1];
      if i < |s.goals| {
        VisitFacts(s, i);
        forall j | 0 <= j < |start.goals|
          ensures StepBounds(start.goals[j], Run(start, order).goals[j])
        {
          StepBoundsTransitive(start.goals[j], s.goals[j], Run(start, order).goals[j]);
        }
      }
    }
  }

  /** A goal the loop never visits is left exactly as it was. */
  lemma {:induction false} RunUntouched(start: AllocState, order: seq<nat>, j: nat)
    requires j < |start.goals| && j !in order
    ensures Run(start, order).goals[j] == start.goals[j]
    decreases |order|
  {
    if order != [] {
      var prefix := order[..|order| - 1];
      assert forall x :: x in prefix ==> x in order;
      RunUntouched(start, prefix, j);
      var s := Run(start, prefix);
      if order[|order| - 1] < |s.goals| {
        VisitFacts(s, order[|order| - 1]);
      }
    }
  }

  /**
   * Greedy filling: if anything is left over at the end, every visited goal
   * has reached its target.
   */
  lemma {:induction false} RunSaturates(start: AllocState, order: seq<nat>)
    requires start.remaining >= 0
    requires Run(start, order).remaining > 0
    ensures forall k :: 0 <= k < |order| && order[k] < |start.goals| ==> Saturated(Run(start, order).goals[order[k]])
    decreases |order|
  {
    if order != [] {
      var n := |order| - 1;
      var prefix := order[..n];
      var s := Run(start, prefix);
      var r := Run(start, order);
      var i := order[n];
      RunConserves(start, prefix);
      if i < |s.goals| {
        VisitFacts(s, i);
      }
      RunSaturates(start, prefix);
      forall k | 0 <= k < |order| && order[k] < |start.goals|
        ensures Saturated(r.goals[order[k]])
      {
        if k < n {
          assert prefix[k] == order[k];
          assert Saturated(s.goals[order[k]]);
          if i < |s.goals| {
            assert StepBounds(s.goals[order[k]], r.goals[order[k]]);
          }
        }
      }
    }
  }

  /** Every goal reported complete has non-null savings at or above its target. */
  lemma {:induction false} RunCompleted(start: AllocState, order: seq<nat>)
    ensures |start.completed| <= |Run(start, order).completed| <= |start.completed| + |order|
    ensures forall k :: |start.completed| <= k < |Run(start, order).completed| ==>
      LiftedGe(Run(start, order).completed[k].saved, Run(start, order).completed[k].target)
    ensures Run(start, order).completed[..|start.completed|] == start.completed
    decreases |order|
  {
    if order != [] {
      RunCompleted(start, order[..|order| - 1]);
    }
  }

  /**
   * When every visited goal already holds non-null savings at its target,
   * a run changes no goal, keeps all the money, and reports every visited
   * goal complete again.
   */
  lemma {:induction false} RunRepeats(start: AllocState, order: seq<nat>)
    requires forall k :: 0 <= k < |order| ==> order[k] < |start.goals| && LiftedGe(start.goals[order[k]].saved, start.goals[order[k]].target)
    ensures Run(start, order).goals == start.goals
    ensures Run(start, order).remaining == start.remaining
    ensures Run(start, order).completed == start.completed + seq(|order|, k requires 0 <= k < |order| => start.goals[order[k]])
    decreases |order|
  {
    if order != [] {
      var n := |order| - 1;
      RunRepeats(start, order[..n]);
      var pre := seq(n, k requires 0 <= k < n => start.goals[order[..n][k]]);
      var all := seq(|order|, k requires 0 <= k < |order| => start.goals[order[k]]);
      assert all == pre + [start.goals[order[n]]];
      assert start.goals[order[n] := start.goals[order[n]]] == start.goals;
    }
  }

  /** The completion reminders of such a run, position by position. */
  lemma RunRepeatsAt(start: AllocState, order: seq<nat>)
    requires forall k :: 0 <= k < |order| ==> order[k] < |start.goals| && LiftedGe(start.goals[order[k]].saved, start.goals[order[k]].target)
    ensures Run(start, order).goals == start.goals
    ensures |Run(start, order).completed| == |start.completed| + |order|
    ensures forall k :: 0 <= k < |order| ==> Run(start, order).completed[|start.completed| + k] == start.goals[order[k]]
  {
    RunRepeats(start, order);
  }

  /** With money to give and a visited goal still short, the goals end up holding strictly more. */
  lemma RunProgress(start: AllocState, order: seq<nat>, k: nat)
    requires start.remaining > 0
    requires k < |order| && order[k] < |start.goals| && !Saturated(start.goals[order[k]])
    ensures TotalSaved(Run(start, order).goals) > TotalSaved(start.goals)
  {
    var r := Run(start, order);
    RunConserves(start, order);
    if r.remaining == start.remaining {
      RunSaturates(start, order);
      RunBounds(start, order);
      SumOfPointwise(start.goals, r.goals, SavedSoFar, order[k]);
    }
  }

  // ----- The same guarantees for the whole allocator --------------------------

  /** Nothing to give, or nobody to give to: the goals stay as they are and nobody is reminded. */
  lemma AllocationIdle(goals: seq<Goal>, incomes: seq<Income>, expenses: seq<Expense>, user: int, today: Date)
    requires Surplus(incomes, expenses, user) <= 0 || TrackedIndices(goals, user, today) == []
    ensures Allocation(goals, incomes, expenses, user, today).goals == goals
    ensures Allocation(goals, incomes, expenses, user, today).completed == []
  {
    if TrackedIndices(goals, user, today) == [] {
      assert |VisitOrder(goals, user, today)| == 0;
    }
  }

  /**
   * The goals together gain exactly the surplus given away, never more than
   * the surplus; each goal gains, never past its target, and a goal the
   * allocator does not track is untouched.
   */
  lemma AllocationBounds(goals: seq<Goal>, incomes: seq<Income>, expenses: seq<Expense>, user: int, today: Date)
    ensures var a := Allocation(goals, incomes, expenses, user, today);
      var gain := TotalSaved(a.goals) - TotalSaved(goals);
      0 <= gain <= Max(Surplus(incomes, expenses, user), 0) &&
      (forall j :: 0 <= j < |goals| ==> StepBounds(goals[j], a.goals[j])) &&
      (forall j :: 0 <= j < |goals| && !Tracked(goals[j], user, today) ==> a.goals[j] == goals[j])
  {
    var order := VisitOrder(goals, user, today);
    var surplus := Surplus(incomes, expenses, user);
    VisitOrderTracked(goals, user, today);
    if order != [] && surplus > 0 {
      var start := AllocState(goals, surplus, []);
      RunConserves(start, order);
      RunBounds(start, order);
      forall j | 0 <= j < |goals| && !Tracked(goals[j], user, today)
        ensures Allocation(goals, incomes, expenses, user, today).goals[j] == goals[j]
      {
        RunUntouched(start, order, j);
      }
    } else {
      assert forall j :: 0 <= j < |goals| ==> StepBounds(goals[j], goals[j]);
    }
  }

  /** Whatever is left over means every tracked goal has reached its target. */
  lemma AllocationGreedy(goals: seq<Goal>, incomes: seq<Income>, expenses: seq<Expense>, user: int, today: Date)
    requires var a := Allocation(goals, incomes, expenses, user, today);
      TrackedIndices(goals, user, today) != [] && a.remaining > 0
    ensures var a := Allocation(goals, incomes, expenses, user, today);
      forall j :: 0 <= j < |goals| && Tracked(goals[j], user, today) ==> Saturated(a.goals[j])
  {
    var order := VisitOrder(goals, user, today);
    VisitOrderTracked(goals, user, today);
    assert |order| == |TrackedIndices(goals, user, today)|;
    var start := AllocState(goals, Surplus(incomes, expenses, user), []);
    RunSaturates(start, order);
    forall j | 0 <= j < |goals| && Tracked(goals[j], user, today)
      ensures Saturated(Allocation(goals, incomes, expenses, user, today).goals[j])
    {
      var k :| 0 <= k < |order| && order[k] == j;
    }
  }

  /**
   * Running the allocator again on goals it has already filled changes no
   * goal but writes the completion reminder of every tracked goal once more.
   */
  lemma AllocationRerunRepeatsReminders(goals: seq<Goal>, incomes: seq<Income>, expenses: seq<Expense>, user: int, today: Date)
    requires Surplus(incomes, expenses, user) > 0
    requires forall j :: 0 <= j < |goals| && Tracked(goals[j], user, today) ==> LiftedGe(goals[j].saved, goals[j].target)
    ensures Allocation(goals, incomes, expenses, user, today).goals == goals
    ensures |Allocation(goals, incomes, expenses, user, today).completed| ==
      |VisitOrder(goals, user, today)| == |TrackedIndices(goals, user, today)|
    ensures forall k :: 0 <= k < |VisitOrder(goals, user, today)| ==>
      VisitOrder(goals, user, today)[k] < |goals| &&
      Allocation(goals, incomes, expenses, user, today).completed[k] == goals[VisitOrder(goals, user, today)[k]]
  {
    var order := VisitOrder(goals, user, today);
    VisitOrderTracked(goals, user, today);
    if order != [] {
      var start := AllocState(goals, Surplus(incomes, expenses, user), []);
      RunRepeatsAt(start, order);
    }
    assert |order| == |multiset(order)| == |multiset(TrackedIndices(goals, user, today))|;
  }

  /**
   * With a positive surplus and a tracked goal still short of its target,
   * the allocator strictly increases the total saved: rerunning it keeps
   * adding until the goals are full or the surplus is exhausted.
   */
  lemma AllocationProgress(goals: seq<Goal>, incomes: seq<Income>, expenses: seq<Expense>, user: int, today: Date, j: nat)
    requires Surplus(incomes, expenses, user) > 0
    requires j < |goals| && Tracked(goals[j], user, today) && !Saturated(goals[j])
    ensures TotalSaved(Allocation(goals, incomes, expenses, user, today).goals) > TotalSaved(goals)
  {
    var order := VisitOrder(goals, user, today);
    VisitOrderTracked(goals, user, today);
    var k :| 0 <= k < |order| && order[k] == j;
    RunProgress(AllocState(goals, Surplus(incomes, expenses, user), []), order, k);
  }

  /** Run one step further is Visit of the run so far. */
  lemma RunStep(start: AllocState, order: seq<nat>, k: nat)
    requires k < |order| && order[k] < |start.goals|
    ensures Run(start, order[..k + 1]) == Visit(Run(start, order[..k]), order[k])
  {
    assert order[..k + 1][..k] == order[..k];
  }

  /** The allocation loop proper: visits the goals at the given positions in turn. */
  method RunLoop(db: Db, order: seq<nat>, surplus: Money, user: int, now: Instant)
    requires db.Valid() && ValidInstant(now)
    requires forall k :: 0 <= k < |order| ==> order[k] < |db.goals|
    modifies db`goals, db`reminders, db`nextReminderId
    ensures db.Valid()
    ensures var a := Run(AllocState(old(db.goals), surplus, []), order);
      db.goals == a.goals &&
      db.reminders == old(db.reminders) + CompletionReminders(a.completed, user, now, old(db.nextReminderId)) &&
      db.nextReminderId == old(db.nextReminderId) + |a.completed|
  {
    ghost var start := AllocState(db.goals, surplus, []);
    ghost var completed: seq<Goal> := [];
    var remaining := surplus;
    assert db.reminders == old(db.reminders) + [];
    var k := 0;
    while k < |order|
      invariant 0 <= k <= |order|
      invariant |db.goals| == |start.goals|
      invariant AllocState(db.goals, remaining, completed) == Run(start, order[..k])
      invariant db.reminders == old(db.reminders) + CompletionReminders(completed, user, now, old(db.nextReminderId))
      invariant db.nextReminderId == old(db.nextReminderId) + |completed|
      invariant db.Valid()
    {
      RunStep(start, order, k);
      ghost var next := Visit(AllocState(db.goals, remaining, completed), order[k]);
      remaining := VisitGoal(db, order[k], remaining, user, now, completed, next, old(db.reminders), old(db.nextReminderId));
      completed := next.completed;
      k := k + 1;
    }
    assert order[..|order|] == order;
  }

  /** KiemTraVaCapNhatMucTieu: the allocator. */
  method AllocateSavings(db: Db, user: int, now: Instant)
    requires db.Valid() && ValidInstant(now)
    modifies db`goals, db`reminders, db`nextReminderId
    ensures db.Valid()
    ensures AllocatedFrom(db, old(db.goals), old(db.reminders), old(db.nextReminderId), user, now)
  {
    var order := VisitOrder(db.goals, user, now.date);
    var surplus := Surplus(db.incomes, db.expenses, user);
    if order == [] || surplus <= 0 {
      assert db.reminders == old(db.reminders) + [];
      return;
    }
    VisitOrderTracked(db.goals, user, now.date);
    RunLoop(db, order, surplus, user, now);
  }
}
