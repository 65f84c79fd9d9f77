// Saving goals (MucTieuController): the listing, create with its "new goal"
// reminder, edit and the manual top-up, each writing a completion reminder
// when the goal crosses its target, and delete.
module MucTieu {
  import opened Common
  import opened Calendar
  import opened Entities
  import opened Store

  /** OrderBy on the nullable deadline: goals without a deadline first, then by date. */
  function GoalDeadlineKey(g: Goal): int
  {
    if g.deadline.Some? then DateKey(g.deadline.value) else 0
  }

  /** GET Index: the user's goals ordered by deadline. */
  function GoalIndex(goals: seq<Goal>, user: int): (r: seq<Goal>)
    ensures forall g :: g in r <==> g in goals && g.owner == Some(user)
    ensures forall g :: multiset(r)[g] == if g.owner == Some(user) then multiset(goals)[g] else 0
    ensures SortedBy(r, GoalDeadlineKey)
  {
    var p := (g: Goal) => g.owner == Some(user);
    var mine := Filter(goals, p);
    var r := SortBy(mine, GoalDeadlineKey);
    SameMembers(r, mine);
    FilterCounts(goals, p);
    r
  }

  /** A goal with a deadline never precedes a goal without one in the listing. */
  lemma GoalIndexUndatedFirst(goals: seq<Goal>, user: int)
    requires forall g :: g in goals ==> ValidGoal(g)
    ensures var r := GoalIndex(goals, user);
      forall a, b :: 0 <= a < b < |r| && r[b].deadline.None? ==> r[a].deadline.None?
  {
    var r := GoalIndex(goals, user);
    forall a, b | 0 <= a < b < |r| && r[b].deadline.None?
      ensures r[a].deadline.None?
    {
      assert GoalDeadlineKey(r[a]) <= GoalDeadlineKey(r[b]);
      assert r[a] in goals;
    }
  }

  // ----- Create -------------------------------------------------------------

  /** The reminder announcing a new goal: its name, target and deadline. */
  function NewGoalReminder(g: Goal, user: int, now: Instant, id: int): (r: Reminder)
    ensures r.owner == Some(user) && r.kind == Some(TagGoal) && r.time == now && r.id == id
    ensures r.content == Some(NewGoal(g.name, g.target, g.deadline))
  {
    Reminder(id, Some(user), Some(NewGoal(g.name, g.target, g.deadline)), now, Some(TagGoal))
  }

  /** POST Create: a valid goal is saved as the user's, always followed by exactly one new-goal reminder. */
  method CreateGoal(db: Db, session: Option<int>, posted: Goal, now: Instant) returns (outcome: Outcome)
    requires db.Valid() && ValidInstant(now)
    modifies db`goals, db`nextGoalId, db`reminders, db`nextReminderId
    ensures db.Valid()
    ensures session.None? ==> outcome == LoginRequired && unchanged(db)
    ensures session.Some? && !ValidGoal(posted) ==> outcome == FormRejected && unchanged(db)
    ensures session.Some? && ValidGoal(posted) ==>
      var row := posted.(id := old(db.nextGoalId), owner := session);
      outcome == Saved &&
      db.goals == old(db.goals) + [row] &&
      db.reminders == old(db.reminders) + [NewGoalReminder(row, session.value, now, old(db.nextReminderId))]
  {
    if session.None? {
      return LoginRequired;
    }
    var row := posted.(owner := session);
    if !ValidGoal(row) {
      return FormRejected;
    }
    row := row.(id := db.nextGoalId);
    TableAppend(db.goals, GoalKey, db.nextGoalId, ValidGoal, row);
    db.goals := db.goals + [row];
    db.nextGoalId := db.nextGoalId + 1;
    AddReminder(db, NewGoalReminder(row, session.value, now, db.nextReminderId));
    outcome := Saved;
  }

  // ----- Completion reminders -----------------------------------------------

  /** The reminder congratulating the user on a completed goal. */
  function CompletedReminder(g: Goal, user: int, now: Instant, id: int): (r: Reminder)
    ensures r.owner == Some(user) && r.kind == Some(TagGoal) && r.time == now && r.id == id
    ensures r.content == Some(GoalCompleted(g.name, g.target))
  {
    Reminder(id, Some(user), Some(GoalCompleted(g.name, g.target)), now, Some(TagGoal))
  }

  /**
   * The Edit test: the new savings reach the target and the stored savings
   * were below the stored target, both compared as nullable decimals.
   */
  predicate EditCompletes(stored: Goal, edited: Goal)
  {
    LiftedGe(edited.saved, edited.target) && LiftedLt(stored.saved, stored.target)
  }

  /** A null savings amount on either side means Edit writes no completion reminder. */
  lemma EditWithNullSavingsNeverCompletes(stored: Goal, edited: Goal)
    requires stored.saved.None? || edited.saved.None?
    ensures !EditCompletes(stored, edited)
  {
  }

  /** The top-up test: savings (null read as 0) move from below the target to at least the target. */
  predicate TopUpCompletes(before: Money, after: Money, target: Money)
  {
    after >= target && before < target
  }

  /**
   * The two paths disagree on a goal whose savings were never set: a top-up
   * that fills it writes the reminder, an edit to the same amount does not.
   */
  lemma NullSavingsPathsDisagree(g: Goal, amount: Money)
    requires g.saved.None? && g.target > 0 && amount >= g.target
    ensures TopUpCompletes(SavedSoFar(g), SavedSoFar(g) + amount, g.target)
    ensures !EditCompletes(g, g.(saved := Some(amount)))
  {
  }

  function Deposit(x: Money): int { x }

  /** The number of completion reminders a series of top-ups writes. */
  function TopUpReminders(start: Money, amounts: seq<Money>, target: Money): nat
    decreases |amounts|
  {
    if amounts == [] then 0
    else
      var n := |amounts| - 1;
      var before := start + SumOf(amounts[..n], Deposit);
      TopUpReminders(start, amounts[..n], target) + (if TopUpCompletes(before, before + amounts[n], target) then 1 else 0)
  }

  /**
   * Without withdrawals, a series of top-ups writes the completion reminder
   * once, exactly when it takes the savings from below the target to at
   * least the target, and never otherwise.
   */
  lemma {:induction false} TopUpsRemindOnce(start: Money, amounts: seq<Money>, target: Money)
    requires forall k :: 0 <= k < |amounts| ==> amounts[k] >= 0
    ensures TopUpReminders(start, amounts, target) ==
      (if start < target <= start + SumOf(amounts, Deposit) then 1 else 0)
    decreases |amounts|
  {
    if amounts != [] {
      var n := |amounts| - 1;
      TopUpsRemindOnce(start, amounts[..n], target);
      assert amounts == amounts[..n] + [amounts[n]];
      SumOfConcat(amounts[..n], [amounts[n]], Deposit);
      assert SumOf([amounts[n]], Deposit) == amounts[n];
      SumOfNonNegative(amounts[..n], Deposit);
    }
  }

  /** A withdrawal between two deposits makes the same goal complete twice. */
  lemma WithdrawalRemindsAgain()
    ensures TopUpReminders(0, [100, -50, 50], 100) == 2
  {
    assert [100, -50, 50][..2] == [100, -50];
    assert [100, -50][..1] == [100];
    assert [100][..0] == [];
  }

  // ----- Edit ---------------------------------------------------------------

  /**
   * POST Edit: the posted goal, owned by the user, replaces the row with its
   * key whoever owned it (a key with no row ends in NotFound); the completion
   * reminder follows when EditCompletes(stored row, posted goal).
   */
  method EditGoal(db: Db, session: Option<int>, id: int, posted: Goal, now: Instant) returns (outcome: Outcome)
    requires db.Valid() && ValidInstant(now)
    modifies db`goals, db`reminders, db`nextReminderId
    ensures db.Valid()
    ensures session.None? ==> outcome == LoginRequired && unchanged(db)
    ensures session.Some? && id != posted.id ==> outcome == NotFound && unchanged(db)
    ensures session.Some? && id == posted.id && !ValidGoal(posted) ==> outcome == FormRejected && unchanged(db)
    ensures session.Some? && id == posted.id && ValidGoal(posted) && IndexOfKey(old(db.goals), GoalKey, id).None? ==>
      outcome == NotFound && unchanged(db)
    ensures session.Some? && id == posted.id && ValidGoal(posted) && IndexOfKey(old(db.goals), GoalKey, id).Some? ==>
      var k := IndexOfKey(old(db.goals), GoalKey, id).value;
      var row := posted.(owner := session);
      outcome == Saved &&
      db.goals == old(db.goals)[k := row] &&
      db.reminders == old(db.reminders) +
        (if EditCompletes(old(db.goals)[k], row) then [CompletedReminder(row, session.value, now, old(db.nextReminderId))] else [])
  {
    if session.None? {
      return LoginRequired;
    }
    if id != posted.id {
      return NotFound;
    }
    var row := posted.(owner := session);
    if !ValidGoal(row) {
      return FormRejected;
    }
    var found := IndexOfKey(db.goals, GoalKey, id);
    if found.None? {
      return NotFound;
    }
    var stored := db.goals[found.value];
    TableReplace(db.goals, GoalKey, db.nextGoalId, ValidGoal, found.value, row);
    db.goals := db.goals[found.value := row];
    if LiftedGe(row.saved, row.target) && LiftedLt(stored.saved, stored.target) {
      AddReminder(db, CompletedReminder(row, session.value, now, db.nextReminderId));
    }
    outcome := Saved;
  }

  // ----- CapNhatTienTietKiem: manual top-up -----------------------------------

  /** The first goal with this key that the user owns. */
  function OwnedGoal(goals: seq<Goal>, id: int, user: int): (r: Option<nat>)
    ensures r.Some? ==> r.value < |goals| && goals[r.value].id == id && goals[r.value].owner == Some(user)
    ensures r.None? ==> forall g :: g in goals ==> !(g.id == id && g.owner == Some(user))
  {
    var r := FirstIndex(goals, (g: Goal) => g.id == id && g.owner == Some(user));
    assert r.None? ==> forall j :: 0 <= j < |goals| ==> !(goals[j].id == id && goals[j].owner == Some(user));
    r
  }

  /**
   * POST CapNhatTienTietKiem: adds the amount (of any sign) to the savings
   * of a goal the user owns, null read as 0, and writes the completion
   * reminder exactly when the savings cross the target upwards.
   */
  method AddSavings(db: Db, session: Option<int>, id: int, amount: Money, now: Instant) returns (outcome: Outcome)
    requires db.Valid() && ValidInstant(now)
    modifies db`goals, db`reminders, db`nextReminderId
    ensures db.Valid()
    ensures session.None? ==> outcome == LoginRequired && unchanged(db)
    ensures session.Some? && OwnedGoal(old(db.goals), id, session.value).None? ==> outcome == NotFound && unchanged(db)
    ensures session.Some? && OwnedGoal(old(db.goals), id, session.value).Some? ==>
      var k := OwnedGoal(old(db.goals), id, session.value).value;
      var g := old(db.goals)[k];
      var g' := g.(saved := Some(SavedSoFar(g) + amount));
      outcome == Saved &&
      db.goals == old(db.goals)[k := g'] &&
      db.reminders == old(db.reminders) +
        (if TopUpCompletes(SavedSoFar(g), SavedSoFar(g'), g.target) then [CompletedReminder(g', session.value, now, old(db.nextReminderId))] else [])
  {
    if session.None? {
      return LoginRequired;
    }
    var found := OwnedGoal(db.goals, id, session.value);
    if found.None? {
      return NotFound;
    }
    var k := found.value;
    var g := db.goals[k];
    var before := SavedSoFar(g);
    var g' := g.(saved := Some(before + amount));
    TableReplace(db.goals, GoalKey, db.nextGoalId, ValidGoal, k, g');
    db.goals := db.goals[k := g'];
    if before + amount >= g.target && before < g.target {
      AddReminder(db, CompletedReminder(g', session.value, now, db.nextReminderId));
    }
    outcome := Saved;
  }

  /** A top-up that writes the reminder leaves a goal with a positive target showing 100%. */
  lemma TopUpReminderMeansFull(g: Goal, amount: Money)
    requires g.target > 0 && TopUpCompletes(SavedSoFar(g), SavedSoFar(g) + amount, g.target)
    ensures CompletionPercent(g.(saved := Some(SavedSoFar(g) + amount))) == Some(100)
  {
    CompletionPercentFull(g.(saved := Some(SavedSoFar(g) + amount)));
  }

  /** POST Delete: a goal the user owns is removed; otherwise nothing changes. */
  method DeleteGoal(db: Db, session: Option<int>, id: int) returns (outcome: Outcome)
    requires db.Valid()
    modifies db`goals
    ensures db.Valid()
    ensures session.None? ==> outcome == LoginRequired && unchanged(db)
    ensures session.Some? && OwnedGoal(old(db.goals), id, session.value).None? ==> outcome == Saved && unchanged(db)
    ensures session.Some? && OwnedGoal(old(db.goals), id, session.value).Some? ==>
      outcome == Saved && db.goals == RemoveAt(old(db.goals), OwnedGoal(old(db.goals), id, session.value).value)
  {
    if session.None? {
      return LoginRequired;
    }
    var found := OwnedGoal(db.goals, id, session.value);
    if found.Some? {
      TableRemove(db.goals, GoalKey, db.nextGoalId, ValidGoal, found.value);
      db.goals := RemoveAt(db.goals, found.value);
    }
    outcome := Saved;
  }
}
