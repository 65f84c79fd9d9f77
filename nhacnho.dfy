// Reminders (NhacNhoController): the listing, create / edit, delete and
// "mark as read" (which deletes), and the recurring-reminder form that adds
// a base reminder and up to thirty dated copies.
module NhacNho {
  import opened Common
  import opened Calendar
  import opened Entities
  import opened Store

  /** GET Index: the user's reminders, latest first. */
  function ReminderIndex(reminders: seq<Reminder>, user: int): (r: seq<Reminder>)
    ensures forall x :: x in r <==> x in reminders && x.owner == Some(user)
    ensures forall x :: multiset(r)[x] == if x.owner == Some(user) then multiset(reminders)[x] else 0
    ensures forall a, b :: 0 <= a < b < |r| ==> InstantKey(r[a].time) >= InstantKey(r[b].time)
  {
    var p := (x: Reminder) => x.owner == Some(user);
    var mine := Filter(reminders, p);
    var r := SortByDescending(mine, (x: Reminder) => InstantKey(x.time));
    SameMembers(r, mine);
    FilterCounts(reminders, p);
    r
  }

  /** POST Create: a valid reminder is saved as the user's. */
  method CreateReminder(db: Db, session: Option<int>, posted: Reminder) returns (outcome: Outcome)
    requires db.Valid()
    modifies db`reminders, db`nextReminderId
    ensures db.Valid()
    ensures session.None? ==> outcome == LoginRequired && unchanged(db)
    ensures session.Some? && !ValidReminder(posted) ==> outcome == FormRejected && unchanged(db)
    ensures session.Some? && ValidReminder(posted) ==>
      outcome == Saved && db.reminders == old(db.reminders) + [posted.(id := old(db.nextReminderId), owner := session)]
  {
    if session.None? {
      return LoginRequired;
    }
    if !ValidReminder(posted) {
      return FormRejected;
    }
    AddReminder(db, posted.(id := db.nextReminderId, owner := session));
    outcome := Saved;
  }

  /**
   * POST Edit: the posted reminder, owned by the user, replaces the row with
   * its key whoever owned it; a key with no row ends in NotFound.
   */
  method EditReminder(db: Db, session: Option<int>, id: int, posted: Reminder) returns (outcome: Outcome)
    requires db.Valid()
    modifies db`reminders
    ensures db.Valid()
    ensures session.None? ==> outcome == LoginRequired && unchanged(db)
    ensures session.Some? && id != posted.id ==> outcome == NotFound && unchanged(db)
    ensures session.Some? && id == posted.id && !ValidReminder(posted) ==> outcome == FormRejected && unchanged(db)
    ensures session.Some? && id == posted.id && ValidReminder(posted) && IndexOfKey(old(db.reminders), ReminderKey, id).None? ==>
      outcome == NotFound && unchanged(db)
    ensures session.Some? && id == posted.id && ValidReminder(posted) && IndexOfKey(old(db.reminders), ReminderKey, id).Some? ==>
      outcome == Saved &&
      db.reminders == old(db.reminders)[IndexOfKey(old(db.reminders), ReminderKey, id).value := posted.(owner := session)]
  {
    if session.None? {
      return LoginRequired;
    }
    if id != posted.id {
      return NotFound;
    }
    var row := posted.(owner := session);
    if !ValidReminder(row) {
      return FormRejected;
    }
    var found := IndexOfKey(db.reminders, ReminderKey, id);
    if found.None? {
      return NotFound;
    }
    TableReplace(db.reminders, ReminderKey, db.nextReminderId, ValidReminder, found.value, row);
    db.reminders := db.reminders[found.value := row];
    outcome := Saved;
  }

  /** The first reminder with this key that the user owns. */
  function OwnedReminder(reminders: seq<Reminder>, id: int, user: int): (r: Option<nat>)
    ensures r.Some? ==> r.value < |reminders| && reminders[r.value].id == id && reminders[r.value].owner == Some(user)
    ensures r.None? ==> forall x :: x in reminders ==> !(x.id == id && x.owner == Some(user))
  {
    var r := FirstIndex(reminders, (x: Reminder) => x.id == id && x.owner == Some(user));
    assert r.None? ==> forall j :: 0 <= j < |reminders| ==> !(reminders[j].id == id && reminders[j].owner == Some(user));
    r
  }

  /** The table after removing the user's reminder with this key, if there is one. */
  function WithoutOwned(reminders: seq<Reminder>, id: int, user: int): (r: Option<seq<Reminder>>)
    ensures r.None? <==> OwnedReminder(reminders, id, user).None?
    ensures r.Some? ==> (|r.value| == |reminders| - 1 &&
      multiset(r.value) + multiset{reminders[OwnedReminder(reminders, id, user).value]} == multiset(reminders))
  {
    var k := OwnedReminder(reminders, id, user);
    if k.None? then None else Some(RemoveAt(reminders, k.value))
  }

  /** Removing one row leaves every other user's reminders where they were. */
  lemma WithoutOwnedKeepsOthers(reminders: seq<Reminder>, id: int, user: int)
    requires WithoutOwned(reminders, id, user).Some?
    ensures Filter(WithoutOwned(reminders, id, user).value, (x: Reminder) => x.owner != Some(user)) ==
      Filter(reminders, (x: Reminder) => x.owner != Some(user))
  {
    FilterRemoveAt(reminders, OwnedReminder(reminders, id, user).value, (x: Reminder) => x.owner != Some(user));
  }

  /** POST Delete: the user's reminder is removed; any other key changes nothing. */
  method DeleteReminder(db: Db, session: Option<int>, id: int) returns (outcome: Outcome)
    requires db.Valid()
    modifies db`reminders
    ensures db.Valid()
    ensures session.None? ==> outcome == LoginRequired && unchanged(db)
    ensures session.Some? ==> outcome == Saved
    ensures session.Some? && WithoutOwned(old(db.reminders), id, session.value).None? ==> unchanged(db)
    ensures session.Some? && WithoutOwned(old(db.reminders), id, session.value).Some? ==>
      db.reminders == WithoutOwned(old(db.reminders), id, session.value).value
  {
    if session.None? {
      return LoginRequired;
    }
    var found := OwnedReminder(db.reminders, id, session.value);
    if found.Some? {
      TableRemove(db.reminders, ReminderKey, db.nextReminderId, ValidReminder, found.value);
      db.reminders := RemoveAt(db.reminders, found.value);
    }
    outcome := Saved;
  }

  /** GET DanhDauDaDoc: marking as read deletes the user's reminder; a missing one is NotFound. */
  method MarkRead(db: Db, session: Option<int>, id: Option<int>) returns (outcome: Outcome)
    requires db.Valid()
    modifies db`reminders
    ensures db.Valid()
    ensures session.None? ==> outcome == LoginRequired && unchanged(db)
    ensures session.Some? && (id.None? || WithoutOwned(old(db.reminders), id.value, session.value).None?) ==>
      outcome == NotFound && unchanged(db)
    ensures session.Some? && id.Some? && WithoutOwned(old(db.reminders), id.value, session.value).Some? ==>
      outcome == Saved && db.reminders == WithoutOwned(old(db.reminders), id.value, session.value).value
  {
    if session.None? {
      return LoginRequired;
    }
    if id.None? {
      return NotFound;
    }
    var found := OwnedReminder(db.reminders, id.value, session.value);
    if found.None? {
      return NotFound;
    }
    TableRemove(db.reminders, ReminderKey, db.nextReminderId, ValidReminder, found.value);
    db.reminders := RemoveAt(db.reminders, found.value);
    outcome := Saved;
  }

  // ----- TaoNhacNhoDinhKy: recurring reminders ----------------------------------

  /** How many copies a repetition kind produces: 30 daily, 12 weekly, 12 monthly, none otherwise. */
  function RepeatCount(repeat: string): (r: nat)
    ensures r == 30 <==> repeat == "daily"
    ensures r == 12 <==> repeat == "weekly" || repeat == "monthly"
    ensures r == 0 <==> !(repeat == "daily" || repeat == "weekly" || repeat == "monthly")
  {
    if repeat == "daily" then 30
    else if repeat == "weekly" then 12
    else if repeat == "monthly" then 12
    else 0
  }

  /** The number of copies the form asks for: none unless the kind is not "none" and the interval positive. */
  function CopyCount(repeat: string, every: int): nat
  {
    if repeat != "none" && every > 0 then RepeatCount(repeat) else 0
  }

  /**
   * The shift of copy i, computed in `int`: i * every days, i * 7 * every
   * days or i * every months, wrapped to 32 bits.
   */
  function RepeatOffset(repeat: string, every: nat, i: nat): int
  {
    if repeat == "weekly" then Int32(i * 7 * every) else Int32(i * every)
  }

  /** The unwrapped shift, the one the form's interval means. */
  function IntendedOffset(repeat: string, every: nat, i: nat): nat
  {
    if repeat == "weekly" then i * 7 * every else i * every
  }

  /**
   * The time of copy i: the base time moved by its offset in days or
   * months; None where DateTime throws, the result falling before year 1.
   */
  function RepeatTime(t: Instant, repeat: string, every: nat, i: nat): (r: Option<Instant>)
    requires ValidInstant(t) && RepeatCount(repeat) > 0
    ensures r.Some? ==> ValidInstant(r.value) && r.value.second == t.second
  {
    if repeat == "monthly" then ShiftMonths(t, RepeatOffset(repeat, every, i))
    else ShiftDays(t, RepeatOffset(repeat, every, i))
  }

  /** Every copy 1..n has a time: the loop of the source reaches its end without throwing. */
  predicate CopiesFit(t: Instant, repeat: string, every: nat, n: nat)
    requires ValidInstant(t) && RepeatCount(repeat) > 0
  {
    forall i :: 1 <= i <= n ==> RepeatTime(t, repeat, every, i).Some?
  }

  /** Copy i of the base reminder: the user's, same content and kind, at its repeat time. */
  function Copy(base: Reminder, user: int, repeat: string, every: nat, i: nat, id: int): (r: Reminder)
    requires ValidReminder(base) && RepeatCount(repeat) > 0 && RepeatTime(base.time, repeat, every, i).Some?
    ensures ValidReminder(r)
  {
    Reminder(id, Some(user), base.content, RepeatTime(base.time, repeat, every, i).value, base.kind)
  }

  /** Copies 1..n, keyed from firstId on. */
  function Copies(base: Reminder, user: int, repeat: string, every: nat, n: nat, firstId: int): (r: seq<Reminder>)
    requires ValidReminder(base) && RepeatCount(repeat) > 0 && CopiesFit(base.time, repeat, every, n)
    ensures |r| == n
    decreases n
  {
    if n == 0 then [] else Copies(base, user, repeat, every, n - 1, firstId) + [Copy(base, user, repeat, every, n, firstId + n - 1)]
  }

  /** The k-th of the copies is copy k + 1, keyed firstId + k. */
  lemma {:induction false} CopiesAt(base: Reminder, user: int, repeat: string, every: nat, n: nat, firstId: int)
    requires ValidReminder(base) && RepeatCount(repeat) > 0 && CopiesFit(base.time, repeat, every, n)
    ensures forall k :: 0 <= k < n ==>
      Copies(base, user, repeat, every, n, firstId)[k] == Copy(base, user, repeat, every, k + 1, firstId + k)
    decreases n
  {
    if n > 0 {
      CopiesAt(base, user, repeat, every, n - 1, firstId);
      var p := Copies(base, user, repeat, every, n - 1, firstId);
      var r := p + [Copy(base, user, repeat, every, n, firstId + n - 1)];
      assert Copies(base, user, repeat, every, n, firstId) == r;
      forall k | 0 <= k < n
        ensures r[k] == Copy(base, user, repeat, every, k + 1, firstId + k)
      {
        if k < n - 1 {
          assert r[k] == p[k];
          assert p[k] == Copy(base, user, repeat, every, k + 1, firstId + k);
        } else {
          assert r[k] == Copy(base, user, repeat, every, n, firstId + n - 1);
        }
      }
    }
  }

  /**
   * While the interval fits in an `int`, later copies fall strictly later:
   * each interval moves the time forward, and the base reminder (copy 0)
   * comes before every copy.
   */
  lemma RepeatTimesIncrease(t: Instant, repeat: string, every: nat, i: nat, j: nat)
    requires ValidInstant(t) && RepeatCount(repeat) > 0 && every > 0 && i < j
    requires IntendedOffset(repeat, every, j) < 0x8000_0000
    ensures RepeatTime(t, repeat, every, i).Some? && RepeatTime(t, repeat, every, j).Some?
    ensures InstantKey(RepeatTime(t, repeat, every, i).value) < InstantKey(RepeatTime(t, repeat, every, j).value)
  {
    MulStrictMonotone(i, j, every);
    if repeat == "weekly" {
      MulStrictMonotone(i * 7, j * 7, every);
    }
    var m := IntendedOffset(repeat, every, i);
    var n := IntendedOffset(repeat, every, j);
    assert RepeatOffset(repeat, every, i) == m && RepeatOffset(repeat, every, j) == n;
    if repeat == "monthly" {
      MonthIndexOrder(AddMonths(t.date, m), AddMonths(t.date, n));
    } else {
      AddDaysIncreasing(t.date, m, n);
    }
    DateKeyLexicographic(RepeatTime(t, repeat, every, i).value.date, RepeatTime(t, repeat, every, j).value.date);
  }

  /**
   * Past the `int` range the shift wraps: 7 * 613566756 is 2^32 - 4, which
   * the int product turns into -4, so the first weekly copy falls four days
   * before the base reminder.
   */
  lemma WeeklyOffsetWraps()
    ensures IntendedOffset("weekly", 613566756, 1) == 4294967292
    ensures RepeatOffset("weekly", 613566756, 1) == -4
    ensures RepeatTime(At(Date(2025, 1, 31), 0), "weekly", 613566756, 1) == Some(At(Date(2025, 1, 27), 0))
  {
    assert SubDays(Date(2025, 1, 31), 4) == Some(Date(2025, 1, 27));
  }

  /**
   * A monthly interval of 2^30 wraps at the second copy to -2^31 months,
   * which DateTime.AddMonths refuses: the time throws.
   */
  lemma MonthlyOffsetThrows()
    ensures RepeatOffset("monthly", 0x4000_0000, 2) == -0x8000_0000
    ensures RepeatTime(At(Date(2025, 1, 31), 0), "monthly", 0x4000_0000, 2).None?
  {
  }

  /**
   * Monthly copies are each computed from the base date, so a day clamped
   * at a short month does not carry over: from 31 January, one month on is
   * 28 February and two months on is 31 March.
   */
  lemma MonthlyCopiesDoNotDrift()
    ensures RepeatTime(At(Date(2025, 1, 31), 0), "monthly", 1, 1) == Some(At(Date(2025, 2, 28), 0))
    ensures RepeatTime(At(Date(2025, 1, 31), 0), "monthly", 1, 2) == Some(At(Date(2025, 3, 31), 0))
  {
    assert RepeatOffset("monthly", 1, 1) == 1 && RepeatOffset("monthly", 1, 2) == 2;
    assert AddMonths(Date(2025, 1, 31), 1) == Date(2025, 2, 28);
    assert AddMonths(Date(2025, 1, 31), 2) == Date(2025, 3, 31);
  }

  /**
   * The loop of TaoNhacNhoDinhKy: copies 1..n staged in order, keyed from
   * firstId on; None when a repeat time throws, which abandons the request
   * before the staged copies are saved.
   */
  method StageCopies(base: Reminder, user: int, repeat: string, every: nat, n: nat, firstId: int)
    returns (staged: Option<seq<Reminder>>)
    requires ValidReminder(base) && RepeatCount(repeat) > 0
    ensures staged.Some? <==> CopiesFit(base.time, repeat, every, n)
    ensures staged.Some? ==> CopiesFit(base.time, repeat, every, n) && staged.value == Copies(base, user, repeat, every, n, firstId)
  {
    var acc: seq<Reminder> := [];
    var i := 1;
    while i <= n
      invariant 1 <= i <= n + 1
      invariant CopiesFit(base.time, repeat, every, i - 1)
      invariant acc == Copies(base, user, repeat, every, i - 1, firstId)
    {
      var at := RepeatTime(base.time, repeat, every, i);
      if at.None? {
        return None;
      }
      acc := acc + [Copy(base, user, repeat, every, i, firstId + i - 1)];
      i := i + 1;
    }
    return Some(acc);
  }

  /**
   * POST TaoNhacNhoDinhKy: a valid base reminder is saved as the user's,
   * followed by CopyCount(repeat, every) copies at their repeat times. The
   * copies are saved together after the loop, so a time that throws leaves
   * the base reminder saved and no copy.
   */
  method CreateRecurring(db: Db, session: Option<int>, posted: Reminder, repeat: string, every: int) returns (outcome: Outcome)
    requires db.Valid()
    modifies db`reminders, db`nextReminderId
    ensures db.Valid()
    ensures session.None? ==> outcome == LoginRequired && unchanged(db)
    ensures session.Some? && !ValidReminder(posted) ==> outcome == FormRejected && unchanged(db)
    ensures session.Some? && ValidReminder(posted) && CopyCount(repeat, every) == 0 ==>
      outcome == Saved && db.reminders == old(db.reminders) + [posted.(id := old(db.nextReminderId), owner := session)]
    ensures (session.Some? && ValidReminder(posted) && CopyCount(repeat, every) > 0 &&
      !CopiesFit(posted.time, repeat, every, CopyCount(repeat, every))) ==>
      outcome == Faulted && db.reminders == old(db.reminders) + [posted.(id := old(db.nextReminderId), owner := session)]
    ensures (session.Some? && ValidReminder(posted) && CopyCount(repeat, every) > 0 &&
      CopiesFit(posted.time, repeat, every, CopyCount(repeat, every))) ==>
      var base := posted.(id := old(db.nextReminderId), owner := session);
      outcome == Saved &&
      db.reminders == old(db.reminders) + [base] + Copies(base, session.value, repeat, every, CopyCount(repeat, every), old(db.nextReminderId) + 1)
  {
    if session.None? {
      return LoginRequired;
    }
    if !ValidReminder(posted) {
      return FormRejected;
    }
    var base := posted.(id := db.nextReminderId, owner := session);
    AddReminder(db, base);
    if repeat != "none" && every > 0 && RepeatCount(repeat) > 0 {
      var staged := StageCopies(base, session.value, repeat, every, RepeatCount(repeat), db.nextReminderId);
      if staged.None? {
        return Faulted;
      }
      CopiesAt(base, session.value, repeat, every, RepeatCount(repeat), db.nextReminderId);
      AddReminders(db, staged.value);
    }
    outcome := Saved;
  }
}
