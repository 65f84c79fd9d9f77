// Gregorian dates and instants as the application uses System.DateTime:
// calendar dates for NgayChi/NgayNhap/Han, date-and-time instants for
// reminders and lockouts, DateTime.AddDays/AddMonths/AddMinutes, and the
// "first day .. last day of the month" windows the controllers build.
module Calendar {
  import opened Common

  datatype Date = Date(year: int, month: int, day: int)

  /** A point in time to the second: a date and the second of that day. */
  datatype Instant = At(date: Date, second: int)

  const SecondsPerDay: int := 86400

  predicate IsLeapYear(y: int)
  {
    y % 4 == 0 && (y % 100 != 0 || y % 400 == 0)
  }

  function DaysInMonth(y: int, m: int): (r: int)
    requires 1 <= m <= 12
    ensures 28 <= r <= 31
    ensures r == 29 <==> m == 2 && IsLeapYear(y)
  {
    if m == 2 then (if IsLeapYear(y) then 29 else 28)
    else if m == 4 || m == 6 || m == 9 || m == 11 then 30
    else 31
  }

  /** DateTime cannot hold a year below 1; the upper limit 9999 is not modelled. */
  predicate ValidDate(d: Date)
  {
    d.year >= 1 && 1 <= d.month <= 12 && 1 <= d.day <= DaysInMonth(d.year, d.month)
  }

  predicate ValidInstant(t: Instant)
  {
    ValidDate(t.date) && 0 <= t.second < SecondsPerDay
  }

  /**
   * The chronological order of valid dates, read off a key that lists year,
   * month and day as decimal fields; it is also the OrderBy key on dates.
   */
  function DateKey(d: Date): int
  {
    d.year * 10000 + d.month * 100 + d.day
  }

  function InstantKey(t: Instant): int
  {
    DateKey(t.date) * 100000 + t.second
  }

  predicate DateLe(a: Date, b: Date)
  {
    DateKey(a) <= DateKey(b)
  }

  predicate InstantLe(a: Instant, b: Instant)
  {
    InstantKey(a) <= InstantKey(b)
  }

  /** The key order on valid dates is the lexicographic (year, month, day) order. */
  lemma DateKeyLexicographic(a: Date, b: Date)
    requires ValidDate(a) && ValidDate(b)
    ensures DateKey(a) < DateKey(b) <==>
      a.year < b.year ||
      (a.year == b.year && a.month < b.month) ||
      (a.year == b.year && a.month == b.month && a.day < b.day)
    ensures DateKey(a) == DateKey(b) <==> a == b
  {
  }

  /** An instant orders first by its date, then by its time of day. */
  lemma InstantKeyLexicographic(a: Instant, b: Instant)
    requires ValidInstant(a) && ValidInstant(b)
    ensures InstantKey(a) < InstantKey(b) <==>
      DateKey(a.date) < DateKey(b.date) ||
      (a.date == b.date && a.second < b.second)
  {
    DateKeyLexicographic(a.date, b.date);
  }

  /** Comparing an instant with a date (DateTime.Today, i.e. midnight) compares dates. */
  lemma AtMidnightLe(day: Date, t: Instant)
    requires ValidDate(day) && ValidInstant(t)
    ensures InstantLe(At(day, 0), t) <==> DateLe(day, t.date)
  {
    InstantKeyLexicographic(At(day, 0), t);
    DateKeyLexicographic(day, t.date);
  }

  // ----- Days ---------------------------------------------------------------

  function NextDay(d: Date): (r: Date)
    requires ValidDate(d)
    ensures ValidDate(r)
    ensures DateKey(d) < DateKey(r)
  {
    if d.day < DaysInMonth(d.year, d.month) then Date(d.year, d.month, d.day + 1)
    else if d.month < 12 then Date(d.year, d.month + 1, 1)
    else Date(d.year + 1, 1, 1)
  }

  /** DateTime.AddDays(n) for n >= 0. */
  function AddDays(d: Date, n: nat): (r: Date)
    requires ValidDate(d)
    ensures ValidDate(r)
    decreases n
  {
    if n == 0 then d else NextDay(AddDays(d, n - 1))
  }

  /** Adding more days gives a strictly later date. */
  lemma {:induction false} AddDaysIncreasing(d: Date, m: nat, n: nat)
    requires ValidDate(d) && m < n
    ensures DateKey(AddDays(d, m)) < DateKey(AddDays(d, n))
    decreases n
  {
    if m < n - 1 {
      AddDaysIncreasing(d, m, n - 1);
    }
  }

  /** Adding days is additive: d + a + b == d + (a + b). */
  lemma {:induction false} AddDaysAdditive(d: Date, a: nat, b: nat)
    requires ValidDate(d)
    ensures AddDays(AddDays(d, a), b) == AddDays(d, a + b)
    decreases b
  {
    if b > 0 {
      AddDaysAdditive(d, a, b - 1);
    }
  }

  /** The day before d, for any valid date after 1 January of year 1. */
  function PrevDay(d: Date): (r: Date)
    requires ValidDate(d) && d != Date(1, 1, 1)
    ensures ValidDate(r)
    ensures NextDay(r) == d
  {
    if d.day > 1 then Date(d.year, d.month, d.day - 1)
    else if d.month > 1 then Date(d.year, d.month - 1, DaysInMonth(d.year, d.month - 1))
    else Date(d.year - 1, 12, 31)
  }

  /**
   * DateTime.AddDays(-n) for n >= 0: None when the result would fall before
   * 1 January of year 1, where DateTime throws.
   */
  function SubDays(d: Date, n: nat): (r: Option<Date>)
    requires ValidDate(d)
    ensures r.Some? ==> ValidDate(r.value) && AddDays(r.value, n) == d
    decreases n
  {
    if n == 0 then Some(d)
    else if d == Date(1, 1, 1) then None
    else SubDays(PrevDay(d), n - 1)
  }


  /** Months elapsed since January of year 0. */
  function MonthIndex(d: Date): int
  {
    d.year * 12 + d.month - 1
  }

  function FirstOfMonth(y: int, m: int): Date
  {
    Date(y, m, 1)
  }

  function LastOfMonth(y: int, m: int): Date
    requires 1 <= m <= 12
  {
    Date(y, m, DaysInMonth(y, m))
  }

  /**
   * DateTime.AddMonths(k): moves k calendar months and clamps the day to
   * the length of the month reached.
   */
  function AddMonths(d: Date, k: int): (r: Date)
    requires ValidDate(d)
    requires MonthIndex(d) + k >= 12
    ensures ValidDate(r)
    ensures MonthIndex(r) == MonthIndex(d) + k
    ensures r.day == if d.day <= DaysInMonth(r.year, r.month) then d.day else DaysInMonth(r.year, r.month)
  {
    var mi := MonthIndex(d) + k;
    var y := mi / 12;
    var m := mi % 12 + 1;
    Date(y, m, if d.day <= DaysInMonth(y, m) then d.day else DaysInMonth(y, m))
  }

  /** A later month index means a later date, whatever the days. */
  lemma MonthIndexOrder(a: Date, b: Date)
    requires ValidDate(a) && ValidDate(b) && MonthIndex(a) < MonthIndex(b)
    ensures DateKey(a) < DateKey(b)
  {
  }

  /** The date falls in month m of year y exactly when it lies in [first, last] of that month. */
  lemma InMonthWindow(d: Date, y: int, m: int)
    requires ValidDate(d) && 1 <= m <= 12
    ensures (d.year == y && d.month == m) <==>
      DateLe(FirstOfMonth(y, m), d) && DateLe(d, LastOfMonth(y, m))
  {
  }

  /**
   * The controllers compute the last day of a month as
   * first.AddMonths(1).AddDays(-1): LastOfMonth is the day just before the
   * first of the following month.
   */
  lemma LastOfMonthPrecedesNextFirst(y: int, m: int)
    requires y >= 1 && 1 <= m <= 12
    ensures NextDay(LastOfMonth(y, m)) == AddMonths(FirstOfMonth(y, m), 1)
  {
    var next := NextDay(LastOfMonth(y, m));
    var r := AddMonths(FirstOfMonth(y, m), 1);
    assert next.day == 1 && r.day == 1;
    assert MonthIndex(next) == y * 12 + m;
    SameMonthIndex(next, r);
  }

  /** Two dates with the same month index are in the same month of the same year. */
  lemma SameMonthIndex(a: Date, b: Date)
    requires 1 <= a.month <= 12 && 1 <= b.month <= 12 && MonthIndex(a) == MonthIndex(b)
    ensures a.year == b.year && a.month == b.month
  {
    assert (a.year - b.year) * 12 == b.month - a.month;
  }

  // ----- Instants -----------------------------------------------------------

  /** DateTime.AddSeconds(s) for s >= 0 (AddMinutes(k) is AddSeconds(60 * k)). */
  function AddSeconds(t: Instant, s: nat): (r: Instant)
    requires ValidInstant(t)
    ensures ValidInstant(r)
  {
    var total := t.second + s;
    At(AddDays(t.date, total / SecondsPerDay), total % SecondsPerDay)
  }

  /** Adding seconds never moves an instant back, and moves it forward when s > 0. */
  lemma AddSecondsLater(t: Instant, s: nat)
    requires ValidInstant(t)
    ensures InstantKey(t) <= InstantKey(AddSeconds(t, s))
    ensures s > 0 ==> InstantKey(t) < InstantKey(AddSeconds(t, s))
  {
    var total := t.second + s;
    var days := total / SecondsPerDay;
    if days > 0 {
      AddDaysIncreasing(t.date, 0, days);
    }
  }

  /** The instant a whole number of days later, at the same time of day. */
  function InstantAddDays(t: Instant, n: nat): (r: Instant)
    requires ValidInstant(t)
    ensures ValidInstant(r)
  {
    At(AddDays(t.date, n), t.second)
  }

  /** The instant k months later, at the same time of day. */
  function InstantAddMonths(t: Instant, k: nat): (r: Instant)
    requires ValidInstant(t)
    ensures ValidInstant(r)
  {
    At(AddMonths(t.date, k), t.second)
  }

  /** DateTime.AddDays(n) for any whole n: None where the result falls before year 1 and DateTime throws. */
  function ShiftDays(t: Instant, n: int): (r: Option<Instant>)
    requires ValidInstant(t)
    ensures r.Some? ==> ValidInstant(r.value) && r.value.second == t.second
    ensures n >= 0 ==> r == Some(InstantAddDays(t, n))
  {
    if n >= 0 then Some(InstantAddDays(t, n))
    else
      var d := SubDays(t.date, -n);
      if d.Some? then Some(At(d.value, t.second)) else None
  }

  /** DateTime.AddMonths(k) for any k: None where the result falls before year 1 and DateTime throws. */
  function ShiftMonths(t: Instant, k: int): (r: Option<Instant>)
    requires ValidInstant(t)
    ensures r.Some? ==> ValidInstant(r.value) && r.value.second == t.second
    ensures r.Some? <==> MonthIndex(t.date) + k >= 12
  {
    if MonthIndex(t.date) + k >= 12 then Some(At(AddMonths(t.date, k), t.second)) else None
  }
}
