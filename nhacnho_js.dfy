// The reminder page script (nhacnho.js). It covers:
//   - the time-remaining classifier (getTimeRemaining) and the countdown
//     text the page shows (updateTimeDisplays);
//   - the status badges (updateStatusBadges);
//   - the repeat-interval input of the recurring form (initializeRecurringForm);
//   - the per-field check run before the form is sent (validateField).
// Times are milliseconds; an unreadable date (`new Date` giving NaN) is None.
module NhacNhoJs {
  import opened Common
  import opened Entities
  import opened Text
  import NhacNho

  const MinuteMs: int := 60000
  const HourMs: int := 3600000
  const DayMs: int := 86400000

  /** The CSS class: overdue, soon or upcoming. */
  datatype Urgency = Overdue | Soon | Upcoming

  /** The countdown texts; the numbers are those Math.round gives. */
  datatype Label =
    | PastDue               // "Đã quá hạn"
    | OverdueHours(n: int)  // "Quá hạn n giờ"
    | UnderAMinute          // "Dưới 1 phút"
    | Minutes(n: int)       // "n phút"
    | Hours(n: int)         // "n giờ"
    | Days(n: int)          // "n ngày"
    | NotANumberDays        // "NaN ngày"

  datatype Remaining = Remaining(text: Label, cls: Urgency)

  /** `target - now`, NaN when the target date cannot be read. */
  function Diff(target: Option<int>, now: int): (r: Option<int>)
    ensures r.Some? <==> target.Some?
    ensures r.Some? ==> now + r.value == target.value
  {
    if target.Some? then Some(target.value - now) else None
  }

  // ----- getTimeRemaining --------------------------------------------------------

  /**
   * The five buckets: past due, under a minute, minutes below an hour,
   * hours below a day, days otherwise. NaN fails every comparison and so
   * lands in the last bucket.
   */
  function GetTimeRemaining(diff: Option<int>): (r: Remaining)
    ensures r.text.PastDue? <==> diff.Some? && diff.value < 0
    ensures r.text.UnderAMinute? <==> diff.Some? && 0 <= diff.value < MinuteMs
    ensures r.text.Minutes? <==> diff.Some? && MinuteMs <= diff.value < HourMs
    ensures r.text.Hours? <==> diff.Some? && HourMs <= diff.value < DayMs
    ensures r.text.Days? <==> diff.Some? && DayMs <= diff.value
    ensures r.text.NotANumberDays? <==> diff.None?
    ensures r.cls == Overdue <==> r.text.PastDue?
    ensures r.cls == Soon <==> r.text.UnderAMinute?
    ensures r.text.Minutes? ==> 1 <= r.text.n <= 60
    ensures r.text.Hours? ==> 1 <= r.text.n <= 24
    ensures r.text.Days? ==> r.text.n >= 1
    ensures r.text.Minutes? ==> -MinuteMs <= 2 * (diff.value - r.text.n * MinuteMs) < MinuteMs
    ensures r.text.Hours? ==> -HourMs <= 2 * (diff.value - r.text.n * HourMs) < HourMs
    ensures r.text.Days? ==> -DayMs <= 2 * (diff.value - r.text.n * DayMs) < DayMs
  {
    if diff.None? then Remaining(NotANumberDays, Upcoming)
    else
      var d := diff.value;
      if d < 0 then Remaining(PastDue, Overdue)
      else if d < MinuteMs then Remaining(UnderAMinute, Soon)
      else if d < HourMs then Remaining(Minutes(RoundHalfUp(d, MinuteMs)), Upcoming)
      else if d < DayMs then Remaining(Hours(RoundHalfUp(d, HourMs)), Upcoming)
      else Remaining(Days(RoundHalfUp(d, DayMs)), Upcoming)
  }

  // ----- updateTimeDisplays ----------------------------------------------------------

  /** The countdown text of a [data-time-remaining] element: as getTimeRemaining, but a past time shows its hours. */
  function TimeDisplay(diff: Option<int>): (r: Label)
    ensures diff.Some? && diff.value < 0 ==> r.OverdueHours? && r.n >= 0
  {
    if diff.Some? && diff.value < 0 then
      var h := RoundHalfUp(diff.value, HourMs);
      OverdueHours(if h < 0 then -h else h)
    else GetTimeRemaining(diff).text
  }

  /**
   * The page countdown and getTimeRemaining agree except on a past time,
   * where the countdown says how many hours ago (rounded half up, so an
   * hour and a half ago shows 1).
   */
  lemma DisplayAgreesWithRemaining(diff: Option<int>)
    ensures TimeDisplay(diff) == GetTimeRemaining(diff).text <==> !(diff.Some? && diff.value < 0)
    ensures TimeDisplay(Some(-5400000)) == OverdueHours(1)
    ensures TimeDisplay(Some(-1)) == OverdueHours(0)
  {
    assert RoundHalfUp(-5400000, HourMs) == -1;
    assert RoundHalfUp(-1, HourMs) == 0;
  }

  // ----- updateStatusBadges -----------------------------------------------------------

  /** The badge: overdue before the time, soon up to and including one hour ahead, upcoming after (and for NaN). */
  function StatusOf(diff: Option<int>): (r: Urgency)
    ensures r == Overdue <==> diff.Some? && diff.value < 0
    ensures r == Soon <==> diff.Some? && 0 <= diff.value <= HourMs
  {
    if diff.None? then Upcoming
    else if diff.value < 0 then Overdue
    else if diff.value <= HourMs then Soon
    else Upcoming
  }

  /**
   * The badge and getTimeRemaining's class disagree exactly from one
   * minute up to one hour ahead: the badge already says soon, the
   * classifier still says upcoming.
   */
  lemma BadgeVersusRemaining(diff: Option<int>)
    ensures StatusOf(diff) != GetTimeRemaining(diff).cls <==> diff.Some? && MinuteMs <= diff.value <= HourMs
    ensures diff.Some? && MinuteMs <= diff.value <= HourMs ==>
      StatusOf(diff) == Soon && GetTimeRemaining(diff).cls == Upcoming
  {
  }

  /** A [data-status-update] element: its target time and the badge it carries (none yet, before the first update). */
  datatype BadgeElement = BadgeElement(target: Option<int>, status: Option<Urgency>)

  /** A [data-time-remaining] element: its target time and its text. */
  datatype TimeElement = TimeElement(target: Option<int>, text: Option<Label>)

  /**
   * updateStatusBadges: each element gets the badge for its own target,
   * measured against the clock reading taken for it (clock[i]).
   */
  method UpdateStatusBadges(elements: array<BadgeElement>, clock: seq<int>)
    requires |clock| == elements.Length
    modifies elements
    ensures forall i :: 0 <= i < elements.Length ==>
      elements[i] == BadgeElement(old(elements[i]).target, Some(StatusOf(Diff(old(elements[i]).target, clock[i]))))
  {
    for i := 0 to elements.Length
      invariant forall k :: 0 <= k < i ==>
        elements[k] == BadgeElement(old(elements[k]).target, Some(StatusOf(Diff(old(elements[k]).target, clock[k]))))
      invariant forall k :: i <= k < elements.Length ==> elements[k] == old(elements[k])
    {
      var target := elements[i].target;
      elements[i] := BadgeElement(target, Some(StatusOf(Diff(target, clock[i]))));
    }
  }

  /** updateTimeDisplays: each element shows the countdown to its own target. */
  method UpdateTimeDisplays(elements: array<TimeElement>, clock: seq<int>)
    requires |clock| == elements.Length
    modifies elements
    ensures forall i :: 0 <= i < elements.Length ==>
      elements[i] == TimeElement(old(elements[i]).target, Some(TimeDisplay(Diff(old(elements[i]).target, clock[i]))))
  {
    for i := 0 to elements.Length
      invariant forall k :: 0 <= k < i ==>
        elements[k] == TimeElement(old(elements[k]).target, Some(TimeDisplay(Diff(old(elements[k]).target, clock[k]))))
      invariant forall k :: i <= k < elements.Length ==> elements[k] == old(elements[k])
    {
      var target := elements[i].target;
      elements[i] := TimeElement(target, Some(TimeDisplay(Diff(target, clock[i]))));
    }
  }

  // ----- initializeRecurringForm -------------------------------------------------------

  /** The largest interval the form offers for a repeat kind: 30 days, 4 weeks, 12 months. */
  function IntervalMax(kind: string): (r: Option<nat>)
  {
    if kind == "daily" then Some(30)
    else if kind == "weekly" then Some(4)
    else if kind == "monthly" then Some(12)
    else None
  }

  /**
   * The kinds with an interval range are exactly those the controller
   * repeats, and the interval the form resets to (1) makes the controller
   * create the kind's full number of copies; "none" creates none.
   */
  lemma IntervalMaxMatchesRepeat(kind: string)
    ensures IntervalMax(kind).Some? <==> NhacNho.RepeatCount(kind) > 0
    ensures IntervalMax(kind).Some? ==> NhacNho.CopyCount(kind, 1) == NhacNho.RepeatCount(kind) > 0
    ensures NhacNho.CopyCount("none", 1) == 0
  {
  }

  /** The soNgayLap input and whether its container is shown. */
  class IntervalInput {
    var value: string
    var min: Option<string>
    var max: Option<string>
    var shown: bool

    constructor (value: string)
      ensures this.value == value && min.None? && max.None? && shown
    {
      this.value := value;
      min := None;
      max := None;
      shown := true;
    }

    /**
     * The loaiLap change handler: "none" hides the input and sets it to 1;
     * a repeat kind shows it with value 1, minimum 1 and the kind's
     * maximum; any other choice only shows it.
     */
    method OnRepeatChange(selected: string)
      modifies this
      ensures shown <==> selected != "none"
      ensures selected == "none" ==> value == "1" && min == old(min) && max == old(max)
      ensures IntervalMax(selected).Some? ==>
        value == "1" && min == Some("1") && max == Some(Digits(IntervalMax(selected).value))
      ensures selected != "none" && IntervalMax(selected).None? ==>
        value == old(value) && min == old(min) && max == old(max)
    {
      if selected == "none" {
        shown := false;
        value := "1";
      } else {
        shown := true;
        if selected == "daily" {
          value := "1";
          min := Some("1");
          max := Some("30");
          assert Digits(30) == "30";
        } else if selected == "weekly" {
          value := "1";
          min := Some("1");
          max := Some("4");
        } else if selected == "monthly" {
          value := "1";
          min := Some("1");
          max := Some("12");
          assert Digits(12) == "12";
        }
      }
    }
  }

  // ----- validateField ---------------------------------------------------------------

  /** The fields the check treats specially; all others only get the required test. */
  datatype FieldName = NoiDung | ThoiGian | OtherField

  /**
   * A field fails when it is required and blank after trimming; when it is
   * NoiDung and holds 1 to 4 characters after trimming; or when it is
   * ThoiGian, not blank, and the time it reads as (`selected`, None for an
   * unreadable date) is before now.
   */
  function ValidateField(value: string, required: bool, name: FieldName, selected: Option<int>, now: int): (ok: bool)
  {
    var v := Trim(value);
    !(required && v == []) &&
    !(name == NoiDung && v != [] && |v| < 5) &&
    !(name == ThoiGian && v != [] && selected.Some? && selected.value < now)
  }

  /** What each rule lets through and what it stops. */
  lemma ValidateFieldRules(value: string, required: bool, selected: Option<int>, now: int)
    ensures Trim(value) == [] ==> (ValidateField(value, required, OtherField, selected, now) <==> !required)
    ensures Trim(value) != [] ==> ValidateField(value, required, OtherField, selected, now)
    ensures Trim(value) != [] ==> (ValidateField(value, required, NoiDung, selected, now) <==> |Trim(value)| >= 5)
    ensures Trim(value) != [] ==>
      (ValidateField(value, required, ThoiGian, selected, now) <==> selected.None? || selected.value >= now)
  {
  }

  /**
   * The browser is stricter than the server on the content: a four-letter
   * text is accepted by the server, yet the form will not send it; padding does not
   * help, since the length is taken after trimming.
   */
  lemma ShortContentStoppedInBrowser()
    ensures !ValidateField("abcd", true, NoiDung, None, 0)
    ensures !ValidateField("  abcd  ", true, NoiDung, None, 0)
  {
    TrimKeepsInner("abcd");
    PaddedTrim();
  }

  lemma PaddedTrim()
    ensures Trim("  abcd  ") == "abcd"
  {
    PaddedTrimEnd();
    PaddedTrimStart();
    TrimBothEnds("  abcd  ");
  }

  lemma PaddedTrimEnd()
    ensures TrimEnd("  abcd  ") == "  abcd"
  {
    var s0, s1, s2 := "  abcd  ", "  abcd ", "  abcd";
    assert s0[..|s0| - 1] == s1 && s1[..|s1| - 1] == s2;
    assert IsJsWhiteSpace(s0[|s0| - 1]) && IsJsWhiteSpace(s1[|s1| - 1]) && !IsJsWhiteSpace(s2[|s2| - 1]);
    TrimEndStep(s0);
    TrimEndStep(s1);
    TrimEndStep(s2);
  }

  lemma PaddedTrimStart()
    ensures TrimStart("  abcd") == "abcd"
  {
    var s0, s1, s2 := "  abcd", " abcd", "abcd";
    assert s0[1..] == s1 && s1[1..] == s2;
    assert IsJsWhiteSpace(s0[0]) && IsJsWhiteSpace(s1[0]) && !IsJsWhiteSpace(s2[0]);
    TrimStartStep(s0);
    TrimStartStep(s1);
    TrimStartStep(s2);
  }
}
