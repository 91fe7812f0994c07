/**
 * `formatRelativeDueDate` over whole days. A local calendar day is its day number
 * (days since 1970-01-01, a Thursday) together with the month and day of month it
 * falls on; today is a day number. The source compares local midnights, so the number
 * of days between them and the end-of-week comparisons are integer arithmetic here.
 *
 * Reading a date string is the parameter `parse`: `None` stands for `Invalid Date`.
 */
module DueDates {
  import opened Wrappers
  import opened Text

  /** Sunday = 0, as `Date.prototype.getDay`. */
  type Weekday = w: int | 0 <= w < 7
  type Month = m: int | 1 <= m <= 12 witness 1
  type DayOfMonth = d: int | 1 <= d <= 31 witness 1

  datatype LocalDate = LocalDate(dayNumber: int, month: Month, day: DayOfMonth)

  /** Day 0, 1970-01-01, was a Thursday. */
  function WeekdayOf(dayNumber: int): Weekday {
    (dayNumber + 4) % 7
  }

  /** The `en-US` long weekday names. */
  function WeekdayName(w: Weekday): string {
    ["Sunday", "Monday", "Tuesday", "Wednesday", "Thursday", "Friday", "Saturday"][w]
  }

  /** `endOfWeek`: today plus `7 - getDay()` days, the Sunday that ends this week (today
      itself is never the end: on a Sunday it is the next Sunday). */
  function EndOfWeek(today: int): (e: int)
    ensures WeekdayOf(e) == 0
    ensures today < e <= today + 7
  {
    today + (7 - WeekdayOf(today))
  }

  /** Which label a day difference gets, with today's weekday `w`. */
  datatype Category = Overdue | Today | Tomorrow | ThisWeek | NextWeek | Later

  function Categorize(diff: int, w: Weekday): Category {
    if diff < 0 then Overdue
    else if diff == 0 then Today
    else if diff == 1 then Tomorrow
    else if diff <= 7 - w then ThisWeek
    else if diff <= 14 - w then NextWeek
    else Later
  }

  function Rank(c: Category): nat {
    match c
    case Overdue => 0
    case Today => 1
    case Tomorrow => 2
    case ThisWeek => 3
    case NextWeek => 4
    case Later => 5
  }

  /** A two-digit field, as `'2-digit'` writes a month or a day. */
  function Pad2(n: int): (r: string)
    requires 0 <= n < 100
    ensures |r| == 2 && IsDigit(r[0]) && IsDigit(r[1])
  {
    [('0' as int + n / 10) as char, ('0' as int + n % 10) as char]
  }

  /** The label of a due date. */
  function Label(due: LocalDate, today: int): string {
    match Categorize(due.dayNumber - today, WeekdayOf(today))
    case Overdue => "Overdue"
    case Today => "Due today"
    case Tomorrow => "Due tomorrow"
    case ThisWeek => "Due " + WeekdayName(WeekdayOf(due.dayNumber))
    case NextWeek => "Due next " + WeekdayName(WeekdayOf(due.dayNumber))
    case Later => "Due " + Pad2(due.month) + "/" + Pad2(due.day)
  }

  /** `formatRelativeDueDate(dueDate)`: nothing for a missing or empty date; a date that
      does not parse falls through every comparison (they are all false on `NaN`) to the
      last line; otherwise the label chosen by the day difference `d` and today's weekday
      `w`. */
  function FormatRelativeDueDate(dueDate: Option<string>, today: int,
                                 parse: string -> Option<LocalDate>): (r: Option<string>)
    ensures dueDate.None? || dueDate.value == [] ==> r.None?
    ensures dueDate.Some? && dueDate.value != [] && parse(dueDate.value).None?
            ==> r == Some("Due Invalid Date")
    ensures dueDate.Some? && dueDate.value != [] && parse(dueDate.value).Some? ==>
              var due := parse(dueDate.value).value;
              var d := due.dayNumber - today;
              var w := WeekdayOf(today);
              && (d < 0 ==> r == Some("Overdue"))
              && (d == 0 ==> r == Some("Due today"))
              && (d == 1 ==> r == Some("Due tomorrow"))
              && (2 <= d <= 7 - w ==> r == Some("Due " + WeekdayName(WeekdayOf(due.dayNumber))))
              && (2 <= d && 7 - w < d <= 14 - w ==> r == Some("Due next " + WeekdayName(WeekdayOf(due.dayNumber))))
              && (2 <= d && 14 - w < d ==> r == Some("Due " + Pad2(due.month) + "/" + Pad2(due.day)))
  {
    match dueDate
    case None => None
    case Some(s) =>
      if s == [] then None
      else
        match parse(s)
        case None => Some("Due Invalid Date")
        case Some(due) => Some(Label(due, today))
  }

  // ---------------------------------------------------------------------
  // properties of the labels

  /** The later the due date, the later the category: the labels never go back. */
  lemma CategoryMonotone(d1: int, d2: int, w: Weekday)
    requires d1 <= d2
    ensures Rank(Categorize(d1, w)) <= Rank(Categorize(d2, w))
  {
  }

  /** The plain weekday label covers exactly the days after tomorrow up to the Sunday
      that ends this week; the "next" label the seven days after that. */
  lemma WeekWindows(today: int, due: int)
    ensures Categorize(due - today, WeekdayOf(today)) == ThisWeek
            <==> today + 2 <= due <= EndOfWeek(today)
    ensures Categorize(due - today, WeekdayOf(today)) == NextWeek
            <==> today + 2 <= due && EndOfWeek(today) < due <= EndOfWeek(today) + 7
  {
  }

  /** A plain "Due <weekday>" names a later day of the current week, or the Sunday that
      ends it. */
  lemma ThisWeekIsLaterThisWeek(today: int, due: int)
    requires Categorize(due - today, WeekdayOf(today)) == ThisWeek
    ensures WeekdayOf(due) == 0 || WeekdayOf(today) + 2 <= WeekdayOf(due)
  {
    var w := WeekdayOf(today);
    var k := (today + 4) / 7;
    assert today + 4 == 7 * k + w;
    var d := due - today;
    assert 2 <= d <= 7 - w;
    assert due + 4 == 7 * k + w + d;
    if w + d == 7 {
      assert due + 4 == 7 * (k + 1);
    } else {
      assert 0 <= w + d < 7;
    }
  }

  /** On a Saturday `7 - w` is 1, so no date gets the plain weekday label. */
  lemma SaturdayHasNoThisWeek(diff: int)
    ensures Categorize(diff, 6) != ThisWeek
  {
  }

  /** On a Sunday the week ends on the next Sunday, so a date seven days away is
      labelled "Due Sunday", the same label as a date in the current week would get. */
  lemma SundayReachesNextSunday(today: int, due: LocalDate)
    requires WeekdayOf(today) == 0 && due.dayNumber == today + 7
    ensures Label(due, today) == "Due Sunday"
  {
    assert WeekdayOf(due.dayNumber) == 0;
  }

  /** `Pad2` writes the number back: reading its digits gives `n`. */
  lemma Pad2Digits(n: int)
    requires 0 <= n < 100
    ensures DigitsValue(Pad2(n)) == n
  {
    var r := Pad2(n);
    assert r[..1] == [r[0]];
    assert r[..1][..0] == [];
    assert DigitsValue(r[..1]) == n / 10;
  }

  // ---------------------------------------------------------------------
  // the day difference in milliseconds

  const MsPerDay: int := 86400000

  /** `Math.ceil(ms / (1000 * 60 * 60 * 24))` on an integer number of milliseconds. */
  function CeilDays(ms: int): (r: int)
    ensures (r - 1) * MsPerDay < ms <= r * MsPerDay
  {
    -((-ms) / MsPerDay)
  }

  /** The source's `diffDays` when `days` calendar days lie between the two local
      midnights and a daylight-saving change adds `shiftMs` to the interval. */
  function DiffDaysAsWritten(days: int, shiftMs: int): int {
    CeilDays(days * MsPerDay + shiftMs)
  }

  /** Across the autumn change the interval from today's midnight to tomorrow's is 25
      hours, `Math.ceil` makes it two days, and the date gets a weekday label instead
      of "Due tomorrow". */
  lemma FallBackSkipsTomorrow(w: Weekday)
    ensures DiffDaysAsWritten(1, 3600000) == 2
    ensures Categorize(DiffDaysAsWritten(1, 3600000), w) != Tomorrow
  {
    assert 1 * MsPerDay + 3600000 == 89999999 + 1;
    assert CeilDays(90000000) == 2;
  }

  /** `Math.round` of the same quotient is the calendar day difference whenever the
      shift is less than half a day, which is what the labels assume. */
  function RoundDays(ms: int): int {
    (ms + MsPerDay / 2) / MsPerDay
  }

  lemma RoundedDiffIsDayDifference(days: int, shiftMs: int)
    requires -MsPerDay / 2 <= shiftMs < MsPerDay / 2
    ensures RoundDays(days * MsPerDay + shiftMs) == days
  {
    var x := days * MsPerDay + shiftMs + MsPerDay / 2;
    assert days * MsPerDay <= x < (days + 1) * MsPerDay;
  }

  // ---------------------------------------------------------------------
  // date-only strings

  /** The local day on which `new Date("YYYY-MM-DD")` falls: the string is read as UTC
      midnight of `writtenDay`, which is `offsetMinutes` (local time minus UTC) away
      from the local clock. */
  function LocalDayOfDateOnly(writtenDay: int, offsetMinutes: int): int {
    (writtenDay * 1440 + offsetMinutes) / 1440
  }

  /** West of UTC a date-only due date falls on the day before the one written, so a
      ticket due today is labelled "Overdue". */
  lemma DateOnlyWestOfUtc(writtenDay: int, offsetMinutes: int, month: Month, day: DayOfMonth)
    requires -1440 < offsetMinutes < 0
    ensures LocalDayOfDateOnly(writtenDay, offsetMinutes) == writtenDay - 1
    ensures Label(LocalDate(LocalDayOfDateOnly(writtenDay, offsetMinutes), month, day), writtenDay)
            == "Overdue"
  {
    var x := writtenDay * 1440 + offsetMinutes;
    assert (writtenDay - 1) * 1440 <= x < writtenDay * 1440;
  }

  /** Read as the local day it names, a date-only due date gets the label of the day
      written: today's date is "Due today", tomorrow's "Due tomorrow". */
  lemma WrittenDayLabels(today: int, month: Month, day: DayOfMonth)
    ensures Label(LocalDate(today, month, day), today) == "Due today"
    ensures Label(LocalDate(today + 1, month, day), today) == "Due tomorrow"
    ensures Label(LocalDate(today - 1, month, day), today) == "Overdue"
  {
  }
}
