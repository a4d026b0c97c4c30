// Quota windows: calendar days and months in UTC+8, and the unlimited window.
module QuotaWindows {
  import opened Basics

  datatype Period = Daily | Monthly | Lifetime

  datatype Window = Window(start: int, end: Option<int>)

  const HOUR: int := 3600000
  const DAY: int := 86400000
  const SHIFT: int := 8 * HOUR

  predicate IsLeap(year: int) {
    year % 4 == 0 && (year % 100 != 0 || year % 400 == 0)
  }

  // Days in a month, counted in months since January 1970.
  function DaysIn(month: nat): (d: int)
    ensures 28 <= d <= 31
  {
    var m := month % 12;
    if m == 1 then (if IsLeap(1970 + month / 12) then 29 else 28)
    else if m in {3, 5, 8, 10} then 30
    else 31
  }

  // Date.UTC(y, m, 1), in days since the epoch.
  function FirstDayOf(month: nat): int {
    if month == 0 then 0 else FirstDayOf(month - 1) + DaysIn(month - 1)
  }

  // The month a day falls in, searched from a month that is not later.
  function MonthOf(day: nat, from: nat): (m: nat)
    requires FirstDayOf(from) <= day
    ensures FirstDayOf(m) <= day < FirstDayOf(m + 1)
    decreases day - FirstDayOf(from)
  {
    if day < FirstDayOf(from + 1) then from else MonthOf(day, from + 1)
  }

  function QuotaWindow(period: Period, now: Time): Window {
    var day := (now + SHIFT) / DAY;
    match period
    case Lifetime => Window(0, None)
    case Daily => Window(day * DAY - SHIFT, Some((day + 1) * DAY - SHIFT))
    case Monthly =>
      var month := MonthOf(day, 0);
      Window(FirstDayOf(month) * DAY - SHIFT, Some(FirstDayOf(month + 1) * DAY - SHIFT))
  }

  lemma {:induction false} FirstDaysGrow(m: nat, n: nat)
    requires m < n
    ensures FirstDayOf(m) < FirstDayOf(n)
  {
    if m + 1 < n { FirstDaysGrow(m, n - 1); }
  }

  lemma InWindow(period: Period, now: Time)
    ensures var w := QuotaWindow(period, now);
            w.start <= now && (w.end.Some? ==> now < w.end.value)
  {
    var day := (now + SHIFT) / DAY;
    assert day * DAY <= now + SHIFT < (day + 1) * DAY;
    if period == Monthly {
      var month := MonthOf(day, 0);
      assert FirstDayOf(month) * DAY <= day * DAY;
      assert (day + 1) * DAY <= FirstDayOf(month + 1) * DAY;
    }
  }

  lemma DayBoundary(later: Time, day: nat)
    ensures later < day * DAY - SHIFT <==> (later + SHIFT) / DAY < day
  {
  }

  // The windows of one period tile time: an instant is in the same window as an
  // earlier one exactly until that window ends.
  lemma WindowsTile(period: Period, now: Time, later: Time)
    requires now <= later
    ensures var w := QuotaWindow(period, now);
            QuotaWindow(period, later).start == w.start <==> (w.end.None? || later < w.end.value)
  {
    var d, e := (now + SHIFT) / DAY, (later + SHIFT) / DAY;
    DayBoundary(later, d + 1);
    assert d <= e;
    if period == Monthly {
      var m, n := MonthOf(d, 0), MonthOf(e, 0);
      DayBoundary(later, FirstDayOf(m + 1));
      if m < n { FirstDaysGrow(m, n); if m + 1 < n { FirstDaysGrow(m + 1, n); } }
      if n < m { if n + 1 < m { FirstDaysGrow(n + 1, m); } }
    }
  }

  // ------------------------------------------------------------------------
  // The windows are those of the Gregorian calendar at UTC+8

  // Days before the first of each month in a common year.
  const BEFORE: seq<nat> := [0, 31, 59, 90, 120, 151, 181, 212, 243, 273, 304, 334]

  // Leap days from the year 1 up to the end of a year.
  function LeapDays(year: nat): int { year / 4 - year / 100 + year / 400 }

  // The day number of a date, counted from the first of January 1970.
  function DayNumber(year: nat, month: nat): int
    requires year >= 1970 && month < 12
  {
    365 * (year - 1970) + LeapDays(year - 1) - 477 + BEFORE[month] + if month >= 2 && IsLeap(year) then 1 else 0
  }

  lemma Quarter(q: nat, r: nat)
    requires r < 4
    ensures (4 * q + r) / 4 == q && (4 * q + r) % 4 == r
  {
  }

  lemma Century(q: nat, r: nat)
    requires r < 100
    ensures (100 * q + r) / 100 == q && (100 * q + r) % 100 == r
  {
  }

  lemma FourCenturies(q: nat, r: nat)
    requires r < 400
    ensures (400 * q + r) / 400 == q && (400 * q + r) % 400 == r
  {
  }

  // One more year divides once more exactly at the multiples.
  lemma QuarterStep(year: nat)
    requires year >= 1
    ensures year / 4 == (year - 1) / 4 + if year % 4 == 0 then 1 else 0
  {
    var q, r := year / 4, year % 4;
    if r == 0 { Quarter(q - 1, 3); } else { Quarter(q, r - 1); }
  }

  lemma CenturyStep(year: nat)
    requires year >= 1
    ensures year / 100 == (year - 1) / 100 + if year % 100 == 0 then 1 else 0
    ensures year % 100 == 0 ==> year % 4 == 0
  {
    var q, r := year / 100, year % 100;
    if r == 0 { Century(q - 1, 99); Quarter(25 * q, 0); } else { Century(q, r - 1); }
  }

  lemma FourCenturyStep(year: nat)
    requires year >= 1
    ensures year / 400 == (year - 1) / 400 + if year % 400 == 0 then 1 else 0
    ensures year % 400 == 0 ==> year % 100 == 0
  {
    var q, r := year / 400, year % 400;
    if r == 0 { FourCenturies(q - 1, 399); Century(4 * q, 0); } else { FourCenturies(q, r - 1); }
  }

  lemma LeapYear(year: nat)
    requires year >= 1
    ensures LeapDays(year) == LeapDays(year - 1) + if IsLeap(year) then 1 else 0
  {
    QuarterStep(year);
    CenturyStep(year);
    FourCenturyStep(year);
  }

  // The number of days in a month of a year.
  function Length(year: nat, month: nat): int
    requires month < 12
  {
    if month == 1 then (if IsLeap(year) then 29 else 28) else if month in {3, 5, 8, 10} then 30 else 31
  }

  lemma NextMonth(year: nat, month: nat)
    requires year >= 1970 && month < 11
    ensures DayNumber(year, month + 1) == DayNumber(year, month) + Length(year, month)
  {
  }

  lemma NextYear(year: nat)
    requires year >= 1970
    ensures DayNumber(year + 1, 0) == DayNumber(year, 11) + Length(year, 11)
  {
    LeapYear(year);
  }

  lemma MonthOfYear(y: nat, m: nat)
    requires m < 12
    ensures (12 * y + m) / 12 == y && (12 * y + m) % 12 == m
  {
  }

  lemma {:induction false} YearsAreGregorian(y: nat, m: nat)
    requires m < 12
    ensures FirstDayOf(12 * y + m) == DayNumber(1970 + y, m)
    decreases 12 * y + m
  {
    if m > 0 {
      YearsAreGregorian(y, m - 1);
      MonthOfYear(y, m - 1);
      NextMonth(1970 + y, m - 1);
    } else if y > 0 {
      YearsAreGregorian(y - 1, 11);
      MonthOfYear(y - 1, 11);
      NextYear(1970 + y - 1);
      assert 12 * y + m - 1 == 12 * (y - 1) + 11;
    }
  }

  // Months start where the calendar has them, leap years included.
  lemma MonthsAreGregorian(month: nat)
    ensures FirstDayOf(month) == DayNumber(1970 + month / 12, month % 12)
  {
    YearsAreGregorian(month / 12, month % 12);
  }

  // The lifetime window has no end, and a daily one is a day at UTC+8.
  lemma DaysFollowTheCalendar(now: Time)
    ensures QuotaWindow(Lifetime, now) == Window(0, None)
    ensures var w := QuotaWindow(Daily, now);
            w.end == Some(w.start + 86400000) && (w.start + 28800000) % 86400000 == 0
  {
    var day := (now + SHIFT) / DAY;
    assert day * DAY % DAY == 0;
  }

  function MonthStart(month: nat): int {
    DayNumber(1970 + month / 12, month % 12) * 86400000 - 28800000
  }

  // A monthly one is the calendar month at UTC+8.
  lemma MonthsFollowTheCalendar(now: Time, month: nat)
    requires MonthStart(month) <= now < MonthStart(month + 1)
    ensures QuotaWindow(Monthly, now) == Window(MonthStart(month), Some(MonthStart(month + 1)))
  {
    StartOfMonth(month);
    StartOfMonth(month + 1);
    MonthWindow(now, month, MonthStart(month), MonthStart(month + 1));
  }

  lemma StartOfMonth(month: nat)
    ensures MonthStart(month) == FirstDayOf(month) * DAY - SHIFT
  {
    MonthsAreGregorian(month);
  }

  lemma MonthWindow(now: Time, month: nat, start: int, end: int)
    requires start == FirstDayOf(month) * DAY - SHIFT && end == FirstDayOf(month + 1) * DAY - SHIFT
    requires start <= now < end
    ensures QuotaWindow(Monthly, now) == Window(start, Some(end))
  {
    var day := (now + SHIFT) / DAY;
    var m := MonthOf(day, 0);
    if m < month { if m + 1 < month { FirstDaysGrow(m + 1, month); } }
    if month < m { if month + 1 < m { FirstDaysGrow(month + 1, m); } }
  }
}
