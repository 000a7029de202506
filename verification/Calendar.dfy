/**
 * Instants, proleptic Gregorian dates and the month arithmetic behind billing periods
 * (internal/protocol/time.go). An instant is a count of seconds since 1970-01-01T00:00:00Z.
 */
module Calendar {

  type Instant = int

  const SECONDS_PER_DAY := 86400

  /** Days from 0001-01-01 to 1970-01-01. */
  const EPOCH_DAYS := 719162

  /** A calendar month; months count from 1. */
  datatype Month = Month(year: int, month: int)

  /** A UTC wall clock reading: a calendar day and a second of that day. */
  datatype Civil = Civil(year: int, month: int, day: int, second: int)

  predicate IsLeap(year: int) {
    year % 4 == 0 && (year % 100 != 0 || year % 400 == 0)
  }

  function DaysIn(year: int, month: int): (days: int)
    requires 1 <= month <= 12
    ensures 28 <= days <= 31
  {
    if month == 2 then (if IsLeap(year) then 29 else 28)
    else if month == 4 || month == 6 || month == 9 || month == 11 then 30
    else 31
  }

  /** Days from 0001-01-01 to January 1 of the given year; every fourth year is a leap year, except
      centuries that are not multiples of 400. */
  function DaysBeforeYear(year: int): int {
    365 * (year - 1) + (year - 1) / 4 - (year - 1) / 100 + (year - 1) / 400
  }

  /** Days from January 1 to the first of the given month; month 13 stands for the end of the year. */
  function DaysBeforeMonth(year: int, month: int): (days: int)
    requires 1 <= month <= 13
    decreases month
  {
    if month == 1 then 0 else DaysBeforeMonth(year, month - 1) + DaysIn(year, month - 1)
  }

  /** The closed form of DaysBeforeMonth. */
  lemma MonthTable(year: int, month: int)
    requires 1 <= month <= 13
    ensures DaysBeforeMonth(year, month) ==
            [0, 0, 31, 59, 90, 120, 151, 181, 212, 243, 273, 304, 334, 365][month]
            + (if month > 2 && IsLeap(year) then 1 else 0)
    decreases month
  {
    if month > 1 {
      MonthTable(year, month - 1);
    }
  }

  lemma YearLength(year: int)
    ensures DaysBeforeYear(year + 1) == DaysBeforeYear(year) + DaysBeforeMonth(year, 13)
  {
    MonthTable(year, 13);
    Quotient(year, 4);
    Quotient(year, 100);
    Quotient(year, 400);
  }

  lemma Quotient(n: int, d: int)
    requires d == 4 || d == 100 || d == 400
    ensures n / d == (n - 1) / d + (if n % d == 0 then 1 else 0)
  {
    if d == 4 {
      assert n == 4 * (n / 4) + n % 4;
    } else if d == 100 {
      assert n == 100 * (n / 100) + n % 100;
    } else {
      assert n == 400 * (n / 400) + n % 400;
    }
  }

  /** The day number of a calendar day, counted from 1970-01-01. */
  function DayNumber(year: int, month: int, day: int): int
    requires 1 <= month <= 12
  {
    DaysBeforeYear(year) + DaysBeforeMonth(year, month) + day - 1 - EPOCH_DAYS
  }

  predicate ValidCivil(c: Civil) {
    && 1 <= c.month <= 12
    && 1 <= c.day <= DaysIn(c.year, c.month)
    && 0 <= c.second < SECONDS_PER_DAY
  }

  function ToInstant(c: Civil): Instant
    requires 1 <= c.month <= 12
  {
    DayNumber(c.year, c.month, c.day) * SECONDS_PER_DAY + c.second
  }

  /** The year that holds the day `n` days after 0001-01-01: an estimate by mean year length,
      corrected by at most one. */
  function YearOf(n: int): (year: int)
    ensures DaysBeforeYear(year) <= n < DaysBeforeYear(year + 1)
  {
    var guess := 400 * n / 146097 + 1;
    YearEstimate(n, guess);
    if n < DaysBeforeYear(guess) then guess - 1
    else if n >= DaysBeforeYear(guess + 1) then guess + 1
    else guess
  }

  lemma YearEstimate(n: int, guess: int)
    requires guess == 400 * n / 146097 + 1
    ensures DaysBeforeYear(guess - 1) <= n < DaysBeforeYear(guess + 2)
  {
    YearBounds(guess - 1);
    YearBounds(guess + 2);
    assert 146097 * (guess - 1) <= 400 * n < 146097 * guess;
  }

  /** A year starts within a day and a half of the mean-length estimate. */
  lemma YearBounds(year: int)
    ensures 146097 * (year - 1) - 699 <= 400 * DaysBeforeYear(year) <= 146097 * (year - 1) + 400
  {
    var z := year - 1;
    assert 4 * (z / 4) <= z <= 4 * (z / 4) + 3;
    assert 100 * (z / 100) <= z <= 100 * (z / 100) + 99;
    assert 400 * (z / 400) <= z <= 400 * (z / 400) + 399;
  }

  /** The month of the day `d` days into a year. */
  function MonthOf(year: int, d: int, month: int): (m: int)
    requires 1 <= month <= 12
    requires DaysBeforeMonth(year, month) <= d < DaysBeforeMonth(year, 13)
    ensures month <= m <= 12
    ensures DaysBeforeMonth(year, m) <= d < DaysBeforeMonth(year, m + 1)
    decreases 12 - month
  {
    if month == 12 || d < DaysBeforeMonth(year, month + 1) then month else MonthOf(year, d, month + 1)
  }

  /** The UTC date and time of day of an instant. */
  function ToCivil(t: Instant): (c: Civil)
    ensures ValidCivil(c)
    ensures ToInstant(c) == t
  {
    var n := t / SECONDS_PER_DAY + EPOCH_DAYS;
    var year := YearOf(n);
    YearLength(year);
    var d := n - DaysBeforeYear(year);
    var month := MonthOf(year, d, 1);
    Civil(year, month, d - DaysBeforeMonth(year, month) + 1, t % SECONDS_PER_DAY)
  }

  /** Whole months order whole days: a later month starts no earlier than the end of this one. */
  lemma MonthsOrdered(year: int, m1: int, m2: int)
    requires 1 <= m1 < m2 <= 13
    ensures DaysBeforeMonth(year, m1) + DaysIn(year, m1) <= DaysBeforeMonth(year, m2)
    decreases m2
  {
    if m2 > m1 + 1 {
      MonthsOrdered(year, m1, m2 - 1);
    }
  }

  lemma {:induction false} YearsOrdered(y1: int, y2: int)
    requires y1 < y2
    ensures DaysBeforeYear(y1 + 1) <= DaysBeforeYear(y2)
    decreases y2 - y1
  {
    if y1 + 1 < y2 {
      YearsOrdered(y1, y2 - 1);
      YearLength(y2 - 1);
      MonthTable(y2 - 1, 13);
    }
  }

  /** A day belongs to the year whose span holds it. */
  lemma DayInYear(year: int, month: int, day: int)
    requires 1 <= month <= 12 && 1 <= day <= DaysIn(year, month)
    ensures DaysBeforeYear(year) - EPOCH_DAYS <= DayNumber(year, month, day) < DaysBeforeYear(year + 1) - EPOCH_DAYS
  {
    MonthTable(year, month);
    MonthsOrdered(year, month, 13);
    YearLength(year);
  }

  /** ToInstant and ToCivil are inverse: no two valid dates name the same instant. */
  lemma CivilUnique(c: Civil)
    requires ValidCivil(c)
    ensures ToCivil(ToInstant(c)) == c
  {
    var t := ToInstant(c);
    var e := ToCivil(t);
    var day := DayNumber(c.year, c.month, c.day);
    assert t / SECONDS_PER_DAY == day && t % SECONDS_PER_DAY == c.second;
    assert DayNumber(e.year, e.month, e.day) == day;
    DayInYear(c.year, c.month, c.day);
    DayInYear(e.year, e.month, e.day);
    if c.year < e.year {
      YearsOrdered(c.year, e.year);
    } else if e.year < c.year {
      YearsOrdered(e.year, c.year);
    }
    if c.month < e.month {
      MonthsOrdered(c.year, c.month, e.month);
    } else if e.month < c.month {
      MonthsOrdered(c.year, e.month, c.month);
    }
  }

  // ---------- AddCalendarMonths ----------

  function Min(a: int, b: int): int {
    if a <= b then a else b
  }

  /** The month that lies `months` after the given one, by division instead of counting. */
  function ShiftMonth(m: Month, months: int): (r: Month)
    ensures 1 <= r.month <= 12
    ensures 12 * r.year + r.month == 12 * m.year + m.month + months
  {
    var total := 12 * m.year + m.month - 1 + months;
    Month(total / 12, total % 12 + 1)
  }

  function MonthOfCivil(c: Civil): Month {
    Month(c.year, c.month)
  }

  /** The date `months` later, clamped to the last day of a shorter month; the time of day stays. */
  function JumpMonths(c: Civil, months: int): (r: Civil)
    requires ValidCivil(c)
    ensures ValidCivil(r)
  {
    var m := ShiftMonth(MonthOfCivil(c), months);
    Civil(m.year, m.month, Min(c.day, DaysIn(m.year, m.month)), c.second)
  }

  function AddCalendarMonths(start: Instant, months: int): Instant {
    ToInstant(JumpMonths(ToCivil(start), months))
  }

  /** The Go loops that carry the month into the year, for every month count of either sign. */
  method ComputeAddCalendarMonths(start: Instant, months: int) returns (t: Instant)
    ensures t == AddCalendarMonths(start, months)
  {
    var c := ToCivil(start);
    var year, month, day := c.year, c.month + months, c.day;
    while month > 12
      invariant 12 * year + month == 12 * c.year + c.month + months
      invariant month >= 1 || month == c.month + months
    {
      year := year + 1;
      month := month - 12;
    }
    while month < 1
      invariant 12 * year + month == 12 * c.year + c.month + months
      invariant month <= 12
    {
      year := year - 1;
      month := month + 12;
    }
    assert Month(year, month) == ShiftMonth(Month(c.year, c.month), months);
    var last := DaysIn(year, month);
    if day > last {
      day := last;
    }
    t := ToInstant(Civil(year, month, day, c.second));
  }

  /** Consecutive months are adjacent: day d of one month and day e of the next. */
  lemma NextMonthDay(m: Month, day: int, nextDay: int)
    requires 1 <= m.month <= 12
    ensures var n := ShiftMonth(m, 1);
            DayNumber(n.year, n.month, nextDay) == DayNumber(m.year, m.month, day) + DaysIn(m.year,
                m.month) + nextDay - day
  {
    if m.month == 12 {
      assert ShiftMonth(m, 1) == Month(m.year + 1, 1);
      YearLength(m.year);
    } else {
      assert ShiftMonth(m, 1) == Month(m.year, m.month + 1);
    }
  }

  /** One month is 28 to 31 whole days, so a billing period never ends at or before its start. */
  lemma OneMonth(start: Instant)
    ensures exists days :: 28 <= days <= 31 && AddCalendarMonths(start, 1) == start + days * SECONDS_PER_DAY
    ensures AddCalendarMonths(start, 1) > start
  {
    var c := ToCivil(start);
    var m := Month(c.year, c.month);
    var n := ShiftMonth(m, 1);
    var day := Min(c.day, DaysIn(n.year, n.month));
    NextMonthDay(m, c.day, day);
    var days := DaysIn(m.year, m.month) + day - c.day;
    assert AddCalendarMonths(start, 1) == start + days * SECONDS_PER_DAY;
    assert 28 <= days <= 31;
  }

  /** A billing history: every instant is one month after the one before. */
  ghost predicate Monthly(ts: seq<Instant>) {
    |ts| > 0 && forall i, j :: 0 <= i < j < |ts| && j == i + 1 ==> ts[j] == AddCalendarMonths(ts[i], 1)
  }

  lemma JumpDate(start: Instant, months: int)
    ensures ToCivil(AddCalendarMonths(start, months)) == JumpMonths(ToCivil(start), months)
  {
    CivilUnique(JumpMonths(ToCivil(start), months));
  }

  /** The same history as calendar dates. */
  ghost predicate MonthlyDates(cs: seq<Civil>) {
    && |cs| > 0
    && (forall i :: 0 <= i < |cs| ==> ValidCivil(cs[i]))
    && (forall i, j :: 0 <= i < j < |cs| && j == i + 1 ==> cs[j] == JumpMonths(cs[i], 1))
  }

  /** Clamping is never undone, so the day can only sink, but no month is too short for day 28. */
  lemma {:induction false} RenewedDay(cs: seq<Civil>)
    requires MonthlyDates(cs)
    ensures var last, jump := cs[|cs| - 1], JumpMonths(cs[0], |cs| - 1);
            && MonthOfCivil(last) == MonthOfCivil(jump)
            && last.second == jump.second
            && Min(cs[0].day, 28) <= last.day <= jump.day
    decreases |cs|
  {
    if |cs| > 1 {
      RenewedDay(cs[..|cs| - 1]);
    }
  }

  lemma {:induction false} DatesOf(ts: seq<Instant>) returns (cs: seq<Civil>)
    requires Monthly(ts)
    ensures |cs| == |ts| && MonthlyDates(cs)
    ensures cs[0] == ToCivil(ts[0]) && cs[|ts| - 1] == ToCivil(ts[|ts| - 1])
    decreases |ts|
  {
    hide ToCivil;
    var n := |ts| - 1;
    if n == 0 {
      cs := [ToCivil(ts[0])];
    } else {
      var earlier := DatesOf(ts[..n]);
      JumpDate(ts[n - 1], 1);
      cs := earlier + [JumpMonths(earlier[n - 1], 1)];
    }
  }

  /** Renewing month by month stays in the month of the single jump, at the same time of day; clamping can only
      lose days, at most three, and never does when the anniversary day is at most 28. */
  lemma RenewalsAgainstJump(ts: seq<Instant>)
    requires Monthly(ts)
    ensures var last, jump := ts[|ts| - 1], AddCalendarMonths(ts[0], |ts| - 1);
            && MonthOfCivil(ToCivil(last)) == MonthOfCivil(ToCivil(jump))
            && last <= jump <= last + 3 * SECONDS_PER_DAY
            && (ToCivil(ts[0]).day <= 28 ==> last == jump)
  {
    hide ToCivil;
    var cs := DatesOf(ts);
    RenewedDay(cs);
    var first, last, jump := cs[0], cs[|cs| - 1], JumpMonths(cs[0], |cs| - 1);
    JumpDate(ts[0], |ts| - 1);
    DaysApart(last, jump);
    LostDays(first.day, last, jump);
  }

  lemma LostDays(day: int, last: Civil, jump: Civil)
    requires ValidCivil(jump) && Min(day, 28) <= last.day <= jump.day <= day
    ensures 0 <= jump.day - last.day <= 3
    ensures day <= 28 ==> jump.day == last.day
  {
  }

  /** Within one month and at one time of day, instants differ by their days. */
  lemma DaysApart(a: Civil, b: Civil)
    requires ValidCivil(a) && ValidCivil(b) && MonthOfCivil(a) == MonthOfCivil(b) && a.second == b.second
    ensures ToInstant(b) - ToInstant(a) == (b.day - a.day) * SECONDS_PER_DAY
  {
  }
}
