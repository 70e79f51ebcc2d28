/** The proleptic Gregorian calendar, as far as it reaches: years, months, days
    and the order they come in. */
module Calendar {
  import opened Options

  const FIRST_YEAR := -262143
  const LAST_YEAR := 262142

  datatype Date = Date(year: int, month: int, day: int)

  predicate Leap(y: int) {
    y % 4 == 0 && (y % 100 != 0 || y % 400 == 0)
  }

  function MonthLength(y: int, m: int): (r: int)
    requires 1 <= m <= 12
    ensures 28 <= r <= 31
  {
    if m == 2 then if Leap(y) then 29 else 28
    else if m == 4 || m == 6 || m == 9 || m == 11 then 30
    else 31
  }

  /** Apart from February, months have 31 and 30 days by turns, and 31 twice as the
      eighth begins. */
  lemma MonthsAlternate(y: int, m: int)
    requires 1 <= m <= 12 && m != 2
    ensures MonthLength(y, m) == 30 + (m + m / 8) % 2
  {
  }

  predicate Valid(d: Date) {
    FIRST_YEAR <= d.year <= LAST_YEAR && 1 <= d.month <= 12 && 1 <= d.day <= MonthLength(d.year, d.month)
  }

  /** The day after, None past the end of the calendar. */
  function Next(d: Date): (r: Option<Date>)
    requires Valid(d)
    ensures r.Some? ==> Valid(r.value)
  {
    if d.day < MonthLength(d.year, d.month) then Some(d.(day := d.day + 1))
    else if d.month < 12 then Some(Date(d.year, d.month + 1, 1))
    else if d.year < LAST_YEAR then Some(Date(d.year + 1, 1, 1))
    else None
  }

  /** The day before, None before the calendar begins. */
  function Previous(d: Date): (r: Option<Date>)
    requires Valid(d)
    ensures r.Some? ==> Valid(r.value)
  {
    if d.day > 1 then Some(d.(day := d.day - 1))
    else if d.month > 1 then Some(Date(d.year, d.month - 1, MonthLength(d.year, d.month - 1)))
    else if d.year > FIRST_YEAR then Some(Date(d.year - 1, 12, 31))
    else None
  }

  lemma PreviousUndoesNext(d: Date)
    requires Valid(d)
    ensures Next(d).Some? ==> Previous(Next(d).value) == Some(d)
    ensures Previous(d).Some? ==> Next(Previous(d).value) == Some(d)
  {
  }

  /** A date, if the calendar has it. */
  function FromYmd(year: int, month: int, day: int): Option<Date> {
    var d := Date(year, month, day);
    if Valid(d) then Some(d) else None
  }

  /** Days of the year before a month begins. */
  function DaysBefore(y: int, m: int): int
    requires 1 <= m <= 12
  {
    if m == 1 then 0 else DaysBefore(y, m - 1) + MonthLength(y, m - 1)
  }

  /** Leap years before a year, counted from the year 1. */
  function LeapsBefore(y: int): int {
    (y - 1) / 4 - (y - 1) / 100 + (y - 1) / 400
  }

  function YearStart(y: int): int {
    365 * y + LeapsBefore(y)
  }

  /** The number of a day; consecutive days have consecutive numbers. */
  function Number(d: Date): int
    requires Valid(d)
  {
    YearStart(d.year) + DaysBefore(d.year, d.month) + d.day
  }

  /** Earlier by year, then month, then day. */
  predicate Earlier(a: Date, b: Date) {
    a.year < b.year || (a.year == b.year && (a.month < b.month || (a.month == b.month && a.day < b.day)))
  }

  lemma LeapAdds(y: int)
    ensures LeapsBefore(y + 1) == LeapsBefore(y) + if Leap(y) then 1 else 0
  {
    FoursAdd(y);
    HundredsAdd(y);
    FourHundredsAdd(y);
    assert y % 400 == 0 ==> y % 100 == 0;
    assert y % 100 == 0 ==> y % 4 == 0;
  }

  lemma FoursAdd(y: int)
    ensures y / 4 == (y - 1) / 4 + if y % 4 == 0 then 1 else 0
  {
  }

  lemma HundredsAdd(y: int)
    ensures y / 100 == (y - 1) / 100 + if y % 100 == 0 then 1 else 0
  {
  }

  lemma FourHundredsAdd(y: int)
    ensures y / 400 == (y - 1) / 400 + if y % 400 == 0 then 1 else 0
  {
  }

  lemma YearHas(y: int)
    ensures DaysBefore(y, 12) + 31 == if Leap(y) then 366 else 365
  {
    assert DaysBefore(y, 1) == 0;
    assert DaysBefore(y, 2) == 31;
    assert DaysBefore(y, 3) == 31 + MonthLength(y, 2);
    assert DaysBefore(y, 4) == 62 + MonthLength(y, 2);
    assert DaysBefore(y, 5) == 92 + MonthLength(y, 2);
    assert DaysBefore(y, 6) == 123 + MonthLength(y, 2);
    assert DaysBefore(y, 7) == 153 + MonthLength(y, 2);
    assert DaysBefore(y, 8) == 184 + MonthLength(y, 2);
    assert DaysBefore(y, 9) == 215 + MonthLength(y, 2);
    assert DaysBefore(y, 10) == 245 + MonthLength(y, 2);
    assert DaysBefore(y, 11) == 276 + MonthLength(y, 2);
  }

  /** The day after has the next number. */
  lemma NextIsNumbered(d: Date)
    requires Valid(d) && Next(d).Some?
    ensures Number(Next(d).value) == Number(d) + 1
  {
    if d.day == MonthLength(d.year, d.month) && d.month == 12 {
      LeapAdds(d.year);
      YearHas(d.year);
    }
  }

  lemma {:induction false} MonthsAdd(y: int, m: int, n: int)
    requires 1 <= m < n <= 12
    ensures DaysBefore(y, m) + MonthLength(y, m) <= DaysBefore(y, n)
    decreases n - m
  {
    if m + 1 < n {
      MonthsAdd(y, m, n - 1);
    }
  }

  lemma {:induction false} YearsAdd(y: int, z: int)
    requires y < z
    ensures YearStart(y) + (if Leap(y) then 366 else 365) <= YearStart(z)
    decreases z - y
  {
    LeapAdds(z - 1);
    if y + 1 < z {
      YearsAdd(y, z - 1);
    }
  }

  lemma NumberInYear(d: Date)
    requires Valid(d)
    ensures YearStart(d.year) < Number(d) <= YearStart(d.year) + if Leap(d.year) then 366 else 365
  {
    YearHas(d.year);
    if d.month < 12 {
      MonthsAdd(d.year, d.month, 12);
    }
    if 1 < d.month {
      MonthsAdd(d.year, 1, d.month);
    }
  }

  /** The order of days is the order of their numbers. */
  lemma EarlierIsLess(a: Date, b: Date)
    requires Valid(a) && Valid(b)
    ensures Earlier(a, b) <==> Number(a) < Number(b)
    ensures a == b <==> Number(a) == Number(b)
  {
    if Earlier(a, b) {
      EarlierHasLess(a, b);
    } else if Earlier(b, a) {
      EarlierHasLess(b, a);
    }
  }

  lemma EarlierHasLess(a: Date, b: Date)
    requires Valid(a) && Valid(b) && Earlier(a, b)
    ensures Number(a) < Number(b)
  {
    if a.year < b.year {
      YearsAdd(a.year, b.year);
      NumberInYear(a);
      NumberInYear(b);
    } else if a.month < b.month {
      MonthsAdd(a.year, a.month, b.month);
    }
  }

  lemma LastHasNoNext(d: Date)
    requires Valid(d)
    ensures Next(d).None? <==> d == Date(LAST_YEAR, 12, 31)
  {
  }

  /** Every number between two days is some day's. */
  lemma {:induction false} DayBetween(a: Date, b: Date, n: int) returns (d: Date)
    requires Valid(a) && Valid(b) && Number(a) <= n <= Number(b)
    ensures Valid(d) && Number(d) == n
    decreases n - Number(a)
  {
    d := a;
    if Number(a) < n {
      EarlierIsLess(a, b);
      LastHasNoNext(a);
      NextIsNumbered(a);
      d := DayBetween(Next(a).value, b, n);
    }
  }

  /** The calendar is shorter than 2 to the 32 days. */
  lemma CalendarIsShort(a: Date, b: Date)
    requires Valid(a) && Valid(b)
    ensures Number(b) - Number(a) < 4294967294
  {
    NumberInYear(a);
    NumberInYear(b);
  }
}
