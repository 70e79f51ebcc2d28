/** Which moments a repeat rule fires at, told by the calendar alone. */
module Occurrences {
  import opened Options
  import opened Calendar
  import opened Repeat

  /** A Monday. */
  const A_MONDAY := Date(2024, 1, 1)

  lemma AMondayIsNumbered()
    ensures Calendar.Valid(A_MONDAY) && Number(A_MONDAY) == 739251
  {
    assert DaysBefore(2024, 1) == 0;
  }

  /** The known Monday is an occurrence of the rule for Mondays, and of no other
      rule for one day of the week. */
  lemma MondayIsMonday(w: Weekday, at: nat)
    requires at < 86400
    ensures Occurs(Weekdays([w]), at, Moment(A_MONDAY, at)) <==> w == 0
  {
    AMondayIsNumbered();
  }

  /** The day after an occurrence of one day of the week is one of the next, and of
      no other. */
  lemma WeekdaysFollow(w: Weekday, next: Weekday, at: nat, d: Date)
    requires at < 86400 && Calendar.Valid(d) && Next(d).Some? && Occurs(Weekdays([w]), at, Moment(d, at))
    ensures Occurs(Weekdays([next]), at, Moment(Next(d).value, at)) <==> next == (w + 1) % 7
  {
    NextIsNumbered(d);
    assert Number(Next(d).value) + 5 == Number(d) + 5 + 1;
    RestTurns(Number(d) + 5);
  }

  lemma RestTurns(n: int)
    ensures (n + 1) % 7 == (n % 7 + 1) % 7
  {
    var k := n % 7;
    assert n + 1 == 7 * (n / 7) + (k + 1);
    assert k == 6 ==> n + 1 == 7 * (n / 7 + 1);
  }

  /** So every date is told: a weekday rule fires on it exactly if it lies some
      weeks and one of the rule's days from the known Monday. */
  lemma WeekdayIsCounted(days: seq<Weekday>, at: nat, d: Date)
    requires days != [] && at < 86400 && Calendar.Valid(d)
    ensures Occurs(Weekdays(days), at, Moment(d, at))
       <==> exists w :: w in days && (Number(d) - Number(A_MONDAY)) % 7 == w
  {
    AMondayIsNumbered();
    var w := (Number(d) - Number(A_MONDAY)) % 7;
    assert (Number(d) + 5) % 7 == w;
    assert w in days ==> Matches(Weekdays(days), d);
  }

  /** A rule for every so many days fires on the day it counts from and then
      exactly at that distance. */
  lemma EveryIsMultiple(every: nat, from: Date, at: nat, d: Date)
    requires ValidRule(EveryDays(every, from)) && at < 86400 && Calendar.Valid(d)
    ensures Occurs(EveryDays(every, from), at, Moment(d, at))
       <==> exists k: nat :: Number(d) == Number(from) + Times(k, every)
  {
    EarlierIsLess(d, from);
    var n := Number(d) - Number(from);
    if Occurs(EveryDays(every, from), at, Moment(d, at)) {
      assert n == every * (n / every);
      assert Number(d) == Number(from) + Times(n / every, every);
    }
    if k: nat :| Number(d) == Number(from) + Times(k, every) {
      OnlyRest(n, every, k, 0);
      FarMultiple(every, k);
    }
  }

  function Times(k: nat, n: nat): nat {
    k * n
  }

  /** A rule for a day of the month fires on that day, and in a month without it on
      the last; in the last month of the calendar the 28th is taken for the last. */
  lemma DayOfMonthIs(day: nat, at: nat, d: Date)
    requires ValidRule(DayOfMonth(day)) && at < 86400 && Calendar.Valid(d)
    ensures Occurs(DayOfMonth(day), at, Moment(d, at)) <==>
            if d.year == LAST_YEAR && d.month == 12 then d.day == (if day < 28 then day else 28)
            else d.day == day || (d.day < day && Next(d).Some? && Next(d).value.day == 1)
  {
    OneMonthIsShort(d);
  }

  /** A rule for one date fires on it; and every rule at its own time of day and on
      no day the calendar does not have. */
  lemma OccursOnTheHour(r: Rule, at: nat, m: Moment)
    requires ValidRule(r) && at < 86400
    ensures Occurs(r, at, m) ==> m == Moment(m.date, at) && Calendar.Valid(m.date)
    ensures r.FixedDate? ==> (Occurs(r, at, m) <==> m == Moment(r.date, at))
  {
  }

  function SecondOf(m: Moment): int
    requires ValidMoment(m)
  {
    86400 * Number(m.date) + m.second
  }

  /** Later is more seconds. */
  lemma LaterIsMore(a: Moment, b: Moment)
    requires ValidMoment(a) && ValidMoment(b)
    ensures Later(a, b) <==> SecondOf(a) > SecondOf(b)
  {
    EarlierIsLess(a.date, b.date);
    EarlierIsLess(b.date, a.date);
  }

  /** What comes next, told by the calendar: no occurrence has a second after the
      given moment's and before the one that is returned. */
  lemma NextIsSoonest(r: Rule, at: nat, local: Moment, next: Option<Moment>, m: Moment)
    requires ValidRule(r) && ValidMoment(local) && IsNext(r, at, local, next)
    requires Occurs(r, at, m) && SecondOf(m) > SecondOf(local)
    ensures next.Some? && SecondOf(local) < SecondOf(next.value) <= SecondOf(m)
  {
    LaterIsMore(m, local);
    if next.Some? {
      LaterIsMore(next.value, local);
      LaterIsMore(next.value, m);
    }
  }
}
