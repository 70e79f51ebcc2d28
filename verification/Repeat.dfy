/** When a repeating task fires next, in the local time it was set up in. */
module Repeat {
  import opened Options
  import opened Calendar

  const MAX_U32 := 4294967295

  /** Days of the week from Monday, 0, to Sunday, 6. */
  type Weekday = n: nat | n < 7

  datatype Rule =
    | EveryDays(every: nat, from: Date)
    | Weekdays(days: seq<Weekday>)
    | DayOfMonth(day: nat)
    | FixedDate(date: Date)

  /** A local date and the second of that day. */
  datatype Moment = Moment(date: Date, second: nat)

  predicate ValidMoment(m: Moment) {
    Calendar.Valid(m.date) && m.second < 86400
  }

  predicate Later(a: Moment, b: Moment) {
    Earlier(b.date, a.date) || (a.date == b.date && a.second > b.second)
  }

  /** What a rule is checked for when it is saved. */
  predicate ValidRule(r: Rule) {
    match r
    case EveryDays(every, from) => 1 <= every <= MAX_U32 && Calendar.Valid(from)
    case Weekdays(days) => days != []
    case DayOfMonth(day) => 1 <= day <= 31
    case FixedDate(date) => Calendar.Valid(date)
  }

  function WeekdayOf(d: Date): Weekday
    requires Calendar.Valid(d)
  {
    (Number(d) + 5) % 7
  }

  function FirstOfNextMonth(d: Date): Option<Date> {
    if d.month == 12 then FromYmd(d.year + 1, 1, 1) else FromYmd(d.year, d.month + 1, 1)
  }

  /** How long a date's month is taken to be: the day before the first of the next
      month has that number, and without such a day it is 28. */
  function DaysInMonth(d: Date): (r: int)
    requires Calendar.Valid(d)
    ensures 28 <= r <= MonthLength(d.year, d.month)
  {
    match FirstOfNextMonth(d)
    case None => 28
    case Some(first) =>
      match Previous(first)
      case None => 28
      case Some(last) => last.day
  }

  /** That is the month's length except in the last month of the calendar, which
      has no next one: its 31st is taken to fall on the 28th. */
  lemma OneMonthIsShort(d: Date)
    requires Calendar.Valid(d)
    ensures DaysInMonth(d) == MonthLength(d.year, d.month) <==> !(d.month == 12 && d.year == LAST_YEAR)
  {
    var last := Date(d.year, d.month, MonthLength(d.year, d.month));
    assert Next(last) == FirstOfNextMonth(d);
    PreviousUndoesNext(last);
  }

  lemma LastDayComesEarly()
    ensures Calendar.Valid(Date(LAST_YEAR, 12, 28)) && Calendar.Valid(Date(LAST_YEAR, 12, 31))
    ensures Matches(DayOfMonth(31), Date(LAST_YEAR, 12, 28)) && !Matches(DayOfMonth(31), Date(LAST_YEAR, 12, 31))
  {
  }

  predicate Matches(r: Rule, d: Date)
    requires ValidRule(r) && Calendar.Valid(d)
  {
    match r
    case EveryDays(every, from) => !Earlier(d, from) && (Number(d) - Number(from)) % every == 0
    case Weekdays(days) => WeekdayOf(d) in days
    case DayOfMonth(day) => d.day == if day < DaysInMonth(d) then day else DaysInMonth(d)
    case FixedDate(date) => d == date
  }

  /** The number of days within which `MatchAhead` finds one. */
  function Horizon(r: Rule): nat {
    match r
    case EveryDays(every, _) => if every < MAX_U32 then every + 1 else MAX_U32
    case Weekdays(_) => 8
    case DayOfMonth(_) => 32
    case FixedDate(_) => 1
  }

  /** A moment the rule fires at. */
  predicate Occurs(r: Rule, at: nat, m: Moment)
    requires ValidRule(r)
  {
    ValidMoment(m) && m.second == at && Matches(r, m.date)
  }

  /** The first moment the rule fires at after `local`, or that there is none. */
  ghost predicate IsNext(r: Rule, at: nat, local: Moment, next: Option<Moment>)
    requires ValidRule(r)
  {
    match next
    case Some(m) => Occurs(r, at, m) && Later(m, local) && forall x :: Occurs(r, at, x) && Later(x, local) ==> !Later(m, x)
    case None => forall x :: Occurs(r, at, x) ==> !Later(x, local)
  }

  /** Where the search begins. */
  function From(r: Rule, local: Moment): Date {
    match r
    case FixedDate(date) => date
    case EveryDays(_, from) => if Earlier(local.date, from) then from else local.date
    case _ => local.date
  }

  method NextFireAfter(r: Rule, at: nat, local: Moment) returns (next: Option<Moment>)
    requires ValidRule(r) && at < 86400 && ValidMoment(local)
    ensures IsNext(r, at, local, next)
  {
    var date := local.date;
    var upto := Horizon(r);
    match r {
      case FixedDate(d) =>
        if Earlier(d, date) {
          return None;
        }
        date := d;
      case EveryDays(_, from) =>
        if Earlier(date, from) {
          date := from;
        }
      case _ =>
    }
    ghost var first := date;
    NothingBefore(r, at, local);
    for i := 0 to upto
      invariant Calendar.Valid(date) && first == From(r, local) && Number(date) == Number(first) + i
      invariant NoneUpTo(r, at, local, Number(date))
    {
      if Matches(r, date) {
        var naive := Moment(date, at);
        if Later(naive, local) {
          FirstFound(r, at, local, date);
          return Some(naive);
        }
      }
      OneMore(r, at, local, date);
      var succ := Next(date);
      if succ.None? {
        NothingAfterTheEnd(r, at, local, date);
        return None;
      }
      NextIsNumbered(date);
      date := succ.value;
    }
    HorizonIsFarEnough(r, at, local, first, date);
    next := None;
  }

  /** No occurrence after `local` lies on a day numbered below `n`. */
  ghost predicate NoneUpTo(r: Rule, at: nat, local: Moment, n: int)
    requires ValidRule(r)
  {
    forall x :: Occurs(r, at, x) && Later(x, local) ==> n <= Number(x.date)
  }

  lemma NothingBefore(r: Rule, at: nat, local: Moment)
    requires ValidRule(r) && ValidMoment(local)
    ensures Calendar.Valid(From(r, local)) && NoneUpTo(r, at, local, Number(From(r, local)))
  {
    forall x | Occurs(r, at, x) && Later(x, local) ensures Number(From(r, local)) <= Number(x.date) {
      EarlierIsLess(local.date, x.date);
      EarlierIsLess(x.date, From(r, local));
    }
  }

  lemma OneMore(r: Rule, at: nat, local: Moment, date: Date)
    requires ValidRule(r) && ValidMoment(local) && Calendar.Valid(date)
    requires NoneUpTo(r, at, local, Number(date))
    requires !(Matches(r, date) && Later(Moment(date, at), local))
    ensures NoneUpTo(r, at, local, Number(date) + 1)
  {
    forall x | Occurs(r, at, x) && Later(x, local) ensures Number(date) + 1 <= Number(x.date) {
      EarlierIsLess(date, x.date);
    }
  }

  lemma FirstFound(r: Rule, at: nat, local: Moment, date: Date)
    requires ValidRule(r) && at < 86400 && ValidMoment(local) && Calendar.Valid(date)
    requires NoneUpTo(r, at, local, Number(date)) && Matches(r, date) && Later(Moment(date, at), local)
    ensures IsNext(r, at, local, Some(Moment(date, at)))
  {
    forall x | Occurs(r, at, x) && Later(x, local) ensures !Later(Moment(date, at), x) {
      EarlierIsLess(x.date, date);
    }
  }

  lemma NothingAfterTheEnd(r: Rule, at: nat, local: Moment, date: Date)
    requires ValidRule(r) && ValidMoment(local) && Calendar.Valid(date) && Next(date).None?
    requires NoneUpTo(r, at, local, Number(date) + 1)
    ensures IsNext(r, at, local, None)
  {
    LastHasNoNext(date);
    forall x | Occurs(r, at, x) ensures !Later(x, local) {
      EarlierIsLess(date, x.date);
    }
  }

  /** A day the rule matches, no further off than its horizon. */
  lemma MatchAhead(r: Rule, first: Date, end: Date) returns (d: Date)
    requires ValidRule(r) && !r.FixedDate? && Calendar.Valid(first) && Calendar.Valid(end)
    requires r.EveryDays? ==> !Earlier(first, r.from)
    requires Number(end) == Number(first) + Horizon(r)
    ensures Calendar.Valid(d) && Matches(r, d) && Number(first) < Number(d) < Number(end)
  {
    match r {
      case EveryDays(every, from) => d := EveryAhead(every, from, first, end);
      case Weekdays(days) => d := WeekdayAhead(days, first, end);
      case DayOfMonth(day) => d := DayAhead(day, first, end);
    }
  }

  lemma EveryAhead(every: nat, from: Date, first: Date, end: Date) returns (d: Date)
    requires ValidRule(EveryDays(every, from)) && Calendar.Valid(first) && Calendar.Valid(end)
    requires !Earlier(first, from) && Number(end) == Number(first) + Horizon(EveryDays(every, from))
    ensures Calendar.Valid(d) && Matches(EveryDays(every, from), d) && Number(first) < Number(d) < Number(end)
  {
    CalendarIsShort(first, end);
    EarlierIsLess(first, from);
    var k := (Number(first) - Number(from)) % every;
    d := DayBetween(first, end, Number(first) + (every - k));
    NextMultiple(Number(first) - Number(from), every);
    EarlierIsLess(d, from);
  }

  lemma NextMultiple(n: int, every: nat)
    requires 0 <= n && 0 < every
    ensures (n + (every - n % every)) % every == 0
  {
    var q := n / every;
    var x := n + (every - n % every);
    assert n == every * q + n % every;
    assert every * (q + 1) == every * q + every;
    OnlyRest(x, every, q + 1, 0);
  }

  /** The remainder is the only one there is. */
  lemma OnlyRest(x: int, e: int, q: int, rest: int)
    requires 0 < e && 0 <= rest < e && x == e * q + rest
    ensures x % e == rest
  {
    var k := x / e - q;
    assert x == e * (x / e) + x % e;
    assert e * (x / e) == e * q + e * k;
    FarMultiple(e, k);
  }

  lemma FarMultiple(e: int, k: int)
    requires 0 < e
    ensures k >= 1 ==> e * k >= e
    ensures k <= -1 ==> e * k <= -e
  {
    if k >= 1 {
      assert e * (k - 1) >= 0;
    } else if k <= -1 {
      assert e * (-1 - k) >= 0;
    }
  }

  lemma WeekdayAhead(days: seq<Weekday>, first: Date, end: Date) returns (d: Date)
    requires days != [] && Calendar.Valid(first) && Calendar.Valid(end) && Number(end) == Number(first) + 8
    ensures Calendar.Valid(d) && Matches(Weekdays(days), d) && Number(first) < Number(d) < Number(end)
  {
    var n := Number(first) + 1;
    var k := (days[0] - (n + 5)) % 7;
    d := DayBetween(first, end, n + k);
    assert (n + k + 5) % 7 == days[0];
  }

  /** This month's day, or the next month's. */
  lemma DayAhead(day: nat, first: Date, end: Date) returns (d: Date)
    requires 1 <= day <= 31 && Calendar.Valid(first) && Calendar.Valid(end) && Number(end) == Number(first) + 32
    ensures Calendar.Valid(d) && Matches(DayOfMonth(day), d) && Number(first) < Number(d) < Number(end)
  {
    EarlierIsLess(first, end);
    LastHasNoNext(first);
    NextIsNumbered(first);
    var n := Next(first).value;
    if n.day <= (if day < DaysInMonth(n) then day else DaysInMonth(n)) {
      d := ThisMonthsDay(day, n, end);
    } else {
      d := NextMonthsDay(day, n, end);
    }
  }

  lemma ThisMonthsDay(day: nat, n: Date, end: Date) returns (d: Date)
    requires 1 <= day <= 31 && Calendar.Valid(n) && Calendar.Valid(end) && Number(end) == Number(n) + 31
    requires n.day <= if day < DaysInMonth(n) then day else DaysInMonth(n)
    ensures Calendar.Valid(d) && Matches(DayOfMonth(day), d) && Number(n) <= Number(d) < Number(end)
  {
    var length := DaysInMonth(n);
    d := n.(day := if day < length then day else length);
    assert DaysInMonth(d) == length;
  }

  lemma NextMonthsDay(day: nat, n: Date, end: Date) returns (d: Date)
    requires 1 <= day <= 31 && Calendar.Valid(n) && Calendar.Valid(end) && Number(end) == Number(n) + 31
    requires n.day > if day < DaysInMonth(n) then day else DaysInMonth(n)
    ensures Calendar.Valid(d) && Matches(DayOfMonth(day), d) && Number(n) <= Number(d) < Number(end)
  {
    var last := n.(day := MonthLength(n.year, n.month));
    EarlierIsLess(last, end);
    LastHasNoNext(last);
    NextIsNumbered(last);
    var head := Next(last).value;
    var length := DaysInMonth(head);
    d := head.(day := if day < length then day else length);
  }

  /** When no day within the horizon will do, none ever will. */
  lemma HorizonIsFarEnough(r: Rule, at: nat, local: Moment, first: Date, end: Date)
    requires ValidRule(r) && at < 86400 && ValidMoment(local) && Calendar.Valid(end)
    requires first == From(r, local) && Calendar.Valid(first) && Number(end) == Number(first) + Horizon(r)
    requires NoneUpTo(r, at, local, Number(end))
    ensures IsNext(r, at, local, None)
  {
    if r.FixedDate? {
      forall x | Occurs(r, at, x) ensures !Later(x, local) {
      }
    } else {
      EarlierIsLess(first, local.date);
      var d := MatchAhead(r, first, end);
      EarlierIsLess(local.date, d);
      assert Occurs(r, at, Moment(d, at)) && Later(Moment(d, at), local);
      assert false;
    }
  }

  // Firing again and again.

  ghost predicate FiresAt(r: Rule, at: nat, local: Moment, fires: seq<Moment>, i: int)
    requires ValidRule(r) && 0 <= i < |fires|
  {
    IsNext(r, at, if i == 0 then local else fires[i - 1], Some(fires[i]))
  }

  /** Each moment is the next one after the one before it, the first after `local`. */
  ghost predicate Fires(r: Rule, at: nat, local: Moment, fires: seq<Moment>)
    requires ValidRule(r)
  {
    forall i :: 0 <= i < |fires| ==> FiresAt(r, at, local, fires, i)
  }

  lemma LaterIsTotal(a: Moment, b: Moment)
    requires ValidMoment(a) && ValidMoment(b)
    ensures Later(a, b) || Later(b, a) || a == b
  {
    EarlierIsLess(a.date, b.date);
    EarlierIsLess(b.date, a.date);
  }

  /** Firing over and over skips nothing: every occurrence after the beginning
      and up to the last one fired was fired. */
  lemma {:induction false} FiringSkipsNothing(r: Rule, at: nat, local: Moment, fires: seq<Moment>, x: Moment)
    requires ValidRule(r) && ValidMoment(local) && Fires(r, at, local, fires) && fires != []
    requires Occurs(r, at, x) && Later(x, local) && !Later(x, fires[|fires| - 1])
    ensures x in fires
  {
    var k := |fires| - 1;
    assert FiresAt(r, at, local, fires, k);
    LaterIsTotal(x, fires[k]);
    if k > 0 && x != fires[k] {
      assert FiresAt(r, at, local, fires, k - 1);
      forall i | 0 <= i < k ensures FiresAt(r, at, local, fires[..k], i) {
        assert FiresAt(r, at, local, fires, i);
      }
      FiringSkipsNothing(r, at, local, fires[..k], x);
    }
  }
}
