/** What a task's trail of column changes says about the time it took. */
module Stats {
  import opened Options
  import opened Offsets
  import opened Transition

  /** One column change: where the task landed, None off the board. */
  datatype Change = Change(at: Time, to: Option<ColumnId>)

  datatype Timings = Timings(
    startedAt: Option<Time>, finishedAt: Option<Time>, timeTaken: Option<int>, wallClock: Option<int>)

  /** Oldest first, and nothing later than `now`. */
  predicate Ordered(trail: seq<Change>, now: Time) {
    forall i :: 0 <= i < |trail| ==> trail[i].at <= EndOf(trail, i, now)
  }

  /** When the stay a change begins ends. */
  function EndOf(trail: seq<Change>, i: nat, now: Time): Time
    requires i < |trail|
  {
    if i + 1 < |trail| then trail[i + 1].at else now
  }

  predicate Into(c: Change, col: ColumnId) {
    c.to == Some(col)
  }

  predicate EndsIn(trail: seq<Change>, col: ColumnId) {
    trail != [] && Into(trail[|trail| - 1], col)
  }

  predicate Ever(trail: seq<Change>, col: ColumnId) {
    exists c :: c in trail && Into(c, col)
  }

  /** The stays in a column added up, each from one change to the next, the
      last one to `now`. */
  function TimeIn(trail: seq<Change>, col: ColumnId, now: Time): int {
    if trail == [] then 0
    else
      var last := trail[|trail| - 1];
      TimeIn(trail[..|trail| - 1], col, last.at) + if Into(last, col) then now - last.at else 0
  }

  /** The first change into a column. */
  function FirstInto(trail: seq<Change>, col: ColumnId): (r: Option<Time>)
    ensures r.Some? <==> Ever(trail, col)
  {
    if trail == [] then None
    else if Into(trail[0], col) then assert trail[0] in trail; Some(trail[0].at)
    else
      assert trail == [trail[0]] + trail[1..];
      FirstInto(trail[1..], col)
  }

  /** Since when a task has been in a column, if it is there. */
  function Since(trail: seq<Change>, col: ColumnId): (r: Option<Time>)
    ensures r.Some? <==> EndsIn(trail, col)
  {
    if !EndsIn(trail, col) then None
    else
      var before := trail[..|trail| - 1];
      if EndsIn(before, col) then Since(before, col) else Some(trail[|trail| - 1].at)
  }

  function Max(a: int, b: int): int {
    if a < b then b else a
  }

  lemma {:induction false} FirstIntoGrows(trail: seq<Change>, c: Change, col: ColumnId)
    ensures FirstInto(trail + [c], col) ==
            if FirstInto(trail, col).Some? then FirstInto(trail, col) else if Into(c, col) then Some(c.at) else None
  {
    if trail == [] {
      assert trail + [c] == [c];
    } else {
      FirstIntoGrows(trail[1..], c, col);
      assert (trail + [c])[1..] == trail[1..] + [c];
    }
  }

  lemma TimeInGrows(trail: seq<Change>, c: Change, col: ColumnId, now: Time)
    ensures TimeIn(trail + [c], col, now) == TimeIn(trail, col, c.at) + if Into(c, col) then now - c.at else 0
  {
    assert (trail + [c])[..|trail|] == trail;
  }

  /** The time so far runs on only while the task is in the column. */
  lemma TimeInRuns(trail: seq<Change>, col: ColumnId, now: Time, later: Time)
    ensures TimeIn(trail, col, later) == TimeIn(trail, col, now) + if EndsIn(trail, col) then later - now else 0
  {
  }

  /** What a trail adds up to. */
  function TimingsOf(trail: seq<Change>, started: ColumnId, finished: ColumnId, now: Time): Timings {
    var first := FirstInto(trail, started);
    var end := if EndsIn(trail, finished) then Some(trail[|trail| - 1].at) else None;
    if first.None? then Timings(None, end, None, None)
    else
      Timings(
        first, end,
        Some(TimeIn(trail, started, if EndsIn(trail, started) then Max(now, Since(trail, started).value) else now)),
        Some(Max((if end.Some? then end.value else now) - first.value, 0)))
  }

  lemma SinceGrows(trail: seq<Change>, c: Change, col: ColumnId)
    ensures Since(trail + [c], col) ==
            if !Into(c, col) then None else if Since(trail, col).Some? then Since(trail, col) else Some(c.at)
  {
    assert (trail + [c])[..|trail|] == trail;
  }

  /** Add up one task's trail. */
  method Measure(trail: seq<Change>, started: ColumnId, finished: ColumnId, now: Time) returns (out: Timings)
    ensures out == TimingsOf(trail, started, finished, now)
  {
    out := Timings(None, None, None, None);
    var total := 0;
    var runningSince: Option<Time> := None;
    for i := 0 to |trail|
      invariant out.startedAt == FirstInto(trail[..i], started)
      invariant out.finishedAt == if EndsIn(trail[..i], finished) then Some(trail[i - 1].at) else None
      invariant out.timeTaken.None? && out.wallClock.None?
      invariant runningSince == Since(trail[..i], started)
      invariant total == TimeIn(trail[..i], started, if runningSince.Some? then runningSince.value else now)
    {
      var t := trail[i];
      ghost var seen := trail[..i];
      assert trail[..i + 1] == seen + [t];
      FirstIntoGrows(seen, t, started);
      SinceGrows(seen, t, started);
      var enteringStarted := t.to == Some(started);
      if runningSince.Some? && !enteringStarted {
        TimeInRuns(seen, started, runningSince.value, t.at);
        total := total + (t.at - runningSince.value);
        runningSince := None;
      } else {
        TimeInRuns(seen, started, if runningSince.Some? then runningSince.value else now, t.at);
      }
      if enteringStarted && runningSince.None? {
        runningSince := Some(t.at);
        if out.startedAt.None? {
          out := out.(startedAt := Some(t.at));
        }
      }
      out := out.(finishedAt := if t.to == Some(finished) then Some(t.at) else None);
      TimeInGrows(seen, t, started, if runningSince.Some? then runningSince.value else now);
    }
    assert trail[..|trail|] == trail;
    if runningSince.Some? {
      TimeInRuns(trail, started, runningSince.value, Max(now, runningSince.value));
      total := total + (Max(now, runningSince.value) - runningSince.value);
    }
    if out.startedAt.Some? {
      out := out.(timeTaken := Some(total));
      var end := if out.finishedAt.Some? then out.finishedAt.value else now;
      out := out.(wallClock := Some(Max(end - out.startedAt.value, 0)));
    }
  }

  // What the numbers mean, for an ordered trail.

  lemma {:induction false} OrderedPrefix(trail: seq<Change>, now: Time)
    requires trail != [] && Ordered(trail, now)
    ensures Ordered(trail[..|trail| - 1], trail[|trail| - 1].at) && trail[|trail| - 1].at <= now
  {
    var k := |trail| - 1;
    assert trail[k].at <= EndOf(trail, k, now);
    forall i | 0 <= i < k ensures trail[..k][i].at <= EndOf(trail[..k], i, trail[k].at) {
      assert trail[i].at <= EndOf(trail, i, now);
    }
  }

  lemma {:induction false} SinceIsPast(trail: seq<Change>, col: ColumnId, now: Time)
    requires Ordered(trail, now) && EndsIn(trail, col)
    ensures Since(trail, col).value <= now
  {
    OrderedPrefix(trail, now);
    if EndsIn(trail[..|trail| - 1], col) {
      SinceIsPast(trail[..|trail| - 1], col, trail[|trail| - 1].at);
    }
  }

  /** The column a task is in at a moment, None before its first change. */
  function ColumnAt(trail: seq<Change>, moment: Time): Option<ColumnId> {
    if trail == [] then None
    else if trail[|trail| - 1].at <= moment then trail[|trail| - 1].to
    else ColumnAt(trail[..|trail| - 1], moment)
  }

  /** The seconds from `low` up to `high` at which a task is in a column. */
  function SecondsIn(trail: seq<Change>, col: ColumnId, low: Time, high: Time): nat
    decreases high - low
  {
    if high <= low then 0
    else SecondsIn(trail, col, low, high - 1) + if ColumnAt(trail, high - 1) == Some(col) then 1 else 0
  }

  lemma {:induction false} SecondsBefore(trail: seq<Change>, col: ColumnId, low: Time, high: Time)
    requires trail != [] && high <= trail[|trail| - 1].at
    ensures SecondsIn(trail, col, low, high) == SecondsIn(trail[..|trail| - 1], col, low, high)
    decreases high - low
  {
    if low < high {
      SecondsBefore(trail, col, low, high - 1);
    }
  }

  lemma {:induction false} SecondsAfter(trail: seq<Change>, col: ColumnId, low: Time, high: Time)
    requires trail != [] && low <= trail[|trail| - 1].at <= high
    ensures SecondsIn(trail, col, low, high)
         == SecondsIn(trail, col, low, trail[|trail| - 1].at)
          + if EndsIn(trail, col) then high - trail[|trail| - 1].at else 0
    decreases high - low
  {
    if trail[|trail| - 1].at < high {
      SecondsAfter(trail, col, low, high - 1);
    }
  }

  /** The time in a column is the number of seconds at which the task was there. */
  lemma {:induction false} TimeInIsSeconds(trail: seq<Change>, col: ColumnId, low: Time, now: Time)
    requires Ordered(trail, now) && (trail != [] ==> low <= trail[0].at) && low <= now
    ensures TimeIn(trail, col, now) == SecondsIn(trail, col, low, now)
  {
    if trail == [] {
      NowhereBefore(trail, col, low, now);
    } else {
      var k := |trail| - 1;
      OrderedPrefix(trail, now);
      LowIsLow(trail, now, low, k);
      TimeInIsSeconds(trail[..k], col, low, trail[k].at);
      SecondsBefore(trail, col, low, trail[k].at);
      SecondsAfter(trail, col, low, now);
    }
  }

  lemma {:induction false} LowIsLow(trail: seq<Change>, now: Time, low: Time, i: nat)
    requires Ordered(trail, now) && i < |trail| && low <= trail[0].at
    ensures low <= trail[i].at
  {
    if i > 0 {
      LowIsLow(trail, now, low, i - 1);
    }
  }

  lemma {:induction false} NowhereBefore(trail: seq<Change>, col: ColumnId, low: Time, high: Time)
    requires trail == []
    ensures SecondsIn(trail, col, low, high) == 0
    decreases high - low
  {
    if low < high {
      NowhereBefore(trail, col, low, high - 1);
    }
  }

  /** A change into the column the task is in already adds nothing and takes
      nothing away, wherever it stands in the trail. */
  lemma {:induction false} RepeatsChangeNothing(a: seq<Change>, b: seq<Change>, c: Change, col: ColumnId, now: Time)
    requires a != [] && a[|a| - 1].to == c.to
    ensures TimeIn(a + [c] + b, col, now) == TimeIn(a + b, col, now)
    ensures FirstInto(a + [c] + b, col) == FirstInto(a + b, col)
  {
    if b == [] {
      assert a + [c] + b == a + [c] && a + b == a;
      TimeInGrows(a, c, col, now);
      TimeInRuns(a, col, c.at, now);
      FirstIntoGrows(a, c, col);
      assert a[|a| - 1] in a;
    } else {
      var k := |b| - 1;
      RepeatsChangeNothing(a, b[..k], c, col, b[k].at);
      assert a + [c] + b == (a + [c] + b[..k]) + [b[k]] && a + b == (a + b[..k]) + [b[k]];
      TimeInGrows(a + [c] + b[..k], b[k], col, now);
      TimeInGrows(a + b[..k], b[k], col, now);
      FirstIntoGrows(a + [c] + b[..k], b[k], col);
      FirstIntoGrows(a + b[..k], b[k], col);
    }
  }

  /** The time in a column never exceeds the time since it was first entered,
      and never falls below zero. */
  lemma {:induction false} TimeInIsBounded(trail: seq<Change>, col: ColumnId, now: Time)
    requires Ordered(trail, now)
    ensures 0 <= TimeIn(trail, col, now)
    ensures if Ever(trail, col) then FirstInto(trail, col).value <= now
                                     && TimeIn(trail, col, now) <= now - FirstInto(trail, col).value
            else TimeIn(trail, col, now) == 0
  {
    if trail != [] {
      var k := |trail| - 1;
      OrderedPrefix(trail, now);
      TimeInIsBounded(trail[..k], col, trail[k].at);
      assert trail == trail[..k] + [trail[k]];
      FirstIntoGrows(trail[..k], trail[k], col);
    }
  }

  /** What is measured of an ordered trail: the seconds in the started column,
      if it was ever entered, and never more than the wall clock shows. */
  lemma OrderedTimings(trail: seq<Change>, started: ColumnId, finished: ColumnId, now: Time)
    requires Ordered(trail, now) && started != finished
    ensures var out := TimingsOf(trail, started, finished, now);
            (out.timeTaken.Some? <==> Ever(trail, started)) && (out.wallClock.Some? <==> Ever(trail, started))
            && (Ever(trail, started) ==>
                  out.timeTaken == Some(SecondsIn(trail, started, trail[0].at, now))
                  && 0 <= out.timeTaken.value <= out.wallClock.value <= now - out.startedAt.value)
  {
    if Ever(trail, started) {
      var k := |trail| - 1;
      OrderedPrefix(trail, now);
      LowIsLow(trail, now, trail[0].at, k);
      TimeInIsSeconds(trail, started, trail[0].at, now);
      TimeInIsBounded(trail, started, now);
      if EndsIn(trail, started) {
        SinceIsPast(trail, started, now);
      }
      if EndsIn(trail, finished) {
        TimeInIsBounded(trail[..k], started, trail[k].at);
        assert trail == trail[..k] + [trail[k]];
        FirstIntoGrows(trail[..k], trail[k], started);
      }
    }
  }
}
