/** Spans of whole minutes, hours or days. Moments are seconds since the epoch. */
module Offsets {
  import opened Options

  type Time = int

  /** The last second of the year 262142, past which no date can be held. */
  const MAX_TIME: Time := 8_210_266_876_799

  datatype OffsetUnit = Minutes | Hours | Days

  datatype Offset = Offset(amount: nat, unit: OffsetUnit)

  function MinutesOf(u: OffsetUnit): nat {
    match u
    case Minutes => 1
    case Hours => 60
    case Days => 1440
  }

  function Seconds(o: Offset): nat {
    o.amount * MinutesOf(o.unit) * 60
  }

  /** The date an offset lands on, None past the calendar. */
  function After(o: Offset, from: Time): Option<Time> {
    if from + Seconds(o) <= MAX_TIME then Some(from + Seconds(o)) else None
  }
}
