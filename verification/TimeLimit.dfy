/** A step task with a time limit, moved back and forth between started and
    paused: its due date keeps exactly the time it may still be worked on, by
    itself and in a run with everything else going on. */
module TimeLimit {
  import opened Options
  import opened Ids
  import opened Offsets
  import opened Program
  import opened Transition
  import opened Runs
  import opened RunInvariants
  import opened Stats

  /** One move of a task of a live run, and what it does to the task's row. */
  function Moved(board: Board, row: Row, to: ColumnId, at: Time): Row {
    match PlanMove(board, row.archived, row.column, row.finishedAt, to, [], false, at)
    case Err(_) => row
    case Ok(plan) => MovedRow(board, row, plan, true, at)
  }

  /** After all the moves of a trail, oldest first. */
  function Worked(board: Board, row: Row, trail: seq<Change>): Row {
    if trail == [] then row
    else
      var last := trail[|trail| - 1];
      var before := Worked(board, row, trail[..|trail| - 1]);
      if last.to.Some? then Moved(board, before, last.to.value, last.at) else before
  }

  /** Started first, then only between started and paused. */
  predicate Working(board: Board, trail: seq<Change>) {
    && trail != [] && Into(trail[0], board.started)
    && forall i :: 0 <= i < |trail| ==> Into(trail[i], board.started) || Into(trail[i], board.paused)
  }

  predicate WorkBoard(board: Board) {
    && board.started != board.paused && board.started != board.finished && board.paused != board.finished
    && board.started in board.columns && board.paused in board.columns
  }

  /** A task with a limit, not yet started, whose due date the calendar holds. */
  predicate Fresh(board: Board, row: Row, start: Time) {
    && !row.archived && row.column != board.started && row.dueAt.None?
    && row.limit.Some? && After(row.limit.value, start).Some?
  }

  /** What the row remembers along the way. */
  predicate KeepsTime(board: Board, row0: Row, trail: seq<Change>)
    requires trail != [] && row0.limit.Some?
  {
    var row, limit := Worked(board, row0, trail), Seconds(row0.limit.value);
    && !row.archived && row.limit == row0.limit && Some(row.column) == trail[|trail| - 1].to
    && (row.column == board.paused ==> row.pausedAt.Some?)
    && row.dueAt == Some(
         trail[0].at + limit
         + TimeIn(trail, board.paused, if row.column == board.paused then row.pausedAt.value else trail[|trail| - 1].at))
  }

  lemma FirstMove(board: Board, row0: Row, trail: seq<Change>)
    requires WorkBoard(board) && Working(board, trail) && |trail| == 1 && Fresh(board, row0, trail[0].at)
    ensures KeepsTime(board, row0, trail)
  {
    assert trail[..0] == [];
    assert Worked(board, row0, []) == row0;
  }

  lemma NextMove(board: Board, row0: Row, trail: seq<Change>)
    requires WorkBoard(board) && Working(board, trail) && |trail| > 1 && row0.limit.Some?
    requires KeepsTime(board, row0, trail[..|trail| - 1])
    ensures KeepsTime(board, row0, trail)
  {
    var k := |trail| - 1;
    var before := trail[..k];
    var row := Worked(board, row0, before);
    assert Into(trail[k], board.started) || Into(trail[k], board.paused);
    assert Into(trail[k - 1], board.started) || Into(trail[k - 1], board.paused);
    if row.column == board.paused {
      TimeInRuns(before, board.paused, row.pausedAt.value, trail[k].at);
    } else {
      TimeInRuns(before, board.paused, before[k - 1].at, trail[k].at);
    }
  }

  lemma {:induction false} WorkKeepsTime(board: Board, row0: Row, trail: seq<Change>)
    requires WorkBoard(board) && Working(board, trail) && Fresh(board, row0, trail[0].at)
    ensures KeepsTime(board, row0, trail)
  {
    if |trail| == 1 {
      FirstMove(board, row0, trail);
    } else {
      WorkKeepsTime(board, row0, trail[..|trail| - 1]);
      NextMove(board, row0, trail);
    }
  }

  /** While the task is started its due date is the first start, the limit and
      the time it was paused. */
  lemma DueIsStartLimitPauses(board: Board, row0: Row, trail: seq<Change>, now: Time)
    requires WorkBoard(board) && Working(board, trail) && Fresh(board, row0, trail[0].at)
    requires EndsIn(trail, board.started)
    ensures Worked(board, row0, trail).dueAt
         == Some(trail[0].at + Seconds(row0.limit.value) + TimeIn(trail, board.paused, now))
  {
    WorkKeepsTime(board, row0, trail);
    TimeInRuns(trail, board.paused, trail[|trail| - 1].at, now);
  }

  /** The time since the first start is the time started and the time paused. */
  lemma {:induction false} WorkIsStartedOrPaused(board: Board, trail: seq<Change>, now: Time)
    requires WorkBoard(board) && Working(board, trail)
    ensures TimeIn(trail, board.started, now) + TimeIn(trail, board.paused, now) == now - trail[0].at
  {
    var k := |trail| - 1;
    assert Into(trail[k], board.started) || Into(trail[k], board.paused);
    if k == 0 {
      assert trail[..0] == [];
    } else {
      WorkIsStartedOrPaused(board, trail[..k], trail[k].at);
    }
  }

  /** While it is started, what is left until it is due is its limit less the
      time the statistics count. */
  lemma TimeLeftIsLimitLessTaken(board: Board, row0: Row, trail: seq<Change>, now: Time)
    requires WorkBoard(board) && Working(board, trail) && Fresh(board, row0, trail[0].at)
    requires EndsIn(trail, board.started) && Ordered(trail, now)
    ensures var due, timings := Worked(board, row0, trail).dueAt, TimingsOf(trail, board.started, board.finished, now);
            due.Some? && timings.timeTaken.Some?
            && due.value - now == Seconds(row0.limit.value) - timings.timeTaken.value
  {
    DueIsStartLimitPauses(board, row0, trail, now);
    WorkIsStartedOrPaused(board, trail, now);
    SinceIsPast(trail, board.started, now);
    assert trail[0] in trail;
  }

  // The same in a run, among everything else that happens to it.

  /** Whether a move is the root's first start. */
  predicate StartsRun(env: Setting, s: RunState, i: nat, to: ColumnId)
    requires |s.rows| > 0
  {
    i == 0 && to == env.board.started && s.startedAt.None? && s.rows[0].column != env.board.started
  }

  /** A move between columns of work does to the run's row what is counted here.
      It sets nothing else off, unless it is the root's first start: that may be
      refused, and is an event for the run. */
  lemma MoveIsCounted(
    env: Setting, s: RunState, i: nat, to: ColumnId, answer: Option<string>, overriding: bool, now: Time)
    requires ValidSetting(env) && Shape(env, s) && Active(s) && i < |s.rows| && !s.rows[i].archived
    requires to == env.board.started || to == env.board.paused
    ensures var moved := s.(rows := Update(s.rows, s.rows[i].id, Moved(env.board, s.rows[i], to, now)));
            MoveTask(env, s, s.rows[i].id, to, answer, overriding, now)
            == if StartsRun(env, s, i, to)
               then Outcome(env, Handed(moved.(startedAt := Some(now)), RootStarts), now) else Ok(moved)
  {
    var row, id := s.rows[i], s.rows[i].id;
    FindAt(s.rows, i);
    assert i > 0 ==> RowOk(env, row);
    var plan := MovePlan(row.column, to, if row.column == env.board.finished then None else row.finishedAt, []);
    assert PlanFor(env, s, row, to, overriding, now) == Ok(plan);
    WorkIsHandedOver(env, s, i, plan, answer, now);
  }

  lemma WorkIsHandedOver(env: Setting, s: RunState, i: nat, plan: MovePlan, answer: Option<string>, now: Time)
    requires ValidSetting(env) && Shape(env, s) && Active(s) && i < |s.rows|
    requires plan.from == s.rows[i].column && (plan.to == env.board.started || plan.to == env.board.paused)
    ensures var row := s.rows[i];
            var moved := s.(rows := Update(s.rows, row.id, MovedRow(env.board, row, plan, true, now)));
            HandOver(env, s, row, plan, answer, now)
            == if StartsRun(env, s, i, plan.to) then Handed(moved.(startedAt := Some(now)), RootStarts) else Kept(moved)
  {
    assert i > 0 ==> RowOk(env, s.rows[i]);
  }

  /** The moves of a task, as its history has them. */
  function TrailOf(id: TaskId, ops: seq<Op>): seq<Change> {
    if ops == [] then []
    else
      var op := ops[|ops| - 1];
      TrailOf(id, ops[..|ops| - 1])
      + if op.Move? && op.id == id then [Change(op.now, Some(op.to))] else []
  }

  /** Whatever is done to other tasks, to the board, and to the run short of
      throwing its open tasks away. */
  predicate LeavesAlone(op: Op, id: TaskId) {
    match op
    case Move(x, _, _, _, _) => x != id
    case Delete(x, _) => x != id
    case Restore(x) => x != id
    case Archive(x) => x != id
    case Answer(x, _, _) => x != id
    case Cancel(deleteOpen, _) => !deleteOpen
    case _ => true
  }

  predicate IsWork(board: Board, op: Op, id: TaskId) {
    op.Move? && op.id == id && (op.to == board.started || op.to == board.paused)
  }

  /** As far as its time goes, the same row. */
  predicate SameWork(a: Row, b: Row) {
    a.column == b.column && a.archived == b.archived && a.limit == b.limit && a.dueAt == b.dueAt && a.pausedAt == b.pausedAt
  }

  lemma MovedSame(board: Board, a: Row, b: Row, to: ColumnId, at: Time)
    requires SameWork(a, b)
    ensures SameWork(Moved(board, a, to, at), Moved(board, b, to, at))
  {
    NewDueSame(board, a, b, a.column, to, at);
    MovedTimes(board, a, to, at);
    MovedTimes(board, b, to, at);
  }

  lemma NewDueSame(board: Board, a: Row, b: Row, from: ColumnId, to: ColumnId, at: Time)
    requires SameWork(a, b)
    ensures NewDue(board, a, from, to, at) == NewDue(board, b, from, to, at)
  {
  }

  /** What a move leaves of a row's time. */
  lemma MovedTimes(board: Board, row: Row, to: ColumnId, at: Time)
    ensures var r := Moved(board, row, to, at);
            r.archived == row.archived && r.limit == row.limit
            && if row.archived || to !in board.columns then r == row
               else
                 var due := NewDue(board, row, row.column, to, at);
                 r.column == to
                 && r.dueAt == (if row.column != to && due.Some? then due.value else row.dueAt)
                 && r.pausedAt == if row.column == to then row.pausedAt
                                  else if to == board.paused then Some(at) else None
  {
  }

  predicate RootIsOpen(env: Setting, s: RunState) {
    |s.rows| > 0 && !Done(env.board, s.rows[0])
  }

  lemma EventLeavesWork(env: Setting, s: RunState, event: RunEvent, now: Time, i: nat)
    requires ValidSetting(env) && Shape(env, s) && i < |s.rows|
    requires i == 0 ==> RootIsOpen(env, Apply(env, s, event, now))
    ensures var s' := Apply(env, s, event, now);
            i < |s'.rows| && s'.rows[i].id == s.rows[i].id && SameWork(s.rows[i], s'.rows[i])
  {
    var plan := PlanOf(env, s, event, now);
    PlanIsKnown(env, s, event, now);
    EnactedRows(env, s, plan, now);
    NotedKeeps(plan, s.rows[i], now);
    assert i > 0 ==> s.rows[0].id < s.rows[i].id;
  }

  lemma SettleLeavesWork(env: Setting, s: RunState, h: Handed, now: Time, i: nat)
    requires ValidSetting(env) && i < |s.rows| && i < |h.s.rows| && (h.Handed? ==> Shape(env, h.s))
    requires i == 0 ==> RootIsOpen(env, Settle(env, h, now))
    requires h.s.rows[i].id == s.rows[i].id && SameWork(s.rows[i], h.s.rows[i])
    ensures var s' := Settle(env, h, now);
            i < |s'.rows| && s'.rows[i].id == s.rows[i].id && SameWork(s.rows[i], s'.rows[i])
  {
    if h.Handed? {
      EventLeavesWork(env, h.s, h.event, now, i);
    }
  }

  lemma MoveLeavesWork(
    env: Setting, s: RunState, id: TaskId, to: ColumnId, answer: Option<string>, overriding: bool, now: Time, i: nat)
    requires ValidSetting(env) && Shape(env, s) && i < |s.rows| && s.rows[i].id != id
    requires MoveTask(env, s, id, to, answer, overriding, now).Ok?
    requires i == 0 ==> RootIsOpen(env, MoveTask(env, s, id, to, answer, overriding, now).value)
    ensures var s' := MoveTask(env, s, id, to, answer, overriding, now).value;
            i < |s'.rows| && s'.rows[i].id == s.rows[i].id && SameWork(s.rows[i], s'.rows[i])
  {
    var row, plan := MoveIs(env, s, id, to, answer, overriding, now);
    HandOverIs(env, s, row, plan, answer, now);
    HandOverKeepsShape(env, s, row, plan, answer, now);
    SettleLeavesWork(env, s, HandOver(env, s, row, plan, answer, now), now, i);
  }

  lemma DeleteLeavesWork(env: Setting, s: RunState, id: TaskId, now: Time, i: nat)
    requires ValidSetting(env) && Shape(env, s) && i < |s.rows| && s.rows[i].id != id
    requires DeleteTask(env, s, id, now).Ok?
    requires i == 0 ==> RootIsOpen(env, DeleteTask(env, s, id, now).value)
    ensures var s' := DeleteTask(env, s, id, now).value;
            i < |s'.rows| && s'.rows[i].id == s.rows[i].id && SameWork(s.rows[i], s'.rows[i])
  {
    var row, s1 := DeleteIs(env, s, id, now);
    GoneKeepsShape(env, s, id, row, s1);
    SettleLeavesWork(env, s, if Active(s) then Handed(s1, Deleted(id)) else Kept(s1), now, i);
  }

  lemma AnswerLeavesWork(env: Setting, s: RunState, id: TaskId, text: string, now: Time, i: nat)
    requires ValidSetting(env) && Shape(env, s) && i < |s.rows| && s.rows[i].id != id
    requires AnswerTask(env, s, id, text, now).Ok?
    requires i == 0 ==> RootIsOpen(env, AnswerTask(env, s, id, text, now).value)
    ensures var s' := AnswerTask(env, s, id, text, now).value;
            i < |s'.rows| && s'.rows[i].id == s.rows[i].id && SameWork(s.rows[i], s'.rows[i])
  {
    var event := AnswerIs(env, s, id, text, now);
    if Done(env.board, Find(s.rows, id).value) {
      EventLeavesWork(env, s, event, now, i);
    } else {
      MoveLeavesWork(env, s, id, env.board.finished, Some(text), false, now, i);
    }
  }

  /** What is done elsewhere does not touch the time of a task at work; the root's
      not, unless the run finishes it. */
  lemma OthersLeaveWork(env: Setting, s: RunState, op: Op, i: nat)
    requires ValidSetting(env) && Shape(env, s) && i < |s.rows| && LeavesAlone(op, s.rows[i].id)
    requires i == 0 ==> RootIsOpen(env, Exec(env, s, op))
    requires s.rows[i].column == env.board.started || s.rows[i].column == env.board.paused
    ensures var s' := Exec(env, s, op);
            i < |s'.rows| && s'.rows[i].id == s.rows[i].id && SameWork(s.rows[i], s'.rows[i])
  {
    if Try(env, s, op).Ok? {
      match op {
        case Move(id, to, answer, overriding, now) => MoveLeavesWork(env, s, id, to, answer, overriding, now, i);
        case Delete(id, now) => DeleteLeavesWork(env, s, id, now, i);
        case Answer(id, text, now) => AnswerLeavesWork(env, s, id, text, now, i);
        case RemoveColumn(gone, to, others) => SweepIs(env, s, gone, to, others);
        case _ =>
      }
    }
  }

  /** The task is started by the first operation; after that it only goes between
      started and paused while the run is active, and anything may happen to
      the rest. The root's moves are not refused, nor does the run finish it. */
  ghost predicate WorkedOn(env: Setting, s: RunState, ops: seq<Op>, id: TaskId) {
    && ops != [] && IsWork(env.board, ops[0], id) && ops[0].to == env.board.started
    && forall k :: 0 <= k < |ops| ==> WorkedOnAt(env, s, ops, id, k)
  }

  predicate WorkedOnAt(env: Setting, s: RunState, ops: seq<Op>, id: TaskId, k: nat)
    requires k < |ops|
  {
    && (LeavesAlone(ops[k], id) || (IsWork(env.board, ops[k], id) && Active(StateAt(env, s, ops, k))))
    && (id == env.root ==> RootStaysOpen(env, StateAt(env, s, ops, k), ops[k]))
  }

  predicate RootStaysOpen(env: Setting, s: RunState, op: Op) {
    RootIsOpen(env, Exec(env, s, op)) && (op.Move? && op.id == env.root ==> Try(env, s, op).Ok?)
  }

  /** A task is as its moves alone, the first at `start`, would have left it. */
  predicate AsTrail(board: Board, row0: Row, trail: seq<Change>, start: Time, row: Row) {
    Working(board, trail) && trail[0].at == start && row.id == row0.id && SameWork(Worked(board, row0, trail), row)
  }

  /** ... after the first `k` operations. */
  ghost predicate AsWorked(env: Setting, s: RunState, ops: seq<Op>, i: nat, start: Time, k: nat)
    requires k <= |ops| && i < |s.rows|
  {
    var now := StateAt(env, s, ops, k);
    Shape(env, now) && i < |now.rows| && AsTrail(env.board, s.rows[i], TrailOf(s.rows[i].id, ops[..k]), start, now.rows[i])
  }

  lemma WorkMoveIs(env: Setting, s: RunState, op: Op, i: nat)
    requires ValidSetting(env) && Shape(env, s) && Active(s) && i < |s.rows| && !s.rows[i].archived
    requires IsWork(env.board, op, s.rows[i].id) && (i == 0 ==> RootStaysOpen(env, s, op))
    ensures var s' := Exec(env, s, op);
            i < |s'.rows| && s'.rows[i].id == s.rows[i].id
            && SameWork(Moved(env.board, s.rows[i], op.to, op.now), s'.rows[i])
  {
    MoveIsCounted(env, s, i, op.to, op.answer, op.overriding, op.now);
    MovedIsThere(env.board, s.rows[i], op.to, op.now);
    if StartsRun(env, s, i, op.to) {
      RootStartLeavesWork(env, s, op);
    }
  }

  lemma MovedIsThere(board: Board, row: Row, to: ColumnId, now: Time)
    ensures var moved := Moved(board, row, to, now);
            moved.id == row.id && moved.step == row.step && moved.counts == row.counts && moved.question == row.question
            && moved.skipped == row.skipped && moved.archived == row.archived
  {
  }

  /** The root's first start moves it as any other task is moved. */
  lemma RootStartLeavesWork(env: Setting, s: RunState, op: Op)
    requires ValidSetting(env) && Shape(env, s) && Active(s) && !s.rows[0].archived
    requires IsWork(env.board, op, s.rows[0].id) && StartsRun(env, s, 0, op.to) && RootStaysOpen(env, s, op)
    ensures var s' := Exec(env, s, op);
            s'.rows != [] && s'.rows[0].id == s.rows[0].id
            && SameWork(Moved(env.board, s.rows[0], op.to, op.now), s'.rows[0])
  {
    MoveIsCounted(env, s, 0, op.to, op.answer, op.overriding, op.now);
    var moved := Moved(env.board, s.rows[0], op.to, op.now);
    var s1 := s.(rows := Update(s.rows, s.rows[0].id, moved), startedAt := Some(op.now));
    MovedIsThere(env.board, s.rows[0], op.to, op.now);
    FindAt(s.rows, 0);
    MovedRowKeepsShape(env, s, s.rows[0], moved, s1);
    EventLeavesWork(env, s1, RootStarts, op.now, 0);
  }

  lemma FirstOfWork(env: Setting, s: RunState, ops: seq<Op>, i: nat)
    requires ValidSetting(env) && Shape(env, s) && i < |s.rows| && WorkedOn(env, s, ops, s.rows[i].id)
    requires Fresh(env.board, s.rows[i], ops[0].now)
    ensures AsWorked(env, s, ops, i, ops[0].now, 1)
  {
    var op, next := ops[0], StateAt(env, s, ops, 1);
    assert WorkedOnAt(env, s, ops, s.rows[i].id, 0);
    NextState(env, s, ops, 0);
    assert next == Exec(env, s, op) && ops[..1] == [op];
    StepKeepsShape(env, s, op);
    FirstWork(env, s, op, i);
    assert Shape(env, next) && i < |next.rows|;
    assert AsTrail(env.board, s.rows[i], TrailOf(s.rows[i].id, ops[..1]), op.now, next.rows[i]);
  }

  lemma FirstWork(env: Setting, s: RunState, op: Op, i: nat)
    requires ValidSetting(env) && Shape(env, s) && Active(s) && i < |s.rows| && IsWork(env.board, op, s.rows[i].id)
    requires i == 0 ==> RootStaysOpen(env, s, op)
    requires op.to == env.board.started && Fresh(env.board, s.rows[i], op.now)
    ensures var s' := Exec(env, s, op);
            i < |s'.rows| && AsTrail(env.board, s.rows[i], TrailOf(s.rows[i].id, [op]), op.now, s'.rows[i])
  {
    WorkMoveIs(env, s, op, i);
    FirstAsTrail(env.board, s.rows[i], op, Exec(env, s, op).rows[i]);
  }

  lemma FirstAsTrail(board: Board, row0: Row, op: Op, row: Row)
    requires IsWork(board, op, row0.id) && op.to == board.started
    requires row.id == row0.id && SameWork(Moved(board, row0, op.to, op.now), row)
    ensures AsTrail(board, row0, TrailOf(row0.id, [op]), op.now, row)
  {
    var first := Change(op.now, Some(op.to));
    assert [op][..0] == [] && [first][..0] == [];
    assert TrailOf(row0.id, [op]) == [first];
    assert Worked(board, row0, [first]) == Moved(board, row0, op.to, op.now);
  }

  lemma NextOfWork(env: Setting, s: RunState, ops: seq<Op>, i: nat, k: nat)
    requires ValidSetting(env) && Shape(env, s) && i < |s.rows| && WorkedOn(env, s, ops, s.rows[i].id)
    requires Fresh(env.board, s.rows[i], ops[0].now) && 0 < k < |ops| && AsWorked(env, s, ops, i, ops[0].now, k)
    ensures AsWorked(env, s, ops, i, ops[0].now, k + 1)
  {
    var id, before := s.rows[i].id, StateAt(env, s, ops, k);
    var trail := TrailOf(id, ops[..k]);
    assert WorkedOnAt(env, s, ops, id, k);
    NextState(env, s, ops, k);
    StepKeepsShape(env, before, ops[k]);
    assert ops[..k + 1][..k] == ops[..k];
    if IsWork(env.board, ops[k], id) {
      NextWork(env, s.rows[i], trail, ops[0].now, before, ops[k], i);
      var more := trail + [Change(ops[k].now, Some(ops[k].to))];
      assert TrailOf(id, ops[..k + 1]) == more;
    } else {
      WorkIsInColumns(env.board, s.rows[i], trail, ops[0].now, before.rows[i]);
      OthersLeaveWork(env, before, ops[k], i);
      assert TrailOf(id, ops[..k + 1]) == trail;
    }
  }

  /** A task at work is in one of the two columns of work. */
  lemma WorkIsInColumns(board: Board, row0: Row, trail: seq<Change>, start: Time, row: Row)
    requires WorkBoard(board) && Fresh(board, row0, start) && AsTrail(board, row0, trail, start, row)
    ensures !row.archived && (row.column == board.started || row.column == board.paused)
  {
    WorkKeepsTime(board, row0, trail);
    assert Into(trail[|trail| - 1], board.started) || Into(trail[|trail| - 1], board.paused);
  }

  lemma NextWork(env: Setting, row0: Row, trail: seq<Change>, start: Time, s: RunState, op: Op, i: nat)
    requires ValidSetting(env) && Shape(env, s) && Active(s) && i < |s.rows| && IsWork(env.board, op, s.rows[i].id)
    requires i == 0 ==> RootStaysOpen(env, s, op)
    requires Fresh(env.board, row0, start) && AsTrail(env.board, row0, trail, start, s.rows[i])
    ensures var s' := Exec(env, s, op);
            i < |s'.rows|
            && AsTrail(env.board, row0, trail + [Change(op.now, Some(op.to))], start, s'.rows[i])
  {
    WorkIsInColumns(env.board, row0, trail, start, s.rows[i]);
    WorkMoveIs(env, s, op, i);
    var more := trail + [Change(op.now, Some(op.to))];
    assert more[..|more| - 1] == trail;
    MovedSame(env.board, Worked(env.board, row0, trail), s.rows[i], op.to, op.now);
  }

  lemma {:induction false} RunKeepsWork(env: Setting, s: RunState, ops: seq<Op>, i: nat, k: nat)
    requires ValidSetting(env) && Shape(env, s) && i < |s.rows| && WorkedOn(env, s, ops, s.rows[i].id)
    requires Fresh(env.board, s.rows[i], ops[0].now) && 0 < k <= |ops|
    ensures AsWorked(env, s, ops, i, ops[0].now, k)
  {
    if k == 1 {
      FirstOfWork(env, s, ops, i);
    } else {
      RunKeepsWork(env, s, ops, i, k - 1);
      NextOfWork(env, s, ops, i, k - 1);
    }
  }

  /** Due its limit after its first start, put off by the time it was paused; and
      what is left of that is the limit less the time the statistics count. */
  predicate DueRight(board: Board, limit: Offset, trail: seq<Change>, start: Time, due: Option<Time>, now: Time) {
    var taken := TimingsOf(trail, board.started, board.finished, now).timeTaken;
    && due == Some(start + Seconds(limit) + TimeIn(trail, board.paused, now))
    && taken.Some? && due.value - now == Seconds(limit) - taken.value
  }

  /** In a run, among all that goes on around it, a task that is started, the root
      or any other, is due when its own moves alone say so. */
  lemma DueInARun(env: Setting, s: RunState, ops: seq<Op>, i: nat, now: Time)
    requires ValidSetting(env) && Shape(env, s) && i < |s.rows| && WorkedOn(env, s, ops, s.rows[i].id)
    requires Fresh(env.board, s.rows[i], ops[0].now)
    requires EndsIn(TrailOf(s.rows[i].id, ops), env.board.started) && Ordered(TrailOf(s.rows[i].id, ops), now)
    ensures i < |ExecAll(env, s, ops).rows| && ExecAll(env, s, ops).rows[i].id == s.rows[i].id
    ensures DueRight(
              env.board, s.rows[i].limit.value, TrailOf(s.rows[i].id, ops), ops[0].now,
              ExecAll(env, s, ops).rows[i].dueAt, now)
  {
    WorkInARun(env, s, ops, i);
    DueOfWork(env.board, s.rows[i], TrailOf(s.rows[i].id, ops), ops[0].now, ExecAll(env, s, ops).rows[i], now);
  }

  lemma WorkInARun(env: Setting, s: RunState, ops: seq<Op>, i: nat)
    requires ValidSetting(env) && Shape(env, s) && i < |s.rows| && WorkedOn(env, s, ops, s.rows[i].id)
    requires Fresh(env.board, s.rows[i], ops[0].now)
    ensures i < |ExecAll(env, s, ops).rows|
    ensures AsTrail(env.board, s.rows[i], TrailOf(s.rows[i].id, ops), ops[0].now, ExecAll(env, s, ops).rows[i])
  {
    RunKeepsWork(env, s, ops, i, |ops|);
    assert ops[..|ops|] == ops;
  }

  lemma DueOfWork(board: Board, row0: Row, trail: seq<Change>, start: Time, row: Row, now: Time)
    requires WorkBoard(board) && Fresh(board, row0, start) && AsTrail(board, row0, trail, start, row)
    requires EndsIn(trail, board.started) && Ordered(trail, now)
    ensures DueRight(board, row0.limit.value, trail, start, row.dueAt, now)
  {
    DueIsStartLimitPauses(board, row0, trail, now);
    TimeLeftIsLimitLessTaken(board, row0, trail, now);
  }
}
