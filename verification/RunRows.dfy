/** What each operation does to each task of a run, told row by row: first by hand,
    then by the engine. */
module RunRows {
  import opened Options
  import opened Ids
  import opened Offsets
  import opened Questions
  import opened Program
  import opened Transition
  import opened Runs
  import opened RunInvariants
  import opened RunGroups

  // By hand.

  predicate AtWork(board: Board, column: ColumnId) {
    column == board.started || column == board.paused || column == board.finished
  }

  /** The finish date of a task moved from one column to another: given as it enters
      the finished one, lost as it leaves it. */
  predicate DateFollows(board: Board, from: ColumnId, to: ColumnId, now: Time, was: Option<Time>, date: Option<Time>) {
    date == if from != board.finished && to == board.finished then Some(now)
            else if from == board.finished && to != board.finished then None
            else was
  }

  /** The due date and the pause mark of a task moved in a live run. The due date is
      given by the first start, put off as a pause ends, lost as the task leaves the
      columns of work, and otherwise kept. */
  predicate TimeFollows(board: Board, row: Row, to: ColumnId, now: Time, row': Row) {
    && row'.pausedAt == (if to == board.paused then Some(now) else None)
    && (row.limit.None? ==> row'.dueAt == row.dueAt)
    && (row.limit.Some? ==>
          && (!AtWork(board, to) ==> row'.dueAt.None?)
          && ((to == board.paused || to == board.finished) ==> row'.dueAt == row.dueAt)
          && (to == board.started && row.dueAt.None? ==> row'.dueAt == After(row.limit.value, now))
          && (to == board.started && row.dueAt.Some? ==>
                row'.dueAt.Some?
                && row'.dueAt.value - row.dueAt.value
                   == if row.column == board.paused && row.pausedAt.Some? then now - row.pausedAt.value else 0))
  }

  predicate IsMoved(env: Setting, live: bool, row: Row, to: ColumnId, now: Time, row': Row) {
    && row' == row.(column := to, finishedAt := row'.finishedAt, dueAt := row'.dueAt, pausedAt := row'.pausedAt)
    && DateFollows(env.board, row.column, to, now, row.finishedAt, row'.finishedAt)
    && if live && to != row.column then TimeFollows(env.board, row, to, now, row')
       else row'.dueAt == row.dueAt && row'.pausedAt == row.pausedAt
  }

  predicate IsPutAway(row: Row, row': Row) {
    row' == row.(archived := true, archivedFrom := row.column)
  }

  /** Back in the column it left, if the board still has it, and in the first one
      otherwise; without a finish date, and no longer skipped. */
  predicate IsBack(columns: seq<ColumnId>, row: Row, row': Row) {
    && row' == row.(archived := false, column := row'.column, finishedAt := None, skipped := false)
    && if row.archivedFrom in columns then row'.column == row.archivedFrom
       else columns != [] && row'.column == columns[0]
  }

  /** What an operation that is not refused does to a row before the engine has its
      say. */
  predicate ByHand(env: Setting, s: RunState, op: Op, row: Row, row': Row) {
    match op
    case Move(id, to, _, _, now) => if row.id == id then IsMoved(env, Active(s), row, to, now, row') else row' == row
    case Delete(id, _) =>
      if row.id == id then IsPutAway(row.(skipped := row.skipped || Active(s)), row') else row' == row
    case Restore(id) => if row.id == id then IsBack(s.columns, row, row') else row' == row
    case Archive(id) => if row.id == id then IsPutAway(row, row') else row' == row
    case Answer(id, _, now) =>
      if row.id == id && !Done(env.board, row) then IsMoved(env, Active(s), row, env.board.finished, now, row')
      else row' == row
    case Cancel(deleteOpen, _) => if deleteOpen && !Done(env.board, row) then IsPutAway(row, row') else row' == row
    case RemoveColumn(gone, to, _) =>
      if row.column == gone then to.Some? && row' == row.(column := to.value) else row' == row
    case _ => row' == row
  }

  // By the engine.

  /** What the engine does to a row that is there: it dates, asks and answers, and may
      put an open root among the finished, which closes the run. */
  predicate ByEngine(env: Setting, row: Row, now: Time, s': RunState, row': Row) {
    && row' == row.(
         startAt := row'.startAt, asked := row'.asked, answer := row'.answer, column := row'.column,
         finishedAt := row'.finishedAt)
    && (row.startAt.Some? ==> row'.startAt == row.startAt)
    && (row.asked ==> row'.asked) && (row.answer.Some? ==> row'.answer.Some?)
    && (if row'.column == row.column then row'.finishedAt == row.finishedAt
        else row.id == env.root && !Done(env.board, row) && row'.column == env.board.finished
             && row'.finishedAt == Some(now) && s'.finishedAt.Some?)
  }

  lemma EngineOnRow(env: Setting, s: RunState, event: RunEvent, now: Time, i: nat)
    requires i < |s.rows| && Find(s.rows, env.root).Some? && Find(s.rows, env.root).value == s.rows[0]
    requires Increasing(s.rows)
    ensures var s' := Apply(env, s, event, now);
            i < |s'.rows| && ByEngine(env, s.rows[i], now, s', s'.rows[i])
  {
    var plan := PlanOf(env, s, event, now);
    PlanIsKnown(env, s, event, now);
    EnactedRows(env, s, plan, now);
    NotedFollows(plan, s.rows[i], now);
    assert s.rows[i].id == env.root ==> s.rows[i] == s.rows[0] by {
      FindAt(s.rows, i);
    }
  }

  lemma NotedFollows(plan: Plan, row: Row, now: Time)
    ensures var row' := Noted(plan, row, now);
            row' == row.(startAt := row'.startAt, asked := row'.asked, answer := row'.answer)
            && (row.startAt.Some? ==> row'.startAt == row.startAt)
            && (row.asked ==> row'.asked) && (row.answer.Some? ==> row'.answer.Some?)
  {
  }

  // Both.

  lemma MovedFollows(env: Setting, row: Row, plan: MovePlan, live: bool, now: Time)
    requires plan.from == row.column
    requires DateFollows(env.board, row.column, plan.to, now, row.finishedAt, plan.finishedAt)
    requires env.board.started != env.board.finished && env.board.paused != env.board.finished
    requires env.board.started != env.board.paused
    ensures IsMoved(env, live, row, plan.to, now, MovedRow(env.board, row, plan, live, now))
  {
  }

  lemma MoveOnRow(
    env: Setting, s: RunState, id: TaskId, to: ColumnId, answer: Option<string>, overriding: bool, now: Time, i: nat)
    requires ValidSetting(env) && Increasing(s.rows) && i < |s.rows|
    requires MoveTask(env, s, id, to, answer, overriding, now).Ok?
    ensures var rows := MoveTurn(env, s, id, to, answer, overriding, now).s.rows;
            i < |rows| && if s.rows[i].id == id then IsMoved(env, Active(s), s.rows[i], to, now, rows[i]) else rows[i] == s.rows[i]
  {
    var row, plan := MoveIs(env, s, id, to, answer, overriding, now);
    HandOverIs(env, s, row, plan, answer, now);
    MovedFollows(env, row, plan, Active(s), now);
    if s.rows[i].id == id {
      FindAt(s.rows, i);
    }
  }

  lemma HandOnRow(env: Setting, s: RunState, op: Op, i: nat)
    requires ValidSetting(env) && Increasing(s.rows) && i < |s.rows| && Try(env, s, op).Ok?
    ensures var rows := Turn(env, s, op).s.rows;
            i < |rows| && ByHand(env, s, op, s.rows[i], rows[i])
  {
    match op {
      case Move(id, to, answer, overriding, now) => MoveOnRow(env, s, id, to, answer, overriding, now, i);
      case Answer(id, text, now) => AnswerOnRow(env, s, id, text, now, i);
      case RemoveColumn(gone, to, others) => SweepOnRow(env, s, gone, to, others, i);
      case _ => OtherOnRow(env, s, op, i);
    }
  }

  lemma AnswerOnRow(env: Setting, s: RunState, id: TaskId, text: string, now: Time, i: nat)
    requires ValidSetting(env) && Increasing(s.rows) && i < |s.rows| && AnswerTask(env, s, id, text, now).Ok?
    ensures var rows := AnswerTurn(env, s, id, text, now).s.rows;
            i < |rows| && ByHand(env, s, Answer(id, text, now), s.rows[i], rows[i])
  {
    FindAt(s.rows, i);
    if !Done(env.board, Find(s.rows, id).value) {
      MoveOnRow(env, s, id, env.board.finished, Some(text), false, now, i);
    }
  }

  lemma SweepOnRow(env: Setting, s: RunState, gone: ColumnId, to: Option<ColumnId>, others: bool, i: nat)
    requires i < |s.rows| && RemoveColumnOf(env, s, gone, to, others).Ok?
    ensures var rows := RemoveColumnOf(env, s, gone, to, others).value.rows;
            i < |rows| && ByHand(env, s, RemoveColumn(gone, to, others), s.rows[i], rows[i])
  {
    assert s.rows[i] in s.rows;
  }

  lemma OtherOnRow(env: Setting, s: RunState, op: Op, i: nat)
    requires Increasing(s.rows) && i < |s.rows| && Try(env, s, op).Ok?
    requires !op.Move? && !op.Answer? && !op.RemoveColumn?
    ensures var rows := Turn(env, s, op).s.rows;
            i < |rows| && ByHand(env, s, op, s.rows[i], rows[i])
  {
    FindAt(s.rows, i);
  }

  /** Every operation that is not refused, on every row: first by hand, and then by
      the engine, if it hears of it. `mid` is the row between the two. */
  lemma OpOnRow(env: Setting, s: RunState, op: Op, i: nat) returns (mid: Row)
    requires ValidSetting(env) && Shape(env, s) && i < |s.rows| && Try(env, s, op).Ok?
    ensures var s' := Exec(env, s, op);
            i < |s'.rows| && ByHand(env, s, op, s.rows[i], mid) && ByEngine(env, mid, TimeOf(op), s', s'.rows[i])
  {
    var h := Turn(env, s, op);
    TurnIs(env, s, op);
    TurnIsSame(env, s, op);
    HandOnRow(env, s, op, i);
    mid := h.s.rows[i];
    if h.Handed? {
      FindAt(h.s.rows, 0);
      EngineOnRow(env, h.s, h.event, TimeOf(op), i);
    }
  }
}
