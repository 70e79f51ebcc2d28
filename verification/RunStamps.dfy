/** Finish dates, which the archive clock counts from: whether every task in the
    finished column has one. */
module RunStamps {
  import opened Options
  import opened Ids
  import opened Offsets
  import opened Questions
  import opened Program
  import opened Transition
  import opened Runs
  import opened RunInvariants

  /** A task has a finish date exactly while it is in the finished column. */
  predicate StampedRow(env: Setting, row: Row) {
    row.finishedAt.Some? <==> row.column == env.board.finished
  }

  predicate Stamped(env: Setting, s: RunState) {
    forall i :: 0 <= i < |s.rows| ==> StampedRow(env, s.rows[i])
  }

  /** A task comes back from the archive into the finished column. */
  predicate RestoresFinished(env: Setting, s: RunState, op: Op)
  {
    op.Restore? && Try(env, s, op).Ok? && RestoreColumn(s.columns, Find(s.rows, op.id).value) == env.board.finished
  }

  /** A column removal puts tasks in the finished column. */
  predicate SweepsIn(env: Setting, s: RunState, op: Op) {
    op.RemoveColumn? && Try(env, s, op).Ok? && op.moveTo == Some(env.board.finished)
    && Occupied(s.rows, op.gone)
  }

  lemma TouchedIsStamped(env: Setting, plan: Plan, row: Row, now: Time)
    requires StampedRow(env, row)
    ensures StampedRow(env, Touched(env, plan, row, now))
  {
    NotedKeeps(plan, row, now);
  }

  lemma ApplyKeepsStamps(env: Setting, s: RunState, event: RunEvent, now: Time)
    requires Stamped(env, s)
    ensures Stamped(env, Apply(env, s, event, now))
  {
    PlanIsKnown(env, s, event, now);
    EnactKeepsStamps(env, s, PlanOf(env, s, event, now), now);
  }

  lemma EnactKeepsStamps(env: Setting, s: RunState, plan: Plan, now: Time)
    requires Stamped(env, s) && Known(env, plan.create)
    ensures Stamped(env, Enact(env, s, plan, now))
  {
    EnactedRows(env, s, plan, now);
    forall i | 0 <= i < |s.rows| ensures StampedRow(env, Touched(env, plan, s.rows[i], now)) {
      TouchedIsStamped(env, plan, s.rows[i], now);
    }
  }

  lemma UpdateKeepsStamps(env: Setting, s: RunState, id: TaskId, row: Row)
    requires Stamped(env, s) && Find(s.rows, id).Some?
    ensures Stamped(env, s.(rows := Update(s.rows, id, row))) <==> StampedRow(env, row)
  {
    var k := IndexOf(s.rows, id);
    var rows := Update(s.rows, id, row);
    forall i | 0 <= i < |rows| && s.rows[i].id != id ensures StampedRow(env, rows[i]) {
      assert StampedRow(env, s.rows[i]);
    }
    assert rows[k] == row;
  }

  lemma FoundIsStamped(env: Setting, s: RunState, id: TaskId)
    requires Stamped(env, s) && Find(s.rows, id).Some?
    ensures StampedRow(env, Find(s.rows, id).value)
  {
    var i := IndexOf(s.rows, id);
  }

  lemma MoveKeepsStamps(
    env: Setting, s: RunState, id: TaskId, to: ColumnId, answer: Option<string>, overriding: bool, now: Time)
    requires Stamped(env, s) && MoveTask(env, s, id, to, answer, overriding, now).Ok?
    ensures Stamped(env, MoveTask(env, s, id, to, answer, overriding, now).value)
  {
    var row, plan := MoveIs(env, s, id, to, answer, overriding, now);
    FoundIsStamped(env, s, id);
    var h := HandOver(env, s, row, plan, answer, now);
    HandOverIs(env, s, row, plan, answer, now);
    MovedIsStamped(env, row, plan, Active(s), now);
    UpdateKeepsStamps(env, s, row.id, MovedRow(env.board, row, plan, Active(s), now));
    if h.Handed? {
      ApplyKeepsStamps(env, h.s, h.event, now);
    }
  }

  lemma MovedIsStamped(env: Setting, row: Row, plan: MovePlan, active: bool, now: Time)
    requires plan.finishedAt.Some? <==> plan.to == env.board.finished
    ensures StampedRow(env, MovedRow(env.board, row, plan, active, now))
  {
  }

  lemma DeleteKeepsStamps(env: Setting, s: RunState, id: TaskId, now: Time)
    requires Stamped(env, s) && DeleteTask(env, s, id, now).Ok?
    ensures Stamped(env, DeleteTask(env, s, id, now).value)
  {
    var row, s1 := DeleteIs(env, s, id, now);
    FoundIsStamped(env, s, id);
    UpdateKeepsStamps(env, s, id, Gone(s, row));
    if Active(s) {
      ApplyKeepsStamps(env, s1, Deleted(id), now);
    }
  }

  lemma AnswerKeepsStamps(env: Setting, s: RunState, id: TaskId, text: string, now: Time)
    requires Stamped(env, s) && AnswerTask(env, s, id, text, now).Ok?
    ensures Stamped(env, AnswerTask(env, s, id, text, now).value)
  {
    var row := Find(s.rows, id).value;
    var event := AnswerIs(env, s, id, text, now);
    if Done(env.board, row) {
      ApplyKeepsStamps(env, s, event, now);
    } else {
      MoveKeepsStamps(env, s, id, env.board.finished, Some(text), false, now);
    }
  }

  lemma RestoreTellsStamps(env: Setting, s: RunState, id: TaskId)
    requires Stamped(env, s) && RestoreTask(env, s, id).Ok?
    ensures Stamped(env, RestoreTask(env, s, id).value) <==> !RestoresFinished(env, s, Restore(id))
  {
    var row := Find(s.rows, id).value;
    var to := RestoreColumn(s.columns, row);
    UpdateKeepsStamps(env, s, id, row.(archived := false, column := to, finishedAt := None, skipped := false));
  }

  lemma ArchiveKeepsStamps(env: Setting, s: RunState, id: TaskId)
    requires Stamped(env, s) && ArchiveTask(env, s, id).Ok?
    ensures Stamped(env, ArchiveTask(env, s, id).value)
  {
    var row := Find(s.rows, id).value;
    FoundIsStamped(env, s, id);
    UpdateKeepsStamps(env, s, id, row.(archived := true, archivedFrom := row.column));
  }

  lemma SweepTellsStamps(env: Setting, s: RunState, gone: ColumnId, to: Option<ColumnId>, others: bool)
    requires Stamped(env, s) && RemoveColumnOf(env, s, gone, to, others).Ok?
    ensures Stamped(env, RemoveColumnOf(env, s, gone, to, others).value)
       <==> !SweepsIn(env, s, RemoveColumn(gone, to, others))
  {
    SweepIs(env, s, gone, to, others);
    var s' := RemoveColumnOf(env, s, gone, to, others).value;
    forall i | 0 <= i < |s.rows|
      ensures StampedRow(env, s'.rows[i]) <==> !(to == Some(env.board.finished) && s.rows[i].column == gone)
    {
      assert StampedRow(env, s.rows[i]);
      SweptIsStamped(env, s.rows[i], gone, to);
    }
  }

  lemma SweptIsStamped(env: Setting, row: Row, gone: ColumnId, to: Option<ColumnId>)
    requires StampedRow(env, row) && gone != env.board.finished
    ensures StampedRow(env, SweptRow(row, gone, to)) <==> !(to == Some(env.board.finished) && row.column == gone)
  {
  }

  /** Every operation keeps finish dates and the finished column together, but
      for two: a task restored, or swept, into the finished column has no date. */
  lemma StepKeepsStamps(env: Setting, s: RunState, op: Op)
    requires Stamped(env, s)
    ensures Stamped(env, Exec(env, s, op)) <==> !RestoresFinished(env, s, op) && !SweepsIn(env, s, op)
  {
    if Try(env, s, op).Ok? {
      match op {
        case Move(id, to, answer, overriding, now) => MoveKeepsStamps(env, s, id, to, answer, overriding, now);
        case Delete(id, now) => DeleteKeepsStamps(env, s, id, now);
        case Restore(id) => RestoreTellsStamps(env, s, id);
        case Archive(id) => ArchiveKeepsStamps(env, s, id);
        case Answer(id, text, now) => AnswerKeepsStamps(env, s, id, text, now);
        case Cancel(_, _) => CancelKeepsStamps(env, s, op.deleteOpen, op.now);
        case RemoveColumn(gone, to, others) => SweepTellsStamps(env, s, gone, to, others);
        case _ =>
      }
    }
  }

  lemma CancelKeepsStamps(env: Setting, s: RunState, deleteOpen: bool, now: Time)
    requires Stamped(env, s) && CancelRun(env, s, deleteOpen, now).Ok?
    ensures Stamped(env, CancelRun(env, s, deleteOpen, now).value)
  {
    var rows := CancelRun(env, s, deleteOpen, now).value.rows;
    forall i | 0 <= i < |rows| ensures StampedRow(env, rows[i]) {
      assert StampedRow(env, s.rows[i]);
    }
  }

  predicate UndatesAt(env: Setting, s: RunState, ops: seq<Op>, k: nat)
    requires k < |ops|
  {
    var before := StateAt(env, s, ops, k);
    RestoresFinished(env, before, ops[k]) || SweepsIn(env, before, ops[k])
  }

  /** No operation of the run restores or sweeps a task into the finished column. */
  predicate NeverUndates(env: Setting, s: RunState, ops: seq<Op>) {
    forall k :: 0 <= k < |ops| ==> !UndatesAt(env, s, ops, k)
  }

  lemma {:induction false} RunKeepsStamps(env: Setting, s: RunState, ops: seq<Op>, k: nat)
    requires Stamped(env, s) && NeverUndates(env, s, ops) && k <= |ops|
    ensures Stamped(env, StateAt(env, s, ops, k))
  {
    if k > 0 {
      NextState(env, s, ops, k - 1);
      RunKeepsStamps(env, s, ops, k - 1);
      assert !UndatesAt(env, s, ops, k - 1);
      StepKeepsStamps(env, StateAt(env, s, ops, k - 1), ops[k - 1]);
    }
  }

  lemma StartIsStamped(env: Setting, startAt: Option<Time>, now: Time)
    ensures Stamped(env, StartRun(env, startAt, now))
  {
    ApplyKeepsStamps(env, NewRun(env, startAt, now), Created, now);
  }

  /** From its start, at every moment, through any operations that restore or
      sweep nothing into the finished column, every task of a run that is in the
      finished column has its archive clock running, as long as the calendar
      holds the date. */
  lemma FinishedTasksAreArchived(
    env: Setting, startAt: Option<Time>, start: Time, ops: seq<Op>, k: nat, i: nat, after: nat)
    requires NeverUndates(env, StartRun(env, startAt, start), ops) && k <= |ops|
    requires i < |StateAt(env, StartRun(env, startAt, start), ops, k).rows|
    ensures var row := StateAt(env, StartRun(env, startAt, start), ops, k).rows[i];
            !row.archived && row.column == env.board.finished ==>
            row.finishedAt.Some?
            && ArchiveDueAt(env.board, row.archived, row.column, row.finishedAt, after)
               == if row.finishedAt.value + after > MAX_TIME then None else Some(row.finishedAt.value + after)
  {
    StartIsStamped(env, startAt, start);
    RunKeepsStamps(env, StartRun(env, startAt, start), ops, k);
    assert StampedRow(env, StateAt(env, StartRun(env, startAt, start), ops, k).rows[i]);
  }

  /** A task restored into the finished column is never archived by the clock. */
  lemma RestoredIsNeverDue(env: Setting, s: RunState, id: TaskId, after: nat)
    requires Increasing(s.rows) && RestoresFinished(env, s, Restore(id))
    ensures var row := Find(Exec(env, s, Restore(id)).rows, id);
            row.Some? && row.value.column == env.board.finished && !row.value.archived
            && ArchiveDueAt(env.board, false, row.value.column, row.value.finishedAt, after).None?
  {
    var k := IndexOf(s.rows, id);
    var rows := Exec(env, s, Restore(id)).rows;
    assert rows[k].id == id;
    FindAt(rows, k);
  }

  /** Nor is one a column removal put there. */
  lemma SweptIsNeverDue(env: Setting, s: RunState, op: Op, i: nat, after: nat)
    requires Stamped(env, s) && SweepsIn(env, s, op) && i < |s.rows| && s.rows[i].column == op.gone
    ensures i < |Exec(env, s, op).rows|
    ensures var row := Exec(env, s, op).rows[i];
            row.column == env.board.finished
            && ArchiveDueAt(env.board, row.archived, row.column, row.finishedAt, after).None?
  {
    SweepIs(env, s, op.gone, op.moveTo, op.others);
    assert StampedRow(env, s.rows[i]);
  }
}
