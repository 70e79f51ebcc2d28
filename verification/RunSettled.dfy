/** Whole runs that never get stuck: as long as nobody takes a finished task
    out of the finished column again, and no column is removed with the root, or
    with the last open tasks, bound for the finished column. */
module RunSettled {
  import opened Options
  import opened Ids
  import opened Offsets
  import opened Questions
  import opened Program
  import opened Transition
  import opened Runs
  import opened RunInvariants
  import opened RunProgress

  /** The column a task is in, or was archived from. */
  function Home(row: Row): ColumnId {
    if row.archived then row.archivedFrom else row.column
  }

  /** A task whose question was asked or answered is finished. */
  predicate SettledRow(env: Setting, row: Row) {
    row.asked || row.answer.Some? ==> Home(row) == env.board.finished
  }

  predicate Settled(env: Setting, s: RunState) {
    forall i :: 0 <= i < |s.rows| ==> SettledRow(env, s.rows[i])
  }

  /** Taking a finished task out of the finished column. */
  predicate Reopens(env: Setting, s: RunState, op: Op) {
    op.Move? && op.to != env.board.finished && Find(s.rows, op.id).Some?
    && Find(s.rows, op.id).value.column == env.board.finished
  }

  /** The task a plan asks or answers sits in the finished column. */
  predicate AsksFinished(env: Setting, s: RunState, plan: Plan) {
    forall i :: 0 <= i < |s.rows| ==>
      (plan.ask == Some(s.rows[i].id) || (plan.answered.Some? && plan.answered.value.0 == s.rows[i].id)
       ==> Home(s.rows[i]) == env.board.finished)
  }

  lemma EnactKeepsSettled(env: Setting, s: RunState, plan: Plan, now: Time)
    requires Settled(env, s) && Known(env, plan.create) && AsksFinished(env, s, plan)
    ensures Settled(env, Enact(env, s, plan, now))
  {
    var s' := Enact(env, s, plan, now);
    EnactedRows(env, s, plan, now);
    forall i | 0 <= i < |s'.rows| ensures SettledRow(env, s'.rows[i]) {
      if i < |s.rows| {
        assert SettledRow(env, s.rows[i]);
      }
    }
  }

  /** An event asks or answers only the task it is about. */
  lemma AsksItsTask(env: Setting, s: RunState, event: RunEvent, now: Time)
    ensures var plan := PlanOf(env, s, event, now);
            (plan.ask.Some? ==> event.Finishes? && plan.ask.value == event.task)
            && (plan.answered.Some? ==>
                  (event.Finishes? || event.IsAnswered?) && plan.answered.value.0 == event.task)
  {
  }

  lemma ApplyKeepsSettled(env: Setting, s: RunState, event: RunEvent, now: Time)
    requires Settled(env, s)
    requires event.Finishes? || event.IsAnswered? ==>
      forall i :: 0 <= i < |s.rows| && s.rows[i].id == event.task ==> Home(s.rows[i]) == env.board.finished
    ensures Settled(env, Apply(env, s, event, now))
  {
    PlanIsKnown(env, s, event, now);
    AsksItsTask(env, s, event, now);
    EnactKeepsSettled(env, s, PlanOf(env, s, event, now), now);
  }

  lemma UpdateKeepsSettled(env: Setting, s: RunState, id: TaskId, row: Row)
    requires Settled(env, s) && SettledRow(env, row)
    ensures Settled(env, s.(rows := Update(s.rows, id, row)))
  {
    var rows := Update(s.rows, id, row);
    forall i | 0 <= i < |rows| ensures SettledRow(env, rows[i]) {
      assert SettledRow(env, s.rows[i]);
    }
  }

  lemma FoundIsSettled(env: Setting, s: RunState, id: TaskId)
    requires Settled(env, s) && Find(s.rows, id).Some?
    ensures SettledRow(env, Find(s.rows, id).value)
  {
    var i := IndexOf(s.rows, id);
    assert SettledRow(env, s.rows[i]);
  }

  lemma MoveKeepsSettled(
    env: Setting, s: RunState, id: TaskId, to: ColumnId, answer: Option<string>, overriding: bool, now: Time)
    requires Inv(env, s) && Settled(env, s) && MoveTask(env, s, id, to, answer, overriding, now).Ok?
    requires Find(s.rows, id).Some? && Find(s.rows, id).value.column == env.board.finished ==> to == env.board.finished
    ensures Settled(env, MoveTask(env, s, id, to, answer, overriding, now).value)
  {
    var row, plan := MoveIs(env, s, id, to, answer, overriding, now);
    FoundIsSettled(env, s, id);
    HandOverIsSettled(env, s, row, plan, answer, now);
    var h := HandOver(env, s, row, plan, answer, now);
    if h.Handed? {
      ApplyKeepsSettled(env, h.s, h.event, now);
    }
  }

  lemma HandOverIsSettled(env: Setting, s: RunState, row: Row, plan: MovePlan, answer: Option<string>, now: Time)
    requires Settled(env, s) && SettledRow(env, row) && !row.archived && plan.from == row.column
    requires row.column == env.board.finished ==> plan.to == env.board.finished
    ensures var h := HandOver(env, s, row, plan, answer, now);
            Settled(env, h.s)
            && (h.Handed? && (h.event.Finishes? || h.event.IsAnswered?) ==>
                  forall i :: 0 <= i < |h.s.rows| && h.s.rows[i].id == h.event.task ==>
                    Home(h.s.rows[i]) == env.board.finished)
  {
    UpdateKeepsSettled(env, s, row.id, MovedRow(env.board, row, plan, Active(s), now));
  }

  lemma DeleteKeepsSettled(env: Setting, s: RunState, id: TaskId, now: Time)
    requires Settled(env, s) && DeleteTask(env, s, id, now).Ok?
    ensures Settled(env, DeleteTask(env, s, id, now).value)
  {
    var row, s1 := DeleteIs(env, s, id, now);
    FoundIsSettled(env, s, id);
    UpdateKeepsSettled(env, s, id, Gone(s, row));
    if Active(s) {
      ApplyKeepsSettled(env, s1, Deleted(id), now);
    }
  }

  lemma SweepKeepsSettled(env: Setting, s: RunState, gone: ColumnId, to: Option<ColumnId>, others: bool)
    requires Settled(env, s) && RemoveColumnOf(env, s, gone, to, others).Ok?
    ensures Settled(env, RemoveColumnOf(env, s, gone, to, others).value)
  {
    SweepIs(env, s, gone, to, others);
    forall i | 0 <= i < |s.rows| ensures SettledRow(env, SweptRow(s.rows[i], gone, to)) {
      assert SettledRow(env, s.rows[i]);
    }
  }

  lemma CancelKeepsSettled(env: Setting, s: RunState, deleteOpen: bool, now: Time)
    requires Settled(env, s) && CancelRun(env, s, deleteOpen, now).Ok?
    ensures Settled(env, CancelRun(env, s, deleteOpen, now).value)
  {
    var rows := CancelRun(env, s, deleteOpen, now).value.rows;
    forall i | 0 <= i < |rows| ensures SettledRow(env, rows[i]) {
      assert SettledRow(env, s.rows[i]);
    }
  }

  lemma RestoreKeepsSettled(env: Setting, s: RunState, id: TaskId)
    requires Shape(env, s) && Settled(env, s) && RestoreTask(env, s, id).Ok?
    ensures Settled(env, RestoreTask(env, s, id).value)
  {
    var row := Find(s.rows, id).value;
    FoundIsSettled(env, s, id);
    var to := RestoreColumn(s.columns, row);
    UpdateKeepsSettled(env, s, id, row.(archived := false, column := to, finishedAt := None, skipped := false));
  }

  lemma StepKeepsSettled(env: Setting, s: RunState, op: Op)
    requires ValidSetting(env) && Inv(env, s) && Settled(env, s) && !Reopens(env, s, op)
    ensures Settled(env, Exec(env, s, op))
  {
    if Try(env, s, op).Ok? {
      match op {
        case Move(id, to, answer, overriding, now) => MoveKeepsSettled(env, s, id, to, answer, overriding, now);
        case Delete(id, now) => DeleteKeepsSettled(env, s, id, now);
        case Answer(id, text, now) => AnswerKeepsSettled(env, s, id, text, now);
        case Restore(id) => RestoreKeepsSettled(env, s, id);
        case Archive(id) =>
          var row := Find(s.rows, id).value;
          UpdateKeepsSettled(env, s, id, row.(archived := true, archivedFrom := row.column));
        case Cancel(_, _) => CancelKeepsSettled(env, s, op.deleteOpen, op.now);
        case RemoveColumn(gone, to, others) => SweepKeepsSettled(env, s, gone, to, others);
        case _ =>
      }
    }
  }

  lemma AnswerKeepsSettled(env: Setting, s: RunState, id: TaskId, text: string, now: Time)
    requires ValidSetting(env) && Inv(env, s) && Settled(env, s) && AnswerTask(env, s, id, text, now).Ok?
    ensures Settled(env, AnswerTask(env, s, id, text, now).value)
  {
    var row := Find(s.rows, id).value;
    FoundIsSettled(env, s, id);
    if Done(env.board, row) {
      var event := IsAnswered(id, Canonical(row.question.value, text).value);
      forall i | 0 <= i < |s.rows| && s.rows[i].id == id ensures Home(s.rows[i]) == env.board.finished {
        FindAt(s.rows, i);
      }
      ApplyKeepsSettled(env, s, event, now);
    } else {
      MoveKeepsSettled(env, s, id, env.board.finished, Some(text), false, now);
    }
  }

  /** With every asked task finished, no move can ask one again. */
  lemma SettledIsNotStranded(env: Setting, s: RunState, op: Op)
    requires ValidSetting(env) && Inv(env, s) && Settled(env, s)
    ensures !StrandingMove(env, s, op)
  {
    if op.Move? && Try(env, s, op).Ok? {
      var row, plan := MoveIs(env, s, op.id, op.to, op.answer, op.overriding, op.now);
      FoundIsSettled(env, s, op.id);
    }
  }

  lemma StartIsSettled(env: Setting, startAt: Option<Time>, now: Time)
    requires ValidSetting(env)
    ensures Settled(env, StartRun(env, startAt, now)) && Progress(env, StartRun(env, startAt, now))
  {
    var s := NewRun(env, startAt, now);
    ApplyKeepsSettled(env, s, Created, now);
    PlanIsKnown(env, s, Created, now);
  }

  // Over whole runs.

  /** The run is well at every moment: an active run's root is open, and while
      the run is going something keeps it open. */
  ghost predicate WellAllAlong(env: Setting, s: RunState, ops: seq<Op>) {
    forall k :: 0 <= k <= |ops| ==> WellAt(env, s, ops, k)
  }

  ghost predicate WellAt(env: Setting, s: RunState, ops: seq<Op>, k: nat)
    requires k <= |ops|
  {
    Inv(env, StateAt(env, s, ops, k)) && Progress(env, StateAt(env, s, ops, k))
  }

  /** An operation that leaves the run unwell: one that sweeps its root in among
      the finished tasks, or one of the two that strand it. */
  ghost predicate Upsets(env: Setting, s: RunState, op: Op) {
    SweepsRoot(env, s, op) || StrandsRun(env, s, op)
  }

  ghost predicate UpsetsAt(env: Setting, s: RunState, ops: seq<Op>, k: nat)
    requires k < |ops|
  {
    Upsets(env, StateAt(env, s, ops, k), ops[k])
  }

  /** One operation on a run that is well. */
  lemma StepStaysWell(env: Setting, s: RunState, op: Op)
    requires ValidSetting(env) && Inv(env, s) && Progress(env, s)
    ensures Inv(env, Exec(env, s, op)) && Progress(env, Exec(env, s, op)) <==> !Upsets(env, s, op)
  {
    StepKeepsInv(env, s, op);
    StepProgress(env, s, op);
  }

  lemma {:induction false} StaysWell(env: Setting, s: RunState, ops: seq<Op>, k: nat)
    requires ValidSetting(env) && Inv(env, s) && Progress(env, s) && k <= |ops|
    requires forall i :: 0 <= i < k ==> !UpsetsAt(env, s, ops, i)
    ensures WellAt(env, s, ops, k)
  {
    if k > 0 {
      NextState(env, s, ops, k - 1);
      StaysWell(env, s, ops, k - 1);
      assert !UpsetsAt(env, s, ops, k - 1);
      StepStaysWell(env, StateAt(env, s, ops, k - 1), ops[k - 1]);
    }
  }

  /** Through any operations, reopening and column removals included, a run is
      well at every moment exactly when none of them strands it or sweeps its
      root away. */
  lemma OnlyUpsetsStick(env: Setting, s: RunState, ops: seq<Op>)
    requires ValidSetting(env) && Inv(env, s) && Progress(env, s)
    ensures WellAllAlong(env, s, ops) <==> forall k :: 0 <= k < |ops| ==> !UpsetsAt(env, s, ops, k)
  {
    if WellAllAlong(env, s, ops) {
      forall k | 0 <= k < |ops| ensures !UpsetsAt(env, s, ops, k) {
        NextState(env, s, ops, k);
        assert WellAt(env, s, ops, k) && WellAt(env, s, ops, k + 1);
        StepStaysWell(env, StateAt(env, s, ops, k), ops[k]);
      }
    }
    if forall k :: 0 <= k < |ops| ==> !UpsetsAt(env, s, ops, k) {
      forall k | 0 <= k <= |ops| ensures WellAt(env, s, ops, k) {
        StaysWell(env, s, ops, k);
      }
    }
  }

  /** No operation of the run takes a finished task out again. */
  predicate NeverReopens(env: Setting, s: RunState, ops: seq<Op>) {
    forall k :: 0 <= k < |ops| ==> !Reopens(env, StateAt(env, s, ops, k), ops[k])
  }

  /** A column removal that puts an active run's root, or the last tasks it
      waits for, in among the finished ones. */
  ghost predicate Sweeps(env: Setting, s: RunState, op: Op) {
    SweepsRoot(env, s, op) || SweepsLast(env, s, op)
  }

  ghost predicate SweepsAt(env: Setting, s: RunState, ops: seq<Op>, k: nat)
    requires k < |ops|
  {
    Sweeps(env, StateAt(env, s, ops, k), ops[k])
  }

  lemma {:induction false} StaysWellUnreopened(env: Setting, s: RunState, ops: seq<Op>, k: nat)
    requires ValidSetting(env) && Inv(env, s) && Progress(env, s) && Settled(env, s) && k <= |ops|
    requires NeverReopens(env, s, ops) && forall i :: 0 <= i < |ops| ==> !SweepsAt(env, s, ops, i)
    ensures WellAt(env, s, ops, k) && Settled(env, StateAt(env, s, ops, k))
  {
    if k > 0 {
      NextState(env, s, ops, k - 1);
      StaysWellUnreopened(env, s, ops, k - 1);
      assert !SweepsAt(env, s, ops, k - 1);
      SettledStepStaysWell(env, StateAt(env, s, ops, k - 1), ops[k - 1]);
    }
  }

  lemma SettledStepStaysWell(env: Setting, s: RunState, op: Op)
    requires ValidSetting(env) && Inv(env, s) && Progress(env, s) && Settled(env, s)
    requires !Sweeps(env, s, op) && !Reopens(env, s, op)
    ensures Inv(env, Exec(env, s, op)) && Progress(env, Exec(env, s, op)) && Settled(env, Exec(env, s, op))
  {
    StepKeepsSettled(env, s, op);
    SettledIsNotStranded(env, s, op);
    StepStaysWell(env, s, op);
  }

  /** A whole run, from its start, through any operations that never reopen a
      finished task: it is never stuck and its root is never lost exactly when
      no column removal sweeps the root, or the last tasks it waits for, in
      among the finished ones. */
  lemma RunNeverStuck(env: Setting, startAt: Option<Time>, start: Time, ops: seq<Op>)
    requires ValidSetting(env) && NeverReopens(env, StartRun(env, startAt, start), ops)
    ensures var s := StartRun(env, startAt, start);
            WellAllAlong(env, s, ops) <==> forall k :: 0 <= k < |ops| ==> !SweepsAt(env, s, ops, k)
  {
    var s := StartRun(env, startAt, start);
    StartIsInv(env, startAt, start);
    StartIsSettled(env, startAt, start);
    if forall k :: 0 <= k < |ops| ==> !SweepsAt(env, s, ops, k) {
      forall k | 0 <= k <= |ops| ensures WellAt(env, s, ops, k) {
        StaysWellUnreopened(env, s, ops, k);
      }
    }
    if WellAllAlong(env, s, ops) {
      OnlyUpsetsStick(env, s, ops);
      forall k | 0 <= k < |ops| ensures !SweepsAt(env, s, ops, k) {
        assert !UpsetsAt(env, s, ops, k);
      }
    }
  }
}
