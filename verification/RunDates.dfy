/** What the engine hears of each operation, and when a task of a run gets its start
    date. */
module RunDates {
  import opened Options
  import opened Ids
  import opened Offsets
  import opened Questions
  import opened Program
  import opened Transition
  import opened Runs
  import opened RunInvariants
  import opened RunGroups
  import opened RunRows
  import opened RunMade
  import opened EngineTells

  // What the engine hears.

  predicate IsRow(s: RunState, id: TaskId, row: Row) {
    row in s.rows && row.id == id
  }

  /** Whether an operation that is not refused is this event for the engine: in a live
      run, the root's first start, a task's arrival in the finished column with what
      was said to its question, a deletion, or a late answer. */
  ghost predicate Hears(env: Setting, s: RunState, op: Op, event: RunEvent) {
    && Active(s)
    && match op
       case Move(id, to, answer, _, _) =>
         exists row :: IsRow(s, id, row) && row.column != to
           && if to == env.board.started && row.step == ROOT_KEY && s.startedAt.None? then event == RootStarts
              else to == env.board.finished && event == Finishes(id, answer)
       case Delete(id, _) => event == Deleted(id)
       case Answer(id, text, _) =>
         exists row :: IsRow(s, id, row)
           && if Done(env.board, row)
              then event.IsAnswered? && event.task == id && row.question.Some? && TakenFor(row.question.value, text, event.text)
              else event == Finishes(id, Some(text))
       case _ => false
  }

  lemma FoundRow(s: RunState, id: TaskId)
    requires Increasing(s.rows) && Find(s.rows, id).Some?
    ensures forall row :: IsRow(s, id, row) <==> row == Find(s.rows, id).value
  {
    forall row | IsRow(s, id, row) ensures row == Find(s.rows, id).value {
      var i :| 0 <= i < |s.rows| && s.rows[i] == row;
      FindAt(s.rows, i);
    }
  }

  lemma MoveIsHeard(
    env: Setting, s: RunState, id: TaskId, to: ColumnId, answer: Option<string>, overriding: bool, now: Time,
    event: RunEvent)
    requires ValidSetting(env) && Increasing(s.rows) && MoveTask(env, s, id, to, answer, overriding, now).Ok?
    ensures var h := MoveTurn(env, s, id, to, answer, overriding, now);
            (h.Handed? && h.event == event) <==> Hears(env, s, Move(id, to, answer, overriding, now), event)
  {
    var row, plan := MoveIs(env, s, id, to, answer, overriding, now);
    HandOverIsHeard(env, s, row, plan, answer, now, event);
    FoundRow(s, id);
    assert IsRow(s, id, row);
  }

  lemma HandOverIsHeard(
    env: Setting, s: RunState, row: Row, plan: MovePlan, answer: Option<string>, now: Time, event: RunEvent)
    ensures var h := HandOver(env, s, row, plan, answer, now);
            (h.Handed? && h.event == event) <==>
              Active(s) && plan.from != plan.to
              && if plan.to == env.board.started && row.step == ROOT_KEY && s.startedAt.None? then event == RootStarts
                 else plan.to == env.board.finished && event == Finishes(row.id, answer)
  {
  }

  lemma AnswerIsHeard(env: Setting, s: RunState, id: TaskId, text: string, now: Time, event: RunEvent)
    requires ValidSetting(env) && Increasing(s.rows) && AnswerTask(env, s, id, text, now).Ok?
    ensures var h := AnswerTurn(env, s, id, text, now);
            (h.Handed? && h.event == event) <==> Hears(env, s, Answer(id, text, now), event)
  {
    var row := Find(s.rows, id).value;
    FoundRow(s, id);
    assert IsRow(s, id, row);
    if Done(env.board, row) {
      LateAnswerIsHeard(env, s, id, text, now, row, event);
    } else {
      MoveIsHeard(env, s, id, env.board.finished, Some(text), false, now, event);
      FinishIsHeard(env, s, id, text, now, row, event);
    }
  }

  lemma LateAnswerIsHeard(env: Setting, s: RunState, id: TaskId, text: string, now: Time, row: Row, event: RunEvent)
    requires AnswerTask(env, s, id, text, now).Ok? && Find(s.rows, id) == Some(row) && Done(env.board, row)
    requires forall r :: IsRow(s, id, r) <==> r == row
    ensures var h := AnswerTurn(env, s, id, text, now);
            (h.Handed? && h.event == event) <==> Hears(env, s, Answer(id, text, now), event)
  {
    if event.IsAnswered? {
      CanonicalIs(row.question.value, text, event.text);
    }
  }

  lemma FinishIsHeard(env: Setting, s: RunState, id: TaskId, text: string, now: Time, row: Row, event: RunEvent)
    requires ValidSetting(env) && IsRow(s, id, row) && !Done(env.board, row)
    requires forall r :: IsRow(s, id, r) <==> r == row
    ensures Hears(env, s, Move(id, env.board.finished, Some(text), false, now), event)
       <==> Active(s) && event == Finishes(id, Some(text))
  {
  }

  /** The engine hears exactly that. */
  lemma EngineHears(env: Setting, s: RunState, op: Op, event: RunEvent)
    requires ValidSetting(env) && Increasing(s.rows) && Try(env, s, op).Ok?
    ensures (Turn(env, s, op).Handed? && Turn(env, s, op).event == event) <==> Hears(env, s, op, event)
  {
    match op {
      case Move(id, to, answer, overriding, now) => MoveIsHeard(env, s, id, to, answer, overriding, now, event);
      case Answer(id, text, now) => AnswerIsHeard(env, s, id, text, now, event);
      case _ =>
    }
  }

  // Start dates.

  /** Whether a task's step says it starts with the root. */
  predicate GoesByRoot(steps: seq<Step>, key: string) {
    key != ROOT_KEY && exists step :: step in steps && step.key == key && step.start.WhenRootStarts?
  }

  lemma {:induction false} WaitingAre(steps: seq<Step>, tasks: seq<StepTask>, k: nat)
    requires UniqueIds(tasks) && k < |tasks|
    ensures tasks[k].id in Waiting(steps, tasks)
       <==> !tasks[k].done && !tasks[k].skipped && GoesByRoot(steps, tasks[k].step)
  {
    var n := |tasks| - 1;
    var rest := tasks[..n];
    WaitingAreTasks(steps, rest);
    if k < n {
      WaitingAre(steps, rest, k);
    }
  }

  /** Whether the start of the root gives this task its start date. */
  predicate DatedByStart(env: Setting, row: Row) {
    row.startAt.None? && !Done(env.board, row) && !row.skipped && GoesByRoot(env.steps, row.step)
  }

  lemma EngineDates(env: Setting, s: RunState, event: RunEvent, now: Time, i: nat)
    requires Increasing(s.rows) && i < |s.rows|
    ensures i < |Apply(env, s, event, now).rows|
    ensures Apply(env, s, event, now).rows[i].startAt ==
            if event.RootStarts? && DatedByStart(env, s.rows[i]) then Some(now) else s.rows[i].startAt
  {
    var plan, tasks := PlanOf(env, s, event, now), Tasks(env.board, s.rows);
    PlanIsKnown(env, s, event, now);
    EnactedRows(env, s, plan, now);
    TasksAreUnique(env, s.rows);
    WaitingAre(env.steps, tasks, i);
    assert plan.setStart == if event.RootStarts? then Waiting(env.steps, tasks) else [];
  }

  /** The first start of the root dates exactly the tasks that go by it, are open and
      have no date yet; nothing else gives a task that is there a date, or takes one. */
  lemma StartDatesAreTold(env: Setting, s: RunState, op: Op, i: nat)
    requires ValidSetting(env) && Shape(env, s) && i < |s.rows| && Try(env, s, op).Ok?
    ensures i < |Exec(env, s, op).rows|
    ensures Exec(env, s, op).rows[i].startAt ==
            if Hears(env, s, op, RootStarts) && DatedByStart(env, s.rows[i]) then Some(TimeOf(op)) else s.rows[i].startAt
  {
    var h := Turn(env, s, op);
    TurnIs(env, s, op);
    TurnIsSame(env, s, op);
    EngineHears(env, s, op, RootStarts);
    HandOnRow(env, s, op, i);
    if h.Handed? {
      EngineDates(env, h.s, h.event, TimeOf(op), i);
      if h.event.RootStarts? {
        RootMovesAlone(env, s, op, i);
      }
    }
  }

  /** The root's start moves no other task by hand. */
  lemma RootMovesAlone(env: Setting, s: RunState, op: Op, i: nat)
    requires ValidSetting(env) && Shape(env, s) && i < |s.rows| && Try(env, s, op).Ok? && Hears(env, s, op, RootStarts)
    ensures i < |Turn(env, s, op).s.rows|
    ensures DatedByStart(env, Turn(env, s, op).s.rows[i]) <==> DatedByStart(env, s.rows[i])
  {
    HandOnRow(env, s, op, i);
    var row :| IsRow(s, op.id, row);
    var k :| 0 <= k < |s.rows| && s.rows[k] == row;
    assert forall j :: 0 < j < |s.rows| ==> RowOk(env, s.rows[j]);
    assert s.rows[i].id == op.id ==> i == k;
  }

  // The marks of the run itself.

  /** A run is marked as started by the root's first start, as cancelled by that, and as
      finished by what the engine makes of an event, each with the moment and once. */
  lemma MarksAreTold(env: Setting, s: RunState, op: Op)
    requires ValidSetting(env) && Shape(env, s) && Try(env, s, op).Ok?
    ensures var s' := Exec(env, s, op);
            s'.startedAt == (if Hears(env, s, op, RootStarts) then Some(TimeOf(op)) else s.startedAt)
            && s'.cancelledAt == (if op.Cancel? then Some(op.now) else s.cancelledAt)
            && (op.Cancel? ==> s.cancelledAt.None? && s.finishedAt.None?)
            && (s'.finishedAt != s.finishedAt ==>
                  s.finishedAt.None? && s'.finishedAt == Some(TimeOf(op)) && exists e :: Hears(env, s, op, e))
  {
    var h := Turn(env, s, op);
    TurnIs(env, s, op);
    EngineHears(env, s, op, RootStarts);
    if h.Handed? {
      EngineHears(env, s, op, h.event);
    }
    TurnMarks(env, s, op);
  }

  lemma TurnMarks(env: Setting, s: RunState, op: Op)
    requires Try(env, s, op).Ok?
    ensures var h := Turn(env, s, op);
            h.s.startedAt == (if h.Handed? && h.event.RootStarts? then Some(TimeOf(op)) else s.startedAt)
            && h.s.cancelledAt == (if op.Cancel? then Some(op.now) else s.cancelledAt)
            && h.s.finishedAt == s.finishedAt
  {
    match op {
      case Move(id, to, answer, overriding, now) => MoveMarks(env, s, id, to, answer, overriding, now);
      case Answer(id, text, now) =>
        if !Done(env.board, Find(s.rows, id).value) {
          MoveMarks(env, s, id, env.board.finished, Some(text), false, now);
        }
      case _ =>
    }
  }

  lemma MoveMarks(
    env: Setting, s: RunState, id: TaskId, to: ColumnId, answer: Option<string>, overriding: bool, now: Time)
    requires MoveTask(env, s, id, to, answer, overriding, now).Ok?
    ensures var h := MoveTurn(env, s, id, to, answer, overriding, now);
            h.s.startedAt == (if h.Handed? && h.event.RootStarts? then Some(now) else s.startedAt)
            && h.s.cancelledAt == s.cancelledAt && h.s.finishedAt == s.finishedAt
  {
  }

  /** A run begins with its root in the run's column, with the date it was given and its
      step's time limit, and as yet neither started, finished nor cancelled. */
  lemma RootIsMade(env: Setting, startAt: Option<Time>, start: Time, step: Step)
    requires ValidSetting(env) && step in env.steps && step.key == ROOT_KEY
    ensures var s := StartRun(env, startAt, start);
            s.rows != [] && s.startedAt.None? && s.finishedAt.None? && s.cancelledAt.None? && s.columns == env.board.columns
            && var root := s.rows[0];
               root.id == env.root && root.step == ROOT_KEY && root.column == env.column && root.startAt == startAt
               && root.limit == step.timeLimit && root.dueAt.None? && root.finishedAt.None? && !root.archived && !root.counts
  {
    var s := NewRun(env, startAt, start);
    NewRunHasShape(env, startAt, start);
    FindAt(s.rows, 0);
    EngineOnRow(env, s, Created, start, 0);
    EngineDates(env, s, Created, start, 0);
    var k :| 0 <= k < |env.steps| && env.steps[k] == step;
    FindStepAt(env.steps, k);
    RootEventEndsRun(env, s, Created, start);
  }
}
