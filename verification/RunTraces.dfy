/** What every state of a run shows of how it came about, and so which triggers
    can have fired. The people on the board are taken to stay the same. */
module RunTraces {
  import opened Options
  import opened Text
  import opened Ids
  import opened Offsets
  import opened Titles
  import opened Program
  import opened Transition
  import opened Runs
  import opened RunInvariants
  import opened RunProgress
  import opened RunSettled
  import opened RunGroups
  import opened RunRefusals
  import opened ProgramCheck
  import opened StepTrails
  import opened RunReach
  import Q = Questions

  /** The last transaction of a run fires the trigger: its start, or the last of
      the operations. */
  predicate FiresLast(env: Setting, startAt: Option<Time>, start: Time, ops: seq<Op>, t: Trigger) {
    && CanStart(env, startAt, start)
    && if ops == [] then Matches(FiredBy(env, NewRun(env, startAt, start), Created), t)
       else
         var n := |ops| - 1;
         FiresNow(env, ExecAll(env, StartRun(env, startAt, start), ops[..n]), ops[n], t)
  }

  /** Some run fires the trigger at some time. */
  ghost predicate CanFire(env: Setting, t: Trigger) {
    exists startAt, start, ops :: FiresLast(env, startAt, start, ops, t)
  }

  /** A step that counts and can have a task as the root starts, so that the run
      does not close with its start. */
  ghost predicate CountsAt(steps: seq<Step>, k: int) {
    0 <= k < |steps| && !IsRoot(steps[k]) && steps[k].counts
    && (RootStarted in steps[k].created || Comes(steps, steps[k].key, false))
  }

  /** The root can be started, and a run can go on after that. */
  ghost predicate OutlivesStart(steps: seq<Step>) {
    Goes(steps, RootStarted) && exists k :: CountsAt(steps, k)
  }

  /** Told of the steps alone: a run can be started, what the trigger sets off can
      be made, and it names a step a run can come to, while the root is not
      started or in a run that outlives the start. */
  ghost predicate CanHappen(steps: seq<Step>, t: Trigger) {
    && StartsUp(steps) && Goes(steps, t)
    && (t.Finished? || t.Answered? ==>
          Comes(steps, t.step, false) || (Comes(steps, t.step, true) && OutlivesStart(steps)))
  }

  // The start.

  /** A run can be started exactly if its steps allow it, whenever and on whatever
      board. */
  lemma CanStartIs(env: Setting, startAt: Option<Time>, now: Time)
    requires env.column in env.board.columns
    ensures CanStart(env, startAt, now) <==> StartsUp(env.steps)
  {
    var s := NewRun(env, startAt, now);
    MakeableIs(env, s, Created, now);
    forall k | 0 <= k < |env.steps| && !IsRoot(env.steps[k])
      ensures MadeAt(env, s, Created, k) <==> IsTriggered([WithRoot], env.steps[k])
    {
      forall o | o in Tasks(env.board, s.rows) ensures o.step == ROOT_KEY {
      }
    }
  }

  // What can be reached.

  predicate StepFits(steps: seq<Step>, key: string) {
    FindStep(steps, key).Some? && Fits(FindStep(steps, key).value)
  }

  /** A task is of a step the run can have come to, with titles that fit; and if it
      was asked, its step is one that can be finished. */
  ghost predicate RowTraced(env: Setting, row: Row, started: bool) {
    && Comes(env.steps, row.step, started) && StepFits(env.steps, row.step)
    && (row.asked ==> Finishable(env.steps, row.step))
  }

  ghost predicate RowsTraced(env: Setting, rows: seq<Row>, started: bool) {
    forall i :: 0 < i < |rows| ==> RowTraced(env, rows[i], started)
  }

  /** So is every task; and a run with nothing to outlive its start is over once
      started. */
  ghost predicate Traced(env: Setting, s: RunState) {
    && Shape(env, s) && GroupsOk(env, s)
    && RowsTraced(env, s.rows, s.startedAt.Some?)
    && (s.startedAt.Some? && Active(s) ==> OutlivesStart(env.steps))
  }

  /** What a transaction hands to the engine, if anything: an active run, started
      by this very event or as it was, and an answer only to what was asked. */
  predicate TurnOk(env: Setting, s: RunState, h: Handed) {
    match h
    case Kept(s1) => s1.startedAt == s.startedAt && (Active(s1) ==> Active(s))
    case Handed(s1, event) =>
      && Active(s) && Active(s1) && !event.Created?
      && (if event.RootStarts? then s.startedAt.None? && s1.startedAt.Some? && Shape(env, s1) && !Done(env.board, s1.rows[0])
          else s1.startedAt == s.startedAt)
      && (event.IsAnswered? ==> s1 == s && Find(s.rows, event.task).Some? && Find(s.rows, event.task).value.asked)
  }

  lemma MoveTurnIsOk(
    env: Setting, s: RunState, id: TaskId, to: ColumnId, answer: Option<string>, overriding: bool, now: Time)
    requires ValidSetting(env) && Shape(env, s) && MoveTask(env, s, id, to, answer, overriding, now).Ok?
    ensures TurnOk(env, s, MoveTurn(env, s, id, to, answer, overriding, now))
  {
    var row, plan := MoveIs(env, s, id, to, answer, overriding, now);
    HandOverKeepsShape(env, s, row, plan, answer, now);
    FoundRowIsOk(env, s, id);
    HandOverIs(env, s, row, plan, answer, now);
    MovedRowIsOk(env, row, plan, Active(s), now);
  }

  lemma AnswerTurnIsOk(env: Setting, s: RunState, id: TaskId, text: string, now: Time)
    requires ValidSetting(env) && Shape(env, s) && AnswerTask(env, s, id, text, now).Ok?
    ensures TurnOk(env, s, AnswerTurn(env, s, id, text, now))
  {
    if !Done(env.board, Find(s.rows, id).value) {
      MoveTurnIsOk(env, s, id, env.board.finished, Some(text), false, now);
    }
  }

  lemma TurnIsOk(env: Setting, s: RunState, op: Op)
    requires ValidSetting(env) && Shape(env, s)
    ensures TurnOk(env, s, Turn(env, s, op))
  {
    if Try(env, s, op).Ok? {
      match op {
        case Move(id, to, answer, overriding, now) => MoveTurnIsOk(env, s, id, to, answer, overriding, now);
        case Answer(id, text, now) => AnswerTurnIsOk(env, s, id, text, now);
        case _ =>
      }
    }
  }

  // By hand no task is asked.

  predicate SameAsked(a: seq<Row>, b: seq<Row>) {
    |a| == |b| && forall i :: 0 <= i < |a| ==> a[i].asked == b[i].asked
  }

  lemma UpdateSameAsked(rows: seq<Row>, row: Row, row': Row)
    requires Increasing(rows) && Find(rows, row.id) == Some(row) && row'.asked == row.asked
    ensures SameAsked(rows, Update(rows, row.id, row'))
  {
    forall i | 0 <= i < |rows| && rows[i].id == row.id ensures rows[i] == row {
      FindAt(rows, i);
    }
  }

  lemma MoveTurnSameAsked(
    env: Setting, s: RunState, id: TaskId, to: ColumnId, answer: Option<string>, overriding: bool, now: Time)
    requires Increasing(s.rows) && MoveTask(env, s, id, to, answer, overriding, now).Ok?
    ensures SameAsked(s.rows, MoveTurn(env, s, id, to, answer, overriding, now).s.rows)
  {
    var row, plan := MoveIs(env, s, id, to, answer, overriding, now);
    HandOverIs(env, s, row, plan, answer, now);
    MovedSameAsked(env, row, plan, Active(s), now);
    UpdateSameAsked(s.rows, row, MovedRow(env.board, row, plan, Active(s), now));
  }

  lemma MovedSameAsked(env: Setting, row: Row, plan: MovePlan, active: bool, now: Time)
    ensures MovedRow(env.board, row, plan, active, now).asked == row.asked
  {
  }

  lemma DeleteTurnSameAsked(env: Setting, s: RunState, id: TaskId)
    requires Increasing(s.rows) && Find(s.rows, id).Some?
    ensures SameAsked(s.rows, DeleteTurn(env, s, id).s.rows)
  {
    var row := Find(s.rows, id).value;
    UpdateSameAsked(s.rows, row, Gone(s, row));
  }

  lemma AnswerTurnSameAsked(env: Setting, s: RunState, id: TaskId, text: string, now: Time)
    requires Increasing(s.rows) && AnswerTask(env, s, id, text, now).Ok?
    ensures SameAsked(s.rows, AnswerTurn(env, s, id, text, now).s.rows)
  {
    if !Done(env.board, Find(s.rows, id).value) {
      MoveTurnSameAsked(env, s, id, env.board.finished, Some(text), false, now);
    }
  }

  lemma RestoreSameAsked(env: Setting, s: RunState, id: TaskId)
    requires Increasing(s.rows) && RestoreTask(env, s, id).Ok?
    ensures SameAsked(s.rows, RestoreTask(env, s, id).value.rows)
  {
    var row := Find(s.rows, id).value;
    var to := RestoreColumn(s.columns, row);
    UpdateSameAsked(s.rows, row, row.(archived := false, column := to, finishedAt := None, skipped := false));
  }

  lemma ArchiveSameAsked(env: Setting, s: RunState, id: TaskId)
    requires Increasing(s.rows) && ArchiveTask(env, s, id).Ok?
    ensures SameAsked(s.rows, ArchiveTask(env, s, id).value.rows)
  {
    var row := Find(s.rows, id).value;
    UpdateSameAsked(s.rows, row, row.(archived := true, archivedFrom := row.column));
  }

  lemma TurnSameAsked(env: Setting, s: RunState, op: Op)
    requires Increasing(s.rows)
    ensures SameAsked(s.rows, Turn(env, s, op).s.rows)
  {
    if Try(env, s, op).Ok? {
      match op {
        case Move(id, to, answer, overriding, now) => MoveTurnSameAsked(env, s, id, to, answer, overriding, now);
        case Answer(id, text, now) => AnswerTurnSameAsked(env, s, id, text, now);
        case Delete(id, _) => DeleteTurnSameAsked(env, s, id);
        case Restore(id) => RestoreSameAsked(env, s, id);
        case Archive(id) => ArchiveSameAsked(env, s, id);
        case RemoveColumn(gone, to, others) => SweepIs(env, s, gone, to, others);
        case _ =>
      }
    }
  }

  /** What a transaction hands over goes through. */
  lemma TurnSettles(env: Setting, s: RunState, op: Op)
    ensures CanSettle(env, Turn(env, s, op), TimeOf(op))
  {
    if Try(env, s, op).Ok? {
      match op {
        case Answer(id, text, now) => AnswerTurnSettles(env, s, id, text, now);
        case Delete(id, now) => DeleteTurnSettles(env, s, id, now);
        case Move(id, to, answer, overriding, now) => MoveTurnSettles(env, s, id, to, answer, overriding, now);
        case _ =>
      }
    }
  }

  lemma MoveTurnSettles(
    env: Setting, s: RunState, id: TaskId, to: ColumnId, answer: Option<string>, overriding: bool, now: Time)
    requires MoveTask(env, s, id, to, answer, overriding, now).Ok?
    ensures CanSettle(env, MoveTurn(env, s, id, to, answer, overriding, now), now)
  {
  }

  lemma AnswerTurnSettles(env: Setting, s: RunState, id: TaskId, text: string, now: Time)
    requires AnswerTask(env, s, id, text, now).Ok?
    ensures CanSettle(env, AnswerTurn(env, s, id, text, now), now)
  {
    if !Done(env.board, Find(s.rows, id).value) {
      MoveTurnSettles(env, s, id, env.board.finished, Some(text), false, now);
    }
  }

  lemma DeleteTurnSettles(env: Setting, s: RunState, id: TaskId, now: Time)
    requires DeleteTask(env, s, id, now).Ok?
    ensures CanSettle(env, DeleteTurn(env, s, id), now)
  {
  }

  // An event that goes through.

  /** The rows an event is about: those of a traced state, as the hand left them. */
  ghost predicate Hands(env: Setting, s: RunState, h: RunState, started: bool) {
    && ValidSetting(env) && Shape(env, s) && GroupsOk(env, s) && RowsTraced(env, s.rows, started)
    && SameRows(s.rows, h.rows) && SameAsked(s.rows, h.rows)
  }

  lemma HandsAre(env: Setting, s: RunState, h: RunState, started: bool, i: nat)
    requires Hands(env, s, h, started) && 0 < i < |h.rows|
    ensures RowTraced(env, h.rows[i], started) && h.rows[i].step != ROOT_KEY
    ensures FindStep(env.steps, h.rows[i].step).Some?
  {
    assert RowTraced(env, s.rows[i], started) && RowOk(env, s.rows[i]);
  }

  lemma TasksAreOfSteps(env: Setting, s: RunState, rows: seq<Row>)
    requires Shape(env, s) && SameRows(s.rows, rows)
    ensures forall o :: o in Tasks(env.board, rows) && o.step != ROOT_KEY ==> FindStep(env.steps, o.step).Some?
  {
    var tasks := Tasks(env.board, rows);
    forall o | o in tasks && o.step != ROOT_KEY ensures FindStep(env.steps, o.step).Some? {
      var i :| 0 <= i < |tasks| && tasks[i] == o;
      assert i > 0 ==> RowOk(env, s.rows[i]);
    }
  }

  /** What goes through sets off only steps that fit. */
  lemma WhatGoesIsSound(env: Setting, s: RunState, h: RunState, event: RunEvent, now: Time, started: bool)
    requires Hands(env, s, h, started) && CanMake(env, h, event, now)
    ensures Sound(env.steps, FiredBy(env, h, event))
  {
    var tasks, fired := Tasks(env.board, h.rows), FiredBy(env, h, event);
    MakeableIs(env, h, event, now);
    forall k | 0 <= k < |env.steps| && !IsRoot(env.steps[k]) && IsTriggered(fired, env.steps[k]) ensures Fits(env.steps[k]) {
      if Makes(tasks, fired, env.steps[k]) {
        assert MadeAt(env, h, event, k) && StepMakeable(env, h.columns, k);
      } else {
        var o :| o in tasks && o.step == env.steps[k].key && !o.skipped;
        MadeStepFits(env, s, h, started, k, o);
      }
    }
  }

  lemma MadeStepFits(env: Setting, s: RunState, h: RunState, started: bool, k: nat, o: StepTask)
    requires Hands(env, s, h, started) && k < |env.steps| && !IsRoot(env.steps[k])
    requires o in Tasks(env.board, h.rows) && o.step == env.steps[k].key
    ensures Fits(env.steps[k])
  {
    var tasks := Tasks(env.board, h.rows);
    var i :| 0 <= i < |tasks| && tasks[i] == o;
    assert h.rows[0].step == ROOT_KEY;
    HandsAre(env, s, h, started, i);
    FindStepAt(env.steps, k);
  }

  lemma SoundPart(steps: seq<Step>, all: seq<Trigger>, t: Trigger)
    requires Sound(steps, all) && t in all
    ensures Sound(steps, [t])
  {
    forall k | 0 <= k < |steps| && !IsRoot(steps[k]) && IsTriggered([t], steps[k]) ensures Fits(steps[k]) {
      var x :| x in steps[k].created && Matches([t], x);
      assert Matches(all, x);
    }
  }

  /** A task that an event that goes through finishes or answers is of a step that
      can be finished. */
  lemma FinishedIsFinishable(env: Setting, s: RunState, h: RunState, event: RunEvent, now: Time, started: bool, i: nat)
    requires Hands(env, s, h, started) && CanMake(env, h, event, now) && 0 < i < |h.rows|
    requires (event.Finishes? && event.task == h.rows[i].id) || (event.IsAnswered? && h.rows[i].asked)
    ensures Finishable(env.steps, h.rows[i].step)
  {
    HandsAre(env, s, h, started, i);
    if event.Finishes? {
      WhatGoesIsSound(env, s, h, event, now, started);
      FinishIsSound(env, s, h, event.answer, started, i);
    }
  }

  lemma FinishIsSound(env: Setting, s: RunState, h: RunState, answer: Option<string>, started: bool, i: nat)
    requires Hands(env, s, h, started) && 0 < i < |h.rows|
    requires Sound(env.steps, FiredBy(env, h, Finishes(h.rows[i].id, answer)))
    ensures Finishable(env.steps, h.rows[i].step)
  {
    var tasks, row := Tasks(env.board, h.rows), h.rows[i];
    HandsAre(env, s, h, started, i);
    FindTaskIs(env.board, h.rows, row.id);
    FindAt(h.rows, i);
    ReadFinishIs(env.steps, tasks, AsTask(env.board, row), answer);
    if GroupOpen(tasks, AsTask(env.board, row)) {
      GroupOpenIsMate(env.board, h.rows, row);
      var j :| MateAt(env.board, h.rows, row, j);
      MatesAreSeveral(env, s, i, j);
    } else {
      assert Finished(row.step) in FiredBy(env, h, Finishes(row.id, answer));
      SoundPart(env.steps, FiredBy(env, h, Finishes(row.id, answer)), Finished(row.step));
    }
  }

  /** Two tasks of a group are of a step made several at a time. */
  lemma MatesAreSeveral(env: Setting, s: RunState, i: nat, j: nat)
    requires ValidSetting(env) && Shape(env, s) && GroupsOk(env, s) && 0 < i < |s.rows| && j < |s.rows| && i != j
    requires s.rows[j].step == s.rows[i].step && s.rows[j].iteration == s.rows[i].iteration
    ensures SeveralAtOnce(env.steps, s.rows[i].step)
  {
    var row := s.rows[i];
    assert RowOk(env, row);
    var step := FindStep(env.steps, row.step).value;
    var k :| 0 <= k < |env.steps| && env.steps[k] == step;
    assert WholeGroups(env, s.rows, env.steps[k]);
    TwoInGroup(s.rows, row.step, row.iteration, if i < j then i else j, if i < j then j else i);
  }

  /** The row an event is about. */
  lemma EventRow(env: Setting, s: RunState, h: RunState, event: RunEvent, now: Time, started: bool, key: string)
    returns (i: nat)
    requires Hands(env, s, h, started) && (event.IsAnswered? || event.Finishes?)
    requires exists f :: f in FiredBy(env, h, event) && (f.Finished? || f.Answered?) && f.step == key
    ensures 0 < i < |h.rows| && h.rows[i].id == event.task && h.rows[i].step == key
  {
    var f :| f in FiredBy(env, h, event) && (f.Finished? || f.Answered?) && f.step == key;
    FiredOfTask(env.steps, Tasks(env.board, h.rows), event, f);
    FindTaskIs(env.board, h.rows, event.task);
    i := IndexOf(h.rows, event.task);
    assert h.rows[0].step == ROOT_KEY;
  }

  lemma FiredOfTask(steps: seq<Step>, tasks: seq<StepTask>, event: RunEvent, f: Trigger)
    requires event.IsAnswered? || event.Finishes?
    requires f in Read(steps, tasks, event).fired && QuestionOf(steps, ROOT_KEY).None?
    ensures FindTask(tasks, event.task).Some? && FindTask(tasks, event.task).value.step != ROOT_KEY
    ensures f.Finished? || f.Answered? ==> f.step == FindTask(tasks, event.task).value.step
  {
  }

  /** A trigger that fires in an event that goes through goes, and names the step
      of one of the run's tasks. */
  lemma FiringGoes(env: Setting, s: RunState, h: RunState, event: RunEvent, now: Time, t: Trigger, started: bool)
    requires Hands(env, s, h, started) && CanMake(env, h, event, now) && Matches(FiredBy(env, h, event), t)
    requires event.IsAnswered? ==> forall i :: 0 <= i < |h.rows| && h.rows[i].id == event.task ==> h.rows[i].asked
    ensures Goes(env.steps, t)
    ensures t.WithRoot? ==> event.Created?
    ensures t.RootStarted? ==> event.RootStarts?
    ensures t.Finished? || t.Answered? ==> Comes(env.steps, t.step, started)
  {
    var tasks, fired := Tasks(env.board, h.rows), FiredBy(env, h, event);
    TasksAreOfSteps(env, s, h.rows);
    MatchedIs(env.steps, tasks, event, t);
    WhatGoesIsSound(env, s, h, event, now, started);
    if t.Answered? {
      var f :| f in fired && f.Answered? && f.step == t.step && SameButCase(f.answer, t.answer);
      FiredIs(env.steps, tasks, event, f);
      SoundPart(env.steps, fired, f);
      assert f == Answered(t.step, f.answer);
      var i := EventRow(env, s, h, event, now, started, t.step);
      FinishedIsFinishable(env, s, h, event, now, started, i);
      HandsAre(env, s, h, started, i);
    } else {
      SoundPart(env.steps, fired, t);
      if t.Finished? {
        var i := EventRow(env, s, h, event, now, started, t.step);
        HandsAre(env, s, h, started, i);
      }
    }
  }

  // What an event that goes through leaves.

  /** A task that is made is traced, if those before are. */
  lemma MadeIsTraced(env: Setting, s: RunState, h: RunState, event: RunEvent, now: Time, c: Creation, started: bool)
    requires Hands(env, s, h, started) && CanMake(env, h, event, now)
    requires event.IsAnswered? ==> forall i :: 0 <= i < |h.rows| && h.rows[i].id == event.task ==> h.rows[i].asked
    requires c in PlanOf(env, h, event, now).create && (event.RootStarts? ==> started)
    ensures c.step < |env.steps| && Comes(env.steps, env.steps[c.step].key, started)
    ensures StepFits(env.steps, env.steps[c.step].key)
  {
    var tasks := Tasks(env.board, h.rows);
    var reading := Read(env.steps, tasks, event);
    var k := CreationIsInGroup(
      env.steps, |env.steps|, tasks, reading, h.startedAt.Some? || event.RootStarts?, now, env.zone, c);
    var t :| t in env.steps[k].created && Matches(reading.fired, t);
    FiringGoes(env, s, h, event, now, t, started);
    WhatGoesIsSound(env, s, h, event, now, started);
    assert IsTriggered(reading.fired, env.steps[k]);
    FindStepAt(env.steps, k);
    if t.Finished? || t.Answered? {
      assert LeadsTo(env.steps, t.step, env.steps[k]);
      NextComes(env.steps, t.step, k, started);
    } else {
      FirstComes(env.steps, k, started);
    }
  }

  lemma OldIsTraced(env: Setting, s: RunState, h: RunState, event: RunEvent, now: Time, started: bool, i: nat)
    requires Hands(env, s, h, started) && CanMake(env, h, event, now) && 0 < i < |h.rows|
    requires event.IsAnswered? ==> forall i :: 0 <= i < |h.rows| && h.rows[i].id == event.task ==> h.rows[i].asked
    ensures i < |Apply(env, h, event, now).rows| && RowTraced(env, Apply(env, h, event, now).rows[i], started)
  {
    var plan := PlanOf(env, h, event, now);
    PlanIsKnown(env, h, event, now);
    EnactedRows(env, h, plan, now);
    NotedKeeps(plan, h.rows[i], now);
    HandsAre(env, s, h, started, i);
    AskedIsNamed(env, h.rows[i], plan, now);
    AsksItsTask(env, h, event, now);
    if Touched(env, plan, h.rows[i], now).asked && !h.rows[i].asked {
      FinishedIsFinishable(env, s, h, event, now, started, i);
    }
  }

  lemma AskedIsNamed(env: Setting, row: Row, plan: Plan, now: Time)
    ensures Touched(env, plan, row, now).asked ==>
              row.asked || plan.ask == Some(row.id) || (plan.answered.Some? && plan.answered.value.0 == row.id)
  {
  }

  lemma MadeFrom(env: Setting, s: RunState, event: RunEvent, now: Time, i: nat) returns (c: Creation)
    requires |s.rows| <= i < |Apply(env, s, event, now).rows|
    ensures c in PlanOf(env, s, event, now).create && c.step < |env.steps|
    ensures Apply(env, s, event, now).rows[i].step == env.steps[c.step].key
  {
    var plan := PlanOf(env, s, event, now);
    PlanIsKnown(env, s, event, now);
    EnactedRows(env, s, plan, now);
    c := plan.create[i - |s.rows|];
  }

  lemma ApplyIsTraced(env: Setting, s: RunState, h: RunState, event: RunEvent, now: Time, started: bool)
    requires Hands(env, s, h, started) && CanMake(env, h, event, now) && (event.RootStarts? ==> started)
    requires event.IsAnswered? ==> forall i :: 0 <= i < |h.rows| && h.rows[i].id == event.task ==> h.rows[i].asked
    ensures RowsTraced(env, Apply(env, h, event, now).rows, started)
  {
    var s' := Apply(env, h, event, now);
    forall i | 0 < i < |s'.rows| ensures RowTraced(env, s'.rows[i], started) {
      if i < |h.rows| {
        OldIsTraced(env, s, h, event, now, started, i);
      } else {
        var c := MadeFrom(env, h, event, now, i);
        MadeIsTraced(env, s, h, event, now, c, started);
      }
    }
  }

  /** A run in which nothing counts as the root starts closes with the start. */
  lemma StartCloses(env: Setting, s: RunState, h: RunState, now: Time)
    requires Hands(env, s, h, false) && CanMake(env, h, RootStarts, now)
    requires Ready(env, h, RootStarts) && Active(Apply(env, h, RootStarts, now))
    ensures OutlivesStart(env.steps)
  {
    var plan := PlanOf(env, h, RootStarts, now);
    ApplyProgress(env, h, RootStarts, now);
    FinishIs(env, h, RootStarts, now);
    WhatGoesIsSound(env, s, h, RootStarts, now, false);
    assert FiredBy(env, h, RootStarts) == [RootStarted];
    if i :| OwedAt(env, h, plan, i) {
      assert i > 0 && RowOk(env, h.rows[i]);
      HandsAre(env, s, h, false, i);
      CountedRowCounts(env, h.rows[i]);
    } else {
      var c :| c in plan.create && c.counts;
      CountedCreationCounts(env, h, now, c);
    }
  }

  lemma CountedRowCounts(env: Setting, row: Row)
    requires RowOk(env, row) && row.counts && Comes(env.steps, row.step, false) && Goes(env.steps, RootStarted)
    ensures OutlivesStart(env.steps)
  {
    var step := FindStep(env.steps, row.step).value;
    var k :| 0 <= k < |env.steps| && env.steps[k] == step;
    assert CountsAt(env.steps, k);
  }

  lemma CountedCreationCounts(env: Setting, h: RunState, now: Time, c: Creation)
    requires c in PlanOf(env, h, RootStarts, now).create && c.counts && Goes(env.steps, RootStarted)
    ensures OutlivesStart(env.steps)
  {
    var tasks := Tasks(env.board, h.rows);
    var reading := Read(env.steps, tasks, RootStarts);
    var k := CreationIsInGroup(env.steps, |env.steps|, tasks, reading, true, now, env.zone, c);
    var t :| t in env.steps[k].created && Matches(reading.fired, t);
    assert t == RootStarted;
    assert CountsAt(env.steps, k);
  }

  // Over whole runs.

  lemma StepKeepsTraced(env: Setting, s: RunState, op: Op)
    requires ValidSetting(env) && Traced(env, s)
    ensures Traced(env, Exec(env, s, op))
  {
    StepKeepsShape(env, s, op);
    StepKeepsGroups(env, s, op);
    TurnIs(env, s, op);
    TurnIsSame(env, s, op);
    TurnSameAsked(env, s, op);
    TurnIsOk(env, s, op);
    TurnSettles(env, s, op);
    SettleKeepsTraced(env, s, Turn(env, s, op), TimeOf(op));
  }

  lemma StartedIsTraced(env: Setting, rows: seq<Row>)
    requires RowsTraced(env, rows, false)
    ensures RowsTraced(env, rows, true)
  {
    forall i | 0 < i < |rows| ensures RowTraced(env, rows[i], true) {
      assert RowTraced(env, rows[i], false);
      ComesBeforeComes(env.steps, rows[i].step);
    }
  }

  lemma AnsweredIsAsked(env: Setting, s: RunState, h: Handed)
    requires Shape(env, s) && TurnOk(env, s, h)
    ensures h.Handed? && h.event.IsAnswered? ==>
              forall i :: 0 <= i < |h.s.rows| && h.s.rows[i].id == h.event.task ==> h.s.rows[i].asked
  {
    if h.Handed? && h.event.IsAnswered? {
      forall i | 0 <= i < |s.rows| && s.rows[i].id == h.event.task ensures s.rows[i].asked {
        FindAt(s.rows, i);
      }
    }
  }

  lemma SettleKeepsTraced(env: Setting, s: RunState, h: Handed, now: Time)
    requires ValidSetting(env) && Traced(env, s) && SameRows(s.rows, h.s.rows) && SameAsked(s.rows, h.s.rows)
    requires TurnOk(env, s, h) && CanSettle(env, h, now)
    requires Shape(env, Settle(env, h, now)) && GroupsOk(env, Settle(env, h, now))
    ensures Traced(env, Settle(env, h, now))
  {
    if h.Handed? {
      AppliedIsStarted(env, h.s, h.event, now);
      AnsweredIsAsked(env, s, h);
      if h.event.RootStarts? {
        StartedIsTraced(env, s.rows);
        ApplyIsTraced(env, s, h.s, h.event, now, true);
        if Active(Settle(env, h, now)) {
          StartCloses(env, s, h.s, now);
        }
      } else {
        ApplyIsTraced(env, s, h.s, h.event, now, s.startedAt.Some?);
        StaysOver(env, h.s, h.event, now);
      }
    } else {
      KeptIsTraced(env, s, h.s);
    }
  }

  lemma KeptIsTraced(env: Setting, s: RunState, s': RunState)
    requires Shape(env, s) && SameRows(s.rows, s'.rows) && SameAsked(s.rows, s'.rows)
    requires RowsTraced(env, s.rows, s.startedAt.Some?) && s'.startedAt == s.startedAt
    ensures RowsTraced(env, s'.rows, s'.startedAt.Some?)
  {
    forall i | 0 < i < |s'.rows| ensures RowTraced(env, s'.rows[i], s'.startedAt.Some?) {
      assert RowTraced(env, s.rows[i], s.startedAt.Some?);
    }
  }

  lemma StaysOver(env: Setting, s: RunState, event: RunEvent, now: Time)
    ensures Active(Apply(env, s, event, now)) ==> Active(s)
  {
  }

  lemma NewRunHands(env: Setting, startAt: Option<Time>, now: Time)
    requires ValidSetting(env)
    ensures Hands(env, NewRun(env, startAt, now), NewRun(env, startAt, now), false)
  {
    var s := NewRun(env, startAt, now);
    NewRunHasShape(env, startAt, now);
    forall i | 0 <= i < |env.steps| && !IsRoot(env.steps[i]) ensures WholeGroups(env, s.rows, env.steps[i]) {
      RootHasNoGroups(env, s.rows, env.steps[i]);
    }
  }

  lemma StartIsTraced(env: Setting, startAt: Option<Time>, now: Time)
    requires ValidSetting(env) && CanStart(env, startAt, now)
    ensures Traced(env, StartRun(env, startAt, now))
  {
    var s := NewRun(env, startAt, now);
    NewRunHands(env, startAt, now);
    StartIsInv(env, startAt, now);
    AppliedIsStarted(env, s, Created, now);
    ApplyIsTraced(env, s, s, Created, now, false);
    RunGroupsAreWhole(env, startAt, now, []);
  }

  lemma {:induction false} RunIsTraced(env: Setting, s: RunState, ops: seq<Op>)
    requires ValidSetting(env) && Traced(env, s)
    ensures Traced(env, ExecAll(env, s, ops))
  {
    if ops != [] {
      var n := |ops| - 1;
      RunIsTraced(env, s, ops[..n]);
      StepKeepsTraced(env, ExecAll(env, s, ops[..n]), ops[n]);
    }
  }

  /** What fires in a transaction of a traced run can happen. */
  lemma FiredNowCanHappen(env: Setting, s: RunState, op: Op, t: Trigger)
    requires ValidSetting(env) && Traced(env, s) && StartsUp(env.steps) && FiresNow(env, s, op, t)
    ensures CanHappen(env.steps, t)
  {
    var h := Turn(env, s, op);
    TurnIsSame(env, s, op);
    TurnSameAsked(env, s, op);
    TurnIsOk(env, s, op);
    TurnSettles(env, s, op);
    AnsweredIsAsked(env, s, h);
    FiringGoes(env, s, h.s, h.event, TimeOf(op), t, s.startedAt.Some?);
  }

  /** What fires in some run can happen, told of the steps alone. */
  lemma FiredCanHappen(env: Setting, startAt: Option<Time>, start: Time, ops: seq<Op>, t: Trigger)
    requires ValidSetting(env) && FiresLast(env, startAt, start, ops, t)
    ensures CanHappen(env.steps, t)
  {
    CanStartIs(env, startAt, start);
    StartIsTraced(env, startAt, start);
    if ops == [] {
      NewRunHands(env, startAt, start);
      FiringGoes(env, NewRun(env, startAt, start), NewRun(env, startAt, start), Created, start, t, false);
    } else {
      var n := |ops| - 1;
      RunIsTraced(env, StartRun(env, startAt, start), ops[..n]);
      FiredNowCanHappen(env, ExecAll(env, StartRun(env, startAt, start), ops[..n]), ops[n], t);
    }
  }
}
