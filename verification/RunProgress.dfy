/** Whether a run can get stuck or close early: while it is going, some task
    that counts keeps its root open, and the transaction that leaves none
    finishes the root and closes the run. Two things break this: finishing
    again, without an answer, a task whose question was answered before, and
    removing the column the last open tasks are in so that they land among the
    finished ones. */
module RunProgress {
  import opened Options
  import opened Ids
  import opened Offsets
  import opened Questions
  import opened Program
  import opened Transition
  import opened Runs
  import opened RunInvariants

  /** What the engine is told has been done to the rows already. */
  predicate Reflected(env: Setting, s: RunState, event: RunEvent) {
    && (event.Finishes? ==> forall i :: 0 <= i < |s.rows| && s.rows[i].id == event.task ==> Done(env.board, s.rows[i]))
    && (event.Deleted? ==> forall i :: 0 <= i < |s.rows| && s.rows[i].id == event.task ==> s.rows[i].skipped)
  }

  predicate CountsNone(create: seq<Creation>) {
    forall c :: c in create ==> !c.counts
  }

  /** A task the root waits for while it is not done. */
  predicate Owing(row: Row) {
    row.step != ROOT_KEY && row.counts && !row.skipped
  }

  /** The plan asks a question that has an answer on file, of the last task the
      root was waiting for, and makes nothing that counts. */
  predicate Strands(env: Setting, s: RunState, plan: Plan) {
    && plan.ask.Some?
    && Find(s.rows, plan.ask.value).Some?
    && Owing(Find(s.rows, plan.ask.value).value) && Find(s.rows, plan.ask.value).value.answer.Some?
    && CountsNone(plan.create)
    && forall i :: 0 <= i < |s.rows| && s.rows[i].id != plan.ask.value ==> !OpenRow(env, s.rows[i])
  }

  /** An event the engine reads without ending the run, on a live started run. */
  predicate Ready(env: Setting, s: RunState, event: RunEvent) {
    && ValidSetting(env) && Shape(env, s) && Reflected(env, s, event)
    && Active(s) && !Done(env.board, s.rows[0]) && !EndsRoot(env, event) && s.startedAt.Some?
  }

  lemma RootIsNotDone(env: Setting, s: RunState)
    requires Shape(env, s) && !Done(env.board, s.rows[0])
    ensures !RootDone(Tasks(env.board, s.rows))
  {
    var tasks := Tasks(env.board, s.rows);
    forall t | t in tasks && t.step == ROOT_KEY ensures !t.done {
      var i :| 0 <= i < |tasks| && tasks[i] == t;
      assert i > 0 ==> RowOk(env, s.rows[i]);
    }
  }

  /** What the engine asks of a row that already reflects the event. */
  predicate StillOwed(env: Setting, row: Row, plan: Plan) {
    var answeredNow := plan.answered.Some? && plan.answered.value.0 == row.id;
    && row.step != ROOT_KEY && row.counts && !row.skipped
    && (!Done(env.board, row) || (Pending(row) && !answeredNow) || plan.ask == Some(row.id))
  }

  lemma KeepsOpenIs(env: Setting, s: RunState, event: RunEvent, i: nat, reading: Reading, plan: Plan)
    requires Reflected(env, s, event) && i < |s.rows|
    requires plan.answered == reading.answered && plan.ask == reading.ask
    ensures KeepsRootOpen(AsTask(env.board, s.rows[i]), event, reading) <==> StillOwed(env, s.rows[i], plan)
  {
  }

  ghost predicate AnyOwed(env: Setting, s: RunState, plan: Plan) {
    exists i :: OwedAt(env, s, plan, i)
  }

  predicate OwedAt(env: Setting, s: RunState, plan: Plan, i: int) {
    0 <= i < |s.rows| && StillOwed(env, s.rows[i], plan)
  }

  /** The root finishes exactly when nothing is owed and nothing that counts is
      made. */
  lemma FinishIs(env: Setting, s: RunState, event: RunEvent, now: Time)
    requires Ready(env, s, event)
    ensures var plan := PlanOf(env, s, event, now);
            !plan.endRun && (plan.finishRoot <==> !AnyOwed(env, s, plan) && CountsNone(plan.create))
  {
    var tasks := Tasks(env.board, s.rows);
    var plan := PlanOf(env, s, event, now);
    var reading := Read(env.steps, tasks, event);
    RootEventEndsRun(env, s, event, now);
    RootIsNotDone(env, s);
    forall i | 0 <= i < |s.rows|
      ensures tasks[i] in tasks
      ensures KeepsRootOpen(tasks[i], event, reading) <==> OwedAt(env, s, plan, i)
    {
      KeepsOpenIs(env, s, event, i, reading, plan);
    }
    if t :| t in tasks && KeepsRootOpen(t, event, reading) {
      var i :| 0 <= i < |tasks| && tasks[i] == t;
      assert OwedAt(env, s, plan, i);
    }
    if i :| OwedAt(env, s, plan, i) {
      assert KeepsRootOpen(tasks[i], event, reading);
    }
  }

  /** After the plan, a row is open exactly when it was owed, unless its
      question was asked with an answer already on file. */
  lemma TouchedOpenIs(env: Setting, row: Row, plan: Plan, now: Time)
    requires row.step != ROOT_KEY && row.id != env.root
    requires plan.ask.Some? ==> plan.answered.None?
    requires plan.ask == Some(row.id) ==> Done(env.board, row)
    ensures OpenRow(env, Touched(env, plan, row, now))
       <==> StillOwed(env, row, plan) && !(plan.ask == Some(row.id) && row.answer.Some?)
  {
  }

  lemma MadeOpenIs(env: Setting, c: Creation, id: TaskId, now: Time)
    requires ValidSetting(env) && c.step < |env.steps| && !IsRoot(env.steps[c.step])
    ensures OpenRow(env, RowFor(env, c, id, now)) <==> c.counts
  {
  }

  /** The question an event asks is of the task it finished. */
  lemma AsksWhatFinished(env: Setting, s: RunState, event: RunEvent, now: Time)
    ensures var plan := PlanOf(env, s, event, now);
            plan.ask.Some? ==> event.Finishes? && event.task == plan.ask.value && plan.answered.None?
  {
  }

  ghost predicate OldOpen(env: Setting, s: RunState, plan: Plan) {
    exists i :: OwedAt(env, s, plan, i) && !(plan.ask == Some(s.rows[i].id) && s.rows[i].answer.Some?)
  }

  /** Whether row `i` is open after a plan, told from before. */
  predicate OpenNext(env: Setting, s: RunState, plan: Plan, i: int) {
    if i < |s.rows| then OwedAt(env, s, plan, i) && !(plan.ask == Some(s.rows[i].id) && s.rows[i].answer.Some?)
    else i < |s.rows| + |plan.create| && plan.create[i - |s.rows|].counts
  }

  lemma OpenAtAfter(env: Setting, s: RunState, event: RunEvent, plan: Plan, i: nat, now: Time)
    requires Ready(env, s, event) && Known(env, plan.create) && MadeBySteps(env, plan.create)
    requires plan.ask.Some? ==> event.Finishes? && event.task == plan.ask.value && plan.answered.None?
    requires i < |s.rows| + |plan.create|
    ensures OpenAt(env, Enact(env, s, plan, now).rows, i) <==> OpenNext(env, s, plan, i)
  {
    EnactedRows(env, s, plan, now);
    RowOpenNext(env, s, event, plan, i, now, Enact(env, s, plan, now).rows[i]);
  }

  lemma RowOpenNext(env: Setting, s: RunState, event: RunEvent, plan: Plan, i: nat, now: Time, row: Row)
    requires Ready(env, s, event) && Known(env, plan.create) && MadeBySteps(env, plan.create)
    requires plan.ask.Some? ==> event.Finishes? && event.task == plan.ask.value && plan.answered.None?
    requires i < |s.rows| + |plan.create|
    requires row == if i < |s.rows| then Touched(env, plan, s.rows[i], now)
                    else RowFor(env, plan.create[i - |s.rows|], s.nextId + (i - |s.rows|), now)
    ensures OpenRow(env, row) <==> OpenNext(env, s, plan, i)
  {
    var n := |s.rows|;
    if i == 0 {
      NotedKeeps(plan, s.rows[0], now);
    } else if i < n {
      OldOpenAtAfter(env, s, event, plan, i, now);
    } else {
      MadeOpenIs(env, plan.create[i - n], s.nextId + (i - n), now);
    }
  }

  lemma OldOpenAtAfter(env: Setting, s: RunState, event: RunEvent, plan: Plan, i: nat, now: Time)
    requires Ready(env, s, event)
    requires plan.ask.Some? ==> event.Finishes? && event.task == plan.ask.value && plan.answered.None?
    requires 0 < i < |s.rows|
    ensures OpenRow(env, Touched(env, plan, s.rows[i], now)) <==> OpenNext(env, s, plan, i)
  {
    assert RowOk(env, s.rows[i]) && s.rows[0].id < s.rows[i].id;
    TouchedOpenIs(env, s.rows[i], plan, now);
  }

  /** What is open after a transaction: what was owed, and what it made. */
  lemma OpenAfter(env: Setting, s: RunState, event: RunEvent, now: Time)
    requires Ready(env, s, event)
    ensures var plan := PlanOf(env, s, event, now);
            AnyOpen(env, Apply(env, s, event, now)) <==> OldOpen(env, s, plan) || !CountsNone(plan.create)
  {
    var plan := PlanOf(env, s, event, now);
    PlanIsKnown(env, s, event, now);
    PlanIsOfSteps(env, s, event, now);
    AsksWhatFinished(env, s, event, now);
    var s' := Enact(env, s, plan, now);
    forall i | 0 <= i < |s'.rows| ensures OpenAt(env, s'.rows, i) <==> OpenNext(env, s, plan, i) {
      OpenAtAfter(env, s, event, plan, i, now);
    }
    OpenAfterEither(env, s, plan, s');
  }

  lemma OpenAfterEither(env: Setting, s: RunState, plan: Plan, s': RunState)
    requires |s'.rows| == |s.rows| + |plan.create|
    requires forall i :: 0 <= i < |s'.rows| ==> (OpenAt(env, s'.rows, i) <==> OpenNext(env, s, plan, i))
    ensures AnyOpen(env, s') <==> OldOpen(env, s, plan) || !CountsNone(plan.create)
  {
    var n := |s.rows|;
    if i :| OpenAt(env, s'.rows, i) {
      if i < n {
        assert OwedAt(env, s, plan, i);
      } else {
        assert plan.create[i - n] in plan.create;
      }
    }
    if i :| OwedAt(env, s, plan, i) && !(plan.ask == Some(s.rows[i].id) && s.rows[i].answer.Some?) {
      assert OpenAt(env, s'.rows, i);
    }
    if c :| c in plan.create && c.counts {
      var k :| 0 <= k < |plan.create| && plan.create[k] == c;
      assert OpenAt(env, s'.rows, n + k);
    }
  }

  /** After any event on a live run: it goes on with something open, or it is
      closed with nothing open; the one exception is a stranding plan. */
  lemma ApplyProgress(env: Setting, s: RunState, event: RunEvent, now: Time)
    requires Ready(env, s, event)
    ensures var plan, s' := PlanOf(env, s, event, now), Apply(env, s, event, now);
            (Active(s') <==> !plan.finishRoot)
            && (Active(s') ==> (AnyOpen(env, s') <==> !Strands(env, s, plan)))
            && (!Active(s') ==> !AnyOpen(env, s') && !Strands(env, s, plan))
  {
    var plan, s' := PlanOf(env, s, event, now), Apply(env, s, event, now);
    PlanIsKnown(env, s, event, now);
    FinishIs(env, s, event, now);
    OpenAfter(env, s, event, now);
    FindAt(s.rows, 0);
    assert FinishesRoot(env, plan, s.rows) <==> plan.finishRoot;
    AsksWhatFinished(env, s, event, now);
    if Active(s') {
      StrandedOrOpen(env, s, event, plan);
    }
    if Strands(env, s, plan) {
      StrandsOwes(env, s, plan);
    }
  }

  lemma StrandsOwes(env: Setting, s: RunState, plan: Plan)
    requires Strands(env, s, plan)
    ensures AnyOwed(env, s, plan)
  {
    var i := IndexOf(s.rows, plan.ask.value);
    assert OwedAt(env, s, plan, i);
  }

  lemma StrandedOrOpen(env: Setting, s: RunState, event: RunEvent, plan: Plan)
    requires Ready(env, s, event)
    requires plan.ask.Some? ==> event.Finishes? && event.task == plan.ask.value && plan.answered.None?
    requires AnyOwed(env, s, plan) || !CountsNone(plan.create)
    ensures OldOpen(env, s, plan) || !CountsNone(plan.create) <==> !Strands(env, s, plan)
  {
    if CountsNone(plan.create) {
      if plan.ask.Some? {
        forall i | 0 <= i < |s.rows| && s.rows[i].id != plan.ask.value
          ensures OwedAt(env, s, plan, i) <==> OpenRow(env, s.rows[i])
        {
        }
      }
      if OldOpen(env, s, plan) {
        var i :| OwedAt(env, s, plan, i) && !(plan.ask == Some(s.rows[i].id) && s.rows[i].answer.Some?);
        if plan.ask == Some(s.rows[i].id) {
          FindAt(s.rows, i);
        }
      } else {
        var i :| OwedAt(env, s, plan, i);
        assert plan.ask == Some(s.rows[i].id) && s.rows[i].answer.Some?;
        FindAt(s.rows, i);
      }
    }
  }

  // Operation by operation.

  lemma CountsNoneOfConcat(a: seq<Creation>, b: seq<Creation>)
    ensures CountsNone(a + b) <==> CountsNone(a) && CountsNone(b)
  {
    assert forall c :: c in a ==> c in a + b;
    assert forall c :: c in b ==> c in a + b;
  }

  lemma GroupCounts(
    index: nat, s: Step, tasks: seq<StepTask>, trigger: Option<TaskId>, started: bool, now: Time, zone: Zone)
    ensures CountsNone(GroupOf(index, s, tasks, trigger, started, now, zone)) <==> !s.counts
  {
    var group := GroupOf(index, s, tasks, trigger, started, now, zone);
    assert group[0] in group;
  }

  lemma {:induction false} CountedCreations(
    steps: seq<Step>, n: nat, tasks: seq<StepTask>, reading: Reading, started: bool, now: Time, zone: Zone)
    requires n <= |steps|
    ensures CountsNone(Creations(steps, n, tasks, reading, started, now, zone))
       <==> forall i :: 0 <= i < n ==> !(steps[i].counts && Makes(tasks, reading.fired, steps[i]))
  {
    if n > 0 {
      CountedCreations(steps, n - 1, tasks, reading, started, now, zone);
      var s := steps[n - 1];
      var before := Creations(steps, n - 1, tasks, reading, started, now, zone);
      if Makes(tasks, reading.fired, s) {
        GroupCounts(n - 1, s, tasks, reading.trigger, started, now, zone);
        CountsNoneOfConcat(before, GroupOf(n - 1, s, tasks, reading.trigger, started, now, zone));
      } else {
        CountsNoneOfConcat(before, []);
      }
    }
  }

  /** Whether finishing this row sets off a step that counts. */
  ghost predicate SetsOffCounted(env: Setting, rows: seq<Row>, row: Row) {
    && !GroupOpen(Tasks(env.board, rows), AsTask(env.board, row))
    && exists i :: 0 <= i < |env.steps| && env.steps[i].counts
         && Makes(Tasks(env.board, rows), [Finished(row.step)], env.steps[i])
  }

  /** Whether finishing this row with this answer leaves its question open
      again, answered before, with nothing else owed and nothing set off. */
  ghost predicate StrandsAt(env: Setting, rows: seq<Row>, row: Row, answer: Option<string>) {
    && Owing(row) && row.question.Some? && GivenAnswer(row.question.value, answer).None? && row.answer.Some?
    && (forall i :: 0 <= i < |rows| && rows[i].id != row.id ==> !OpenRow(env, rows[i]))
    && !SetsOffCounted(env, rows, row)
  }

  /** The one move that strands a run, told before it: the last task the root
      waits for goes to the finished column again without an answer, its
      question has no default and was answered before, and its finishing sets
      off nothing that counts. */
  ghost predicate StrandingMove(env: Setting, s: RunState, op: Op)
  {
    && op.Move? && op.to == env.board.finished && Try(env, s, op).Ok?
    && Active(s) && s.startedAt.Some? && Find(s.rows, op.id).Some?
    && var row := Find(s.rows, op.id).value;
       row.column != env.board.finished && StrandsAt(env, s.rows, row, op.answer)
  }

  /** The one column removal that strands a run, told before it: everything the
      root still waits for is in that column, none of it with an open question,
      and goes to the finished column. */
  ghost predicate SweepsLast(env: Setting, s: RunState, op: Op) {
    && op.RemoveColumn? && op.moveTo == Some(env.board.finished) && Try(env, s, op).Ok?
    && Active(s) && s.startedAt.Some?
    && forall i :: OpenAt(env, s.rows, i) ==> s.rows[i].column == op.gone && !Pending(s.rows[i])
  }

  ghost predicate StrandsRun(env: Setting, s: RunState, op: Op) {
    StrandingMove(env, s, op) || SweepsLast(env, s, op)
  }

  predicate UnskippedAt(rows: seq<Row>, key: string, i: int) {
    0 <= i < |rows| && rows[i].step == key && !rows[i].skipped
  }

  /** Whether a step has a task that was not skipped, told by the rows. */
  lemma UnskippedIs(board: Board, rows: seq<Row>, key: string)
    ensures (exists t :: t in Tasks(board, rows) && t.step == key && !t.skipped) <==> exists i :: UnskippedAt(rows, key, i)
  {
    var tasks := Tasks(board, rows);
    if t :| t in tasks && t.step == key && !t.skipped {
      var i :| 0 <= i < |tasks| && tasks[i] == t;
      assert UnskippedAt(rows, key, i);
    }
    if i :| UnskippedAt(rows, key, i) {
      assert tasks[i] in tasks;
    }
  }

  /** Moving a row changes nothing another row's triggers look at. */
  lemma MovedTasksMakeTheSame(env: Setting, rows: seq<Row>, row: Row, row': Row, fired: seq<Trigger>, step: Step)
    requires Find(rows, row.id) == Some(row) && Increasing(rows)
    requires row'.id == row.id && row'.step == row.step && row'.skipped == row.skipped
    ensures Makes(Tasks(env.board, Update(rows, row.id, row')), fired, step)
       <==> Makes(Tasks(env.board, rows), fired, step)
  {
    var updated := Update(rows, row.id, row');
    UnskippedIs(env.board, rows, step.key);
    UnskippedIs(env.board, updated, step.key);
    forall i ensures UnskippedAt(updated, step.key, i) <==> UnskippedAt(rows, step.key, i) {
      if 0 <= i < |rows| && rows[i].id == row.id {
        FindAt(rows, i);
      }
    }
  }

  /** A task of the same group as another, neither done nor skipped. */
  predicate MateAt(board: Board, rows: seq<Row>, row: Row, i: int) {
    0 <= i < |rows| && rows[i].step == row.step && rows[i].iteration == row.iteration && rows[i].id != row.id
    && !Done(board, rows[i]) && !rows[i].skipped
  }

  lemma GroupOpenIsMate(board: Board, rows: seq<Row>, row: Row)
    ensures GroupOpen(Tasks(board, rows), AsTask(board, row)) <==> exists i :: MateAt(board, rows, row, i)
  {
    var tasks := Tasks(board, rows);
    if o :| o in tasks && o.step == row.step && o.iteration == row.iteration && o.id != row.id && !o.done && !o.skipped {
      var i :| 0 <= i < |rows| && tasks[i] == o;
      assert MateAt(board, rows, row, i);
    }
    if i :| MateAt(board, rows, row, i) {
      assert tasks[i] in tasks;
    }
  }

  lemma MovedGroupIsTheSame(env: Setting, rows: seq<Row>, row: Row, row': Row)
    requires Find(rows, row.id) == Some(row) && Increasing(rows)
    requires row'.id == row.id && row'.step == row.step && row'.iteration == row.iteration
    ensures GroupOpen(Tasks(env.board, Update(rows, row.id, row')), AsTask(env.board, row'))
       <==> GroupOpen(Tasks(env.board, rows), AsTask(env.board, row))
  {
    var updated := Update(rows, row.id, row');
    GroupOpenIsMate(env.board, rows, row);
    GroupOpenIsMate(env.board, updated, row');
    forall i ensures MateAt(env.board, updated, row', i) <==> MateAt(env.board, rows, row, i) {
    }
  }

  /** A finish of a task that is not the root, in the engine's terms. */
  lemma FinishPlanIs(env: Setting, s: RunState, row: Row, answer: Option<string>, now: Time)
    requires Find(s.rows, row.id) == Some(row) && Increasing(s.rows) && row.step != ROOT_KEY
    requires row.question == QuestionOf(env.steps, row.step)
    ensures var plan := PlanOf(env, s, Finishes(row.id, answer), now);
            var asks := row.question.Some? && GivenAnswer(row.question.value, answer).None?;
            plan.ask == (if asks then Some(row.id) else None)
            && (asks ==> (CountsNone(plan.create) <==> !SetsOffCounted(env, s.rows, row)))
  {
    var tasks := Tasks(env.board, s.rows);
    var event := Finishes(row.id, answer);
    var reading := Read(env.steps, tasks, event);
    FindTaskIs(env.board, s.rows, row.id);
    CountedCreations(env.steps, |env.steps|, tasks, reading, s.startedAt.Some?, now, env.zone);
    if reading.fired == [] {
      forall i | 0 <= i < |env.steps| ensures !Makes(tasks, reading.fired, env.steps[i]) {
      }
    }
  }

  lemma FinishIsHanded(env: Setting, s: RunState, row: Row, plan: MovePlan, answer: Option<string>, now: Time)
    requires plan.from == row.column && plan.to == env.board.finished && row.column != env.board.finished
    requires Active(s) && env.board.started != env.board.finished
    ensures var moved := MovedRow(env.board, row, plan, true, now);
            HandOver(env, s, row, plan, answer, now)
            == Handed(s.(rows := Update(s.rows, row.id, moved)), Finishes(row.id, answer))
            && Done(env.board, moved)
  {
  }

  /** The finish of an unfinished task hands the engine a state it is ready for. */
  lemma FinishIsReady(env: Setting, s: RunState, row: Row, plan: MovePlan, answer: Option<string>, now: Time)
    requires ValidSetting(env) && Inv(env, s) && Find(s.rows, row.id) == Some(row) && !row.archived
    requires plan.from == row.column && plan.to == env.board.finished && row.column != env.board.finished
    requires Active(s) && s.startedAt.Some? && row.step != ROOT_KEY
    ensures var h := HandOver(env, s, row, plan, answer, now);
            var moved := MovedRow(env.board, row, plan, true, now);
            h == Handed(s.(rows := Update(s.rows, row.id, moved)), Finishes(row.id, answer))
            && Ready(env, h.s, h.event) && Find(h.s.rows, row.id) == Some(moved)
  {
    FinishIsHanded(env, s, row, plan, answer, now);
    HandOverKeepsShape(env, s, row, plan, answer, now);
    FoundRowIsOk(env, s, row.id);
  }

  /** Its plan strands the run exactly when that was told before. */
  lemma FinishStrands(env: Setting, s: RunState, row: Row, moved: Row, answer: Option<string>, plan: Plan)
    requires Find(s.rows, row.id) == Some(row) && Increasing(s.rows)
    requires moved.id == row.id && moved.step == row.step && moved.iteration == row.iteration
    requires moved.skipped == row.skipped && moved.question == row.question && moved.answer == row.answer
    requires moved.counts == row.counts
    requires Find(Update(s.rows, row.id, moved), row.id) == Some(moved)
    requires var asks := row.question.Some? && GivenAnswer(row.question.value, answer).None?;
             plan.ask == (if asks then Some(row.id) else None)
             && (asks ==> (CountsNone(plan.create) <==> !SetsOffCounted(env, Update(s.rows, row.id, moved), moved)))
    ensures Strands(env, s.(rows := Update(s.rows, row.id, moved)), plan) <==> StrandsAt(env, s.rows, row, answer)
  {
    var rows := Update(s.rows, row.id, moved);
    SetsOffTheSame(env, s.rows, row, moved);
    assert forall i :: 0 <= i < |rows| && rows[i].id != row.id ==> rows[i] == s.rows[i];
    assert forall i :: 0 <= i < |rows| && s.rows[i].id != row.id ==> rows[i] == s.rows[i];
  }

  lemma SetsOffTheSame(env: Setting, rows: seq<Row>, row: Row, row': Row)
    requires Find(rows, row.id) == Some(row) && Increasing(rows)
    requires row'.id == row.id && row'.step == row.step && row'.iteration == row.iteration && row'.skipped == row.skipped
    ensures SetsOffCounted(env, Update(rows, row.id, row'), row') <==> SetsOffCounted(env, rows, row)
  {
    MovedGroupIsTheSame(env, rows, row, row');
    forall i | 0 <= i < |env.steps|
      ensures Makes(Tasks(env.board, Update(rows, row.id, row')), [Finished(row'.step)], env.steps[i])
         <==> Makes(Tasks(env.board, rows), [Finished(row.step)], env.steps[i])
    {
      MovedTasksMakeTheSame(env, rows, row, row', [Finished(row.step)], env.steps[i]);
    }
  }

  /** Changing one row to one as open keeps something open. */
  lemma StaysOpen(env: Setting, s: RunState, row: Row, row': Row, s': RunState)
    requires Find(s.rows, row.id) == Some(row) && Increasing(s.rows) && s'.rows == Update(s.rows, row.id, row')
    requires OpenRow(env, row) ==> OpenRow(env, row')
    requires AnyOpen(env, s)
    ensures AnyOpen(env, s')
  {
    var i :| OpenAt(env, s.rows, i);
    FindAt(s.rows, i);
    assert OpenAt(env, s'.rows, i);
  }

  lemma KeptProgress(
    env: Setting, s: RunState, row: Row, plan: MovePlan, answer: Option<string>, now: Time)
    requires ValidSetting(env) && Inv(env, s) && Progress(env, s)
    requires Find(s.rows, row.id) == Some(row) && plan.from == row.column && !row.archived
    requires HandOver(env, s, row, plan, answer, now).Kept?
    ensures Progress(env, HandOver(env, s, row, plan, answer, now).s)
  {
    if Active(s) && s.startedAt.Some? {
      StaysOpen(env, s, row, MovedRow(env.board, row, plan, true, now), HandOver(env, s, row, plan, answer, now).s);
    }
  }

  lemma FinishProgress(env: Setting, s: RunState, row: Row, plan: MovePlan, answer: Option<string>, now: Time)
    requires ValidSetting(env) && Inv(env, s) && Find(s.rows, row.id) == Some(row) && !row.archived
    requires plan.from == row.column && plan.to == env.board.finished && row.column != env.board.finished
    requires Active(s) && s.startedAt.Some? && row.step != ROOT_KEY
    ensures var h := HandOver(env, s, row, plan, answer, now);
            h.Handed? && (Progress(env, Apply(env, h.s, h.event, now)) <==> !StrandsAt(env, s.rows, row, answer))
  {
    FinishIsReady(env, s, row, plan, answer, now);
    FoundRowIsOk(env, s, row.id);
    var moved := MovedRow(env.board, row, plan, true, now);
    var s1 := s.(rows := Update(s.rows, row.id, moved));
    var event := Finishes(row.id, answer);
    FinishPlanIs(env, s1, moved, answer, now);
    FinishStrands(env, s, row, moved, answer, PlanOf(env, s1, event, now));
    ApplyProgress(env, s1, event, now);
    AppliedIsStarted(env, s1, event, now);
  }

  lemma AppliedIsStarted(env: Setting, s: RunState, event: RunEvent, now: Time)
    ensures Apply(env, s, event, now).startedAt == s.startedAt
  {
  }

  /** A move the engine hears of, other than the finish of a started run's task. */
  lemma OtherEventProgress(env: Setting, s: RunState, event: RunEvent, now: Time)
    requires ValidSetting(env) && Shape(env, s)
    requires EndsRoot(env, event) || s.startedAt.None? || (!event.Finishes? && Ready(env, s, event))
    ensures Progress(env, Apply(env, s, event, now))
  {
    PlanIsKnown(env, s, event, now);
    if EndsRoot(env, event) {
      RootEventEndsRun(env, s, event, now);
    } else if s.startedAt.Some? {
      AsksWhatFinished(env, s, event, now);
      ApplyProgress(env, s, event, now);
    }
  }

  /** Whether a move finishes a task of a going run. */
  predicate FinishesTask(env: Setting, s: RunState, row: Row, to: ColumnId) {
    && to == env.board.finished && row.column != env.board.finished
    && Active(s) && s.startedAt.Some? && row.step != ROOT_KEY
  }

  lemma OtherMoveProgress(env: Setting, s: RunState, row: Row, plan: MovePlan, answer: Option<string>, now: Time)
    requires ValidSetting(env) && Inv(env, s) && Progress(env, s)
    requires Find(s.rows, row.id) == Some(row) && !row.archived && plan.from == row.column
    requires !FinishesTask(env, s, row, plan.to)
    ensures Progress(env, Settle(env, HandOver(env, s, row, plan, answer, now), now))
  {
    FoundRowIsOk(env, s, row.id);
    HandOverKeeps(env, s, row, plan, answer, now);
    var h := HandOver(env, s, row, plan, answer, now);
    if h.Kept? {
      KeptProgress(env, s, row, plan, answer, now);
    } else {
      OtherEventProgress(env, h.s, h.event, now);
    }
  }

  lemma MoveProgress(
    env: Setting, s: RunState, id: TaskId, to: ColumnId, answer: Option<string>, overriding: bool, now: Time)
    requires ValidSetting(env) && Inv(env, s) && Progress(env, s)
    requires MoveTask(env, s, id, to, answer, overriding, now).Ok?
    ensures Progress(env, MoveTask(env, s, id, to, answer, overriding, now).value)
       <==> !StrandingMove(env, s, Move(id, to, answer, overriding, now))
  {
    var row, plan := MoveIs(env, s, id, to, answer, overriding, now);
    StrandingMoveIs(env, s, Move(id, to, answer, overriding, now));
    PlannedMoveProgress(env, s, row, plan, answer, now);
  }

  lemma PlannedMoveProgress(env: Setting, s: RunState, row: Row, plan: MovePlan, answer: Option<string>, now: Time)
    requires ValidSetting(env) && Inv(env, s) && Progress(env, s)
    requires Find(s.rows, row.id) == Some(row) && !row.archived && plan.from == row.column
    ensures Progress(env, Settle(env, HandOver(env, s, row, plan, answer, now), now))
       <==> !(FinishesTask(env, s, row, plan.to) && StrandsAt(env, s.rows, row, answer))
  {
    if FinishesTask(env, s, row, plan.to) {
      FinishProgress(env, s, row, plan, answer, now);
    } else {
      OtherMoveProgress(env, s, row, plan, answer, now);
    }
  }

  lemma StrandingMoveIs(env: Setting, s: RunState, op: Op)
    requires Shape(env, s) && op.Move? && Try(env, s, op).Ok?
    ensures Find(s.rows, op.id).Some?
    ensures StrandingMove(env, s, op)
       <==> var row := Find(s.rows, op.id).value;
            FinishesTask(env, s, row, op.to) && StrandsAt(env, s.rows, row, op.answer)
  {
  }

  lemma DeletedIsShaped(env: Setting, s: RunState, id: TaskId, row: Row)
    requires ValidSetting(env) && Shape(env, s) && Find(s.rows, id) == Some(row) && row.id == id && Active(s)
    ensures var s1 := s.(rows := Update(s.rows, id, Gone(s, row)));
            Shape(env, s1) && (id != env.root ==> s1.rows[0] == s.rows[0]) && Reflected(env, s1, Deleted(id))
            && (id == env.root ==> Done(env.board, s1.rows[0]))
  {
    GoneKeepsShape(env, s, id, row, s.(rows := Update(s.rows, id, Gone(s, row))));
  }

  lemma DeleteProgress(env: Setting, s: RunState, id: TaskId, now: Time)
    requires ValidSetting(env) && Inv(env, s) && Progress(env, s) && DeleteTask(env, s, id, now).Ok?
    ensures Progress(env, DeleteTask(env, s, id, now).value)
  {
    if Active(s) {
      var row, s1 := DeleteIs(env, s, id, now);
      DeletedIsShaped(env, s, id, row);
      OtherEventProgress(env, s1, Deleted(id), now);
    }
  }

  lemma AnswerIsGiven(q: Question, text: string)
    requires Canonical(q, text).Some?
    ensures GivenAnswer(q, Some(text)).Some?
  {
  }

  lemma AnswerProgress(env: Setting, s: RunState, id: TaskId, text: string, now: Time)
    requires ValidSetting(env) && Inv(env, s) && Progress(env, s) && AnswerTask(env, s, id, text, now).Ok?
    ensures Progress(env, AnswerTask(env, s, id, text, now).value)
  {
    var row := Find(s.rows, id).value;
    if Done(env.board, row) {
      var event := IsAnswered(id, Canonical(row.question.value, text).value);
      OtherEventProgress(env, s, event, now);
    } else {
      AnswerIsGiven(row.question.value, text);
      MoveProgress(env, s, id, env.board.finished, Some(text), false, now);
    }
  }

  lemma RestoreProgress(env: Setting, s: RunState, id: TaskId)
    requires ValidSetting(env) && Inv(env, s) && Progress(env, s) && RestoreTask(env, s, id).Ok?
    ensures Progress(env, RestoreTask(env, s, id).value)
  {
    if Active(s) && s.startedAt.Some? {
      var row := Find(s.rows, id).value;
      var to := RestoreColumn(s.columns, row);
      StaysOpen(
        env, s, row, row.(archived := false, column := to, finishedAt := None, skipped := false),
        RestoreTask(env, s, id).value);
    }
  }

  lemma ArchiveProgress(env: Setting, s: RunState, id: TaskId)
    requires ValidSetting(env) && Inv(env, s) && Progress(env, s) && ArchiveTask(env, s, id).Ok?
    ensures Progress(env, ArchiveTask(env, s, id).value)
  {
    if Active(s) && s.startedAt.Some? {
      var row := Find(s.rows, id).value;
      StaysOpen(
        env, s, row, row.(archived := true, archivedFrom := row.column), ArchiveTask(env, s, id).value);
    }
  }

  /** What a column removal leaves open. */
  lemma SweptOpenIs(env: Setting, row: Row, gone: ColumnId, to: Option<ColumnId>)
    requires gone != env.board.finished
    ensures OpenRow(env, SweptRow(row, gone, to))
       <==> OpenRow(env, row) && !(to == Some(env.board.finished) && row.column == gone && !Pending(row))
  {
  }

  lemma SweepProgress(env: Setting, s: RunState, gone: ColumnId, to: Option<ColumnId>, others: bool)
    requires Progress(env, s) && RemoveColumnOf(env, s, gone, to, others).Ok?
    ensures Progress(env, RemoveColumnOf(env, s, gone, to, others).value)
       <==> !SweepsLast(env, s, RemoveColumn(gone, to, others))
  {
    var s' := RemoveColumnOf(env, s, gone, to, others).value;
    SweepIs(env, s, gone, to, others);
    forall i | 0 <= i < |s.rows|
      ensures OpenAt(env, s'.rows, i)
         <==> OpenAt(env, s.rows, i)
              && !(to == Some(env.board.finished) && s.rows[i].column == gone && !Pending(s.rows[i]))
    {
      SweptOpenIs(env, s.rows[i], gone, to);
    }
  }

  lemma SameRowsProgress(env: Setting, s: RunState, s': RunState)
    requires Progress(env, s) && s'.rows == s.rows && s'.startedAt == s.startedAt && (Active(s') ==> Active(s))
    ensures Progress(env, s')
  {
    if i :| OpenAt(env, s.rows, i) {
      assert OpenAt(env, s'.rows, i);
    }
  }

  /** A transaction leaves the run going with nothing open exactly when it is
      the one move, or the one column removal, that strands it. */
  lemma StepProgress(env: Setting, s: RunState, op: Op)
    requires ValidSetting(env) && Inv(env, s) && Progress(env, s)
    ensures Progress(env, Exec(env, s, op)) <==> !StrandsRun(env, s, op)
  {
    if Try(env, s, op).Ok? {
      if op.Move? || op.Delete? || op.Answer? {
        EventfulProgress(env, s, op);
      } else {
        QuietProgress(env, s, op);
      }
    }
  }

  /** The operations the engine hears of. */
  lemma EventfulProgress(env: Setting, s: RunState, op: Op)
    requires ValidSetting(env) && Inv(env, s) && Progress(env, s)
    requires Try(env, s, op).Ok? && (op.Move? || op.Delete? || op.Answer?)
    ensures Progress(env, Exec(env, s, op)) <==> !StrandsRun(env, s, op)
  {
    match op {
      case Move(id, to, answer, overriding, now) => MoveProgress(env, s, id, to, answer, overriding, now);
      case Delete(id, now) => DeleteProgress(env, s, id, now);
      case Answer(id, text, now) => AnswerProgress(env, s, id, text, now);
    }
  }

  /** The others. */
  lemma QuietProgress(env: Setting, s: RunState, op: Op)
    requires ValidSetting(env) && Inv(env, s) && Progress(env, s)
    requires Try(env, s, op).Ok? && !op.Move? && !op.Delete? && !op.Answer?
    ensures Progress(env, Exec(env, s, op)) <==> !StrandsRun(env, s, op)
  {
    match op {
      case Restore(id) => RestoreProgress(env, s, id);
      case Archive(id) => ArchiveProgress(env, s, id);
      case Cancel(_, _) =>
      case RemoveColumn(gone, to, others) => SweepProgress(env, s, gone, to, others);
      case _ => SameRowsProgress(env, s, Exec(env, s, op));
    }
  }

  /** An event on an active run whose root is done ends the run only by deleting
      or finishing the root. */
  lemma ApplyLeavesDoneRoot(env: Setting, s: RunState, event: RunEvent, now: Time)
    requires ValidSetting(env) && Shape(env, s) && Active(s) && Done(env.board, s.rows[0])
    ensures Active(Apply(env, s, event, now)) <==> !EndsRoot(env, event)
  {
    PlanIsKnown(env, s, event, now);
    RootEventEndsRun(env, s, event, now);
    FindAt(s.rows, 0);
  }

  lemma MoveLeavesDoneRoot(
    env: Setting, s: RunState, id: TaskId, to: ColumnId, answer: Option<string>, overriding: bool, now: Time)
    requires ValidSetting(env) && Shape(env, s) && Active(s) && Done(env.board, s.rows[0])
    requires MoveTask(env, s, id, to, answer, overriding, now).Ok? && id != env.root
    ensures Active(MoveTask(env, s, id, to, answer, overriding, now).value)
  {
    var row, plan := MoveIs(env, s, id, to, answer, overriding, now);
    HandOverKeepsShape(env, s, row, plan, answer, now);
    var h := HandOver(env, s, row, plan, answer, now);
    if h.Handed? {
      ApplyLeavesDoneRoot(env, h.s, h.event, now);
    }
  }

  lemma DeleteLeavesDoneRoot(env: Setting, s: RunState, id: TaskId, now: Time)
    requires ValidSetting(env) && Shape(env, s) && Active(s) && Done(env.board, s.rows[0])
    requires DeleteTask(env, s, id, now).Ok?
    ensures Active(DeleteTask(env, s, id, now).value) <==> id != env.root
  {
    var row, s1 := DeleteIs(env, s, id, now);
    DeletedIsShaped(env, s, id, row);
    ApplyLeavesDoneRoot(env, s1, Deleted(id), now);
  }

  lemma AnswerLeavesDoneRoot(env: Setting, s: RunState, id: TaskId, text: string, now: Time)
    requires ValidSetting(env) && Shape(env, s) && Active(s) && Done(env.board, s.rows[0])
    requires AnswerTask(env, s, id, text, now).Ok?
    ensures Active(AnswerTask(env, s, id, text, now).value)
  {
    var row := Find(s.rows, id).value;
    FoundRowIsOk(env, s, id);
    var event := AnswerIs(env, s, id, text, now);
    if Done(env.board, row) {
      ApplyLeavesDoneRoot(env, s, event, now);
    } else {
      MoveLeavesDoneRoot(env, s, id, env.board.finished, Some(text), false, now);
    }
  }

  /** Once a column removal has put an active run's root among the finished
      tasks, and until the root is moved out again, the run never closes by
      itself, whatever else is finished: only cancelling the run or deleting the
      root ends it. */
  lemma SweptRootStaysActive(env: Setting, s: RunState, op: Op)
    requires ValidSetting(env) && Shape(env, s) && Active(s) && Done(env.board, s.rows[0])
    requires op.Move? ==> op.id != env.root
    ensures Active(Exec(env, s, op)) <==> !(Try(env, s, op).Ok? && (op.Cancel? || (op.Delete? && op.id == env.root)))
  {
    if Try(env, s, op).Ok? {
      match op {
        case Move(id, to, answer, overriding, now) => MoveLeavesDoneRoot(env, s, id, to, answer, overriding, now);
        case Delete(id, now) => DeleteLeavesDoneRoot(env, s, id, now);
        case Answer(id, text, now) => AnswerLeavesDoneRoot(env, s, id, text, now);
        case _ =>
      }
    }
  }

  predicate RootFinished(env: Setting, s: RunState) {
    |s.rows| > 0 && s.rows[0].step == ROOT_KEY && s.rows[0].column == env.board.finished
  }

  /** A run that closes without anybody finishing or deleting its root, or
      cancelling it, has nothing left open and its root in the finished column. */
  lemma ClosesOnlyWhenDone(env: Setting, s: RunState, op: Op)
    requires ValidSetting(env) && Inv(env, s) && Active(s) && !Active(Exec(env, s, op))
    requires !op.Cancel? && (op.Move? || op.Delete? || op.Answer? ==> op.id != env.root)
    ensures !AnyOpen(env, Exec(env, s, op)) && RootFinished(env, Exec(env, s, op))
  {
    match op {
      case Move(id, to, answer, overriding, now) => MoveClosesWhenDone(env, s, id, to, answer, overriding, now);
      case Delete(id, now) => DeleteClosesWhenDone(env, s, id, now);
      case Answer(id, text, now) => AnswerClosesWhenDone(env, s, id, text, now);
    }
  }

  lemma DeleteClosesWhenDone(env: Setting, s: RunState, id: TaskId, now: Time)
    requires ValidSetting(env) && Inv(env, s) && DeleteTask(env, s, id, now).Ok?
    requires Active(s) && !Active(DeleteTask(env, s, id, now).value) && id != env.root
    ensures var s' := DeleteTask(env, s, id, now).value;
            !AnyOpen(env, s') && RootFinished(env, s')
  {
    var row, s1 := DeleteIs(env, s, id, now);
    DeletedIsShaped(env, s, id, row);
    EventClosesWhenDone(env, s1, Deleted(id), now);
  }

  lemma AnswerClosesWhenDone(env: Setting, s: RunState, id: TaskId, text: string, now: Time)
    requires ValidSetting(env) && Inv(env, s) && AnswerTask(env, s, id, text, now).Ok?
    requires Active(s) && !Active(AnswerTask(env, s, id, text, now).value) && id != env.root
    ensures var s' := AnswerTask(env, s, id, text, now).value;
            !AnyOpen(env, s') && RootFinished(env, s')
  {
    var row := Find(s.rows, id).value;
    var event := AnswerIs(env, s, id, text, now);
    if Done(env.board, row) {
      EventClosesWhenDone(env, s, event, now);
    } else {
      MoveClosesWhenDone(env, s, id, env.board.finished, Some(text), false, now);
    }
  }

  lemma MoveClosesWhenDone(
    env: Setting, s: RunState, id: TaskId, to: ColumnId, answer: Option<string>, overriding: bool, now: Time)
    requires ValidSetting(env) && Inv(env, s) && MoveTask(env, s, id, to, answer, overriding, now).Ok?
    requires Active(s) && !Active(MoveTask(env, s, id, to, answer, overriding, now).value) && id != env.root
    ensures var s' := MoveTask(env, s, id, to, answer, overriding, now).value;
            !AnyOpen(env, s') && RootFinished(env, s')
  {
    var row, plan := MoveIs(env, s, id, to, answer, overriding, now);
    var h := HandOver(env, s, row, plan, answer, now);
    HandsOverReady(env, s, row, plan, answer, now, h);
    EventClosesWhenDone(env, h.s, h.event, now);
  }

  lemma HandsOverReady(
    env: Setting, s: RunState, row: Row, plan: MovePlan, answer: Option<string>, now: Time, h: Handed)
    requires ValidSetting(env) && Inv(env, s) && Active(s) && h == HandOver(env, s, row, plan, answer, now)
    requires Find(s.rows, row.id) == Some(row) && !row.archived && plan.from == row.column && row.id != env.root
    ensures h.Handed? ==>
              Shape(env, h.s) && Reflected(env, h.s, h.event) && !Done(env.board, h.s.rows[0])
              && !EndsRoot(env, h.event) && !h.event.RootStarts?
    ensures Active(h.s)
  {
    var moved := MovedRow(env.board, row, plan, true, now);
    HandOverKeepsShape(env, s, row, plan, answer, now);
    HandOverIs(env, s, row, plan, answer, now);
    FoundRowIsOk(env, s, row.id);
    MovedRowIsOk(env, row, plan, true, now);
    if h.Handed? {
      assert h.event == Finishes(row.id, answer) && moved.column == env.board.finished;
      FinishIsReflected(env, s.rows, h.s, moved, answer);
    }
  }

  lemma FinishIsReflected(env: Setting, rows: seq<Row>, s: RunState, moved: Row, answer: Option<string>)
    requires s.rows == Update(rows, moved.id, moved) && Done(env.board, moved)
    ensures Reflected(env, s, Finishes(moved.id, answer))
  {
  }

  lemma EventClosesWhenDone(env: Setting, s: RunState, event: RunEvent, now: Time)
    requires ValidSetting(env) && Shape(env, s) && Reflected(env, s, event)
    requires Active(s) && !Done(env.board, s.rows[0]) && !EndsRoot(env, event)
    requires event.RootStarts? ==> s.startedAt.Some?
    requires !Active(Apply(env, s, event, now))
    ensures !AnyOpen(env, Apply(env, s, event, now)) && RootFinished(env, Apply(env, s, event, now))
  {
    PlanIsKnown(env, s, event, now);
    RootEventEndsRun(env, s, event, now);
    assert s.startedAt.Some?;
    ApplyProgress(env, s, event, now);
  }
}
