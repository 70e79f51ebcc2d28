/** What every state of a run keeps, and when a run can get stuck. */
module RunInvariants {
  import opened Options
  import opened Ids
  import opened Offsets
  import opened Questions
  import opened Program
  import opened Transition
  import opened Runs

  /** Steps a program may be saved with: distinct keys, nothing waits for the
      root, and the root asks nothing. */
  predicate ValidSteps(steps: seq<Step>) {
    && DistinctKeys(steps)
    && (forall s, t :: s in steps && t in s.created && (t.Finished? || t.Answered?) ==> t.step != ROOT_KEY)
    && (forall s :: s in steps ==> ROOT_KEY !in s.alsoAfter)
    && QuestionOf(steps, ROOT_KEY).None?
  }

  predicate DistinctKeys(steps: seq<Step>) {
    forall i, j :: 0 <= i < j < |steps| ==> steps[i].key != steps[j].key
  }

  /** Three different role columns, and a run that begins in none that is worked
      in or finished. */
  predicate ValidSetting(env: Setting) {
    && ValidSteps(env.steps)
    && env.board.started != env.board.finished && env.board.paused != env.board.finished
    && env.board.started != env.board.paused
    && env.column != env.board.finished && env.column != env.board.started
    && env.column in env.board.columns && HasRoles(env, env.board.columns)
  }

  /** The role columns are there; none can go while it has its role. */
  predicate HasRoles(env: Setting, columns: seq<ColumnId>) {
    env.board.started in columns && env.board.paused in columns && env.board.finished in columns
  }

  predicate Increasing(rows: seq<Row>) {
    forall i, j :: 0 <= i < j < |rows| ==> rows[i].id < rows[j].id
  }

  /** A row as the run made it, whatever was done to it since. */
  predicate RowOk(env: Setting, row: Row) {
    && row.step != ROOT_KEY
    && row.question == QuestionOf(env.steps, row.step)
    && IsOfStep(env, row)
    && (row.skipped ==> row.archived)
  }

  predicate IsOfStep(env: Setting, row: Row) {
    FindStep(env.steps, row.step).Some? && row.counts == FindStep(env.steps, row.step).value.counts
  }

  predicate RootOk(env: Setting, row: Row) {
    row.id == env.root && row.step == ROOT_KEY && !row.counts && row.question.None? && (row.skipped ==> row.archived)
  }

  /** The shape of every reachable state: the root first, ids growing. */
  predicate Shape(env: Setting, s: RunState) {
    && HasRoles(env, s.columns)
    && |s.rows| > 0
    && RootOk(env, s.rows[0])
    && Increasing(s.rows)
    && (forall i :: 0 <= i < |s.rows| ==> s.rows[i].id < s.nextId)
    && (forall i :: 0 < i < |s.rows| ==> RowOk(env, s.rows[i]))
  }

  /** An active run's root is neither finished nor archived. */
  predicate RootLives(env: Setting, s: RunState) {
    |s.rows| > 0 && (Active(s) ==> !Done(env.board, s.rows[0]))
  }

  predicate Inv(env: Setting, s: RunState) {
    Shape(env, s) && RootLives(env, s)
  }

  /** A task the root still waits for. */
  predicate OpenRow(env: Setting, row: Row) {
    row.step != ROOT_KEY && row.counts && !row.skipped && (!Done(env.board, row) || Pending(row))
  }

  predicate OpenAt(env: Setting, rows: seq<Row>, i: int) {
    0 <= i < |rows| && OpenRow(env, rows[i])
  }

  ghost predicate AnyOpen(env: Setting, s: RunState) {
    exists i :: OpenAt(env, s.rows, i)
  }

  /** The run is not stuck: while it is going, something keeps its root open. */
  ghost predicate Progress(env: Setting, s: RunState) {
    Active(s) && s.startedAt.Some? ==> AnyOpen(env, s)
  }

  // Finding rows.

  lemma {:induction false} FindAt(rows: seq<Row>, i: nat)
    requires i < |rows| && Increasing(rows)
    ensures Find(rows, rows[i].id) == Some(rows[i])
  {
    if i > 0 {
      assert rows[0].id < rows[i].id;
      FindAt(rows[1..], i - 1);
    }
  }

  lemma {:induction false} IndexOf(rows: seq<Row>, id: TaskId) returns (i: nat)
    requires Find(rows, id).Some?
    ensures i < |rows| && rows[i].id == id && rows[i] == Find(rows, id).value
  {
    if rows[0].id == id {
      i := 0;
    } else {
      i := IndexOf(rows[1..], id);
      i := i + 1;
    }
  }

  lemma {:induction false} FindTaskIs(board: Board, rows: seq<Row>, id: TaskId)
    ensures FindTask(Tasks(board, rows), id) ==
            match Find(rows, id) case Some(row) => Some(AsTask(board, row)) case None => None
  {
    if rows != [] {
      assert Tasks(board, rows)[1..] == Tasks(board, rows[1..]);
      FindTaskIs(board, rows[1..], id);
    }
  }

  // What a plan can name.

  lemma {:induction false} WaitingAreTasks(steps: seq<Step>, tasks: seq<StepTask>)
    ensures forall id :: id in Program.Waiting(steps, tasks) ==> exists t :: t in tasks && t.id == id
  {
    if tasks != [] {
      var k := |tasks| - 1;
      WaitingAreTasks(steps, tasks[..k]);
      assert tasks == tasks[..k] + [tasks[k]];
    }
  }

  /** The tasks a plan dates, asks or answers exist already. */
  predicate NamesRows(plan: Plan, rows: seq<Row>) {
    && (forall id :: id in plan.setStart ==> HasId(rows, id))
    && (plan.ask.Some? ==> HasId(rows, plan.ask.value))
    && (plan.answered.Some? ==> HasId(rows, plan.answered.value.0))
    && (plan.ask.Some? ==> plan.answered.None?)
  }

  predicate HasId(rows: seq<Row>, id: TaskId) {
    exists row :: row in rows && row.id == id
  }

  lemma PlanNamesRows(env: Setting, s: RunState, event: RunEvent, now: Time)
    ensures NamesRows(PlanOf(env, s, event, now), s.rows)
  {
    var tasks := Tasks(env.board, s.rows);
    WaitingAreTasks(env.steps, tasks);
    forall t | t in tasks ensures HasId(s.rows, t.id) {
      var i :| 0 <= i < |tasks| && tasks[i] == t;
      assert s.rows[i] in s.rows && s.rows[i].id == t.id;
    }
  }

  /** The groups an event makes come from steps that are not the root. */
  predicate MadeBySteps(env: Setting, create: seq<Creation>) {
    forall i :: 0 <= i < |create| ==> MadeByStep(env, create[i])
  }

  predicate MadeByStep(env: Setting, c: Creation) {
    c.step < |env.steps| && !IsRoot(env.steps[c.step]) && c.counts == env.steps[c.step].counts
  }

  lemma CreationsStep(
    steps: seq<Step>, n: nat, tasks: seq<StepTask>, reading: Reading, started: bool, now: Time, zone: Zone)
    requires n < |steps|
    ensures Creations(steps, n + 1, tasks, reading, started, now, zone)
         == Creations(steps, n, tasks, reading, started, now, zone)
          + GroupIfMade(steps, n, tasks, reading, started, now, zone)
  {
  }

  function GroupIfMade(
    steps: seq<Step>, k: nat, tasks: seq<StepTask>, reading: Reading, started: bool, now: Time, zone: Zone)
    : seq<Creation>
    requires k < |steps|
  {
    if Makes(tasks, reading.fired, steps[k])
    then GroupOf(k, steps[k], tasks, reading.trigger, started, now, zone) else []
  }

  lemma GroupIsOfStep(
    env: Setting, k: nat, tasks: seq<StepTask>, trigger: Option<TaskId>, started: bool, now: Time)
    requires k < |env.steps| && !IsRoot(env.steps[k])
    ensures MadeBySteps(env, GroupOf(k, env.steps[k], tasks, trigger, started, now, env.zone))
  {
  }

  /** Every task to be made is of some step's group. */
  lemma {:induction false} CreationIsInGroup(
    steps: seq<Step>, n: nat, tasks: seq<StepTask>, reading: Reading, started: bool, now: Time, zone: Zone,
    c: Creation)
    returns (k: nat)
    requires n <= |steps| && c in Creations(steps, n, tasks, reading, started, now, zone)
    ensures k < n && c in GroupIfMade(steps, k, tasks, reading, started, now, zone)
  {
    k := n - 1;
    CreationsStep(steps, k, tasks, reading, started, now, zone);
    if c !in GroupIfMade(steps, k, tasks, reading, started, now, zone) {
      k := CreationIsInGroup(steps, k, tasks, reading, started, now, zone, c);
    }
  }

  lemma CreationsAreOfSteps(env: Setting, tasks: seq<StepTask>, reading: Reading, started: bool, now: Time)
    ensures MadeBySteps(env, Creations(env.steps, |env.steps|, tasks, reading, started, now, env.zone))
  {
    var create := Creations(env.steps, |env.steps|, tasks, reading, started, now, env.zone);
    forall i | 0 <= i < |create| ensures MadeByStep(env, create[i]) {
      var k := CreationIsInGroup(env.steps, |env.steps|, tasks, reading, started, now, env.zone, create[i]);
      GroupIsOfStep(env, k, tasks, reading.trigger, started, now);
    }
  }

  lemma PlanIsOfSteps(env: Setting, s: RunState, event: RunEvent, now: Time)
    ensures MadeBySteps(env, PlanOf(env, s, event, now).create)
  {
    var tasks := Tasks(env.board, s.rows);
    CreationsAreOfSteps(
      env, tasks, Read(env.steps, tasks, event), s.startedAt.Some? || event.RootStarts?, now);
  }

  lemma {:induction false} FindStepAt(steps: seq<Step>, i: nat)
    requires i < |steps| && DistinctKeys(steps)
    ensures FindStep(steps, steps[i].key) == Some(steps[i])
  {
    if i > 0 {
      assert steps[0].key != steps[i].key;
      assert DistinctKeys(steps[1..]);
      FindStepAt(steps[1..], i - 1);
    }
  }

  lemma MadeRowIsOk(env: Setting, c: Creation, id: TaskId, now: Time)
    requires ValidSetting(env) && MadeByStep(env, c)
    ensures RowOk(env, RowFor(env, c, id, now)) && !Done(env.board, RowFor(env, c, id, now))
  {
    FindStepAt(env.steps, c.step);
  }

  /** Row by row, what enacting a plan leaves. */
  lemma EnactedRows(env: Setting, s: RunState, plan: Plan, now: Time)
    requires Known(env, plan.create)
    ensures var s' := Enact(env, s, plan, now);
            |s'.rows| == |s.rows| + |plan.create|
            && (forall i :: 0 <= i < |s.rows| ==> s'.rows[i] == Touched(env, plan, s.rows[i], now))
            && (forall i :: |s.rows| <= i < |s'.rows| ==>
                  s'.rows[i] == RowFor(env, plan.create[i - |s.rows|], s.nextId + (i - |s.rows|), now))
  {
  }

  lemma NotedKeeps(plan: Plan, row: Row, now: Time)
    ensures SameTask(row, Noted(plan, row, now))
  {
    var dated := DatedRow(plan.setStart, row, now);
    var asked := AskedRow(plan.ask, dated);
    DatingKeeps(plan.setStart, row, now);
    AskingKeeps(plan.ask, dated);
    AnsweringKeeps(plan.answered, asked);
  }

  /** The same row but for its start date and what it was asked and answered. */
  predicate SameTask(row: Row, row': Row) {
    && row'.id == row.id && row'.step == row.step && row'.iteration == row.iteration && row'.param == row.param
    && row'.question == row.question && row'.counts == row.counts && row'.skipped == row.skipped
    && row'.column == row.column && row'.archived == row.archived && row'.finishedAt == row.finishedAt
    && row'.limit == row.limit && row'.dueAt == row.dueAt && row'.pausedAt == row.pausedAt
  }

  lemma DatingKeeps(ids: seq<TaskId>, row: Row, now: Time)
    ensures SameTask(row, DatedRow(ids, row, now))
  {
  }

  lemma AskingKeeps(ask: Option<TaskId>, row: Row)
    ensures SameTask(row, AskedRow(ask, row))
  {
  }

  lemma AnsweringKeeps(answered: Option<(TaskId, string)>, row: Row)
    ensures SameTask(row, AnsweredRow(answered, row))
  {
  }

  lemma TouchedKeeps(env: Setting, plan: Plan, row: Row, now: Time)
    ensures var row' := Touched(env, plan, row, now);
            row'.id == row.id && (RowOk(env, row) ==> RowOk(env, row')) && (RootOk(env, row) ==> RootOk(env, row'))
  {
    NotedKeeps(plan, row, now);
  }

  /** Enacting a plan keeps the shape. */
  lemma ApplyKeepsShape(env: Setting, s: RunState, event: RunEvent, now: Time)
    requires ValidSetting(env) && Shape(env, s)
    ensures Shape(env, Apply(env, s, event, now))
  {
    PlanIsKnown(env, s, event, now);
    PlanIsOfSteps(env, s, event, now);
    EnactKeepsShape(env, s, PlanOf(env, s, event, now), now);
  }

  lemma EnactKeepsShape(env: Setting, s: RunState, plan: Plan, now: Time)
    requires ValidSetting(env) && Shape(env, s) && Known(env, plan.create) && MadeBySteps(env, plan.create)
    ensures Shape(env, Enact(env, s, plan, now))
  {
    var rows := Enact(env, s, plan, now).rows;
    EnactedRows(env, s, plan, now);
    forall i | 0 <= i < |rows| ensures EnactedOk(env, s, i, rows[i]) {
      EnactedRowOk(env, s, plan, i, now);
    }
    OkRowsHaveShape(env, s, Enact(env, s, plan, now));
  }

  /** A row a plan leaves, its place and what it must be. */
  predicate EnactedOk(env: Setting, s: RunState, i: nat, row: Row) {
    && row.id == (if i < |s.rows| then s.rows[i].id else s.nextId + (i - |s.rows|))
    && if i == 0 then RootOk(env, row) else RowOk(env, row)
  }

  lemma EnactedRowOk(env: Setting, s: RunState, plan: Plan, i: nat, now: Time)
    requires ValidSetting(env) && Shape(env, s) && Known(env, plan.create) && MadeBySteps(env, plan.create)
    requires i < |s.rows| + |plan.create|
    ensures EnactedOk(env, s, i, Enact(env, s, plan, now).rows[i])
  {
    var n := |s.rows|;
    EnactedRows(env, s, plan, now);
    if i < n {
      TouchedKeeps(env, plan, s.rows[i], now);
    } else {
      MadeRowIsOk(env, plan.create[i - n], s.nextId + (i - n), now);
    }
  }

  lemma OkRowsHaveShape(env: Setting, s: RunState, s': RunState)
    requires Shape(env, s) && |s'.rows| >= |s.rows| && s'.nextId == s.nextId + (|s'.rows| - |s.rows|)
    requires s'.columns == s.columns
    requires forall i :: 0 <= i < |s'.rows| ==> EnactedOk(env, s, i, s'.rows[i])
    ensures Shape(env, s')
  {
    forall i | 0 <= i < |s'.rows|
      ensures s'.rows[i].id == (if i < |s.rows| then s.rows[i].id else s.nextId + (i - |s.rows|))
    {
      assert EnactedOk(env, s, i, s'.rows[i]);
    }
    assert EnactedOk(env, s, 0, s'.rows[0]);
  }

  /** The event that ended the root, if it is done. */
  predicate EndsRoot(env: Setting, event: RunEvent) {
    (event.Finishes? || event.Deleted?) && event.task == env.root
  }

  lemma RootEventEndsRun(env: Setting, s: RunState, event: RunEvent, now: Time)
    requires Shape(env, s)
    ensures PlanOf(env, s, event, now).endRun <==> EndsRoot(env, event)
    ensures EndsRoot(env, event) ==> !PlanOf(env, s, event, now).finishRoot
  {
    var tasks := Tasks(env.board, s.rows);
    FindAt(s.rows, 0);
    if event.Finishes? || event.Deleted? {
      FindTaskIs(env.board, s.rows, event.task);
      if Find(s.rows, event.task).Some? {
        var i := IndexOf(s.rows, event.task);
        assert i > 0 ==> RowOk(env, s.rows[i]);
      }
    }
  }

  /** A run whose root is done is over by the end of the transaction. */
  lemma ApplyKeepsRootAlive(env: Setting, s: RunState, event: RunEvent, now: Time)
    requires ValidSetting(env) && Shape(env, s)
    requires EndsRoot(env, event) || !Done(env.board, s.rows[0])
    ensures RootLives(env, Apply(env, s, event, now))
  {
    RootEventEndsRun(env, s, event, now);
    PlanIsKnown(env, s, event, now);
    FindAt(s.rows, 0);
    ApplyKeepsShape(env, s, event, now);
  }

  // Each operation.

  /** An update by id that keeps a row a row of the run. */
  lemma UpdateKeepsShape(env: Setting, s: RunState, id: TaskId, row: Row)
    requires Shape(env, s) && Find(s.rows, id).Some? && row.id == id
    requires id == env.root ==> RootOk(env, row)
    requires id != env.root ==> RowOk(env, row)
    ensures var s1 := s.(rows := Update(s.rows, id, row));
            Shape(env, s1) && Find(s1.rows, id) == Some(row)
            && (id != env.root ==> s1.rows[0] == s.rows[0]) && (id == env.root ==> s1.rows[0] == row)
  {
    var rows := Update(s.rows, id, row);
    var k := IndexOf(s.rows, id);
    forall i | 0 <= i < |rows| ensures rows[i].id == s.rows[i].id && (i > 0 ==> RowOk(env, rows[i])) {
      if i > 0 {
        assert RowOk(env, s.rows[i]) && s.rows[0].id < s.rows[i].id;
      }
    }
    assert Increasing(rows);
    FindAt(rows, k);
  }

  lemma FoundRowIsOk(env: Setting, s: RunState, id: TaskId)
    requires Shape(env, s) && Find(s.rows, id).Some?
    ensures if id == env.root then Find(s.rows, id).value == s.rows[0] && RootOk(env, s.rows[0])
            else RowOk(env, Find(s.rows, id).value)
  {
    var i := IndexOf(s.rows, id);
    FindAt(s.rows, 0);
    if i > 0 {
      assert RowOk(env, s.rows[i]) && s.rows[0].id < s.rows[i].id;
    }
  }

  /** A move that is allowed: the row, the plan, and what it hands over. */
  lemma MoveIs(
    env: Setting, s: RunState, id: TaskId, to: ColumnId, answer: Option<string>, overriding: bool, now: Time)
    returns (row: Row, plan: MovePlan)
    requires MoveTask(env, s, id, to, answer, overriding, now).Ok?
    ensures Find(s.rows, id) == Some(row) && row.id == id && !row.archived
    ensures PlanFor(env, s, row, to, overriding, now) == Ok(plan)
    ensures plan.from == row.column && plan.to == to && to in s.columns
    ensures plan.finishedAt == (if to != env.board.finished && row.column == env.board.finished then None
                                else if to == env.board.finished && row.column != env.board.finished then Some(now)
                                else row.finishedAt)
    ensures MoveTask(env, s, id, to, answer, overriding, now).value
         == Settle(env, HandOver(env, s, row, plan, answer, now), now)
  {
    row := Find(s.rows, id).value;
    plan := PlanFor(env, s, row, to, overriding, now).value;
  }

  // The shape, kept by everything.

  /** What a move leaves in place of its row. */
  lemma MovedRowIsOk(env: Setting, row: Row, plan: MovePlan, active: bool, now: Time)
    ensures var moved := MovedRow(env.board, row, plan, active, now);
            moved.id == row.id && moved.step == row.step && moved.column == plan.to && moved.archived == row.archived
            && (RowOk(env, row) ==> RowOk(env, moved)) && (RootOk(env, row) ==> RootOk(env, moved))
  {
  }

  lemma HandOverIs(env: Setting, s: RunState, row: Row, plan: MovePlan, answer: Option<string>, now: Time)
    ensures var h := HandOver(env, s, row, plan, answer, now);
            h.s == s.(
              rows := Update(s.rows, row.id, MovedRow(env.board, row, plan, Active(s), now)),
              startedAt := h.s.startedAt)
  {
  }

  lemma MovedRowKeepsShape(env: Setting, s: RunState, row: Row, moved: Row, s': RunState)
    requires Shape(env, s) && Find(s.rows, row.id) == Some(row) && moved.id == row.id
    requires (RowOk(env, row) ==> RowOk(env, moved)) && (RootOk(env, row) ==> RootOk(env, moved))
    requires s' == s.(rows := Update(s.rows, row.id, moved), startedAt := s'.startedAt)
    ensures Shape(env, s') && Find(s'.rows, row.id) == Some(moved)
    ensures s'.rows[0] == (if row.id == env.root then moved else s.rows[0])
  {
    FoundRowIsOk(env, s, row.id);
    UpdateKeepsShape(env, s, row.id, moved);
  }

  lemma HandOverKeepsShape(
    env: Setting, s: RunState, row: Row, plan: MovePlan, answer: Option<string>, now: Time)
    requires Shape(env, s) && Find(s.rows, row.id) == Some(row)
    ensures var h := HandOver(env, s, row, plan, answer, now);
            var moved := MovedRow(env.board, row, plan, Active(s), now);
            Shape(env, h.s) && Find(h.s.rows, row.id) == Some(moved)
            && h.s.rows[0] == (if row.id == env.root then moved else s.rows[0])
  {
    HandOverIs(env, s, row, plan, answer, now);
    MovedRowIsOk(env, row, plan, Active(s), now);
    MovedRowKeepsShape(
      env, s, row, MovedRow(env.board, row, plan, Active(s), now), HandOver(env, s, row, plan, answer, now).s);
  }

  lemma MoveKeepsShape(
    env: Setting, s: RunState, id: TaskId, to: ColumnId, answer: Option<string>, overriding: bool, now: Time)
    requires ValidSetting(env) && Shape(env, s) && MoveTask(env, s, id, to, answer, overriding, now).Ok?
    ensures Shape(env, MoveTask(env, s, id, to, answer, overriding, now).value)
  {
    var row, plan := MoveIs(env, s, id, to, answer, overriding, now);
    HandOverKeepsShape(env, s, row, plan, answer, now);
    var h := HandOver(env, s, row, plan, answer, now);
    if h.Handed? {
      ApplyKeepsShape(env, h.s, h.event, now);
    }
  }

  /** The rows of a deletion before the engine hears of it. */
  function Gone(s: RunState, row: Row): Row {
    row.(archived := true, archivedFrom := row.column, skipped := row.skipped || Active(s))
  }

  /** A deletion that is allowed: the row, and the state without it. */
  lemma DeleteIs(env: Setting, s: RunState, id: TaskId, now: Time) returns (row: Row, s1: RunState)
    requires DeleteTask(env, s, id, now).Ok?
    ensures Find(s.rows, id) == Some(row) && row.id == id && s1 == s.(rows := Update(s.rows, id, Gone(s, row)))
    ensures DeleteTask(env, s, id, now).value == if Active(s) then Apply(env, s1, Deleted(id), now) else s1
  {
    row := Find(s.rows, id).value;
    s1 := s.(rows := Update(s.rows, id, Gone(s, row)));
  }

  lemma DeleteKeepsShape(env: Setting, s: RunState, id: TaskId, now: Time)
    requires ValidSetting(env) && Shape(env, s) && DeleteTask(env, s, id, now).Ok?
    ensures Shape(env, DeleteTask(env, s, id, now).value)
  {
    var row, s1 := DeleteIs(env, s, id, now);
    GoneKeepsShape(env, s, id, row, s1);
    if Active(s) {
      ApplyKeepsShape(env, s1, Deleted(id), now);
    }
  }

  lemma GoneKeepsShape(env: Setting, s: RunState, id: TaskId, row: Row, s1: RunState)
    requires Shape(env, s) && Find(s.rows, id) == Some(row) && s1 == s.(rows := Update(s.rows, id, Gone(s, row)))
    ensures Shape(env, s1) && (id != env.root ==> s1.rows[0] == s.rows[0])
    ensures id == env.root ==> Done(env.board, s1.rows[0])
    ensures forall i :: 0 <= i < |s1.rows| && s1.rows[i].id == id && Active(s) ==> s1.rows[i].skipped
  {
    FoundRowIsOk(env, s, id);
    UpdateKeepsShape(env, s, id, Gone(s, row));
  }

  lemma RestoreKeepsShape(env: Setting, s: RunState, id: TaskId)
    requires ValidSetting(env) && Shape(env, s) && RestoreTask(env, s, id).Ok?
    ensures Shape(env, RestoreTask(env, s, id).value)
  {
    var row := Find(s.rows, id).value;
    FoundRowIsOk(env, s, id);
    var to := RestoreColumn(s.columns, row);
    UpdateKeepsShape(env, s, id, row.(archived := false, column := to, finishedAt := None, skipped := false));
  }

  lemma ArchiveKeepsShape(env: Setting, s: RunState, id: TaskId)
    requires ValidSetting(env) && Shape(env, s) && ArchiveTask(env, s, id).Ok?
    ensures Shape(env, ArchiveTask(env, s, id).value)
  {
    var row := Find(s.rows, id).value;
    FoundRowIsOk(env, s, id);
    UpdateKeepsShape(env, s, id, row.(archived := true, archivedFrom := row.column));
  }

  /** An answer that is taken: with the task's finish, or by itself. */
  lemma AnswerIs(env: Setting, s: RunState, id: TaskId, text: string, now: Time) returns (event: RunEvent)
    requires AnswerTask(env, s, id, text, now).Ok?
    ensures Find(s.rows, id).Some? && Find(s.rows, id).value.question.Some? && event.IsAnswered? && event.task == id
    ensures Canonical(Find(s.rows, id).value.question.value, text) == Some(event.text)
    ensures var r := AnswerTask(env, s, id, text, now);
            if Done(env.board, Find(s.rows, id).value) then r == Outcome(env, Handed(s, event), now)
            else r == MoveTask(env, s, id, env.board.finished, Some(text), false, now)
    ensures Done(env.board, Find(s.rows, id).value) ==>
              Active(s) && AnswerTask(env, s, id, text, now).value == Apply(env, s, event, now)
  {
    event := IsAnswered(id, Canonical(Find(s.rows, id).value.question.value, text).value);
  }

  lemma AnswerKeepsShape(env: Setting, s: RunState, id: TaskId, text: string, now: Time)
    requires ValidSetting(env) && Shape(env, s) && AnswerTask(env, s, id, text, now).Ok?
    ensures Shape(env, AnswerTask(env, s, id, text, now).value)
  {
    var row := Find(s.rows, id).value;
    var event := AnswerIs(env, s, id, text, now);
    if Done(env.board, row) {
      ApplyKeepsShape(env, s, event, now);
    } else {
      MoveKeepsShape(env, s, id, env.board.finished, Some(text), false, now);
    }
  }

  lemma CancelKeepsShape(env: Setting, s: RunState, deleteOpen: bool, now: Time)
    requires ValidSetting(env) && Shape(env, s) && CancelRun(env, s, deleteOpen, now).Ok?
    ensures Shape(env, CancelRun(env, s, deleteOpen, now).value)
  {
    var rows := CancelRun(env, s, deleteOpen, now).value.rows;
    forall i | 0 < i < |rows| ensures RowOk(env, rows[i]) {
      assert RowOk(env, s.rows[i]);
    }
  }

  lemma SweepKeepsShape(env: Setting, s: RunState, gone: ColumnId, to: Option<ColumnId>, others: bool)
    requires ValidSetting(env) && Shape(env, s) && RemoveColumnOf(env, s, gone, to, others).Ok?
    ensures Shape(env, RemoveColumnOf(env, s, gone, to, others).value)
  {
    var s' := RemoveColumnOf(env, s, gone, to, others).value;
    SweepIs(env, s, gone, to, others);
    forall i | 0 <= i < |s.rows|
      ensures s'.rows[i].id == s.rows[i].id && (i > 0 ==> RowOk(env, s'.rows[i]))
           && (RootOk(env, s.rows[i]) ==> RootOk(env, s'.rows[i]))
    {
      SweepingKeeps(env, s.rows[i], gone, to);
    }
  }

  /** What a column removal leaves of a row. */
  function SweptRow(row: Row, gone: ColumnId, to: Option<ColumnId>): Row {
    if row.column == gone && to.Some? then row.(column := to.value) else row
  }

  lemma SweepingKeeps(env: Setting, row: Row, gone: ColumnId, to: Option<ColumnId>)
    ensures var row' := SweptRow(row, gone, to);
            row'.id == row.id && (RowOk(env, row) ==> RowOk(env, row')) && (RootOk(env, row) ==> RootOk(env, row'))
  {
  }

  /** Row by row, what a column removal leaves; no column with a role goes. */
  lemma SweepIs(env: Setting, s: RunState, gone: ColumnId, to: Option<ColumnId>, others: bool)
    requires RemoveColumnOf(env, s, gone, to, others).Ok?
    ensures var s' := RemoveColumnOf(env, s, gone, to, others).value;
            gone != env.board.started && gone != env.board.paused && gone != env.board.finished
            && s' == s.(rows := s'.rows, columns := Remaining(s.columns, gone)) && |s'.rows| == |s.rows|
            && forall i :: 0 <= i < |s.rows| ==> s'.rows[i] == SweptRow(s.rows[i], gone, to)
  {
    assert forall i :: 0 <= i < |s.rows| ==> s.rows[i] in s.rows;
  }

  lemma ReorderKeepsColumns(columns: seq<ColumnId>, order: seq<ColumnId>, c: ColumnId)
    requires multiset(order) == multiset(columns)
    ensures c in order <==> c in columns
  {
    assert c in order <==> c in multiset(order);
    assert c in columns <==> c in multiset(columns);
  }

  /** Every transaction keeps the shape. */
  lemma StepKeepsShape(env: Setting, s: RunState, op: Op)
    requires ValidSetting(env) && Shape(env, s)
    ensures Shape(env, Exec(env, s, op))
  {
    if Try(env, s, op).Ok? {
      match op {
        case Move(id, to, answer, overriding, now) => MoveKeepsShape(env, s, id, to, answer, overriding, now);
        case Delete(id, now) => DeleteKeepsShape(env, s, id, now);
        case Restore(id) => RestoreKeepsShape(env, s, id);
        case Archive(id) => ArchiveKeepsShape(env, s, id);
        case Answer(id, text, now) => AnswerKeepsShape(env, s, id, text, now);
        case Cancel(_, _) => CancelKeepsShape(env, s, op.deleteOpen, op.now);
        case MadeElsewhere =>
        case RemoveColumn(gone, to, others) => SweepKeepsShape(env, s, gone, to, others);
        case AddColumn(_) =>
        case ReorderColumns(order) =>
          forall c ensures c in order <==> c in s.columns {
            ReorderKeepsColumns(s.columns, order, c);
          }
      }
    }
  }

  // An active run's root.

  /** A column removal that puts an active run's root among the finished tasks,
      of which the run hears nothing. */
  predicate SweepsRoot(env: Setting, s: RunState, op: Op) {
    |s.rows| > 0 && op.RemoveColumn? && Try(env, s, op).Ok? && Active(s)
    && op.moveTo == Some(env.board.finished) && s.rows[0].column == op.gone
  }

  lemma HandOverKeepsRoot(
    env: Setting, s: RunState, row: Row, plan: MovePlan, answer: Option<string>, now: Time)
    requires ValidSetting(env) && Inv(env, s) && Find(s.rows, row.id) == Some(row)
    requires plan.from == row.column && !row.archived
    ensures var h := HandOver(env, s, row, plan, answer, now);
            (h.Kept? ==> RootLives(env, h.s))
            && (h.Handed? ==> EndsRoot(env, h.event) || !Done(env.board, h.s.rows[0]))
  {
    HandOverKeepsShape(env, s, row, plan, answer, now);
    MovedRowIsOk(env, row, plan, Active(s), now);
    FoundRowIsOk(env, s, row.id);
  }

  /** Both at once. */
  lemma HandOverKeeps(
    env: Setting, s: RunState, row: Row, plan: MovePlan, answer: Option<string>, now: Time)
    requires ValidSetting(env) && Inv(env, s) && Find(s.rows, row.id) == Some(row)
    requires plan.from == row.column && !row.archived
    ensures var h := HandOver(env, s, row, plan, answer, now);
            Shape(env, h.s) && (h.Kept? ==> RootLives(env, h.s))
            && (h.Handed? ==> EndsRoot(env, h.event) || !Done(env.board, h.s.rows[0]))
  {
    HandOverKeepsShape(env, s, row, plan, answer, now);
    HandOverKeepsRoot(env, s, row, plan, answer, now);
  }

  lemma MoveKeepsRoot(
    env: Setting, s: RunState, id: TaskId, to: ColumnId, answer: Option<string>, overriding: bool, now: Time)
    requires ValidSetting(env) && Inv(env, s) && MoveTask(env, s, id, to, answer, overriding, now).Ok?
    ensures RootLives(env, MoveTask(env, s, id, to, answer, overriding, now).value)
  {
    var row, plan := MoveIs(env, s, id, to, answer, overriding, now);
    HandOverKeeps(env, s, row, plan, answer, now);
    var h := HandOver(env, s, row, plan, answer, now);
    if h.Handed? {
      ApplyKeepsRootAlive(env, h.s, h.event, now);
    }
  }

  lemma DeleteKeepsRoot(env: Setting, s: RunState, id: TaskId, now: Time)
    requires ValidSetting(env) && Inv(env, s) && DeleteTask(env, s, id, now).Ok?
    ensures RootLives(env, DeleteTask(env, s, id, now).value)
  {
    var row, s1 := DeleteIs(env, s, id, now);
    GoneKeepsShape(env, s, id, row, s1);
    if Active(s) {
      ApplyKeepsRootAlive(env, s1, Deleted(id), now);
    }
  }

  lemma AnswerKeepsRoot(env: Setting, s: RunState, id: TaskId, text: string, now: Time)
    requires ValidSetting(env) && Inv(env, s) && AnswerTask(env, s, id, text, now).Ok?
    ensures RootLives(env, AnswerTask(env, s, id, text, now).value)
  {
    var row := Find(s.rows, id).value;
    var event := AnswerIs(env, s, id, text, now);
    if Done(env.board, row) {
      ApplyKeepsRootAlive(env, s, event, now);
    } else {
      MoveKeepsRoot(env, s, id, env.board.finished, Some(text), false, now);
    }
  }

  lemma RestoreKeepsRoot(env: Setting, s: RunState, id: TaskId)
    requires ValidSetting(env) && Inv(env, s) && RestoreTask(env, s, id).Ok?
    ensures RootLives(env, RestoreTask(env, s, id).value)
  {
    var row := Find(s.rows, id).value;
    FoundRowIsOk(env, s, id);
    var to := RestoreColumn(s.columns, row);
    UpdateKeepsShape(env, s, id, row.(archived := false, column := to, finishedAt := None, skipped := false));
  }

  lemma ArchiveKeepsRoot(env: Setting, s: RunState, id: TaskId)
    requires ValidSetting(env) && Inv(env, s) && ArchiveTask(env, s, id).Ok?
    ensures RootLives(env, ArchiveTask(env, s, id).value)
  {
    var row := Find(s.rows, id).value;
    FoundRowIsOk(env, s, id);
    UpdateKeepsShape(env, s, id, row.(archived := true, archivedFrom := row.column));
  }

  lemma SweepMovesRoot(env: Setting, s: RunState, op: Op)
    requires ValidSetting(env) && Inv(env, s) && op.RemoveColumn? && Try(env, s, op).Ok?
    ensures RootLives(env, Exec(env, s, op)) <==> !SweepsRoot(env, s, op)
  {
    SweepIs(env, s, op.gone, op.moveTo, op.others);
  }

  /** Every transaction keeps an active run's root open, but for one: a column
      removal that sweeps it in among the finished tasks. */
  lemma StepKeepsInv(env: Setting, s: RunState, op: Op)
    requires ValidSetting(env) && Inv(env, s)
    ensures Shape(env, Exec(env, s, op))
    ensures Inv(env, Exec(env, s, op)) <==> !SweepsRoot(env, s, op)
  {
    StepKeepsShape(env, s, op);
    if Try(env, s, op).Ok? {
      match op {
        case Move(id, to, answer, overriding, now) => MoveKeepsRoot(env, s, id, to, answer, overriding, now);
        case Delete(id, now) => DeleteKeepsRoot(env, s, id, now);
        case Restore(id) => RestoreKeepsRoot(env, s, id);
        case Archive(id) => ArchiveKeepsRoot(env, s, id);
        case Answer(id, text, now) => AnswerKeepsRoot(env, s, id, text, now);
        case RemoveColumn(_, _, _) => SweepMovesRoot(env, s, op);
        case _ =>
      }
    }
  }

  lemma NewRunHasShape(env: Setting, startAt: Option<Time>, now: Time)
    requires ValidSetting(env)
    ensures Shape(env, NewRun(env, startAt, now)) && !Done(env.board, NewRun(env, startAt, now).rows[0])
  {
  }

  lemma StartIsInv(env: Setting, startAt: Option<Time>, now: Time)
    requires ValidSetting(env)
    ensures Inv(env, StartRun(env, startAt, now))
  {
    NewRunHasShape(env, startAt, now);
    ApplyKeepsShape(env, NewRun(env, startAt, now), Created, now);
    ApplyKeepsRootAlive(env, NewRun(env, startAt, now), Created, now);
  }

  // Over whole runs.

  lemma {:induction false} RunKeepsShape(env: Setting, s: RunState, ops: seq<Op>)
    requires ValidSetting(env) && Shape(env, s)
    ensures Shape(env, ExecAll(env, s, ops))
  {
    if ops != [] {
      var n := |ops| - 1;
      RunKeepsShape(env, s, ops[..n]);
      StepKeepsShape(env, ExecAll(env, s, ops[..n]), ops[n]);
    }
  }

  /** No operation of the run sweeps its root in among the finished tasks. */
  predicate NeverSweepsRoot(env: Setting, s: RunState, ops: seq<Op>) {
    forall k :: 0 <= k < |ops| ==> !SweepsRoot(env, StateAt(env, s, ops, k), ops[k])
  }

  /** The state after the first `k` operations. */
  function StateAt(env: Setting, s: RunState, ops: seq<Op>, k: nat): RunState
    requires k <= |ops|
  {
    ExecAll(env, s, ops[..k])
  }

  lemma NextState(env: Setting, s: RunState, ops: seq<Op>, k: nat)
    requires k < |ops|
    ensures StateAt(env, s, ops, k + 1) == Exec(env, StateAt(env, s, ops, k), ops[k])
    ensures StateAt(env, s, ops, 0) == s && StateAt(env, s, ops, |ops|) == ExecAll(env, s, ops)
  {
    assert ops[..k + 1][..k] == ops[..k];
    assert ops[..|ops|] == ops;
  }

  /** As long as nothing sweeps its root away, an active run's root is open at
      every moment. */
  lemma {:induction false} RunKeepsInv(env: Setting, s: RunState, ops: seq<Op>, k: nat)
    requires ValidSetting(env) && Inv(env, s) && NeverSweepsRoot(env, s, ops) && k <= |ops|
    ensures Inv(env, StateAt(env, s, ops, k))
  {
    if k > 0 {
      NextState(env, s, ops, k - 1);
      RunKeepsInv(env, s, ops, k - 1);
      StepKeepsInv(env, StateAt(env, s, ops, k - 1), ops[k - 1]);
    }
  }

  // When the run's own column is gone.

  lemma OutcomeMakesNone(env: Setting, h: Handed, now: Time)
    requires env.column !in h.s.columns && Outcome(env, h, now).Ok?
    ensures |Outcome(env, h, now).value.rows| == |h.s.rows|
  {
    if h.Handed? {
      PlanIsKnown(env, h.s, h.event, now);
      assert Makeable(env, h.s.columns, PlanOf(env, h.s, h.event, now).create);
      EnactedRows(env, h.s, PlanOf(env, h.s, h.event, now), now);
    }
  }

  lemma MoveMakesNone(
    env: Setting, s: RunState, id: TaskId, to: ColumnId, answer: Option<string>, overriding: bool, now: Time)
    requires env.column !in s.columns && MoveTask(env, s, id, to, answer, overriding, now).Ok?
    ensures |MoveTask(env, s, id, to, answer, overriding, now).value.rows| == |s.rows|
  {
    var row, plan := MoveIs(env, s, id, to, answer, overriding, now);
    OutcomeMakesNone(env, HandOver(env, s, row, plan, answer, now), now);
  }

  lemma DeleteMakesNone(env: Setting, s: RunState, id: TaskId, now: Time)
    requires env.column !in s.columns && DeleteTask(env, s, id, now).Ok?
    ensures |DeleteTask(env, s, id, now).value.rows| == |s.rows|
  {
    var row, s1 := DeleteIs(env, s, id, now);
    if Active(s) {
      OutcomeMakesNone(env, Handed(s1, Deleted(id)), now);
    }
  }

  lemma AnswerMakesNone(env: Setting, s: RunState, id: TaskId, text: string, now: Time)
    requires env.column !in s.columns && AnswerTask(env, s, id, text, now).Ok?
    ensures |AnswerTask(env, s, id, text, now).value.rows| == |s.rows|
  {
    var row := Find(s.rows, id).value;
    if Done(env.board, row) {
      OutcomeMakesNone(env, Handed(s, IsAnswered(id, Canonical(row.question.value, text).value)), now);
    } else {
      MoveMakesNone(env, s, id, env.board.finished, Some(text), false, now);
    }
  }

  /** Once its own column is gone a run makes no more tasks: what would make
      some is refused as a whole. */
  lemma NoColumnNoTasks(env: Setting, s: RunState, op: Op)
    requires env.column !in s.columns
    ensures |Exec(env, s, op).rows| == |s.rows|
  {
    if Try(env, s, op).Ok? {
      match op {
        case Move(id, to, answer, overriding, now) => MoveMakesNone(env, s, id, to, answer, overriding, now);
        case Delete(id, now) => DeleteMakesNone(env, s, id, now);
        case Answer(id, text, now) => AnswerMakesNone(env, s, id, text, now);
        case _ =>
      }
    }
  }
}
