/** Two runs that get stuck, from their start. Two tasks count. In one run the
    first is answered, taken out of the finished column, and finished last
    without an answer: its old answer is still on file, so nothing is pending,
    and the engine, which has just asked again, does not finish the root. In the
    other the column both tasks are in is removed, and they go to the finished
    column without the engine hearing of it. */
module RunStuck {
  import opened Options
  import opened Text
  import opened Ids
  import opened Offsets
  import opened Questions
  import opened Program
  import opened Transition
  import opened Runs
  import opened RunInvariants
  import Titles
  import StepTrails
  import RunTraces

  const TODO := 0
  const DOING := 1
  const PAUSED := 2
  const DONE := 3

  const ASKS := Question("Was that the last one?", YesNo, None)
  const ROOT_STEP := Step(ROOT_KEY, "Rounds", [], false, [], Manual, None, true, None, None)
  const ASKING_STEP := Step("a", "Bins", [WithRoot], false, [], Manual, None, true, Some(ASKS), None)
  const PLAIN_STEP := Step("b", "Lights", [WithRoot], false, [], Manual, None, true, None, None)

  function NoZone(now: Time, days: nat, at: nat): Option<Time> {
    None
  }

  const ENV := Setting(
    Board(DOING, PAUSED, DONE, [TODO, DOING, PAUSED, DONE]), NoZone, [ROOT_STEP, ASKING_STEP, PLAIN_STEP], 0, TODO)

  /** The three rows, in the columns given. */
  function Rows(root: ColumnId, a: ColumnId, aDone: Option<Time>, asked: bool, b: ColumnId, bDone: Option<Time>)
    : seq<Row>
  {
    var answer := if asked then Some(YES) else None;
    [ Row(0, ROOT_KEY, 1, None, false, None, None, None, false, false, None, root, false, TODO, None, None, None),
      Row(1, "a", 1, None, true, None, Some(ASKS), None, false, asked, answer, a, false, TODO, aDone, None, None),
      Row(2, "b", 1, None, true, None, None, None, false, false, None, b, false, TODO, bDone, None, None) ]
  }

  function At(rows: seq<Row>, started: Option<Time>): RunState {
    RunState(rows, {(0, 1), (0, 2)}, 3, started, None, None, [TODO, DOING, PAUSED, DONE])
  }

  lemma EnvIsValid()
    ensures ValidSetting(ENV)
  {
  }

  lemma PlainTitleFits(s: Step)
    requires 0 < |Trim(s.title)| <= Titles.MAX_TITLE_CHARS && s.fanOut.None?
    ensures Titles.TitleOk(Titles.Filled(s.title, None)) && Fits(s)
  {
    TrimKeeps(Trim(s.title));
    assert Params(s) == [None];
  }

  lemma RootFits()
    ensures FindStep(ENV.steps, ROOT_KEY) == Some(ROOT_STEP)
    ensures Titles.TitleOk(Titles.Filled(ROOT_STEP.title, None))
  {
    TrimKeeps("Rounds");
    PlainTitleFits(ROOT_STEP);
    FindStepAt(ENV.steps, 0);
  }

  lemma StepsFit()
    ensures StepTrails.Sound(ENV.steps, [WithRoot])
  {
    TrimKeeps("Bins");
    TrimKeeps("Lights");
    PlainTitleFits(ASKING_STEP);
    PlainTitleFits(PLAIN_STEP);
    forall k | 0 <= k < |ENV.steps| && !IsRoot(ENV.steps[k]) ensures Fits(ENV.steps[k]) {
      assert ENV.steps[k] == ASKING_STEP || ENV.steps[k] == PLAIN_STEP;
    }
  }

  /** The run can be started. */
  lemma CanBegin()
    ensures CanStart(ENV, None, 0)
  {
    RootFits();
    StepsFit();
    RunTraces.CanStartIs(ENV, None, 0);
  }

  /** The three steps, one after the other. */
  lemma CreationsOfThree(tasks: seq<StepTask>, reading: Reading, started: bool, now: Time)
    ensures Creations(ENV.steps, 3, tasks, reading, started, now, ENV.zone) ==
            (if Makes(tasks, reading.fired, ASKING_STEP)
             then GroupOf(1, ASKING_STEP, tasks, reading.trigger, started, now, ENV.zone) else [])
          + (if Makes(tasks, reading.fired, PLAIN_STEP)
             then GroupOf(2, PLAIN_STEP, tasks, reading.trigger, started, now, ENV.zone) else [])
  {
    var steps := ENV.steps;
    assert steps[0] == ROOT_STEP && steps[1] == ASKING_STEP && steps[2] == PLAIN_STEP;
    assert !Makes(tasks, reading.fired, ROOT_STEP);
    var c0 := Creations(steps, 0, tasks, reading, started, now, ENV.zone);
    var c1 := Creations(steps, 1, tasks, reading, started, now, ENV.zone);
    assert c1 == c0 + [] == [];
    var c2 := Creations(steps, 2, tasks, reading, started, now, ENV.zone);
    var g := if Makes(tasks, reading.fired, ASKING_STEP)
             then GroupOf(1, ASKING_STEP, tasks, reading.trigger, started, now, ENV.zone) else [];
    assert c2 == c1 + g == g;
  }

  lemma CreatedPlan(s: RunState)
    requires s == NewRun(ENV, None, 0)
    ensures PlanOf(ENV, s, Created, 0)
         == Plan([Creation(1, 1, None, None, [], true), Creation(2, 1, None, None, [], true)], [], false, false, None, None)
  {
    var tasks := Tasks(ENV.board, s.rows);
    var reading := NOTHING.(fired := [WithRoot]);
    assert Read(ENV.steps, tasks, Created) == reading;
    CreationsOfThree(tasks, reading, false, 0);
    assert WithRoot in ASKING_STEP.created && WithRoot in PLAIN_STEP.created && WithRoot in reading.fired;
    assert tasks == [StepTask(ROOT_KEY, 1, None, 0, false, false, false, false)];
    assert LastIteration(tasks, "a") == 0 && LastIteration(tasks, "b") == 0;
    var ga := GroupOf(1, ASKING_STEP, tasks, None, false, 0, ENV.zone);
    assert ga == [Creation(1, 1, None, None, [], true)];
    var gb := GroupOf(2, PLAIN_STEP, tasks, None, false, 0, ENV.zone);
    assert gb == [Creation(2, 1, None, None, [], true)];
    assert ga + gb == [Creation(1, 1, None, None, [], true), Creation(2, 1, None, None, [], true)];
  }

  lemma Starts()
    ensures StartRun(ENV, None, 0) == At(Rows(TODO, TODO, None, false, TODO, None), None)
  {
    var s := NewRun(ENV, None, 0);
    var plan := PlanOf(ENV, s, Created, 0);
    CreatedPlan(s);
    PlanIsKnown(ENV, s, Created, 0);
    var s' := Enact(ENV, s, plan, 0);
    EnactedRows(ENV, s, plan, 0);
    assert s'.rows == Rows(TODO, TODO, None, false, TODO, None);
    var create := plan.create;
    assert create[..1] == [create[0]] && create[..1][..0] == [];
    assert MadeDeps(ENV, create[..1], 1) == {(0, 1)};
    assert MadeDeps(ENV, create, 1) == {(0, 1), (0, 2)};
  }

  /** After the start no event makes anything, and nothing waits to be dated. */
  lemma PlanAfterStart(s: RunState, event: RunEvent, now: Time)
    requires !event.Created? && s.startedAt.Some? && !Read(ENV.steps, Tasks(ENV.board, s.rows), event).ends
    ensures var tasks := Tasks(ENV.board, s.rows);
            var reading := Read(ENV.steps, tasks, event);
            var open := exists t :: t in tasks && KeepsRootOpen(t, event, reading);
            PlanOf(ENV, s, event, now)
            == Plan([], [], !open && !RootDone(tasks), false, reading.ask, reading.answered)
  {
    var tasks := Tasks(ENV.board, s.rows);
    var reading := Read(ENV.steps, tasks, event);
    OnlyStartFires(tasks, event);
    NothingIsMade(tasks, reading, now);
    NoneWaits(tasks);
  }

  lemma OnlyStartFires(tasks: seq<StepTask>, event: RunEvent)
    requires !event.Created?
    ensures WithRoot !in Read(ENV.steps, tasks, event).fired
  {
  }

  lemma NothingIsMade(tasks: seq<StepTask>, reading: Reading, now: Time)
    requires WithRoot !in reading.fired
    ensures Creations(ENV.steps, 3, tasks, reading, true, now, ENV.zone) == []
  {
    CreationsOfThree(tasks, reading, true, now);
    NotTriggered(reading.fired, ASKING_STEP);
    NotTriggered(reading.fired, PLAIN_STEP);
  }

  lemma NotTriggered(fired: seq<Trigger>, s: Step)
    requires WithRoot !in fired && s.created == [WithRoot]
    ensures !IsTriggered(fired, s)
  {
  }

  lemma {:induction false} NoneWaits(tasks: seq<StepTask>)
    ensures Program.Waiting(ENV.steps, tasks) == []
  {
    if tasks != [] {
      NoneWaits(tasks[..|tasks| - 1]);
      assert forall s :: s in ENV.steps ==> !s.start.WhenRootStarts?;
    }
  }

  /** A transaction that leaves the root alone only marks the rows. */
  lemma Marks(s: RunState, event: RunEvent, now: Time, ask: Option<TaskId>, answered: Option<(TaskId, string)>, i: nat)
    requires !event.Created? && s.startedAt.Some? && i < |s.rows|
    requires var reading := Read(ENV.steps, Tasks(ENV.board, s.rows), event);
             !reading.ends && reading.ask == ask && reading.answered == answered
             && KeepsRootOpen(AsTask(ENV.board, s.rows[i]), event, reading)
    ensures PlanOf(ENV, s, event, now).create == []
    ensures Apply(ENV, s, event, now)
         == s.(rows := TouchedAll(ENV, Plan([], [], false, false, ask, answered), s.rows, now))
  {
    PlanAfterStart(s, event, now);
    assert Tasks(ENV.board, s.rows)[i] in Tasks(ENV.board, s.rows);
    var plan := PlanOf(ENV, s, event, now);
    assert plan == Plan([], [], false, false, ask, answered);
    EnactMakesNone(s, plan, now);
  }

  lemma MarksNothing(rows: seq<Row>, ask: Option<TaskId>, now: Time)
    requires forall i :: 0 <= i < |rows| && ask == Some(rows[i].id) ==> rows[i].asked
    ensures TouchedAll(ENV, Plan([], [], false, false, ask, None), rows, now) == rows
  {
    forall i | 0 <= i < |rows| ensures Touched(ENV, Plan([], [], false, false, ask, None), rows[i], now) == rows[i] {
    }
  }

  lemma EnactMakesNone(s: RunState, plan: Plan, now: Time)
    requires plan.create == [] && !plan.finishRoot && !plan.endRun
    ensures Known(ENV, plan.create) && Enact(ENV, s, plan, now) == s.(rows := TouchedAll(ENV, plan, s.rows, now))
  {
    assert TouchedAll(ENV, plan, s.rows, now) + Made(ENV, [], s.nextId, now) == TouchedAll(ENV, plan, s.rows, now);
  }

  lemma NothingBlocks(rows: seq<Row>, id: TaskId)
    requires id != 0
    ensures OpenDeps(ENV.board, rows, {(0, 1), (0, 2)}, id) == []
  {
  }

  /** A move that lets the engine make nothing. */
  lemma Moves(
    s: RunState, i: nat, to: ColumnId, answer: Option<string>, now: Time, moved: Row, started: Option<Time>,
    event: RunEvent)
    requires i < |s.rows| && s.rows[i].id == i && Find(s.rows, i) == Some(s.rows[i]) && Active(s)
    requires !s.rows[i].archived && to != s.rows[i].column && to in s.columns
    requires OpenDeps(ENV.board, s.rows, s.deps, i) == [] || to != DONE
    requires var done := if to == DONE then Some(now) else if s.rows[i].column == DONE then None else s.rows[i].finishedAt;
             moved == MovedRow(ENV.board, s.rows[i], MovePlan(s.rows[i].column, to, done, []), true, now)
    requires MoveEvent(ENV, s, s.rows[i], to, answer) == Some(event)
    requires started == if event.RootStarts? then Some(now) else s.startedAt
    requires var s1 := s.(rows := Update(s.rows, i, moved), startedAt := started); PlanOf(ENV, s1, event, now).create == []
    ensures Exec(ENV, s, Move(i, to, answer, false, now))
         == Apply(ENV, s.(rows := Update(s.rows, i, moved), startedAt := started), event, now)
  {
    var s1 := s.(rows := Update(s.rows, i, moved), startedAt := started);
    var row := s.rows[i];
    var plan := MovePlan(row.column, to, moved.finishedAt, []);
    assert PlanFor(ENV, s, row, to, false, now) == Ok(plan);
    HandsOver(s, row, plan, answer, now, moved, started, event);
    SettlesMove(s, i, to, answer, now, plan, s1, event);
  }

  lemma HandsOver(
    s: RunState, row: Row, plan: MovePlan, answer: Option<string>, now: Time, moved: Row, started: Option<Time>,
    event: RunEvent)
    requires Active(s) && plan.from == row.column && plan.to != row.column
    requires moved == MovedRow(ENV.board, row, plan, true, now)
    requires MoveEvent(ENV, s, row, plan.to, answer) == Some(event)
    requires started == if event.RootStarts? then Some(now) else s.startedAt
    ensures HandOver(ENV, s, row, plan, answer, now)
         == Handed(s.(rows := Update(s.rows, row.id, moved), startedAt := started), event)
  {
  }

  lemma SettlesMove(
    s: RunState, i: TaskId, to: ColumnId, answer: Option<string>, now: Time, plan: MovePlan, s1: RunState,
    event: RunEvent)
    requires Find(s.rows, i).Some? && PlanFor(ENV, s, Find(s.rows, i).value, to, false, now) == Ok(plan)
    requires HandOver(ENV, s, Find(s.rows, i).value, plan, answer, now) == Handed(s1, event)
    requires PlanOf(ENV, s1, event, now).create == []
    ensures Exec(ENV, s, Move(i, to, answer, false, now)) == Apply(ENV, s1, event, now)
  {
  }

  lemma RootGoes()
    ensures Exec(ENV, At(Rows(TODO, TODO, None, false, TODO, None), None), Move(0, DOING, None, false, 1))
         == At(Rows(DOING, TODO, None, false, TODO, None), Some(1))
  {
    var s := At(Rows(TODO, TODO, None, false, TODO, None), None);
    var s1 := At(Rows(DOING, TODO, None, false, TODO, None), Some(1));
    assert Find(s.rows, 0) == Some(s.rows[0]);
    var moved := MovedRow(ENV.board, s.rows[0], MovePlan(TODO, DOING, None, []), true, 1);
    assert s.(rows := Update(s.rows, 0, moved), startedAt := Some(1)) == s1;
    Marks(s1, RootStarts, 1, None, None, 1);
    Moves(s, 0, DOING, None, 1, moved, Some(1), RootStarts);
    MarksNothing(s1.rows, None, 1);
  }

  lemma YesIsAnAnswer()
    ensures GivenAnswer(ASKS, Some(YES)) == Some(YES) && GivenAnswer(ASKS, None) == None
  {
    assert Answers(ASKS)[0] == YES;
    assert Normal(Answers(ASKS)[0]) == Normal(YES);
  }

  /** What finishing a row means here: nothing is set off, and the asking step
      takes the answer or asks for one. */
  lemma FinishReading(s: RunState, i: nat, answer: Option<string>)
    requires |s.rows| == 3
    requires s.rows ==
      Rows(DOING, s.rows[1].column, s.rows[1].finishedAt, s.rows[1].asked, s.rows[2].column, s.rows[2].finishedAt)
    requires 1 <= i <= 2 && (answer == None || (i == 1 && answer == Some(YES)))
    ensures var reading := Read(ENV.steps, Tasks(ENV.board, s.rows), Finishes(i, answer));
            !reading.ends
            && reading.ask == (if i == 1 && answer == None then Some(1) else None)
            && reading.answered == (if i == 1 && answer == Some(YES) then Some((1, YES)) else None)
  {
    var tasks := Tasks(ENV.board, s.rows);
    assert tasks[0].id == 0 && tasks[1].id == 1 && tasks[2].id == 2;
    assert FindTask(tasks, i) == Some(tasks[i]);
    assert ENV.steps[0].key == ROOT_KEY && ENV.steps[1].key == "a" && ENV.steps[2].key == "b";
    assert ROOT_KEY[0] == 'r' && "a"[0] == 'a' && "b"[0] == 'b';
    StepsByKey();
    YesIsAnAnswer();
  }

  lemma StepsByKey()
    ensures FindStep(ENV.steps, "a") == Some(ASKING_STEP) && FindStep(ENV.steps, "b") == Some(PLAIN_STEP)
  {
    FindStepAt(ENV.steps, 1);
    FindStepAt(ENV.steps, 2);
  }

  /** The first task is finished with an answer. */
  lemma AnswersFirst()
    ensures Exec(ENV, At(Rows(DOING, TODO, None, false, TODO, None), Some(1)), Move(1, DONE, Some(YES), false, 2))
         == At(Rows(DOING, DONE, Some(2), true, TODO, None), Some(1))
  {
    var s := At(Rows(DOING, TODO, None, false, TODO, None), Some(1));
    var s1 := At(Rows(DOING, DONE, Some(2), false, TODO, None), Some(1));
    assert Find(s.rows, 1) == Some(s.rows[1]);
    NothingBlocks(s.rows, 1);
    var moved := MovedRow(ENV.board, s.rows[1], MovePlan(TODO, DONE, Some(2), []), true, 2);
    assert s.(rows := Update(s.rows, 1, moved)) == s1;
    FinishReading(s1, 1, Some(YES));
    Marks(s1, Finishes(1, Some(YES)), 2, None, Some((1, YES)), 2);
    Moves(s, 1, DONE, Some(YES), 2, moved, Some(1), Finishes(1, Some(YES)));
    AnswerIsWritten();
  }

  lemma AnswerIsWritten()
    ensures TouchedAll(
              ENV, Plan([], [], false, false, None, Some((1, YES))), Rows(DOING, DONE, Some(2), false, TODO, None), 2)
         == Rows(DOING, DONE, Some(2), true, TODO, None)
  {
    var rows := Rows(DOING, DONE, Some(2), false, TODO, None);
    var plan := Plan([], [], false, false, None, Some((1, YES)));
    assert Touched(ENV, plan, rows[0], 2) == rows[0];
    assert Touched(ENV, plan, rows[1], 2) == rows[1].(asked := true, answer := Some(YES));
    assert Touched(ENV, plan, rows[2], 2) == rows[2];
  }

  /** It is taken out again. */
  lemma Reopened()
    ensures Exec(ENV, At(Rows(DOING, DONE, Some(2), true, TODO, None), Some(1)), Move(1, TODO, None, false, 3))
         == At(Rows(DOING, TODO, None, true, TODO, None), Some(1))
  {
    var s := At(Rows(DOING, DONE, Some(2), true, TODO, None), Some(1));
    assert Find(s.rows, 1) == Some(s.rows[1]);
    var moved := MovedRow(ENV.board, s.rows[1], MovePlan(DONE, TODO, None, []), true, 3);
    assert Update(s.rows, 1, moved) == Rows(DOING, TODO, None, true, TODO, None);
  }

  /** The second task is finished; the first still keeps the root open. */
  lemma FinishesSecond()
    ensures Exec(ENV, At(Rows(DOING, TODO, None, true, TODO, None), Some(1)), Move(2, DONE, None, false, 4))
         == At(Rows(DOING, TODO, None, true, DONE, Some(4)), Some(1))
  {
    var s := At(Rows(DOING, TODO, None, true, TODO, None), Some(1));
    var s1 := At(Rows(DOING, TODO, None, true, DONE, Some(4)), Some(1));
    assert Find(s.rows, 2) == Some(s.rows[2]);
    NothingBlocks(s.rows, 2);
    var moved := MovedRow(ENV.board, s.rows[2], MovePlan(TODO, DONE, Some(4), []), true, 4);
    assert s.(rows := Update(s.rows, 2, moved)) == s1;
    FinishReading(s1, 2, None);
    Marks(s1, Finishes(2, None), 4, None, None, 1);
    Moves(s, 2, DONE, None, 4, moved, Some(1), Finishes(2, None));
    MarksNothing(s1.rows, None, 4);
  }

  lemma FirstIsMoved()
    ensures var s := At(Rows(DOING, TODO, None, true, DONE, Some(4)), Some(1));
            var moved := MovedRow(ENV.board, s.rows[1], MovePlan(TODO, DONE, Some(5), []), true, 5);
            Find(s.rows, 1) == Some(s.rows[1])
            && s.(rows := Update(s.rows, 1, moved)) == At(Rows(DOING, DONE, Some(5), true, DONE, Some(4)), Some(1))
  {
  }

  /** The first task is finished again, this time without an answer. */
  lemma FinishesFirstAgain()
    ensures Exec(ENV, At(Rows(DOING, TODO, None, true, DONE, Some(4)), Some(1)), Move(1, DONE, None, false, 5))
         == At(Rows(DOING, DONE, Some(5), true, DONE, Some(4)), Some(1))
  {
    var s := At(Rows(DOING, TODO, None, true, DONE, Some(4)), Some(1));
    var s1 := At(Rows(DOING, DONE, Some(5), true, DONE, Some(4)), Some(1));
    var moved := MovedRow(ENV.board, s.rows[1], MovePlan(TODO, DONE, Some(5), []), true, 5);
    FirstIsMoved();
    NothingBlocks(s.rows, 1);
    AsksAgain();
    Moves(s, 1, DONE, None, 5, moved, Some(1), Finishes(1, None));
  }

  /** The engine asks again, which changes nothing. */
  lemma AsksAgain()
    ensures var s := At(Rows(DOING, DONE, Some(5), true, DONE, Some(4)), Some(1));
            PlanOf(ENV, s, Finishes(1, None), 5).create == [] && Apply(ENV, s, Finishes(1, None), 5) == s
  {
    var s := At(Rows(DOING, DONE, Some(5), true, DONE, Some(4)), Some(1));
    FinishReading(s, 1, None);
    Marks(s, Finishes(1, None), 5, Some(1), None, 1);
    MarksNothing(s.rows, Some(1), 5);
  }

  const OPS := [
    Move(0, DOING, None, false, 1),
    Move(1, DONE, Some(YES), false, 2),
    Move(1, TODO, None, false, 3),
    Move(2, DONE, None, false, 4),
    Move(1, DONE, None, false, 5)]

  /** The run after the first `k` of them. */
  function Stage(k: nat): RunState {
    if k == 0 then At(Rows(TODO, TODO, None, false, TODO, None), None)
    else if k == 1 then At(Rows(DOING, TODO, None, false, TODO, None), Some(1))
    else if k == 2 then At(Rows(DOING, DONE, Some(2), true, TODO, None), Some(1))
    else if k == 3 then At(Rows(DOING, TODO, None, true, TODO, None), Some(1))
    else if k == 4 then At(Rows(DOING, TODO, None, true, DONE, Some(4)), Some(1))
    else At(Rows(DOING, DONE, Some(5), true, DONE, Some(4)), Some(1))
  }

  lemma StagesFollow(k: nat)
    requires k < 5
    ensures Exec(ENV, Stage(k), OPS[k]) == Stage(k + 1)
  {
    match k {
      case 0 => RootGoes();
      case 1 => AnswersFirst();
      case 2 => Reopened();
      case 3 => FinishesSecond();
      case 4 => FinishesFirstAgain();
    }
  }

  lemma {:induction false} ReachesStage(k: nat)
    requires k <= 5
    ensures StateAt(ENV, StartRun(ENV, None, 0), OPS, k) == Stage(k)
  {
    if k == 0 {
      Starts();
    } else {
      ReachesStage(k - 1);
      NextState(ENV, StartRun(ENV, None, 0), OPS, k - 1);
      StagesFollow(k - 1);
    }
  }

  lemma NothingIsOpen(s: RunState, aDone: Option<Time>, asked: bool, bDone: Option<Time>)
    requires s.rows == Rows(DOING, DONE, aDone, asked, DONE, bDone)
    ensures !AnyOpen(ENV, s)
  {
    forall i ensures !OpenAt(ENV, s.rows, i) {
      assert 0 <= i < |s.rows| ==> i == 0 || i == 1 || i == 2;
    }
  }

  /** The run ends up going, started, and with nothing its root waits for. */
  lemma ARunGetsStuck()
    ensures ValidSetting(ENV) && CanStart(ENV, None, 0)
    ensures var s := ExecAll(ENV, StartRun(ENV, None, 0), OPS);
            Active(s) && s.startedAt.Some? && !AnyOpen(ENV, s)
  {
    EnvIsValid();
    CanBegin();
    ReachesStage(5);
    assert OPS[..5] == OPS;
    LastStageIsStuck();
  }

  lemma LastStageIsStuck()
    ensures Active(Stage(5)) && Stage(5).startedAt.Some? && !AnyOpen(ENV, Stage(5))
  {
    NothingIsOpen(Stage(5), Some(5), true, Some(4));
  }

  /** The column of the two open tasks goes, and they go to the finished one. */
  lemma Sweeps()
    ensures var s := At(Rows(DOING, TODO, None, false, TODO, None), Some(1));
            Exec(ENV, s, RemoveColumn(TODO, Some(DONE), false))
            == s.(rows := Rows(DOING, DONE, None, false, DONE, None), columns := [DOING, PAUSED, DONE])
  {
    var s := At(Rows(DOING, TODO, None, false, TODO, None), Some(1));
    assert s.rows[1] in s.rows && s.rows[1].column == TODO;
    assert Swept(s.rows, TODO, DONE) == Rows(DOING, DONE, None, false, DONE, None);
    TodoGoes();
  }

  lemma TodoGoes()
    ensures Remaining([TODO, DOING, PAUSED, DONE], TODO) == [DOING, PAUSED, DONE]
  {
    assert [TODO, DOING, PAUSED, DONE][1..] == [DOING, PAUSED, DONE];
    assert Remaining([DONE], TODO) == [DONE] && Remaining([PAUSED, DONE], TODO) == [PAUSED, DONE];
    assert Remaining([DOING, PAUSED, DONE], TODO) == [DOING, PAUSED, DONE];
  }

  lemma ExecTwo(env: Setting, s: RunState, a: Op, b: Op)
    ensures ExecAll(env, s, [a, b]) == Exec(env, Exec(env, s, a), b)
  {
    assert [a, b][..1] == [a] && [a][..0] == [];
    assert ExecAll(env, s, [a]) == Exec(env, ExecAll(env, s, []), a);
  }

  /** Removing a column does the same to a run: going, started, and with nothing
      its root waits for, though no task was ever reopened. */
  lemma ASweptRunGetsStuck()
    ensures ValidSetting(ENV) && CanStart(ENV, None, 0)
    ensures var s := ExecAll(
                ENV, StartRun(ENV, None, 0), [Move(0, DOING, None, false, 1), RemoveColumn(TODO, Some(DONE), false)]);
            Active(s) && s.startedAt.Some? && !AnyOpen(ENV, s)
  {
    EnvIsValid();
    CanBegin();
    Starts();
    ExecTwo(ENV, StartRun(ENV, None, 0), Move(0, DOING, None, false, 1), RemoveColumn(TODO, Some(DONE), false));
    RootGoes();
    Sweeps();
    var s := Stage(1).(rows := Rows(DOING, DONE, None, false, DONE, None), columns := [DOING, PAUSED, DONE]);
    NothingIsOpen(s, None, false, None);
  }
}
