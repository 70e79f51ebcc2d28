/** When an event is refused as a whole: exactly when it makes a step whose tasks
    cannot be made. */
module RunRefusals {
  import opened Options
  import opened Ids
  import opened Offsets
  import opened Questions
  import opened Titles
  import opened Program
  import opened Transition
  import opened Runs
  import opened RunInvariants
  import opened RunProgress
  import opened RunGroups

  lemma {:induction false} GroupIsMade(
    steps: seq<Step>, n: nat, tasks: seq<StepTask>, reading: Reading, started: bool, now: Time, zone: Zone, k: nat,
    c: Creation)
    requires k < n <= |steps| && c in GroupIfMade(steps, k, tasks, reading, started, now, zone)
    ensures c in Creations(steps, n, tasks, reading, started, now, zone)
  {
    CreationsStep(steps, n - 1, tasks, reading, started, now, zone);
    if k < n - 1 {
      GroupIsMade(steps, n - 1, tasks, reading, started, now, zone, k, c);
    }
  }

  /** The tasks of a step's group: all can be made, or some cannot. */
  lemma GroupIsMakeable(
    env: Setting, k: nat, tasks: seq<StepTask>, trigger: Option<TaskId>, started: bool, now: Time, columns: seq<ColumnId>)
    requires k < |env.steps|
    ensures var group := GroupOf(k, env.steps[k], tasks, trigger, started, now, env.zone);
            (forall c :: c in group ==> c.step == k)
            && (Fits(env.steps[k]) <==> forall c :: c in group ==> c.step < |env.steps| && FaultOf(env, c).None?)
  {
    var step := env.steps[k];
    var group := GroupOf(k, step, tasks, trigger, started, now, env.zone);
    forall p | p in Params(step) ensures exists c :: c in group && c.step == k && c.param == p {
      var i :| 0 <= i < |Params(step)| && Params(step)[i] == p;
      assert group[i] in group;
    }
  }

  /** Whether a step can be made: in the run's column, with titles a task may have. */
  predicate StepMakeable(env: Setting, columns: seq<ColumnId>, k: int) {
    0 <= k < |env.steps| ==> env.column in columns && Fits(env.steps[k])
  }

  predicate MadeAt(env: Setting, s: RunState, event: RunEvent, k: int) {
    0 <= k < |env.steps| && MakesOf(env, s, event, env.steps[k])
  }

  /** An event goes through exactly if every step it makes can be made. */
  lemma MakeableIs(env: Setting, s: RunState, event: RunEvent, now: Time)
    ensures CanMake(env, s, event, now) <==> forall k :: MadeAt(env, s, event, k) ==> StepMakeable(env, s.columns, k)
  {
    var tasks := Tasks(env.board, s.rows);
    var reading := Read(env.steps, tasks, event);
    var started := s.startedAt.Some? || event.RootStarts?;
    var create := PlanOf(env, s, event, now).create;
    PlanIsKnown(env, s, event, now);
    if !reading.ends {
      forall k | MadeAt(env, s, event, k)
        ensures Makeable(env, s.columns, create) ==> StepMakeable(env, s.columns, k)
      {
        MadeIsMakeable(env, s, event, now, k);
      }
      if forall k :: MadeAt(env, s, event, k) ==> StepMakeable(env, s.columns, k) {
        forall c | c in create ensures env.column in s.columns && FaultOf(env, c).None? {
          var k := CreationIsInGroup(env.steps, |env.steps|, tasks, reading, started, now, env.zone, c);
          assert MadeAt(env, s, event, k);
          GroupIsMakeable(env, k, tasks, reading.trigger, started, now, s.columns);
        }
      }
    }
  }

  lemma MadeIsMakeable(env: Setting, s: RunState, event: RunEvent, now: Time, k: nat)
    requires MadeAt(env, s, event, k) && !Read(env.steps, Tasks(env.board, s.rows), event).ends
    requires Known(env, PlanOf(env, s, event, now).create)
    ensures Makeable(env, s.columns, PlanOf(env, s, event, now).create) ==> StepMakeable(env, s.columns, k)
  {
    var tasks := Tasks(env.board, s.rows);
    var reading := Read(env.steps, tasks, event);
    var started := s.startedAt.Some? || event.RootStarts?;
    var group := GroupIfMade(env.steps, k, tasks, reading, started, now, env.zone);
    forall c | c in group ensures c in PlanOf(env, s, event, now).create {
      GroupIsMade(env.steps, |env.steps|, tasks, reading, started, now, env.zone, k, c);
    }
    assert group[0] in group;
    GroupIsMakeable(env, k, tasks, reading.trigger, started, now, s.columns);
  }

  // A finish.

  /** The answer a finish brings along, as a trigger. */
  function AnswerFired(steps: seq<Step>, key: string, answer: Option<string>): seq<Trigger> {
    match QuestionOf(steps, key)
    case None => []
    case Some(q) =>
      match GivenAnswer(q, answer)
      case None => []
      case Some(a) => [Answered(key, a)]
  }

  /** What a finish fires: the step, unless others of the group are open, and the
      answer. */
  function FinishFired(steps: seq<Step>, open: bool, key: string, answer: Option<string>): seq<Trigger> {
    (if open then [] else [Finished(key)]) + AnswerFired(steps, key, answer)
  }

  lemma ReadFinishIs(steps: seq<Step>, tasks: seq<StepTask>, t: StepTask, answer: Option<string>)
    requires FindTask(tasks, t.id) == Some(t) && t.step != ROOT_KEY
    ensures Read(steps, tasks, Finishes(t.id, answer)).fired == FinishFired(steps, GroupOpen(tasks, t), t.step, answer)
  {
  }

  predicate SetOffAt(env: Setting, s: RunState, row: Row, answer: Option<string>, k: int) {
    var tasks := Tasks(env.board, s.rows);
    0 <= k < |env.steps|
    && Makes(tasks, FinishFired(env.steps, GroupOpen(tasks, AsTask(env.board, row)), row.step, answer), env.steps[k])
  }

  /** What finishing a row fires, told from before the move. */
  lemma FinishFiresAsTold(env: Setting, s: RunState, row: Row, moved: Row, answer: Option<string>)
    requires Find(s.rows, row.id) == Some(row) && Increasing(s.rows) && row.step != ROOT_KEY
    requires moved.id == row.id && moved.step == row.step && moved.iteration == row.iteration
    requires Find(Update(s.rows, row.id, moved), row.id) == Some(moved)
    ensures FiredBy(env, s.(rows := Update(s.rows, row.id, moved)), Finishes(row.id, answer))
         == FinishFired(env.steps, GroupOpen(Tasks(env.board, s.rows), AsTask(env.board, row)), row.step, answer)
  {
    var rows := Update(s.rows, row.id, moved);
    FindTaskIs(env.board, rows, row.id);
    ReadFinishIs(env.steps, Tasks(env.board, rows), AsTask(env.board, moved), answer);
    MovedGroupIsTheSame(env, s.rows, row, moved);
  }

  /** A task's finish, its open dependencies overridden, is refused exactly when it
      sets off a step that cannot be made: the run's column is gone, or some
      title of the step is not one a task may have. */
  lemma FinishIsRefused(env: Setting, s: RunState, row: Row, answer: Option<string>, now: Time)
    requires ValidSetting(env) && Shape(env, s) && Active(s) && Find(s.rows, row.id) == Some(row)
    requires row.id != env.root && !row.archived && row.column != env.board.finished
    ensures MoveTask(env, s, row.id, env.board.finished, answer, true, now).Err?
       <==> exists k :: SetOffAt(env, s, row, answer, k) && !StepMakeable(env, s.columns, k)
  {
    var plan := PlanFor(env, s, row, env.board.finished, true, now).value;
    var moved := MovedRow(env.board, row, plan, true, now);
    var h := s.(rows := Update(s.rows, row.id, moved));
    FoundRowIsOk(env, s, row.id);
    FinishIsHanded(env, s, row, plan, answer, now);
    HandOverKeepsShape(env, s, row, plan, answer, now);
    MovedRowIsOk(env, row, plan, true, now);
    MakeableIs(env, h, Finishes(row.id, answer), now);
    forall k ensures MadeAt(env, h, Finishes(row.id, answer), k) <==> SetOffAt(env, s, row, answer, k) {
      if 0 <= k < |env.steps| {
        SetsOffAsTold(env, s, row, moved, answer, k);
      }
    }
  }

  lemma SetsOffAsTold(env: Setting, s: RunState, row: Row, moved: Row, answer: Option<string>, k: nat)
    requires Find(s.rows, row.id) == Some(row) && Increasing(s.rows) && row.step != ROOT_KEY && k < |env.steps|
    requires moved.id == row.id && moved.step == row.step && moved.iteration == row.iteration && moved.skipped == row.skipped
    requires Find(Update(s.rows, row.id, moved), row.id) == Some(moved)
    ensures MadeAt(env, s.(rows := Update(s.rows, row.id, moved)), Finishes(row.id, answer), k)
       <==> SetOffAt(env, s, row, answer, k)
  {
    FinishFiresAsTold(env, s, row, moved, answer);
    MovedTasksMakeTheSame(
      env, s.rows, row, moved,
      FinishFired(env.steps, GroupOpen(Tasks(env.board, s.rows), AsTask(env.board, row)), row.step, answer),
      env.steps[k]);
  }
}
