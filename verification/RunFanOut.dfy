/** A group of tasks fires its step's finish once, with its last task; so a
    step that only follows another has as many iterations as that one has
    finished groups. For runs in which no task is deleted, restored, taken out
    of the finished column again, or swept into it by a column removal. */
module RunFanOut {
  import opened Options
  import opened Ids
  import opened Offsets
  import opened Questions
  import opened Program
  import opened Transition
  import opened Runs
  import opened RunInvariants
  import opened RunSettled
  import opened RunGroups

  datatype Group = Group(step: string, iteration: nat)

  predicate NoneSkipped(rows: seq<Row>) {
    forall i :: 0 <= i < |rows| ==> !rows[i].skipped
  }

  ghost predicate GroupDone(board: Board, rows: seq<Row>, g: Group) {
    forall i :: InGroup(rows, g.step, g.iteration, i) ==> Done(board, rows[i])
  }

  /** A group that was made and whose tasks are all done. */
  ghost predicate Completed(env: Setting, rows: seq<Row>, g: Group) {
    1 <= g.iteration <= Last(env, rows, g.step) && GroupDone(env.board, rows, g)
  }

  /** How many of the first `n` groups of a step are completed. */
  ghost function CompletedOf(env: Setting, rows: seq<Row>, key: string, n: nat): nat {
    if n == 0 then 0
    else CompletedOf(env, rows, key, n - 1) + if Completed(env, rows, Group(key, n)) then 1 else 0
  }

  /** The group, if any, whose finish an event fires. */
  function FiredIn(env: Setting, s: RunState, event: RunEvent): Option<Group> {
    if !event.Finishes? then None
    else
      match Find(s.rows, event.task)
      case None => None
      case Some(row) =>
        if Finished(row.step) in FiredBy(env, s, event) then Some(Group(row.step, row.iteration)) else None
  }

  function FiredOf(env: Setting, h: Handed): Option<Group> {
    match h
    case Handed(s, event) => FiredIn(env, s, event)
    case Kept(_) => None
  }

  /** The group, if any, whose finish a transaction fires. */
  function FiredGroup(env: Setting, s: RunState, op: Op): Option<Group> {
    FiredOf(env, Turn(env, s, op))
  }

  /** A step's finish is fired only with one of its groups. */
  predicate TellsFinish(env: Setting, h: Handed, key: string) {
    h.Handed? ==>
      (Finished(key) in FiredBy(env, h.s, h.event) <==> FiredOf(env, h).Some? && FiredOf(env, h).value.step == key)
  }

  /** A column removal that puts tasks in among the finished ones; the root
      makes no difference. */
  predicate SweepsTasks(env: Setting, s: RunState, op: Op) {
    op.RemoveColumn? && op.moveTo == Some(env.board.finished)
    && exists i :: 0 < i < |s.rows| && s.rows[i].column == op.gone
  }

  /** No deletion, no restore, nothing taken out of the finished column and
      nothing swept into it. */
  predicate Smooth(env: Setting, s: RunState, op: Op) {
    && !op.Delete? && !op.Restore? && !(op.Cancel? && op.deleteOpen) && !Reopens(env, s, op)
    && !SweepsTasks(env, s, op)
  }

  // What is done by hand.

  /** One task gets done and no other changes; the root, always the first row,
      has no group. */
  predicate OneDone(board: Board, a: seq<Row>, b: seq<Row>, r: int) {
    && SameRows(a, b)
    && 0 <= r < |a|
    && !Done(board, a[r]) && Done(board, b[r])
    && forall i :: 0 < i < |a| && i != r ==> Done(board, a[i]) == Done(board, b[i])
  }

  predicate NoneDone(board: Board, a: seq<Row>, b: seq<Row>) {
    SameRows(a, b) && forall i :: 0 < i < |a| ==> Done(board, a[i]) == Done(board, b[i])
  }

  /** By hand, a transaction finishes the task it tells the engine of, or
      leaves all as done as they were. */
  ghost predicate SmoothTurn(env: Setting, s: RunState, h: Handed) {
    && NoneSkipped(h.s.rows)
    && (if h.Handed? && h.event.Finishes?
        then exists r :: OneDone(env.board, s.rows, h.s.rows, r) && s.rows[r].id == h.event.task
        else NoneDone(env.board, s.rows, h.s.rows))
    && (h.Handed? ==> h.event.RootStarts? || h.event.Finishes? || h.event.IsAnswered?)
  }

  lemma UpdateDone(board: Board, rows: seq<Row>, row: Row, row': Row) returns (r: nat)
    requires Increasing(rows) && Find(rows, row.id) == Some(row)
    requires row'.id == row.id && row'.step == row.step && row'.iteration == row.iteration && row'.param == row.param
    ensures r < |rows| && rows[r] == row
    ensures !Done(board, row) && Done(board, row') ==> OneDone(board, rows, Update(rows, row.id, row'), r)
    ensures Done(board, row) == Done(board, row') ==> NoneDone(board, rows, Update(rows, row.id, row'))
    ensures NoneSkipped(rows) && !row'.skipped ==> NoneSkipped(Update(rows, row.id, row'))
  {
    r := IndexOf(rows, row.id);
    UpdateIsSame(rows, row, row');
    assert forall i :: 0 <= i < r ==> rows[i].id < rows[r].id;
    assert forall i :: r < i < |rows| ==> rows[r].id < rows[i].id;
  }

  lemma HandOverIsSmooth(env: Setting, s: RunState, row: Row, plan: MovePlan, answer: Option<string>, now: Time)
    requires Increasing(s.rows) && Active(s) && NoneSkipped(s.rows) && env.board.started != env.board.finished
    requires Find(s.rows, row.id) == Some(row) && plan.from == row.column && !row.archived
    requires row.column == env.board.finished ==> plan.to == env.board.finished
    ensures SmoothTurn(env, s, HandOver(env, s, row, plan, answer, now))
  {
    var row' := MovedRow(env.board, row, plan, Active(s), now);
    MovedRowKeepsPlace(env, row, plan, now);
    var r := UpdateDone(env.board, s.rows, row, row');
    assert !s.rows[r].skipped;
    var h := HandOver(env, s, row, plan, answer, now);
    HandOverIs(env, s, row, plan, answer, now);
    if h.Handed? && h.event.Finishes? {
      assert OneDone(env.board, s.rows, h.s.rows, r);
    }
  }

  lemma MovedRowKeepsPlace(env: Setting, row: Row, plan: MovePlan, now: Time)
    ensures var row' := MovedRow(env.board, row, plan, true, now);
            row'.id == row.id && row'.step == row.step && row'.iteration == row.iteration && row'.param == row.param
            && row'.skipped == row.skipped && row'.column == plan.to && row'.archived == row.archived
  {
  }

  lemma MoveIsSmooth(
    env: Setting, s: RunState, id: TaskId, to: ColumnId, answer: Option<string>, overriding: bool, now: Time)
    requires Increasing(s.rows) && Active(s) && NoneSkipped(s.rows) && env.board.started != env.board.finished
    requires MoveTask(env, s, id, to, answer, overriding, now).Ok?
    requires Find(s.rows, id).Some? && Find(s.rows, id).value.column == env.board.finished ==> to == env.board.finished
    ensures SmoothTurn(env, s, MoveTurn(env, s, id, to, answer, overriding, now))
  {
    var row, plan := MoveIs(env, s, id, to, answer, overriding, now);
    HandOverIsSmooth(env, s, row, plan, answer, now);
  }

  lemma AnswerIsSmooth(env: Setting, s: RunState, id: TaskId, text: string, now: Time)
    requires Increasing(s.rows) && Active(s) && NoneSkipped(s.rows) && env.board.started != env.board.finished
    requires AnswerTask(env, s, id, text, now).Ok?
    ensures SmoothTurn(env, s, AnswerTurn(env, s, id, text, now))
  {
    if !Done(env.board, Find(s.rows, id).value) {
      MoveIsSmooth(env, s, id, env.board.finished, Some(text), false, now);
    }
  }

  lemma ArchiveIsSmooth(env: Setting, s: RunState, id: TaskId)
    requires Increasing(s.rows) && NoneSkipped(s.rows) && ArchiveTask(env, s, id).Ok?
    ensures NoneSkipped(ArchiveTask(env, s, id).value.rows)
    ensures NoneDone(env.board, s.rows, ArchiveTask(env, s, id).value.rows)
  {
    var row := Find(s.rows, id).value;
    var r := UpdateDone(env.board, s.rows, row, row.(archived := true, archivedFrom := row.column));
    assert !s.rows[r].skipped;
  }

  lemma SweepIsSmooth(env: Setting, s: RunState, gone: ColumnId, to: Option<ColumnId>, others: bool)
    requires NoneSkipped(s.rows) && RemoveColumnOf(env, s, gone, to, others).Ok?
    requires !SweepsTasks(env, s, RemoveColumn(gone, to, others))
    ensures NoneSkipped(RemoveColumnOf(env, s, gone, to, others).value.rows)
    ensures NoneDone(env.board, s.rows, RemoveColumnOf(env, s, gone, to, others).value.rows)
  {
    SweepIs(env, s, gone, to, others);
  }

  lemma TurnIsSmooth(env: Setting, s: RunState, op: Op)
    requires ValidSetting(env) && Shape(env, s) && Active(s) && NoneSkipped(s.rows) && Smooth(env, s, op)
    ensures SmoothTurn(env, s, Turn(env, s, op))
  {
    if Try(env, s, op).Ok? {
      match op {
        case Move(id, to, answer, overriding, now) => MoveIsSmooth(env, s, id, to, answer, overriding, now);
        case Answer(id, text, now) => AnswerIsSmooth(env, s, id, text, now);
        case Archive(id) => ArchiveIsSmooth(env, s, id);
        case RemoveColumn(gone, to, others) => SweepIsSmooth(env, s, gone, to, others);
        case _ =>
      }
    }
  }

  // What the engine makes of it.

  /** The engine sees a group open exactly while one of its tasks is not done. */
  lemma GroupOpenIs(env: Setting, s: RunState, r: nat)
    requires Increasing(s.rows) && NoneSkipped(s.rows) && r < |s.rows| && Done(env.board, s.rows[r])
    ensures GroupOpen(Tasks(env.board, s.rows), AsTask(env.board, s.rows[r]))
       <==> !GroupDone(env.board, s.rows, Group(s.rows[r].step, s.rows[r].iteration))
  {
    var tasks, t, row := Tasks(env.board, s.rows), AsTask(env.board, s.rows[r]), s.rows[r];
    if o :| o in tasks && o.step == t.step && o.iteration == t.iteration && o.id != t.id && !o.done && !o.skipped {
      var i :| 0 <= i < |tasks| && tasks[i] == o;
      assert InGroup(s.rows, row.step, row.iteration, i);
    }
    if i :| InGroup(s.rows, row.step, row.iteration, i) && !Done(env.board, s.rows[i]) {
      assert tasks[i] in tasks && (i < r || r < i);
    }
  }

  lemma FinishFires(env: Setting, s: RunState, r: nat, answer: Option<string>, key: string)
    requires Increasing(s.rows) && NoneSkipped(s.rows)
    requires r < |s.rows| && s.rows[r].step != ROOT_KEY && Done(env.board, s.rows[r])
    ensures Finished(key) in FiredBy(env, s, Finishes(s.rows[r].id, answer))
       <==> key == s.rows[r].step && GroupDone(env.board, s.rows, Group(key, s.rows[r].iteration))
  {
    FindTaskIs(env.board, s.rows, s.rows[r].id);
    FindAt(s.rows, r);
    GroupOpenIs(env, s, r);
    FinishIsRead(env.steps, Tasks(env.board, s.rows), AsTask(env.board, s.rows[r]), answer, key);
  }

  lemma FinishIsRead(steps: seq<Step>, tasks: seq<StepTask>, t: StepTask, answer: Option<string>, key: string)
    requires FindTask(tasks, t.id) == Some(t) && t.step != ROOT_KEY
    ensures Finished(key) in Read(steps, tasks, Finishes(t.id, answer)).fired <==> key == t.step && !GroupOpen(tasks, t)
  {
  }

  lemma OthersFireNone(env: Setting, s: RunState, event: RunEvent, key: string)
    requires event.Finishes? ==>
      Increasing(s.rows) && |s.rows| > 0 && s.rows[0].step == ROOT_KEY && event.task == s.rows[0].id
    ensures Finished(key) !in FiredBy(env, s, event)
  {
    if event.Finishes? {
      FindTaskIs(env.board, s.rows, event.task);
      FindAt(s.rows, 0);
    }
  }

  /** The rows an event makes of a step: the next group, none of them done. */
  lemma MadeAreNext(env: Setting, s: RunState, event: RunEvent, now: Time, i: nat, j: nat)
    requires DistinctKeys(env.steps) && i < |env.steps|
    ensures var create, step := PlanOf(env, s, event, now).create, env.steps[i];
            Known(env, create)
            && ((exists x :: InGroup(Made(env, create, s.nextId, now), step.key, j, x))
                <==> MakesOf(env, s, event, step) && j == Last(env, s.rows, step.key) + 1)
  {
    var create, step := PlanOf(env, s, event, now).create, env.steps[i];
    PlanIsKnown(env, s, event, now);
    PlanEntries(env, s, event, now, i, j);
    MadeEntries(env, create, s.nextId, now, step.key, j);
    HasEntries(Made(env, create, s.nextId, now), step.key, j);
  }

  /** Enacting a plan does no task but the root. */
  lemma EnactedDone(env: Setting, s: RunState, plan: Plan, now: Time, g: Group)
    requires Known(env, plan.create) && env.column != env.board.finished
    requires forall i :: 0 <= i < |s.rows| && s.rows[i].id == env.root ==> s.rows[i].step == ROOT_KEY
    requires g.step != ROOT_KEY
    ensures GroupDone(env.board, Enact(env, s, plan, now).rows, g)
       <==> GroupDone(env.board, s.rows, g)
            && forall x :: !InGroup(Made(env, plan.create, s.nextId, now), g.step, g.iteration, x)
  {
    var was, made := TouchedAll(env, plan, s.rows, now), Made(env, plan.create, s.nextId, now);
    forall i | 0 <= i < |was|
      ensures was[i].step == s.rows[i].step && was[i].iteration == s.rows[i].iteration
      ensures was[i].step == g.step ==> Done(env.board, was[i]) == Done(env.board, s.rows[i])
    {
    }
    DoneInTwo(env.board, s.rows, was, made, g);
  }

  lemma DoneInTwo(board: Board, rows: seq<Row>, was: seq<Row>, made: seq<Row>, g: Group)
    requires |was| == |rows|
    requires forall i :: 0 <= i < |was| ==>
               was[i].step == rows[i].step && was[i].iteration == rows[i].iteration
               && (was[i].step == g.step ==> Done(board, was[i]) == Done(board, rows[i]))
    requires forall i :: 0 <= i < |made| ==> !Done(board, made[i])
    ensures GroupDone(board, was + made, g)
       <==> GroupDone(board, rows, g) && forall x :: !InGroup(made, g.step, g.iteration, x)
  {
    var all, n := was + made, |was|;
    forall i | InGroup(rows, g.step, g.iteration, i)
      ensures InGroup(all, g.step, g.iteration, i) && Done(board, all[i]) == Done(board, rows[i])
    {
    }
    forall x | InGroup(made, g.step, g.iteration, x)
      ensures InGroup(all, g.step, g.iteration, n + x) && !Done(board, all[n + x])
    {
    }
    forall i | InGroup(all, g.step, g.iteration, i)
      ensures InGroup(rows, g.step, g.iteration, i) || InGroup(made, g.step, g.iteration, i - n)
    {
    }
  }

  lemma ApplyCompletes(env: Setting, s: RunState, event: RunEvent, now: Time, i: nat, g: Group)
    requires ValidSetting(env) && i < |env.steps| && !IsRoot(env.steps[i]) && g.step == env.steps[i].key
    requires WholeGroups(env, s.rows, env.steps[i])
    requires forall x :: 0 <= x < |s.rows| && s.rows[x].id == env.root ==> s.rows[x].step == ROOT_KEY
    ensures Completed(env, Apply(env, s, event, now).rows, g) <==> Completed(env, s.rows, g)
  {
    PlanIsKnown(env, s, event, now);
    ApplyGroups(env, s, event, now, i);
    MadeAreNext(env, s, event, now, i, g.iteration);
    EnactedDone(env, s, PlanOf(env, s, event, now), now, g);
  }

  /** By hand: one task done completes its group if it was the last. */
  lemma HandCompletes(env: Setting, a: seq<Row>, b: seq<Row>, r: int, step: Step, g: Group)
    requires SameRows(a, b) && WholeGroups(env, a, step) && g.step == step.key
    requires |a| > 0 && a[0].step == ROOT_KEY && !IsRoot(step)
    requires NoneDone(env.board, a, b) || OneDone(env.board, a, b, r)
    ensures NoneDone(env.board, a, b) ==> (Completed(env, b, g) <==> Completed(env, a, g))
    ensures OneDone(env.board, a, b, r) && InGroup(a, g.step, g.iteration, r) ==>
              !Completed(env, a, g) && (Completed(env, b, g) <==> GroupDone(env.board, b, g))
    ensures OneDone(env.board, a, b, r) && !InGroup(a, g.step, g.iteration, r) ==>
              (Completed(env, b, g) <==> Completed(env, a, g))
  {
    SameGroups(env, a, b, step);
    HasEntries(a, g.step, g.iteration);
    if OneDone(env.board, a, b, r) && InGroup(a, g.step, g.iteration, r) {
      assert !Done(env.board, a[r]);
    } else {
      SameGroupDone(env.board, a, b, g);
    }
  }

  lemma SameGroupDone(board: Board, a: seq<Row>, b: seq<Row>, g: Group)
    requires SameRows(a, b)
    requires forall i :: InGroup(a, g.step, g.iteration, i) ==> Done(board, a[i]) == Done(board, b[i])
    ensures GroupDone(board, a, g) <==> GroupDone(board, b, g)
  {
    forall i ensures InGroup(a, g.step, g.iteration, i) <==> InGroup(b, g.step, g.iteration, i) {
    }
  }

  // One transaction.

  /** Of one group, a transaction changes nothing but by firing its finish. */
  ghost predicate FiresOnly(env: Setting, a: seq<Row>, b: seq<Row>, g: Group, fired: Option<Group>) {
    && (Completed(env, b, g) <==> Completed(env, a, g) || fired == Some(g))
    && (fired == Some(g) ==> !Completed(env, a, g) && 1 <= g.iteration <= Last(env, a, g.step))
  }

  /** What a transaction may be asked of: a live run, its groups whole, nothing skipped. */
  ghost predicate Steady(env: Setting, s: RunState) {
    ValidSetting(env) && Shape(env, s) && GroupsOk(env, s) && NoneSkipped(s.rows)
  }

  lemma RootByPlace(env: Setting, s: RunState, rows: seq<Row>)
    requires Shape(env, s) && SameRows(s.rows, rows)
    ensures Increasing(rows) && |rows| > 0 && rows[0].step == ROOT_KEY && rows[0].id == env.root
    ensures forall x :: 0 <= x < |rows| && (rows[x].id == env.root || rows[x].step == ROOT_KEY) ==> x == 0
  {
    forall x | 0 < x < |rows| ensures rows[x].step != ROOT_KEY && rows[x].id != env.root {
      assert RowOk(env, s.rows[x]) && s.rows[0].id < s.rows[x].id;
    }
  }

  /** An event fires the finish of the group its task completes, if it does. */
  lemma FiresWhatItCompletes(env: Setting, s: RunState, event: RunEvent, r: nat, g: Group)
    requires event.Finishes? && Increasing(s.rows) && NoneSkipped(s.rows)
    requires r < |s.rows| && s.rows[r].id == event.task && Done(env.board, s.rows[r])
    requires s.rows[0].step == ROOT_KEY && forall x :: 0 < x < |s.rows| ==> s.rows[x].step != ROOT_KEY
    requires g.step != ROOT_KEY
    ensures FiredIn(env, s, event) == Some(g)
       <==> InGroup(s.rows, g.step, g.iteration, r) && GroupDone(env.board, s.rows, g)
    ensures Finished(g.step) in FiredBy(env, s, event)
       <==> FiredIn(env, s, event).Some? && FiredIn(env, s, event).value.step == g.step
  {
    FindAt(s.rows, r);
    if r > 0 {
      FinishFires(env, s, r, event.answer, s.rows[r].step);
      FinishFires(env, s, r, event.answer, g.step);
    } else {
      OthersFireNone(env, s, event, s.rows[0].step);
      OthersFireNone(env, s, event, g.step);
    }
  }

  lemma HandCompletesOrFires(env: Setting, s: RunState, h: Handed, i: nat, g: Group)
    requires Steady(env, s) && SmoothTurn(env, s, h) && SameRows(s.rows, h.s.rows)
    requires i < |env.steps| && !IsRoot(env.steps[i]) && g.step == env.steps[i].key
    ensures FiresOnly(env, s.rows, h.s.rows, g, FiredOf(env, h)) && TellsFinish(env, h, g.step)
  {
    RootByPlace(env, s, h.s.rows);
    assert WholeGroups(env, s.rows, env.steps[i]);
    if h.Handed? && h.event.Finishes? {
      var r :| OneDone(env.board, s.rows, h.s.rows, r) && s.rows[r].id == h.event.task;
      HandCompletes(env, s.rows, h.s.rows, r, env.steps[i], g);
      HasEntries(s.rows, g.step, g.iteration);
      FiresWhatItCompletes(env, h.s, h.event, r, g);
      assert InGroup(s.rows, g.step, g.iteration, r) <==> InGroup(h.s.rows, g.step, g.iteration, r);
    } else {
      HandCompletes(env, s.rows, h.s.rows, 0, env.steps[i], g);
      if h.Handed? {
        OthersFireNone(env, h.s, h.event, g.step);
      }
    }
  }

  /** By hand a group is completed exactly when its finish will be fired. */
  lemma HandFires(env: Setting, s: RunState, op: Op, i: nat, g: Group)
    requires Steady(env, s) && Active(s) && Smooth(env, s, op)
    requires i < |env.steps| && !IsRoot(env.steps[i]) && g.step == env.steps[i].key
    ensures FiresOnly(env, s.rows, Turn(env, s, op).s.rows, g, FiredGroup(env, s, op))
    ensures TellsFinish(env, Turn(env, s, op), g.step)
  {
    var h := Turn(env, s, op);
    TurnIsSmooth(env, s, op);
    TurnIsSame(env, s, op);
    HandCompletesOrFires(env, s, h, i, g);
  }

  /** A transaction completes a group exactly when it fires the group's finish,
      which it does only for a group that was not completed before. */
  lemma StepFires(env: Setting, s: RunState, op: Op, i: nat, g: Group)
    requires Steady(env, s) && Active(s) && Smooth(env, s, op)
    requires i < |env.steps| && !IsRoot(env.steps[i]) && g.step == env.steps[i].key
    ensures FiresOnly(env, s.rows, Exec(env, s, op).rows, g, FiredGroup(env, s, op))
  {
    var h := Turn(env, s, op);
    HandFires(env, s, op, i, g);
    TurnIs(env, s, op);
    TurnIsSame(env, s, op);
    RootByPlace(env, s, h.s.rows);
    assert WholeGroups(env, s.rows, env.steps[i]);
    SameGroups(env, s.rows, h.s.rows, env.steps[i]);
    if h.Handed? {
      ApplyCompletes(env, h.s, h.event, TimeOf(op), i, g);
    }
  }

  lemma EnactSkipsNone(env: Setting, s: RunState, event: RunEvent, now: Time)
    requires NoneSkipped(s.rows)
    ensures NoneSkipped(Apply(env, s, event, now).rows)
  {
    PlanIsKnown(env, s, event, now);
    EnactedSkipsNone(env, s, PlanOf(env, s, event, now), now);
  }

  lemma EnactedSkipsNone(env: Setting, s: RunState, plan: Plan, now: Time)
    requires NoneSkipped(s.rows) && Known(env, plan.create)
    ensures NoneSkipped(Enact(env, s, plan, now).rows)
  {
    EnactedRows(env, s, plan, now);
  }

  lemma StepSkipsNone(env: Setting, s: RunState, op: Op)
    requires ValidSetting(env) && Shape(env, s) && Active(s) && NoneSkipped(s.rows) && Smooth(env, s, op)
    ensures NoneSkipped(Exec(env, s, op).rows)
  {
    var h := Turn(env, s, op);
    TurnIs(env, s, op);
    TurnIsSmooth(env, s, op);
    if h.Handed? {
      EnactSkipsNone(env, h.s, h.event, TimeOf(op));
    }
  }

  lemma StepKeepsSteady(env: Setting, s: RunState, op: Op)
    requires Steady(env, s) && Active(s) && Smooth(env, s, op)
    ensures Steady(env, Exec(env, s, op))
  {
    StepKeepsShape(env, s, op);
    StepSkipsNone(env, s, op);
    forall i | 0 <= i < |env.steps| && !IsRoot(env.steps[i]) ensures WholeGroups(env, Exec(env, s, op).rows, env.steps[i]) {
      StepGroups(env, s, op, i);
    }
  }

  // Counting.

  ghost predicate AllFireOnly(env: Setting, a: seq<Row>, b: seq<Row>, key: string, fired: Option<Group>) {
    forall j :: FiresOnly(env, a, b, Group(key, j), fired)
  }

  lemma {:induction false} CountFires(
    env: Setting, a: seq<Row>, b: seq<Row>, key: string, n: nat, fired: Option<Group>)
    requires AllFireOnly(env, a, b, key, fired)
    ensures CompletedOf(env, b, key, n) == CompletedOf(env, a, key, n)
              + if fired.Some? && fired.value.step == key && 1 <= fired.value.iteration <= n then 1 else 0
  {
    if n > 0 {
      CountFires(env, a, b, key, n - 1, fired);
      assert FiresOnly(env, a, b, Group(key, n), fired);
      assert fired == Some(Group(key, n)) <==> fired.Some? && fired.value.step == key && fired.value.iteration == n;
    }
  }

  lemma CountGrows(env: Setting, a: seq<Row>, b: seq<Row>, key: string, fired: Option<Group>)
    requires AllFireOnly(env, a, b, key, fired)
    requires Last(env, a, key) <= Last(env, b, key) <= Last(env, a, key) + 1
    ensures CompletedOf(env, b, key, Last(env, b, key)) == CompletedOf(env, a, key, Last(env, a, key))
              + if fired.Some? && fired.value.step == key then 1 else 0
  {
    CountGrowsTo(env, a, b, key, fired, Last(env, a, key), Last(env, b, key));
  }

  lemma CountGrowsTo(env: Setting, a: seq<Row>, b: seq<Row>, key: string, fired: Option<Group>, n: nat, m: nat)
    requires AllFireOnly(env, a, b, key, fired) && n == Last(env, a, key) && n <= m <= n + 1
    ensures CompletedOf(env, b, key, m) == CompletedOf(env, a, key, n)
              + if fired.Some? && fired.value.step == key then 1 else 0
  {
    CountFires(env, a, b, key, n, fired);
    NextIsNotCompleted(env, a, b, key, fired);
    FiresWithin(env, a, b, key, fired);
  }

  lemma FiresWithin(env: Setting, a: seq<Row>, b: seq<Row>, key: string, fired: Option<Group>)
    requires AllFireOnly(env, a, b, key, fired)
    ensures fired.Some? && fired.value.step == key ==> 1 <= fired.value.iteration <= Last(env, a, key)
  {
    if fired.Some? && fired.value.step == key {
      assert FiresOnly(env, a, b, Group(key, fired.value.iteration), fired);
    }
  }

  lemma NextIsNotCompleted(env: Setting, a: seq<Row>, b: seq<Row>, key: string, fired: Option<Group>)
    requires AllFireOnly(env, a, b, key, fired)
    ensures CompletedOf(env, b, key, Last(env, a, key) + 1) == CompletedOf(env, b, key, Last(env, a, key))
  {
    var next := Group(key, Last(env, a, key) + 1);
    assert FiresOnly(env, a, b, next, fired) && !Completed(env, a, next);
  }

  predicate FiresOf(env: Setting, s: RunState, op: Op, key: string)
  {
    FiredGroup(env, s, op).Some? && FiredGroup(env, s, op).value.step == key
  }

  lemma AllStepsFire(env: Setting, s: RunState, op: Op, m: nat)
    requires Steady(env, s) && Active(s) && Smooth(env, s, op) && m < |env.steps| && !IsRoot(env.steps[m])
    ensures AllFireOnly(env, s.rows, Exec(env, s, op).rows, env.steps[m].key, FiredGroup(env, s, op))
  {
    var key, rows := env.steps[m].key, Exec(env, s, op).rows;
    forall j ensures FiresOnly(env, s.rows, rows, Group(key, j), FiredGroup(env, s, op)) {
      StepFires(env, s, op, m, Group(key, j));
    }
  }

  /** The completed groups of a step grow by one exactly when its finish is fired. */
  lemma StepCompletes(env: Setting, s: RunState, op: Op, m: nat)
    requires Steady(env, s) && Active(s) && Smooth(env, s, op) && m < |env.steps| && !IsRoot(env.steps[m])
    ensures var key, rows := env.steps[m].key, Exec(env, s, op).rows;
            CompletedOf(env, rows, key, Last(env, rows, key))
            == CompletedOf(env, s.rows, key, Last(env, s.rows, key)) + if FiresOf(env, s, op, key) then 1 else 0
  {
    var key, rows := env.steps[m].key, Exec(env, s, op).rows;
    assert WholeGroups(env, s.rows, env.steps[m]);
    StepGroups(env, s, op, m);
    AllStepsFire(env, s, op, m);
    CountGrows(env, s.rows, rows, key, FiredGroup(env, s, op));
  }

  /** Step `i` is made again and again, by the finish of step `m` and nothing else. */
  predicate FollowsOnly(env: Setting, i: nat, m: nat) {
    && i < |env.steps| && m < |env.steps| && !IsRoot(env.steps[i]) && !IsRoot(env.steps[m])
    && !env.steps[i].once && env.steps[i].created != []
    && forall t :: t in env.steps[i].created ==> t == Finished(env.steps[m].key)
  }

  lemma TriggeredByFinish(env: Setting, i: nat, m: nat, tasks: seq<StepTask>, fired: seq<Trigger>)
    requires FollowsOnly(env, i, m)
    ensures Makes(tasks, fired, env.steps[i]) <==> Finished(env.steps[m].key) in fired
  {
    assert env.steps[i].created[0] in env.steps[i].created;
  }

  /** A step that follows another is made exactly when the other's finish is fired. */
  lemma MakesWhenFired(env: Setting, s: RunState, op: Op, i: nat, m: nat)
    requires Steady(env, s) && Active(s) && Smooth(env, s, op) && FollowsOnly(env, i, m)
    ensures MakesIn(env, s, op, env.steps[i]) <==> FiresOf(env, s, op, env.steps[m].key)
  {
    var h := Turn(env, s, op);
    HandFires(env, s, op, m, Group(env.steps[m].key, 0));
    if h.Handed? {
      TriggeredByFinish(env, i, m, Tasks(env.board, h.s.rows), FiredBy(env, h.s, h.event));
    }
  }

  /** As many iterations of a step as the one it follows has completed groups. */
  ghost predicate KeepsUp(env: Setting, s: RunState, i: nat, m: nat)
    requires FollowsOnly(env, i, m)
  {
    Last(env, s.rows, env.steps[i].key)
    == CompletedOf(env, s.rows, env.steps[m].key, Last(env, s.rows, env.steps[m].key))
  }

  lemma StepKeepsUp(env: Setting, s: RunState, op: Op, i: nat, m: nat)
    requires Steady(env, s) && Active(s) && Smooth(env, s, op) && FollowsOnly(env, i, m) && KeepsUp(env, s, i, m)
    ensures KeepsUp(env, Exec(env, s, op), i, m)
  {
    assert WholeGroups(env, s.rows, env.steps[i]);
    StepGroups(env, s, op, i);
    MakesWhenFired(env, s, op, i, m);
    StepCompletes(env, s, op, m);
  }

  lemma StepKeepsOnce(env: Setting, s: RunState, op: Op, i: nat)
    requires Steady(env, s) && Active(s) && Smooth(env, s, op) && i < |env.steps| && !IsRoot(env.steps[i])
    requires env.steps[i].once && Last(env, s.rows, env.steps[i].key) <= 1
    ensures Last(env, Exec(env, s, op).rows, env.steps[i].key) <= 1
  {
    var h := Turn(env, s, op);
    assert WholeGroups(env, s.rows, env.steps[i]);
    StepGroups(env, s, op, i);
    TurnIsSmooth(env, s, op);
    TurnIsSame(env, s, op);
    SameGroups(env, s.rows, h.s.rows, env.steps[i]);
    if h.Handed? && Last(env, s.rows, env.steps[i].key) == 1 {
      OnceIsNotMadeAgain(env, h.s, h.event, env.steps[i]);
    }
  }

  lemma OnceIsNotMadeAgain(env: Setting, s: RunState, event: RunEvent, step: Step)
    requires NoneSkipped(s.rows) && step.once && Last(env, s.rows, step.key) == 1
    ensures !MakesOf(env, s, event, step)
  {
    var tasks := Tasks(env.board, s.rows);
    var t :| t in tasks && t.step == step.key && t.iteration == 1;
    var x :| 0 <= x < |tasks| && tasks[x] == t;
    assert !s.rows[x].skipped;
  }

  // Whole runs.

  /** Every operation of the run is smooth and finds it still going. */
  predicate SmoothRun(env: Setting, s: RunState, ops: seq<Op>)
  {
    forall k :: 0 <= k < |ops| ==>
      Active(ExecAll(env, s, ops[..k])) && Smooth(env, ExecAll(env, s, ops[..k]), ops[k])
  }

  /** How often the operations of a run fire the finish of a group. */
  function FireCount(env: Setting, s: RunState, ops: seq<Op>, g: Group): nat
  {
    if ops == [] then 0
    else
      var n := |ops| - 1;
      FireCount(env, s, ops[..n], g) + if FiredGroup(env, ExecAll(env, s, ops[..n]), ops[n]) == Some(g) then 1 else 0
  }

  lemma SmoothPrefix(env: Setting, s: RunState, ops: seq<Op>)
    requires SmoothRun(env, s, ops) && ops != []
    ensures SmoothRun(env, s, ops[..|ops| - 1])
    ensures Active(ExecAll(env, s, ops[..|ops| - 1])) && Smooth(env, ExecAll(env, s, ops[..|ops| - 1]), ops[|ops| - 1])
  {
    var n := |ops| - 1;
    forall k | 0 <= k < n
      ensures Active(ExecAll(env, s, ops[..n][..k])) && Smooth(env, ExecAll(env, s, ops[..n][..k]), ops[..n][k])
    {
      assert ops[..n][..k] == ops[..k];
    }
  }

  lemma {:induction false} RunIsSteady(env: Setting, s: RunState, ops: seq<Op>)
    requires Steady(env, s) && SmoothRun(env, s, ops)
    ensures Steady(env, ExecAll(env, s, ops))
  {
    if ops != [] {
      var n := |ops| - 1;
      SmoothPrefix(env, s, ops);
      RunIsSteady(env, s, ops[..n]);
      StepKeepsSteady(env, ExecAll(env, s, ops[..n]), ops[n]);
    }
  }

  /** Over a run each group fires its step's finish once if it is completed in
      the end, and never if it is not. */
  lemma {:induction false} FiresOncePerGroup(env: Setting, s: RunState, ops: seq<Op>, i: nat, g: Group)
    requires Steady(env, s) && SmoothRun(env, s, ops)
    requires i < |env.steps| && !IsRoot(env.steps[i]) && g.step == env.steps[i].key && !Completed(env, s.rows, g)
    ensures FireCount(env, s, ops, g) == if Completed(env, ExecAll(env, s, ops).rows, g) then 1 else 0
  {
    if ops != [] {
      var n := |ops| - 1;
      SmoothPrefix(env, s, ops);
      FiresOncePerGroup(env, s, ops[..n], i, g);
      RunIsSteady(env, s, ops[..n]);
      StepFires(env, ExecAll(env, s, ops[..n]), ops[n], i, g);
    }
  }

  lemma {:induction false} RunKeepsUp(env: Setting, s: RunState, ops: seq<Op>, i: nat, m: nat)
    requires Steady(env, s) && SmoothRun(env, s, ops) && FollowsOnly(env, i, m) && KeepsUp(env, s, i, m)
    ensures KeepsUp(env, ExecAll(env, s, ops), i, m)
  {
    if ops != [] {
      var n := |ops| - 1;
      SmoothPrefix(env, s, ops);
      RunKeepsUp(env, s, ops[..n], i, m);
      RunIsSteady(env, s, ops[..n]);
      StepKeepsUp(env, ExecAll(env, s, ops[..n]), ops[n], i, m);
    }
  }

  lemma {:induction false} RunKeepsOnce(env: Setting, s: RunState, ops: seq<Op>, i: nat)
    requires Steady(env, s) && SmoothRun(env, s, ops) && i < |env.steps| && !IsRoot(env.steps[i])
    requires env.steps[i].once && Last(env, s.rows, env.steps[i].key) <= 1
    ensures Last(env, ExecAll(env, s, ops).rows, env.steps[i].key) <= 1
  {
    if ops != [] {
      var n := |ops| - 1;
      SmoothPrefix(env, s, ops);
      RunKeepsOnce(env, s, ops[..n], i);
      RunIsSteady(env, s, ops[..n]);
      StepKeepsOnce(env, ExecAll(env, s, ops[..n]), ops[n], i);
    }
  }

  // From the start.

  lemma StartIsSteady(env: Setting, startAt: Option<Time>, now: Time)
    requires ValidSetting(env)
    ensures Steady(env, StartRun(env, startAt, now))
  {
    StartIsInv(env, startAt, now);
    RunGroupsAreWhole(env, startAt, now, []);
    var s := NewRun(env, startAt, now);
    EnactSkipsNone(env, s, Created, now);
  }

  /** A step that follows another has exactly as many iterations as the other
      has completed groups, at every moment of a smooth run. */
  lemma IterationsFollowGroups(env: Setting, startAt: Option<Time>, start: Time, ops: seq<Op>, i: nat, m: nat)
    requires ValidSetting(env) && SmoothRun(env, StartRun(env, startAt, start), ops) && FollowsOnly(env, i, m)
    ensures KeepsUp(env, ExecAll(env, StartRun(env, startAt, start), ops), i, m)
  {
    StartIsSteady(env, startAt, start);
    StartKeepsUp(env, startAt, start, i, m);
    RunKeepsUp(env, StartRun(env, startAt, start), ops, i, m);
  }

  lemma StartKeepsUp(env: Setting, startAt: Option<Time>, now: Time, i: nat, m: nat)
    requires ValidSetting(env) && FollowsOnly(env, i, m)
    ensures KeepsUp(env, StartRun(env, startAt, now), i, m)
  {
    var s := NewRun(env, startAt, now);
    RootKeepsUp(env, s, now, i, m);
  }

  lemma RootKeepsUp(env: Setting, s: RunState, now: Time, i: nat, m: nat)
    requires ValidSetting(env) && FollowsOnly(env, i, m) && |s.rows| == 1 && s.rows[0].step == ROOT_KEY
    ensures KeepsUp(env, Apply(env, s, Created, now), i, m)
  {
    RootMakesOnce(env, s, now, i);
    RootMakesOnce(env, s, now, m);
    OthersFireNone(env, s, Created, env.steps[m].key);
    TriggeredByFinish(env, i, m, Tasks(env.board, s.rows), FiredBy(env, s, Created));
    NothingCompleted(env, s, now, m);
  }

  lemma RootMakesOnce(env: Setting, s: RunState, now: Time, i: nat)
    requires DistinctKeys(env.steps) && |s.rows| == 1 && s.rows[0].step == ROOT_KEY
    requires i < |env.steps| && !IsRoot(env.steps[i])
    ensures Last(env, s.rows, env.steps[i].key) == 0
    ensures WholeGroups(env, s.rows, env.steps[i])
    ensures Last(env, Apply(env, s, Created, now).rows, env.steps[i].key)
         == if MakesOf(env, s, Created, env.steps[i]) then 1 else 0
  {
    RootHasNoGroups(env, s.rows, env.steps[i]);
    assert s.rows[..0] == [];
    LastFromEntries(env, s.rows, env.steps[i].key, 0);
    ApplyGroups(env, s, Created, now, i);
  }

  lemma NothingCompleted(env: Setting, s: RunState, now: Time, m: nat)
    requires ValidSetting(env) && |s.rows| == 1 && s.rows[0].step == ROOT_KEY && m < |env.steps| && !IsRoot(env.steps[m])
    ensures var key, rows := env.steps[m].key, Apply(env, s, Created, now).rows;
            CompletedOf(env, rows, key, Last(env, rows, key)) == 0
  {
    var key, rows := env.steps[m].key, Apply(env, s, Created, now).rows;
    RootMakesOnce(env, s, now, m);
    ApplyCompletes(env, s, Created, now, m, Group(key, 1));
    assert !Completed(env, s.rows, Group(key, 1));
    assert CompletedOf(env, rows, key, 0) == 0;
  }

  /** A step that runs once has at most one iteration. */
  lemma OnceIsOnce(env: Setting, startAt: Option<Time>, start: Time, ops: seq<Op>, i: nat)
    requires ValidSetting(env) && SmoothRun(env, StartRun(env, startAt, start), ops)
    requires i < |env.steps| && !IsRoot(env.steps[i]) && env.steps[i].once
    ensures Last(env, ExecAll(env, StartRun(env, startAt, start), ops).rows, env.steps[i].key) <= 1
  {
    StartIsSteady(env, startAt, start);
    var s := NewRun(env, startAt, start);
    RootMakesOnce(env, s, start, i);
    RunKeepsOnce(env, StartRun(env, startAt, start), ops, i);
  }

  /** From the start of a run every group fires its step's finish exactly once
      by the time it is completed: with its last task, not before, not again. */
  lemma GroupsFireOnce(env: Setting, startAt: Option<Time>, start: Time, ops: seq<Op>, i: nat, g: Group)
    requires ValidSetting(env) && SmoothRun(env, StartRun(env, startAt, start), ops)
    requires i < |env.steps| && !IsRoot(env.steps[i]) && g.step == env.steps[i].key
    ensures var s0 := StartRun(env, startAt, start);
            FireCount(env, s0, ops, g) == if Completed(env, ExecAll(env, s0, ops).rows, g) then 1 else 0
  {
    StartIsSteady(env, startAt, start);
    var s := NewRun(env, startAt, start);
    RootMakesOnce(env, s, start, i);
    ApplyCompletes(env, s, Created, start, i, g);
    FiresOncePerGroup(env, StartRun(env, startAt, start), ops, i, g);
  }
}
