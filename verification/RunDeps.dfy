/** The dependencies a run makes. They are added without any cycle check, and
    the root that finishes itself is moved without asking for its open ones;
    both are justified here. */
module RunDeps {
  import opened Options
  import opened Ids
  import opened Offsets
  import opened Program
  import opened Transition
  import opened Runs
  import opened RunInvariants
  import opened RunProgress
  import Graph

  ghost predicate CountedId(rows: seq<Row>, id: TaskId) {
    exists i :: CountedAt(rows, id, i)
  }

  predicate CountedAt(rows: seq<Row>, id: TaskId, i: int) {
    0 <= i < |rows| && rows[i].id == id && rows[i].counts
  }

  /** A task waits only for tasks made before it, never for the root; the root
      waits for exactly the tasks that count. */
  ghost predicate DepsOk(env: Setting, s: RunState) {
    && (forall a, b :: (a, b) in s.deps && a != env.root ==> b < a < s.nextId && b != env.root)
    && (forall b :: (env.root, b) in s.deps <==> CountedId(s.rows, b))
  }

  /** What a task to be made waits for exists already and is not the root. */
  predicate WaitsBackOne(env: Setting, rows: seq<Row>, c: Creation) {
    forall d :: d in c.dependsOn ==> d != env.root && HasId(rows, d)
  }

  predicate WaitsBack(env: Setting, rows: seq<Row>, create: seq<Creation>) {
    forall c :: c in create ==> WaitsBackOne(env, rows, c)
  }

  lemma {:induction false} LatestIsNotRoot(env: Setting, s: RunState, keys: seq<string>)
    requires Shape(env, s) && ROOT_KEY !in keys
    ensures forall d :: d in LatestOfAll(Tasks(env.board, s.rows), keys) ==> d != env.root && HasId(s.rows, d)
  {
    if keys != [] {
      var k := |keys| - 1;
      LatestIsNotRoot(env, s, keys[..k]);
      var tasks := Tasks(env.board, s.rows);
      var latest := Latest(tasks, keys[k]);
      if latest.Some? {
        var i :| 0 <= i < |tasks| && tasks[i] == latest.value;
        assert keys[k] in keys;
        assert i > 0 && s.rows[0].id < s.rows[i].id && s.rows[i] in s.rows;
      }
    }
  }

  lemma TriggerIsNotRoot(env: Setting, s: RunState, event: RunEvent)
    requires ValidSetting(env) && Shape(env, s) && !EndsRoot(env, event)
    ensures var r := Read(env.steps, Tasks(env.board, s.rows), event);
            r.trigger.Some? ==> r.trigger.value != env.root && HasId(s.rows, r.trigger.value)
  {
    if event.Finishes? || event.IsAnswered? {
      FindTaskIs(env.board, s.rows, event.task);
      FindAt(s.rows, 0);
      if Find(s.rows, event.task).Some? {
        var i := IndexOf(s.rows, event.task);
        assert s.rows[i] in s.rows;
      }
    }
  }

  lemma CreationsWaitBack(env: Setting, s: RunState, reading: Reading, started: bool, now: Time)
    requires ValidSetting(env) && Shape(env, s)
    requires reading.trigger.Some? ==> reading.trigger.value != env.root && HasId(s.rows, reading.trigger.value)
    ensures WaitsBack(
      env, s.rows, Creations(env.steps, |env.steps|, Tasks(env.board, s.rows), reading, started, now, env.zone))
  {
    var tasks := Tasks(env.board, s.rows);
    forall c | c in Creations(env.steps, |env.steps|, tasks, reading, started, now, env.zone)
      ensures WaitsBackOne(env, s.rows, c)
    {
      var k := CreationIsInGroup(env.steps, |env.steps|, tasks, reading, started, now, env.zone, c);
      IfMadeWaitsBack(env, s, k, reading, started, now);
    }
  }

  lemma IfMadeWaitsBack(env: Setting, s: RunState, k: nat, reading: Reading, started: bool, now: Time)
    requires ValidSetting(env) && Shape(env, s) && k < |env.steps|
    requires reading.trigger.Some? ==> reading.trigger.value != env.root && HasId(s.rows, reading.trigger.value)
    ensures WaitsBack(
      env, s.rows, GroupIfMade(env.steps, k, Tasks(env.board, s.rows), reading, started, now, env.zone))
  {
    assert env.steps[k] in env.steps;
    GroupWaitsBack(env, s, k, env.steps[k], reading.trigger, started, now);
  }

  lemma GroupWaitsBack(
    env: Setting, s: RunState, index: nat, step: Step, trigger: Option<TaskId>, started: bool, now: Time)
    requires Shape(env, s) && ROOT_KEY !in step.alsoAfter
    requires trigger.Some? ==> trigger.value != env.root && HasId(s.rows, trigger.value)
    ensures WaitsBack(
      env, s.rows, GroupOf(index, step, Tasks(env.board, s.rows), trigger, started, now, env.zone))
  {
    LatestIsNotRoot(env, s, step.alsoAfter);
  }

  lemma PlanWaitsBack(env: Setting, s: RunState, event: RunEvent, now: Time)
    requires ValidSetting(env) && Shape(env, s)
    ensures WaitsBack(env, s.rows, PlanOf(env, s, event, now).create)
  {
    if EndsRoot(env, event) {
      RootEventEndsRun(env, s, event, now);
    } else {
      TriggerIsNotRoot(env, s, event);
      CreationsWaitBack(
        env, s, Read(env.steps, Tasks(env.board, s.rows), event),
        s.startedAt.Some? || event.RootStarts?, now);
    }
  }

  predicate DepOfAt(env: Setting, create: seq<Creation>, id: TaskId, dep: (TaskId, TaskId), i: int) {
    0 <= i < |create| && dep in DepsOf(env, create[i], id + i)
  }

  lemma {:induction false} MadeDepsAre(env: Setting, create: seq<Creation>, id: TaskId, dep: (TaskId, TaskId))
    ensures dep in MadeDeps(env, create, id) <==> exists i :: DepOfAt(env, create, id, dep, i)
  {
    if create != [] {
      var k := |create| - 1;
      MadeDepsAre(env, create[..k], id, dep);
      if i :| DepOfAt(env, create, id, dep, i) {
        if i < k {
          assert DepOfAt(env, create[..k], id, dep, i);
        }
      }
      if i :| DepOfAt(env, create[..k], id, dep, i) {
        assert DepOfAt(env, create, id, dep, i);
      }
      if dep in DepsOf(env, create[k], id + k) {
        assert DepOfAt(env, create, id, dep, k);
      }
    }
  }

  /** A new dependency of a task: the task is new, what it waits for is not. */
  lemma NewDepOfTask(env: Setting, s: RunState, create: seq<Creation>, a: TaskId, b: TaskId)
    requires Shape(env, s) && WaitsBack(env, s.rows, create)
    requires (a, b) in MadeDeps(env, create, s.nextId) && a != env.root
    ensures s.nextId <= a < s.nextId + |create| && b < s.nextId && b != env.root
  {
    MadeDepsAre(env, create, s.nextId, (a, b));
    var i :| DepOfAt(env, create, s.nextId, (a, b), i);
    assert create[i] in create && WaitsBackOne(env, s.rows, create[i]) && b in create[i].dependsOn;
  }

  /** A new dependency of the root: on a new task that counts. */
  lemma NewDepOfRoot(env: Setting, s: RunState, create: seq<Creation>, b: TaskId)
    requires Shape(env, s)
    ensures (env.root, b) in MadeDeps(env, create, s.nextId)
       <==> exists i :: 0 <= i < |create| && create[i].counts && b == s.nextId + i
  {
    MadeDepsAre(env, create, s.nextId, (env.root, b));
    assert s.rows[0].id < s.nextId;
    if i :| 0 <= i < |create| && create[i].counts && b == s.nextId + i {
      assert DepOfAt(env, create, s.nextId, (env.root, b), i);
    }
    if i :| DepOfAt(env, create, s.nextId, (env.root, b), i) {
      assert create[i].counts && b == s.nextId + i;
    }
  }

  lemma EnactKeepsDeps(env: Setting, s: RunState, plan: Plan, now: Time)
    requires Shape(env, s) && DepsOk(env, s) && Known(env, plan.create) && WaitsBack(env, s.rows, plan.create)
    ensures DepsOk(env, Enact(env, s, plan, now))
  {
    var s' := Enact(env, s, plan, now);
    EnactedRows(env, s, plan, now);
    forall a, b | (a, b) in s'.deps && a != env.root ensures b < a < s'.nextId && b != env.root {
      if (a, b) in MadeDeps(env, plan.create, s.nextId) {
        NewDepOfTask(env, s, plan.create, a, b);
      }
    }
    forall b ensures (env.root, b) in s'.deps <==> CountedId(s'.rows, b) {
      NewDepOfRoot(env, s, plan.create, b);
      CountedAfter(env, s, plan, now, b);
    }
  }

  lemma CountedAfter(env: Setting, s: RunState, plan: Plan, now: Time, b: TaskId)
    requires Known(env, plan.create)
    ensures CountedId(Enact(env, s, plan, now).rows, b)
       <==> CountedId(s.rows, b) || exists i :: 0 <= i < |plan.create| && plan.create[i].counts && b == s.nextId + i
  {
    EnactedCounts(env, s, plan, now);
    CountedInTwo(s.rows, Enact(env, s, plan, now).rows, plan.create, s.nextId, b);
  }

  /** The ids of the rows a plan leaves, and which of them count. */
  predicate CountsAs(was: seq<Row>, rows: seq<Row>, create: seq<Creation>, id: TaskId) {
    && |rows| == |was| + |create|
    && (forall i :: 0 <= i < |was| ==> rows[i].id == was[i].id && rows[i].counts == was[i].counts)
    && (forall i :: |was| <= i < |rows| ==>
          rows[i].id == id + (i - |was|) && rows[i].counts == create[i - |was|].counts)
  }

  lemma EnactedCounts(env: Setting, s: RunState, plan: Plan, now: Time)
    requires Known(env, plan.create)
    ensures CountsAs(s.rows, Enact(env, s, plan, now).rows, plan.create, s.nextId)
  {
    EnactedRows(env, s, plan, now);
    forall i | 0 <= i < |s.rows|
      ensures Touched(env, plan, s.rows[i], now).id == s.rows[i].id
           && Touched(env, plan, s.rows[i], now).counts == s.rows[i].counts
    {
      NotedKeeps(plan, s.rows[i], now);
    }
  }

  lemma CountedInTwo(was: seq<Row>, rows: seq<Row>, create: seq<Creation>, id: TaskId, b: TaskId)
    requires CountsAs(was, rows, create, id)
    ensures CountedId(rows, b) <==> CountedId(was, b) || exists i :: 0 <= i < |create| && create[i].counts && b == id + i
  {
    var n := |was|;
    if i :| CountedAt(rows, b, i) {
      if i < n {
        assert CountedAt(was, b, i);
      } else {
        assert create[i - n].counts && b == id + (i - n);
      }
    }
    if i :| CountedAt(was, b, i) {
      assert CountedAt(rows, b, i);
    }
    if i :| 0 <= i < |create| && create[i].counts && b == id + i {
      assert CountedAt(rows, b, n + i);
    }
  }

  lemma ApplyKeepsDeps(env: Setting, s: RunState, event: RunEvent, now: Time)
    requires ValidSetting(env) && Shape(env, s) && DepsOk(env, s)
    ensures DepsOk(env, Apply(env, s, event, now))
  {
    PlanIsKnown(env, s, event, now);
    PlanWaitsBack(env, s, event, now);
    EnactKeepsDeps(env, s, PlanOf(env, s, event, now), now);
  }

  lemma UpdateKeepsDeps(env: Setting, s: RunState, row: Row, row': Row, s': RunState)
    requires Shape(env, s) && DepsOk(env, s) && Find(s.rows, row.id) == Some(row)
    requires row'.id == row.id && row'.counts == row.counts
    requires s'.rows == Update(s.rows, row.id, row') && s'.deps == s.deps && s'.nextId == s.nextId
    ensures DepsOk(env, s')
  {
    forall b ensures CountedId(s'.rows, b) <==> CountedId(s.rows, b) {
      forall i ensures CountedAt(s'.rows, b, i) <==> CountedAt(s.rows, b, i) {
        if 0 <= i < |s.rows| && s.rows[i].id == row.id {
          FindAt(s.rows, i);
        }
      }
    }
  }

  lemma MoveKeepsDeps(
    env: Setting, s: RunState, id: TaskId, to: ColumnId, answer: Option<string>, overriding: bool, now: Time)
    requires ValidSetting(env) && Shape(env, s) && DepsOk(env, s)
    requires MoveTask(env, s, id, to, answer, overriding, now).Ok?
    ensures DepsOk(env, MoveTask(env, s, id, to, answer, overriding, now).value)
  {
    var row, plan := MoveIs(env, s, id, to, answer, overriding, now);
    HandOverKeepsShape(env, s, row, plan, answer, now);
    HandOverIs(env, s, row, plan, answer, now);
    MovedRowIsOk(env, row, plan, Active(s), now);
    var h := HandOver(env, s, row, plan, answer, now);
    UpdateKeepsDeps(env, s, row, MovedRow(env.board, row, plan, Active(s), now), h.s);
    if h.Handed? {
      ApplyKeepsDeps(env, h.s, h.event, now);
    }
  }

  lemma DeleteKeepsDeps(env: Setting, s: RunState, id: TaskId, now: Time)
    requires ValidSetting(env) && Shape(env, s) && DepsOk(env, s) && DeleteTask(env, s, id, now).Ok?
    ensures DepsOk(env, DeleteTask(env, s, id, now).value)
  {
    var row, s1 := DeleteIs(env, s, id, now);
    GoneKeepsShape(env, s, id, row, s1);
    GoneKeepsDeps(env, s, row, s1);
    if Active(s) {
      ApplyKeepsDeps(env, s1, Deleted(id), now);
    }
  }

  lemma GoneKeepsDeps(env: Setting, s: RunState, row: Row, s1: RunState)
    requires Shape(env, s) && DepsOk(env, s) && Find(s.rows, row.id) == Some(row)
    requires s1 == s.(rows := Update(s.rows, row.id, Gone(s, row)))
    ensures DepsOk(env, s1)
  {
    UpdateKeepsDeps(env, s, row, Gone(s, row), s1);
  }

  lemma RestoreKeepsDeps(env: Setting, s: RunState, id: TaskId)
    requires Shape(env, s) && DepsOk(env, s) && RestoreTask(env, s, id).Ok?
    ensures DepsOk(env, RestoreTask(env, s, id).value)
  {
    var row := Find(s.rows, id).value;
    var to := RestoreColumn(s.columns, row);
    UpdateKeepsDeps(
      env, s, row, row.(archived := false, column := to, finishedAt := None, skipped := false),
      RestoreTask(env, s, id).value);
  }

  lemma ArchiveKeepsDeps(env: Setting, s: RunState, id: TaskId)
    requires Shape(env, s) && DepsOk(env, s) && ArchiveTask(env, s, id).Ok?
    ensures DepsOk(env, ArchiveTask(env, s, id).value)
  {
    var row := Find(s.rows, id).value;
    UpdateKeepsDeps(
      env, s, row, row.(archived := true, archivedFrom := row.column), ArchiveTask(env, s, id).value);
  }

  lemma AnswerKeepsDeps(env: Setting, s: RunState, id: TaskId, text: string, now: Time)
    requires ValidSetting(env) && Shape(env, s) && DepsOk(env, s) && AnswerTask(env, s, id, text, now).Ok?
    ensures DepsOk(env, AnswerTask(env, s, id, text, now).value)
  {
    var row := Find(s.rows, id).value;
    var event := AnswerIs(env, s, id, text, now);
    if Done(env.board, row) {
      ApplyKeepsDeps(env, s, event, now);
    } else {
      MoveKeepsDeps(env, s, id, env.board.finished, Some(text), false, now);
    }
  }

  /** Dependencies stay right as long as no id and no count changes. */
  lemma SameCountsSameDeps(env: Setting, s: RunState, s': RunState)
    requires DepsOk(env, s) && s'.deps == s.deps && s'.nextId >= s.nextId && |s'.rows| == |s.rows|
    requires forall i :: 0 <= i < |s.rows| ==> s'.rows[i].id == s.rows[i].id && s'.rows[i].counts == s.rows[i].counts
    ensures DepsOk(env, s')
  {
    forall b ensures CountedId(s'.rows, b) <==> CountedId(s.rows, b) {
      forall i ensures CountedAt(s'.rows, b, i) <==> CountedAt(s.rows, b, i) {
      }
    }
  }

  lemma CancelKeepsDeps(env: Setting, s: RunState, deleteOpen: bool, now: Time)
    requires DepsOk(env, s) && CancelRun(env, s, deleteOpen, now).Ok?
    ensures DepsOk(env, CancelRun(env, s, deleteOpen, now).value)
  {
    SameCountsSameDeps(env, s, CancelRun(env, s, deleteOpen, now).value);
  }

  lemma SweepKeepsDeps(env: Setting, s: RunState, gone: ColumnId, to: Option<ColumnId>, others: bool)
    requires DepsOk(env, s) && RemoveColumnOf(env, s, gone, to, others).Ok?
    ensures DepsOk(env, RemoveColumnOf(env, s, gone, to, others).value)
  {
    SweepIs(env, s, gone, to, others);
    SameCountsSameDeps(env, s, RemoveColumnOf(env, s, gone, to, others).value);
  }

  lemma StepKeepsDeps(env: Setting, s: RunState, op: Op)
    requires ValidSetting(env) && Shape(env, s) && DepsOk(env, s)
    ensures DepsOk(env, Exec(env, s, op))
  {
    if Try(env, s, op).Ok? {
      match op {
        case Move(id, to, answer, overriding, now) => MoveKeepsDeps(env, s, id, to, answer, overriding, now);
        case Delete(id, now) => DeleteKeepsDeps(env, s, id, now);
        case Restore(id) => RestoreKeepsDeps(env, s, id);
        case Archive(id) => ArchiveKeepsDeps(env, s, id);
        case Answer(id, text, now) => AnswerKeepsDeps(env, s, id, text, now);
        case RemoveColumn(gone, to, others) => SweepKeepsDeps(env, s, gone, to, others);
        case Cancel(_, _) => CancelKeepsDeps(env, s, op.deleteOpen, op.now);
        case _ => SameCountsSameDeps(env, s, Exec(env, s, op));
      }
    }
  }

  lemma StartKeepsDeps(env: Setting, startAt: Option<Time>, now: Time)
    requires ValidSetting(env)
    ensures DepsOk(env, StartRun(env, startAt, now))
  {
    var s := NewRun(env, startAt, now);
    NewRunHasShape(env, startAt, now);
    assert DepsOk(env, s);
    ApplyKeepsDeps(env, s, Created, now);
  }

  lemma DepsOkIsAcyclic(env: Setting, s: RunState)
    requires Shape(env, s) && DepsOk(env, s)
    ensures Graph.Acyclic(Graph.OfEdges(s.deps))
  {
    var g := Graph.OfEdges(s.deps);
    var rank := (n: TaskId) => if n == env.root then s.nextId else n;
    forall a, b | Graph.Edge(g, a, b) ensures rank(b) < rank(a) {
      assert (a, b) in s.deps;
      if a == env.root {
        var i :| CountedAt(s.rows, b, i);
        assert i > 0;
        assert s.rows[0].id < s.rows[i].id < s.nextId;
      }
    }
    Graph.DownhillIsAcyclic(g, rank);
  }

  /** Over whole runs, whatever is done, the dependency graph stays acyclic,
      though no step of it is checked. */
  lemma RunDepsAreAcyclic(env: Setting, startAt: Option<Time>, start: Time, ops: seq<Op>)
    requires ValidSetting(env)
    ensures Graph.Acyclic(Graph.OfEdges(ExecAll(env, StartRun(env, startAt, start), ops).deps))
  {
    RunKeepsDeps(env, startAt, start, ops);
    DepsOkIsAcyclic(env, ExecAll(env, StartRun(env, startAt, start), ops));
  }

  lemma {:induction false} RunKeepsDeps(env: Setting, startAt: Option<Time>, start: Time, ops: seq<Op>)
    requires ValidSetting(env)
    ensures var s := ExecAll(env, StartRun(env, startAt, start), ops);
            Shape(env, s) && DepsOk(env, s)
  {
    if ops == [] {
      StartIsInv(env, startAt, start);
      StartKeepsDeps(env, startAt, start);
    } else {
      var n := |ops| - 1;
      RunKeepsDeps(env, startAt, start, ops[..n]);
      var s := ExecAll(env, StartRun(env, startAt, start), ops[..n]);
      StepKeepsShape(env, s, ops[n]);
      StepKeepsDeps(env, s, ops[n]);
    }
  }

  // Why the root may finish without a dependency check.

  lemma {:induction false} OpenDepsAre(board: Board, rows: seq<Row>, deps: set<(TaskId, TaskId)>, id: TaskId)
    ensures OpenDeps(board, rows, deps, id) == []
       <==> forall i :: 0 <= i < |rows| && (id, rows[i].id) in deps ==> Done(board, rows[i])
  {
    if rows != [] {
      var k := |rows| - 1;
      OpenDepsAre(board, rows[..k], deps, id);
    }
  }

  /** When nothing counted is open, every dependency of the root is done. */
  lemma NothingOpenNothingBlocks(env: Setting, s: RunState)
    requires Shape(env, s) && DepsOk(env, s) && !AnyOpen(env, s)
    ensures OpenDeps(env.board, s.rows, s.deps, env.root) == []
  {
    OpenDepsAre(env.board, s.rows, s.deps, env.root);
    forall i | 0 <= i < |s.rows| && (env.root, s.rows[i].id) in s.deps ensures Done(env.board, s.rows[i]) {
      var k :| CountedAt(s.rows, s.rows[i].id, k);
      FindAt(s.rows, i);
      FindAt(s.rows, k);
      assert k > 0 && RowOk(env, s.rows[k]);
      assert !OpenAt(env, s.rows, k);
    }
  }

  /** When a run closes by itself, no dependency of the root is open, so the
      check the daemon leaves out would have let the root through. */
  lemma SelfFinishIsUnblocked(env: Setting, s: RunState, op: Op)
    requires ValidSetting(env) && Inv(env, s) && DepsOk(env, s) && Active(s) && !Active(Exec(env, s, op))
    requires !op.Cancel? && (op.Move? || op.Delete? || op.Answer? ==> op.id != env.root)
    ensures var s' := Exec(env, s, op); OpenDeps(env.board, s'.rows, s'.deps, env.root) == []
  {
    ClosesOnlyWhenDone(env, s, op);
    StepKeepsInv(env, s, op);
    StepKeepsDeps(env, s, op);
    NothingOpenNothingBlocks(env, Exec(env, s, op));
  }
}
