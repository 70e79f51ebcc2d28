/** The tasks an event makes in a run: which, when they start, and what they wait
    for. */
module RunMade {
  import opened Options
  import opened Ids
  import opened Offsets
  import opened Questions
  import opened Program
  import opened Transition
  import opened Runs
  import opened RunInvariants
  import opened RunDeps
  import opened EngineTells
  import RunRefusals

  lemma TasksAreUnique(env: Setting, rows: seq<Row>)
    requires Increasing(rows)
    ensures UniqueIds(Tasks(env.board, rows))
  {
  }

  predicate UnskippedRowAt(rows: seq<Row>, key: string, k: int) {
    0 <= k < |rows| && rows[k].step == key && !rows[k].skipped
  }

  /** The task of a step with the greatest iteration, skipped ones aside, and the last
      made among equals. */
  ghost predicate LatestRowAt(rows: seq<Row>, key: string, k: int) {
    && UnskippedRowAt(rows, key, k)
    && forall j :: UnskippedRowAt(rows, key, j) ==>
         rows[j].iteration < rows[k].iteration || (rows[j].iteration == rows[k].iteration && j <= k)
  }

  lemma LatestRowIs(env: Setting, rows: seq<Row>, key: string, k: int)
    ensures LatestAt(Tasks(env.board, rows), key, k) <==> LatestRowAt(rows, key, k)
  {
    var tasks := Tasks(env.board, rows);
    assert forall j :: UnskippedRowAt(rows, key, j) <==> EngineTells.UnskippedAt(tasks, key, j);
  }

  /** Whether a task to be made of a step waits for a task: the event is its finish or
      its answer, or it is the latest of a step that one comes after. */
  ghost predicate ComesAfter(rows: seq<Row>, event: RunEvent, step: Step, d: TaskId) {
    || Triggering(event, d)
    || exists key, k :: key in step.alsoAfter && LatestRowAt(rows, key, k) && rows[k].id == d
  }

  lemma ComesAfterIs(env: Setting, rows: seq<Row>, event: RunEvent, step: Step, d: TaskId)
    ensures ComesAfter(rows, event, step, d) <==>
              Triggering(event, d) || LatestOfSome(Tasks(env.board, rows), step.alsoAfter, d)
  {
    var tasks := Tasks(env.board, rows);
    if key, k :| key in step.alsoAfter && LatestRowAt(rows, key, k) && rows[k].id == d {
      LatestRowIs(env, rows, key, k);
      assert tasks[k].id == d;
    }
    if key, k :| key in step.alsoAfter && LatestAt(tasks, key, k) && tasks[k].id == d {
      LatestRowIs(env, rows, key, k);
    }
  }

  /** A task as an event makes it, of the k-th step. */
  ghost predicate IsMade(env: Setting, s: RunState, event: RunEvent, now: Time, k: int, row: Row) {
    && 0 <= k < |env.steps| && Owes(env.steps, Tasks(env.board, s.rows), event, k)
    && var step := env.steps[k];
       && row.step == step.key && row.param in Params(step) && row.counts == step.counts
       && row.question == step.question && row.limit == step.timeLimit
       && IsNextIteration(Tasks(env.board, s.rows), step.key, row.iteration)
       && StartsAt(step.start, s.startedAt.Some? || event.RootStarts?, now, env.zone, row.startAt)
       && row.column == env.column && !row.archived && !row.skipped && !row.asked && row.answer.None?
       && row.dueAt.None? && row.pausedAt.None?
  }

  /** What a new task waits for, and whether it keeps the root back. */
  ghost predicate IsKeptBack(
    env: Setting, s: RunState, event: RunEvent, step: Step, deps: set<(TaskId, TaskId)>, id: TaskId)
  {
    && (forall d :: (id, d) in deps <==> ComesAfter(s.rows, event, step, d))
    && ((env.root, id) in deps <==> step.counts)
  }

  /** Every task an event adds is one of a step it makes, just made, and is kept back
      by exactly what that step comes after; and it keeps back the root exactly if it
      counts. */
  lemma NewTaskIsTold(env: Setting, s: RunState, event: RunEvent, now: Time, i: nat) returns (k: nat)
    requires ValidSetting(env) && Shape(env, s) && DepsOk(env, s)
    requires |s.rows| <= i < |Apply(env, s, event, now).rows|
    ensures var s' := Apply(env, s, event, now);
            IsToldBy(env, s, event, now, k, s'.rows[i], s'.deps)
  {
    var c := RowIsNew(env, s, event, now, i);
    k := c.step;
    MadeRowIsTold(env, s, event, now, i - |s.rows|, k, Apply(env, s, event, now).rows[i]);
  }

  ghost predicate IsToldBy(
    env: Setting, s: RunState, event: RunEvent, now: Time, k: nat, row: Row, deps: set<(TaskId, TaskId)>)
  {
    IsMade(env, s, event, now, k, row) && IsKeptBack(env, s, event, env.steps[k], deps, row.id)
  }

  lemma MadeRowIsTold(env: Setting, s: RunState, event: RunEvent, now: Time, n: nat, k: nat, row: Row)
    requires ValidSetting(env) && Shape(env, s) && DepsOk(env, s)
    requires n < |PlanOf(env, s, event, now).create| && PlanOf(env, s, event, now).create[n].step == k < |env.steps|
    requires row.id == s.nextId + n && row == RowFor(env, PlanOf(env, s, event, now).create[n], row.id, now)
    ensures IsToldBy(env, s, event, now, k, row, Apply(env, s, event, now).deps)
  {
    CreationIsOwed(env, s, event, now, PlanOf(env, s, event, now).create[n], k, row);
    NewWaitsAre(env, s, event, now, n, k, row.id);
  }

  lemma RowIsNew(env: Setting, s: RunState, event: RunEvent, now: Time, i: nat) returns (c: Creation)
    requires |s.rows| <= i < |Apply(env, s, event, now).rows|
    ensures var n, create, row := i - |s.rows|, PlanOf(env, s, event, now).create, Apply(env, s, event, now).rows[i];
            n < |create| && c == create[n] && c.step < |env.steps|
            && row.id == s.nextId + n && row == RowFor(env, c, row.id, now)
  {
    PlanIsKnown(env, s, event, now);
    EnactedRows(env, s, PlanOf(env, s, event, now), now);
    c := PlanOf(env, s, event, now).create[i - |s.rows|];
  }

  lemma NewWaitsAre(env: Setting, s: RunState, event: RunEvent, now: Time, n: nat, k: nat, id: TaskId)
    requires ValidSetting(env) && Shape(env, s) && DepsOk(env, s) && id == s.nextId + n
    requires n < |PlanOf(env, s, event, now).create| && PlanOf(env, s, event, now).create[n].step == k < |env.steps|
    requires PlanOf(env, s, event, now).create[n].counts == env.steps[k].counts
    ensures IsKeptBack(env, s, event, env.steps[k], Apply(env, s, event, now).deps, id)
  {
    var deps, c := Apply(env, s, event, now).deps, PlanOf(env, s, event, now).create[n];
    NewDepsAre(env, s, event, now, n);
    forall d ensures (id, d) in deps <==> ComesAfter(s.rows, event, env.steps[k], d) {
      WaitsAreTold(env.steps, Tasks(env.board, s.rows), s.startedAt.Some?, event, now, env.zone, c, d);
      ComesAfterIs(env, s.rows, event, env.steps[k], d);
    }
  }

  lemma CreationIsOwed(env: Setting, s: RunState, event: RunEvent, now: Time, c: Creation, k: nat, row: Row)
    requires Increasing(s.rows) && c in PlanOf(env, s, event, now).create
    requires c.step == k < |env.steps| && row == RowFor(env, c, row.id, now)
    ensures c.counts == env.steps[k].counts && IsMade(env, s, event, now, k, row)
  {
    var tasks := Tasks(env.board, s.rows);
    var reading := Read(env.steps, tasks, event);
    TasksAreUnique(env, s.rows);
    var j := CreationIsInGroup(
      env.steps, |env.steps|, tasks, reading, s.startedAt.Some? || event.RootStarts?, now, env.zone, c);
    MakesIs(env.steps, tasks, event, k);
    CreationIsTold(env.steps, tasks, s.startedAt.Some?, event, now, env.zone, c);
  }

  /** The pairs a new task is part of. */
  lemma NewDepsAre(env: Setting, s: RunState, event: RunEvent, now: Time, n: nat)
    requires ValidSetting(env) && Shape(env, s) && DepsOk(env, s)
    requires n < |PlanOf(env, s, event, now).create|
    ensures var deps, c := Apply(env, s, event, now).deps, PlanOf(env, s, event, now).create[n];
            (forall d :: (s.nextId + n, d) in deps <==> d in c.dependsOn)
            && ((env.root, s.nextId + n) in deps <==> c.counts)
  {
    PlanIsKnown(env, s, event, now);
    AddedDepsAre(env, s, PlanOf(env, s, event, now).create, n);
  }

  lemma AddedDepsAre(env: Setting, s: RunState, create: seq<Creation>, n: nat)
    requires Shape(env, s) && DepsOk(env, s) && n < |create|
    ensures var deps := s.deps + MadeDeps(env, create, s.nextId);
            (forall d :: (s.nextId + n, d) in deps <==> d in create[n].dependsOn)
            && ((env.root, s.nextId + n) in deps <==> create[n].counts)
  {
    var id := s.nextId + n;
    assert s.rows[0].id < s.nextId;
    forall d ensures (id, d) in s.deps + MadeDeps(env, create, s.nextId) <==> d in create[n].dependsOn {
      OnlyItsOwn(env, s, create, n, d);
      assert (id, d) !in s.deps;
    }
    NewDepOfRoot(env, s, create, id);
    assert !CountedId(s.rows, id);
  }

  lemma OnlyItsOwn(env: Setting, s: RunState, create: seq<Creation>, n: nat, d: TaskId)
    requires Shape(env, s) && n < |create|
    ensures (s.nextId + n, d) in MadeDeps(env, create, s.nextId) <==> d in create[n].dependsOn
  {
    var id := s.nextId + n;
    assert s.rows[0].id < s.nextId;
    MadeDepsAre(env, create, s.nextId, (id, d));
    if i :| DepOfAt(env, create, s.nextId, (id, d), i) {
      assert i == n;
    }
    if d in create[n].dependsOn {
      assert DepOfAt(env, create, s.nextId, (id, d), n);
    }
  }

  /** And of every step it makes, a task is added for each entry. */
  lemma OwedIsMade(env: Setting, s: RunState, event: RunEvent, now: Time, k: nat, p: Option<string>) returns (i: nat)
    requires Increasing(s.rows) && Owes(env.steps, Tasks(env.board, s.rows), event, k) && p in Params(env.steps[k])
    ensures var rows := Apply(env, s, event, now).rows;
            |s.rows| <= i < |rows| && rows[i].step == env.steps[k].key && rows[i].param == p
  {
    var tasks := Tasks(env.board, s.rows);
    var reading, started := Read(env.steps, tasks, event), s.startedAt.Some? || event.RootStarts?;
    var plan := PlanOf(env, s, event, now);
    TasksAreUnique(env, s.rows);
    if reading.ends {
      EndingMakesNone(env.steps, tasks, event, k);
    }
    MakesIs(env.steps, tasks, event, k);
    var n := GroupHas(env, k, tasks, reading, started, now, p, plan.create);
    i := |s.rows| + n;
    PlanMakesAll(env, s, event, now);
    var c := RowIsNew(env, s, event, now, i);
  }

  lemma PlanMakesAll(env: Setting, s: RunState, event: RunEvent, now: Time)
    ensures |Apply(env, s, event, now).rows| == |s.rows| + |PlanOf(env, s, event, now).create|
  {
    PlanIsKnown(env, s, event, now);
    EnactedRows(env, s, PlanOf(env, s, event, now), now);
  }

  lemma GroupHas(
    env: Setting, k: nat, tasks: seq<StepTask>, reading: Reading, started: bool, now: Time, p: Option<string>,
    create: seq<Creation>) returns (n: nat)
    requires k < |env.steps| && Makes(tasks, reading.fired, env.steps[k]) && p in Params(env.steps[k])
    requires create == Creations(env.steps, |env.steps|, tasks, reading, started, now, env.zone)
    ensures n < |create| && create[n].step == k && create[n].param == p
  {
    var group := GroupOf(k, env.steps[k], tasks, reading.trigger, started, now, env.zone);
    var j :| 0 <= j < |Params(env.steps[k])| && Params(env.steps[k])[j] == p;
    assert group[j] in group;
    RunRefusals.GroupIsMade(env.steps, |env.steps|, tasks, reading, started, now, env.zone, k, group[j]);
    n :| 0 <= n < |create| && create[n] == group[j];
  }

  /** What waited before waits for the same. */
  lemma OldWaitsStay(env: Setting, s: RunState, event: RunEvent, now: Time, a: TaskId, b: TaskId)
    requires ValidSetting(env) && Shape(env, s) && DepsOk(env, s) && a < s.nextId && a != env.root
    ensures (a, b) in Apply(env, s, event, now).deps <==> (a, b) in s.deps
  {
    PlanIsKnown(env, s, event, now);
    PlanWaitsBack(env, s, event, now);
    if (a, b) in MadeDeps(env, PlanOf(env, s, event, now).create, s.nextId) {
      NewDepOfTask(env, s, PlanOf(env, s, event, now).create, a, b);
    }
  }
}
