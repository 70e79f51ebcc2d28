/** The daemon's half of the engine: a run's rows, changed in place, one
    transaction at a time, in the order the daemon does it. Each method leaves
    what the transaction functions say. */
module RunDesk {
  import opened Options
  import opened Ids
  import opened Offsets
  import opened Questions
  import opened Titles
  import opened Program
  import opened Transition
  import R = Runs
  import I = RunInvariants

  type Row = R.Row

  /** A plan dates, asks and answers no task it has only just made. */
  lemma LeavesNewAlone(env: R.Setting, s: R.RunState, plan: Plan, now: Time, k: nat)
    requires I.Shape(env, s) && I.NamesRows(plan, s.rows) && R.Known(env, plan.create) && k < |plan.create|
    ensures var row := R.Made(env, plan.create, s.nextId, now)[k]; R.Noted(plan, row, now) == row
  {
    forall row | row in s.rows ensures row.id < s.nextId {
      var i :| 0 <= i < |s.rows| && s.rows[i] == row;
    }
    assert !I.HasId(s.rows, s.nextId + k);
  }

  /** The run with the tasks of a plan made, and nothing else done yet. */
  function WithMade(env: R.Setting, s: R.RunState, create: seq<Creation>, now: Time): R.RunState
    requires R.Known(env, create)
  {
    s.(rows := s.rows + R.Made(env, create, s.nextId, now),
       deps := s.deps + R.MadeDeps(env, create, s.nextId),
       nextId := s.nextId + |create|)
  }

  /** After the first `i` creations. */
  predicate MadeSoFar(
    env: R.Setting, create: seq<Creation>, i: nat, now: Time, rows0: seq<Row>, deps0: set<(TaskId, TaskId)>, id: TaskId,
    rows: seq<Row>, deps: set<(TaskId, TaskId)>, nextId: TaskId)
    requires R.Known(env, create) && i <= |create|
  {
    && rows == rows0 + R.Made(env, create, id, now)[..i]
    && deps == deps0 + R.MadeDeps(env, create[..i], id)
    && nextId == id + i
  }

  lemma MadeOneMore(
    env: R.Setting, create: seq<Creation>, i: nat, now: Time, rows0: seq<Row>, deps0: set<(TaskId, TaskId)>, id: TaskId)
    requires R.Known(env, create) && i < |create|
    ensures MadeSoFar(
      env, create, i + 1, now, rows0, deps0, id,
      rows0 + R.Made(env, create, id, now)[..i] + [R.RowFor(env, create[i], id + i, now)],
      deps0 + R.MadeDeps(env, create[..i], id) + R.DepsOf(env, create[i], id + i), id + i + 1)
  {
    assert create[..i + 1][..i] == create[..i];
  }

  lemma AllMade(env: R.Setting, s: R.RunState, create: seq<Creation>, now: Time, s': R.RunState)
    requires R.Known(env, create)
    requires MadeSoFar(env, create, |create|, now, s.rows, s.deps, s.nextId, s'.rows, s'.deps, s'.nextId)
    requires s' == s.(rows := s'.rows, deps := s'.deps, nextId := s'.nextId)
    ensures s' == WithMade(env, s, create, now)
  {
    assert create[..|create|] == create;
    assert R.Made(env, create, s.nextId, now)[..|create|] == R.Made(env, create, s.nextId, now);
  }

  /** The rows a plan leaves, the root's finish apart. */
  lemma TouchedThenMade(env: R.Setting, s: R.RunState, plan: Plan, now: Time, rows: seq<Row>)
    requires I.Shape(env, s) && I.NamesRows(plan, s.rows) && R.Known(env, plan.create)
    requires |rows| == |s.rows| + |plan.create|
    requires forall i :: 0 <= i < |rows| ==>
               rows[i] == R.Noted(plan, (s.rows + R.Made(env, plan.create, s.nextId, now))[i], now)
    ensures forall i :: 0 <= i < |s.rows| ==> rows[i] == R.Noted(plan, s.rows[i], now)
    ensures forall i :: |s.rows| <= i < |rows| ==> rows[i] == R.Made(env, plan.create, s.nextId, now)[i - |s.rows|]
  {
    forall i | |s.rows| <= i < |rows|
      ensures rows[i] == R.Made(env, plan.create, s.nextId, now)[i - |s.rows|]
    {
      LeavesNewAlone(env, s, plan, now, i - |s.rows|);
    }
  }

  lemma StaysIncreasing(env: R.Setting, s: R.RunState, plan: Plan, now: Time, rows: seq<Row>)
    requires I.Shape(env, s) && R.Known(env, plan.create) && |rows| == |s.rows| + |plan.create|
    requires forall i :: 0 <= i < |rows| ==>
               rows[i].id == (s.rows + R.Made(env, plan.create, s.nextId, now))[i].id
    ensures I.Increasing(rows) && rows[0].id == env.root
  {
    var made := R.Made(env, plan.create, s.nextId, now);
    forall i | 0 <= i < |rows| ensures rows[i].id == if i < |s.rows| then s.rows[i].id else s.nextId + (i - |s.rows|) {
      assert i >= |s.rows| ==> made[i - |s.rows|].id == s.nextId + (i - |s.rows|);
    }
  }

  lemma NotedIds(env: R.Setting, s: R.RunState, plan: Plan, now: Time, rows: seq<Row>)
    requires R.Known(env, plan.create) && |rows| == |s.rows| + |plan.create|
    requires forall i :: 0 <= i < |rows| ==>
               rows[i] == R.Noted(plan, (s.rows + R.Made(env, plan.create, s.nextId, now))[i], now)
    ensures forall i :: 0 <= i < |rows| ==>
              rows[i].id == (s.rows + R.Made(env, plan.create, s.nextId, now))[i].id
  {
    var all := s.rows + R.Made(env, plan.create, s.nextId, now);
    forall i | 0 <= i < |rows| ensures rows[i].id == all[i].id {
      I.NotedKeeps(plan, all[i], now);
    }
  }

  /** The rows of an enacted plan, told in two parts. */
  lemma RowsAreEnacted(env: R.Setting, s: R.RunState, plan: Plan, now: Time, rows: seq<Row>)
    requires I.Shape(env, s) && R.Known(env, plan.create) && |rows| == |s.rows| + |plan.create|
    requires forall i :: 0 < i < |s.rows| ==> rows[i] == R.Noted(plan, s.rows[i], now)
    requires forall i :: |s.rows| <= i < |rows| ==> rows[i] == R.Made(env, plan.create, s.nextId, now)[i - |s.rows|]
    requires var root := R.Noted(plan, s.rows[0], now);
             rows[0] == if plan.finishRoot && !R.Done(env.board, s.rows[0])
                        then root.(column := env.board.finished, finishedAt := Some(now)) else root
    ensures rows == R.TouchedAll(env, plan, s.rows, now) + R.Made(env, plan.create, s.nextId, now)
  {
    forall i | 0 <= i < |s.rows| ensures rows[i] == R.TouchedAll(env, plan, s.rows, now)[i] {
      assert i > 0 ==> s.rows[0].id < s.rows[i].id;
    }
  }

  lemma IsEnacted(env: R.Setting, s: R.RunState, plan: Plan, now: Time, s': R.RunState)
    requires I.Shape(env, s) && R.Known(env, plan.create) && |s'.rows| == |s.rows| + |plan.create|
    requires forall i :: 0 < i < |s.rows| ==> s'.rows[i] == R.Noted(plan, s.rows[i], now)
    requires forall i :: |s.rows| <= i < |s'.rows| ==> s'.rows[i] == R.Made(env, plan.create, s.nextId, now)[i - |s.rows|]
    requires var root := R.Noted(plan, s.rows[0], now);
             s'.rows[0] == if plan.finishRoot && !R.Done(env.board, s.rows[0])
                           then root.(column := env.board.finished, finishedAt := Some(now)) else root
    requires s'.deps == s.deps + R.MadeDeps(env, plan.create, s.nextId) && s'.nextId == s.nextId + |plan.create|
    requires s'.startedAt == s.startedAt && s'.cancelledAt == s.cancelledAt && s'.columns == s.columns
    requires s'.finishedAt ==
             if (plan.finishRoot && !R.Done(env.board, s.rows[0])) || plan.endRun
             then R.Stamp(s.finishedAt, now) else s.finishedAt
    ensures s' == R.Enact(env, s, plan, now)
  {
    FinishesRootIs(env, s, plan);
    RowsAreEnacted(env, s, plan, now, s'.rows);
  }

  lemma FinishesRootIs(env: R.Setting, s: R.RunState, plan: Plan)
    requires I.Shape(env, s)
    ensures R.FinishesRoot(env, plan, s.rows) <==> plan.finishRoot && !R.Done(env.board, s.rows[0])
  {
    I.FindAt(s.rows, 0);
  }

  /** What a request leaves: the state the transaction function gives, or the
      state as it was and the reason. */
  predicate Did(
    was: R.RunState, s: R.RunState, r: Result<(), R.Refusal>, spec: Result<R.RunState, R.Refusal>)
  {
    match spec
    case Ok(s') => r.Ok? && s == s'
    case Err(e) => r == Err(e) && s == was
  }

  /** What a part of a transaction comes to: the state its function gives, or the
      reason it cannot go on, with nothing yet undone. */
  predicate Leaves(s: R.RunState, refused: Option<R.Refusal>, spec: Result<R.RunState, R.Refusal>) {
    match spec
    case Ok(s') => refused.None? && s == s'
    case Err(e) => refused == Some(e)
  }

  /** Why a single task cannot be made, if it cannot. */
  function Hitch(env: R.Setting, columns: seq<ColumnId>, c: Creation): Option<R.Refusal>
    requires c.step < |env.steps|
  {
    match R.FaultOf(env, c)
    case Some(fault) => Some(R.BadTitle(fault))
    case None => if env.column in columns then None else Some(R.NoColumnForTasks)
  }

  /** None of the first `i` tasks is one that cannot be made. */
  predicate ClearSoFar(env: R.Setting, columns: seq<ColumnId>, create: seq<Creation>, i: nat)
    requires R.Known(env, create) && i <= |create|
  {
    forall k :: 0 <= k < i ==> Hitch(env, columns, create[k]).None?
  }

  lemma ClearOneMore(env: R.Setting, columns: seq<ColumnId>, create: seq<Creation>, i: nat)
    requires R.Known(env, create) && i < |create| && ClearSoFar(env, columns, create, i)
    requires Hitch(env, columns, create[i]).None?
    ensures ClearSoFar(env, columns, create, i + 1)
  {
  }

  lemma {:induction false} FirstHitchStops(env: R.Setting, columns: seq<ColumnId>, create: seq<Creation>, i: nat)
    requires R.Known(env, create) && i <= |create| && ClearSoFar(env, columns, create, i)
    requires i < |create| ==> Hitch(env, columns, create[i]).Some?
    ensures R.Obstacle(env, columns, create) == if i < |create| then Hitch(env, columns, create[i]) else None
  {
    if i > 0 {
      assert Hitch(env, columns, create[0]).None?;
      FirstHitchStops(env, columns, create[1..], i - 1);
    }
  }

  /** Two updates of one row are the second. */
  lemma UpdateTwice(rows: seq<Row>, a: Row, b: Row)
    requires a.id == b.id
    ensures R.Update(R.Update(rows, a.id, a), b.id, b) == R.Update(rows, b.id, b)
  {
  }

  /** What a move of an active run hands over, told by its branches. */
  lemma HandsOver(
    env: R.Setting, s: R.RunState, row: Row, plan: MovePlan, answer: Option<string>, now: Time, h: R.Handed)
    requires h == R.HandOver(env, s, row, plan, answer, now) && R.Active(s) && plan.from != plan.to
    ensures h == (
      var s1 := s.(rows := R.Update(s.rows, row.id, R.MovedRow(env.board, row, plan, true, now)));
      if plan.to == env.board.started && row.step == ROOT_KEY && s.startedAt.None?
      then R.Handed(s1.(startedAt := Some(now)), RootStarts)
      else if plan.to == env.board.finished then R.Handed(s1, Finishes(row.id, answer))
      else R.Kept(s1))
  {
  }

  lemma RemovalIs(
    env: R.Setting, s: R.RunState, gone: ColumnId, to: Option<ColumnId>, others: bool,
    plan: Result<Option<ColumnId>, ColumnError>, spec: Result<R.RunState, R.Refusal>)
    requires I.ValidSetting(env) && I.Shape(env, s) && spec == R.RemoveColumnOf(env, s, gone, to, others)
    requires plan == PlanRemoval(R.BoardOf(env, s), gone, others || R.Occupied(s.rows, gone), to)
    ensures plan.Err? ==> spec == Err(R.CannotRemove(plan.error))
    ensures plan.Ok? ==>
              var rows := if plan.value.Some? then R.Swept(s.rows, gone, plan.value.value) else s.rows;
              spec == Ok(s.(rows := rows, columns := Remaining(s.columns, gone)))
    ensures spec.Ok? ==> I.Shape(env, spec.value)
  {
    if spec.Ok? {
      I.SweepKeepsShape(env, s, gone, to, others);
    }
  }

  class Run {
    const env: R.Setting
    var rows: seq<Row>
    var deps: set<(TaskId, TaskId)>
    var nextId: TaskId
    var startedAt: Option<Time>
    var finishedAt: Option<Time>
    var cancelledAt: Option<Time>
    var columns: seq<ColumnId>

    function Snapshot(): R.RunState
      reads this
    {
      R.RunState(rows, deps, nextId, startedAt, finishedAt, cancelledAt, columns)
    }

    ghost predicate Valid()
      reads this
    {
      I.ValidSetting(env) && I.Shape(env, Snapshot())
    }

    /** Undo a transaction that failed. */
    method RollBack(was: R.RunState)
      modifies this
      ensures Snapshot() == was
    {
      rows, deps, nextId, columns := was.rows, was.deps, was.nextId, was.columns;
      startedAt, finishedAt, cancelledAt := was.startedAt, was.finishedAt, was.cancelledAt;
    }

    // Row updates.

    method SetStart(id: TaskId, now: Time)
      requires I.Increasing(rows)
      modifies this`rows
      ensures |rows| == |old(rows)|
      ensures forall i :: 0 <= i < |rows| ==> rows[i] == R.DatedRow([id], old(rows)[i], now)
    {
      var task := R.Find(rows, id);
      if task.Some? && task.value.startAt.None? {
        ghost var was := rows;
        rows := R.Update(rows, id, task.value.(startAt := Some(now)));
        forall i | 0 <= i < |was| && was[i].id == id ensures was[i] == task.value {
          I.FindAt(was, i);
        }
      } else {
        forall i | 0 <= i < |rows| && rows[i].id == id ensures task == Some(rows[i]) {
          I.FindAt(rows, i);
        }
      }
    }

    method SetAsked(id: TaskId)
      modifies this`rows
      ensures |rows| == |old(rows)|
      ensures forall i :: 0 <= i < |rows| ==> rows[i] == R.AskedRow(Some(id), old(rows)[i])
    {
      var was := rows;
      rows := seq(|was|, i requires 0 <= i < |was| => if was[i].id == id then was[i].(asked := true) else was[i]);
    }

    method SetAnswer(id: TaskId, answer: string)
      modifies this`rows
      ensures |rows| == |old(rows)|
      ensures forall i :: 0 <= i < |rows| ==> rows[i] == R.AnsweredRow(Some((id, answer)), old(rows)[i])
    {
      var was := rows;
      rows := seq(|was|, i requires 0 <= i < |was| =>
        if was[i].id == id then was[i].(asked := true, answer := Some(answer)) else was[i]);
    }

    method CreateTask(creation: Creation, now: Time)
      requires creation.step < |env.steps|
      modifies this`rows, this`deps, this`nextId
      ensures rows == old(rows) + [R.RowFor(env, creation, old(nextId), now)]
      ensures deps == old(deps) + R.DepsOf(env, creation, old(nextId))
      ensures nextId == old(nextId) + 1
    {
      rows := rows + [R.RowFor(env, creation, nextId, now)];
      deps := deps + set d | d in creation.dependsOn :: (nextId, d);
      if creation.counts {
        deps := deps + {(env.root, nextId)};
      }
      nextId := nextId + 1;
    }

    method CreateNext(
      create: seq<Creation>, i: nat, now: Time, ghost rows0: seq<Row>, ghost deps0: set<(TaskId, TaskId)>,
      ghost id: TaskId)
      requires R.Known(env, create) && i < |create|
      requires MadeSoFar(env, create, i, now, rows0, deps0, id, rows, deps, nextId)
      modifies this`rows, this`deps, this`nextId
      ensures MadeSoFar(env, create, i + 1, now, rows0, deps0, id, rows, deps, nextId)
    {
      MadeOneMore(env, create, i, now, rows0, deps0, id);
      CreateTask(create[i], now);
    }

    /** A new task's title, and then the column it goes to. */
    method CheckTask(creation: Creation) returns (refused: Option<R.Refusal>)
      requires creation.step < |env.steps|
      ensures refused == Hitch(env, columns, creation)
    {
      var fault := Fault(Filled(env.steps[creation.step].title, creation.param));
      if fault.Some? {
        return Some(R.BadTitle(fault.value));
      }
      if env.column !in columns {
        return Some(R.NoColumnForTasks);
      }
      refused := None;
    }

    /** Make the tasks of a plan, with what they wait for, and let the root wait
        for those that count. Stops at the first whose title is empty or too long,
        or at the first of all when the run's column is gone. */
    method CreateTasks(create: seq<Creation>, now: Time) returns (refused: Option<R.Refusal>)
      requires R.Known(env, create)
      modifies this`rows, this`deps, this`nextId
      ensures refused == R.Obstacle(env, columns, create)
      ensures refused.None? ==> Snapshot() == WithMade(env, old(Snapshot()), create, now)
    {
      for i := 0 to |create|
        invariant ClearSoFar(env, columns, create, i)
        invariant MadeSoFar(env, create, i, now, old(rows), old(deps), old(nextId), rows, deps, nextId)
      {
        refused := CheckTask(create[i]);
        if refused.Some? {
          FirstHitchStops(env, columns, create, i);
          return;
        }
        ClearOneMore(env, columns, create, i);
        CreateNext(create, i, now, old(rows), old(deps), old(nextId));
      }
      AllMade(env, old(Snapshot()), create, now, Snapshot());
      FirstHitchStops(env, columns, create, |create|);
      refused := None;
    }

    method DateTasks(ids: seq<TaskId>, now: Time)
      requires I.Increasing(rows)
      modifies this`rows
      ensures |rows| == |old(rows)|
      ensures forall k :: 0 <= k < |rows| ==> rows[k] == R.DatedRow(ids, old(rows)[k], now)
    {
      for i := 0 to |ids|
        invariant |rows| == |old(rows)|
        invariant forall k :: 0 <= k < |rows| ==> rows[k] == R.DatedRow(ids[..i], old(rows)[k], now)
      {
        SetStart(ids[i], now);
        assert ids[..i + 1] == ids[..i] + [ids[i]];
      }
      assert ids[..|ids|] == ids;
    }

    /** The root moves to the finished column, unless it is done already, and
        the run is over. */
    method FinishRoot(now: Time)
      requires I.Increasing(rows) && |rows| > 0 && rows[0].id == env.root && env.board.finished in columns
      modifies this`rows, this`finishedAt
      ensures |rows| == |old(rows)|
      ensures forall i :: 0 < i < |rows| ==> rows[i] == old(rows)[i]
      ensures if R.Done(env.board, old(rows)[0]) then rows[0] == old(rows)[0] && finishedAt == old(finishedAt)
              else rows[0] == old(rows)[0].(column := env.board.finished, finishedAt := Some(now))
                   && finishedAt == R.Stamp(old(finishedAt), now)
    {
      I.FindAt(rows, 0);
      var root := R.Find(rows, env.root).value;
      if !root.archived && root.column != env.board.finished {
        var board := env.board.(columns := columns);
        var plan := PlanMove(board, root.archived, root.column, root.finishedAt, env.board.finished, [], false, now);
        ApplyMove(root, plan.value);
        finishedAt := R.Stamp(finishedAt, now);
      }
    }

    /** Write a move. */
    method ApplyMove(row: Row, plan: MovePlan)
      requires I.Increasing(rows) && R.Find(rows, row.id) == Some(row)
      modifies this`rows
      ensures rows == R.Update(old(rows), row.id, row.(column := plan.to, finishedAt := plan.finishedAt))
    {
      rows := R.Update(rows, row.id, row.(column := plan.to, finishedAt := plan.finishedAt));
    }

    /** Date, ask and answer as a plan says. */
    method TouchTasks(plan: Plan, now: Time)
      requires I.Increasing(rows)
      modifies this`rows
      ensures |rows| == |old(rows)|
      ensures forall i :: 0 <= i < |rows| ==> rows[i] == R.Noted(plan, old(rows)[i], now)
    {
      DateTasks(plan.setStart, now);
      if plan.ask.Some? {
        SetAsked(plan.ask.value);
      }
      if plan.answered.Some? {
        SetAnswer(plan.answered.value.0, plan.answered.value.1);
      }
    }

    /** Carry a plan out, unless its tasks cannot be made. */
    method Enact(plan: Plan, now: Time) returns (refused: Option<R.Refusal>)
      requires I.ValidSetting(env) && I.Shape(env, Snapshot())
      requires R.Known(env, plan.create) && I.NamesRows(plan, rows)
      modifies this
      ensures refused == R.Obstacle(env, old(columns), plan.create)
      ensures refused.None? ==> Snapshot() == R.Enact(env, old(Snapshot()), plan, now)
    {
      ghost var was := Snapshot();
      refused := CreateTasks(plan.create, now);
      if refused.Some? {
        return;
      }
      FinishTasks(plan, now, was);
    }

    /** What is left of a plan once its tasks are made. */
    method FinishTasks(plan: Plan, now: Time, ghost was: R.RunState)
      requires I.ValidSetting(env) && I.Shape(env, was) && R.Known(env, plan.create) && I.NamesRows(plan, was.rows)
      requires Snapshot() == WithMade(env, was, plan.create, now)
      modifies this
      ensures Snapshot() == R.Enact(env, was, plan, now)
    {
      StaysIncreasing(env, was, plan, now, rows);
      TouchTasks(plan, now);
      TouchedThenMade(env, was, plan, now, rows);
      NotedIds(env, was, plan, now, rows);
      StaysIncreasing(env, was, plan, now, rows);
      CloseUp(plan, now);
      IsEnacted(env, was, plan, now, Snapshot());
    }

    /** Finish the root and close the run, if that is in the plan. */
    method CloseUp(plan: Plan, now: Time)
      requires I.Increasing(rows) && |rows| > 0 && rows[0].id == env.root && env.board.finished in columns
      modifies this`rows, this`finishedAt
      ensures |rows| == |old(rows)|
      ensures forall i :: 0 < i < |rows| ==> rows[i] == old(rows)[i]
      ensures var finishes := plan.finishRoot && !R.Done(env.board, old(rows)[0]);
              rows[0] == (if finishes then old(rows)[0].(column := env.board.finished, finishedAt := Some(now))
                          else old(rows)[0])
              && finishedAt == if finishes || plan.endRun then R.Stamp(old(finishedAt), now) else old(finishedAt)
    {
      if plan.finishRoot {
        FinishRoot(now);
      }
      if plan.endRun {
        finishedAt := R.Stamp(finishedAt, now);
      }
    }

    /** Ask the engine what an event means for the run and do it, unless the tasks
        it makes cannot be made. */
    method Apply(event: RunEvent, now: Time) returns (refused: Option<R.Refusal>)
      requires I.ValidSetting(env) && I.Shape(env, Snapshot())
      modifies this
      ensures Leaves(Snapshot(), refused, R.Outcome(env, R.Handed(old(Snapshot()), event), now))
    {
      R.PlanIsKnown(env, Snapshot(), event, now);
      I.PlanNamesRows(env, Snapshot(), event, now);
      var plan := React(env.steps, R.Tasks(env.board, rows), startedAt.Some?, event, now, env.zone);
      refused := Enact(plan, now);
    }

    // Requests.

    /** The dependencies of a task that are not done. */
    method OpenDeps(id: TaskId) returns (open: seq<TaskId>)
      ensures open == R.OpenDeps(env.board, rows, deps, id)
    {
      open := [];
      for i := 0 to |rows|
        invariant open == R.OpenDeps(env.board, rows[..i], deps, id)
      {
        assert rows[..i + 1][..i] == rows[..i];
        if (id, rows[i].id) in deps && !rows[i].archived && rows[i].column != env.board.finished {
          open := open + [rows[i].id];
        }
      }
      assert rows[..|rows|] == rows;
    }

    method Write(row: Row)
      modifies this`rows
      ensures rows == R.Update(old(rows), row.id, row)
    {
      rows := R.Update(rows, row.id, row);
    }

    /** A move and its consequences, all or nothing. */
    method Move(id: TaskId, to: ColumnId, answer: Option<string>, overriding: bool, now: Time)
      returns (r: Result<(), R.Refusal>)
      requires Valid()
      modifies this
      ensures Did(old(Snapshot()), Snapshot(), r, R.MoveTask(env, old(Snapshot()), id, to, answer, overriding, now))
      ensures Valid()
    {
      var was := Snapshot();
      var task := R.Find(rows, id);
      if task.None? {
        return Err(R.NoSuchTask);
      }
      var row := task.value;
      var open := [];
      if to == env.board.finished {
        open := OpenDeps(id);
      }
      var board := env.board.(columns := columns);
      var plan := PlanMove(board, row.archived, row.column, row.finishedAt, to, open, overriding, now);
      if plan.Err? {
        return Err(R.CannotMove(plan.error));
      }
      ApplyMove(row, plan.value);
      var refused := AfterMove(row, plan.value, answer, now, was);
      if refused.Some? {
        RollBack(was);
        return Err(refused.value);
      }
      I.MoveKeepsShape(env, was, id, to, answer, overriding, now);
      r := Ok(());
    }

    /** One of the run's tasks has moved: its time limit, its pause, and what
        the move means for the run. `row` is the task before the move. */
    method AfterMove(row: Row, plan: MovePlan, answer: Option<string>, now: Time, ghost was: R.RunState)
      returns (refused: Option<R.Refusal>)
      requires I.ValidSetting(env) && I.Shape(env, was) && R.Find(was.rows, row.id) == Some(row)
      requires Snapshot() == was.(rows :=
        R.Update(was.rows, row.id, row.(column := plan.to, finishedAt := plan.finishedAt)))
      modifies this
      ensures Leaves(Snapshot(), refused, R.Outcome(env, R.HandOver(env, was, row, plan, answer, now), now))
    {
      if finishedAt.Some? || cancelledAt.Some? || plan.from == plan.to {
        return None;
      }
      TimeLimit(row, plan, now, was.rows);
      ghost var h := R.HandOver(env, was, row, plan, answer, now);
      HandsOver(env, was, row, plan, answer, now, h);
      I.HandOverKeepsShape(env, was, row, plan, answer, now);
      if plan.to == env.board.started && row.step == ROOT_KEY && startedAt.None? {
        startedAt := Some(now);
        assert Snapshot() == h.s;
        refused := Apply(RootStarts, now);
      } else if plan.to == env.board.finished {
        assert Snapshot() == h.s;
        refused := Apply(Finishes(row.id, answer), now);
      } else {
        refused := None;
      }
    }

    /** The due date a move gives a task with a time limit, and since when it
        is paused. */
    method TimeLimit(row: Row, plan: MovePlan, now: Time, ghost was: seq<Row>)
      requires plan.from != plan.to
      requires rows == R.Update(was, row.id, row.(column := plan.to, finishedAt := plan.finishedAt))
      modifies this`rows
      ensures rows == R.Update(was, row.id, R.MovedRow(env.board, row, plan, true, now))
    {
      var moved := row.(column := plan.to, finishedAt := plan.finishedAt);
      var due := R.NewDue(env.board, row, plan.from, plan.to, now);
      if due.Some? {
        UpdateTwice(was, moved, moved.(dueAt := due.value));
        moved := moved.(dueAt := due.value);
        Write(moved);
      }
      UpdateTwice(was, moved, moved.(pausedAt := if plan.to == env.board.paused then Some(now) else None));
      moved := moved.(pausedAt := if plan.to == env.board.paused then Some(now) else None);
      Write(moved);
    }

    /** Delete a task: its step is skipped, if the run is still going. */
    method Delete(id: TaskId, now: Time) returns (r: Result<(), R.Refusal>)
      requires Valid()
      modifies this
      ensures Did(old(Snapshot()), Snapshot(), r, R.DeleteTask(env, old(Snapshot()), id, now))
      ensures Valid()
    {
      var was := Snapshot();
      var task := R.Find(rows, id);
      if task.None? {
        return Err(R.NoSuchTask);
      }
      if task.value.archived {
        return Err(R.AlreadyArchived);
      }
      var gone := task.value.(archived := true, archivedFrom := task.value.column);
      Write(gone);
      var refused := AfterDelete(gone, now, was);
      if refused.Some? {
        RollBack(was);
        return Err(refused.value);
      }
      I.DeleteKeepsShape(env, was, id, now);
      r := Ok(());
    }

    method AfterDelete(gone: Row, now: Time, ghost was: R.RunState) returns (refused: Option<R.Refusal>)
      requires I.ValidSetting(env) && I.Shape(env, was) && R.Find(was.rows, gone.id).Some? && gone.archived
      requires I.RootOk(env, R.Find(was.rows, gone.id).value) ==> I.RootOk(env, gone)
      requires I.RowOk(env, R.Find(was.rows, gone.id).value) ==> I.RowOk(env, gone)
      requires Snapshot() == was.(rows := R.Update(was.rows, gone.id, gone))
      modifies this
      ensures var s1 := was.(rows := R.Update(was.rows, gone.id, gone.(skipped := true)));
              Leaves(Snapshot(), refused,
                if R.Active(was) then R.Outcome(env, R.Handed(s1, Deleted(gone.id)), now) else Ok(old(Snapshot())))
    {
      if finishedAt.Some? || cancelledAt.Some? {
        return None;
      }
      var skipped := gone.(skipped := true);
      UpdateTwice(was.rows, gone, skipped);
      Write(skipped);
      I.FoundRowIsOk(env, was, gone.id);
      I.UpdateKeepsShape(env, was, gone.id, skipped);
      refused := Apply(Deleted(gone.id), now);
    }

    method Restore(id: TaskId) returns (r: Result<(), R.Refusal>)
      requires Valid()
      modifies this`rows
      ensures Did(old(Snapshot()), Snapshot(), r, R.RestoreTask(env, old(Snapshot()), id))
      ensures Valid()
    {
      var task := R.Find(rows, id);
      if task.None? {
        return Err(R.NoSuchTask);
      }
      if !task.value.archived {
        return Err(R.NotArchived);
      }
      if columns == [] {
        return Err(R.NoColumns);
      }
      I.RestoreKeepsShape(env, Snapshot(), id);
      var back := task.value.(archived := false, column := R.RestoreColumn(columns, task.value), finishedAt := None);
      Write(back);
      Write(back.(skipped := false));
      r := Ok(());
    }

    method Archive(id: TaskId) returns (r: Result<(), R.Refusal>)
      requires Valid()
      modifies this`rows
      ensures Did(old(Snapshot()), Snapshot(), r, R.ArchiveTask(env, old(Snapshot()), id))
      ensures Valid()
    {
      var task := R.Find(rows, id);
      if task.None? {
        return Err(R.NoSuchTask);
      }
      if task.value.archived {
        return Err(R.AlreadyArchived);
      }
      if task.value.column != env.board.finished || task.value.finishedAt.None? {
        return Err(R.NotFinished);
      }
      I.ArchiveKeepsShape(env, Snapshot(), id);
      Write(task.value.(archived := true, archivedFrom := task.value.column));
      r := Ok(());
    }

    /** Give a question its answer: by moving the task to the finished column with
        it, or, once it is there or archived, by itself. */
    method Answer(id: TaskId, text: string, now: Time) returns (r: Result<(), R.Refusal>)
      requires Valid()
      modifies this
      ensures Did(old(Snapshot()), Snapshot(), r, R.AnswerTask(env, old(Snapshot()), id, text, now))
      ensures Valid()
    {
      var was := Snapshot();
      var task := R.Find(rows, id);
      if task.None? {
        return Err(R.NoSuchTask);
      }
      if task.value.question.None? {
        return Err(R.NoQuestion);
      }
      var canonical := Canonical(task.value.question.value, text);
      if canonical.None? {
        return Err(R.NotAnAnswer);
      }
      if !task.value.archived && task.value.column != env.board.finished {
        r := Move(id, env.board.finished, Some(text), false, now);
        return;
      }
      if finishedAt.Some? || cancelledAt.Some? {
        return Err(R.RunIsOver);
      }
      if !R.Pending(task.value) {
        return Err(R.AlreadyAnswered);
      }
      var refused := Apply(IsAnswered(id, canonical.value), now);
      if refused.Some? {
        RollBack(was);
        return Err(refused.value);
      }
      I.AnswerKeepsShape(env, was, id, text, now);
      r := Ok(());
    }

    /** Stop the run; with `deleteOpen` what is still open goes to the archive. */
    method Cancel(deleteOpen: bool, now: Time) returns (r: Result<(), R.Refusal>)
      requires Valid()
      modifies this
      ensures Did(old(Snapshot()), Snapshot(), r, R.CancelRun(env, old(Snapshot()), deleteOpen, now))
      ensures Valid()
    {
      ghost var was := Snapshot();
      if finishedAt.Some? || cancelledAt.Some? {
        return Err(R.RunIsOver);
      }
      cancelledAt := R.Stamp(cancelledAt, now);
      I.CancelKeepsShape(env, was, deleteOpen, now);
      if deleteOpen {
        PutAllAway();
      }
      r := Ok(());
    }

    /** Everything still open goes to the archive. */
    method PutAllAway()
      modifies this`rows
      ensures rows == R.AllPutAway(env.board, old(rows))
    {
      ghost var was := rows;
      for i := 0 to |rows|
        invariant |rows| == |was|
        invariant forall k :: i <= k < |rows| ==> rows[k] == was[k]
        invariant forall k :: 0 <= k < i ==> rows[k] == R.PutAway(env.board, was[k])
      {
        if !rows[i].archived && rows[i].column != env.board.finished {
          rows := rows[i := rows[i].(archived := true, archivedFrom := rows[i].column)];
        }
      }
      assert rows == R.AllPutAway(env.board, was);
    }

    /** Take a column off the board. What sits in it goes to another column first,
        without any run hearing of it. */
    method RemoveColumn(gone: ColumnId, to: Option<ColumnId>, others: bool) returns (r: Result<(), R.Refusal>)
      requires Valid()
      modifies this`rows, this`columns
      ensures Did(old(Snapshot()), Snapshot(), r, R.RemoveColumnOf(env, old(Snapshot()), gone, to, others))
      ensures Valid()
    {
      var hasTasks := others || R.Occupied(rows, gone);
      var plan := PlanRemoval(env.board.(columns := columns), gone, hasTasks, to);
      ghost var spec := R.RemoveColumnOf(env, Snapshot(), gone, to, others);
      RemovalIs(env, Snapshot(), gone, to, others, plan, spec);
      if plan.Err? {
        return Err(R.CannotRemove(plan.error));
      }
      if plan.value.Some? {
        rows := R.Swept(rows, gone, plan.value.value);
      }
      columns := Remaining(columns, gone);
      assert Snapshot() == spec.value;
      r := Ok(());
    }

    method AddColumn(column: ColumnId) returns (r: Result<(), R.Refusal>)
      requires Valid()
      modifies this`columns
      ensures Did(old(Snapshot()), Snapshot(), r, R.Try(env, old(Snapshot()), R.AddColumn(column)))
      ensures Valid()
    {
      if column in columns {
        return Err(R.BadColumns);
      }
      columns := columns + [column];
      r := Ok(());
    }

    /** Put the columns in another order, each named once. */
    method ReorderColumns(order: seq<ColumnId>) returns (r: Result<(), R.Refusal>)
      requires Valid()
      modifies this`columns
      ensures Did(old(Snapshot()), Snapshot(), r, R.Try(env, old(Snapshot()), R.ReorderColumns(order)))
      ensures Valid()
    {
      if multiset(order) != multiset(columns) {
        return Err(R.BadColumns);
      }
      forall c ensures c in order <==> c in columns {
        I.ReorderKeepsColumns(columns, order, c);
      }
      columns := order;
      r := Ok(());
    }

    /** A run with nothing but its root. */
    constructor (env: R.Setting, startAt: Option<Time>, now: Time)
      requires I.ValidSetting(env)
      ensures Snapshot() == R.NewRun(env, startAt, now) && this.env == env
      ensures Valid()
    {
      this.env := env;
      rows := [R.RootRow(env, startAt, now)];
      deps := {};
      nextId := env.root + 1;
      columns := env.board.columns;
      startedAt, finishedAt, cancelledAt := None, None, None;
      new;
      I.NewRunHasShape(env, startAt, now);
    }

    /** Start a run: its root, and everything that comes with it, or none of it. */
    static method Start(env: R.Setting, startAt: Option<Time>, now: Time) returns (r: Result<Run, R.Refusal>)
      requires env.column in env.board.columns ==> I.ValidSetting(env)
      ensures r.Err? ==> R.StartTrouble(env, startAt, now) == Some(r.error)
      ensures r.Ok? ==> R.CanStart(env, startAt, now)
      ensures r.Ok? ==>
                fresh(r.value) && r.value.env == env && r.value.Valid()
                && r.value.Snapshot() == R.StartRun(env, startAt, now)
    {
      var root := FindStep(env.steps, ROOT_KEY);
      if root.None? {
        return Err(R.NoRootStep);
      }
      var fault := Fault(Filled(root.value.title, None));
      if fault.Some? {
        return Err(R.BadTitle(fault.value));
      }
      if env.column !in env.board.columns {
        return Err(R.NoColumnForTasks);
      }
      var run := new Run(env, startAt, now);
      var refused := run.Apply(Created, now);
      if refused.Some? {
        return Err(refused.value);
      }
      I.StartIsInv(env, startAt, now);
      r := Ok(run);
    }
  }
}
