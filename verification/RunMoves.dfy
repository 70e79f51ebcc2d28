/** When a task may be moved, and when it is kept back by what it waits for. */
module RunMoves {
  import opened Options
  import opened Ids
  import opened Offsets
  import opened Program
  import opened Transition
  import opened Runs
  import opened RunInvariants
  import opened RunRows
  import opened RunDates

  /** Whether a task of the run waits for this one, and it is neither in the archive
      nor in the finished column. */
  predicate WaitsOpen(env: Setting, s: RunState, id: TaskId, d: TaskId) {
    (id, d) in s.deps && exists row :: row in s.rows && row.id == d && !row.archived && row.column != env.board.finished
  }

  predicate Rising(ids: seq<TaskId>) {
    forall i, j :: 0 <= i < j < |ids| ==> ids[i] < ids[j]
  }

  /** These ids are all that a task waits for, oldest first. */
  ghost predicate IsAllOpen(env: Setting, s: RunState, id: TaskId, ids: seq<TaskId>) {
    Rising(ids) && forall d :: d in ids <==> WaitsOpen(env, s, id, d)
  }

  /** Whether one of some rows is the task, and not done. */
  predicate HasOpen(board: Board, rows: seq<Row>, d: TaskId) {
    exists row :: row in rows && row.id == d && !Done(board, row)
  }

  lemma OneMoreOpen(board: Board, rows: seq<Row>, last: Row, d: TaskId)
    ensures HasOpen(board, rows + [last], d) <==> HasOpen(board, rows, d) || (last.id == d && !Done(board, last))
  {
    assert last in rows + [last];
    assert forall row :: row in rows ==> row in rows + [last];
  }

  lemma {:induction false} OpenDepsAre(env: Setting, rows: seq<Row>, deps: set<(TaskId, TaskId)>, id: TaskId, d: TaskId)
    ensures d in OpenDeps(env.board, rows, deps, id) <==> (id, d) in deps && HasOpen(env.board, rows, d)
  {
    if rows != [] {
      var k := |rows| - 1;
      OpenDepsAre(env, rows[..k], deps, id, d);
      OneMoreOpen(env.board, rows[..k], rows[k], d);
      assert rows == rows[..k] + [rows[k]];
    }
  }

  lemma {:induction false} OpenDepsRise(env: Setting, rows: seq<Row>, deps: set<(TaskId, TaskId)>, id: TaskId)
    requires Increasing(rows)
    ensures Rising(OpenDeps(env.board, rows, deps, id))
  {
    if rows != [] {
      var k := |rows| - 1;
      var before := OpenDeps(env.board, rows[..k], deps, id);
      OpenDepsRise(env, rows[..k], deps, id);
      OpenDepsAreEarlier(env, rows[..k], deps, id, rows[k].id);
      forall i | 0 <= i < |before| ensures before[i] < rows[k].id {
        assert before[i] in before;
      }
    }
  }

  lemma {:induction false} OpenDepsAreEarlier(
    env: Setting, rows: seq<Row>, deps: set<(TaskId, TaskId)>, id: TaskId, bound: TaskId)
    requires forall i :: 0 <= i < |rows| ==> rows[i].id < bound
    ensures forall d :: d in OpenDeps(env.board, rows, deps, id) ==> d < bound
  {
    if rows != [] {
      OpenDepsAreEarlier(env, rows[..|rows| - 1], deps, id, bound);
    }
  }

  lemma AllOpenAre(env: Setting, s: RunState, id: TaskId)
    requires Increasing(s.rows)
    ensures IsAllOpen(env, s, id, OpenDeps(env.board, s.rows, s.deps, id))
  {
    var ids := OpenDeps(env.board, s.rows, s.deps, id);
    forall d ensures d in ids <==> WaitsOpen(env, s, id, d) {
      OpenDepsAre(env, s.rows, s.deps, id, d);
    }
    OpenDepsRise(env, s.rows, s.deps, id);
  }

  lemma {:induction false} RisingIsOne(a: seq<TaskId>, b: seq<TaskId>)
    requires Rising(a) && Rising(b) && forall d :: d in a <==> d in b
    ensures a == b
  {
    assert a != [] ==> a[0] in a;
    assert b != [] ==> b[0] in b;
    if a != [] && b != [] {
      var m, n := |a| - 1, |b| - 1;
      LastIsShared(a, b);
      assert a == a[..m] + [a[m]] && b == b[..n] + [b[n]];
      forall d ensures d in a[..m] <==> d in b[..n] {
        AllButLast(a, d);
        AllButLast(b, d);
      }
      RisingIsOne(a[..m], b[..n]);
    }
  }

  lemma LastIsShared(a: seq<TaskId>, b: seq<TaskId>)
    requires a != [] && b != [] && Rising(a) && Rising(b) && forall d :: d in a <==> d in b
    ensures a[|a| - 1] == b[|b| - 1]
  {
    LastIsGreatest(a);
    LastIsGreatest(b);
    assert a[|a| - 1] in a && b[|b| - 1] in b;
  }

  lemma AllButLast(a: seq<TaskId>, d: TaskId)
    requires a != [] && Rising(a)
    ensures d in a[..|a| - 1] <==> d in a && d != a[|a| - 1]
  {
    assert a == a[..|a| - 1] + [a[|a| - 1]];
  }

  lemma LastIsGreatest(a: seq<TaskId>)
    requires Rising(a) && a != []
    ensures forall d :: d in a ==> d <= a[|a| - 1]
  {
  }

  /** Why a move is refused, told in order: no such task; it is in the archive; the
      board has no such column; or it would be finished while it waits for something
      and nobody overrides that. Otherwise only what it sets off can stand in its way. */
  ghost predicate MoveTold(
    env: Setting, s: RunState, id: TaskId, to: ColumnId, overriding: bool, r: Result<RunState, Refusal>)
  {
    if forall row :: row in s.rows ==> row.id != id then r == Err(NoSuchTask)
    else
      exists row :: IsRow(s, id, row)
        && if row.archived then r == Err(CannotMove(TaskArchived))
           else if to !in s.columns then r == Err(CannotMove(UnknownColumn(to)))
           else if KeptBack(env, s, row, to, overriding)
                then exists ids :: IsAllOpen(env, s, id, ids) && r == Err(CannotMove(BlockedByDependencies(ids)))
           else r.Ok? || r == Err(NoColumnForTasks) || r.error.BadTitle?
  }

  /** Whether a move would finish a task that waits for something, unasked. */
  ghost predicate KeptBack(env: Setting, s: RunState, row: Row, to: ColumnId, overriding: bool) {
    && to == env.board.finished && row.column != env.board.finished && !overriding
    && exists d :: WaitsOpen(env, s, row.id, d)
  }

  lemma MoveIsTold(
    env: Setting, s: RunState, id: TaskId, to: ColumnId, answer: Option<string>, overriding: bool, now: Time)
    requires Shape(env, s)
    ensures MoveTold(env, s, id, to, overriding, Try(env, s, Move(id, to, answer, overriding, now)))
  {
    if Find(s.rows, id).Some? {
      var row := Find(s.rows, id).value;
      var ids := OpenDeps(env.board, s.rows, s.deps, id);
      assert IsRow(s, id, row);
      SomeOpenIs(env, s, id, ids);
      FoundMoveIsTold(env, s, row, to, answer, overriding, now, ids);
    }
  }

  lemma SomeOpenIs(env: Setting, s: RunState, id: TaskId, ids: seq<TaskId>)
    requires Increasing(s.rows) && ids == OpenDeps(env.board, s.rows, s.deps, id)
    ensures IsAllOpen(env, s, id, ids) && (ids != [] <==> exists d :: WaitsOpen(env, s, id, d))
  {
    AllOpenAre(env, s, id);
    assert ids != [] ==> ids[0] in ids;
  }

  lemma {:induction false} RefusalIsOfTasks(env: Setting, columns: seq<ColumnId>, create: seq<Creation>)
    requires Known(env, create)
    ensures match Obstacle(env, columns, create)
            case Some(e) => e.BadTitle? || e.NoColumnForTasks?
            case None => true
  {
    if create != [] {
      assert create == [create[0]] + create[1..];
      RefusalIsOfTasks(env, columns, create[1..]);
    }
  }

  lemma FoundMoveIsTold(
    env: Setting, s: RunState, row: Row, to: ColumnId, answer: Option<string>, overriding: bool, now: Time,
    ids: seq<TaskId>)
    requires Find(s.rows, row.id) == Some(row) && ids == OpenDeps(env.board, s.rows, s.deps, row.id)
    ensures var r := MoveTask(env, s, row.id, to, answer, overriding, now);
            if row.archived then r == Err(CannotMove(TaskArchived))
            else if to !in s.columns then r == Err(CannotMove(UnknownColumn(to)))
            else if to == env.board.finished && row.column != env.board.finished && !overriding && ids != []
            then r == Err(CannotMove(BlockedByDependencies(ids)))
            else r.Ok? || r == Err(NoColumnForTasks) || r.error.BadTitle?
  {
    var plan := PlanFor(env, s, row, to, overriding, now);
    if plan.Ok? {
      OutcomeIsOfTasks(env, HandOver(env, s, row, plan.value, answer, now), now);
    }
  }

  lemma OutcomeIsOfTasks(env: Setting, h: Handed, now: Time)
    ensures var r := Outcome(env, h, now); r.Ok? || r.error.NoColumnForTasks? || r.error.BadTitle?
  {
    if h.Handed? {
      PlanIsKnown(env, h.s, h.event, now);
      RefusalIsOfTasks(env, h.s.columns, PlanOf(env, h.s, h.event, now).create);
    }
  }

  /** A task outside the finished column is refused it exactly if it waits for something
      that is neither finished nor archived and nobody overrides that; the refusal lists
      just these, oldest first, and nothing is changed. */
  lemma FinishWaits(env: Setting, s: RunState, row: Row, answer: Option<string>, overriding: bool, now: Time, ids: seq<TaskId>)
    requires ValidSetting(env) && Shape(env, s) && row in s.rows && !row.archived && row.column != env.board.finished
    ensures var op := Move(row.id, env.board.finished, answer, overriding, now);
            (Try(env, s, op) == Err(CannotMove(BlockedByDependencies(ids))) <==>
               !overriding && ids != [] && IsAllOpen(env, s, row.id, ids))
            && (Try(env, s, op).Err? ==> Exec(env, s, op) == s)
            && ((exists d :: WaitsOpen(env, s, row.id, d)) && !overriding ==> Try(env, s, op).Err?)
  {
    var all := OpenDeps(env.board, s.rows, s.deps, row.id);
    var i :| 0 <= i < |s.rows| && s.rows[i] == row;
    FindAt(s.rows, i);
    AllOpenAre(env, s, row.id);
    FoundMoveIsTold(env, s, row, env.board.finished, answer, overriding, now, all);
    if IsAllOpen(env, s, row.id, ids) {
      RisingIsOne(ids, all);
    }
    if d :| WaitsOpen(env, s, row.id, d) {
      assert d in all;
    }
  }

  /** The answer to a task that is not done is such a move: it is refused as long as
      the task waits for something. */
  lemma AnswerWaits(env: Setting, s: RunState, row: Row, text: string, now: Time, d: TaskId)
    requires ValidSetting(env) && Shape(env, s) && row in s.rows && !Done(env.board, row)
    requires WaitsOpen(env, s, row.id, d)
    ensures Try(env, s, Answer(row.id, text, now)).Err?
  {
    var i :| 0 <= i < |s.rows| && s.rows[i] == row;
    FindAt(s.rows, i);
    FinishWaits(env, s, row, Some(text), false, now, []);
  }

  /** What moves, moves alone: after a move that is not refused the task is in that
      column, with its dates as they follow, and every other task is where it was, but
      for the root if the run finishes it. */
  lemma MoveMovesOne(env: Setting, s: RunState, op: Op, i: nat)
    requires ValidSetting(env) && Shape(env, s) && op.Move? && Try(env, s, op).Ok? && i < |s.rows|
    ensures var s' := Exec(env, s, op);
            var was, row := s.rows[i], s'.rows[i];
            i < |s'.rows| && was.id == row.id && row.archived == was.archived
            && if row.column == (if was.id == op.id then op.to else was.column)
               then if was.id == op.id
                    then DateFollows(env.board, was.column, op.to, op.now, was.finishedAt, row.finishedAt)
                    else row.finishedAt == was.finishedAt && row.dueAt == was.dueAt
               else was.id == env.root && row.column == env.board.finished && s'.finishedAt.Some?
  {
    var mid := OpOnRow(env, s, op, i);
  }
}
