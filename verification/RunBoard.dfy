/** Where the tasks of a run are, and what that says about their dates, at every
    moment and whatever is done. */
module RunBoard {
  import opened Options
  import opened Ids
  import opened Offsets
  import opened Program
  import opened Transition
  import opened Runs
  import opened RunInvariants
  import opened RunGroups
  import opened RunRows
  import opened RunMade
  import opened EngineTells

  // No task is lost.

  /** Every task, archived or not, is in a column the board has. */
  predicate Placed(s: RunState) {
    forall i :: 0 <= i < |s.rows| ==> s.rows[i].column in s.columns
  }

  /** A column goes exactly if the board has it, it has no role, and whatever sits in
      it has another column of the board to go to; one that is named must be such a
      column even if nothing goes there. */
  lemma RemovalGoesThrough(env: Setting, s: RunState, gone: ColumnId, to: Option<ColumnId>, others: bool)
    requires ValidSetting(env) && Shape(env, s)
    ensures Try(env, s, RemoveColumn(gone, to, others)).Ok? <==>
              && gone in s.columns && !AtWork(env.board, gone)
              && match to
                 case Some(c) => c in s.columns && c != gone
                 case None => !others && forall i :: 0 <= i < |s.rows| ==> s.rows[i].column != gone
  {
    var b := env.board;
    assert |s.columns| > 1 by {
      assert b.started in s.columns && b.paused in s.columns && b.started != b.paused;
    }
    if Occupied(s.rows, gone) {
      var row :| row in s.rows && row.column == gone;
    } else {
      assert forall i :: 0 <= i < |s.rows| ==> s.rows[i] in s.rows;
    }
  }

  lemma OldRowIsPlaced(env: Setting, s: RunState, op: Op, i: nat)
    requires ValidSetting(env) && Shape(env, s) && Placed(s) && i < |s.rows| && Try(env, s, op).Ok?
    ensures i < |Exec(env, s, op).rows| && Exec(env, s, op).rows[i].column in Exec(env, s, op).columns
  {
    var mid := OpOnRow(env, s, op, i);
    StepKeepsShape(env, s, op);
    ColumnsAre(env, s, op);
    if op.ReorderColumns? {
      ReorderKeepsColumns(s.columns, op.order, s.rows[i].column);
    }
  }

  /** How the columns of the board change. */
  lemma ColumnsAre(env: Setting, s: RunState, op: Op)
    requires Try(env, s, op).Ok?
    ensures match op
            case Move(_, to, _, _, _) => to in s.columns && Exec(env, s, op).columns == s.columns
            case RemoveColumn(gone, to, _) =>
              (forall c :: c in Exec(env, s, op).columns <==> c in s.columns && c != gone)
              && (to.Some? ==> to.value in s.columns && to.value != gone)
            case AddColumn(column) => Exec(env, s, op).columns == s.columns + [column]
            case ReorderColumns(order) => Exec(env, s, op).columns == order && multiset(order) == multiset(s.columns)
            case _ => Exec(env, s, op).columns == s.columns
  {
    TurnIs(env, s, op);
    match op {
      case Move(id, to, answer, overriding, now) =>
        var row, plan := MoveIs(env, s, id, to, answer, overriding, now);
        HandOverIs(env, s, row, plan, answer, now);
      case _ =>
    }
  }

  /** Only what the engine hears of adds tasks. */
  lemma AddsByEvent(env: Setting, s: RunState, op: Op)
    requires Increasing(s.rows) && |s.rows| < |Exec(env, s, op).rows|
    ensures var h := Turn(env, s, op);
            h.Handed? && Exec(env, s, op) == Apply(env, h.s, h.event, TimeOf(op)) && |h.s.rows| == |s.rows|
            && Try(env, s, op).Ok? && (op.Move? || op.Delete? || op.Answer?)
  {
    TurnIs(env, s, op);
    TurnIsSame(env, s, op);
  }

  lemma NewRowIsPlaced(env: Setting, s: RunState, op: Op, i: nat)
    requires ValidSetting(env) && Shape(env, s) && |s.rows| <= i < |Exec(env, s, op).rows|
    ensures Exec(env, s, op).rows[i].column in Exec(env, s, op).columns
  {
    AddsByEvent(env, s, op);
    var h := Turn(env, s, op);
    var c := RowIsNew(env, h.s, h.event, TimeOf(op), i);
    ColumnsAre(env, s, op);
    if env.column !in s.columns {
      NoColumnNoTasks(env, s, op);
    }
  }

  lemma StepKeepsPlaces(env: Setting, s: RunState, op: Op)
    requires ValidSetting(env) && Shape(env, s) && Placed(s)
    ensures Placed(Exec(env, s, op))
  {
    if Try(env, s, op).Ok? {
      forall i | 0 <= i < |Exec(env, s, op).rows| ensures Exec(env, s, op).rows[i].column in Exec(env, s, op).columns {
        if i < |s.rows| {
          OldRowIsPlaced(env, s, op, i);
        } else {
          NewRowIsPlaced(env, s, op, i);
        }
      }
    }
  }

  lemma StartIsPlaced(env: Setting, startAt: Option<Time>, start: Time)
    requires ValidSetting(env)
    ensures Placed(StartRun(env, startAt, start))
  {
    var s := NewRun(env, startAt, start);
    NewRunHasShape(env, startAt, start);
    FindAt(s.rows, 0);
    var s' := Apply(env, s, Created, start);
    forall i | 0 <= i < |s'.rows| ensures s'.rows[i].column in s'.columns {
      if i == 0 {
        EngineOnRow(env, s, Created, start, 0);
      } else {
        var c := RowIsNew(env, s, Created, start, i);
      }
    }
  }

  /** No task is ever lost: at every moment of a run each is in a column the board has,
      whatever columns have gone. */
  lemma {:induction false} NoTaskIsLost(env: Setting, startAt: Option<Time>, start: Time, ops: seq<Op>)
    requires ValidSetting(env)
    ensures var s := ExecAll(env, StartRun(env, startAt, start), ops); Shape(env, s) && Placed(s)
  {
    if ops == [] {
      StartIsInv(env, startAt, start);
      StartIsPlaced(env, startAt, start);
    } else {
      var k := |ops| - 1;
      NoTaskIsLost(env, startAt, start, ops[..k]);
      StepKeepsShape(env, ExecAll(env, StartRun(env, startAt, start), ops[..k]), ops[k]);
      StepKeepsPlaces(env, ExecAll(env, StartRun(env, startAt, start), ops[..k]), ops[k]);
    }
  }

  // What is put away comes back where it was.

  /** A task in the archive, having left that column. */
  predicate PutAwayFrom(s: RunState, i: nat, column: ColumnId) {
    i < |s.rows| && s.rows[i].archived && s.rows[i].archivedFrom == column
  }

  /** Only restoring a task changes where it was put away from. */
  lemma StaysAway(env: Setting, s: RunState, op: Op, i: nat, column: ColumnId)
    requires ValidSetting(env) && Shape(env, s) && PutAwayFrom(s, i, column) && op != Restore(s.rows[i].id)
    ensures PutAwayFrom(Exec(env, s, op), i, column) && Exec(env, s, op).rows[i].id == s.rows[i].id
  {
    if Try(env, s, op).Ok? {
      var mid := OpOnRow(env, s, op, i);
      FindAt(s.rows, i);
    }
  }

  lemma {:induction false} RunStaysAway(env: Setting, s: RunState, ops: seq<Op>, i: nat, column: ColumnId)
    requires ValidSetting(env) && Shape(env, s) && PutAwayFrom(s, i, column) && Restore(s.rows[i].id) !in ops
    ensures var s' := ExecAll(env, s, ops);
            Shape(env, s') && PutAwayFrom(s', i, column) && s'.rows[i].id == s.rows[i].id
  {
    if ops != [] {
      var k := |ops| - 1;
      assert ops[k] in ops;
      RunStaysAway(env, s, ops[..k], i, column);
      StepKeepsShape(env, ExecAll(env, s, ops[..k]), ops[k]);
      StaysAway(env, ExecAll(env, s, ops[..k]), ops[k], i, column);
    }
  }

  /** Whether an operation puts a task in the archive. */
  predicate PutsAway(env: Setting, s: RunState, op: Op, i: nat)
    requires i < |s.rows|
  {
    && Try(env, s, op).Ok? && !s.rows[i].archived
    && (op.Delete? || op.Archive? || op.Cancel?) && (op.Delete? || op.Archive? ==> op.id == s.rows[i].id)
    && (op.Cancel? ==> op.deleteOpen && s.rows[i].column != env.board.finished)
  }

  /** Deleted, archived or cleared away with its run, and restored any time later,
      whatever was done in between, a task is back in the column it was in, if the
      board still has it, and else in the first one; without a finish date, and part of
      its run again. */
  lemma RestoredWhereItWas(env: Setting, s: RunState, op: Op, ops: seq<Op>, i: nat)
    requires ValidSetting(env) && Shape(env, s) && i < |s.rows| && PutsAway(env, s, op, i)
    requires Restore(s.rows[i].id) !in ops
    ensures var s1 := ExecAll(env, Exec(env, s, op), ops);
            var s2 := Exec(env, s1, Restore(s.rows[i].id));
            i < |s2.rows| && s2.rows[i].id == s.rows[i].id && !s2.rows[i].archived && !s2.rows[i].skipped
            && s2.rows[i].finishedAt.None? && s1.columns != []
            && s2.rows[i].column == if s.rows[i].column in s1.columns then s.rows[i].column else s1.columns[0]
  {
    PutAwayIsTold(env, s, op, i);
    StepKeepsShape(env, s, op);
    RunStaysAway(env, Exec(env, s, op), ops, i, s.rows[i].column);
    BackIsTold(env, ExecAll(env, Exec(env, s, op), ops), i, s.rows[i].column);
  }

  lemma PutAwayIsTold(env: Setting, s: RunState, op: Op, i: nat)
    requires ValidSetting(env) && Shape(env, s) && i < |s.rows| && PutsAway(env, s, op, i)
    ensures PutAwayFrom(Exec(env, s, op), i, s.rows[i].column) && Exec(env, s, op).rows[i].id == s.rows[i].id
  {
    var mid := OpOnRow(env, s, op, i);
  }

  lemma BackIsTold(env: Setting, s: RunState, i: nat, column: ColumnId)
    requires ValidSetting(env) && Shape(env, s) && PutAwayFrom(s, i, column)
    ensures var s' := Exec(env, s, Restore(s.rows[i].id));
            s.columns != [] && i < |s'.rows| && s'.rows[i].id == s.rows[i].id && !s'.rows[i].archived
            && !s'.rows[i].skipped && s'.rows[i].finishedAt.None?
            && s'.rows[i].column == if column in s.columns then column else s.columns[0]
  {
    var op := Restore(s.rows[i].id);
    FindAt(s.rows, i);
    assert env.board.started in s.columns;
    HandOnRow(env, s, op, i);
    TurnIs(env, s, op);
  }

  // Due dates.

  /** A due date only goes with a time limit, and with a task that is, or was when it
      was put away, in one of the columns of work. */
  predicate DueRow(env: Setting, row: Row) {
    row.dueAt.Some? ==> row.limit.Some? && AtWork(env.board, if row.archived then row.archivedFrom else row.column)
  }

  predicate DuesOk(env: Setting, s: RunState) {
    Active(s) ==> forall i :: 0 <= i < |s.rows| ==> DueRow(env, s.rows[i])
  }

  /** A run that is over stays over. */
  lemma OverStaysOver(env: Setting, s: RunState, op: Op)
    requires Active(Exec(env, s, op))
    ensures Active(s)
  {
    TurnIs(env, s, op);
    if Try(env, s, op).Ok? && op.Move? {
      var row, plan := MoveIs(env, s, op.id, op.to, op.answer, op.overriding, op.now);
      HandOverIs(env, s, row, plan, op.answer, op.now);
    }
  }

  lemma OldRowIsDue(env: Setting, s: RunState, op: Op, i: nat)
    requires ValidSetting(env) && Shape(env, s) && i < |s.rows| && Try(env, s, op).Ok?
    requires Active(s) && DueRow(env, s.rows[i])
    ensures i < |Exec(env, s, op).rows| && DueRow(env, Exec(env, s, op).rows[i])
  {
    var mid := OpOnRow(env, s, op, i);
    FindAt(s.rows, i);
    if op.RemoveColumn? {
      SweepIs(env, s, op.gone, op.moveTo, op.others);
    }
  }

  lemma NewRowIsNotDue(env: Setting, s: RunState, op: Op, i: nat)
    requires ValidSetting(env) && Shape(env, s) && |s.rows| <= i < |Exec(env, s, op).rows|
    ensures Exec(env, s, op).rows[i].dueAt.None?
  {
    AddsByEvent(env, s, op);
    var h := Turn(env, s, op);
    var c := RowIsNew(env, h.s, h.event, TimeOf(op), i);
  }

  lemma StepKeepsDues(env: Setting, s: RunState, op: Op)
    requires ValidSetting(env) && Shape(env, s) && DuesOk(env, s)
    ensures DuesOk(env, Exec(env, s, op))
  {
    if Try(env, s, op).Ok? && Active(Exec(env, s, op)) {
      OverStaysOver(env, s, op);
      forall i | 0 <= i < |Exec(env, s, op).rows| ensures DueRow(env, Exec(env, s, op).rows[i]) {
        if i < |s.rows| {
          OldRowIsDue(env, s, op, i);
        } else {
          NewRowIsNotDue(env, s, op, i);
        }
      }
    }
  }

  lemma StartHasNoDues(env: Setting, startAt: Option<Time>, start: Time)
    requires ValidSetting(env)
    ensures DuesOk(env, StartRun(env, startAt, start))
  {
    var s := NewRun(env, startAt, start);
    NewRunHasShape(env, startAt, start);
    FindAt(s.rows, 0);
    var s' := Apply(env, s, Created, start);
    forall i | 0 <= i < |s'.rows| ensures s'.rows[i].dueAt.None? {
      if i == 0 {
        EngineOnRow(env, s, Created, start, 0);
      } else {
        var c := RowIsNew(env, s, Created, start, i);
      }
    }
  }

  /** At every moment of a live run a task that has a due date has a time limit and is
      started, paused or finished, or was when it was put away: moved anywhere else it
      has lost it. */
  lemma {:induction false} OnlyWorkIsDue(env: Setting, startAt: Option<Time>, start: Time, ops: seq<Op>)
    requires ValidSetting(env)
    ensures var s := ExecAll(env, StartRun(env, startAt, start), ops); Shape(env, s) && DuesOk(env, s)
  {
    if ops == [] {
      StartIsInv(env, startAt, start);
      StartHasNoDues(env, startAt, start);
    } else {
      var k := |ops| - 1;
      OnlyWorkIsDue(env, startAt, start, ops[..k]);
      StepKeepsShape(env, ExecAll(env, StartRun(env, startAt, start), ops[..k]), ops[k]);
      StepKeepsDues(env, ExecAll(env, StartRun(env, startAt, start), ops[..k]), ops[k]);
    }
  }
}
