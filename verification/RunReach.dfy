/** What can be brought about in a run by hand: finishing a step again and
    again without the run coming to its end. That works before the root is
    started; and after, once a column removal has put the root among the
    finished tasks, for then the engine never closes the run. */
module RunReach {
  import opened Options
  import opened Text
  import opened Ids
  import opened Offsets
  import opened Program
  import opened Transition
  import opened Runs
  import opened RunInvariants
  import opened RunProgress
  import opened RunGroups
  import opened RunRefusals
  import opened ProgramCheck
  import opened StepTrails
  import Q = Questions

  /** Nothing of the run is in the archive but perhaps its root. */
  predicate NoneArchived(rows: seq<Row>) {
    forall i :: 0 < i < |rows| ==> !rows[i].archived
  }

  /** The run goes on whatever is finished: it is not started, or its root is
      done already. Its own column is there. */
  ghost predicate Held(env: Setting, s: RunState) {
    && Shape(env, s) && GroupsOk(env, s) && Active(s) && env.column in s.columns && NoneArchived(s.rows)
    && (s.startedAt.None? || Done(env.board, s.rows[0]))
  }

  /** The same task, where it was or elsewhere. */
  predicate SamePlace(a: Row, b: Row) {
    b.id == a.id && b.step == a.step && b.iteration == a.iteration && b.archived == a.archived
  }

  /** A task of a later iteration of its step than any of these. */
  predicate Later(rows: seq<Row>, row: Row) {
    !row.archived && forall k :: 0 <= k < |rows| && rows[k].step == row.step ==> rows[k].iteration < row.iteration
  }

  /** The run went on: its tasks are all still there, the root where it was, and
      perhaps new groups. */
  predicate Grows(s: RunState, s': RunState) {
    && |s'.rows| >= |s.rows| && s'.columns == s.columns && s'.startedAt == s.startedAt
    && (|s.rows| > 0 ==> s'.rows[0].column == s.rows[0].column)
    && (forall j :: 0 <= j < |s.rows| ==> SamePlace(s.rows[j], s'.rows[j]))
    && (forall j :: |s.rows| <= j < |s'.rows| ==> Later(s.rows, s'.rows[j]))
  }

  /** ... with no task moved but one. */
  predicate MovesOnly(s: RunState, s': RunState, i: int, to: ColumnId) {
    && Grows(s, s')
    && forall j :: 0 <= j < |s.rows| ==> s'.rows[j].column == if j == i then to else s.rows[j].column
  }

  lemma GrowsTrans(a: RunState, b: RunState, c: RunState)
    requires Grows(a, b) && Grows(b, c)
    ensures Grows(a, c)
  {
    forall j | |a.rows| <= j < |c.rows| ensures Later(a.rows, c.rows[j]) {
      forall k | 0 <= k < |a.rows| && a.rows[k].step == c.rows[j].step
        ensures a.rows[k].iteration < c.rows[j].iteration && !c.rows[j].archived
      {
        assert SamePlace(a.rows[k], b.rows[k]);
        if j < |b.rows| {
          assert SamePlace(b.rows[j], c.rows[j]);
        }
      }
      assert j < |b.rows| ==> SamePlace(b.rows[j], c.rows[j]);
    }
  }

  // What an event adds.

  /** The tasks an event makes are of the next iteration. */
  lemma MadeIsLater(env: Setting, s: RunState, event: RunEvent, now: Time, c: Creation, id: TaskId)
    requires ValidSetting(env) && c in PlanOf(env, s, event, now).create
    ensures c.step < |env.steps| && Later(s.rows, RowFor(env, c, id, now))
  {
    var tasks := Tasks(env.board, s.rows);
    var reading := Read(env.steps, tasks, event);
    var k := CreationIsInGroup(
      env.steps, |env.steps|, tasks, reading, s.startedAt.Some? || event.RootStarts?, now, env.zone, c);
    var key := env.steps[k].key;
    forall x | 0 <= x < |s.rows| && s.rows[x].step == key ensures s.rows[x].iteration <= LastIteration(tasks, key) {
      assert tasks[x] in tasks;
    }
  }

  /** An event that neither ends the run nor finishes its root only adds to it. */
  lemma ApplyGrows(env: Setting, s: RunState, event: RunEvent, now: Time)
    requires ValidSetting(env) && Shape(env, s)
    requires !PlanOf(env, s, event, now).endRun && !PlanOf(env, s, event, now).finishRoot
    ensures var s' := Apply(env, s, event, now);
            MovesOnly(s, s', -1, 0) && (Active(s') <==> Active(s)) && (NoneArchived(s.rows) ==> NoneArchived(s'.rows))
  {
    var plan, s' := PlanOf(env, s, event, now), Apply(env, s, event, now);
    PlanIsKnown(env, s, event, now);
    OldStayInPlace(env, s, plan, now);
    forall j | |s.rows| <= j < |s'.rows| ensures Later(s.rows, s'.rows[j]) {
      NewIsLater(env, s, event, now, j);
    }
  }

  lemma OldStayInPlace(env: Setting, s: RunState, plan: Plan, now: Time)
    requires Known(env, plan.create) && !plan.finishRoot
    ensures var s' := Enact(env, s, plan, now);
            |s'.rows| >= |s.rows|
            && forall j :: 0 <= j < |s.rows| ==>
                 SamePlace(s.rows[j], s'.rows[j]) && s'.rows[j].column == s.rows[j].column
  {
    EnactedRows(env, s, plan, now);
    forall j | 0 <= j < |s.rows|
      ensures SamePlace(s.rows[j], Touched(env, plan, s.rows[j], now))
      ensures Touched(env, plan, s.rows[j], now).column == s.rows[j].column
    {
      NotedKeeps(plan, s.rows[j], now);
    }
  }

  lemma NewIsLater(env: Setting, s: RunState, event: RunEvent, now: Time, j: nat)
    requires ValidSetting(env) && |s.rows| <= j < |Apply(env, s, event, now).rows|
    ensures Later(s.rows, Apply(env, s, event, now).rows[j])
  {
    var plan, k := PlanOf(env, s, event, now), j - |s.rows|;
    PlanIsKnown(env, s, event, now);
    EnactedRows(env, s, plan, now);
    var c := plan.create[k];
    assert Apply(env, s, event, now).rows[j] == RowFor(env, c, s.nextId + k, now);
    MadeIsLater(env, s, event, now, c, s.nextId + k);
  }

  /** A run that is held does not close with the finish of a task. */
  lemma HeldDoesNotClose(env: Setting, s: RunState, event: RunEvent, now: Time)
    requires ValidSetting(env) && Shape(env, s) && event.Finishes? && event.task != env.root
    requires s.startedAt.None? || Done(env.board, s.rows[0])
    ensures !PlanOf(env, s, event, now).endRun && !PlanOf(env, s, event, now).finishRoot
  {
    RootEventEndsRun(env, s, event, now);
    assert Tasks(env.board, s.rows)[0] in Tasks(env.board, s.rows);
  }

  // Moving a task.

  function MoveIt(row: Row, to: ColumnId, answer: Option<string>): Op {
    Move(row.id, to, answer, true, 0)
  }

  /** A task that is not archived can be moved anywhere, if what that sets off can
      be made. */
  lemma MoveIsAllowed(env: Setting, s: RunState, i: nat, to: ColumnId, answer: Option<string>)
    returns (plan: MovePlan)
    requires Shape(env, s) && i < |s.rows| && !s.rows[i].archived && to in s.columns
    ensures plan.from == s.rows[i].column && plan.to == to
    ensures CanSettle(env, HandOver(env, s, s.rows[i], plan, answer, 0), 0) ==>
              && Try(env, s, MoveIt(s.rows[i], to, answer)).Ok?
              && Turn(env, s, MoveIt(s.rows[i], to, answer)) == HandOver(env, s, s.rows[i], plan, answer, 0)
              && Exec(env, s, MoveIt(s.rows[i], to, answer)) == Settle(env, HandOver(env, s, s.rows[i], plan, answer, 0), 0)
  {
    FindAt(s.rows, i);
    plan := PlanFor(env, s, s.rows[i], to, true, 0).value;
  }

  /** What is done by hand of moving a task that is not the root. */
  lemma HandOverMoves(env: Setting, s: RunState, i: nat, plan: MovePlan, answer: Option<string>)
    requires Shape(env, s) && 0 < i < |s.rows| && plan.from == s.rows[i].column
    ensures var h := HandOver(env, s, s.rows[i], plan, answer, 0);
            MovesOnly(s, h.s, i, plan.to) && Shape(env, h.s) && (Active(h.s) <==> Active(s))
            && |h.s.rows| == |s.rows| && h.s.rows[0] == s.rows[0]
            && (h.Handed? <==> Active(s) && plan.from != plan.to && plan.to == env.board.finished)
            && (h.Handed? ==> h.event == Finishes(s.rows[i].id, answer))
  {
    var row := s.rows[i];
    var h := HandOver(env, s, row, plan, answer, 0);
    assert RowOk(env, row) && s.rows[0].id < row.id;
    FindAt(s.rows, i);
    HandOverIs(env, s, row, plan, answer, 0);
    HandOverKeepsShape(env, s, row, plan, answer, 0);
    MovedRowIsOk(env, row, plan, Active(s), 0);
    MovedKeepsIteration(env, row, plan, Active(s));
    forall j | 0 <= j < |s.rows| && j != i ensures s.rows[j].id != row.id {
      assert j < i ==> s.rows[j].id < s.rows[i].id;
    }
  }

  lemma MovedKeepsIteration(env: Setting, row: Row, plan: MovePlan, active: bool)
    ensures MovedRow(env.board, row, plan, active, 0).iteration == row.iteration
  {
  }

  /** A held run stays held when one of its tasks is moved elsewhere than to the
      finished column, and is the same but for that. */
  lemma QuietMove(env: Setting, s: RunState, i: nat, to: ColumnId)
    requires ValidSetting(env) && Held(env, s) && 0 < i < |s.rows| && to in s.columns && to != env.board.finished
    ensures var s' := Exec(env, s, MoveIt(s.rows[i], to, None));
            Held(env, s') && MovesOnly(s, s', i, to)
  {
    var plan := MoveIsAllowed(env, s, i, to, None);
    HandOverMoves(env, s, i, plan, None);
    StepKeepsGroups(env, s, MoveIt(s.rows[i], to, None));
  }

  /** What finishing a row fires. */
  function FiredAt(env: Setting, s: RunState, i: nat, answer: Option<string>): seq<Trigger>
    requires i < |s.rows|
  {
    FinishFired(env.steps, GroupOpen(Tasks(env.board, s.rows), AsTask(env.board, s.rows[i])), s.rows[i].step, answer)
  }

  function Finish(env: Setting, s: RunState, i: nat, answer: Option<string>): Op
    requires i < |s.rows|
  {
    MoveIt(s.rows[i], env.board.finished, answer)
  }

  /** The state a finish hands to the engine. */
  predicate FinishHands(env: Setting, s: RunState, i: nat, answer: Option<string>, h: RunState)
    requires i < |s.rows|
  {
    && Shape(env, h) && MovesOnly(s, h, i, env.board.finished) && |h.rows| == |s.rows|
    && (h.rows[0] == s.rows[0]) && (Active(h) <==> Active(s))
    && FiredBy(env, h, Finishes(s.rows[i].id, answer)) == FiredAt(env, s, i, answer)
  }

  lemma FinishIsMoved(env: Setting, s: RunState, i: nat, answer: Option<string>) returns (plan: MovePlan, h: RunState)
    requires ValidSetting(env) && Held(env, s) && 0 < i < |s.rows| && s.rows[i].column != env.board.finished
    ensures plan == MovePlan(s.rows[i].column, env.board.finished, plan.finishedAt, plan.overrode)
    ensures HandOver(env, s, s.rows[i], plan, answer, 0) == Handed(h, Finishes(s.rows[i].id, answer))
    ensures FinishHands(env, s, i, answer, h)
    ensures CanMake(env, h, Finishes(s.rows[i].id, answer), 0) ==>
              && Try(env, s, Finish(env, s, i, answer)).Ok?
              && Turn(env, s, Finish(env, s, i, answer)) == Handed(h, Finishes(s.rows[i].id, answer))
              && Exec(env, s, Finish(env, s, i, answer)) == Apply(env, h, Finishes(s.rows[i].id, answer), 0)
  {
    var row := s.rows[i];
    plan := MoveIsAllowed(env, s, i, env.board.finished, answer);
    HandOverMoves(env, s, i, plan, answer);
    HandOverIs(env, s, row, plan, answer, 0);
    h := HandOver(env, s, row, plan, answer, 0).s;
    FindAt(s.rows, i);
    HandOverKeepsShape(env, s, row, plan, answer, 0);
    MovedRowIsOk(env, row, plan, true, 0);
    MovedKeepsIteration(env, row, plan, true);
    assert RowOk(env, row);
    FinishFiresAsTold(env, s, row, MovedRow(env.board, row, plan, true, 0), answer);
    assert h.startedAt == s.startedAt;
  }

  /** What goes through for its titles goes through in a run whose column is there. */
  lemma SoundGoesThrough(env: Setting, s: RunState, event: RunEvent, now: Time)
    requires env.column in s.columns && Sound(env.steps, FiredBy(env, s, event))
    ensures CanMake(env, s, event, now)
  {
    MakeableIs(env, s, event, now);
    forall k | MadeAt(env, s, event, k) ensures StepMakeable(env, s.columns, k) {
      assert IsTriggered(FiredBy(env, s, event), env.steps[k]);
    }
  }

  /** A held run stays held when one of its tasks is finished, if what that sets
      off can be made; the others stay where they are, and what is made is of
      later iterations. */
  lemma FinishHeld(env: Setting, s: RunState, i: nat, answer: Option<string>)
    requires ValidSetting(env) && Held(env, s) && 0 < i < |s.rows| && s.rows[i].column != env.board.finished
    requires Sound(env.steps, FiredAt(env, s, i, answer))
    ensures var s' := Exec(env, s, Finish(env, s, i, answer));
            Held(env, s') && MovesOnly(s, s', i, env.board.finished)
  {
    var plan, h := FinishIsMoved(env, s, i, answer);
    var event := Finishes(s.rows[i].id, answer);
    SoundGoesThrough(env, h, event, 0);
    FinishApplies(env, s, i, answer, h);
    StepKeepsGroups(env, s, Finish(env, s, i, answer));
    FinishedIsHeld(env, s, h, Apply(env, h, event, 0));
  }

  lemma FinishApplies(env: Setting, s: RunState, i: nat, answer: Option<string>, h: RunState)
    requires ValidSetting(env) && Shape(env, s) && Active(s) && NoneArchived(s.rows) && 0 < i < |s.rows|
    requires s.startedAt.None? || Done(env.board, s.rows[0])
    requires FinishHands(env, s, i, answer, h)
    ensures var s' := Apply(env, h, Finishes(s.rows[i].id, answer), 0);
            Shape(env, s') && Active(s') && NoneArchived(s'.rows) && MovesOnly(h, s', -1, 0)
            && MovesOnly(s, s', i, env.board.finished)
  {
    var event := Finishes(s.rows[i].id, answer);
    assert s.rows[0].id < s.rows[i].id;
    NoneArchivedStays(s, h, i, env.board.finished);
    HeldDoesNotClose(env, h, event, 0);
    ApplyGrows(env, h, event, 0);
    ApplyKeepsShape(env, h, event, 0);
    MovedThenGrown(s, h, Apply(env, h, event, 0), i, env.board.finished);
  }

  lemma NoneArchivedStays(s: RunState, h: RunState, i: int, to: ColumnId)
    requires NoneArchived(s.rows) && MovesOnly(s, h, i, to) && |h.rows| == |s.rows|
    ensures NoneArchived(h.rows)
  {
    forall j | 0 < j < |h.rows| ensures !h.rows[j].archived {
      assert SamePlace(s.rows[j], h.rows[j]);
    }
  }

  lemma FinishedIsHeld(env: Setting, s: RunState, h: RunState, s': RunState)
    requires Held(env, s) && Shape(env, s') && GroupsOk(env, s') && Active(s') && MovesOnly(h, s', -1, 0)
    requires h.rows != [] && h.rows[0] == s.rows[0] && h.columns == s.columns && h.startedAt == s.startedAt
    requires NoneArchived(s'.rows)
    ensures Held(env, s')
  {
    assert SamePlace(h.rows[0], s'.rows[0]);
  }

  /** A held run stays held wherever one of its tasks is moved; to the finished
      column only if what that sets off can be made. */
  lemma MoveHeld(env: Setting, s: RunState, i: nat, to: ColumnId, answer: Option<string>)
    requires ValidSetting(env) && Held(env, s) && 0 < i < |s.rows| && to in s.columns
    requires to == env.board.finished && s.rows[i].column != to ==> Sound(env.steps, FiredAt(env, s, i, answer))
    ensures var s' := Exec(env, s, MoveIt(s.rows[i], to, answer));
            Held(env, s') && MovesOnly(s, s', i, to)
  {
    if to == env.board.finished && s.rows[i].column != to {
      FinishHeld(env, s, i, answer);
    } else {
      var plan := MoveIsAllowed(env, s, i, to, answer);
      HandOverMoves(env, s, i, plan, answer);
      StepKeepsGroups(env, s, MoveIt(s.rows[i], to, answer));
    }
  }

  lemma MovedThenGrown(a: RunState, b: RunState, c: RunState, i: int, to: ColumnId)
    requires MovesOnly(a, b, i, to) && |b.rows| == |a.rows| && MovesOnly(b, c, -1, 0)
    ensures MovesOnly(a, c, i, to)
  {
    GrowsTrans(a, b, c);
  }

  // Finishing a step.

  lemma {:induction false} ExecAllConcat(env: Setting, s: RunState, a: seq<Op>, b: seq<Op>)
    ensures ExecAll(env, s, a + b) == ExecAll(env, ExecAll(env, s, a), b)
  {
    if b == [] {
      assert a + b == a;
    } else {
      var n := |b| - 1;
      ExecAllConcat(env, s, a, b[..n]);
      assert (a + b)[..|a + b| - 1] == a + b[..n];
    }
  }

  lemma ExecOneMore(env: Setting, s: RunState, ops: seq<Op>, op: Op)
    ensures ExecAll(env, s, ops + [op]) == Exec(env, ExecAll(env, s, ops), op)
  {
    assert (ops + [op])[..|ops|] == ops;
  }

  // Texts that answer nothing.

  function Longest(answers: seq<string>): (n: nat)
    ensures forall a :: a in answers ==> |Q.Normal(a)| <= n
  {
    if answers == [] then 0
    else
      var rest := Longest(answers[1..]);
      assert answers == [answers[0]] + answers[1..];
      if |Q.Normal(answers[0])| > rest then |Q.Normal(answers[0])| else rest
  }

  /** A text that is no answer to the question. */
  function NoAnswer(q: Q.Question): string {
    seq(Longest(Q.Answers(q)) + 1, _ => 'x')
  }

  lemma NoAnswerIsNone(q: Q.Question)
    ensures Q.Canonical(q, NoAnswer(q)) == None
  {
    TrimKeeps(NoAnswer(q));
    assert |Q.Normal(NoAnswer(q))| == Longest(Q.Answers(q)) + 1;
  }

  /** What a task of a step is finished with to set off no answer. */
  function Silent(steps: seq<Step>, key: string): Option<string> {
    match QuestionOf(steps, key)
    case None => None
    case Some(q) => Some(NoAnswer(q))
  }

  lemma SilentIsSilent(steps: seq<Step>, key: string)
    ensures AnswerFired(steps, key, Silent(steps, key)) == []
  {
    if QuestionOf(steps, key).Some? {
      NoAnswerIsNone(QuestionOf(steps, key).value);
    }
  }

  // Groups.

  /** Another task of the same group. */
  predicate Mates(rows: seq<Row>, i: int, j: int) {
    0 < i < |rows| && 0 < j < |rows| && i != j && rows[j].step == rows[i].step && rows[j].iteration == rows[i].iteration
  }

  /** All other tasks of its group are in the finished column, up to row `n`. */
  predicate MatesDone(env: Setting, rows: seq<Row>, i: int, n: int) {
    forall j :: 0 <= j < n && Mates(rows, i, j) ==> rows[j].column == env.board.finished
  }

  /** While another task of its group is open, so is the group. */
  lemma OpenMate(env: Setting, s: RunState, i: nat, j: nat)
    requires Shape(env, s) && NoneArchived(s.rows) && Mates(s.rows, i, j) && s.rows[j].column != env.board.finished
    ensures GroupOpen(Tasks(env.board, s.rows), AsTask(env.board, s.rows[i]))
  {
    GroupOpenIsMate(env.board, s.rows, s.rows[i]);
    assert RowOk(env, s.rows[j]);
    assert if i < j then s.rows[i].id < s.rows[j].id else s.rows[j].id < s.rows[i].id;
    assert MateAt(env.board, s.rows, s.rows[i], j);
  }

  /** With the others of its group done the group is closed. */
  lemma NoMateIsOpen(env: Setting, s: RunState, i: nat)
    requires Shape(env, s) && 0 < i < |s.rows| && MatesDone(env, s.rows, i, |s.rows|)
    ensures !GroupOpen(Tasks(env.board, s.rows), AsTask(env.board, s.rows[i]))
  {
    GroupOpenIsMate(env.board, s.rows, s.rows[i]);
    assert RowOk(env, s.rows[i]);
    forall j ensures !MateAt(env.board, s.rows, s.rows[i], j) {
      assert MateAt(env.board, s.rows, s.rows[i], j) ==> Mates(s.rows, i, j);
    }
  }

  /** A task of a group with another open can be finished silently: nothing fires. */
  lemma FinishesQuietly(env: Setting, s: RunState, i: nat, j: nat)
    requires ValidSetting(env) && Held(env, s) && Mates(s.rows, i, j)
    requires s.rows[i].column != env.board.finished && s.rows[j].column != env.board.finished
    ensures var s' := Exec(env, s, Finish(env, s, i, Silent(env.steps, s.rows[i].step)));
            Held(env, s') && MovesOnly(s, s', i, env.board.finished)
  {
    OpenMate(env, s, i, j);
    SilentIsSilent(env.steps, s.rows[i].step);
    NothingIsSound(env.steps);
    FinishHeld(env, s, i, Silent(env.steps, s.rows[i].step));
  }

  /** Put a task where it is open. */
  lemma Reopen(env: Setting, s: RunState, i: nat) returns (ops: seq<Op>)
    requires ValidSetting(env) && Held(env, s) && 0 < i < |s.rows|
    ensures var s' := ExecAll(env, s, ops);
            Held(env, s') && Grows(s, s') && s'.rows[i].column != env.board.finished
            && forall j :: 0 <= j < |s.rows| && j != i ==> s'.rows[j].column == s.rows[j].column
  {
    ops := [];
    if s.rows[i].column == env.board.finished {
      ops := [MoveIt(s.rows[i], env.column, None)];
      QuietMove(env, s, i, env.column);
      ExecOneMore(env, s, [], ops[0]);
    }
  }

  /** The first `n` tasks of the group are finished, and nothing else is changed but
      for columns. */
  ghost predicate MatesHeld(env: Setting, s0: RunState, s: RunState, i: nat, n: nat) {
    && Held(env, s) && Grows(s0, s) && MatesDone(env, s.rows, i, n)
    && i < |s.rows| && s.rows[i].column != env.board.finished
  }

  lemma {:induction false} FinishMates(env: Setting, s: RunState, i: nat, n: nat) returns (ops: seq<Op>)
    requires ValidSetting(env) && Held(env, s) && 0 < i < |s.rows| && n <= |s.rows|
    requires s.rows[i].column != env.board.finished
    ensures MatesHeld(env, s, ExecAll(env, s, ops), i, n)
  {
    ops := [];
    if n > 0 {
      ops := FinishMates(env, s, i, n - 1);
      var s' := ExecAll(env, s, ops);
      if Mates(s'.rows, i, n - 1) && s'.rows[n - 1].column != env.board.finished {
        var op := Finish(env, s', n - 1, Silent(env.steps, s'.rows[n - 1].step));
        FinishMate(env, s, s', i, n);
        ExecOneMore(env, s, ops, op);
        ops := ops + [op];
      }
    }
  }

  lemma FinishMate(env: Setting, s0: RunState, s: RunState, i: nat, n: nat)
    requires ValidSetting(env) && 0 < i && 1 < n <= |s.rows| && MatesHeld(env, s0, s, i, n - 1)
    requires Mates(s.rows, i, n - 1) && s.rows[n - 1].column != env.board.finished
    ensures MatesHeld(env, s0, Exec(env, s, Finish(env, s, n - 1, Silent(env.steps, s.rows[n - 1].step))), i, n)
  {
    var s' := Exec(env, s, Finish(env, s, n - 1, Silent(env.steps, s.rows[n - 1].step)));
    FinishesQuietly(env, s, n - 1, i);
    GrowsTrans(s0, s, s');
    OneMoreMate(env, s, s', i, n);
  }

  lemma OneMoreMate(env: Setting, s: RunState, s': RunState, i: nat, n: nat)
    requires 0 < i < |s.rows| && 1 < n <= |s.rows| && MatesDone(env, s.rows, i, n - 1)
    requires MovesOnly(s, s', n - 1, env.board.finished)
    ensures MatesDone(env, s'.rows, i, n)
  {
    forall j | 0 <= j < n && Mates(s'.rows, i, j) ensures s'.rows[j].column == env.board.finished {
      assert SamePlace(s.rows[i], s'.rows[i]) && SamePlace(s.rows[j], s'.rows[j]);
      assert Mates(s.rows, i, j);
    }
  }

  /** Tasks made since are not of the group. */
  lemma MatesAreOld(env: Setting, s: RunState, s': RunState, i: nat)
    requires 0 < i < |s.rows| && Grows(s, s') && MatesDone(env, s'.rows, i, |s.rows|)
    ensures MatesDone(env, s'.rows, i, |s'.rows|)
  {
    assert SamePlace(s.rows[i], s'.rows[i]);
    forall j | 0 <= j < |s'.rows| && Mates(s'.rows, i, j) ensures j < |s.rows| {
      assert j >= |s.rows| ==> Later(s.rows, s'.rows[j]);
    }
  }

  /** Bring a task to where finishing it is all that is left to do of its group. */
  lemma ReadyToFinish(env: Setting, s: RunState, i: nat) returns (ops: seq<Op>)
    requires ValidSetting(env) && Held(env, s) && 0 < i < |s.rows|
    ensures var s' := ExecAll(env, s, ops);
            Held(env, s') && Grows(s, s') && s'.rows[i].column != env.board.finished
            && !GroupOpen(Tasks(env.board, s'.rows), AsTask(env.board, s'.rows[i]))
  {
    ops := Reopen(env, s, i);
    var s1 := ExecAll(env, s, ops);
    var more := FinishMates(env, s1, i, |s1.rows|);
    var s2 := ExecAll(env, s1, more);
    MatesAreOld(env, s1, s2, i);
    NoMateIsOpen(env, s2, i);
    ExecAllConcat(env, s, ops, more);
    GrowsTrans(s, s1, s2);
    ops := ops + more;
  }

  /** Or, of a step made several at a time, to where another of its group is open. */
  lemma ReadyToAnswer(env: Setting, s: RunState, i: nat) returns (ops: seq<Op>)
    requires ValidSetting(env) && Held(env, s) && 0 < i < |s.rows| && SeveralAtOnce(env.steps, s.rows[i].step)
    ensures var s' := ExecAll(env, s, ops);
            Held(env, s') && Grows(s, s') && s'.rows[i].column != env.board.finished
            && GroupOpen(Tasks(env.board, s'.rows), AsTask(env.board, s'.rows[i]))
  {
    var j := AnotherOfGroup(env, s, i);
    ops := Reopen(env, s, i);
    var s1 := ExecAll(env, s, ops);
    assert SamePlace(s.rows[i], s1.rows[i]) && SamePlace(s.rows[j], s1.rows[j]);
    var more := Reopen(env, s1, j);
    var s2 := ExecAll(env, s1, more);
    assert SamePlace(s1.rows[i], s2.rows[i]) && SamePlace(s1.rows[j], s2.rows[j]);
    OpenMate(env, s2, i, j);
    ExecAllConcat(env, s, ops, more);
    GrowsTrans(s, s1, s2);
    ops := ops + more;
  }

  lemma AnotherOfGroup(env: Setting, s: RunState, i: nat) returns (j: nat)
    requires ValidSetting(env) && Held(env, s) && 0 < i < |s.rows| && SeveralAtOnce(env.steps, s.rows[i].step)
    ensures Mates(s.rows, i, j)
  {
    var row := s.rows[i];
    assert RowOk(env, row);
    var step := FindStep(env.steps, row.step).value;
    var k :| 0 <= k < |env.steps| && env.steps[k] == step;
    assert WholeGroups(env, s.rows, env.steps[k]);
    assert InGroup(s.rows, row.step, row.iteration, i);
    HasEntries(s.rows, row.step, row.iteration);
    assert EntriesOf(s.rows, row.step, row.iteration) == Params(step);
    j := OtherInGroup(s.rows, row.step, row.iteration, i);
  }

  // Firing.

  /** Whether a transaction fires a trigger. */
  predicate FiresNow(env: Setting, s: RunState, op: Op, t: Trigger) {
    var h := Turn(env, s, op);
    h.Handed? && Matches(FiredBy(env, h.s, h.event), t)
  }

  /** The questions are as they are checked when a program is saved. */
  predicate QuestionsOk(steps: seq<Step>) {
    forall s :: s in steps && s.question.Some? ==> Q.Valid(s.question.value)
  }

  /** An answer, written as the question has it, is fired as itself. */
  lemma AnswerIsFired(steps: seq<Step>, key: string, a: string)
    requires QuestionsOk(steps) && QuestionOf(steps, key).Some? && a in Q.Answers(QuestionOf(steps, key).value)
    ensures AnswerFired(steps, key, Some(a)) == [Answered(key, a)]
  {
    var q := QuestionOf(steps, key).value;
    var k :| 0 <= k < |Q.Answers(q)| && Q.Answers(q)[k] == a;
    Q.AnswersAreCanonical(q, k);
  }

  /** Bring a run to where one more finish fires the trigger and goes through. */
  lemma ReadyToFire(env: Setting, s: RunState, t: Trigger, i: nat) returns (ops: seq<Op>, answer: Option<string>)
    requires ValidSetting(env) && Held(env, s) && QuestionsOk(env.steps) && 0 < i < |s.rows|
    requires (t.Finished? || t.Answered?) && Goes(env.steps, t) && s.rows[i].step == t.step
    ensures var s' := ExecAll(env, s, ops);
            Held(env, s') && Grows(s, s') && s'.rows[i].column != env.board.finished
            && Sound(env.steps, FiredAt(env, s', i, answer)) && Matches(FiredAt(env, s', i, answer), t)
  {
    if t.Finished? {
      ops := ReadyToFinish(env, s, i);
      answer := Silent(env.steps, t.step);
      SilentIsSilent(env.steps, t.step);
      var s' := ExecAll(env, s, ops);
      assert SamePlace(s.rows[i], s'.rows[i]);
      assert FiredAt(env, s', i, answer) == [t];
    } else {
      var a :| a in Q.Answers(QuestionOf(env.steps, t.step).value) && SameButCase(a, t.answer)
               && AnswerGoes(env.steps, t.step, a);
      answer := Some(a);
      ops := ReadyForAnswer(env, s, i, a);
      var s' := ExecAll(env, s, ops);
      assert Answered(t.step, a) in FiredAt(env, s', i, answer);
    }
  }

  lemma ReadyForAnswer(env: Setting, s: RunState, i: nat, a: string) returns (ops: seq<Op>)
    requires ValidSetting(env) && Held(env, s) && QuestionsOk(env.steps) && 0 < i < |s.rows|
    requires QuestionOf(env.steps, s.rows[i].step).Some? && a in Q.Answers(QuestionOf(env.steps, s.rows[i].step).value)
    requires AnswerGoes(env.steps, s.rows[i].step, a)
    ensures var s' := ExecAll(env, s, ops);
            Held(env, s') && Grows(s, s') && s'.rows[i].column != env.board.finished
            && Sound(env.steps, FiredAt(env, s', i, Some(a)))
            && Answered(s.rows[i].step, a) in FiredAt(env, s', i, Some(a))
  {
    var key := s.rows[i].step;
    AnswerIsFired(env.steps, key, a);
    if Sound(env.steps, [Finished(key)]) {
      ops := ReadyToFinish(env, s, i);
      SoundConcat(env.steps, [Finished(key)], [Answered(key, a)]);
      assert SamePlace(s.rows[i], ExecAll(env, s, ops).rows[i]);
      assert FiredAt(env, ExecAll(env, s, ops), i, Some(a)) == [Finished(key)] + [Answered(key, a)];
    } else {
      ops := ReadyToAnswer(env, s, i);
      assert SamePlace(s.rows[i], ExecAll(env, s, ops).rows[i]);
      assert FiredAt(env, ExecAll(env, s, ops), i, Some(a)) == [Answered(key, a)];
    }
  }

  // What is fired makes tasks.

  predicate HasAt(rows: seq<Row>, key: string, i: int) {
    0 < i < |rows| && rows[i].step == key
  }

  /** The step has a task. */
  ghost predicate Has(rows: seq<Row>, key: string) {
    exists i :: HasAt(rows, key, i)
  }

  lemma HasStays(s: RunState, s': RunState, key: string)
    requires Grows(s, s') && Has(s.rows, key)
    ensures Has(s'.rows, key)
  {
    var i :| HasAt(s.rows, key, i);
    assert SamePlace(s.rows[i], s'.rows[i]) && HasAt(s'.rows, key, i);
  }

  /** A step whose trigger fires has a task afterwards: one made then, or one it
      had already. */
  lemma FiredAppears(env: Setting, s: RunState, event: RunEvent, now: Time, t: Trigger, k: nat)
    requires ValidSetting(env) && Shape(env, s) && Matches(FiredBy(env, s, event), t)
    requires k < |env.steps| && !IsRoot(env.steps[k]) && t in env.steps[k].created
    ensures Has(Apply(env, s, event, now).rows, env.steps[k].key)
  {
    var tasks, step := Tasks(env.board, s.rows), env.steps[k];
    var reading := Read(env.steps, tasks, event);
    assert IsTriggered(reading.fired, step);
    if Makes(tasks, reading.fired, step) {
      MadeAppears(env, s, event, now, k);
    } else {
      var o :| o in tasks && o.step == step.key && !o.skipped;
      var i :| 0 <= i < |tasks| && tasks[i] == o;
      StaysThere(env, s, event, now, i);
      assert HasAt(Apply(env, s, event, now).rows, step.key, i);
    }
  }

  lemma StaysThere(env: Setting, s: RunState, event: RunEvent, now: Time, i: nat)
    requires i < |s.rows|
    ensures i < |Apply(env, s, event, now).rows| && Apply(env, s, event, now).rows[i].step == s.rows[i].step
  {
    var plan := PlanOf(env, s, event, now);
    PlanIsKnown(env, s, event, now);
    EnactedRows(env, s, plan, now);
    NotedKeeps(plan, s.rows[i], now);
  }

  lemma MadeAppears(env: Setting, s: RunState, event: RunEvent, now: Time, k: nat)
    requires |s.rows| > 0 && k < |env.steps| && !Read(env.steps, Tasks(env.board, s.rows), event).ends
    requires MakesOf(env, s, event, env.steps[k])
    ensures Has(Apply(env, s, event, now).rows, env.steps[k].key)
  {
    var reading := Read(env.steps, Tasks(env.board, s.rows), event);
    var started := s.startedAt.Some? || event.RootStarts?;
    var group := GroupIfMade(env.steps, k, Tasks(env.board, s.rows), reading, started, now, env.zone);
    GroupIsMade(
      env.steps, |env.steps|, Tasks(env.board, s.rows), reading, started, now, env.zone, k, group[0]);
    MadeRowAppears(env, s, event, now, group[0]);
  }

  lemma MadeRowAppears(env: Setting, s: RunState, event: RunEvent, now: Time, c: Creation)
    requires |s.rows| > 0 && c in PlanOf(env, s, event, now).create
    ensures c.step < |env.steps| && Has(Apply(env, s, event, now).rows, env.steps[c.step].key)
  {
    var plan := PlanOf(env, s, event, now);
    PlanIsKnown(env, s, event, now);
    EnactedRows(env, s, plan, now);
    var x :| 0 <= x < |plan.create| && plan.create[x] == c;
    assert HasAt(Apply(env, s, event, now).rows, env.steps[c.step].key, |s.rows| + x);
  }

  /** A task of a step in a held run is all it takes to fire a trigger that goes. */
  lemma FireTrigger(env: Setting, s: RunState, t: Trigger) returns (ops: seq<Op>, op: Op)
    requires ValidSetting(env) && Held(env, s) && QuestionsOk(env.steps)
    requires (t.Finished? || t.Answered?) && Goes(env.steps, t) && Has(s.rows, t.step)
    ensures FiresNow(env, ExecAll(env, s, ops), op, t)
    ensures var s' := ExecAll(env, s, ops + [op]);
            Held(env, s') && Grows(s, s')
            && forall k :: 0 <= k < |env.steps| && !IsRoot(env.steps[k]) && t in env.steps[k].created ==>
                 Has(s'.rows, env.steps[k].key)
  {
    var i :| HasAt(s.rows, t.step, i);
    var answer;
    ops, answer := ReadyToFire(env, s, t, i);
    var s1 := ExecAll(env, s, ops);
    op := Finish(env, s1, i, answer);
    FinishHeld(env, s1, i, answer);
    FinishFires(env, s1, i, answer, t);
    ExecOneMore(env, s, ops, op);
    GrowsTrans(s, s1, Exec(env, s1, op));
  }

  lemma FinishFires(env: Setting, s: RunState, i: nat, answer: Option<string>, t: Trigger)
    requires ValidSetting(env) && Held(env, s) && 0 < i < |s.rows| && s.rows[i].column != env.board.finished
    requires Sound(env.steps, FiredAt(env, s, i, answer)) && Matches(FiredAt(env, s, i, answer), t)
    ensures FiresNow(env, s, Finish(env, s, i, answer), t)
    ensures forall k :: 0 <= k < |env.steps| && !IsRoot(env.steps[k]) && t in env.steps[k].created ==>
              Has(Exec(env, s, Finish(env, s, i, answer)).rows, env.steps[k].key)
  {
    var plan, h := FinishIsMoved(env, s, i, answer);
    var event := Finishes(s.rows[i].id, answer);
    SoundGoesThrough(env, h, event, 0);
    forall k | 0 <= k < |env.steps| && !IsRoot(env.steps[k]) && t in env.steps[k].created
      ensures Has(Apply(env, h, event, 0).rows, env.steps[k].key)
    {
      FiredAppears(env, h, event, 0, t, k);
    }
  }
}
