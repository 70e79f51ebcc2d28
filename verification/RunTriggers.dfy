/** Which triggers of a run's steps can ever fire, over every run and everything
    that can be done to one. */
module RunTriggers {
  import opened Options
  import opened Text
  import opened Ids
  import opened Offsets
  import opened Program
  import opened Transition
  import opened Runs
  import opened RunInvariants
  import opened RunProgress
  import opened RunGroups
  import opened RunRefusals
  import opened StepTrails
  import opened RunReach
  import opened RunTraces

  // What can be brought about.

  /** A run that waits to be started, its root still where it was made. */
  ghost predicate Waiting(env: Setting, s: RunState) {
    Held(env, s) && s.startedAt.None? && !s.rows[0].archived && s.rows[0].column == env.column
  }

  /** The run before its root is started. */
  lemma StartWaits(env: Setting, startAt: Option<Time>, now: Time)
    requires ValidSetting(env)
    ensures Waiting(env, StartRun(env, startAt, now))
    ensures forall k :: 0 <= k < |env.steps| && ComesFirst(env.steps[k], false) ==>
              Has(StartRun(env, startAt, now).rows, env.steps[k].key)
  {
    var s := NewRun(env, startAt, now);
    NewRunHasShape(env, startAt, now);
    StartIsInv(env, startAt, now);
    RootEventEndsRun(env, s, Created, now);
    ApplyGrows(env, s, Created, now);
    AppliedIsStarted(env, s, Created, now);
    RunGroupsAreWhole(env, startAt, now, []);
    assert SamePlace(s.rows[0], StartRun(env, startAt, now).rows[0]);
    forall k | 0 <= k < |env.steps| && ComesFirst(env.steps[k], false)
      ensures Has(StartRun(env, startAt, now).rows, env.steps[k].key)
    {
      FiredAppears(env, s, Created, now, WithRoot, k);
    }
  }

  /** Going along a trail, step by step. */
  lemma {:induction false} Follow(env: Setting, s: RunState, p: seq<string>) returns (ops: seq<Op>)
    requires ValidSetting(env) && Held(env, s) && QuestionsOk(env.steps)
    requires p != [] && Has(s.rows, p[0]) && forall i :: 0 <= i < |p| - 1 ==> Leads(env.steps, p[i], p[i + 1])
    ensures var s' := ExecAll(env, s, ops);
            Held(env, s') && Grows(s, s') && Has(s'.rows, p[|p| - 1])
  {
    ops := [];
    var n := |p| - 1;
    if n > 0 {
      var q := p[..n];
      ops := Follow(env, s, q);
      var s1 := ExecAll(env, s, ops);
      assert Leads(env.steps, p[n - 1], p[n - 1 + 1]);
      var k :| LeadsAt(env.steps, p[n - 1], p[n], k);
      var t :| t in env.steps[k].created && (t.Finished? || t.Answered?) && t.step == p[n - 1]
               && Goes(env.steps, t);
      var more, op := FireTrigger(env, s1, t);
      ExecAllConcat(env, s, ops, more + [op]);
      GrowsTrans(s, s1, ExecAll(env, s1, more + [op]));
      ops := ops + (more + [op]);
    }
  }

  /** A step that comes before the start can be brought about before the start. */
  lemma BringAbout(env: Setting, startAt: Option<Time>, start: Time, key: string) returns (ops: seq<Op>)
    requires ValidSetting(env) && QuestionsOk(env.steps) && Comes(env.steps, key, false)
    ensures var s := ExecAll(env, StartRun(env, startAt, start), ops);
            Waiting(env, s) && Grows(StartRun(env, startAt, start), s) && Has(s.rows, key)
  {
    var p :| TrailTo(env.steps, p, false, key);
    var k :| FirstAt(env.steps, p[0], false, k);
    var s := StartRun(env, startAt, start);
    StartWaits(env, startAt, start);
    ops := Follow(env, s, p);
    assert SamePlace(s.rows[0], ExecAll(env, s, ops).rows[0]);
  }

  /** What keeps the run open as the root starts: a task that counts and is not
      done, or a step that counts and is made then. */
  ghost predicate StaysOpenAtStart(env: Setting, s: RunState) {
    (exists i :: CountsOpen(env, s.rows, i))
    || exists k :: MadeAtStart(env, s.rows, k)
  }

  predicate CountsOpen(env: Setting, rows: seq<Row>, i: int) {
    0 < i < |rows| && rows[i].counts && !Done(env.board, rows[i])
  }

  ghost predicate MadeAtStart(env: Setting, rows: seq<Row>, k: int) {
    0 <= k < |env.steps| && !IsRoot(env.steps[k]) && env.steps[k].counts && RootStarted in env.steps[k].created
    && !Has(rows, env.steps[k].key)
  }

  /** A step's task can be open. */
  lemma OpenAgain(env: Setting, s: RunState, k: nat) returns (ops: seq<Op>)
    requires ValidSetting(env) && Waiting(env, s) && k < |env.steps| && env.steps[k].counts && Has(s.rows, env.steps[k].key)
    ensures var s' := ExecAll(env, s, ops);
            Waiting(env, s') && Grows(s, s') && exists i :: CountsOpen(env, s'.rows, i)
  {
    var i :| HasAt(s.rows, env.steps[k].key, i);
    assert RowOk(env, s.rows[i]);
    FindStepAt(env.steps, k);
    ops := [];
    if s.rows[i].column == env.board.finished {
      ops := [MoveIt(s.rows[i], env.column, None)];
      ExecOneMore(env, s, [], ops[0]);
      QuietMove(env, s, i, env.column);
      var s' := ExecAll(env, s, ops);
      assert SamePlace(s.rows[0], s'.rows[0]) && SamePlace(s.rows[i], s'.rows[i]);
      assert RowOk(env, s'.rows[i]) && CountsOpen(env, s'.rows, i);
    } else {
      assert CountsOpen(env, s.rows, i);
    }
  }

  /** A run that can outlive its start, brought to where it does. */
  lemma Prepare(env: Setting, startAt: Option<Time>, start: Time, k: nat) returns (ops: seq<Op>)
    requires ValidSetting(env) && QuestionsOk(env.steps) && CountsAt(env.steps, k)
    ensures var s := ExecAll(env, StartRun(env, startAt, start), ops);
            Waiting(env, s) && Grows(StartRun(env, startAt, start), s) && StaysOpenAtStart(env, s)
  {
    var s0, key := StartRun(env, startAt, start), env.steps[k].key;
    StartWaits(env, startAt, start);
    ops := [];
    if Comes(env.steps, key, false) {
      ops := BringAbout(env, startAt, start, key);
    }
    var s := ExecAll(env, s0, ops);
    if Has(s.rows, key) {
      var more := OpenAgain(env, s, k);
      ExecAllConcat(env, s0, ops, more);
      GrowsTrans(s0, s, ExecAll(env, s, more));
      ops := ops + more;
    } else {
      assert MadeAtStart(env, s.rows, k);
    }
  }

  /** A run whose root is in the started column. */
  ghost predicate Going(env: Setting, s: RunState) {
    && Shape(env, s) && GroupsOk(env, s) && Active(s) && env.column in s.columns && NoneArchived(s.rows)
    && s.startedAt.Some? && !s.rows[0].archived && s.rows[0].column == env.board.started
  }

  predicate SameSteps(a: seq<Row>, b: seq<Row>) {
    |b| >= |a| && forall i :: 0 <= i < |a| ==> b[i].step == a[i].step
  }

  lemma HasStillThere(a: seq<Row>, b: seq<Row>, key: string)
    requires SameSteps(a, b) && Has(a, key)
    ensures Has(b, key)
  {
    var i :| HasAt(a, key, i);
    assert HasAt(b, key, i);
  }

  function StartIt(env: Setting, s: RunState): Op
    requires |s.rows| > 0
  {
    MoveIt(s.rows[0], env.board.started, None)
  }

  /** Starting the root fires what waits for it. */
  lemma StartFires(env: Setting, s: RunState)
    requires ValidSetting(env) && Waiting(env, s) && Goes(env.steps, RootStarted)
    ensures var h := Turn(env, s, StartIt(env, s));
            h == Handed(h.s, RootStarts) && FiresNow(env, s, StartIt(env, s), RootStarted)
            && Exec(env, s, StartIt(env, s)) == Apply(env, h.s, RootStarts, 0)
            && StartedFrom(env, s, h.s)
  {
    var plan := MoveIsAllowed(env, s, 0, env.board.started, None);
    SoundGoesThrough(env, HandOver(env, s, s.rows[0], plan, None, 0).s, RootStarts, 0);
    FindAt(s.rows, 0);
    HandOverKeepsShape(env, s, s.rows[0], plan, None, 0);
    HandOverIs(env, s, s.rows[0], plan, None, 0);
    MovedRowIsOk(env, s.rows[0], plan, true, 0);
    assert RootStarted in [RootStarted];
    forall j | 0 < j < |s.rows| ensures s.rows[j].id != s.rows[0].id {
      assert s.rows[0].id < s.rows[j].id;
    }
  }

  /** Nothing but the root moved, and the run is started. */
  predicate StartedFrom(env: Setting, s: RunState, h: RunState) {
    && Shape(env, h) && Active(h) && h.startedAt.Some? && h.columns == s.columns && |h.rows| == |s.rows|
    && !h.rows[0].archived && h.rows[0].column == env.board.started
    && forall j :: 0 < j < |s.rows| ==> h.rows[j] == s.rows[j]
  }

  lemma OpensAtStart(env: Setting, s: RunState, h: RunState)
    requires ValidSetting(env) && Waiting(env, s) && StaysOpenAtStart(env, s) && StartedFrom(env, s, h)
    ensures !PlanOf(env, h, RootStarts, 0).finishRoot && !PlanOf(env, h, RootStarts, 0).endRun
  {
    var plan := PlanOf(env, h, RootStarts, 0);
    FinishIs(env, h, RootStarts, 0);
    if i :| CountsOpen(env, s.rows, i) {
      assert RowOk(env, h.rows[i]);
      assert OwedAt(env, h, plan, i);
    } else {
      var k :| MadeAtStart(env, s.rows, k);
      StartMakes(env, s, h, k);
    }
  }

  lemma StartMakes(env: Setting, s: RunState, h: RunState, k: nat)
    requires ValidSetting(env) && Shape(env, s) && MadeAtStart(env, s.rows, k) && StartedFrom(env, s, h)
    ensures !CountsNone(PlanOf(env, h, RootStarts, 0).create)
  {
    var tasks, step := Tasks(env.board, h.rows), env.steps[k];
    var reading := Read(env.steps, tasks, RootStarts);
    assert RootStarted in reading.fired && IsTriggered(reading.fired, step);
    forall o | o in tasks ensures o.step != step.key {
      var i :| 0 <= i < |tasks| && tasks[i] == o;
      assert i > 0 ==> !HasAt(s.rows, step.key, i);
    }
    var group := GroupIfMade(env.steps, k, tasks, reading, true, 0, env.zone);
    GroupIsMade(env.steps, |env.steps|, tasks, reading, true, 0, env.zone, k, group[0]);
    assert group[0] in PlanOf(env, h, RootStarts, 0).create && group[0].counts;
  }

  lemma GrowsGoing(env: Setting, s: RunState, h: RunState, s': RunState)
    requires Waiting(env, s) && StartedFrom(env, s, h) && Grows(h, s') && Shape(env, s') && Active(s') && GroupsOk(env, s')
    requires NoneArchived(h.rows) ==> NoneArchived(s'.rows)
    ensures Going(env, s') && SameSteps(s.rows, s'.rows)
  {
    assert SamePlace(h.rows[0], s'.rows[0]);
    forall j | 0 <= j < |s.rows| ensures s'.rows[j].step == s.rows[j].step {
      assert SamePlace(h.rows[j], s'.rows[j]);
      assert j == 0 ==> RootOk(env, s.rows[0]) && RootOk(env, h.rows[0]);
    }
  }

  /** The root is started and the run goes on. */
  lemma GoesOn(env: Setting, s: RunState)
    requires ValidSetting(env) && Waiting(env, s) && StaysOpenAtStart(env, s) && Goes(env.steps, RootStarted)
    ensures var s' := Exec(env, s, StartIt(env, s));
            Going(env, s') && SameSteps(s.rows, s'.rows)
            && forall k :: 0 <= k < |env.steps| && !IsRoot(env.steps[k]) && RootStarted in env.steps[k].created ==>
                 Has(s'.rows, env.steps[k].key)
  {
    StartFires(env, s);
    var h := Turn(env, s, StartIt(env, s)).s;
    var s' := Exec(env, s, StartIt(env, s));
    OpensAtStart(env, s, h);
    ApplyGrows(env, h, RootStarts, 0);
    ApplyKeepsShape(env, h, RootStarts, 0);
    StepKeepsGroups(env, s, StartIt(env, s));
    GrowsGoing(env, s, h, s');
    forall k | 0 <= k < |env.steps| && !IsRoot(env.steps[k]) && RootStarted in env.steps[k].created
      ensures Has(s'.rows, env.steps[k].key)
    {
      FiredAppears(env, h, RootStarts, 0, RootStarted, k);
    }
  }

  /** A column that is not there. */
  function Fresh(columns: seq<ColumnId>): (r: ColumnId)
    ensures forall c :: c in columns ==> c < r
  {
    if columns == [] then 0
    else
      var rest := Fresh(columns[1..]);
      assert columns == [columns[0]] + columns[1..];
      if columns[0] < rest then rest else columns[0] + 1
  }

  /** The root is put in a new column, and that is removed again. */
  function SweepOps(env: Setting, s: RunState): seq<Op>
    requires |s.rows| > 0
  {
    var c := Fresh(s.columns);
    [AddColumn(c), MoveIt(s.rows[0], c, None), RemoveColumn(c, Some(env.board.finished), false)]
  }

  /** A going run whose root was swept in among the finished tasks never closes. */
  lemma SweepHolds(env: Setting, s: RunState)
    requires ValidSetting(env) && Going(env, s)
    ensures var s' := ExecAll(env, s, SweepOps(env, s));
            Held(env, s') && s'.startedAt.Some? && SameSteps(s.rows, s'.rows)
  {
    var c, ops := Fresh(s.columns), SweepOps(env, s);
    var s1 := s.(columns := s.columns + [c]);
    assert ops[..1][..0] == [] && ops[..2][..1] == ops[..1] && ops[..3] == ops;
    assert ExecAll(env, s, ops[..0]) == s;
    assert ExecAll(env, s, ops[..1]) == s1;
    StepKeepsShape(env, s, ops[0]);
    StepKeepsGroups(env, s, ops[0]);
    RootMovesOut(env, s1, c);
    var s2 := Exec(env, s1, ops[1]);
    assert ExecAll(env, s, ops[..2]) == s2;
    RootIsSwept(env, s2, c);
    assert ExecAll(env, s, ops) == Exec(env, s2, ops[2]);
  }

  lemma RootMovesOut(env: Setting, s: RunState, c: ColumnId)
    requires ValidSetting(env) && Going(env, s) && c in s.columns
    requires c != env.board.started && c != env.board.finished
    ensures var s' := Exec(env, s, MoveIt(s.rows[0], c, None));
            Shape(env, s') && GroupsOk(env, s') && Active(s') && s'.startedAt.Some? && s'.columns == s.columns && NoneArchived(s'.rows)
            && |s'.rows| == |s.rows| && s'.rows[0].column == c && SameSteps(s.rows, s'.rows)
  {
    var plan := MoveIsAllowed(env, s, 0, c, None);
    StepKeepsGroups(env, s, MoveIt(s.rows[0], c, None));
    FindAt(s.rows, 0);
    HandOverKeepsShape(env, s, s.rows[0], plan, None, 0);
    HandOverIs(env, s, s.rows[0], plan, None, 0);
    MovedRowIsOk(env, s.rows[0], plan, true, 0);
    forall j | 0 < j < |s.rows| ensures s.rows[j].id != s.rows[0].id {
      assert s.rows[0].id < s.rows[j].id;
    }
  }

  lemma RootIsSwept(env: Setting, s: RunState, c: ColumnId)
    requires ValidSetting(env) && Shape(env, s) && GroupsOk(env, s) && Active(s) && s.startedAt.Some?
    requires NoneArchived(s.rows) && s.rows[0].column == c && c in s.columns && env.column in s.columns && |s.columns| > 1
    requires c != env.board.started && c != env.board.paused && c != env.board.finished && c != env.column
    ensures var s' := Exec(env, s, RemoveColumn(c, Some(env.board.finished), false));
            Held(env, s') && s'.startedAt.Some? && SameSteps(s.rows, s'.rows)
  {
    RemovalIsAllowed(env, s, c);
    StepKeepsShape(env, s, RemoveColumn(c, Some(env.board.finished), false));
    StepKeepsGroups(env, s, RemoveColumn(c, Some(env.board.finished), false));
    SweptIsHeld(env, s, c, Exec(env, s, RemoveColumn(c, Some(env.board.finished), false)));
  }

  lemma RemovalIsAllowed(env: Setting, s: RunState, c: ColumnId)
    requires Shape(env, s) && s.rows[0].column == c && c in s.columns && |s.columns| > 1
    requires c != env.board.started && c != env.board.paused && c != env.board.finished
    ensures Try(env, s, RemoveColumn(c, Some(env.board.finished), false)).Ok?
    ensures var s' := Exec(env, s, RemoveColumn(c, Some(env.board.finished), false));
            s' == s.(rows := s'.rows, columns := Remaining(s.columns, c)) && |s'.rows| == |s.rows|
            && forall i :: 0 <= i < |s.rows| ==> s'.rows[i] == SweptRow(s.rows[i], c, Some(env.board.finished))
  {
    RemovalIsPlanned(env, s, c);
    SweepIs(env, s, c, Some(env.board.finished), false);
  }

  lemma RemovalIsPlanned(env: Setting, s: RunState, c: ColumnId)
    requires Shape(env, s) && s.rows[0].column == c && c in s.columns && |s.columns| > 1
    requires c != env.board.started && c != env.board.paused && c != env.board.finished
    ensures RemoveColumnOf(env, s, c, Some(env.board.finished), false).Ok?
  {
    assert s.rows[0] in s.rows && Occupied(s.rows, c);
    assert PlanRemoval(BoardOf(env, s), c, true, Some(env.board.finished)) == Ok(Some(env.board.finished));
  }

  lemma SweptIsHeld(env: Setting, s: RunState, c: ColumnId, s': RunState)
    requires Shape(env, s') && GroupsOk(env, s') && Active(s) && s.startedAt.Some? && NoneArchived(s.rows) && |s.rows| > 0
    requires s.rows[0].column == c && env.column in s.columns && c != env.column
    requires s' == s.(rows := s'.rows, columns := Remaining(s.columns, c)) && |s'.rows| == |s.rows|
    requires forall i :: 0 <= i < |s.rows| ==> s'.rows[i] == SweptRow(s.rows[i], c, Some(env.board.finished))
    ensures Held(env, s') && SameSteps(s.rows, s'.rows)
  {
  }

  /** A run that goes on past its start, held, with everything there that comes
      with the root or its start. */
  lemma HoldStarted(env: Setting, startAt: Option<Time>, start: Time) returns (ops: seq<Op>)
    requires ValidSetting(env) && QuestionsOk(env.steps) && OutlivesStart(env.steps)
    ensures var s := ExecAll(env, StartRun(env, startAt, start), ops);
            Held(env, s)
            && forall k :: 0 <= k < |env.steps| && ComesFirst(env.steps[k], true) ==> Has(s.rows, env.steps[k].key)
  {
    var k0 :| CountsAt(env.steps, k0);
    var s0 := StartRun(env, startAt, start);
    StartWaits(env, startAt, start);
    var first := Prepare(env, startAt, start, k0);
    var s1 := ExecAll(env, s0, first);
    var go := StartIt(env, s1);
    GoesOn(env, s1);
    var s2 := Exec(env, s1, go);
    ExecOneMore(env, s0, first, go);
    SweepHolds(env, s2);
    ExecAllConcat(env, s0, first + [go], SweepOps(env, s2));
    ops := first + [go] + SweepOps(env, s2);
    var s3 := ExecAll(env, s2, SweepOps(env, s2));
    forall k | 0 <= k < |env.steps| && ComesFirst(env.steps[k], true) ensures Has(s3.rows, env.steps[k].key) {
      FirstIsThere(env, s0, s1, s2, s3, k);
    }
  }

  lemma FirstIsThere(env: Setting, s0: RunState, s1: RunState, s2: RunState, s3: RunState, k: nat)
    requires k < |env.steps| && ComesFirst(env.steps[k], true)
    requires ComesFirst(env.steps[k], false) ==> Has(s0.rows, env.steps[k].key)
    requires RootStarted in env.steps[k].created ==> Has(s2.rows, env.steps[k].key)
    requires Grows(s0, s1) && SameSteps(s1.rows, s2.rows) && SameSteps(s2.rows, s3.rows)
    ensures Has(s3.rows, env.steps[k].key)
  {
    if RootStarted !in env.steps[k].created {
      HasStays(s0, s1, env.steps[k].key);
      HasStillThere(s1.rows, s2.rows, env.steps[k].key);
    }
    HasStillThere(s2.rows, s3.rows, env.steps[k].key);
  }

  /** Any step a run can come to can be brought about in a run that is held. */
  lemma BringAboutHeld(env: Setting, startAt: Option<Time>, start: Time, key: string) returns (ops: seq<Op>)
    requires ValidSetting(env) && QuestionsOk(env.steps)
    requires Comes(env.steps, key, false) || (Comes(env.steps, key, true) && OutlivesStart(env.steps))
    ensures var s := ExecAll(env, StartRun(env, startAt, start), ops); Held(env, s) && Has(s.rows, key)
  {
    if Comes(env.steps, key, false) {
      ops := BringAbout(env, startAt, start, key);
    } else {
      var p :| TrailTo(env.steps, p, true, key);
      var k :| FirstAt(env.steps, p[0], true, k);
      ops := HoldStarted(env, startAt, start);
      var more := Follow(env, ExecAll(env, StartRun(env, startAt, start), ops), p);
      ExecAllConcat(env, StartRun(env, startAt, start), ops, more);
      ops := ops + more;
    }
  }

  /** What can happen, told of the steps alone, happens in some run. */
  lemma CanHappenFires(env: Setting, startAt: Option<Time>, start: Time, t: Trigger) returns (ops: seq<Op>)
    requires ValidSetting(env) && QuestionsOk(env.steps) && CanHappen(env.steps, t)
    ensures FiresLast(env, startAt, start, ops, t)
  {
    var s0 := StartRun(env, startAt, start);
    CanStartIs(env, startAt, start);
    ops := [];
    if t.RootStarted? {
      StartWaits(env, startAt, start);
      StartFires(env, s0);
      LastFires(env, startAt, start, [], StartIt(env, s0), t);
      ops := [StartIt(env, s0)];
    } else if !t.WithRoot? {
      var first := BringAboutHeld(env, startAt, start, t.step);
      var more, op := FireTrigger(env, ExecAll(env, s0, first), t);
      ExecAllConcat(env, s0, first, more);
      LastFires(env, startAt, start, first + more, op, t);
      ops := first + more + [op];
    }
  }

  lemma LastFires(env: Setting, startAt: Option<Time>, start: Time, ops: seq<Op>, op: Op, t: Trigger)
    requires CanStart(env, startAt, start) && FiresNow(env, ExecAll(env, StartRun(env, startAt, start), ops), op, t)
    ensures FiresLast(env, startAt, start, ops + [op], t)
  {
    assert (ops + [op])[..|ops|] == ops;
  }

  /** Of the steps a run is started with, on any board with three different role
      columns: a trigger fires in some run exactly when a run can be started at
      all, what the trigger sets off can be made, and it names a step that a run
      can come to, before its root is started or, if the root can be started and
      anything can keep the run open then, after. */
  lemma TriggerFires(env: Setting, t: Trigger)
    requires ValidSetting(env) && QuestionsOk(env.steps)
    ensures CanFire(env, t) <==> CanHappen(env.steps, t)
  {
    if CanFire(env, t) {
      var startAt, start, ops :| FiresLast(env, startAt, start, ops, t);
      FiredCanHappen(env, startAt, start, ops, t);
    }
    if CanHappen(env.steps, t) {
      var ops := CanHappenFires(env, None, 0, t);
      assert FiresLast(env, None, 0, ops, t);
    }
  }
}
