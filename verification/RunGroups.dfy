/** The groups of tasks a run makes of a step: one task for each entry of its
    fan-out list, iteration after iteration. */
module RunGroups {
  import opened Options
  import opened Ids
  import opened Offsets
  import opened Questions
  import opened Program
  import opened Transition
  import opened Runs
  import opened RunInvariants

  /** The entries of one group's tasks, in the order they were made. */
  function EntriesOf(rows: seq<Row>, key: string, iteration: nat): seq<Option<string>> {
    if rows == [] then []
    else
      var k := |rows| - 1;
      EntriesOf(rows[..k], key, iteration)
      + (if rows[k].step == key && rows[k].iteration == iteration then [rows[k].param] else [])
  }

  predicate InGroup(rows: seq<Row>, key: string, iteration: nat, i: int) {
    0 <= i < |rows| && rows[i].step == key && rows[i].iteration == iteration
  }

  lemma {:induction false} HasEntries(rows: seq<Row>, key: string, iteration: nat)
    ensures EntriesOf(rows, key, iteration) != [] <==> exists i :: InGroup(rows, key, iteration, i)
  {
    if rows != [] {
      var k := |rows| - 1;
      HasEntries(rows[..k], key, iteration);
      if i :| InGroup(rows, key, iteration, i) {
        assert i == k || InGroup(rows[..k], key, iteration, i);
      }
      if i :| InGroup(rows[..k], key, iteration, i) {
        assert InGroup(rows, key, iteration, i);
      }
      assert rows[k].step == key && rows[k].iteration == iteration <==> InGroup(rows, key, iteration, k);
    }
  }

  /** A group with more than one entry has another task beside any of its tasks. */
  lemma {:induction false} OtherInGroup(rows: seq<Row>, key: string, iteration: nat, i: nat) returns (j: nat)
    requires InGroup(rows, key, iteration, i) && |EntriesOf(rows, key, iteration)| > 1
    ensures InGroup(rows, key, iteration, j) && j != i
  {
    var k := |rows| - 1;
    if i == k {
      HasEntries(rows[..k], key, iteration);
      j :| InGroup(rows[..k], key, iteration, j);
    } else if InGroup(rows, key, iteration, k) {
      j := k;
    } else {
      j := OtherInGroup(rows[..k], key, iteration, i);
    }
  }

  /** Two tasks of one group are two entries. */
  lemma {:induction false} TwoInGroup(rows: seq<Row>, key: string, iteration: nat, i: nat, j: nat)
    requires InGroup(rows, key, iteration, i) && InGroup(rows, key, iteration, j) && i < j
    ensures |EntriesOf(rows, key, iteration)| > 1
  {
    var k := |rows| - 1;
    if j == k {
      assert InGroup(rows[..k], key, iteration, i);
      HasEntries(rows[..k], key, iteration);
    } else {
      TwoInGroup(rows[..k], key, iteration, i, j);
    }
  }

  function Last(env: Setting, rows: seq<Row>, key: string): nat {
    LastIteration(Tasks(env.board, rows), key)
  }

  /** What a step has been made into so far: the groups 1 to n, nothing else,
      each with one task for each entry. */
  ghost predicate WholeGroups(env: Setting, rows: seq<Row>, step: Step) {
    forall j: nat :: EntriesOf(rows, step.key, j) == if 1 <= j <= Last(env, rows, step.key) then Params(step) else []
  }

  ghost predicate GroupsOk(env: Setting, s: RunState) {
    forall i :: 0 <= i < |env.steps| && !IsRoot(env.steps[i]) ==> WholeGroups(env, s.rows, env.steps[i])
  }

  lemma {:induction false} EntriesOfConcat(a: seq<Row>, b: seq<Row>, key: string, j: nat)
    ensures EntriesOf(a + b, key, j) == EntriesOf(a, key, j) + EntriesOf(b, key, j)
  {
    if b == [] {
      assert a + b == a;
    } else {
      var k := |b| - 1;
      EntriesOfConcat(a, b[..k], key, j);
      assert (a + b)[..|a + b| - 1] == a + b[..k];
    }
  }

  /** Rows that differ in nothing but their state. */
  predicate SameRows(a: seq<Row>, b: seq<Row>) {
    |a| == |b| && forall i :: 0 <= i < |a| ==>
      a[i].id == b[i].id && a[i].step == b[i].step && a[i].iteration == b[i].iteration && a[i].param == b[i].param
  }

  lemma {:induction false} SameEntries(a: seq<Row>, b: seq<Row>, key: string, j: nat)
    requires SameRows(a, b)
    ensures EntriesOf(a, key, j) == EntriesOf(b, key, j)
  {
    if a != [] {
      SameEntries(a[..|a| - 1], b[..|b| - 1], key, j);
    }
  }

  lemma LastIs(tasks: seq<StepTask>, key: string, n: nat)
    requires forall t :: t in tasks && t.step == key ==> t.iteration <= n
    requires n > 0 ==> exists t :: t in tasks && t.step == key && t.iteration == n
    ensures LastIteration(tasks, key) == n
  {
  }

  /** The last iteration, told from which groups there are. */
  lemma LastFromEntries(env: Setting, rows: seq<Row>, key: string, n: nat)
    requires forall j: nat :: EntriesOf(rows, key, j) != [] <==> 1 <= j <= n
    ensures Last(env, rows, key) == n
  {
    var tasks := Tasks(env.board, rows);
    forall t | t in tasks && t.step == key ensures t.iteration <= n {
      var i :| 0 <= i < |tasks| && tasks[i] == t;
      assert InGroup(rows, key, t.iteration, i);
      HasEntries(rows, key, t.iteration);
    }
    if n > 0 {
      assert EntriesOf(rows, key, n) != [];
      HasEntries(rows, key, n);
      var i :| InGroup(rows, key, n, i);
      assert tasks[i] in tasks;
    }
    LastIs(tasks, key, n);
  }

  lemma SameGroups(env: Setting, a: seq<Row>, b: seq<Row>, step: Step)
    requires SameRows(a, b) && WholeGroups(env, a, step)
    ensures WholeGroups(env, b, step) && Last(env, b, step.key) == Last(env, a, step.key)
  {
    var n := Last(env, a, step.key);
    forall j: nat ensures EntriesOf(b, step.key, j) == if 1 <= j <= n then Params(step) else [] {
      SameEntries(a, b, step.key, j);
    }
    LastFromEntries(env, b, step.key, n);
  }

  // What an event adds.

  /** The entries of one group among tasks still to be made. */
  function EntriesIn(steps: seq<Step>, create: seq<Creation>, key: string, iteration: nat): seq<Option<string>> {
    if create == [] then []
    else
      var k := |create| - 1;
      EntriesIn(steps, create[..k], key, iteration)
      + (if InGoing(steps, create[k], key, iteration) then [create[k].param] else [])
  }

  predicate InGoing(steps: seq<Step>, c: Creation, key: string, iteration: nat) {
    c.step < |steps| && steps[c.step].key == key && c.iteration == iteration
  }

  lemma {:induction false} EntriesInConcat(steps: seq<Step>, a: seq<Creation>, b: seq<Creation>, key: string, j: nat)
    ensures EntriesIn(steps, a + b, key, j) == EntriesIn(steps, a, key, j) + EntriesIn(steps, b, key, j)
  {
    if b == [] {
      assert a + b == a;
    } else {
      var k := |b| - 1;
      EntriesInConcat(steps, a, b[..k], key, j);
      assert (a + b)[..|a + b| - 1] == a + b[..k];
    }
  }

  lemma {:induction false} UniformEntries(
    steps: seq<Step>, create: seq<Creation>, key: string, j: nat, entries: seq<Option<string>>)
    requires |create| == |entries|
    requires forall i :: 0 <= i < |create| ==> InGoing(steps, create[i], key, j) && create[i].param == entries[i]
    ensures EntriesIn(steps, create, key, j) == entries
  {
    if create != [] {
      var k := |create| - 1;
      UniformEntries(steps, create[..k], key, j, entries[..k]);
      assert entries == entries[..k] + [entries[k]];
    }
  }

  lemma {:induction false} NoEntries(steps: seq<Step>, create: seq<Creation>, key: string, j: nat)
    requires forall i :: 0 <= i < |create| ==> !InGoing(steps, create[i], key, j)
    ensures EntriesIn(steps, create, key, j) == []
  {
    if create != [] {
      NoEntries(steps, create[..|create| - 1], key, j);
    }
  }

  lemma {:induction false} MadeEntries(env: Setting, create: seq<Creation>, id: TaskId, now: Time, key: string, j: nat)
    requires Known(env, create)
    ensures EntriesOf(Made(env, create, id, now), key, j) == EntriesIn(env.steps, create, key, j)
  {
    if create != [] {
      var k := |create| - 1;
      MadeEntries(env, create[..k], id, now, key, j);
      assert Made(env, create, id, now)[..k] == Made(env, create[..k], id, now);
    }
  }

  /** What an event adds to one group: all of the next one, or nothing. */
  function EntriesDue(tasks: seq<StepTask>, fired: seq<Trigger>, step: Step, j: nat): seq<Option<string>> {
    if Makes(tasks, fired, step) && j == LastIteration(tasks, step.key) + 1 then Params(step) else []
  }

  lemma GroupEntries(
    steps: seq<Step>, k: nat, i: nat, tasks: seq<StepTask>, trigger: Option<TaskId>, started: bool, now: Time,
    zone: Zone, j: nat)
    requires DistinctKeys(steps) && k < |steps| && i < |steps|
    ensures EntriesIn(steps, GroupOf(k, steps[k], tasks, trigger, started, now, zone), steps[i].key, j)
         == if i == k && j == LastIteration(tasks, steps[k].key) + 1 then Params(steps[k]) else []
  {
    var g := GroupOf(k, steps[k], tasks, trigger, started, now, zone);
    assert i == k <==> steps[i].key == steps[k].key;
    if i == k && j == LastIteration(tasks, steps[k].key) + 1 {
      UniformEntries(steps, g, steps[k].key, j, Params(steps[k]));
    } else {
      NoEntries(steps, g, steps[i].key, j);
    }
  }

  lemma IfMadeEntries(
    steps: seq<Step>, k: nat, i: nat, tasks: seq<StepTask>, reading: Reading, started: bool, now: Time, zone: Zone,
    j: nat)
    requires DistinctKeys(steps) && k < |steps| && i < |steps|
    ensures EntriesIn(steps, GroupIfMade(steps, k, tasks, reading, started, now, zone), steps[i].key, j)
         == if i == k then EntriesDue(tasks, reading.fired, steps[i], j) else []
  {
    if Makes(tasks, reading.fired, steps[k]) {
      GroupEntries(steps, k, i, tasks, reading.trigger, started, now, zone, j);
    }
  }

  lemma OneSideOnly(
    steps: seq<Step>, a: seq<Creation>, b: seq<Creation>, key: string, j: nat, entries: seq<Option<string>>)
    requires EntriesIn(steps, a, key, j) == [] || EntriesIn(steps, b, key, j) == []
    requires entries == if EntriesIn(steps, a, key, j) == [] then EntriesIn(steps, b, key, j) else EntriesIn(steps, a, key, j)
    ensures EntriesIn(steps, a + b, key, j) == entries
  {
    EntriesInConcat(steps, a, b, key, j);
  }

  lemma {:induction false} DueEntries(
    steps: seq<Step>, n: nat, i: nat, tasks: seq<StepTask>, reading: Reading, started: bool, now: Time, zone: Zone,
    j: nat)
    requires DistinctKeys(steps) && n <= |steps| && i < |steps|
    ensures EntriesIn(steps, Creations(steps, n, tasks, reading, started, now, zone), steps[i].key, j)
         == if i < n then EntriesDue(tasks, reading.fired, steps[i], j) else []
  {
    if n > 0 {
      var k := n - 1;
      DueEntries(steps, k, i, tasks, reading, started, now, zone, j);
      IfMadeEntries(steps, k, i, tasks, reading, started, now, zone, j);
      CreationsStep(steps, k, tasks, reading, started, now, zone);
      OneSideOnly(
        steps, Creations(steps, k, tasks, reading, started, now, zone),
        GroupIfMade(steps, k, tasks, reading, started, now, zone), steps[i].key, j,
        if i < n then EntriesDue(tasks, reading.fired, steps[i], j) else []);
    }
  }

  /** The triggers an event sets off in a state, and whether some step is made. */
  function FiredBy(env: Setting, s: RunState, event: RunEvent): seq<Trigger> {
    Read(env.steps, Tasks(env.board, s.rows), event).fired
  }

  predicate MakesOf(env: Setting, s: RunState, event: RunEvent, step: Step) {
    Makes(Tasks(env.board, s.rows), FiredBy(env, s, event), step)
  }

  lemma PlanEntries(env: Setting, s: RunState, event: RunEvent, now: Time, i: nat, j: nat)
    requires DistinctKeys(env.steps) && i < |env.steps|
    ensures EntriesIn(env.steps, PlanOf(env, s, event, now).create, env.steps[i].key, j)
         == EntriesDue(Tasks(env.board, s.rows), FiredBy(env, s, event), env.steps[i], j)
  {
    var tasks := Tasks(env.board, s.rows);
    var reading := Read(env.steps, tasks, event);
    if !reading.ends {
      DueEntries(
        env.steps, |env.steps|, i, tasks, reading, s.startedAt.Some? || event.RootStarts?, now, env.zone, j);
    }
  }

  lemma TouchedAreSame(env: Setting, plan: Plan, rows: seq<Row>, now: Time)
    ensures SameRows(rows, TouchedAll(env, plan, rows, now))
  {
  }

  /** An event adds at most one whole group of a step, the next one. */
  lemma ApplyGroups(env: Setting, s: RunState, event: RunEvent, now: Time, i: nat)
    requires DistinctKeys(env.steps) && i < |env.steps| && WholeGroups(env, s.rows, env.steps[i])
    ensures var rows, step := Apply(env, s, event, now).rows, env.steps[i];
            WholeGroups(env, rows, step)
            && Last(env, rows, step.key) == Last(env, s.rows, step.key) + if MakesOf(env, s, event, step) then 1 else 0
  {
    var step := env.steps[i];
    forall j: nat
      ensures AddsGroup(env, s.rows, Apply(env, s, event, now).rows, step, MakesOf(env, s, event, step), j)
    {
      ApplyEntries(env, s, event, now, i, j);
    }
    GroupsAfter(env, s.rows, Apply(env, s, event, now).rows, step, MakesOf(env, s, event, step));
  }

  /** Of one iteration, rows have what they had, and all of the next group if
      one was made. */
  ghost predicate AddsGroup(env: Setting, was: seq<Row>, rows: seq<Row>, step: Step, makes: bool, j: nat) {
    EntriesOf(rows, step.key, j)
    == EntriesOf(was, step.key, j) + if makes && j == Last(env, was, step.key) + 1 then Params(step) else []
  }

  lemma ApplyEntries(env: Setting, s: RunState, event: RunEvent, now: Time, i: nat, j: nat)
    requires DistinctKeys(env.steps) && i < |env.steps|
    ensures var step := env.steps[i];
            AddsGroup(env, s.rows, Apply(env, s, event, now).rows, step, MakesOf(env, s, event, step), j)
  {
    PlanIsKnown(env, s, event, now);
    PlanEntries(env, s, event, now, i, j);
    EnactedEntries(env, s, PlanOf(env, s, event, now), now, env.steps[i].key, j);
  }

  lemma GroupsAfter(env: Setting, was: seq<Row>, rows: seq<Row>, step: Step, makes: bool)
    requires WholeGroups(env, was, step) && forall j: nat :: AddsGroup(env, was, rows, step, makes, j)
    ensures WholeGroups(env, rows, step)
    ensures Last(env, rows, step.key) == Last(env, was, step.key) + if makes then 1 else 0
  {
    var n := Last(env, was, step.key) + if makes then 1 else 0;
    forall j: nat ensures EntriesOf(rows, step.key, j) == if 1 <= j <= n then Params(step) else [] {
      assert AddsGroup(env, was, rows, step, makes, j);
    }
    LastFromEntries(env, rows, step.key, n);
  }

  lemma EnactedEntries(env: Setting, s: RunState, plan: Plan, now: Time, key: string, j: nat)
    requires Known(env, plan.create)
    ensures EntriesOf(Enact(env, s, plan, now).rows, key, j)
         == EntriesOf(s.rows, key, j) + EntriesIn(env.steps, plan.create, key, j)
  {
    var was, made := TouchedAll(env, plan, s.rows, now), Made(env, plan.create, s.nextId, now);
    TouchedAreSame(env, plan, s.rows, now);
    SameEntries(s.rows, was, key, j);
    MadeEntries(env, plan.create, s.nextId, now, key, j);
    EntriesOfConcat(was, made, key, j);
  }

  // Transactions, told apart into what is done by hand and what the engine makes of it.

  function TimeOf(op: Op): Time {
    match op
    case Move(_, _, _, _, now) => now
    case Delete(_, now) => now
    case Answer(_, _, now) => now
    case Cancel(_, now) => now
    case _ => 0
  }

  /** What is done by hand of a move that is allowed. */
  function MoveTurn(
    env: Setting, s: RunState, id: TaskId, to: ColumnId, answer: Option<string>, overriding: bool, now: Time): Handed
    requires MoveTask(env, s, id, to, answer, overriding, now).Ok?
  {
    var row := Find(s.rows, id).value;
    HandOver(env, s, row, PlanFor(env, s, row, to, overriding, now).value, answer, now)
  }

  function DeleteTurn(env: Setting, s: RunState, id: TaskId): Handed
    requires Find(s.rows, id).Some?
  {
    var s1 := s.(rows := Update(s.rows, id, Gone(s, Find(s.rows, id).value)));
    if Active(s) then Handed(s1, Deleted(id)) else Kept(s1)
  }

  function AnswerTurn(env: Setting, s: RunState, id: TaskId, text: string, now: Time): Handed
    requires AnswerTask(env, s, id, text, now).Ok?
  {
    var row := Find(s.rows, id).value;
    if Done(env.board, row) then Handed(s, IsAnswered(id, Canonical(row.question.value, text).value))
    else MoveTurn(env, s, id, env.board.finished, Some(text), false, now)
  }

  function Turn(env: Setting, s: RunState, op: Op): Handed {
    if Try(env, s, op).Err? then Kept(s)
    else
      match op
      case Move(id, to, answer, overriding, now) => MoveTurn(env, s, id, to, answer, overriding, now)
      case Delete(id, _) => DeleteTurn(env, s, id)
      case Answer(id, text, now) => AnswerTurn(env, s, id, text, now)
      case _ => Kept(Exec(env, s, op))
  }

  lemma UpdateIsSame(rows: seq<Row>, row: Row, row': Row)
    requires Increasing(rows) && Find(rows, row.id) == Some(row)
    requires row'.id == row.id && row'.step == row.step && row'.iteration == row.iteration && row'.param == row.param
    ensures SameRows(rows, Update(rows, row.id, row'))
  {
    forall i | 0 <= i < |rows| && rows[i].id == row.id ensures rows[i] == row {
      FindAt(rows, i);
    }
  }

  lemma MoveTurnIs(
    env: Setting, s: RunState, id: TaskId, to: ColumnId, answer: Option<string>, overriding: bool, now: Time)
    requires MoveTask(env, s, id, to, answer, overriding, now).Ok?
    ensures Settle(env, MoveTurn(env, s, id, to, answer, overriding, now), now)
         == MoveTask(env, s, id, to, answer, overriding, now).value
  {
  }

  lemma DeleteTurnIs(env: Setting, s: RunState, id: TaskId, now: Time)
    requires DeleteTask(env, s, id, now).Ok?
    ensures Settle(env, DeleteTurn(env, s, id), now) == DeleteTask(env, s, id, now).value
  {
  }

  lemma AnswerTurnIs(env: Setting, s: RunState, id: TaskId, text: string, now: Time)
    requires AnswerTask(env, s, id, text, now).Ok?
    ensures Settle(env, AnswerTurn(env, s, id, text, now), now) == AnswerTask(env, s, id, text, now).value
  {
    if !Done(env.board, Find(s.rows, id).value) {
      MoveTurnIs(env, s, id, env.board.finished, Some(text), false, now);
    }
  }

  /** Every transaction is what is done by hand and then what the engine makes
      of it. */
  lemma TurnIs(env: Setting, s: RunState, op: Op)
    ensures Settle(env, Turn(env, s, op), TimeOf(op)) == Exec(env, s, op)
  {
    if Try(env, s, op).Ok? {
      match op {
        case Move(id, to, answer, overriding, now) => MoveTurnIs(env, s, id, to, answer, overriding, now);
        case Delete(id, now) => DeleteTurnIs(env, s, id, now);
        case Answer(id, text, now) => AnswerTurnIs(env, s, id, text, now);
        case _ =>
      }
    }
  }

  lemma HandOverIsSame(env: Setting, s: RunState, row: Row, plan: MovePlan, answer: Option<string>, now: Time)
    requires Increasing(s.rows) && Find(s.rows, row.id) == Some(row)
    ensures SameRows(s.rows, HandOver(env, s, row, plan, answer, now).s.rows)
  {
    HandOverIs(env, s, row, plan, answer, now);
    MovedRowIsOk(env, row, plan, Active(s), now);
    UpdateIsSame(s.rows, row, MovedRow(env.board, row, plan, Active(s), now));
  }

  lemma MoveTurnIsSame(
    env: Setting, s: RunState, id: TaskId, to: ColumnId, answer: Option<string>, overriding: bool, now: Time)
    requires Increasing(s.rows) && MoveTask(env, s, id, to, answer, overriding, now).Ok?
    ensures SameRows(s.rows, MoveTurn(env, s, id, to, answer, overriding, now).s.rows)
  {
    var row, plan := MoveIs(env, s, id, to, answer, overriding, now);
    HandOverIsSame(env, s, row, plan, answer, now);
  }

  lemma DeleteTurnIsSame(env: Setting, s: RunState, id: TaskId)
    requires Increasing(s.rows) && Find(s.rows, id).Some?
    ensures SameRows(s.rows, DeleteTurn(env, s, id).s.rows)
  {
    var row := Find(s.rows, id).value;
    UpdateIsSame(s.rows, row, Gone(s, row));
  }

  lemma AnswerTurnIsSame(env: Setting, s: RunState, id: TaskId, text: string, now: Time)
    requires Increasing(s.rows) && AnswerTask(env, s, id, text, now).Ok?
    ensures SameRows(s.rows, AnswerTurn(env, s, id, text, now).s.rows)
  {
    if !Done(env.board, Find(s.rows, id).value) {
      MoveTurnIsSame(env, s, id, env.board.finished, Some(text), false, now);
    }
  }

  lemma RestoreIsSame(env: Setting, s: RunState, id: TaskId)
    requires Increasing(s.rows) && RestoreTask(env, s, id).Ok?
    ensures SameRows(s.rows, RestoreTask(env, s, id).value.rows)
  {
    var row := Find(s.rows, id).value;
    var to := RestoreColumn(s.columns, row);
    UpdateIsSame(s.rows, row, row.(archived := false, column := to, finishedAt := None, skipped := false));
  }

  lemma ArchiveIsSame(env: Setting, s: RunState, id: TaskId)
    requires Increasing(s.rows) && ArchiveTask(env, s, id).Ok?
    ensures SameRows(s.rows, ArchiveTask(env, s, id).value.rows)
  {
    var row := Find(s.rows, id).value;
    UpdateIsSame(s.rows, row, row.(archived := true, archivedFrom := row.column));
  }

  /** By hand no task is made, and none loses its place. */
  lemma TurnIsSame(env: Setting, s: RunState, op: Op)
    requires Increasing(s.rows)
    ensures SameRows(s.rows, Turn(env, s, op).s.rows)
  {
    if Try(env, s, op).Ok? {
      match op {
        case Move(id, to, answer, overriding, now) => MoveTurnIsSame(env, s, id, to, answer, overriding, now);
        case Answer(id, text, now) => AnswerTurnIsSame(env, s, id, text, now);
        case Delete(id, now) => DeleteTurnIsSame(env, s, id);
        case Restore(id) => RestoreIsSame(env, s, id);
        case Archive(id) => ArchiveIsSame(env, s, id);
        case RemoveColumn(gone, to, others) => SweepIs(env, s, gone, to, others);
        case _ =>
      }
    }
  }

  /** The next iteration, if a transaction makes one. */
  predicate MakesIn(env: Setting, s: RunState, op: Op, step: Step)
  {
    var h := Turn(env, s, op);
    h.Handed? && MakesOf(env, h.s, h.event, step)
  }

  /** Every transaction keeps the groups whole, whatever it does. */
  lemma StepGroups(env: Setting, s: RunState, op: Op, i: nat)
    requires DistinctKeys(env.steps) && Increasing(s.rows)
    requires i < |env.steps| && WholeGroups(env, s.rows, env.steps[i])
    ensures var rows, step := Exec(env, s, op).rows, env.steps[i];
            WholeGroups(env, rows, step)
            && Last(env, rows, step.key) == Last(env, s.rows, step.key) + if MakesIn(env, s, op, step) then 1 else 0
  {
    var h := Turn(env, s, op);
    TurnIs(env, s, op);
    TurnIsSame(env, s, op);
    SameGroups(env, s.rows, h.s.rows, env.steps[i]);
    if h.Handed? {
      ApplyGroups(env, h.s, h.event, TimeOf(op), i);
    }
  }

  lemma StepKeepsGroups(env: Setting, s: RunState, op: Op)
    requires DistinctKeys(env.steps) && Increasing(s.rows) && GroupsOk(env, s)
    ensures GroupsOk(env, Exec(env, s, op))
  {
    forall i | 0 <= i < |env.steps| && !IsRoot(env.steps[i]) ensures WholeGroups(env, Exec(env, s, op).rows, env.steps[i]) {
      StepGroups(env, s, op, i);
    }
  }

  lemma RootHasNoGroups(env: Setting, rows: seq<Row>, step: Step)
    requires |rows| == 1 && rows[0].step == ROOT_KEY && !IsRoot(step)
    ensures WholeGroups(env, rows, step)
  {
    assert rows[..0] == [];
    assert forall j: nat :: EntriesOf(rows, step.key, j) == [];
    LastFromEntries(env, rows, step.key, 0);
  }

  lemma RootMakesGroups(env: Setting, s: RunState, now: Time, i: nat)
    requires |s.rows| == 1 && s.rows[0].step == ROOT_KEY
    requires DistinctKeys(env.steps) && i < |env.steps| && !IsRoot(env.steps[i])
    ensures WholeGroups(env, Apply(env, s, Created, now).rows, env.steps[i])
  {
    RootHasNoGroups(env, s.rows, env.steps[i]);
    ApplyGroups(env, s, Created, now, i);
  }

  lemma StartGroups(env: Setting, startAt: Option<Time>, now: Time, i: nat)
    requires DistinctKeys(env.steps) && i < |env.steps| && !IsRoot(env.steps[i])
    ensures WholeGroups(env, StartRun(env, startAt, now).rows, env.steps[i])
  {
    RootMakesGroups(env, NewRun(env, startAt, now), now, i);
  }

  /** In every state a run can reach, deletions, restores and reopened tasks
      included, each step has been made into groups 1 to n with one task for
      each of its entries, in their order. */
  lemma {:induction false} RunGroupsAreWhole(env: Setting, startAt: Option<Time>, start: Time, ops: seq<Op>)
    requires ValidSetting(env)
    ensures GroupsOk(env, ExecAll(env, StartRun(env, startAt, start), ops))
  {
    var s0 := StartRun(env, startAt, start);
    forall i | 0 <= i < |env.steps| && !IsRoot(env.steps[i])
      ensures WholeGroups(env, ExecAll(env, s0, ops).rows, env.steps[i])
    {
      if ops == [] {
        StartGroups(env, startAt, start, i);
      } else {
        var n := |ops| - 1;
        RunGroupsAreWhole(env, startAt, start, ops[..n]);
        StartIsInv(env, startAt, start);
        RunKeepsShape(env, s0, ops[..n]);
        StepGroups(env, ExecAll(env, s0, ops[..n]), ops[n], i);
      }
    }
  }
}
