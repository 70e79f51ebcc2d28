/** A run of a program: its task rows, and every operation on them as one
    transaction. The functions say what a transaction makes of a snapshot;
    RunDesk carries it out row by row, in the order the daemon does. */
module Runs {
  import opened Options
  import opened Ids
  import opened Offsets
  import opened Questions
  import opened Titles
  import opened Program
  import opened Transition

  /** A task with what the run remembers about it. */
  datatype Row = Row(
    id: TaskId,
    step: string,
    iteration: nat,
    param: Option<string>,
    counts: bool,
    limit: Option<Offset>,
    question: Option<Question>,
    pausedAt: Option<Time>,
    skipped: bool,
    asked: bool,
    answer: Option<string>,
    column: ColumnId,
    archived: bool,
    archivedFrom: ColumnId,
    finishedAt: Option<Time>,
    startAt: Option<Time>,
    dueAt: Option<Time>)

  datatype RunState = RunState(
    rows: seq<Row>,
    deps: set<(TaskId, TaskId)>,
    nextId: TaskId,
    startedAt: Option<Time>,
    finishedAt: Option<Time>,
    cancelledAt: Option<Time>,
    columns: seq<ColumnId>)

  /** What stays the same for the whole of a run. The board's columns are those
      it begins with; a column may go and others come, the roles stay. */
  datatype Setting = Setting(board: Board, zone: Zone, steps: seq<Step>, root: TaskId, column: ColumnId)

  predicate Active(s: RunState) {
    s.finishedAt.None? && s.cancelledAt.None?
  }

  predicate Done(board: Board, row: Row) {
    row.archived || row.column == board.finished
  }

  predicate Pending(row: Row) {
    row.asked && row.answer.None?
  }

  function AsTask(board: Board, row: Row): StepTask {
    StepTask(
      row.step, row.iteration, row.param, row.id, Done(board, row), row.skipped, row.counts, Pending(row))
  }

  function Tasks(board: Board, rows: seq<Row>): (r: seq<StepTask>)
    ensures |r| == |rows| && forall i :: 0 <= i < |rows| ==> r[i] == AsTask(board, rows[i])
  {
    seq(|rows|, i requires 0 <= i < |rows| => AsTask(board, rows[i]))
  }

  /** The rows after the one with this id became `row`. */
  function Update(rows: seq<Row>, id: TaskId, row: Row): (r: seq<Row>)
    ensures |r| == |rows|
    ensures forall i :: 0 <= i < |rows| ==> r[i] == if rows[i].id == id then row else rows[i]
  {
    seq(|rows|, i requires 0 <= i < |rows| => if rows[i].id == id then row else rows[i])
  }

  function Find(rows: seq<Row>, id: TaskId): (r: Option<Row>)
    ensures r.Some? ==> r.value in rows && r.value.id == id
    ensures r.None? ==> forall row :: row in rows ==> row.id != id
  {
    if rows == [] then None else if rows[0].id == id then Some(rows[0]) else Find(rows[1..], id)
  }

  function RowFor(env: Setting, c: Creation, id: TaskId, now: Time): Row
    requires c.step < |env.steps|
  {
    var step := env.steps[c.step];
    Row(
      id, step.key, c.iteration, c.param, c.counts, step.timeLimit, step.question, None, false, false, None,
      env.column, false, env.column, if env.column == env.board.finished then Some(now) else None, c.startAt, None)
  }

  predicate Known(env: Setting, create: seq<Creation>) {
    forall c :: c in create ==> c.step < |env.steps|
  }

  /** The rows a plan makes, with ids from `id` on. */
  function Made(env: Setting, create: seq<Creation>, id: TaskId, now: Time): (r: seq<Row>)
    requires Known(env, create)
    ensures |r| == |create| && forall i :: 0 <= i < |r| ==> r[i] == RowFor(env, create[i], id + i, now)
  {
    seq(|create|, i requires 0 <= i < |create| => RowFor(env, create[i], id + i, now))
  }

  function DepsOf(env: Setting, c: Creation, id: TaskId): set<(TaskId, TaskId)> {
    (set d | d in c.dependsOn :: (id, d)) + (if c.counts then {(env.root, id)} else {})
  }

  /** The dependencies a plan makes: each task on what it waits for, the root on
      each that counts. */
  function MadeDeps(env: Setting, create: seq<Creation>, id: TaskId): set<(TaskId, TaskId)> {
    if create == [] then {}
    else
      var k := |create| - 1;
      MadeDeps(env, create[..k], id) + DepsOf(env, create[k], id + k)
  }

  /** What dating some tasks makes of a row. */
  function DatedRow(ids: seq<TaskId>, row: Row, now: Time): Row {
    if row.id in ids && row.startAt.None? then row.(startAt := Some(now)) else row
  }

  function AskedRow(ask: Option<TaskId>, row: Row): Row {
    if ask == Some(row.id) then row.(asked := true) else row
  }

  function AnsweredRow(answered: Option<(TaskId, string)>, row: Row): Row {
    if answered.Some? && answered.value.0 == row.id
    then row.(asked := true, answer := Some(answered.value.1)) else row
  }

  /** What a plan does to a row that is already there, finishing the root apart. */
  function Noted(plan: Plan, row: Row, now: Time): Row {
    AnsweredRow(plan.answered, AskedRow(plan.ask, DatedRow(plan.setStart, row, now)))
  }

  /** What a plan does to a row that is already there. */
  function Touched(env: Setting, plan: Plan, row: Row, now: Time): Row {
    var noted := Noted(plan, row, now);
    if plan.finishRoot && row.id == env.root && !Done(env.board, row)
    then noted.(column := env.board.finished, finishedAt := Some(now)) else noted
  }

  function TouchedAll(env: Setting, plan: Plan, rows: seq<Row>, now: Time): (r: seq<Row>)
    ensures |r| == |rows| && forall i :: 0 <= i < |rows| ==> r[i] == Touched(env, plan, rows[i], now)
  {
    seq(|rows|, i requires 0 <= i < |rows| => Touched(env, plan, rows[i], now))
  }

  function Stamp(was: Option<Time>, now: Time): Option<Time> {
    if was.None? then Some(now) else was
  }

  /** Whether a plan moves the root to the finished column. */
  predicate FinishesRoot(env: Setting, plan: Plan, rows: seq<Row>) {
    plan.finishRoot && Find(rows, env.root).Some? && !Done(env.board, Find(rows, env.root).value)
  }

  /** A plan carried out. */
  function Enact(env: Setting, s: RunState, plan: Plan, now: Time): RunState
    requires Known(env, plan.create)
  {
    RunState(
      TouchedAll(env, plan, s.rows, now) + Made(env, plan.create, s.nextId, now),
      s.deps + MadeDeps(env, plan.create, s.nextId),
      s.nextId + |plan.create|,
      s.startedAt,
      if FinishesRoot(env, plan, s.rows) || plan.endRun then Stamp(s.finishedAt, now) else s.finishedAt,
      s.cancelledAt,
      s.columns)
  }

  function PlanOf(env: Setting, s: RunState, event: RunEvent, now: Time): Plan {
    Decide(env.steps, Tasks(env.board, s.rows), s.startedAt.Some?, event, now, env.zone)
  }

  lemma CreationsAreKnown(
    steps: seq<Step>, n: nat, tasks: seq<StepTask>, reading: Reading, started: bool, now: Time, zone: Zone)
    requires n <= |steps|
    ensures forall c :: c in Creations(steps, n, tasks, reading, started, now, zone) ==> c.step < n
  {
  }

  lemma PlanIsKnown(env: Setting, s: RunState, event: RunEvent, now: Time)
    ensures Known(env, PlanOf(env, s, event, now).create)
  {
    var tasks := Tasks(env.board, s.rows);
    CreationsAreKnown(
      env.steps, |env.steps|, tasks, Read(env.steps, tasks, event), s.startedAt.Some? || event.RootStarts?, now,
      env.zone);
  }

  /** What an event does to a run: the engine decides, the plan is enacted. */
  function Apply(env: Setting, s: RunState, event: RunEvent, now: Time): RunState {
    PlanIsKnown(env, s, event, now);
    Enact(env, s, PlanOf(env, s, event, now), now)
  }

  // Moves.

  /** What a move makes of the due date of a task with a time limit. The outer
      None leaves it as it is, the inner one takes it away; from paused back to
      started it is put off by the length of the pause. */
  function NewDue(board: Board, row: Row, from: ColumnId, to: ColumnId, now: Time): Option<Option<Time>> {
    if row.limit.None? then None
    else if to == board.started then
      if from == board.paused && row.pausedAt.Some? && row.dueAt.Some?
      then Some(Some(row.dueAt.value + (now - row.pausedAt.value)))
      else if row.dueAt.None? then Some(After(row.limit.value, now))
      else None
    else if to != board.paused && to != board.finished && row.dueAt.Some? then Some(None)
    else None
  }

  /** What a move does to the row that moves, the run's bookkeeping included. */
  function MovedRow(board: Board, row: Row, plan: MovePlan, active: bool, now: Time): Row {
    var moved := row.(column := plan.to, finishedAt := plan.finishedAt);
    if !active || plan.from == plan.to then moved
    else
      var due := NewDue(board, row, plan.from, plan.to, now);
      moved.(
        dueAt := if due.Some? then due.value else row.dueAt,
        pausedAt := if plan.to == board.paused then Some(now) else None)
  }

  /** The event a move is for the run, if any. */
  function MoveEvent(env: Setting, s: RunState, row: Row, to: ColumnId, answer: Option<string>): Option<RunEvent> {
    if to == env.board.started && row.step == ROOT_KEY && s.startedAt.None? then Some(RootStarts)
    else if to == env.board.finished then Some(Finishes(row.id, answer))
    else None
  }

  /** Dependencies of a task that are neither finished nor archived, oldest first. */
  function OpenDeps(board: Board, rows: seq<Row>, deps: set<(TaskId, TaskId)>, id: TaskId): seq<TaskId> {
    if rows == [] then []
    else
      var k := |rows| - 1;
      OpenDeps(board, rows[..k], deps, id)
      + (if (id, rows[k].id) in deps && !Done(board, rows[k]) then [rows[k].id] else [])
  }

  datatype Refusal =
    | NoSuchTask
    | CannotMove(error: MoveError)
    | AlreadyArchived
    | NotArchived
    | NoQuestion
    | NotAnAnswer
    | RunIsOver
    | AlreadyAnswered
    | NotFinished
    | NoColumns
    | NoColumnForTasks
    | BadTitle(fault: TitleError)
    | NoRootStep
    | CannotRemove(columnError: ColumnError)
    | BadColumns

  /** The state a move hands to the engine, and the event it hands it. */
  datatype Handed = Handed(s: RunState, event: RunEvent) | Kept(s: RunState)

  function HandOver(
    env: Setting, s: RunState, row: Row, plan: MovePlan, answer: Option<string>, now: Time): Handed
  {
    var s1 := s.(rows := Update(s.rows, row.id, MovedRow(env.board, row, plan, Active(s), now)));
    if plan.from == plan.to || !Active(s) then Kept(s1)
    else
      match MoveEvent(env, s, row, plan.to, answer)
      case None => Kept(s1)
      case Some(event) => Handed(if event.RootStarts? then s1.(startedAt := Some(now)) else s1, event)
  }

  function Settle(env: Setting, h: Handed, now: Time): RunState {
    match h
    case Kept(s) => s
    case Handed(s, event) => Apply(env, s, event, now)
  }

  /** The board as it is now. */
  function BoardOf(env: Setting, s: RunState): Board {
    env.board.(columns := s.columns)
  }

  /** Why the tasks of a plan cannot be made, if they cannot: each is checked for
      its title and then put in the run's own column, in turn. */
  function Obstacle(env: Setting, columns: seq<ColumnId>, create: seq<Creation>): (r: Option<Refusal>)
    requires Known(env, create)
    ensures r.None? <==> Makeable(env, columns, create)
  {
    if create == [] then None
    else
      var fault := FaultOf(env, create[0]);
      if fault.Some? then Some(BadTitle(fault.value))
      else if env.column !in columns then Some(NoColumnForTasks)
      else
        assert create == [create[0]] + create[1..];
        Obstacle(env, columns, create[1..])
  }

  function FaultOf(env: Setting, c: Creation): Option<TitleError>
    requires c.step < |env.steps|
  {
    Fault(Filled(env.steps[c.step].title, c.param))
  }

  /** The run's column is there, and every title is one a task may have. */
  predicate Makeable(env: Setting, columns: seq<ColumnId>, create: seq<Creation>)
    requires Known(env, create)
  {
    create != [] ==> env.column in columns && forall c :: c in create ==> FaultOf(env, c).None?
  }

  /** Why an event is refused, if it is. */
  function Trouble(env: Setting, s: RunState, event: RunEvent, now: Time): Option<Refusal> {
    PlanIsKnown(env, s, event, now);
    Obstacle(env, s.columns, PlanOf(env, s, event, now).create)
  }

  /** Whether the tasks an event makes can be made. */
  predicate CanMake(env: Setting, s: RunState, event: RunEvent, now: Time) {
    Trouble(env, s, event, now).None?
  }

  predicate CanSettle(env: Setting, h: Handed, now: Time) {
    h.Handed? ==> CanMake(env, h.s, h.event, now)
  }

  /** What a transaction comes to; it fails as a whole when it has to make a task
      that cannot be made. */
  function Outcome(env: Setting, h: Handed, now: Time): Result<RunState, Refusal> {
    if CanSettle(env, h, now) then Ok(Settle(env, h, now)) else Err(Trouble(env, h.s, h.event, now).value)
  }

  /** Decide a move of a row of the run; only the finished column asks for its
      open dependencies. */
  function PlanFor(env: Setting, s: RunState, row: Row, to: ColumnId, overriding: bool, now: Time)
    : Result<MovePlan, MoveError>
  {
    var open := if to == env.board.finished then OpenDeps(env.board, s.rows, s.deps, row.id) else [];
    PlanMove(BoardOf(env, s), row.archived, row.column, row.finishedAt, to, open, overriding, now)
  }

  function MoveTask(
    env: Setting, s: RunState, id: TaskId, to: ColumnId, answer: Option<string>, overriding: bool, now: Time)
    : Result<RunState, Refusal>
  {
    match Find(s.rows, id)
    case None => Err(NoSuchTask)
    case Some(row) =>
      match PlanFor(env, s, row, to, overriding, now)
      case Err(e) => Err(CannotMove(e))
      case Ok(plan) => Outcome(env, HandOver(env, s, row, plan, answer, now), now)
  }

  function DeleteTask(env: Setting, s: RunState, id: TaskId, now: Time): Result<RunState, Refusal> {
    match Find(s.rows, id)
    case None => Err(NoSuchTask)
    case Some(row) =>
      if row.archived then Err(AlreadyArchived)
      else
        var gone := row.(archived := true, archivedFrom := row.column, skipped := row.skipped || Active(s));
        var s1 := s.(rows := Update(s.rows, id, gone));
        if Active(s) then Outcome(env, Handed(s1, Deleted(id)), now) else Ok(s1)
  }

  /** The column a task comes back to: the one it left, if the board still has
      it, and otherwise the leftmost. */
  function RestoreColumn(columns: seq<ColumnId>, row: Row): ColumnId
    requires columns != []
  {
    if row.archivedFrom in columns then row.archivedFrom else columns[0]
  }

  function RestoreTask(env: Setting, s: RunState, id: TaskId): Result<RunState, Refusal> {
    match Find(s.rows, id)
    case None => Err(NoSuchTask)
    case Some(row) =>
      if !row.archived then Err(NotArchived)
      else if s.columns == [] then Err(NoColumns)
      else
        var to := RestoreColumn(s.columns, row);
        var back := row.(archived := false, column := to, finishedAt := None, skipped := false);
        Ok(s.(rows := Update(s.rows, id, back)))
  }

  /** The scheduler putting a finished task away; only a finish date starts its
      clock. */
  function ArchiveTask(env: Setting, s: RunState, id: TaskId): Result<RunState, Refusal> {
    match Find(s.rows, id)
    case None => Err(NoSuchTask)
    case Some(row) =>
      if row.archived then Err(AlreadyArchived)
      else if row.column != env.board.finished || row.finishedAt.None? then Err(NotFinished)
      else Ok(s.(rows := Update(s.rows, id, row.(archived := true, archivedFrom := row.column))))
  }

  /** A text as the answer to a task's question. With the task still open it is a
      move to the finished column; with it done, an event by itself. */
  function AnswerTask(env: Setting, s: RunState, id: TaskId, text: string, now: Time): Result<RunState, Refusal> {
    match Find(s.rows, id)
    case None => Err(NoSuchTask)
    case Some(row) =>
      match row.question
      case None => Err(NoQuestion)
      case Some(q) =>
        match Canonical(q, text)
        case None => Err(NotAnAnswer)
        case Some(a) =>
          if !Done(env.board, row) then MoveTask(env, s, id, env.board.finished, Some(text), false, now)
          else if !Active(s) then Err(RunIsOver)
          else if !Pending(row) then Err(AlreadyAnswered)
          else Outcome(env, Handed(s, IsAnswered(id, a)), now)
  }

  function CancelRun(env: Setting, s: RunState, deleteOpen: bool, now: Time): Result<RunState, Refusal> {
    if !Active(s) then Err(RunIsOver)
    else
      Ok(s.(
        cancelledAt := Some(now),
        rows := if deleteOpen then AllPutAway(env.board, s.rows) else s.rows))
  }

  /** A task that is not done goes to the archive. */
  function PutAway(board: Board, row: Row): Row {
    if Done(board, row) then row else row.(archived := true, archivedFrom := row.column)
  }

  function AllPutAway(board: Board, rows: seq<Row>): (r: seq<Row>)
    ensures |r| == |rows| && forall i :: 0 <= i < |rows| ==> r[i] == PutAway(board, rows[i])
  {
    seq(|rows|, i requires 0 <= i < |rows| => PutAway(board, rows[i]))
  }

  /** The rows after everything in one column was put in another. */
  function Swept(rows: seq<Row>, gone: ColumnId, to: ColumnId): (r: seq<Row>)
    ensures |r| == |rows|
    ensures forall i :: 0 <= i < |rows| ==>
              r[i] == if rows[i].column == gone then rows[i].(column := to) else rows[i]
  {
    seq(|rows|, i requires 0 <= i < |rows| => if rows[i].column == gone then rows[i].(column := to) else rows[i])
  }

  predicate Occupied(rows: seq<Row>, column: ColumnId) {
    exists row :: row in rows && row.column == column
  }

  /** A column goes, and what sits in it, archived or not, goes to another. No
      run is told. `others` is whether tasks of no run, or of another, sit there. */
  function RemoveColumnOf(env: Setting, s: RunState, gone: ColumnId, to: Option<ColumnId>, others: bool)
    : Result<RunState, Refusal>
  {
    var hasTasks := others || Occupied(s.rows, gone);
    match PlanRemoval(BoardOf(env, s), gone, hasTasks, to)
    case Err(e) => Err(CannotRemove(e))
    case Ok(moved) =>
      Ok(s.(
        rows := if moved.Some? then Swept(s.rows, gone, moved.value) else s.rows,
        columns := Remaining(s.columns, gone)))
  }

  /** The root task of a new run. */
  function RootRow(env: Setting, startAt: Option<Time>, now: Time): Row {
    var limit := match FindStep(env.steps, ROOT_KEY) { case Some(s) => s.timeLimit case None => None };
    Row(
      env.root, ROOT_KEY, 1, None, false, limit, None, None, false, false, None, env.column, false, env.column,
      if env.column == env.board.finished then Some(now) else None, startAt, None)
  }

  /** Why a run cannot be started, if it cannot: its root, or a task that comes
      with it, cannot be made. */
  function StartTrouble(env: Setting, startAt: Option<Time>, now: Time): Option<Refusal> {
    match FindStep(env.steps, ROOT_KEY)
    case None => Some(NoRootStep)
    case Some(root) =>
      match Fault(Filled(root.title, None))
      case Some(fault) => Some(BadTitle(fault))
      case None =>
        if env.column !in env.board.columns then Some(NoColumnForTasks)
        else Trouble(env, NewRun(env, startAt, now), Created, now)
  }

  predicate CanStart(env: Setting, startAt: Option<Time>, now: Time) {
    StartTrouble(env, startAt, now).None?
  }

  /** A run just started, if it can be: its root, and everything that comes with it. */
  function StartRun(env: Setting, startAt: Option<Time>, now: Time): RunState {
    Apply(env, NewRun(env, startAt, now), Created, now)
  }

  /** Before anything comes with the root. */
  function NewRun(env: Setting, startAt: Option<Time>, now: Time): RunState {
    RunState([RootRow(env, startAt, now)], {}, env.root + 1, None, None, None, env.board.columns)
  }

  /** Everything that can happen to a run as its tasks and its board are worked
      on. Tasks made elsewhere take ids too. */
  datatype Op =
    | Move(id: TaskId, to: ColumnId, answer: Option<string>, overriding: bool, now: Time)
    | Delete(id: TaskId, now: Time)
    | Restore(id: TaskId)
    | Archive(id: TaskId)
    | Answer(id: TaskId, text: string, now: Time)
    | Cancel(deleteOpen: bool, now: Time)
    | MadeElsewhere
    | RemoveColumn(gone: ColumnId, moveTo: Option<ColumnId>, others: bool)
    | AddColumn(column: ColumnId)
    | ReorderColumns(order: seq<ColumnId>)

  function Try(env: Setting, s: RunState, op: Op): Result<RunState, Refusal> {
    match op
    case Move(id, to, answer, overriding, now) => MoveTask(env, s, id, to, answer, overriding, now)
    case Delete(id, now) => DeleteTask(env, s, id, now)
    case Restore(id) => RestoreTask(env, s, id)
    case Archive(id) => ArchiveTask(env, s, id)
    case Answer(id, text, now) => AnswerTask(env, s, id, text, now)
    case Cancel(deleteOpen, now) => CancelRun(env, s, deleteOpen, now)
    case MadeElsewhere => Ok(s.(nextId := s.nextId + 1))
    case RemoveColumn(gone, to, others) => RemoveColumnOf(env, s, gone, to, others)
    case AddColumn(column) => if column in s.columns then Err(BadColumns) else Ok(s.(columns := s.columns + [column]))
    case ReorderColumns(order) =>
      if multiset(order) != multiset(s.columns) then Err(BadColumns) else Ok(s.(columns := order))
  }

  /** One transaction; what is refused changes nothing. */
  function Exec(env: Setting, s: RunState, op: Op): RunState {
    match Try(env, s, op)
    case Ok(s') => s'
    case Err(_) => s
  }

  function ExecAll(env: Setting, s: RunState, ops: seq<Op>): RunState {
    if ops == [] then s
    else Exec(env, ExecAll(env, s, ops[..|ops| - 1]), ops[|ops| - 1])
  }
}
