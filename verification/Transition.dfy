/** What moving a task between columns means. */
module Transition {
  import opened Options
  import opened Ids
  import opened Offsets
  import opened Barcode

  type ColumnId = int

  /** The columns of a board and the three with a role. */
  datatype Board = Board(started: ColumnId, paused: ColumnId, finished: ColumnId, columns: seq<ColumnId>)

  datatype MovePlan = MovePlan(from: ColumnId, to: ColumnId, finishedAt: Option<Time>, overrode: seq<TaskId>)

  datatype MoveError =
    | UnknownColumn(column: ColumnId)
    | TaskArchived
    | BlockedByDependencies(open: seq<TaskId>)

  /** Decide a move of a task that sits in `from`; `open` are its dependencies
      that are not done. */
  function PlanMove(
    board: Board, archived: bool, from: ColumnId, finishedAt: Option<Time>, to: ColumnId, open: seq<TaskId>,
    overriding: bool, now: Time): Result<MovePlan, MoveError>
  {
    if archived then Err(TaskArchived)
    else if to !in board.columns then Err(UnknownColumn(to))
    else
      var entering := to == board.finished && from != board.finished;
      var leaving := from == board.finished && to != board.finished;
      if entering && open != [] && !overriding then Err(BlockedByDependencies(open))
      else
        Ok(MovePlan(
          from, to,
          if entering then Some(now) else if leaving then None else finishedAt,
          if entering then open else []))
  }

  datatype ColumnError =
    | NotAColumn(column: ColumnId)
    | LastColumn
    | TasksNeedDestination
    | DestinationIsRemoved
    | HasARole(column: ColumnId)

  /** Decide the removal of a column, its roles not given to any other: where
      its tasks go, if it has any. */
  function PlanRemoval(board: Board, column: ColumnId, hasTasks: bool, to: Option<ColumnId>)
    : Result<Option<ColumnId>, ColumnError>
  {
    if column !in board.columns then Err(NotAColumn(column))
    else if |board.columns| <= 1 then Err(LastColumn)
    else if hasTasks && to.None? then Err(TasksNeedDestination)
    else if to == Some(column) then Err(DestinationIsRemoved)
    else if to.Some? && to.value !in board.columns then Err(NotAColumn(to.value))
    else if column == board.started || column == board.paused || column == board.finished then Err(HasARole(column))
    else Ok(if hasTasks then to else None)
  }

  /** The columns left when one goes. */
  function Remaining(columns: seq<ColumnId>, gone: ColumnId): (r: seq<ColumnId>)
    ensures forall c :: c in r <==> c in columns && c != gone
  {
    if columns == [] then []
    else
      assert columns == [columns[0]] + columns[1..];
      (if columns[0] == gone then [] else [columns[0]]) + Remaining(columns[1..], gone)
  }

  datatype ScanRefusal = AlreadyFinished | Archived

  /** The column a scan wants a task in; the move itself is still planned. */
  function ScanTarget(action: ScanAction, board: Board, archived: bool, column: ColumnId): Result<ColumnId, ScanRefusal> {
    if archived then Err(Archived)
    else if column == board.finished then Err(AlreadyFinished)
    else if action.StartPause? then Ok(if column == board.started then board.paused else board.started)
    else Ok(board.finished)
  }

  /** With three different role columns a scan never asks for the column a task
      is in, and two start and pause scans in a row bring a started task back
      to the started column. */
  lemma ScanAlwaysMoves(action: ScanAction, board: Board, column: ColumnId)
    requires board.started != board.paused && board.started != board.finished && board.paused != board.finished
    ensures match ScanTarget(action, board, false, column)
            case Ok(to) => to != column && column != board.finished && (to == board.finished <==> !action.StartPause?)
            case Err(_) => column == board.finished
    ensures ScanTarget(action, board, true, column) == Err(Archived)
    ensures column != board.finished ==>
              var first := ScanTarget(StartPause, board, false, column).value;
              ScanTarget(StartPause, board, false, first)
              == Ok(if column == board.started then board.started else board.paused)
  {
  }

  /** When a finished task goes to the archive by itself, if the clock runs. */
  function ArchiveDueAt(board: Board, archived: bool, column: ColumnId, finishedAt: Option<Time>, after: nat): Option<Time> {
    if archived || column != board.finished || finishedAt.None? then None
    else if finishedAt.value + after > MAX_TIME then None
    else Some(finishedAt.value + after)
  }
}
