# taskologic, modelled and proved

A Dafny model of the parts of taskologic where the work is done: the engine
that runs programs of tasks, the way from a printed code through a scanner to
a command, the graph searches on dependencies and templates, and the loops
that count time, lay out paper and print slips. `dafny verify dfyconfig.toml`
checks all of it.

Objects the code updates in place are classes here (the keystroke detector,
a run's rows, the template walk, the canvas, the module grid, the sent table),
each method proved against a function on values; the properties are lemmas
about those functions, over all inputs, all runs or all interleavings.

- **Programs.** `Program` is the engine's decision, `Runs` a run's rows and
  every operation on them as one transaction, `RunDesk` the daemon carrying it
  out row by row, `RunStart` what it does to the steps first, `Titles` what a
  new task may be called. `RunInvariants`, `RunProgress`, `RunSettled`,
  `RunStuck`, `RunDeps`, `RunGroups`, `RunFanOut` and `RunStamps` prove what
  reachable states keep, `RunRefusals` which events are refused. `EngineTells`,
  `RunMade`, `RunRows`, `RunMoves`, `RunDates` and `RunBoard` tell what an event
  makes, what each operation does to each task and when it is refused, without the
  functions it is computed by. `ProgramCheck`
  and `Questions` are the checks on saving, and `StepTrails`, `RunReach`,
  `RunTraces`, `RunTriggers`, `SavedTriggers` and `DeadTriggers` tell which saved
  triggers can ever fire.
- **Codes.** `Ids`, `Checksum`, `Barcode`, `Controls`, `ControlTrip`,
  `ControlReads` and `ControlFrames` print and parse; `Detector` is the keystroke
  automaton, `DetectorLedger` accounts for every key over whole runs,
  `DetectorClock` says what goes stale and when, `ScanPipeline` goes from paper to
  dispatch.
- **Graphs.** `Graph`, `Deps`, `Templates`.
- **Time, paper, slips.** `Stats`, `TimeLimit`, `Calendar`, `Repeat`,
  `Occurrences`, `Layout`, `Bits`, `Bitmap`, `Symbology`, `Slips`.

## Where the code does less than it says

Each of these is proved with a concrete case or an exact condition.

- A run can get stuck. Asking a question does not forget an old answer, so a
  task that was answered, taken out of the finished column and finished again
  without an answer waits for nobody; if it was the last task the root waited
  for, the run stays active with nothing open (`RunStuck.ARunGetsStuck`). And
  removing a column moves its tasks, perhaps into the finished column, without
  the engine hearing of it: the last open tasks can go that way
  (`RunStuck.ASweptRunGetsStuck`). `RunProgress.StepProgress` shows that these
  are the only two, and `RunSettled.RunNeverStuck` that runs in which no
  finished task is taken out again stick exactly by such a removal.
- The same removal can put an active run's root among the finished tasks
  (`RunInvariants.StepKeepsInv`); the run then never closes by itself
  (`RunProgress.SweptRootStaysActive`).
- A finish is refused as a whole when a step it sets off cannot be made: the
  column the run makes its tasks in is gone, or a title is too long once the
  fan-out entry is in it. `RunRefusals.FinishIsRefused` tells exactly when;
  without the column no transaction makes a task
  (`RunInvariants.NoColumnNoTasks`).
- A task restored into the finished column, or swept into it, has no finish date
  and is never archived (`RunStamps.StepKeepsStamps`,
  `RunStamps.RestoredIsNeverDue`, `RunStamps.SweptIsNeverDue`).
- A saved trigger may never fire, and a saved program may never start a run.
  The check on saving ignores blanks around a step key and an answer, the engine
  does not; it sees a title without the fan-out entry a task's title gets; steps
  may wait for each other in a circle; and steps that only come with the root's
  start are lost if nothing then counts. `RunTriggers.TriggerFires` is the exact
  condition for the steps of a run, `SavedTriggers.SavedTriggerFires` for a saved
  program with its fan-out lists narrowed as one likes, both over the steps
  alone. `DeadTriggers.BlankBeforeNeverFires`, `DeadTriggers.LongTitleNeverFires`,
  `DeadTriggers.MutualNeverFires` and `DeadTriggers.NothingCountsNeverFires` are
  four programs, and `DeadTriggers.LongStartNeverStarts` is one of which no run
  can be started.
- The check character does not catch every adjacent swap, as
  `crates/taskologic-core/src/barcode.rs:27-29` has it: it misses one exactly
  when the running checks are 18 and 19
  (`Checksum.SwapIsMissedExactlyAt18And19`, `Barcode.SwappedIdsBothScan`).
- Not every command list survives printing: a slash key, text before another
  command, a function key pressed several times or a number out of range does
  not (`ControlFrames.CommandsRoundTrip`, `ControlTrip.OneRoundTrips`), nor a
  body with two dashes in a row or one at its end (`ScanPipeline.FrameIsCut`).
- The code documents CODE128 for every key and every free text
  (`crates/taskologic-core/src/control.rs:786-788`), but they go out as CODE39
  whenever that has the characters and fits
  (`ControlFrames.Code39IsForWhatItCarries`, `ControlFrames.KeyGoesOutAsCode39`).
- How long a scan took is right for a task code, but a frame is always said to have
  taken no time, and a code refused for its version leaves what was said before
  (`DetectorClock.DurationIs`).
- A canvas with columns and no rows loses its width in a quarter turn, so four
  of them do not give it back (`Bitmap.FourQuarterTurns`, `Bitmap.WidthIsLost`).
- Fan-out groups made by one event share a sent key, so a person gets a sheet
  for each that names them exactly when at most one does
  (`Slips.SheetForEachGroup`).
- The last December of the calendar, and no other month, is taken for too short,
  28 days (`Repeat.OneMonthIsShort`); the 31st falls on the 28th there
  (`Repeat.LastDayComesEarly`).

## Model

| member | source | states |
|---|---|---|
| `Program.React` | crates/taskologic-core/src/program.rs:610-785 | the engine's loops over the fired triggers and the steps compute exactly the plan the specification gives an event: what is made, dated, asked, answered, finished or ended |
| `Program.Collect` | crates/taskologic-core/src/program.rs:622-703 | what an event fires, the task new ones wait for, the answer it records or leaves open, and whether it ends the run; a finish is fired only when no other task of the group is open, a default answers at once |
| `Program.CollectFinish` | crates/taskologic-core/src/program.rs:636-675 | the same for a finish alone, on the task found by its id |
| `Program.MakeTasks` | crates/taskologic-core/src/program.rs:712-751 | one group of tasks for every triggered step that may appear, in the order of the steps |
| `Program.MakeGroup` | crates/taskologic-core/src/program.rs:740-749 | one task for each entry of a step, all of the next iteration and waiting for the same tasks |
| `Program.CollectWaits` | crates/taskologic-core/src/program.rs:723-733 | the trigger first, then the latest unskipped task of each step also waited for, adjacent repeats dropped; which these are is told by `EngineTells.WaitsAreTold` |
| `Program.LastIteration` | crates/taskologic-core/src/program.rs:722-722 | the result bounds every iteration of the step and, unless zero, is one of them |
| `EngineTells.FiredIsSetOff` | crates/taskologic-core/src/program.rs:622-703 | which triggers an event sets off, told by the tasks: the root's making and start; a finish when every other task of the group is done or skipped; an answer given, or the question's default, or given later, and recognised but for case and blanks |
| `EngineTells.MakesIs` | crates/taskologic-core/src/program.rs:712-721 | an event makes a step exactly if it is not the root, one of its triggers is set off, and, for a step that runs once, every task of it there is was skipped |
| `EngineTells.WaitsAreTold` | crates/taskologic-core/src/program.rs:723-733 | a new task waits for the task the event is about and, of each step it comes after, for the unskipped task no other has a greater iteration than, the last among equals; and for nothing else |
| `EngineTells.CreationIsTold` | crates/taskologic-core/src/program.rs:722-749 | a new task is of the iteration after the last, for an entry of its step, and has a start date exactly as its rule says: none, now if the root has started, the offset later within the calendar, or what the zone makes of it |
| `EngineTells.AskIsTold` | crates/taskologic-core/src/program.rs:657-703 | a question is left open exactly by a finish without an answer it recognises and without a default, and answered exactly by one that it does |
| `RunDesk.Run.Apply` | crates/taskologicd/src/programs.rs:313-461 | asking the engine and writing its plan row by row leaves exactly the state the transaction function gives; or it is refused, with the reason, when a task it has to make cannot be made |
| `RunDesk.Run.Enact` | crates/taskologicd/src/programs.rs:336-461 | a plan carried out in order (make, date, ask, answer, finish the root, end the run) is the plan enacted at once on the rows there were, unless its tasks cannot be made |
| `RunDesk.Run.CreateTasks` | crates/taskologicd/src/programs.rs:336-369 | new rows with growing ids, their dependencies, and the root waiting for those that count; it stops at the first whose title is empty or too long, or at the first of all when the run's column is gone, with that reason |
| `RunDesk.Run.CheckTask` | crates/taskologicd/src/db/repo.rs:811-813 | a new task is refused for its title, the entry filled in, and then for a column that is gone; the people on the board apart |
| `RunDesk.Run.DateTasks` | crates/taskologicd/src/programs.rs:407-427 | exactly the named tasks that have no start date get one |
| `RunDesk.Run.TouchTasks` | crates/taskologicd/src/programs.rs:407-445 | dating, asking and answering, each on its own rows and no other |
| `RunDesk.Run.FinishRoot` | crates/taskologicd/src/programs.rs:446-456 | a root not yet done goes to the finished column without an open dependency being asked for, and closes the run; nothing else changes |
| `RunDesk.Run.CloseUp` | crates/taskologicd/src/programs.rs:446-460 | the root and the run's end after a plan, both ways of closing |
| `RunDesk.Run.AfterMove` | crates/taskologicd/src/programs.rs:127-203 | the time limit, the pause mark and the event a move hands the engine, together the move's specification |
| `RunDesk.Run.TimeLimit` | crates/taskologicd/src/programs.rs:145-183 | the due date and pause mark of the moved row, written one after the other, are those of the specification |
| `RunDesk.Run.OpenDeps` | crates/taskologicd/src/db/repo.rs:979-986 | the dependencies that are neither finished nor archived, oldest first |
| `RunDesk.Run.Move` | crates/taskologicd/src/handlers.rs:1527-1563 | a move and everything it sets off, refusals included, all or nothing; when it is refused is told by `RunMoves.MoveIsTold` |
| `RunDesk.Run.RemoveColumn` | crates/taskologicd/src/handlers.rs:239-265 | a column without a role goes, or stays with the reason; every row in it, archived or not, is put in the destination and nothing else about it changes; the engine is not asked |
| `RunDesk.Run.Delete` | crates/taskologicd/src/handlers.rs:540-560 | a deletion and what it sets off; the step is skipped only while the run is going |
| `RunDesk.Run.AfterDelete` | crates/taskologicd/src/programs.rs:207-218 | after a deletion a live run skips the step and hears of it, a closed one is left alone |
| `RunDesk.Run.Restore` | crates/taskologicd/src/handlers.rs:600-618 | a restored task is open, unskipped and in a column that exists; the engine hears nothing |
| `RunDesk.Run.Archive` | crates/taskologicd/src/db/repo.rs:945-951 | the scheduler's archiving of a finished task that has a finish date |
| `RunDesk.Run.Answer` | crates/taskologicd/src/handlers.rs:1475-1508 | an answer to an open task moves it to the finished column, one to a done task that is pending is handed to the engine, and every refusal comes with its reason, in order |
| `RunDesk.Run.Cancel` | crates/taskologicd/src/programs.rs:268-304 | the run is cancelled and, when asked, exactly the open tasks go to the archive |
| `RunDesk.Run.constructor` | crates/taskologicd/src/programs.rs:105-112 | a new run has its root and nothing else |
| `RunDesk.Run.Start` | crates/taskologicd/src/programs.rs:105-122 | a run is its root and everything made with it, and meets the invariant; or no run is started, for want of a root step, of the column, or of a title that fits, whichever comes first |
| `RunMade.NewTaskIsTold` | crates/taskologicd/src/programs.rs:336-369 | every task an event adds to a run is of a step it makes, in the run's column, dated by its rule, and the pairs of dependencies it is in are exactly the trigger, the latest unskipped task of each step it comes after, and the root if it counts |
| `RunMade.OwedIsMade` | crates/taskologic-core/src/program.rs:740-749 | of every step an event makes, a task is added for each entry |
| `RunMade.OldWaitsStay` | crates/taskologicd/src/programs.rs:363-366 | an event changes nothing about what a task that was there waits for |
| `RunRows.OpOnRow` | crates/taskologicd/src/programs.rs:127-304 | every operation on every task: moved with its finish date, due date and pause mark as they follow from the two columns, put away, put back or swept, and all others left alone; then dated, asked or answered by the engine, which moves none but an open root |
| `RunMoves.MoveIsTold` | crates/taskologic-core/src/transition.rs:39-92 | why a move is refused, in order: no such task, in the archive, no such column, or finished unasked while it waits for something; else only by what it would have to make |
| `RunMoves.FinishWaits` | crates/taskologic-core/src/transition.rs:57-65 | an open task is refused the finished column for its dependencies exactly if it waits for something neither finished nor archived and nobody overrides that; the refusal lists just these, oldest first, and the run is unchanged |
| `RunMoves.AnswerWaits` | crates/taskologicd/src/handlers.rs:1475-1508 | as long as an open task waits for something, answering it is refused too |
| `RunMoves.MoveMovesOne` | crates/taskologic-core/src/transition.rs:67-92 | a move puts that task in that column, its finish date given, taken or kept, and moves no other but a root the run finishes |
| `RunDates.EngineHears` | crates/taskologicd/src/programs.rs:127-263 | of each operation the engine hears exactly the root's first start, an arrival in the finished column with what was said, a deletion, or a late answer, and only while the run is live |
| `RunDates.StartDatesAreTold` | crates/taskologic-core/src/program.rs:753-764 | the root's first start dates exactly the open, unskipped and undated tasks that go by it, with that moment; nothing else changes a start date |
| `RunDates.MarksAreTold` | crates/taskologicd/src/programs.rs:127-304 | a run is marked as started by the root's first start, as cancelled by that alone, and as finished only by an event the engine hears, with that moment and once |
| `RunDates.RootIsMade` | crates/taskologicd/src/programs.rs:105-113 | a run begins with its root in the run's column, with the start date it was given and its step's time limit, neither started nor over |
| `RunBoard.NoTaskIsLost` | crates/taskologic-core/src/board.rs:226-270 | at every moment of a run every task, archived or not, is in a column the board has, whatever columns were removed |
| `RunBoard.RemovalGoesThrough` | crates/taskologic-core/src/board.rs:226-270 | a column goes exactly if the board has it, it has no role, and what sits in it has another of the board's columns to go to; one that is named must be such a column |
| `RunBoard.RestoredWhereItWas` | crates/taskologic-core/src/transition.rs:135-140 | put away and restored any time later, whatever happened in between, a task is back in the column it left if the board still has it, else in the first; undated and part of its run again |
| `RunBoard.OnlyWorkIsDue` | crates/taskologicd/src/programs.rs:145-183 | at every moment of a live run a due date goes with a time limit and a task that is started, paused or finished, or was when put away: moved anywhere else it has lost it |
| `RunStart.Narrow` | crates/taskologicd/src/programs.rs:84-104 | the steps after one narrowing and the next, or the first refusal |
| `RunStart.NarrowedIs` | crates/taskologicd/src/programs.rs:84-104 | the lists are taken exactly when each is for a step that fans out and has an entry that is not blank; then every step is as it was but for its list, which is the last one asked for, trimmed and without blanks |
| `RunStart.NarrowedIsValid` | crates/taskologicd/src/programs.rs:84-104 | narrowing leaves the steps fit for a run |
| `RunStart.EntriesInTurn` | crates/taskologicd/src/programs.rs:91-95 | the entries of a narrowed list are those asked for, trimmed, one after the other, blank ones left out |
| `Titles.EveryPlaceIsFilled` | crates/taskologic-core/src/program.rs:809-816 | filling a title puts the entry in place of every placeholder and leaves the parts between them as they are |
| `Text.TrimTakesBlanks` | crates/taskologic-core/src/task.rs:183-184 | trimming takes blanks off both ends and nothing else |
| `Titles.RoomIsExact` | crates/taskologic-core/src/program.rs:809-816 | a title leaves room for some entry exactly when it has the placeholder or at most 198 characters |
| `RunInvariants.StepKeepsInv` | crates/taskologicd/src/programs.rs:313-461 | every operation, column removals included, keeps the root first, ids growing, each row's question and count its step's and no skipped row outside the archive; it keeps an active run's root open exactly unless it is a removal that sweeps the root into the finished column |
| `RunInvariants.RunKeepsInv` | crates/taskologicd/src/programs.rs:127-304 | so over whole runs without such a sweep an active run's root is open at every moment |
| `RunInvariants.StartIsInv` | crates/taskologicd/src/programs.rs:73-122 | the invariant holds when a run starts |
| `RunInvariants.RootEventEndsRun` | crates/taskologic-core/src/program.rs:637-640 | an event ends the run exactly when it finishes or deletes the root |
| `RunInvariants.PlanNamesRows` | crates/taskologic-core/src/program.rs:753-764 | a plan dates, asks and answers only tasks that exist, and never asks and answers at once |
| `RunInvariants.ApplyKeepsRootAlive` | crates/taskologicd/src/programs.rs:446-460 | a run whose root is done is over by the end of the transaction |
| `RunInvariants.NoColumnNoTasks` | crates/taskologicd/src/programs.rs:336-349 | once the column a run makes its tasks in is removed, no transaction makes a task |
| `RunRefusals.MakeableIs` | crates/taskologicd/src/db/repo.rs:811-813 | an event goes through exactly when every step that it makes has titles that fit for each entry, and the column is there |
| `RunRefusals.FinishIsRefused` | crates/taskologicd/src/programs.rs:336-369 | finishing a task of a live run, its open dependencies overridden, is refused exactly when that sets off a step that cannot be made, told from the state before: the last of its group, or a step its own answer triggers, not yet made if it runs once, with a title that does not fit or the column gone |
| `RunProgress.FinishIs` | crates/taskologic-core/src/program.rs:766-783 | the root finishes exactly when nothing that counts is owed and nothing that counts is made |
| `RunProgress.OpenAfter` | crates/taskologic-core/src/program.rs:770-780 | what is open after a transaction is what the engine counted as owed and what it made, but for a question that was answered before |
| `RunProgress.ApplyProgress` | crates/taskologicd/src/programs.rs:313-461 | after any event on a live run: going with something open, or closed with nothing open, except for a stranding plan |
| `RunProgress.StepProgress` | crates/taskologicd/src/programs.rs:127-263 | a transaction leaves an active started run with nothing open exactly when it is one of two, each told from the state before: the last owed task finished again without an answer after it was answered, its finish setting off nothing that counts; or the column all open tasks are in, none of them asked, removed into the finished one |
| `RunProgress.ClosesOnlyWhenDone` | crates/taskologic-core/src/program.rs:766-783 | a run that closes by itself has nothing open and its root in the finished column |
| `RunProgress.SweptRootStaysActive` | crates/taskologic-core/src/program.rs:774-783 | while an active run's root is done, and not moved, the run ends exactly by being cancelled or its root deleted, whatever else is finished |
| `RunSettled.RunNeverStuck` | crates/taskologicd/src/programs.rs:313-461 | over runs from their start in which no finished task is taken out again: at every moment the root of an active run is open and something keeps it open, exactly when no column removal puts the root, or the last open tasks, in among the finished |
| `RunSettled.OnlyUpsetsStick` | crates/taskologicd/src/programs.rs:313-461 | over any operations, reopening included, the same holds at every moment exactly when none of them is a sweep of the root, a stranding move or a stranding removal |
| `RunSettled.SettledIsNotStranded` | crates/taskologicd/src/db/repo.rs:1578-1600 | while every asked task is finished no move can strand the run |
| `RunStuck.ARunGetsStuck` | crates/taskologicd/src/db/repo.rs:1522-1526 | the promise fails on a concrete run that can be started: a task answered, reopened and finished last without an answer leaves an active run with nothing open |
| `RunStuck.ASweptRunGetsStuck` | crates/taskologicd/src/db/repo.rs:502-513 | it also fails on such a run in which nothing is reopened: its root is started and the column of its two tasks removed into the finished one |
| `RunDeps.StepKeepsDeps` | crates/taskologic-core/src/program.rs:723-733 | every operation, sweeps included, keeps: tasks wait only for earlier tasks and never for the root, the root for exactly the tasks that count |
| `RunDeps.RunDepsAreAcyclic` | crates/taskologicd/src/programs.rs:363-366 | whatever is done to a run, the graph of its dependencies is acyclic although none is checked when added |
| `RunDeps.RunKeepsDeps` | crates/taskologicd/src/programs.rs:336-369 | the dependency invariant in every reachable state |
| `RunDeps.SelfFinishIsUnblocked` | crates/taskologicd/src/programs.rs:446-452 | when a run closes itself no dependency of its root is open, so planning that move with none is right |
| `RunDeps.NothingOpenNothingBlocks` | crates/taskologic-core/src/transition.rs:57-65 | with nothing counted open, the root's open dependencies are none |
| `RunGroups.ApplyGroups` | crates/taskologic-core/src/program.rs:712-751 | an event adds at most the next whole group of a step, and the last iteration grows with it |
| `RunGroups.StepGroups` | crates/taskologic-core/src/program.rs:718-722 | every transaction, whatever it does, keeps a step's groups whole and numbered without gaps |
| `RunGroups.RunGroupsAreWhole` | crates/taskologic-core/src/program.rs:740-749 | in every reachable state each step has been made into groups 1 to n, one task for each entry in order, nothing else |
| `RunGroups.TurnIs` | crates/taskologicd/src/programs.rs:127-263 | each transaction is what is done by hand and then what the engine makes of it |
| `RunFanOut.StepFires` | crates/taskologic-core/src/program.rs:641-655 | a transaction completes a group exactly when it fires the group's finish, and fires only a group not completed before |
| `RunFanOut.GroupsFireOnce` | crates/taskologic-core/src/program.rs:641-655 | over a run without deletions, restores, reopened tasks and tasks swept into the finished column each group fires its finish once if completed and never otherwise |
| `RunFanOut.StepCompletes` | crates/taskologic-core/src/program.rs:641-655 | the number of completed groups of a step grows by one exactly with each finish fired |
| `RunFanOut.IterationsFollowGroups` | crates/taskologic-core/src/program.rs:712-722 | a step made by another's finish alone has as many iterations as the other has completed groups, at every moment of such a run |
| `RunFanOut.OnceIsOnce` | crates/taskologic-core/src/program.rs:719-721 | a step that runs once has at most one iteration |
| `RunStamps.StepKeepsStamps` | crates/taskologicd/src/db/repo.rs:953-960 | every operation keeps finish dates and the finished column together exactly unless it restores a task into that column or sweeps one in |
| `RunStamps.RunKeepsStamps` | crates/taskologicd/src/db/repo.rs:953-960 | the same at every moment of a run |
| `RunStamps.FinishedTasksAreArchived` | crates/taskologic-core/src/transition.rs:119-125 | in a run without either, whatever sits in the finished column goes to the archive the set time after its finish date, unless that is past the calendar |
| `RunStamps.RestoredIsNeverDue` | crates/taskologic-core/src/transition.rs:119-125 | a task restored into the finished column is never archived by the clock |
| `RunStamps.SweptIsNeverDue` | crates/taskologicd/src/db/repo.rs:502-513 | nor is one a column removal put there |
| `ProgramCheck.Validate` | crates/taskologic-core/src/program.rs:377-473 | the check accepts exactly the valid programs, titles included, and what each refusal says is true of the draft; assignees and print rules apart |
| `ProgramCheck.CheckKeys` | crates/taskologic-core/src/program.rs:391-401 | step keys are accepted exactly when, trimmed, none is empty and none repeats |
| `ProgramCheck.CheckReferences` | crates/taskologic-core/src/program.rs:406-426 | references are accepted exactly when each names a step there is and none the root |
| `ProgramCheck.CheckAnswers` | crates/taskologic-core/src/program.rs:427-442 | answer triggers are accepted exactly when the step they name asks a question with that answer |
| `ProgramCheck.CheckShape` | crates/taskologic-core/src/program.rs:443-466 | questions, fan-out lists, triggers and offsets of one step |
| `ProgramCheck.SavedIsRunnable` | crates/taskologic-core/src/program.rs:377-473 | a saved program meets what the engine's invariants rest on: distinct keys, nothing waiting for the root, no question on the root |
| `ProgramCheck.SavedOffsetsLand` | crates/taskologic-core/src/offset.rs:61-63 | a saved program's offsets and time limits give a real date from any moment but the calendar's last hundred thousand days |
| `RunTriggers.TriggerFires` | crates/taskologic-core/src/program.rs:705-710 | over every run of any steps on any board: a trigger fires in some run exactly when a run can be started, what it sets off has titles that fit, and it is written as it is fired and names a step that the root, or finishes and answers that go through, lead to; steps that come with the root's start only count if a step that counts can have a task by then, or else the run closes as it starts |
| `RunTraces.StepKeepsTraced` | crates/taskologic-core/src/program.rs:705-751 | every operation keeps: each task's step is one the run can have come to, before its start or at all, by finishes and answers that are not refused, and a run with nothing to outlive its start is over once started |
| `RunTraces.CanStartIs` | crates/taskologicd/src/programs.rs:105-122 | a run can be started exactly when its steps have a root with a title that fits and all that comes with it has titles that fit, whenever and on whatever board |
| `SavedTriggers.SavedTriggerFires` | crates/taskologic-core/src/program.rs:377-473 | of a saved program on any board: a trigger of it fires in some run, its lists narrowed as one likes, exactly when it can happen with lists of the shortest entries, which the steps alone tell |
| `SavedTriggers.AmpleFits` | crates/taskologic-core/src/program.rs:809-816 | with such a list a saved step can be made exactly when it fans out not at all or its title leaves room for an entry |
| `RunReach.FireTrigger` | crates/taskologic-core/src/program.rs:636-675 | in a run that is not started, or whose root is done, any task of a step is enough to fire a trigger that names it, whatever was finished before, if what it sets off has titles that fit; every step it triggers has a task then, and the run goes on |
| `RunReach.MoveHeld` | crates/taskologicd/src/programs.rs:127-203 | such a run stays so when any of its tasks is moved, into the finished column if what that finish sets off can be made; the others stay where they are and what is made is of later iterations |
| `StepTrails.ComesIsComputed` | crates/taskologic-core/src/program.rs:705-721 | which steps a run can come to is found in as many rounds over the triggers as there are steps |
| `DeadTriggers.BlankBeforeNeverFires` | crates/taskologic-core/src/program.rs:427-442 | a concrete saved program whose trigger, named with a blank before the answer, fires on no board and in no run |
| `DeadTriggers.LongTitleNeverFires` | crates/taskologic-core/src/program.rs:809-816 | a concrete saved program whose fan-out title has 199 characters: its trigger is written as it is fired, and on no board, in no run and with no entries does it fire, as the finish it waits for is refused |
| `DeadTriggers.LongStartNeverStarts` | crates/taskologic-core/src/task.rs:183-192 | with that step coming with the root, a concrete saved program of which no run can be started, whatever the entries |
| `DeadTriggers.MutualNeverFires` | crates/taskologic-core/src/program.rs:406-426 | a concrete saved program in which two steps wait for each other: both triggers are written as fired and neither ever is |
| `DeadTriggers.MutualStandsStill` | crates/taskologic-core/src/program.rs:712-721 | a run of it can be started, and never has a task but its root |
| `DeadTriggers.NothingCountsNeverFires` | crates/taskologic-core/src/program.rs:766-783 | a concrete saved program whose run closes as it starts, so that the step that comes with the start is never finished in it |
| `Questions.Validate` | crates/taskologic-core/src/program.rs:234-265 | accepts exactly the questions with a text, two to eight answers that differ by more than case and blanks, and a default among them |
| `Questions.AnswersAreCanonical` | crates/taskologic-core/src/program.rs:206-211 | each answer of a valid question is stored as itself |
| `Questions.PrintedAnswerIsRead` | crates/taskologic-core/src/program.rs:213-232 | the code printed for an answer means that answer |
| `Questions.ScannedAnswerIsTheAnswer` | crates/taskologic-core/src/print.rs:336-349 | from slip to answer: the code printed for the i-th answer, scanned, dispatches that task's payload and is stored as the i-th answer |
| `Ids.FromIndex` | crates/taskologic-core/src/ids.rs:111-120 | the loop writes the six base 36 places of an index below the space, highest first, so that reading it back gives the index modulo the space |
| `Ids.ReadId` | crates/taskologic-core/src/ids.rs:129-144 | parsing accepts six base 36 characters in either case and names the first bad one otherwise |
| `Ids.NumberIdentifies` | crates/taskologic-core/src/ids.rs:122-127 | two ids of one length with the same number are the same id |
| `Checksum.Compute` | crates/taskologic-core/src/barcode.rs:206-216 | the loop computes the running check of the standard |
| `Checksum.AbsorbIsModular` | crates/taskologic-core/src/barcode.rs:206-216 | the running check's two steps in the arithmetic of ISO/IEC 7064:2003, a hybrid system modulo 37 and 36 |
| `Checksum.CheckCharCompletes` | crates/taskologic-core/src/barcode.rs:218-233 | of all characters exactly those of the check character's value complete a body |
| `Checksum.SubstitutionIsCaught` | crates/taskologic-core/src/barcode.rs:27-29 | no single character substitution passes, at any length |
| `Checksum.SwapIsMissedExactlyAt18And19` | crates/taskologic-core/src/barcode.rs:27-29 | an adjacent swap of unequal digits passes exactly when the running checks after one or the other digit are 18 and 19 |
| `Barcode.SwappedIdsBothScan` | crates/taskologic-core/src/barcode.rs:27-29 | the promise that every adjacent swap is caught fails on two concrete payloads that both scan |
| `Barcode.CodesRoundTrip` | crates/taskologic-core/src/barcode.rs:72-93 | an action's character reads back as the action, and a read character prints as itself but for case, for the actions a slip can carry |
| `Barcode.ParseInvertsEncode` | crates/taskologic-core/src/barcode.rs:150-201 | a string parses to a payload exactly when its trimmed uppercase form is that payload's code |
| `Barcode.PrintedIsRead` | crates/taskologic-core/src/barcode.rs:150-201 | every printed payload parses back to itself |
| `Barcode.LowercaseIsRead` | crates/taskologic-core/src/barcode.rs:157-165 | also when a scanner sends it in lower case |
| `Detector.ScanDetector.Push` | crates/taskologic-core/src/barcode.rs:415-429 | first what is stale, then the key; keys given back early come before the key's own |
| `Detector.ScanDetector.PushChar` | crates/taskologic-core/src/barcode.rs:431-524 | every phase's branch on a character: prefixes, magic, versions, bodies, frames, releases |
| `Detector.ScanDetector.PushEnter` | crates/taskologic-core/src/barcode.rs:581-605 | an Enter completes nothing in a frame but is kept from the client, is swallowed after a code, and releases what was held otherwise |
| `Detector.ScanDetector.Expire` | crates/taskologic-core/src/barcode.rs:394-413 | a match older than its timeout is dropped or given back, frames by their own clock |
| `Detector.ScanDetector.Start` | crates/taskologic-core/src/barcode.rs:527-552 | a character on an idle detector opens a match or passes |
| `Detector.ScanDetector.ReleaseWith` | crates/taskologic-core/src/barcode.rs:554-565 | a broken match is given back, and the character that broke it either goes with it or opens the next |
| `Detector.ScanDetector.Finish` | crates/taskologic-core/src/barcode.rs:567-572 | a complete code is dispatched and the detector idle again |
| `Detector.ScanDetector.FinishFrame` | crates/taskologic-core/src/barcode.rs:574-579 | a closed frame is dispatched with its body |
| `Detector.ScanDetector.Cancel` | crates/taskologic-core/src/barcode.rs:371-373 | a cancelled match leaves an idle detector |
| `DetectorLedger.EveryKeyIsAccountedFor` | crates/taskologic-core/src/barcode.rs:394-606 | over any pushes and expiries at any clock readings every typed key is, once and in order, handed back, part of a dispatched code that says what it spells, part of a code dropped past its opening, a swallowed Enter right after a code, or still held |
| `DetectorLedger.RunAccounts` | crates/taskologic-core/src/barcode.rs:394-606 | the same from any reachable state |
| `DetectorLedger.PlainTypingPasses` | crates/taskologic-core/src/barcode.rs:431-488 | typing in which neither opening occurs passes whole: nothing lost, doubled, reordered or dispatched |
| `DetectorClock.StaleExactlyInTime` | crates/taskologic-core/src/barcode.rs:394-413 | whatever was typed and whenever: an expiry finds a match stale exactly when the clock is past its time since its first key, or a frame's since its last unless that is zero; then the detector is idle, and a frame or code is dropped, other keys given back; otherwise nothing changes |
| `DetectorClock.TypingAfterStalePasses` | crates/taskologic-core/src/barcode.rs:415-429 | a character that begins no match, typed when the one in progress is stale or there is none, is given back behind the keys that may be typing, and not taken into it |
| `DetectorClock.DurationIs` | crates/taskologic-core/src/barcode.rs:567-579 | the duration said after a task code is the time since its first key, after a frame zero, and is otherwise as it was |
| `ScanPipeline.PrintedCodeIsScanned` | crates/taskologic-core/src/barcode.rs:431-488 | a printed task code typed within the timeout into a waiting detector yields nothing but holds and then that payload |
| `ScanPipeline.FrameIsRead` | crates/taskologic-core/src/barcode.rs:489-524 | a frame with Enters anywhere in it is read as its body, if no two dashes meet in the body and its closing dash |
| `ScanPipeline.FrameIsCut` | crates/taskologic-core/src/barcode.rs:489-524 | whatever the body, the first frame read is what comes before two dashes in a row; so the body arrives exactly when it holds none |
| `ScanPipeline.LastEnterIsQuiet` | crates/taskologic-core/src/barcode.rs:581-605 | the Enter after a dispatched code dispatches nothing more, whenever it comes: it is swallowed, or passed on where codes do not end in one |
| `Controls.Parse` | crates/taskologic-core/src/control.rs:726-748 | the loop that peels commands off a body returns what the grammar says, or its error |
| `ControlTrip.OneRoundTrips` | crates/taskologic-core/src/control.rs:486-698 | a command is read back as itself exactly when it is canonical: numbers in the range its code spells, no function key pressed several times |
| `ControlTrip.OffsetToken` | crates/taskologic-core/src/control.rs:689-698 | every amount and unit the client can ask for parses back from its printed form |
| `ControlReads.OnlyCodesAreRead` | crates/taskologic-core/src/control.rs:590-698 | nothing is read as a command but its own code, in either case and with its number in any spelling, a key behind K or text behind `V.`; and what is read is read back when printed |
| `ControlReads.ListIsOfCodes` | crates/taskologic-core/src/control.rs:726-748 | a body that is read is made of codes joined by slashes, each read as its own command |
| `ControlFrames.CommandsRoundTrip` | crates/taskologic-core/src/control.rs:718-748 | a list of commands is printed and read back as itself exactly when it is not empty, each is canonical and no slash key, and text comes last |
| `ControlFrames.Code39IsForWhatItCarries` | crates/taskologic-core/src/control.rs:760-800 | the symbology is CODE39 exactly when every character of the payload is one of its and it fits |
| `ControlFrames.KeyGoesOutAsCode39` | crates/taskologic-core/src/control.rs:786-800 | the key A by itself, on 384 dots, is CODE39 |
| `ControlFrames.ChunksJoin` | crates/taskologic-core/src/control.rs:802-817 | the pieces make up the payload, none is empty, the first holds the whole opening, each fits if three characters do |
| `ControlFrames.ChunksAreFewest` | crates/taskologic-core/src/control.rs:802-817 | no fewer pieces that fit the paper make up the payload; one that fits comes back whole |
| `ControlFrames.PrintedCommandsArrive` | crates/taskologic-core/src/control.rs:802-817 | from paper to client: commands split for any paper width, scanned piece by piece with Enters, arrive as one frame that parses to the same commands, and the Enter after the last piece dispatches nothing |
| `Deps.CreatesCycle` | crates/taskologic-core/src/deps.rs:10-33 | true exactly when the new dependency already reaches the task; ends on every graph |
| `Deps.FirstCycle` | crates/taskologic-core/src/deps.rs:37-53 | on every graph: none exactly when no proposal reaches the task once its own dependencies are gone, otherwise the first that does; on an acyclic graph that is exactly the edited graph being acyclic and the first proposal that closes a cycle |
| `Deps.OffenderIsFirstToReach` | crates/taskologic-core/src/deps.rs:37-53 | the offender is the first proposal that reaches the task without any of them |
| `Deps.EarlierProposalsDoNotMatter` | crates/taskologic-core/src/template.rs:146-162 | adding the earlier proposals to the working graph never changes the answer |
| `Graph.NewEdgeCycles` | crates/taskologic-core/src/template.rs:119-144 | an edge added to an acyclic graph closes a cycle exactly when its head reaches its tail |
| `Graph.DownhillIsAcyclic` | crates/taskologic-core/src/deps.rs:10-33 | edges that always lead down some ranking close no cycle |
| `Templates.Walker.Visit` | crates/taskologic-core/src/template.rs:223-241 | the walk emits each node once, after all it needs when there is no cycle, and ends on cycles |
| `Templates.ExpansionOrder` | crates/taskologic-core/src/template.rs:164-184 | every template reachable from the root and no other, each once, dependencies first on an acyclic graph; defined on every graph |
| `Templates.PrefillAnchors` | crates/taskologic-core/src/template.rs:186-221 | on an acyclic graph each template the root needs counts from the earliest start of those that need it, dates past the calendar included; within the calendar that is the root's start plus the least sum of leads over all chains of needs |
| `Templates.HandDown` | crates/taskologic-core/src/template.rs:191-221 | handing a moment down lowers exactly the dependencies' moments |
| `Templates.AnchorsShift` | crates/taskologic-core/src/template.rs:186-221 | moving the root's start moves every anchor by as much |
| `Stats.Measure` | crates/taskologic-core/src/stats.rs:58-97 | the loop over any trail computes its timings: first start, finish if still finished, stays added up, wall clock |
| `Stats.OrderedTimings` | crates/taskologic-core/src/stats.rs:58-97 | for an ordered trail the time taken is the number of seconds at which the column was the started one, absent exactly when never started, at most the wall clock |
| `Stats.TimeInIsSeconds` | crates/taskologic-core/src/stats.rs:68-88 | the stays added up are the seconds at which the current column is the one asked for |
| `Stats.RepeatsChangeNothing` | crates/taskologic-core/src/stats.rs:68-83 | a repeated move into the column a task is in changes neither the time nor the first start, wherever it stands |
| `Stats.TimeInIsBounded` | crates/taskologic-core/src/stats.rs:85-97 | time in a column is never negative nor more than the time since it was first entered |
| `TimeLimit.DueIsStartLimitPauses` | crates/taskologicd/src/programs.rs:145-183 | along any moves between started and paused the due date of a started task is its first start, the limit and the time it was paused |
| `TimeLimit.TimeLeftIsLimitLessTaken` | crates/taskologicd/src/programs.rs:145-183 | while started, what is left until it is due is the limit less the time the statistics count |
| `TimeLimit.WorkIsStartedOrPaused` | crates/taskologic-core/src/stats.rs:58-97 | time started and time paused add up to the time since the first start |
| `TimeLimit.WorkKeepsTime` | crates/taskologicd/src/programs.rs:145-183 | what a task's due date and pause mark hold after each such move |
| `TimeLimit.MoveIsCounted` | crates/taskologicd/src/programs.rs:127-203 | in a run such a move, of the root too, does to the task's row exactly what the trail counts, and sets nothing off; but the root's first start is an event, which may be refused |
| `TimeLimit.OthersLeaveWork` | crates/taskologicd/src/programs.rs:127-461 | no operation on other tasks or the board touches the time of a task that is started or paused, unless it is the root and the run finishes it |
| `TimeLimit.DueInARun` | crates/taskologicd/src/programs.rs:113-183 | in a run, with anything else going on in between, a started task's due date, the root's too, is its first start, limit and pauses, and what is left of it the limit less the time the statistics count |
| `Transition.ScanAlwaysMoves` | crates/taskologic-core/src/transition.rs:94-115 | a scan never asks for the column a task is in, only a scan to finish asks for the finished one, and two start and pause scans in a row bring a task back among started and paused |
| `Repeat.NextFireAfter` | crates/taskologic-core/src/repeat.rs:123-151 | the result is the earliest local moment after the given one at which the rule fires, and none exactly when there is none in the calendar; when it fires is told by `Occurrences` |
| `Occurrences.MondayIsMonday` | crates/taskologic-core/src/repeat.rs:83-83 | the first of January 2024 is an occurrence of the rule for Mondays and for no other day of the week |
| `Occurrences.WeekdaysFollow` | crates/taskologic-core/src/repeat.rs:83-83 | the day after an occurrence of one day of the week is one of the next, and of no other |
| `Occurrences.WeekdayIsCounted` | crates/taskologic-core/src/repeat.rs:83-83 | so a weekday rule fires on a date exactly if one of its days lies some weeks from that Monday |
| `Occurrences.EveryIsMultiple` | crates/taskologic-core/src/repeat.rs:80-82 | a rule for every so many days fires exactly a multiple of them after the day it counts from, and on it |
| `Occurrences.DayOfMonthIs` | crates/taskologic-core/src/repeat.rs:84-84 | a rule for a day of the month fires on that day, and in a shorter month on the last, found as the day before a first; in the last month of the calendar on the 28th at the latest |
| `Occurrences.NextIsSoonest` | crates/taskologic-core/src/repeat.rs:123-151 | told in seconds: the moment returned is later than the given one and no later than any other occurrence that is |
| `Repeat.HorizonIsFarEnough` | crates/taskologic-core/src/repeat.rs:90-97 | when no day within a rule's horizon will do, none ever will: one interval and a day, eight days, 32 days, one day |
| `Repeat.MatchAhead` | crates/taskologic-core/src/repeat.rs:78-97 | within the horizon there is a matching day after the first |
| `Repeat.DayAhead` | crates/taskologic-core/src/repeat.rs:83-83 | a day of the month clamped to short months, leap years included, comes round within 31 days |
| `Repeat.OneMonthIsShort` | crates/taskologic-core/src/repeat.rs:153-163 | the day before the first of the next month, or 28 without one, is the month's length exactly unless it is the last December of the calendar |
| `Repeat.LastDayComesEarly` | crates/taskologic-core/src/repeat.rs:153-163 | there a rule for the 31st fires on the 28th and not on the 31st |
| `Repeat.FiringSkipsNothing` | crates/taskologic-core/src/repeat.rs:121-151 | firing over and over passes every occurrence |
| `Calendar.NextIsNumbered` | crates/taskologic-core/src/repeat.rs:147-147 | the day after has the next day number, across months and leap years |
| `Calendar.PreviousUndoesNext` | crates/taskologic-core/src/repeat.rs:160-162 | the day before and the day after undo each other, ends of the calendar apart |
| `Calendar.EarlierIsLess` | crates/taskologic-core/src/repeat.rs:127-130 | the order of dates is the order of their day numbers |
| `Layout.Wrap` | crates/taskologic-print/src/layout.rs:280-310 | the loops leave the greedy lines of the text's pieces |
| `Layout.CutsAreFull` | crates/taskologic-print/src/layout.rs:284-293 | a word too long for a line is cut into full lines and a rest |
| `Layout.BlankPartsWords` | crates/taskologic-print/src/layout.rs:284-284 | a blank parts words wherever it stands, and a text without one is a single word |
| `Layout.WrapKeepsWords` | crates/taskologic-print/src/layout.rs:280-310 | read again, the lines have the words of the text in order, those too long for a line cut; with none too long, its very words |
| `Layout.WrapKeepsInk` | crates/taskologic-print/src/layout.rs:280-310 | no character that is not blank is lost, added or moved |
| `Layout.WrapLinesFit` | crates/taskologic-print/src/layout.rs:280-310 | every line holds something, fits, and has no blank at an edge |
| `Layout.WrapIsFewest` | crates/taskologic-print/src/layout.rs:279-279 | with no word too long, no order-preserving break into fitting lines has fewer lines |
| `Layout.GreedyBreaks` | crates/taskologic-print/src/layout.rs:284-309 | the greedy lines are a break of the pieces, in order, and each fits |
| `Layout.GreedyIsAhead` | crates/taskologic-print/src/layout.rs:296-304 | against every other break: fewer lines, or as many with the last no wider |
| `Bitmap.Canvas.Set` | crates/taskologic-print/src/bitmap.rs:90-98 | sets that dot, if on the canvas, and no other |
| `Bitmap.Canvas.ReserveTo` | crates/taskologic-print/src/bitmap.rs:41-46 | grows downwards with blank rows, never shrinks, keeps every dot |
| `Bitmap.Canvas.Feed` | crates/taskologic-print/src/bitmap.rs:48-51 | adds blank rows below |
| `Bitmap.Canvas.Blit` | crates/taskologic-print/src/bitmap.rs:102-111 | adds exactly the dots of the packed rows that lie within the width |
| `Bitmap.Canvas.Rotate` | crates/taskologic-print/src/bitmap.rs:65-88 | the picture turned |
| `Bitmap.TurnedDot` | crates/taskologic-print/src/bitmap.rs:79-84 | which dots of the turned picture are black, asked of the picture |
| `Bitmap.TurnsAdd` | crates/taskologic-print/src/bitmap.rs:62-88 | one turn after another is their sum, exactly when the image has rows or no columns or not both are quarter turns |
| `Bitmap.FourQuarterTurns` | crates/taskologic-print/src/bitmap.rs:65-88 | four quarter turns give the image back exactly if it has rows or no columns |
| `Bitmap.WidthIsLost` | crates/taskologic-print/src/bitmap.rs:65-88 | eight columns and no rows turn into nothing by nothing |
| `Bitmap.TurnKeepsCount` | crates/taskologic-print/src/bitmap.rs:65-88 | a turn keeps the number of black dots |
| `Bitmap.Canvas.Barcode` | crates/taskologic-print/src/bitmap.rs:180-205 | a barcode drawn below adds exactly its scaled, centred dots and disturbs none above; the canvas grows by its rows and both margins |
| `Bits.SetDot` | crates/taskologic-print/src/bitmap.rs:90-98 | setting one bit of the packed bytes changes one dot |
| `Symbology.BitMatrix.Set` | crates/taskologic-print/src/symbology.rs:34-38 | sets one module, if there is such, and no other |
| `Symbology.BitMatrix.Scaled` | crates/taskologic-print/src/symbology.rs:46-65 | each dot shows its module, bars stretched, white all round |
| `Symbology.BitMatrix.CenteredIn` | crates/taskologic-print/src/symbology.rs:87-101 | the grid moved right by half the spare width, or left alone |
| `Symbology.BitMatrix.PackedRows` | crates/taskologic-print/src/symbology.rs:69-84 | a bit of the packed rows is set exactly when its module is |
| `Symbology.BitMatrix.Packed` | crates/taskologic-print/src/bitmap.rs:193-202 | scaled, centred and packed rows have exactly the dots of the barcode on the paper |
| `Symbology.BitMatrix.DotShowsModule` | crates/taskologic-print/src/symbology.rs:57-62 | every dot of the block a module became is black exactly when the module is |
| `Slips.Printer.QueueRule` | crates/taskologicd/src/slips.rs:116-140 | one rule's jobs in the order of the people, those on record or unknown left out, the rest printed and put on record |
| `Slips.Printer.Fire` | crates/taskologicd/src/slips.rs:83-112 | an event's rules in order, group sheets left out |
| `Slips.Printer.PrintDated` | crates/taskologicd/src/slips.rs:147-168 | the scheduler's tick over the dated tasks |
| `Slips.Printer.PrintPlanned` | crates/taskologic-core/src/print.rs:604-628 | the dated rules of one task that are due and not past their date |
| `Slips.Printer.PrintSheets` | crates/taskologicd/src/programs.rs:370-406 | one sheet for each group of an event, remembered under the root |
| `Slips.RecipientsAre` | crates/taskologic-core/src/print.rs:570-581 | a rule's slip goes to each member it names, once, in order |
| `Slips.FireAsks` | crates/taskologicd/src/slips.rs:83-112 | as a task is made or started exactly the slips its rules for that moment have for a member they are meant for are asked for, anchored on its creation, group sheets apart |
| `Slips.TickAsks` | crates/taskologic-core/src/print.rs:604-628 | a tick asks for a slip exactly if its task is not done, has a rule for it, and it is the time: for a start slip from the start date on, for one before the due date from the lead ahead of it until a tick past it |
| `Slips.GroupsAsk` | crates/taskologicd/src/programs.rs:370-406 | a sheet is asked for exactly for each member a sheet rule of a group is meant for, under the root |
| `Slips.StartSlipsComeInTime` | crates/taskologicd/src/slips.rs:141-168 | a start slip for a user is in print exactly if its task has been started, or a tick has come at or past its start date while it was not done |
| `Slips.SentKindTells` | crates/taskologic-core/src/print.rs:172-178 | two rules share a sent name exactly when they agree on moment and paper; none has a reminder's |
| `Slips.AtMostOnce` | crates/taskologicd/src/slips.rs:116-168 | over any interleaving of creations, moves, date edits, ticks and group sheets nobody gets two slips of one task, paper and moment, but for two cases: before the due date, for different due dates the task has had; and a group's sheet, for groups made at different times |
| `Slips.AtLeastOnce` | crates/taskologicd/src/slips.rs:116-140 | and a slip that was asked for a user has been printed |
| `Slips.OneSheetForAllGroups` | crates/taskologicd/src/programs.rs:390-398 | the groups one event makes share a sent key: a person several name gets exactly one sheet |
| `Slips.SheetForEachGroup` | crates/taskologicd/src/programs.rs:390-398 | a person gets a sheet for each group of an event that names them exactly when at most one does |

## Left out

- Unicode: case is folded for ASCII only where the code folds all letters (answers, keys), and texts are characters, so `parse_one`'s byte slicing of tokens outside ASCII is not described.
- Controls.Parse: the error for an unknown command carries no text.
- Templates.PrefillAnchors: says nothing of cyclic graphs, which the check on saving keeps out.
- ProgramCheck.Validate: assignees and print rules of a step are not part of the draft.
- RunDesk.Run.Start: begins with the steps `RunStart.Narrow` leaves.
- RunDesk.Run.CheckTask: of the checks on a new task, its title and its column; the people on the board are taken to stay the same, so that the starter and those a print rule names are on it (a task is also refused once they are not).
- RunTriggers.TriggerFires: with the same people on the board throughout.
- RunDesk.Run.OpenDeps: sees the run's own rows, which are all that the dependencies a run makes lead to; ones added by hand on tasks outside the run are not part of this model.
- RunDesk.Run.RemoveColumn: a removal that gives the column's roles to another; positions within a column.
- RunDesk.Run.Move: a move within a column writes no position, and events, notifications and effects sent to clients are left out.
- RunFanOut.GroupsFireOnce: for runs without deletions, restores, tasks taken out of the finished column and tasks swept into it; a skipped task is done for its group, so with deletions a group can fire with another of its tasks.
- RunInvariants.StepKeepsInv: three different role columns, fixed for the run while other columns come and go, a run that begins in none that is started or finished, and a program as saved; role changes in mid-run, edits of a run's dependencies by hand, hand-edited dates and purged tasks are outside.
- TimeLimit.DueInARun: for a task that after its start only goes between started and paused, and if it is the root by moves that are not refused and while the run does not finish it; others may be deleted, restored and finished.
- TimeLimit.DueIsStartLimitPauses: no hand edit of the due date, and a due date the calendar holds.
- Repeat.NextFireAfter: in local wall-clock time; the conversion to and from UTC, with its folds and gaps, is not part of this model.
- Stats.Measure: seconds where the code has nanoseconds; the mean and the formatting of durations are left out.
- Bitmap.Canvas.Barcode: fonts, text lines, margins around a whole slip, the PBM header and the barcode crates' own encoding are left out; the modules are given.
- Slips.Printer.Fire: what a slip says, and that a failed lookup is logged, are left out; autoprint and reminder preferences are another table's rows.
- Detector.ScanDetector.Cancel: is not one of the operations of the ledger; a cancelled match gives no keys back.
- Ids: ids are strings of the six characters, not byte arrays.
- Times are whole seconds since the epoch (the detector's, milliseconds), unbounded but where a date past the calendar is part of the behaviour; a pause added to a due date is not checked against the calendar.
- The database: `repo` updates are updates of rows by id, and a transaction that fails changes nothing.
- Terminal UI, sockets, JSON, permissions, preferences, labels, summaries, ESC/POS bytes and CUPS: input and output, or finite tables that would add easy members.
