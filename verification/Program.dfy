/** The program engine: from a run's steps and tasks and one event it works out
    a plan, and changes nothing. */
module Program {
  import opened Options
  import opened Text
  import opened Ids
  import opened Offsets
  import opened Questions
  import opened Titles

  const ROOT_KEY := "root"

  datatype Trigger =
    | WithRoot
    | RootStarted
    | Finished(step: string)
    | Answered(step: string, answer: string)

  datatype StartRule =
    | Manual
    | WhenRootStarts
    | AfterTrigger(offset: Offset)
    | DaysLaterAt(days: nat, at: nat)

  /** What the engine needs of a step, and the title its tasks take; its other
      texts, assignment and print rules only reach the task it makes. */
  datatype Step = Step(
    key: string,
    title: string,
    created: seq<Trigger>,
    once: bool,
    alsoAfter: seq<string>,
    start: StartRule,
    timeLimit: Option<Offset>,
    counts: bool,
    question: Option<Question>,
    fanOut: Option<seq<string>>)

  predicate IsRoot(s: Step) {
    s.key == ROOT_KEY
  }

  /** One parameter for each task of a group: the fan-out list's entries, and None
      alone where there are none. */
  function Params(s: Step): (r: seq<Option<string>>)
    ensures r != []
  {
    match s.fanOut
    case Some(v) => if v == [] then [None] else seq(|v|, i requires 0 <= i < |v| => Some(v[i]))
    case None => [None]
  }

  /** Whether every task of a group of this step has a title a task may have. */
  predicate Fits(s: Step) {
    forall p :: p in Params(s) ==> TitleOk(Filled(s.title, p))
  }

  /** The engine's view of a task. */
  datatype StepTask = StepTask(
    step: string,
    iteration: nat,
    param: Option<string>,
    id: TaskId,
    done: bool,
    skipped: bool,
    counts: bool,
    pending: bool)

  datatype RunEvent =
    | Created
    | RootStarts
    | Finishes(task: TaskId, answer: Option<string>)
    | IsAnswered(task: TaskId, text: string)
    | Deleted(task: TaskId)

  datatype Creation = Creation(
    step: nat,
    iteration: nat,
    param: Option<string>,
    startAt: Option<Time>,
    dependsOn: seq<TaskId>,
    counts: bool)

  datatype Plan = Plan(
    create: seq<Creation>,
    setStart: seq<TaskId>,
    finishRoot: bool,
    endRun: bool,
    ask: Option<TaskId>,
    answered: Option<(TaskId, string)>)

  const NO_PLAN := Plan([], [], false, false, None, None)

  /** From a moment, a number of days and a local time of day: when that is, if
      the zone has it. */
  type Zone = (Time, nat, nat) -> Option<Time>

  function FindTask(tasks: seq<StepTask>, id: TaskId): (r: Option<StepTask>)
    ensures r.Some? ==> r.value in tasks && r.value.id == id
    ensures r.None? ==> forall t :: t in tasks ==> t.id != id
  {
    if tasks == [] then None else if tasks[0].id == id then Some(tasks[0]) else FindTask(tasks[1..], id)
  }

  function FindStep(steps: seq<Step>, key: string): (r: Option<Step>)
    ensures r.Some? ==> r.value in steps && r.value.key == key
    ensures r.None? ==> forall s :: s in steps ==> s.key != key
  {
    if steps == [] then None else if steps[0].key == key then Some(steps[0]) else FindStep(steps[1..], key)
  }

  function QuestionOf(steps: seq<Step>, key: string): Option<Question> {
    match FindStep(steps, key)
    case Some(s) => s.question
    case None => None
  }

  /** Whether another task of the same group is neither done nor skipped. */
  predicate GroupOpen(tasks: seq<StepTask>, t: StepTask) {
    exists o :: o in tasks && o.step == t.step && o.iteration == t.iteration && o.id != t.id && !o.done && !o.skipped
  }

  /** The answer a finish brings: the one given, or else the question's default. */
  function GivenAnswer(q: Question, answer: Option<string>): Option<string> {
    match (if answer.Some? then answer else q.default)
    case Some(text) => Canonical(q, text)
    case None => None
  }

  /** What an event sets off: the triggers it fires, the task new ones wait
      for, the answer it records or the question it leaves open, and whether
      it ends the run. */
  datatype Reading = Reading(
    fired: seq<Trigger>,
    trigger: Option<TaskId>,
    answered: Option<(TaskId, string)>,
    ask: Option<TaskId>,
    ends: bool)

  const NOTHING := Reading([], None, None, None, false)

  function Read(steps: seq<Step>, tasks: seq<StepTask>, event: RunEvent): Reading {
    match event
    case Created => NOTHING.(fired := [WithRoot])
    case RootStarts => NOTHING.(fired := [RootStarted])
    case Finishes(id, answer) =>
      (match FindTask(tasks, id)
       case None => NOTHING
       case Some(t) =>
         if t.step == ROOT_KEY then NOTHING.(ends := true)
         else
           var finished := if GroupOpen(tasks, t) then [] else [Finished(t.step)];
           match QuestionOf(steps, t.step)
           case None => NOTHING.(fired := finished, trigger := Some(id))
           case Some(q) =>
             match GivenAnswer(q, answer)
             case Some(a) => Reading(finished + [Answered(t.step, a)], Some(id), Some((id, a)), None, false)
             case None => Reading(finished, Some(id), None, Some(id), false))
    case IsAnswered(id, text) =>
      (match FindTask(tasks, id)
       case None => NOTHING
       case Some(t) =>
         match QuestionOf(steps, t.step)
         case None => NOTHING
         case Some(q) =>
           match Canonical(q, text)
           case Some(a) => Reading([Answered(t.step, a)], Some(id), Some((id, a)), None, false)
           case None => NOTHING)
    case Deleted(id) =>
      (match FindTask(tasks, id)
       case Some(t) => NOTHING.(ends := t.step == ROOT_KEY)
       case None => NOTHING)
  }

  /** Whether a trigger is among the fired; answers match but for case. */
  predicate Matches(fired: seq<Trigger>, t: Trigger) {
    match t
    case Answered(step, answer) =>
      exists f :: f in fired && f.Answered? && f.step == step && SameButCase(f.answer, answer)
    case _ => t in fired
  }

  predicate IsTriggered(fired: seq<Trigger>, s: Step) {
    exists t :: t in s.created && Matches(fired, t)
  }

  function LastIteration(tasks: seq<StepTask>, key: string): (n: nat)
    ensures forall t :: t in tasks && t.step == key ==> t.iteration <= n
    ensures n > 0 ==> exists t :: t in tasks && t.step == key && t.iteration == n
  {
    if tasks == [] then 0
    else
      var k := |tasks| - 1;
      var before := LastIteration(tasks[..k], key);
      assert tasks == tasks[..k] + [tasks[k]];
      if tasks[k].step == key && tasks[k].iteration > before then tasks[k].iteration else before
  }

  /** The latest task of a step that was not skipped, the last made among equals. */
  function Latest(tasks: seq<StepTask>, key: string): (r: Option<StepTask>)
    ensures r.Some? ==> r.value in tasks && r.value.step == key && !r.value.skipped
  {
    if tasks == [] then None
    else
      var k := |tasks| - 1;
      var before := Latest(tasks[..k], key);
      if tasks[k].step == key && !tasks[k].skipped && (before.None? || before.value.iteration <= tasks[k].iteration)
      then Some(tasks[k])
      else before
  }

  function LatestOfAll(tasks: seq<StepTask>, keys: seq<string>): seq<TaskId> {
    if keys == [] then []
    else
      var k := |keys| - 1;
      var before := LatestOfAll(tasks, keys[..k]);
      match Latest(tasks, keys[k])
      case Some(t) => before + [t.id]
      case None => before
  }

  /** Drops a repeat that directly follows what it repeats. */
  function Dedup(ids: seq<TaskId>): (r: seq<TaskId>)
    ensures forall id :: id in r <==> id in ids
  {
    if |ids| < 2 then ids
    else
      var rest := Dedup(ids[1..]);
      assert ids == [ids[0]] + ids[1..];
      if ids[0] == ids[1] then rest else [ids[0]] + rest
  }

  function Waits(tasks: seq<StepTask>, trigger: Option<TaskId>, keys: seq<string>): seq<TaskId> {
    Dedup((if trigger.Some? then [trigger.value] else []) + LatestOfAll(tasks, keys))
  }

  function StartDate(rule: StartRule, now: Time, started: bool, zone: Zone): Option<Time> {
    match rule
    case Manual => None
    case WhenRootStarts => if started then Some(now) else None
    case AfterTrigger(offset) => After(offset, now)
    case DaysLaterAt(days, at) => zone(now, days, at)
  }

  /** Whether an event makes tasks of a step: some trigger of it fired, and a
      step that runs once has no task yet but skipped ones. */
  predicate Makes(tasks: seq<StepTask>, fired: seq<Trigger>, s: Step) {
    && !IsRoot(s)
    && IsTriggered(fired, s)
    && !(s.once && exists t :: t in tasks && t.step == s.key && !t.skipped)
  }

  /** One go at a step: a task for each entry, on the next iteration. */
  function GroupOf(
    index: nat, s: Step, tasks: seq<StepTask>, trigger: Option<TaskId>, started: bool, now: Time, zone: Zone)
    : (r: seq<Creation>)
    ensures |r| == |Params(s)|
    ensures forall i :: 0 <= i < |r| ==>
              r[i].step == index && r[i].iteration == LastIteration(tasks, s.key) + 1 && r[i].param == Params(s)[i]
              && r[i].counts == s.counts && r[i].dependsOn == Waits(tasks, trigger, s.alsoAfter)
  {
    var iteration := LastIteration(tasks, s.key) + 1;
    var waits := Waits(tasks, trigger, s.alsoAfter);
    var startAt := StartDate(s.start, now, started, zone);
    var ps := Params(s);
    seq(|ps|, i requires 0 <= i < |ps| => Creation(index, iteration, ps[i], startAt, waits, s.counts))
  }

  /** What the first `n` steps make. */
  function Creations(
    steps: seq<Step>, n: nat, tasks: seq<StepTask>, reading: Reading, started: bool, now: Time, zone: Zone)
    : seq<Creation>
    requires n <= |steps|
  {
    if n == 0 then []
    else
      var s := steps[n - 1];
      Creations(steps, n - 1, tasks, reading, started, now, zone)
      + (if Makes(tasks, reading.fired, s) then GroupOf(n - 1, s, tasks, reading.trigger, started, now, zone) else [])
  }

  /** Whether starting the root gives the task its start date. */
  predicate WaitsForStart(steps: seq<Step>, t: StepTask) {
    && !t.done && !t.skipped && t.step != ROOT_KEY
    && exists s :: s in steps && s.key == t.step && s.start.WhenRootStarts?
  }

  function Waiting(steps: seq<Step>, tasks: seq<StepTask>): seq<TaskId> {
    if tasks == [] then []
    else
      var k := |tasks| - 1;
      Waiting(steps, tasks[..k]) + (if WaitsForStart(steps, tasks[k]) then [tasks[k].id] else [])
  }

  /** Whether a task still keeps the root open, this event's outcome included. */
  predicate KeepsRootOpen(t: StepTask, event: RunEvent, reading: Reading) {
    var done := t.done || (event.Finishes? && event.task == t.id);
    var skipped := t.skipped || (event.Deleted? && event.task == t.id);
    var answeredNow := reading.answered.Some? && reading.answered.value.0 == t.id;
    var waiting := (t.pending && !answeredNow) || reading.ask == Some(t.id);
    t.step != ROOT_KEY && t.counts && !skipped && (!done || waiting)
  }

  predicate RootDone(tasks: seq<StepTask>) {
    exists t :: t in tasks && t.step == ROOT_KEY && t.done
  }

  /** The plan an event calls for. */
  function Decide(
    steps: seq<Step>, tasks: seq<StepTask>, started0: bool, event: RunEvent, now: Time, zone: Zone): Plan
  {
    var reading := Read(steps, tasks, event);
    if reading.ends then NO_PLAN.(endRun := true)
    else
      var started := started0 || event.RootStarts?;
      var create := Creations(steps, |steps|, tasks, reading, started, now, zone);
      Plan(
        create,
        if event.RootStarts? then Waiting(steps, tasks) else [],
        started
          && !(exists t :: t in tasks && KeepsRootOpen(t, event, reading))
          && !RootDone(tasks)
          && (forall c :: c in create ==> !c.counts),
        false,
        reading.ask,
        reading.answered)
  }

  lemma NothingFiredNothingMade(
    steps: seq<Step>, n: nat, tasks: seq<StepTask>, reading: Reading, started: bool, now: Time, zone: Zone)
    requires n <= |steps| && reading.fired == []
    ensures Creations(steps, n, tasks, reading, started, now, zone) == []
  {
  }

  /** The engine, as it runs: collects what fired, then goes over the steps. */
  method React(steps: seq<Step>, tasks: seq<StepTask>, started0: bool, event: RunEvent, now: Time, zone: Zone)
    returns (plan: Plan)
    ensures plan == Decide(steps, tasks, started0, event, now, zone)
  {
    plan := NO_PLAN;
    var reading := Collect(steps, tasks, event);
    if reading.ends {
      return plan.(endRun := true);
    }
    plan := plan.(ask := reading.ask, answered := reading.answered);
    var started := started0 || event.RootStarts?;
    if reading.fired != [] {
      var create := MakeTasks(steps, tasks, reading, started, now, zone);
      plan := plan.(create := create);
    } else {
      NothingFiredNothingMade(steps, |steps|, tasks, reading, started, now, zone);
    }
    if event.RootStarts? {
      plan := plan.(setStart := Waiting(steps, tasks));
    }
    if started {
      var open := exists t :: t in tasks && KeepsRootOpen(t, event, reading);
      plan := plan.(finishRoot := !open && !RootDone(tasks) && forall c :: c in plan.create ==> !c.counts);
    }
  }

  /** The reading of an event, branch by branch; `CollectFinish` has the one with
      a question in it. */
  method Collect(steps: seq<Step>, tasks: seq<StepTask>, event: RunEvent) returns (reading: Reading)
    ensures reading == Read(steps, tasks, event)
  {
    reading := NOTHING;
    match event {
      case Created => reading := reading.(fired := [WithRoot]);
      case RootStarts => reading := reading.(fired := [RootStarted]);
      case Finishes(id, answer) =>
        var t := FindTask(tasks, id);
        if t.Some? {
          reading := CollectFinish(steps, tasks, t.value, answer);
        }
      case IsAnswered(id, text) =>
        var t := FindTask(tasks, id);
        if t.Some? {
          var q := QuestionOf(steps, t.value.step);
          var a := if q.Some? then Canonical(q.value, text) else None;
          if a.Some? {
            reading := Reading([Answered(t.value.step, a.value)], Some(id), Some((id, a.value)), None, false);
          }
        }
      case Deleted(id) =>
        var t := FindTask(tasks, id);
        if t.Some? && t.value.step == ROOT_KEY {
          reading := reading.(ends := true);
        }
    }
  }

  method CollectFinish(steps: seq<Step>, tasks: seq<StepTask>, t: StepTask, answer: Option<string>)
    returns (reading: Reading)
    requires FindTask(tasks, t.id) == Some(t)
    ensures reading == Read(steps, tasks, Finishes(t.id, answer))
  {
    reading := NOTHING;
    if t.step == ROOT_KEY {
      return reading.(ends := true);
    }
    reading := reading.(trigger := Some(t.id));
    if !GroupOpen(tasks, t) {
      reading := reading.(fired := [Finished(t.step)]);
    }
    var q := QuestionOf(steps, t.step);
    if q.Some? {
      match GivenAnswer(q.value, answer) {
        case Some(a) =>
          reading := reading.(fired := reading.fired + [Answered(t.step, a)], answered := Some((t.id, a)));
        case None =>
          reading := reading.(ask := Some(t.id));
      }
    }
  }

  /** The loop over the steps, one group of tasks for each that is triggered. */
  method MakeTasks(
    steps: seq<Step>, tasks: seq<StepTask>, reading: Reading, started: bool, now: Time, zone: Zone)
    returns (create: seq<Creation>)
    ensures create == Creations(steps, |steps|, tasks, reading, started, now, zone)
  {
    create := [];
    for index := 0 to |steps|
      invariant create == Creations(steps, index, tasks, reading, started, now, zone)
    {
      var step := steps[index];
      if IsRoot(step) || !IsTriggered(reading.fired, step) {
        continue;
      }
      if step.once && exists t :: t in tasks && t.step == step.key && !t.skipped {
        continue;
      }
      var group := MakeGroup(index, step, tasks, reading.trigger, started, now, zone);
      create := create + group;
    }
  }

  /** One go at a step: a task for each entry. */
  method MakeGroup(
    index: nat, step: Step, tasks: seq<StepTask>, trigger: Option<TaskId>, started: bool, now: Time, zone: Zone)
    returns (group: seq<Creation>)
    ensures group == GroupOf(index, step, tasks, trigger, started, now, zone)
  {
    var iteration := LastIteration(tasks, step.key) + 1;
    var waits := CollectWaits(tasks, trigger, step.alsoAfter);
    var startAt := StartDate(step.start, now, started, zone);
    var params := Params(step);
    ghost var all := GroupOf(index, step, tasks, trigger, started, now, zone);
    group := [];
    for i := 0 to |params|
      invariant group == all[..i]
    {
      assert all[i] == Creation(index, iteration, params[i], startAt, waits, step.counts);
      group := group + [Creation(index, iteration, params[i], startAt, waits, step.counts)];
    }
  }

  /** The task that triggered a step, then the latest of each it also waits for. */
  method CollectWaits(tasks: seq<StepTask>, trigger: Option<TaskId>, keys: seq<string>) returns (waits: seq<TaskId>)
    ensures waits == Waits(tasks, trigger, keys)
  {
    waits := if trigger.Some? then [trigger.value] else [];
    ghost var first := waits;
    for i := 0 to |keys|
      invariant waits == first + LatestOfAll(tasks, keys[..i])
    {
      assert keys[..i + 1][..i] == keys[..i];
      var latest := Latest(tasks, keys[i]);
      if latest.Some? {
        waits := waits + [latest.value.id];
      }
    }
    assert keys[..|keys|] == keys;
    waits := Dedup(waits);
  }
}
