/** What an event makes, told from the steps, the tasks and the event alone, without
    the engine's own words for it. */
module EngineTells {
  import opened Options
  import opened Text
  import opened Ids
  import opened Offsets
  import opened Questions
  import opened Program
  import opened Transition
  import opened Runs
  import opened RunInvariants

  predicate UniqueIds(tasks: seq<StepTask>) {
    forall i, j :: 0 <= i < j < |tasks| ==> tasks[i].id != tasks[j].id
  }

  // What a new task waits for.

  predicate UnskippedAt(tasks: seq<StepTask>, key: string, k: int) {
    0 <= k < |tasks| && tasks[k].step == key && !tasks[k].skipped
  }

  /** The task that no other of its step has a greater iteration than, skipped ones
      aside, the last among equals. */
  ghost predicate LatestAt(tasks: seq<StepTask>, key: string, k: int) {
    && UnskippedAt(tasks, key, k)
    && forall j :: UnskippedAt(tasks, key, j) ==>
         tasks[j].iteration < tasks[k].iteration || (tasks[j].iteration == tasks[k].iteration && j <= k)
  }

  lemma {:induction false} LatestIs(tasks: seq<StepTask>, key: string) returns (k: int)
    ensures Latest(tasks, key).Some? ==> LatestAt(tasks, key, k) && Latest(tasks, key) == Some(tasks[k])
    ensures Latest(tasks, key).None? ==> forall j :: !UnskippedAt(tasks, key, j)
  {
    k := -1;
    if tasks != [] {
      var n := |tasks| - 1;
      var rest := tasks[..n];
      k := LatestIs(rest, key);
      assert forall j :: j != n ==> (UnskippedAt(tasks, key, j) <==> UnskippedAt(rest, key, j));
      if Latest(tasks, key) == Some(tasks[n]) && UnskippedAt(tasks, key, n)
         && (Latest(rest, key).None? || rest[k].iteration <= tasks[n].iteration) {
        k := n;
      }
    }
  }

  lemma LatestIsOne(tasks: seq<StepTask>, key: string, j: int, k: int)
    requires LatestAt(tasks, key, j) && LatestAt(tasks, key, k)
    ensures j == k
  {
  }

  /** Whether a task is the latest of one of these steps. */
  ghost predicate LatestOfSome(tasks: seq<StepTask>, keys: seq<string>, id: TaskId) {
    exists key, k :: key in keys && LatestAt(tasks, key, k) && tasks[k].id == id
  }

  lemma OneMoreKey(tasks: seq<StepTask>, keys: seq<string>, key: string, id: TaskId)
    ensures LatestOfSome(tasks, keys + [key], id) <==>
              LatestOfSome(tasks, keys, id) || exists k :: LatestAt(tasks, key, k) && tasks[k].id == id
  {
    assert key in keys + [key];
    assert forall x :: x in keys + [key] <==> x in keys || x == key;
  }

  lemma {:induction false} LatestOfAllAre(tasks: seq<StepTask>, keys: seq<string>, id: TaskId)
    ensures id in LatestOfAll(tasks, keys) <==> LatestOfSome(tasks, keys, id)
  {
    if keys != [] {
      var n := |keys| - 1;
      LatestOfAllAre(tasks, keys[..n], id);
      OneMoreKey(tasks, keys[..n], keys[n], id);
      assert keys == keys[..n] + [keys[n]];
      var k := LatestIs(tasks, keys[n]);
      if Latest(tasks, keys[n]).Some? {
        forall j | LatestAt(tasks, keys[n], j) ensures j == k {
          LatestIsOne(tasks, keys[n], j, k);
        }
      }
    }
  }

  /** The task an event is about, where new ones wait for it. */
  predicate Triggering(event: RunEvent, id: TaskId) {
    (event.Finishes? || event.IsAnswered?) && event.task == id
  }

  lemma TriggerIs(steps: seq<Step>, tasks: seq<StepTask>, event: RunEvent, id: TaskId)
    requires Read(steps, tasks, event).fired != []
    ensures Read(steps, tasks, event).trigger == Some(id) <==> Triggering(event, id)
  {
  }

  /** A new task waits for the task the event is about, and for the latest task of
      each step it comes after; for nothing else. */
  lemma WaitsAreTold(
    steps: seq<Step>, tasks: seq<StepTask>, started: bool, event: RunEvent, now: Time, zone: Zone, c: Creation, id: TaskId)
    requires c in Decide(steps, tasks, started, event, now, zone).create
    ensures c.step < |steps|
    ensures id in c.dependsOn <==> Triggering(event, id) || LatestOfSome(tasks, steps[c.step].alsoAfter, id)
  {
    var reading := Read(steps, tasks, event);
    var k := CreationIsInGroup(steps, |steps|, tasks, reading, started || event.RootStarts?, now, zone, c);
    TriggerIs(steps, tasks, event, id);
    LatestOfAllAre(tasks, steps[k].alsoAfter, id);
  }

  // When it starts, and which it is.

  /** The start date of a new task: none by hand; the moment itself if it goes by the
      root and the run is started, or starts now; the offset later while the calendar
      reaches that far; or what the zone makes of the days and the time of day. */
  predicate StartsAt(rule: StartRule, started: bool, now: Time, zone: Zone, at: Option<Time>) {
    && (rule.Manual? ==> at.None?)
    && (rule.WhenRootStarts? ==> (at.Some? <==> started) && (at.Some? ==> at.value == now))
    && (rule.AfterTrigger? ==>
          (at.Some? <==> now + Seconds(rule.offset) <= MAX_TIME) && (at.Some? ==> at.value - now == Seconds(rule.offset)))
    && (rule.DaysLaterAt? ==> at == zone(now, rule.days, rule.at))
  }

  /** It is of the iteration after the last of its step. */
  predicate IsNextIteration(tasks: seq<StepTask>, key: string, n: nat) {
    && n > 0 && (forall t :: t in tasks && t.step == key ==> t.iteration < n)
    && (n == 1 || exists t :: t in tasks && t.step == key && t.iteration == n - 1)
  }

  lemma CreationIsTold(
    steps: seq<Step>, tasks: seq<StepTask>, started: bool, event: RunEvent, now: Time, zone: Zone, c: Creation)
    requires c in Decide(steps, tasks, started, event, now, zone).create
    ensures c.step < |steps|
    ensures var s := steps[c.step];
            StartsAt(s.start, started || event.RootStarts?, now, zone, c.startAt)
            && IsNextIteration(tasks, s.key, c.iteration) && c.param in Params(s) && c.counts == s.counts
  {
    var reading := Read(steps, tasks, event);
    var k := CreationIsInGroup(steps, |steps|, tasks, reading, started || event.RootStarts?, now, zone, c);
    var group := GroupOf(k, steps[k], tasks, reading.trigger, started || event.RootStarts?, now, zone);
    var i :| 0 <= i < |group| && group[i] == c;
    assert group[i].startAt == StartDate(steps[k].start, now, started || event.RootStarts?, zone);
    assert c.param == Params(steps[k])[i];
  }

  // Which steps are made.

  /** A text is taken for the first answer that differs by no more than case and
      blanks at its ends. */
  ghost predicate TakenFor(q: Question, text: string, a: string) {
    exists i :: 0 <= i < |Answers(q)| && Answers(q)[i] == a && FirstLike(Answers(q), text, i)
  }

  predicate FirstLike(answers: seq<string>, text: string, i: int)
    requires 0 <= i < |answers|
  {
    && Lower(Trim(answers[i])) == Lower(Trim(text))
    && forall j :: 0 <= j < i ==> Lower(Trim(answers[j])) != Lower(Trim(text))
  }

  lemma FirstLikeLater(answers: seq<string>, text: string, i: nat)
    requires answers != [] && Normal(answers[0]) != Normal(text) && i < |answers| - 1 && FirstLike(answers[1..], text, i)
    ensures FirstLike(answers, text, i + 1)
  {
    forall j | 0 <= j < i + 1 ensures Lower(Trim(answers[j])) != Lower(Trim(text)) {
      assert j > 0 ==> answers[j] == answers[1..][j - 1];
    }
  }

  lemma {:induction false} FirstNormalIs(answers: seq<string>, text: string) returns (i: nat)
    requires FirstNormal(answers, Normal(text)).Some?
    ensures i < |answers| && FirstNormal(answers, Normal(text)) == Some(answers[i]) && FirstLike(answers, text, i)
  {
    if Normal(answers[0]) == Normal(text) {
      i := 0;
    } else {
      i := FirstNormalIs(answers[1..], text);
      FirstLikeLater(answers, text, i);
      i := i + 1;
    }
  }

  lemma CanonicalIs(q: Question, text: string, a: string)
    ensures Canonical(q, text) == Some(a) <==> TakenFor(q, text, a)
  {
    if j :| 0 <= j < |Answers(q)| && Answers(q)[j] == a && FirstLike(Answers(q), text, j) {
      assert Answers(q)[j] in Answers(q) && Normal(a) == Normal(text);
    }
    if Canonical(q, text).Some? {
      var i := FirstNormalIs(Answers(q), text);
      assert forall j :: 0 <= j < |Answers(q)| && FirstLike(Answers(q), text, j) ==> j == i;
    }
  }

  /** Whether an event is the answer `a` of a task: given with its finish, or else
      the question's own default; or given later. */
  ghost predicate AnswersWith(q: Question, event: RunEvent, a: string) {
    match event
    case Finishes(_, Some(text)) => TakenFor(q, text, a)
    case Finishes(_, None) => q.default.Some? && TakenFor(q, q.default.value, a)
    case IsAnswered(_, text) => TakenFor(q, text, a)
    case _ => false
  }

  /** Whether it is the last of its group to be done, skipped ones aside. */
  predicate LastOfGroup(tasks: seq<StepTask>, t: StepTask) {
    forall o :: o in tasks && o.step == t.step && o.iteration == t.iteration && o.id != t.id ==> o.done || o.skipped
  }

  ghost predicate AnsweredBy(steps: seq<Step>, t: StepTask, event: RunEvent, text: string) {
    exists q, a :: QuestionOf(steps, t.step) == Some(q) && AnswersWith(q, event, a) && Lower(a) == Lower(text)
  }

  /** Whether an event sets a trigger off. */
  ghost predicate SetsOff(steps: seq<Step>, tasks: seq<StepTask>, event: RunEvent, t: Trigger) {
    match t
    case WithRoot => event.Created?
    case RootStarted => event.RootStarts?
    case Finished(key) =>
      event.Finishes? && key != ROOT_KEY && exists x :: x in tasks && x.id == event.task && x.step == key && LastOfGroup(tasks, x)
    case Answered(key, text) =>
      && (event.Finishes? ==> key != ROOT_KEY) && (event.Finishes? || event.IsAnswered?)
      && exists x :: x in tasks && x.id == event.task && x.step == key && AnsweredBy(steps, x, event, text)
  }

  lemma FoundIsOnly(tasks: seq<StepTask>, x: StepTask)
    requires UniqueIds(tasks) && x in tasks
    ensures FindTask(tasks, x.id) == Some(x)
  {
    var i :| 0 <= i < |tasks| && tasks[i] == x;
    var t := FindTask(tasks, x.id).value;
    var j :| 0 <= j < |tasks| && tasks[j] == t;
  }

  lemma GivenIs(q: Question, event: RunEvent, a: string)
    requires event.Finishes?
    ensures GivenAnswer(q, event.answer) == Some(a) <==> AnswersWith(q, event, a)
  {
    if event.answer.Some? {
      CanonicalIs(q, event.answer.value, a);
    } else if q.default.Some? {
      CanonicalIs(q, q.default.value, a);
    }
  }

  function Given(q: Question, event: RunEvent): Option<string>
    requires event.Finishes? || event.IsAnswered?
  {
    if event.Finishes? then GivenAnswer(q, event.answer) else Canonical(q, event.text)
  }

  lemma AnswerFired(steps: seq<Step>, tasks: seq<StepTask>, event: RunEvent, x: StepTask, f: Trigger)
    requires event.IsAnswered? || (event.Finishes? && x.step != ROOT_KEY)
    requires FindTask(tasks, event.task) == Some(x) && f.Answered?
    ensures f in Read(steps, tasks, event).fired <==>
            QuestionOf(steps, x.step).Some? && Given(QuestionOf(steps, x.step).value, event) == Some(f.answer) && f.step == x.step
  {
  }

  lemma AnswerMatches(steps: seq<Step>, tasks: seq<StepTask>, event: RunEvent, x: StepTask, text: string)
    requires event.IsAnswered? || (event.Finishes? && x.step != ROOT_KEY)
    requires FindTask(tasks, event.task) == Some(x)
    ensures Matches(Read(steps, tasks, event).fired, Answered(x.step, text)) <==> AnsweredBy(steps, x, event, text)
  {
    var fired := Read(steps, tasks, event).fired;
    if f :| f in fired && f.Answered? && f.step == x.step && SameButCase(f.answer, text) {
      AnswerFired(steps, tasks, event, x, f);
      TakenIsGiven(QuestionOf(steps, x.step).value, event);
    }
    if AnsweredBy(steps, x, event, text) {
      var q, a :| QuestionOf(steps, x.step) == Some(q) && AnswersWith(q, event, a) && Lower(a) == Lower(text);
      TakenIsGiven(q, event);
      AnswerFired(steps, tasks, event, x, Answered(x.step, a));
    }
  }

  lemma FiredIsSetOff(steps: seq<Step>, tasks: seq<StepTask>, event: RunEvent, t: Trigger)
    requires UniqueIds(tasks)
    ensures Matches(Read(steps, tasks, event).fired, t) <==> SetsOff(steps, tasks, event, t)
  {
    if (event.Finishes? || event.IsAnswered?) && FindTask(tasks, event.task).Some? {
      var x := FindTask(tasks, event.task).value;
      forall y | y in tasks && y.id == event.task ensures y == x {
        FoundIsOnly(tasks, y);
      }
      if t.Answered? {
        AnswerIsSetOff(steps, tasks, event, x, t);
      } else {
        FinishIsSetOff(steps, tasks, event, x, t);
      }
    }
  }

  lemma AnswerIsSetOff(steps: seq<Step>, tasks: seq<StepTask>, event: RunEvent, x: StepTask, t: Trigger)
    requires (event.Finishes? || event.IsAnswered?) && FindTask(tasks, event.task) == Some(x) && t.Answered?
    requires forall y :: y in tasks && y.id == event.task ==> y == x
    ensures Matches(Read(steps, tasks, event).fired, t) <==> SetsOff(steps, tasks, event, t)
  {
    var fired := Read(steps, tasks, event).fired;
    assert forall f :: f in fired && f.Answered? ==> f.step == x.step;
    if t.step == x.step && (event.IsAnswered? || x.step != ROOT_KEY) {
      AnswerMatches(steps, tasks, event, x, t.answer);
    }
  }

  lemma FinishIsSetOff(steps: seq<Step>, tasks: seq<StepTask>, event: RunEvent, x: StepTask, t: Trigger)
    requires (event.Finishes? || event.IsAnswered?) && FindTask(tasks, event.task) == Some(x) && !t.Answered?
    requires forall y :: y in tasks && y.id == event.task ==> y == x
    ensures Matches(Read(steps, tasks, event).fired, t) <==> SetsOff(steps, tasks, event, t)
  {
    var fired := Read(steps, tasks, event).fired;
    assert event.IsAnswered? ==> forall f :: f in fired ==> f.Answered?;
    assert event.Finishes? && x.step != ROOT_KEY ==> (Finished(x.step) in fired <==> LastOfGroup(tasks, x));
    assert forall f :: f in fired ==> f.Answered? || f == Finished(x.step);
  }

  /** Whether an event makes a group of a step. */
  ghost predicate Owes(steps: seq<Step>, tasks: seq<StepTask>, event: RunEvent, k: int) {
    && 0 <= k < |steps| && steps[k].key != ROOT_KEY
    && (exists t :: t in steps[k].created && SetsOff(steps, tasks, event, t))
    && (steps[k].once ==> forall o :: o in tasks && o.step == steps[k].key ==> o.skipped)
  }

  lemma MakesIs(steps: seq<Step>, tasks: seq<StepTask>, event: RunEvent, k: nat)
    requires UniqueIds(tasks) && k < |steps|
    ensures Makes(tasks, Read(steps, tasks, event).fired, steps[k]) <==> Owes(steps, tasks, event, k)
  {
    forall t | t in steps[k].created
      ensures Matches(Read(steps, tasks, event).fired, t) <==> SetsOff(steps, tasks, event, t)
    {
      FiredIsSetOff(steps, tasks, event, t);
    }
  }

  lemma EndingMakesNone(steps: seq<Step>, tasks: seq<StepTask>, event: RunEvent, k: int)
    requires UniqueIds(tasks) && Read(steps, tasks, event).ends
    ensures !Owes(steps, tasks, event, k)
  {
    if 0 <= k < |steps| {
      MakesIs(steps, tasks, event, k);
      assert Read(steps, tasks, event).fired == [];
    }
  }

  // What it asks, and what it takes for an answer.

  /** Whether the event finishes a task with a question and brings no answer to it. */
  ghost predicate LeavesOpen(steps: seq<Step>, tasks: seq<StepTask>, event: RunEvent, id: TaskId) {
    && event.Finishes? && event.task == id
    && exists x :: x in tasks && x.id == id && x.step != ROOT_KEY && QuestionOf(steps, x.step).Some?
                   && forall a :: !AnswersWith(QuestionOf(steps, x.step).value, event, a)
  }

  ghost predicate AnswersTask(steps: seq<Step>, tasks: seq<StepTask>, event: RunEvent, id: TaskId, a: string) {
    && (event.Finishes? || event.IsAnswered?) && event.task == id
    && exists x :: x in tasks && x.id == id && (event.Finishes? ==> x.step != ROOT_KEY)
                   && QuestionOf(steps, x.step).Some? && AnswersWith(QuestionOf(steps, x.step).value, event, a)
  }

  lemma AskIsTold(
    steps: seq<Step>, tasks: seq<StepTask>, started: bool, event: RunEvent, now: Time, zone: Zone, id: TaskId, a: string)
    requires UniqueIds(tasks)
    ensures var plan := Decide(steps, tasks, started, event, now, zone);
            (plan.ask == Some(id) <==> LeavesOpen(steps, tasks, event, id))
            && (plan.answered == Some((id, a)) <==> AnswersTask(steps, tasks, event, id, a))
  {
    if (event.Finishes? || event.IsAnswered?) && FindTask(tasks, event.task).Some? {
      var x := FindTask(tasks, event.task).value;
      forall y | y in tasks && y.id == event.task ensures y == x {
        FoundIsOnly(tasks, y);
      }
      if QuestionOf(steps, x.step).Some? {
        TakenIsGiven(QuestionOf(steps, x.step).value, event);
      }
    }
  }

  lemma TakenIsGiven(q: Question, event: RunEvent)
    requires event.Finishes? || event.IsAnswered?
    ensures forall a :: Given(q, event) == Some(a) <==> AnswersWith(q, event, a)
  {
    forall a ensures Given(q, event) == Some(a) <==> AnswersWith(q, event, a) {
      if event.Finishes? {
        GivenIs(q, event, a);
      } else {
        CanonicalIs(q, event.text, a);
      }
    }
  }
}
