/** What a program is checked for when it is saved, and what that buys the
    engine. */
module ProgramCheck {
  import opened Options
  import opened Text
  import opened Ids
  import opened Offsets
  import opened Titles
  import opened Program
  import Q = Questions
  import I = RunInvariants

  const MAX_NAME_CHARS := 120
  const MAX_OFFSET_AMOUNT := 100_000

  datatype Draft = Draft(name: string, steps: seq<Step>, minSamples: nat)

  datatype ProgramError =
    | EmptyName
    | NameTooLong
    | NoRoot
    | NoSamples
    | EmptyKey
    | DuplicateKey(key: string)
    | Title(step: string, fault: TitleError)
    | UnknownStep(step: string, refers: string)
    | WaitsForRoot(step: string)
    | NeverAppears(step: string)
    | OffsetTooLarge(step: string)
    | BadQuestion(error: Q.QuestionError)
    | RootQuestion
    | NoSuchAnswer(step: string, other: string, answer: string)
    | EmptyFanOut(step: string)

  function KeyOf(s: Step): string {
    Trim(s.key)
  }

  /** The steps a step refers to, by trigger or by waiting. */
  predicate Refers(s: Step, r: string) {
    r in s.alsoAfter || exists t :: t in s.created && (t.Finished? || t.Answered?) && t.step == r
  }

  predicate KnownKey(steps: seq<Step>, r: string) {
    exists s :: s in steps && KeyOf(s) == r
  }

  function FirstKeyed(steps: seq<Step>, key: string): Option<Step> {
    if steps == [] then None else if KeyOf(steps[0]) == key then Some(steps[0]) else FirstKeyed(steps[1..], key)
  }

  /** Whether the step a trigger names asks a question with that answer. */
  predicate Answerable(steps: seq<Step>, t: Trigger)
    requires t.Answered?
  {
    var s := FirstKeyed(steps, t.step);
    s.Some? && s.value.question.Some? && Q.Canonical(s.value.question.value, t.answer).Some?
  }

  predicate TooLarge(s: Step) {
    (s.timeLimit.Some? && s.timeLimit.value.amount > MAX_OFFSET_AMOUNT)
    || (s.start.AfterTrigger? && s.start.offset.amount > MAX_OFFSET_AMOUNT)
    || (s.start.DaysLaterAt? && s.start.days > MAX_OFFSET_AMOUNT)
  }

  predicate NothingToFanOut(s: Step) {
    s.fanOut.Some? && forall e :: e in s.fanOut.value ==> Trim(e) == ""
  }

  predicate MayRefer(steps: seq<Step>, r: string) {
    r != ROOT_KEY && KnownKey(steps, r)
  }

  predicate ReferencesOk(steps: seq<Step>, s: Step) {
    && (forall t :: t in s.created && (t.Finished? || t.Answered?) ==> MayRefer(steps, t.step))
    && forall r :: r in s.alsoAfter ==> MayRefer(steps, r)
  }

  predicate AnswersOk(steps: seq<Step>, s: Step) {
    AnswersOkTo(steps, s, |s.created|)
  }

  /** ... told of the first `n` triggers. */
  predicate AnswersOkTo(steps: seq<Step>, s: Step, n: nat)
    requires n <= |s.created|
  {
    forall k :: 0 <= k < n && s.created[k].Answered? ==> Answerable(steps, s.created[k])
  }

  predicate ShapeOk(s: Step) {
    && (s.question.Some? ==> !IsRoot(s) && Q.Valid(s.question.value))
    && !NothingToFanOut(s)
    && (IsRoot(s) || s.created != [])
    && !TooLarge(s)
  }

  predicate StepOk(steps: seq<Step>, s: Step) {
    TitleOk(s.title) && ReferencesOk(steps, s) && AnswersOk(steps, s) && ShapeOk(s)
  }

  predicate KeysOk(steps: seq<Step>) {
    && (forall s :: s in steps ==> KeyOf(s) != "")
    && forall i, j :: 0 <= i < j < |steps| ==> KeyOf(steps[i]) != KeyOf(steps[j])
  }

  /** A program that may be saved. */
  predicate ValidDraft(d: Draft) {
    HeadOk(d) && KeysOk(d.steps) && AllStepsOk(d.steps)
  }

  predicate HeadOk(d: Draft) {
    0 < |Trim(d.name)| <= MAX_NAME_CHARS && (exists s :: s in d.steps && IsRoot(s)) && d.minSamples > 0
  }

  predicate AllStepsOk(steps: seq<Step>) {
    forall s :: s in steps ==> StepOk(steps, s)
  }

  /** What a refusal says is true of the draft. */
  predicate Holds(d: Draft, e: ProgramError) {
    match e
    case EmptyName => Trim(d.name) == ""
    case NameTooLong => |Trim(d.name)| > MAX_NAME_CHARS
    case NoRoot => forall s :: s in d.steps ==> !IsRoot(s)
    case NoSamples => d.minSamples == 0
    case EmptyKey => exists s :: s in d.steps && KeyOf(s) == ""
    case DuplicateKey(k) => exists i, j :: 0 <= i < j < |d.steps| && KeyOf(d.steps[i]) == KeyOf(d.steps[j]) == k
    case Title(k, fault) => exists s :: s in d.steps && KeyOf(s) == k && Fault(s.title) == Some(fault)
    case UnknownStep(k, r) => !KnownKey(d.steps, r) && exists s :: s in d.steps && KeyOf(s) == k && Refers(s, r)
    case WaitsForRoot(k) => exists s :: s in d.steps && KeyOf(s) == k && Refers(s, ROOT_KEY)
    case NeverAppears(k) => exists s :: s in d.steps && KeyOf(s) == k && !IsRoot(s) && s.created == []
    case OffsetTooLarge(k) => exists s :: s in d.steps && KeyOf(s) == k && TooLarge(s)
    case BadQuestion(_) => exists s :: s in d.steps && s.question.Some? && !Q.Valid(s.question.value)
    case RootQuestion => exists s :: s in d.steps && IsRoot(s) && s.question.Some?
    case NoSuchAnswer(k, other, answer) =>
      !Answerable(d.steps, Answered(other, answer))
      && exists s :: s in d.steps && KeyOf(s) == k && Answered(other, answer) in s.created
    case EmptyFanOut(k) => exists s :: s in d.steps && KeyOf(s) == k && NothingToFanOut(s)
  }

  /** The longest a saved offset can be: a hundred thousand days. */
  const LONGEST := 8_640_000_000

  /** The dates a saved program gives are real ones: its offsets and time limits land on
      a date the calendar holds, from any moment before the last such span of it. */
  lemma SavedOffsetsLand(d: Draft, s: Step, now: Time)
    requires ValidDraft(d) && s in d.steps && now <= MAX_TIME - LONGEST
    ensures s.timeLimit.Some? ==> After(s.timeLimit.value, now) == Some(now + Seconds(s.timeLimit.value))
    ensures s.start.AfterTrigger? ==> After(s.start.offset, now) == Some(now + Seconds(s.start.offset))
  {
    assert StepOk(d.steps, s);
    if s.timeLimit.Some? {
      OffsetIsShort(s.timeLimit.value);
    }
    if s.start.AfterTrigger? {
      OffsetIsShort(s.start.offset);
    }
  }

  lemma OffsetIsShort(o: Offset)
    requires o.amount <= MAX_OFFSET_AMOUNT
    ensures Seconds(o) <= LONGEST
  {
    match o.unit {
      case Minutes => assert Seconds(o) == o.amount * 60;
      case Hours => assert Seconds(o) == o.amount * 3600;
      case Days => assert Seconds(o) == o.amount * 86400;
    }
  }

  method Validate(d: Draft) returns (r: Result<(), ProgramError>)
    ensures r.Ok? <==> ValidDraft(d)
    ensures r.Err? ==> Holds(d, r.error)
  {
    r := CheckHead(d);
    if r.Ok? {
      r := CheckKeys(d);
    }
    if r.Ok? {
      r := CheckSteps(d);
    }
  }

  method CheckHead(d: Draft) returns (r: Result<(), ProgramError>)
    ensures r.Ok? <==> HeadOk(d)
    ensures r.Err? ==> Holds(d, r.error)
  {
    if Trim(d.name) == "" {
      return Err(EmptyName);
    }
    if |Trim(d.name)| > MAX_NAME_CHARS {
      return Err(NameTooLong);
    }
    if !exists s :: s in d.steps && IsRoot(s) {
      return Err(NoRoot);
    }
    if d.minSamples == 0 {
      return Err(NoSamples);
    }
    return Ok(());
  }

  method CheckSteps(d: Draft) returns (r: Result<(), ProgramError>)
    ensures r.Ok? <==> AllStepsOk(d.steps)
    ensures r.Err? ==> Holds(d, r.error)
  {
    for i := 0 to |d.steps|
      invariant forall k :: 0 <= k < i ==> StepOk(d.steps, d.steps[k])
    {
      r := CheckStep(d, d.steps[i]);
      if r.Err? {
        return;
      }
    }
    return Ok(());
  }

  lemma KeyRepeats(d: Draft, keys: seq<string>, i: nat)
    requires |keys| == i < |d.steps| && KeyOf(d.steps[i]) in keys
    requires forall k :: 0 <= k < i ==> keys[k] == KeyOf(d.steps[k])
    ensures Holds(d, DuplicateKey(KeyOf(d.steps[i]))) && !KeysOk(d.steps)
  {
    var k :| 0 <= k < |keys| && keys[k] == KeyOf(d.steps[i]);
    assert KeyOf(d.steps[k]) == KeyOf(d.steps[i]);
  }

  method CheckKeys(d: Draft) returns (r: Result<(), ProgramError>)
    ensures r.Ok? <==> KeysOk(d.steps)
    ensures r.Err? ==> Holds(d, r.error)
  {
    var keys: seq<string> := [];
    for i := 0 to |d.steps|
      invariant |keys| == i && forall k :: 0 <= k < i ==> keys[k] == KeyOf(d.steps[k]) && keys[k] != ""
      invariant forall j, k :: 0 <= j < k < i ==> KeyOf(d.steps[j]) != KeyOf(d.steps[k])
    {
      var key := KeyOf(d.steps[i]);
      assert d.steps[i] in d.steps;
      if key == "" {
        return Err(EmptyKey);
      }
      if key in keys {
        KeyRepeats(d, keys, i);
        return Err(DuplicateKey(key));
      }
      keys := keys + [key];
    }
    return Ok(());
  }

  /** Whether one name a step refers to may be referred to. */
  method CheckRefers(d: Draft, s: Step, r: string) returns (e: Option<ProgramError>)
    requires s in d.steps && Refers(s, r)
    ensures e.None? <==> MayRefer(d.steps, r)
    ensures e.Some? ==> Holds(d, e.value)
  {
    if r == ROOT_KEY {
      return Some(WaitsForRoot(KeyOf(s)));
    }
    if !KnownKey(d.steps, r) {
      return Some(UnknownStep(KeyOf(s), r));
    }
    return None;
  }

  method CheckReferences(d: Draft, s: Step) returns (r: Result<(), ProgramError>)
    requires s in d.steps
    ensures r.Ok? <==> ReferencesOk(d.steps, s)
    ensures r.Err? ==> Holds(d, r.error)
  {
    for i := 0 to |s.created|
      invariant forall k :: 0 <= k < i && (s.created[k].Finished? || s.created[k].Answered?) ==>
        MayRefer(d.steps, s.created[k].step)
    {
      var t := s.created[i];
      if t.Finished? || t.Answered? {
        var e := CheckRefers(d, s, t.step);
        if e.Some? {
          return Err(e.value);
        }
      }
    }
    for i := 0 to |s.alsoAfter|
      invariant forall k :: 0 <= k < i ==> MayRefer(d.steps, s.alsoAfter[k])
    {
      var e := CheckRefers(d, s, s.alsoAfter[i]);
      if e.Some? {
        return Err(e.value);
      }
    }
    return Ok(());
  }

  method CheckAnswers(d: Draft, s: Step) returns (r: Result<(), ProgramError>)
    requires s in d.steps
    ensures r.Ok? <==> AnswersOk(d.steps, s)
    ensures r.Err? ==> Holds(d, r.error)
  {
    var t := FirstUnanswerable(d.steps, s);
    if t.None? {
      return Ok(());
    }
    assert t.value == Answered(t.value.step, t.value.answer);
    return Err(NoSuchAnswer(KeyOf(s), t.value.step, t.value.answer));
  }

  method FirstUnanswerable(steps: seq<Step>, s: Step) returns (r: Option<Trigger>)
    ensures r.None? <==> AnswersOk(steps, s)
    ensures r.Some? ==> r.value in s.created && r.value.Answered? && !Answerable(steps, r.value)
  {
    for i := 0 to |s.created|
      invariant AnswersOkTo(steps, s, i)
    {
      var t := s.created[i];
      if t.Answered? && !Answerable(steps, t) {
        return Some(t);
      }
      OneMoreAnswer(steps, s, i);
    }
    return None;
  }

  lemma OneMoreAnswer(steps: seq<Step>, s: Step, n: nat)
    requires n < |s.created| && AnswersOkTo(steps, s, n)
    requires s.created[n].Answered? ==> Answerable(steps, s.created[n])
    ensures AnswersOkTo(steps, s, n + 1)
  {
  }

  method CheckStep(d: Draft, s: Step) returns (r: Result<(), ProgramError>)
    requires s in d.steps
    ensures r.Ok? <==> StepOk(d.steps, s)
    ensures r.Err? ==> Holds(d, r.error)
  {
    var fault := Fault(s.title);
    if fault.Some? {
      return Err(Title(KeyOf(s), fault.value));
    }
    r := CheckReferences(d, s);
    if r.Err? {
      return;
    }
    r := CheckAnswers(d, s);
    if r.Err? {
      return;
    }
    r := CheckShape(d, s);
  }

  method CheckShape(d: Draft, s: Step) returns (r: Result<(), ProgramError>)
    requires s in d.steps
    ensures r.Ok? <==> ShapeOk(s)
    ensures r.Err? ==> Holds(d, r.error)
  {
    var key := KeyOf(s);
    if s.question.Some? {
      if IsRoot(s) {
        return Err(RootQuestion);
      }
      var q := Q.Validate(s.question.value);
      if q.Err? {
        return Err(BadQuestion(q.error));
      }
    }
    if NothingToFanOut(s) {
      return Err(EmptyFanOut(key));
    }
    if !IsRoot(s) && s.created == [] {
      return Err(NeverAppears(key));
    }
    if TooLarge(s) {
      return Err(OffsetTooLarge(key));
    }
    return Ok(());
  }

  /** A program that was saved has the steps the engine counts on. */
  lemma SavedIsRunnable(d: Draft)
    requires ValidDraft(d)
    ensures I.ValidSteps(d.steps)
  {
    var steps := d.steps;
    forall i, j | 0 <= i < j < |steps| ensures steps[i].key != steps[j].key {
      assert KeyOf(steps[i]) != KeyOf(steps[j]);
    }
    forall s, t | s in steps && t in s.created && (t.Finished? || t.Answered?) ensures t.step != ROOT_KEY {
      assert ReferencesOk(steps, s) && MayRefer(steps, t.step);
    }
    forall s | s in steps ensures ROOT_KEY !in s.alsoAfter {
      assert ReferencesOk(steps, s) && !MayRefer(steps, ROOT_KEY);
    }
    var root := FindStep(steps, ROOT_KEY);
    assert root.Some? ==> ShapeOk(root.value);
  }

  // Triggers as they are fired.

  /** A step's key is written as others refer to it, and an answer as it is stored. */
  predicate WrittenAsFired(steps: seq<Step>, t: Trigger) {
    match t
    case Finished(key) => FindStep(steps, key).Some?
    case Answered(key, answer) =>
      QuestionOf(steps, key).Some?
      && exists a :: a in Q.Answers(QuestionOf(steps, key).value) && SameButCase(a, answer)
    case _ => true
  }

  /** What is fired names a step of a task there is, not the root, and an answer
      as stored. */
  lemma FiredIs(steps: seq<Step>, tasks: seq<StepTask>, event: RunEvent, f: Trigger)
    requires f in Read(steps, tasks, event).fired && QuestionOf(steps, ROOT_KEY).None?
    ensures f.Finished? || f.Answered? ==> f.step != ROOT_KEY && exists t :: t in tasks && t.step == f.step
    ensures f.Answered? ==>
              QuestionOf(steps, f.step).Some? && f.answer in Q.Answers(QuestionOf(steps, f.step).value)
    ensures f.WithRoot? ==> event.Created?
    ensures f.RootStarted? ==> event.RootStarts?
  {
  }

  /** A trigger that fires is written so, and names a step of a task there is. */
  lemma MatchedIs(steps: seq<Step>, tasks: seq<StepTask>, event: RunEvent, t: Trigger)
    requires Matches(Read(steps, tasks, event).fired, t) && QuestionOf(steps, ROOT_KEY).None?
    requires forall o :: o in tasks && o.step != ROOT_KEY ==> FindStep(steps, o.step).Some?
    ensures WrittenAsFired(steps, t)
    ensures t.Finished? || t.Answered? ==> t.step != ROOT_KEY && exists o :: o in tasks && o.step == t.step
    ensures t.WithRoot? ==> event.Created?
    ensures t.RootStarted? ==> event.RootStarts?
  {
    var fired := Read(steps, tasks, event).fired;
    if t.Answered? {
      var f :| f in fired && f.Answered? && f.step == t.step && SameButCase(f.answer, t.answer);
      FiredIs(steps, tasks, event, f);
    } else {
      FiredIs(steps, tasks, event, t);
    }
  }
}
