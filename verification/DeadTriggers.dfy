/** Programs that may be saved though a trigger of theirs never fires, and one of
    which no run can be started. */
module DeadTriggers {
  import opened Options
  import opened Text
  import opened Ids
  import opened Offsets
  import opened Program
  import opened Transition
  import opened Runs
  import opened RunInvariants
  import opened ProgramCheck
  import opened StepTrails
  import opened Titles
  import opened RunStart
  import opened RunTraces
  import opened SavedTriggers
  import Q = Questions

  // A step waits for an answer named with a blank before it.

  const ASKS := Q.Question("Is it full?", Q.YesNo, None)
  const ROOT_STEP := Step(ROOT_KEY, "Rounds", [], false, [], Manual, None, true, None, None)
  const ASKING_STEP := Step("a", "Bins", [WithRoot], false, [], Manual, None, true, Some(ASKS), None)
  const NEVER := Answered("a", " yes")
  const WAITING_STEP := Step("b", "Lights", [NEVER], false, [], Manual, None, true, None, None)
  const BLANK_BEFORE := Draft("Bins", [ROOT_STEP, ASKING_STEP, WAITING_STEP], 1)

  lemma BlankIsTrimmed()
    ensures Trim(" yes") == "yes"
  {
    assert " yes"[1..] == "yes";
    assert TrimStart(" yes") == TrimStart("yes");
    TrimKeeps("yes");
  }

  lemma KeysAreTrimmed()
    ensures KeyOf(ROOT_STEP) == ROOT_KEY && KeyOf(ASKING_STEP) == "a" && KeyOf(WAITING_STEP) == "b"
  {
    TrimKeeps(ROOT_KEY);
    TrimKeeps("a");
    TrimKeeps("b");
  }

  lemma NeverIsAnswerable()
    ensures Answerable(BLANK_BEFORE.steps, NEVER)
  {
    var steps := BLANK_BEFORE.steps;
    KeysAreTrimmed();
    assert steps[1..][0] == ASKING_STEP;
    assert FirstKeyed(steps[1..], "a") == Some(ASKING_STEP);
    assert FirstKeyed(steps, "a") == Some(ASKING_STEP);
    BlankIsTrimmed();
    TrimKeeps("yes");
    assert "yes" in Q.Answers(ASKS) && Q.Normal("yes") == Q.Normal(" yes");
  }

  lemma BlankBeforeIsSaved()
    ensures ValidDraft(BLANK_BEFORE)
  {
    var steps := BLANK_BEFORE.steps;
    TrimKeeps("Bins");
    assert steps[0] == ROOT_STEP && ROOT_STEP in steps && IsRoot(ROOT_STEP);
    KeysAreDistinct();
    PlainStepsAreOk();
    WaitingStepIsOk();
  }

  lemma KeysAreDistinct()
    ensures KeysOk(BLANK_BEFORE.steps)
  {
    KeysAreTrimmed();
    ThreeDiffer(BLANK_BEFORE.steps);
  }

  lemma PlainStepsAreOk()
    ensures StepOk(BLANK_BEFORE.steps, ROOT_STEP) && StepOk(BLANK_BEFORE.steps, ASKING_STEP)
  {
    TrimKeeps("Is it full?");
    TrimKeeps("Rounds");
    TrimKeeps("Bins");
  }

  lemma WaitingStepIsOk()
    ensures StepOk(BLANK_BEFORE.steps, WAITING_STEP)
  {
    var steps := BLANK_BEFORE.steps;
    KeysAreTrimmed();
    NeverIsAnswerable();
    TrimKeeps("Lights");
    assert steps[1] in steps && KeyOf(steps[1]) == "a";
    assert MayRefer(steps, "a");
  }

  lemma NeverIsNotWritten()
    ensures !WrittenAsFired(BLANK_BEFORE.steps, NEVER)
  {
    var steps := BLANK_BEFORE.steps;
    assert steps[0].key != "a" && steps[1].key == "a" && steps[1..][0] == ASKING_STEP;
    assert FindStep(steps[1..], "a") == Some(ASKING_STEP);
    assert QuestionOf(steps, "a") == Some(ASKS);
    assert |Lower(" yes")| == 4 && |Lower("yes")| == 3 && |Lower("no")| == 2;
  }

  lemma NeverNeverGoes()
    ensures !Goes(AmpleAll(BLANK_BEFORE.steps), NEVER)
  {
    NoListsIsAmple(BLANK_BEFORE.steps);
    NeverIsNotWritten();
    if Goes(BLANK_BEFORE.steps, NEVER) {
      WhatGoesIsWritten(BLANK_BEFORE.steps, NEVER);
    }
  }

  /** It is saved, and on no board and in no run does the answer ever set off the
      step that waits for it. */
  lemma BlankBeforeNeverFires(env: Setting)
    requires ValidSetting(env.(steps := BLANK_BEFORE.steps))
    ensures ValidDraft(BLANK_BEFORE) && NEVER in WAITING_STEP.created && !FiresNarrowed(BLANK_BEFORE.steps, env, NEVER)
  {
    BlankBeforeIsSaved();
    NeverNeverGoes();
    WhatCannotHappenNeverFires(BLANK_BEFORE, env, NEVER);
  }

  // Two steps wait for each other.

  const FIRST := Step("a", "Bins", [Finished("b")], false, [], Manual, None, true, None, None)
  const SECOND := Step("b", "Lights", [Finished("a")], false, [], Manual, None, true, None, None)
  const MUTUAL := Draft("Loop", [ROOT_STEP, FIRST, SECOND], 1)

  lemma MutualSteps()
    ensures MUTUAL.steps[0] == ROOT_STEP && MUTUAL.steps[1] == FIRST && MUTUAL.steps[2] == SECOND
    ensures KeyOf(FIRST) == "a" && KeyOf(SECOND) == "b" && KeyOf(ROOT_STEP) == ROOT_KEY
  {
    KeysAreTrimmed();
    TrimKeeps("a");
    TrimKeeps("b");
  }

  lemma MutualKeysAreDistinct()
    ensures KeysOk(MUTUAL.steps)
  {
    MutualSteps();
    ThreeDiffer(MUTUAL.steps);
  }

  lemma MutualStepsAreOk()
    ensures StepOk(MUTUAL.steps, ROOT_STEP) && StepOk(MUTUAL.steps, FIRST) && StepOk(MUTUAL.steps, SECOND)
  {
    MutualSteps();
    TrimKeeps("Rounds");
    TrimKeeps("Bins");
    TrimKeeps("Lights");
    assert MUTUAL.steps[1] in MUTUAL.steps && MUTUAL.steps[2] in MUTUAL.steps;
    assert MayRefer(MUTUAL.steps, "a") && MayRefer(MUTUAL.steps, "b");
  }

  lemma MutualIsSaved()
    ensures ValidDraft(MUTUAL)
  {
    TrimKeeps("Loop");
    MutualSteps();
    assert ROOT_STEP in MUTUAL.steps && IsRoot(ROOT_STEP);
    MutualKeysAreDistinct();
    MutualStepsAreOk();
  }

  /** Both triggers name a step as its key is written. */
  lemma MutualIsWritten()
    ensures WrittenAsFired(MUTUAL.steps, Finished("a")) && WrittenAsFired(MUTUAL.steps, Finished("b"))
  {
    MutualSteps();
    FindStepAt(MUTUAL.steps, 1);
    FindStepAt(MUTUAL.steps, 2);
  }

  lemma NothingIsFirst(started: bool, k: int)
    requires 0 <= k < |MUTUAL.steps|
    ensures !ComesFirst(MUTUAL.steps[k], started)
  {
    MutualSteps();
  }

  lemma NothingComes(key: string, started: bool)
    ensures !Comes(MUTUAL.steps, key, started)
  {
    forall p ensures !TrailTo(MUTUAL.steps, p, started, key) {
      if p != [] {
        forall k ensures !FirstAt(MUTUAL.steps, p[0], started, k) {
          if 0 <= k < |MUTUAL.steps| {
            NothingIsFirst(started, k);
          }
        }
      }
    }
  }

  lemma MutualStartsUp()
    ensures StartsUp(MUTUAL.steps)
  {
    MutualSteps();
    FindStepAt(MUTUAL.steps, 0);
    TrimKeeps("Rounds");
    forall k | 0 <= k < |MUTUAL.steps| ensures !IsTriggered([WithRoot], MUTUAL.steps[k]) {
    }
  }

  /** A run of it can be started, and never has a task but its root. */
  lemma MutualStandsStill(env: Setting, startAt: Option<Time>, start: Time, ops: seq<Op>)
    requires ValidSetting(env) && env.steps == MUTUAL.steps
    ensures CanStart(env, startAt, start)
    ensures |ExecAll(env, StartRun(env, startAt, start), ops).rows| == 1
  {
    MutualStartsUp();
    CanStartIs(env, startAt, start);
    StartIsTraced(env, startAt, start);
    RunIsTraced(env, StartRun(env, startAt, start), ops);
    var s := ExecAll(env, StartRun(env, startAt, start), ops);
    if |s.rows| > 1 {
      assert RowTraced(env, s.rows[1], s.startedAt.Some?);
      NothingComes(s.rows[1].step, s.startedAt.Some?);
    }
  }

  lemma MutualHasNoLists()
    ensures NoLists(MUTUAL.steps)
  {
    MutualSteps();
  }

  lemma MutualFinishNeverFires(d: Draft, env: Setting, key: string)
    requires ValidSetting(env.(steps := d.steps)) && ValidDraft(d) && d.steps == MUTUAL.steps
    ensures !FiresNarrowed(d.steps, env, Finished(key))
  {
    MutualHasNoLists();
    NothingComes(key, true);
    NothingComes(key, false);
    WhatNeverComesNeverFires(d, env, Finished(key));
  }

  /** It is saved, both triggers are written as they would be fired, and neither
      ever is. */
  lemma MutualNeverFires(env: Setting)
    requires ValidSetting(env.(steps := MUTUAL.steps))
    ensures ValidDraft(MUTUAL) && Finished("b") in FIRST.created && Finished("a") in SECOND.created
    ensures WrittenAsFired(MUTUAL.steps, Finished("a")) && WrittenAsFired(MUTUAL.steps, Finished("b"))
    ensures !FiresNarrowed(MUTUAL.steps, env, Finished("a")) && !FiresNarrowed(MUTUAL.steps, env, Finished("b"))
  {
    MutualIsSaved();
    MutualIsWritten();
    MutualFinishNeverFires(MUTUAL, env, "a");
    MutualFinishNeverFires(MUTUAL, env, "b");
  }

  // A title leaves no room for an entry.

  const LONG: string := seq(199, _ => 'x')
  const PLAIN := Step("a", "Bins", [WithRoot], false, [], Manual, None, true, None, None)
  const TOO_LONG := Step("b", LONG, [Finished("a")], false, [], Manual, None, true, None, Some(["x"]))
  const LONG_TITLE := Draft("Loop", [ROOT_STEP, PLAIN, TOO_LONG], 1)
  const TOO_LONG_AT_ONCE := TOO_LONG.(created := [WithRoot])
  const LONG_START := Draft("Loop", [ROOT_STEP, PLAIN, TOO_LONG_AT_ONCE], 1)

  lemma LongIsATitle()
    ensures TitleOk(LONG) && !HasParam(LONG) && !LeavesRoom(LONG)
  {
    TrimKeeps(LONG);
    HasNoBrace(LONG);
  }

  lemma {:induction false} HasNoBrace(s: string)
    requires forall i :: 0 <= i < |s| ==> s[i] == 'x'
    ensures !HasParam(s)
  {
    if |s| >= |PARAM| {
      assert PARAM[0] == '{';
      HasNoBrace(s[1..]);
    }
  }

  /** A program of the root, a step that comes with it, and a third. */
  predicate OfThree(steps: seq<Step>, third: Step) {
    steps == [ROOT_STEP, PLAIN, third] && third.key == "b" && TitleOk(third.title)
  }

  lemma ThreeAreSaved(d: Draft, third: Step)
    requires OfThree(d.steps, third) && d.name == "Loop" && d.minSamples == 1
    requires third.created == [Finished("a")] || third.created == [WithRoot]
    requires third.alsoAfter == [] && third.question.None? && third.timeLimit.None? && third.start.Manual?
    requires third.fanOut == Some(["x"])
    ensures ValidDraft(d)
  {
    TrimKeeps("Loop");
    KeysAreTrimmed();
    assert d.steps[0] == ROOT_STEP && d.steps[1] == PLAIN && d.steps[2] == third;
    assert ROOT_STEP in d.steps && IsRoot(ROOT_STEP);
    ThreeKeysAreOk(d.steps, third);
    ThreeStepsAreOk(d.steps, third);
  }

  lemma ThreeKeysAreOk(steps: seq<Step>, third: Step)
    requires OfThree(steps, third)
    ensures KeysOk(steps)
  {
    KeysAreTrimmed();
    assert KeyOf(third) == "b";
    ThreeDiffer(steps);
  }

  lemma ThreeDiffer(steps: seq<Step>)
    requires |steps| == 3 && KeyOf(steps[0]) == ROOT_KEY && KeyOf(steps[1]) == "a" && KeyOf(steps[2]) == "b"
    ensures KeysOk(steps)
  {
    assert |ROOT_KEY| == 4 && "a"[0] != "b"[0];
    AllDiffer(steps, ROOT_KEY, "a", "b");
  }

  lemma AllDiffer(steps: seq<Step>, a: string, b: string, c: string)
    requires a != "" && b != "" && c != "" && a != b && a != c && b != c
    requires |steps| == 3 && KeyOf(steps[0]) == a && KeyOf(steps[1]) == b && KeyOf(steps[2]) == c
    ensures KeysOk(steps)
  {
    forall i, j | 0 <= i < j < |steps| ensures KeyOf(steps[i]) != KeyOf(steps[j]) {
      assert (i == 0 && j == 1) || (i == 0 && j == 2) || (i == 1 && j == 2);
    }
    forall s | s in steps ensures KeyOf(s) != "" {
      assert s == steps[0] || s == steps[1] || s == steps[2];
    }
  }

  lemma ThreeStepsAreOk(steps: seq<Step>, third: Step)
    requires OfThree(steps, third) && (third.created == [Finished("a")] || third.created == [WithRoot])
    requires third.alsoAfter == [] && third.question.None? && third.timeLimit.None? && third.start.Manual?
    requires third.fanOut == Some(["x"])
    ensures AllStepsOk(steps)
  {
    TrimKeeps("Rounds");
    TrimKeeps("Bins");
    assert StepOk(steps, ROOT_STEP);
    assert StepOk(steps, PLAIN);
    ThirdIsOk(steps, third);
  }

  lemma ThirdIsOk(steps: seq<Step>, third: Step)
    requires OfThree(steps, third) && (third.created == [Finished("a")] || third.created == [WithRoot])
    requires third.alsoAfter == [] && third.question.None? && third.timeLimit.None? && third.start.Manual?
    requires third.fanOut == Some(["x"])
    ensures StepOk(steps, third)
  {
    KeysAreTrimmed();
    TrimKeeps("x");
    assert steps[1] in steps && MayRefer(steps, "a");
    assert "x" in third.fanOut.value;
  }

  lemma LongNeverFits(s: Step)
    requires s.title == LONG && s.fanOut.Some?
    ensures !Fits(Ample(s))
  {
    LongIsATitle();
    AmpleFits(s);
  }

  lemma LongTitleIsSaved()
    ensures ValidDraft(LONG_TITLE) && LONG_TITLE.steps[2] == TOO_LONG && LONG_TITLE.steps[1] == PLAIN
  {
    LongIsATitle();
    ThreeAreSaved(LONG_TITLE, TOO_LONG);
  }

  /** It is saved, its trigger is written as it would be fired, and yet it never
      is: every finish is refused, whatever the entries. */
  lemma LongTitleNeverFires(env: Setting)
    requires ValidSetting(env.(steps := LONG_TITLE.steps))
    ensures ValidDraft(LONG_TITLE) && Finished("a") in TOO_LONG.created && WrittenAsFired(LONG_TITLE.steps, Finished("a"))
    ensures !FiresNarrowed(LONG_TITLE.steps, env, Finished("a"))
  {
    LongTitleIsSaved();
    FindStepAt(LONG_TITLE.steps, 1);
    LongNeverFits(TOO_LONG);
    UnfitNeverFires(LONG_TITLE, env, Finished("a"), 2);
  }

  lemma LongStartIsSaved()
    ensures ValidDraft(LONG_START) && LONG_START.steps[2] == TOO_LONG_AT_ONCE
  {
    LongIsATitle();
    ThreeAreSaved(LONG_START, TOO_LONG_AT_ONCE);
  }

  /** The same step, coming with the root: saved, and no run can be started. */
  lemma LongStartNeverStarts(env: Setting, ns: seq<Narrowing>, startAt: Option<Time>, now: Time)
    requires env.column in env.board.columns && Narrowed(LONG_START.steps, ns).Ok?
    ensures ValidDraft(LONG_START)
    ensures !CanStart(env.(steps := Narrowed(LONG_START.steps, ns).value), startAt, now)
  {
    LongStartIsSaved();
    LongNeverFits(TOO_LONG_AT_ONCE);
    UnfitBlocks(LONG_START.steps, WithRoot, 2);
    NoRunStarts(LONG_START, env, ns, startAt, now);
  }

  // Nothing counts as the root starts.

  const LATE := Step("a", "Bins", [RootStarted], false, [], Manual, None, false, None, None)
  const AFTER := Step("b", "Lights", [Finished("a")], false, [], Manual, None, false, None, None)
  const NOTHING_COUNTS := Draft("Loop", [ROOT_STEP, LATE, AFTER], 1)

  lemma NothingCountsSteps()
    ensures var steps := NOTHING_COUNTS.steps; steps[0] == ROOT_STEP && steps[1] == LATE && steps[2] == AFTER
    ensures KeyOf(LATE) == "a" && KeyOf(AFTER) == "b" && KeyOf(ROOT_STEP) == ROOT_KEY
  {
    KeysAreTrimmed();
    TrimKeeps("a");
    TrimKeeps("b");
  }

  lemma NothingCountsStepsAreOk()
    ensures AllStepsOk(NOTHING_COUNTS.steps)
  {
    var steps := NOTHING_COUNTS.steps;
    NothingCountsSteps();
    TrimKeeps("Rounds");
    TrimKeeps("Bins");
    TrimKeeps("Lights");
    assert steps[1] in steps && MayRefer(steps, "a");
    assert StepOk(steps, ROOT_STEP) && StepOk(steps, LATE) && StepOk(steps, AFTER);
  }

  lemma NothingCountsKeysAreDistinct()
    ensures KeysOk(NOTHING_COUNTS.steps)
  {
    NothingCountsSteps();
    ThreeDiffer(NOTHING_COUNTS.steps);
  }

  lemma NothingCountsIsSaved()
    ensures ValidDraft(NOTHING_COUNTS)
  {
    TrimKeeps("Loop");
    NothingCountsKeysAreDistinct();
    NothingCountsSteps();
    assert ROOT_STEP in NOTHING_COUNTS.steps && IsRoot(ROOT_STEP);
    NothingCountsStepsAreOk();
  }

  lemma NothingComesBefore(key: string)
    ensures !Comes(NOTHING_COUNTS.steps, key, false)
  {
    NothingCountsSteps();
    forall p ensures !TrailTo(NOTHING_COUNTS.steps, p, false, key) {
      if p != [] {
        forall k ensures !FirstAt(NOTHING_COUNTS.steps, p[0], false, k) {
          assert 0 <= k < 3 ==> !ComesFirst(NOTHING_COUNTS.steps[k], false);
        }
      }
    }
  }

  lemma NothingCountsHasNoLists()
    ensures NoLists(NOTHING_COUNTS.steps)
  {
    NothingCountsSteps();
  }

  lemma NothingCountsClosesAtOnce()
    ensures !OutlivesStart(NOTHING_COUNTS.steps)
  {
    NothingCountsSteps();
    forall k ensures !CountsAt(NOTHING_COUNTS.steps, k) {
      assert 0 <= k < 3 ==> IsRoot(NOTHING_COUNTS.steps[k]) || !NOTHING_COUNTS.steps[k].counts;
    }
  }

  /** It is saved, its first step comes with the root's start, and the run closes
      with it: that step is never finished in an active run. */
  lemma NothingCountsNeverFires(env: Setting)
    requires ValidSetting(env.(steps := NOTHING_COUNTS.steps))
    ensures ValidDraft(NOTHING_COUNTS) && Finished("a") in AFTER.created && RootStarted in LATE.created
    ensures !FiresNarrowed(NOTHING_COUNTS.steps, env, Finished("a"))
  {
    NothingCountsIsSaved();
    NothingCountsSteps();
    NothingComesBefore("a");
    NothingCountsClosesAtOnce();
    NothingCountsHasNoLists();
    WhatNeverComesNeverFires(NOTHING_COUNTS, env, Finished("a"));
  }
}
