/** Which triggers of a saved program can ever fire, when its fan-out lists may be
    narrowed for a run. */
module SavedTriggers {
  import opened Options
  import opened Text
  import opened Titles
  import Offsets
  import opened Program
  import opened ProgramCheck
  import opened Runs
  import opened RunInvariants
  import opened RunStart
  import opened StepTrails
  import opened RunReach
  import opened RunTraces
  import opened RunTriggers
  import Q = Questions

  /** Two entries as short as can be: the list that leaves most room. */
  const SHORTEST := ["x", "x"]

  function Ample(s: Step): Step {
    if s.fanOut.Some? then s.(fanOut := Some(SHORTEST)) else s
  }

  function AmpleAll(steps: seq<Step>): (r: seq<Step>)
    ensures |r| == |steps| && forall i :: 0 <= i < |steps| ==> r[i] == Ample(steps[i])
  {
    seq(|steps|, i requires 0 <= i < |steps| => Ample(steps[i]))
  }

  /** Some run of the program fires the trigger, its lists narrowed somehow. */
  ghost predicate FiresNarrowed(steps: seq<Step>, env: Setting, t: Trigger) {
    exists ns :: FiresWith(steps, env, t, ns)
  }

  ghost predicate FiresWith(steps: seq<Step>, env: Setting, t: Trigger, ns: seq<Narrowing>) {
    Narrowed(steps, ns).Ok? && CanFire(env.(steps := Narrowed(steps, ns).value), t)
  }

  // A step can be made in some run.

  /** A step of a saved program can be made, with its list narrowed if it has one,
      exactly if it has none or its title leaves room for an entry. */
  lemma AmpleFits(s: Step)
    requires TitleOk(s.title)
    ensures Fits(Ample(s)) <==> s.fanOut.None? || LeavesRoom(s.title)
  {
    var a := Ample(s);
    if s.fanOut.None? {
      assert Params(a) == [None];
      TrimKeeps(Trim(s.title));
    } else {
      assert Params(a) == [Some("x"), Some("x")];
      TrimKeeps("x");
      if LeavesRoom(s.title) {
        ShortEntryFits(s.title);
      } else {
        NoRoomNoFit(s.title, "x");
        assert Some("x") in Params(a);
      }
    }
  }

  /** A step that fits with any list fits with the shortest. */
  lemma FittingLeavesRoom(s: Step, p: string)
    requires TitleOk(s.title) && s.fanOut.Some? && p in s.fanOut.value && Trim(p) != "" && Fits(s)
    ensures Fits(Ample(s))
  {
    assert Some(p) in Params(s) by {
      var i :| 0 <= i < |s.fanOut.value| && s.fanOut.value[i] == p;
      assert Params(s)[i] == Some(p);
    }
    if !LeavesRoom(s.title) {
      NoRoomNoFit(s.title, p);
    }
    AmpleFits(s);
  }

  // More room lets more through.

  /** The same steps, but for lists that leave more room and are no longer than one
      entry where the others are. */
  predicate Roomier(a: seq<Step>, b: seq<Step>) {
    |b| == |a| && forall i :: 0 <= i < |a| ==> RoomierStep(a[i], b[i])
  }

  predicate RoomierStep(a: Step, b: Step) {
    && SameButList(a, b) && (Fits(a) ==> Fits(b)) && (|Params(a)| > 1 ==> |Params(b)| > 1)
  }

  lemma SoundInMore(a: seq<Step>, b: seq<Step>, fired: seq<Trigger>)
    requires Roomier(a, b) && Sound(a, fired)
    ensures Sound(b, fired)
  {
    forall k | 0 <= k < |b| && !IsRoot(b[k]) && IsTriggered(fired, b[k]) ensures Fits(b[k]) {
      assert RoomierStep(a[k], b[k]) && IsTriggered(fired, a[k]);
    }
  }

  lemma RoomierTail(a: seq<Step>, b: seq<Step>)
    requires Roomier(a, b) && a != []
    ensures Roomier(a[1..], b[1..])
  {
    forall i | 0 <= i < |a| - 1 ensures RoomierStep(a[1..][i], b[1..][i]) {
      assert a[1..][i] == a[i + 1] && b[1..][i] == b[i + 1];
    }
  }

  lemma {:induction false} FoundInMore(a: seq<Step>, b: seq<Step>, key: string)
    requires Roomier(a, b)
    ensures FindStep(a, key).Some? <==> FindStep(b, key).Some?
    ensures FindStep(a, key).Some? ==> RoomierStep(FindStep(a, key).value, FindStep(b, key).value)
  {
    if a != [] {
      assert RoomierStep(a[0], b[0]);
      RoomierTail(a, b);
      FoundInMore(a[1..], b[1..], key);
    }
  }

  lemma GoesInMore(a: seq<Step>, b: seq<Step>, t: Trigger)
    requires Roomier(a, b) && Goes(a, t)
    ensures Goes(b, t)
  {
    match t {
      case Finished(key) =>
        FoundInMore(a, b, key);
        SoundInMore(a, b, [t]);
      case Answered(key, answer) =>
        FoundInMore(a, b, key);
        var x :| x in Q.Answers(QuestionOf(a, key).value) && SameButCase(x, answer) && AnswerGoes(a, key, x);
        AnswerGoesInMore(a, b, key, x);
      case _ =>
        SoundInMore(a, b, [t]);
    }
  }

  lemma AnswerGoesInMore(a: seq<Step>, b: seq<Step>, key: string, x: string)
    requires Roomier(a, b) && AnswerGoes(a, key, x)
    ensures AnswerGoes(b, key, x)
  {
    SoundInMore(a, b, [Answered(key, x)]);
    FoundInMore(a, b, key);
    if Sound(a, [Finished(key)]) {
      SoundInMore(a, b, [Finished(key)]);
    }
  }

  lemma LeadsInMore(a: seq<Step>, b: seq<Step>, x: string, y: string)
    requires Roomier(a, b) && Leads(a, x, y)
    ensures Leads(b, x, y)
  {
    var k :| LeadsAt(a, x, y, k);
    var t :| t in a[k].created && (t.Finished? || t.Answered?) && t.step == x && Goes(a, t);
    assert RoomierStep(a[k], b[k]);
    GoesInMore(a, b, t);
    assert LeadsAt(b, x, y, k);
  }

  lemma ComesInMore(a: seq<Step>, b: seq<Step>, key: string, started: bool)
    requires Roomier(a, b) && Comes(a, key, started)
    ensures Comes(b, key, started)
  {
    var p :| TrailTo(a, p, started, key);
    var k :| FirstAt(a, p[0], started, k);
    assert RoomierStep(a[k], b[k]) && FirstAt(b, p[0], started, k);
    forall i | 0 <= i < |p| - 1 ensures Leads(b, p[i], p[i + 1]) {
      LeadsInMore(a, b, p[i], p[i + 1]);
    }
    assert TrailTo(b, p, started, key);
  }

  lemma StartsUpInMore(a: seq<Step>, b: seq<Step>)
    requires Roomier(a, b) && StartsUp(a)
    ensures StartsUp(b)
  {
    FoundInMore(a, b, ROOT_KEY);
    GoesInMore(a, b, WithRoot);
  }

  lemma OutlivesInMore(a: seq<Step>, b: seq<Step>)
    requires Roomier(a, b) && OutlivesStart(a)
    ensures OutlivesStart(b)
  {
    GoesInMore(a, b, RootStarted);
    var k :| CountsAt(a, k);
    assert RoomierStep(a[k], b[k]);
    if Comes(a, a[k].key, false) {
      ComesInMore(a, b, a[k].key, false);
    }
    assert CountsAt(b, k);
  }

  lemma HappensInMore(a: seq<Step>, b: seq<Step>, t: Trigger)
    requires Roomier(a, b) && CanHappen(a, t)
    ensures CanHappen(b, t)
  {
    StartsUpInMore(a, b);
    GoesInMore(a, b, t);
    if t.Finished? || t.Answered? {
      if Comes(a, t.step, false) {
        ComesInMore(a, b, t.step, false);
      } else {
        ComesInMore(a, b, t.step, true);
        OutlivesInMore(a, b);
      }
    }
  }

  // Narrowings.

  /** A list of a saved step, narrowed or not, has an entry that is not blank. */
  lemma SomeEntry(s: Step, ns: seq<Narrowing>, steps: seq<Step>) returns (p: string)
    requires s.fanOut.Some? && !NothingToFanOut(s) && AllCanNarrow(steps, ns)
    ensures ListOf(s, ns).Some? && p in ListOf(s, ns).value && Trim(p) != ""
    decreases |ns|
  {
    if ns == [] {
      p :| p in s.fanOut.value && Trim(p) != "";
    } else {
      var n := ns[|ns| - 1];
      if FansOut(s, n.step) {
        p := Entries(n.entries)[0];
        EntriesAreTrimmed(n.entries, p);
      } else {
        AllButLast(steps, ns);
        p := SomeEntry(s, ns[..|ns| - 1], steps);
      }
    }
  }

  lemma {:induction false} EntriesAreTrimmed(raw: seq<string>, p: string)
    requires p in Entries(raw)
    ensures Trim(p) != ""
  {
    var k := |raw| - 1;
    if p in Entries(raw[..k]) {
      EntriesAreTrimmed(raw[..k], p);
    } else {
      TrimKeeps(p);
    }
  }

  /** No list leaves more room than the shortest. */
  lemma AmpleIsRoomiest(d: Draft, ns: seq<Narrowing>)
    requires ValidDraft(d) && Narrowed(d.steps, ns).Ok?
    ensures Roomier(Narrowed(d.steps, ns).value, AmpleAll(d.steps))
  {
    var steps, r := d.steps, Narrowed(d.steps, ns).value;
    SavedIsRunnable(d);
    NarrowedIs(steps, ns);
    forall i | 0 <= i < |steps| ensures RoomierStep(r[i], AmpleAll(steps)[i]) {
      assert steps[i] in steps && StepOk(steps, steps[i]);
      StepIsRoomiest(steps, steps[i], ns);
    }
  }

  lemma StepIsRoomiest(steps: seq<Step>, s: Step, ns: seq<Narrowing>)
    requires TitleOk(s.title) && !NothingToFanOut(s) && AllCanNarrow(steps, ns)
    ensures RoomierStep(s.(fanOut := ListOf(s, ns)), Ample(s))
  {
    var r := s.(fanOut := ListOf(s, ns));
    ListStays(s, ns);
    if s.fanOut.Some? && Fits(r) {
      var p := SomeEntry(s, ns, steps);
      FittingLeavesRoom(r, p);
      assert Ample(r) == Ample(s);
    }
  }

  /** The narrowing that leaves most room. */
  function AmpleNarrowing(steps: seq<Step>): seq<Narrowing> {
    if steps == [] then []
    else
      var s := steps[|steps| - 1];
      AmpleNarrowing(steps[..|steps| - 1]) + if s.fanOut.Some? then [Narrowing(s.key, SHORTEST)] else []
  }

  lemma {:induction false} AmpleCanNarrow(steps: seq<Step>, n: nat)
    requires n <= |steps|
    ensures AllCanNarrow(steps, AmpleNarrowing(steps[..n]))
  {
    if n > 0 {
      AmpleCanNarrow(steps, n - 1);
      assert steps[..n][..n - 1] == steps[..n - 1];
      ShortestIsItself();
      OneMoreNarrowing(steps, AmpleNarrowing(steps[..n - 1]), n - 1);
    }
  }

  lemma OneMoreNarrowing(steps: seq<Step>, ns: seq<Narrowing>, k: nat)
    requires AllCanNarrow(steps, ns) && k < |steps| && Entries(SHORTEST) == SHORTEST
    ensures AllCanNarrow(steps, ns + if steps[k].fanOut.Some? then [Narrowing(steps[k].key, SHORTEST)] else [])
  {
    assert steps[k].fanOut.Some? ==> FansOut(steps[k], steps[k].key);
  }

  lemma {:induction false} AmpleListIs(s: Step, steps: seq<Step>)
    requires s in steps && s.fanOut.Some?
    ensures ListOf(s, AmpleNarrowing(steps)) == Some(SHORTEST)
  {
    var k := |steps| - 1;
    var last, ns := steps[k], AmpleNarrowing(steps);
    assert steps == steps[..k] + [last];
    ShortestIsItself();
    if last.fanOut.Some? {
      assert ns[..|ns| - 1] == AmpleNarrowing(steps[..k]);
      if s.key != last.key {
        AmpleListIs(s, steps[..k]);
      }
    } else {
      assert ns == AmpleNarrowing(steps[..k]);
      AmpleListIs(s, steps[..k]);
    }
  }

  lemma ShortestIsItself()
    ensures Entries(SHORTEST) == SHORTEST
  {
    TrimKeeps("x");
    assert SHORTEST[..1] == ["x"] && ["x"][..0] == [];
    assert Entries(["x"]) == Entries([]) + ["x"];
  }

  lemma AmpleIsNarrowed(steps: seq<Step>)
    requires DistinctKeys(steps)
    ensures Narrowed(steps, AmpleNarrowing(steps)) == Ok(AmpleAll(steps))
  {
    var ns := AmpleNarrowing(steps);
    assert steps[..|steps|] == steps;
    AmpleCanNarrow(steps, |steps|);
    NarrowedIs(steps, ns);
    var r := Narrowed(steps, ns).value;
    forall i | 0 <= i < |steps| ensures r[i] == Ample(steps[i]) {
      ListStays(steps[i], ns);
      if steps[i].fanOut.Some? {
        AmpleListIs(steps[i], steps);
      }
    }
    assert r == AmpleAll(steps);
  }

  // Saved programs.

  lemma NarrowedQuestions(d: Draft, ns: seq<Narrowing>)
    requires ValidDraft(d) && Narrowed(d.steps, ns).Ok?
    ensures QuestionsOk(Narrowed(d.steps, ns).value)
  {
    var steps, r := d.steps, Narrowed(d.steps, ns).value;
    SavedIsRunnable(d);
    NarrowedIs(steps, ns);
    forall s | s in r && s.question.Some? ensures Q.Valid(s.question.value) {
      var i :| 0 <= i < |r| && r[i] == s;
      assert steps[i] in steps && StepOk(steps, steps[i]);
    }
  }

  /** Of a saved program, on any board: a trigger fires in some run, its fan-out
      lists narrowed as one likes, exactly when with the shortest lists a run can
      be started, what the trigger sets off can be made, and it names a step a
      run can come to. The check on saving asks only that the step is there,
      blanks around its key and its answer aside, and looks at bare titles. */
  lemma SavedTriggerFires(d: Draft, env: Setting, s: Step, t: Trigger)
    requires ValidDraft(d) && ValidSetting(env.(steps := d.steps)) && s in d.steps && t in s.created
    ensures FiresNarrowed(d.steps, env, t) <==> CanHappen(AmpleAll(d.steps), t)
  {
    SavedIsRunnable(d);
    if FiresNarrowed(d.steps, env, t) {
      var ns :| FiresWith(d.steps, env, t, ns);
      FiredNarrowedHappens(d, env, t, ns);
    }
    if CanHappen(AmpleAll(d.steps), t) {
      var ns := AmpleNarrowing(d.steps);
      AmpleIsNarrowed(d.steps);
      NarrowedIsValid(d.steps, ns);
      NarrowedQuestions(d, ns);
      TriggerFires(env.(steps := AmpleAll(d.steps)), t);
      assert FiresWith(d.steps, env, t, ns);
    }
  }

  lemma FiredNarrowedHappens(d: Draft, env: Setting, t: Trigger, ns: seq<Narrowing>)
    requires ValidDraft(d) && ValidSetting(env.(steps := d.steps)) && FiresWith(d.steps, env, t, ns)
    ensures CanHappen(AmpleAll(d.steps), t)
  {
    var r := Narrowed(d.steps, ns).value;
    SavedIsRunnable(d);
    NarrowedIsValid(d.steps, ns);
    NarrowedQuestions(d, ns);
    TriggerFires(env.(steps := r), t);
    AmpleIsRoomiest(d, ns);
    HappensInMore(r, AmpleAll(d.steps), t);
  }

  /** What cannot happen with the shortest lists never fires, whatever the lists. */
  lemma WhatCannotHappenNeverFires(d: Draft, env: Setting, t: Trigger)
    requires ValidDraft(d) && ValidSetting(env.(steps := d.steps)) && !CanHappen(AmpleAll(d.steps), t)
    ensures !FiresNarrowed(d.steps, env, t)
  {
    forall ns ensures !FiresWith(d.steps, env, t, ns) {
      if FiresWith(d.steps, env, t, ns) {
        FiredNarrowedHappens(d, env, t, ns);
      }
    }
  }

  /** A step that no entry fits keeps whatever makes it from going off. */
  lemma UnfitBlocks(steps: seq<Step>, t: Trigger, k: nat)
    requires k < |steps| && !IsRoot(steps[k]) && t in steps[k].created && !t.Answered? && !Fits(Ample(steps[k]))
    ensures !Goes(AmpleAll(steps), t)
  {
    var b := AmpleAll(steps)[k];
    assert b == Ample(steps[k]) && IsTriggered([t], b);
  }

  lemma UnfitNeverFires(d: Draft, env: Setting, t: Trigger, k: nat)
    requires ValidDraft(d) && ValidSetting(env.(steps := d.steps)) && k < |d.steps|
    requires !IsRoot(d.steps[k]) && t in d.steps[k].created && !t.Answered? && !Fits(Ample(d.steps[k]))
    ensures !FiresNarrowed(d.steps, env, t)
  {
    UnfitBlocks(d.steps, t, k);
    WhatCannotHappenNeverFires(d, env, t);
  }

  predicate NoLists(steps: seq<Step>) {
    forall s :: s in steps ==> s.fanOut.None?
  }

  lemma NoListsIsAmple(steps: seq<Step>)
    requires NoLists(steps)
    ensures AmpleAll(steps) == steps
  {
    forall i | 0 <= i < |steps| ensures AmpleAll(steps)[i] == steps[i] {
      assert steps[i] in steps;
    }
  }

  /** A program without lists, one of whose steps no run comes to. */
  lemma WhatNeverComesNeverFires(d: Draft, env: Setting, t: Trigger)
    requires ValidDraft(d) && ValidSetting(env.(steps := d.steps)) && NoLists(d.steps)
    requires (t.Finished? || t.Answered?) && !Comes(d.steps, t.step, false)
    requires !Comes(d.steps, t.step, true) || !OutlivesStart(d.steps)
    ensures !FiresNarrowed(d.steps, env, t)
  {
    NoListsIsAmple(d.steps);
    WhatCannotHappenNeverFires(d, env, t);
  }

  /** If a run cannot be started with the shortest lists, it cannot be started. */
  lemma NoRunStarts(d: Draft, env: Setting, ns: seq<Narrowing>, startAt: Option<Offsets.Time>, now: Offsets.Time)
    requires ValidDraft(d) && env.column in env.board.columns && Narrowed(d.steps, ns).Ok?
    requires !StartsUp(AmpleAll(d.steps))
    ensures !CanStart(env.(steps := Narrowed(d.steps, ns).value), startAt, now)
  {
    AmpleIsRoomiest(d, ns);
    CanStartIs(env.(steps := Narrowed(d.steps, ns).value), startAt, now);
    if StartsUp(Narrowed(d.steps, ns).value) {
      StartsUpInMore(Narrowed(d.steps, ns).value, AmpleAll(d.steps));
    }
  }
}
