/** Which steps of a program a run can come to, told by the steps alone: from
    those that come with the root, or with its start, on through finishes and
    answers that are not refused. A transaction is refused as a whole when it
    makes a task whose title is empty or too long. */
module StepTrails {
  import opened Options
  import opened Text
  import opened Titles
  import opened Program
  import opened ProgramCheck
  import Q = Questions

  // What goes through.

  /** Every step these triggers set off has titles its tasks may have. */
  predicate Sound(steps: seq<Step>, fired: seq<Trigger>) {
    forall k :: 0 <= k < |steps| && !IsRoot(steps[k]) && IsTriggered(fired, steps[k]) ==> Fits(steps[k])
  }

  lemma TriggeredByEither(a: seq<Trigger>, b: seq<Trigger>, s: Step)
    ensures IsTriggered(a + b, s) <==> IsTriggered(a, s) || IsTriggered(b, s)
  {
    forall t | t in s.created ensures Matches(a + b, t) <==> Matches(a, t) || Matches(b, t) {
      if t.Answered? && (Matches(a, t) || Matches(b, t)) {
        var f :| (f in a || f in b) && f.Answered? && f.step == t.step && SameButCase(f.answer, t.answer);
        assert f in a + b;
      }
    }
  }

  lemma SoundConcat(steps: seq<Step>, a: seq<Trigger>, b: seq<Trigger>)
    ensures Sound(steps, a + b) <==> Sound(steps, a) && Sound(steps, b)
  {
    forall k | 0 <= k < |steps|
      ensures IsTriggered(a + b, steps[k]) <==> IsTriggered(a, steps[k]) || IsTriggered(b, steps[k])
    {
      TriggeredByEither(a, b, steps[k]);
    }
  }

  lemma NothingIsSound(steps: seq<Step>)
    ensures Sound(steps, [])
  {
  }

  /** A group of more than one task, so that one can be answered while another
      keeps the group open. */
  predicate SeveralAtOnce(steps: seq<Step>, key: string) {
    FindStep(steps, key).Some? && |Params(FindStep(steps, key).value)| > 1
  }

  /** Whether a task of the step can be finished at all, or at least one of
      several. */
  predicate Finishable(steps: seq<Step>, key: string) {
    Sound(steps, [Finished(key)]) || SeveralAtOnce(steps, key)
  }

  predicate AnswerGoes(steps: seq<Step>, key: string, a: string) {
    Sound(steps, [Answered(key, a)]) && Finishable(steps, key)
  }

  /** Whether the trigger can go off, once its step has a task: it is written as
      it is fired, and what it sets off can be made. */
  predicate Goes(steps: seq<Step>, t: Trigger) {
    match t
    case Finished(key) => FindStep(steps, key).Some? && Sound(steps, [t])
    case Answered(key, answer) =>
      QuestionOf(steps, key).Some?
      && exists a :: a in Q.Answers(QuestionOf(steps, key).value) && SameButCase(a, answer) && AnswerGoes(steps, key, a)
    case _ => Sound(steps, [t])
  }

  lemma WhatGoesIsWritten(steps: seq<Step>, t: Trigger)
    requires Goes(steps, t)
    ensures WrittenAsFired(steps, t)
  {
  }

  /** Whether a run of these steps can be started. */
  predicate StartsUp(steps: seq<Step>) {
    && FindStep(steps, ROOT_KEY).Some? && TitleOk(Filled(FindStep(steps, ROOT_KEY).value.title, None))
    && Goes(steps, WithRoot)
  }

  // Where it leads.

  /** Whether a step comes with the root, or with its start. */
  predicate ComesFirst(s: Step, started: bool) {
    !IsRoot(s) && (WithRoot in s.created || (started && RootStarted in s.created))
  }

  /** Whether finishing or answering a task of one step can make one of another. */
  predicate LeadsTo(steps: seq<Step>, key: string, s: Step) {
    !IsRoot(s) && exists t :: t in s.created && (t.Finished? || t.Answered?) && t.step == key && Goes(steps, t)
  }

  predicate FirstAt(steps: seq<Step>, key: string, started: bool, k: int) {
    0 <= k < |steps| && steps[k].key == key && ComesFirst(steps[k], started)
  }

  predicate LeadsAt(steps: seq<Step>, a: string, b: string, k: int) {
    0 <= k < |steps| && steps[k].key == b && LeadsTo(steps, a, steps[k])
  }

  ghost predicate Leads(steps: seq<Step>, a: string, b: string) {
    exists k :: LeadsAt(steps, a, b, k)
  }

  /** Steps, each led to by the one before, from one that comes with the root or,
      if it is started, with its start. */
  ghost predicate Trail(steps: seq<Step>, p: seq<string>, started: bool) {
    && p != [] && (exists k :: FirstAt(steps, p[0], started, k))
    && forall i :: 0 <= i < |p| - 1 ==> Leads(steps, p[i], p[i + 1])
  }

  ghost predicate TrailTo(steps: seq<Step>, p: seq<string>, started: bool, key: string) {
    Trail(steps, p, started) && p[|p| - 1] == key
  }

  /** Whether a run can come to the step: before its root is started, or at all. */
  ghost predicate Comes(steps: seq<Step>, key: string, started: bool) {
    exists p :: TrailTo(steps, p, started, key)
  }

  lemma FirstComes(steps: seq<Step>, k: nat, started: bool)
    requires k < |steps| && ComesFirst(steps[k], started)
    ensures Comes(steps, steps[k].key, started)
  {
    assert FirstAt(steps, [steps[k].key][0], started, k);
    assert TrailTo(steps, [steps[k].key], started, steps[k].key);
  }

  lemma NextComes(steps: seq<Step>, key: string, k: nat, started: bool)
    requires k < |steps| && Comes(steps, key, started) && LeadsTo(steps, key, steps[k])
    ensures Comes(steps, steps[k].key, started)
  {
    var p :| TrailTo(steps, p, started, key);
    var q := p + [steps[k].key];
    assert LeadsAt(steps, key, steps[k].key, k);
    var first :| FirstAt(steps, p[0], started, first);
    assert FirstAt(steps, q[0], started, first);
    forall i | 0 <= i < |q| - 1 ensures Leads(steps, q[i], q[i + 1]) {
      assert i < |p| - 1 ==> Leads(steps, p[i], p[i + 1]);
    }
    assert TrailTo(steps, q, started, steps[k].key);
  }

  lemma ComesBeforeComes(steps: seq<Step>, key: string)
    requires Comes(steps, key, false)
    ensures Comes(steps, key, true)
  {
    var p :| TrailTo(steps, p, false, key);
    var first :| FirstAt(steps, p[0], false, first);
    assert FirstAt(steps, p[0], true, first);
    assert TrailTo(steps, p, true, key);
  }

  // The same, computed.

  /** The steps that come first. */
  function FirstKeys(steps: seq<Step>, started: bool): set<string> {
    set k | 0 <= k < |steps| && ComesFirst(steps[k], started) :: steps[k].key
  }

  predicate LedFrom(steps: seq<Step>, keys: set<string>, s: Step) {
    exists key :: key in keys && LeadsTo(steps, key, s)
  }

  /** These steps, and those they lead to. */
  function OneFurther(steps: seq<Step>, keys: set<string>): set<string> {
    keys + set k | 0 <= k < |steps| && LedFrom(steps, keys, steps[k]) :: steps[k].key
  }

  /** A set after `n` rounds of adding to it. */
  function Rounds(add: set<string> -> set<string>, keys: set<string>, n: nat): set<string> {
    if n == 0 then keys else add(Rounds(add, keys, n - 1))
  }

  /** The steps come to in at most `n` more after the first. */
  function Within(steps: seq<Step>, started: bool, n: nat): set<string> {
    Rounds(keys => OneFurther(steps, keys), FirstKeys(steps, started), n)
  }

  lemma OneFurtherComes(steps: seq<Step>, started: bool, keys: set<string>, key: string)
    requires forall a :: a in keys ==> Comes(steps, a, started)
    requires key in OneFurther(steps, keys)
    ensures Comes(steps, key, started)
  {
    if key !in keys {
      var k :| 0 <= k < |steps| && LedFrom(steps, keys, steps[k]) && steps[k].key == key;
      var a :| a in keys && LeadsTo(steps, a, steps[k]);
      NextComes(steps, a, k, started);
    }
  }

  lemma {:induction false} WithinComes(steps: seq<Step>, started: bool, n: nat)
    ensures forall key :: key in Within(steps, started, n) ==> Comes(steps, key, started)
  {
    if n == 0 {
      forall key | key in FirstKeys(steps, started) ensures Comes(steps, key, started) {
        var k :| 0 <= k < |steps| && ComesFirst(steps[k], started) && steps[k].key == key;
        FirstComes(steps, k, started);
      }
    } else {
      WithinComes(steps, started, n - 1);
      forall key | key in Within(steps, started, n) ensures Comes(steps, key, started) {
        OneFurtherComes(steps, started, Within(steps, started, n - 1), key);
      }
    }
  }

  lemma LedIsFurther(steps: seq<Step>, keys: set<string>, a: string, b: string)
    requires a in keys && Leads(steps, a, b)
    ensures b in OneFurther(steps, keys)
  {
    var k :| LeadsAt(steps, a, b, k);
    assert LedFrom(steps, keys, steps[k]);
  }

  lemma {:induction false} TrailIsWithin(steps: seq<Step>, started: bool, p: seq<string>)
    requires Trail(steps, p, started)
    ensures p[|p| - 1] in Within(steps, started, |p| - 1)
  {
    var n := |p| - 1;
    if n == 0 {
      FirstIsFirst(steps, started, p[0]);
    } else {
      TrailBefore(steps, started, p);
      TrailIsWithin(steps, started, p[..n]);
      LedIsFurther(steps, Within(steps, started, n - 1), p[n - 1], p[n]);
    }
  }

  lemma FirstIsFirst(steps: seq<Step>, started: bool, key: string)
    requires exists k :: FirstAt(steps, key, started, k)
    ensures key in FirstKeys(steps, started)
  {
  }

  lemma TrailBefore(steps: seq<Step>, started: bool, p: seq<string>)
    requires Trail(steps, p, started) && |p| > 1
    ensures Trail(steps, p[..|p| - 1], started) && Leads(steps, p[|p| - 2], p[|p| - 1])
  {
    var q := p[..|p| - 1];
    forall i | 0 <= i < |q| - 1 ensures Leads(steps, q[i], q[i + 1]) {
      assert Leads(steps, p[i], p[i + 1]);
    }
    assert Leads(steps, p[|p| - 2], p[|p| - 2 + 1]);
  }

  ghost predicate Adds(add: set<string> -> set<string>) {
    forall keys :: keys <= add(keys)
  }

  /** Once nothing is added, nothing ever is. */
  lemma {:induction false} StaysSettled(add: set<string> -> set<string>, keys: set<string>, n: nat, m: nat)
    requires Rounds(add, keys, n) == Rounds(add, keys, n + 1) && m >= n
    ensures Rounds(add, keys, m) == Rounds(add, keys, n)
  {
    if m > n {
      StaysSettled(add, keys, n, m - 1);
    }
  }

  lemma {:induction false} RoundsGrow(add: set<string> -> set<string>, keys: set<string>, n: nat, m: nat)
    requires Adds(add) && n <= m
    ensures Rounds(add, keys, n) <= Rounds(add, keys, m)
  {
    if n < m {
      RoundsGrow(add, keys, n, m - 1);
    }
  }

  /** Until then something is added each time. */
  lemma {:induction false} SettledOrLarge(add: set<string> -> set<string>, keys: set<string>, n: nat)
    requires Adds(add) && add({}) == {}
    ensures Rounds(add, keys, n) == Rounds(add, keys, n + 1) || |Rounds(add, keys, n)| > n
  {
    if n > 0 {
      SettledOrLarge(add, keys, n - 1);
      if Rounds(add, keys, n - 1) == Rounds(add, keys, n) {
        StaysSettled(add, keys, n - 1, n + 1);
      } else {
        LargerSet(Rounds(add, keys, n - 1), Rounds(add, keys, n));
      }
    }
  }

  lemma LargerSet(a: set<string>, b: set<string>)
    requires a <= b
    ensures |a| <= |b| && (a != b ==> |a| < |b|)
  {
    assert b == a + (b - a);
    assert a != b ==> b - a != {};
  }

  function Keys(steps: seq<Step>): set<string> {
    set s | s in steps :: s.key
  }

  lemma {:induction false} FewKeys(steps: seq<Step>)
    ensures |Keys(steps)| <= |steps|
  {
    if steps != [] {
      assert steps == [steps[0]] + steps[1..];
      assert Keys(steps) == {steps[0].key} + Keys(steps[1..]);
      FewKeys(steps[1..]);
    }
  }

  lemma {:induction false} WithinKeys(steps: seq<Step>, started: bool, n: nat)
    ensures Within(steps, started, n) <= Keys(steps)
  {
    if n > 0 {
      WithinKeys(steps, started, n - 1);
    }
  }

  lemma FurtherAdds(steps: seq<Step>)
    ensures Adds(keys => OneFurther(steps, keys)) && OneFurther(steps, {}) == {}
  {
  }

  /** Whether a run can come to a step is settled after as many rounds as the
      program has steps. */
  lemma ComesIsComputed(steps: seq<Step>, key: string, started: bool)
    ensures Comes(steps, key, started) <==> key in Within(steps, started, |steps|)
  {
    var n := |steps|;
    WithinSettles(steps, started);
    WithinComes(steps, started, n);
    if Comes(steps, key, started) {
      var p :| TrailTo(steps, p, started, key);
      TrailIsWithin(steps, started, p);
      FurtherAdds(steps);
      var add := keys => OneFurther(steps, keys);
      if |p| - 1 >= n {
        StaysSettled(add, FirstKeys(steps, started), n, |p| - 1);
      } else {
        RoundsGrow(add, FirstKeys(steps, started), |p| - 1, n);
      }
    }
  }

  lemma WithinSettles(steps: seq<Step>, started: bool)
    ensures Within(steps, started, |steps|) == Within(steps, started, |steps| + 1)
  {
    FurtherAdds(steps);
    SettledOrLarge(keys => OneFurther(steps, keys), FirstKeys(steps, started), |steps|);
    WithinKeys(steps, started, |steps|);
    LargerSet(Within(steps, started, |steps|), Keys(steps));
    FewKeys(steps);
  }
}
