/** The steps a run is started with, when fan-out lists are narrowed for it alone. */
module RunStart {
  import opened Options
  import opened Text
  import opened Program
  import opened RunInvariants

  /** The entries one fan-out step is to have in this run. */
  datatype Narrowing = Narrowing(step: string, entries: seq<string>)

  datatype StartError = DoesNotFanOut(step: string) | NothingLeft(step: string)

  /** Trimmed, and without those that are blank. */
  function Entries(raw: seq<string>): (r: seq<string>)
    ensures forall e :: e in r ==> e != ""
    ensures r == [] <==> forall e :: e in raw ==> Trim(e) == ""
  {
    if raw == [] then []
    else
      var k := |raw| - 1;
      assert raw == raw[..k] + [raw[k]];
      Entries(raw[..k]) + if Trim(raw[k]) == "" then [] else [Trim(raw[k])]
  }

  lemma OneEntry(e: string)
    ensures Entries([e]) == if Trim(e) == "" then [] else [Trim(e)]
  {
    assert [e][..0] == [];
  }

  lemma OneMoreEntry(raw: seq<string>, e: string)
    ensures Entries(raw + [e]) == Entries(raw) + Entries([e])
  {
    assert (raw + [e])[..|raw|] == raw;
    OneEntry(e);
  }

  /** One list after another, entry by entry: each that is not blank, trimmed. */
  lemma {:induction false} EntriesInTurn(raw: seq<string>, more: seq<string>)
    ensures Entries(raw + more) == Entries(raw) + Entries(more)
  {
    if more == [] {
      assert raw + more == raw && Entries(raw) + [] == Entries(raw);
    } else {
      var k := |more| - 1;
      var rest, e := more[..k], more[k];
      EntriesInTurn(raw, rest);
      OneMoreEntry(rest, e);
      OneMoreEntry(raw + rest, e);
      InTurn(raw, rest, [e], more);
      InTurn(Entries(raw), Entries(rest), Entries([e]), Entries(rest) + Entries([e]));
    }
  }

  lemma InTurn(a: seq<string>, b: seq<string>, c: seq<string>, bc: seq<string>)
    requires bc == b + c
    ensures a + bc == (a + b) + c
  {
  }

  predicate FansOut(s: Step, key: string) {
    s.key == key && s.fanOut.Some?
  }

  function FirstFanOut(steps: seq<Step>, key: string): (r: Option<nat>)
    ensures r.Some? ==> r.value < |steps| && FansOut(steps[r.value], key)
    ensures r.None? <==> forall i :: 0 <= i < |steps| ==> !FansOut(steps[i], key)
  {
    if steps == [] then None
    else if FansOut(steps[0], key) then Some(0)
    else
      match FirstFanOut(steps[1..], key)
      case None => assert forall i :: 0 < i < |steps| ==> steps[i] == steps[1..][i - 1]; None
      case Some(i) => Some(i + 1)
  }

  function NarrowOne(steps: seq<Step>, n: Narrowing): Result<seq<Step>, StartError> {
    match FirstFanOut(steps, n.step)
    case None => Err(DoesNotFanOut(n.step))
    case Some(i) =>
      if Entries(n.entries) == [] then Err(NothingLeft(n.step))
      else Ok(steps[i := steps[i].(fanOut := Some(Entries(n.entries)))])
  }

  function Narrowed(steps: seq<Step>, ns: seq<Narrowing>): Result<seq<Step>, StartError> {
    if ns == [] then Ok(steps)
    else
      match Narrowed(steps, ns[..|ns| - 1])
      case Err(e) => Err(e)
      case Ok(before) => NarrowOne(before, ns[|ns| - 1])
  }

  method Narrow(steps: seq<Step>, ns: seq<Narrowing>) returns (r: Result<seq<Step>, StartError>)
    ensures r == Narrowed(steps, ns)
  {
    var program := steps;
    for i := 0 to |ns|
      invariant Narrowed(steps, ns[..i]) == Ok(program)
    {
      assert ns[..i + 1][..i] == ns[..i];
      r := NarrowOne(program, ns[i]);
      if r.Err? {
        StaysRefused(steps, ns, i + 1);
        return;
      }
      program := r.value;
    }
    assert ns[..|ns|] == ns;
    r := Ok(program);
  }

  lemma {:induction false} StaysRefused(steps: seq<Step>, ns: seq<Narrowing>, n: nat)
    requires n <= |ns| && Narrowed(steps, ns[..n]).Err?
    ensures Narrowed(steps, ns) == Narrowed(steps, ns[..n])
    decreases |ns|
  {
    if n < |ns| {
      var k := |ns| - 1;
      assert ns[..k][..n] == ns[..n];
      StaysRefused(steps, ns[..k], n);
    } else {
      assert ns[..n] == ns;
    }
  }

  /** The list a step goes into the run with: the last one asked for, or its own. */
  function ListOf(s: Step, ns: seq<Narrowing>): Option<seq<string>> {
    if ns == [] then s.fanOut
    else if FansOut(s, ns[|ns| - 1].step) then Some(Entries(ns[|ns| - 1].entries))
    else ListOf(s, ns[..|ns| - 1])
  }

  /** Whether a narrowing can be done: of a step that fans out, to something. */
  predicate CanNarrow(steps: seq<Step>, n: Narrowing) {
    (exists i :: 0 <= i < |steps| && FansOut(steps[i], n.step)) && Entries(n.entries) != []
  }

  /** Told step by step what a run is started with. */
  predicate IsNarrowed(steps: seq<Step>, ns: seq<Narrowing>, r: seq<Step>) {
    |r| == |steps| && forall i :: 0 <= i < |steps| ==> r[i] == steps[i].(fanOut := ListOf(steps[i], ns))
  }

  lemma ListStays(s: Step, ns: seq<Narrowing>)
    ensures ListOf(s, ns).Some? <==> s.fanOut.Some?
  {
  }

  lemma OneMoreNarrowed(steps: seq<Step>, ns: seq<Narrowing>, before: seq<Step>)
    requires DistinctKeys(steps) && ns != [] && IsNarrowed(steps, ns[..|ns| - 1], before)
    ensures NarrowOne(before, ns[|ns| - 1]).Ok? <==> CanNarrow(steps, ns[|ns| - 1])
    ensures NarrowOne(before, ns[|ns| - 1]).Ok? ==> IsNarrowed(steps, ns, NarrowOne(before, ns[|ns| - 1]).value)
  {
    var n := ns[|ns| - 1];
    forall i | 0 <= i < |steps| ensures FansOut(before[i], n.step) <==> FansOut(steps[i], n.step) {
      ListStays(steps[i], ns[..|ns| - 1]);
    }
    var at := FirstFanOut(before, n.step);
    if at.Some? {
      assert FansOut(steps[at.value], n.step);
      forall i | 0 <= i < |steps| && i != at.value ensures !FansOut(steps[i], n.step) {
        assert steps[i].key != steps[at.value].key;
      }
    }
  }

  /** A run can be started with these lists exactly when each is for a step that
      fans out and has an entry that is not blank; then every step is as it was
      but for its list, which is the last one asked for. */
  lemma {:induction false} NarrowedIs(steps: seq<Step>, ns: seq<Narrowing>)
    requires DistinctKeys(steps)
    ensures Narrowed(steps, ns).Ok? <==> AllCanNarrow(steps, ns)
    ensures Narrowed(steps, ns).Ok? ==> IsNarrowed(steps, ns, Narrowed(steps, ns).value)
  {
    if ns == [] {
      NothingAsked(steps);
    } else {
      var k := |ns| - 1;
      NarrowedIs(steps, ns[..k]);
      AllButLast(steps, ns);
      if Narrowed(steps, ns[..k]).Ok? {
        OneMoreNarrowed(steps, ns, Narrowed(steps, ns[..k]).value);
      }
    }
  }

  predicate AllCanNarrow(steps: seq<Step>, ns: seq<Narrowing>) {
    forall k :: 0 <= k < |ns| ==> CanNarrow(steps, ns[k])
  }

  lemma NothingAsked(steps: seq<Step>)
    ensures IsNarrowed(steps, [], steps)
  {
  }

  lemma AllButLast(steps: seq<Step>, ns: seq<Narrowing>)
    requires ns != []
    ensures AllCanNarrow(steps, ns)
       <==> AllCanNarrow(steps, ns[..|ns| - 1]) && CanNarrow(steps, ns[|ns| - 1])
  {
  }

  /** Narrowing leaves the steps fit for a run. */
  lemma NarrowedIsValid(steps: seq<Step>, ns: seq<Narrowing>)
    requires ValidSteps(steps) && Narrowed(steps, ns).Ok?
    ensures ValidSteps(Narrowed(steps, ns).value)
  {
    var r := Narrowed(steps, ns).value;
    NarrowedIs(steps, ns);
    forall s | s in r ensures exists i :: 0 <= i < |r| && r[i] == s && steps[i] in steps && SameButList(steps[i], s) {
      var i :| 0 <= i < |r| && r[i] == s;
      assert SameButList(steps[i], s);
    }
    QuestionStays(steps, r, ROOT_KEY);
  }

  predicate SameButList(a: Step, b: Step) {
    b == a.(fanOut := b.fanOut)
  }

  lemma {:induction false} QuestionStays(a: seq<Step>, b: seq<Step>, key: string)
    requires |a| == |b| && forall i :: 0 <= i < |a| ==> SameButList(a[i], b[i])
    ensures QuestionOf(b, key) == QuestionOf(a, key)
  {
    if a != [] {
      assert SameButList(a[0], b[0]);
      QuestionStays(a[1..], b[1..], key);
    }
  }
}
