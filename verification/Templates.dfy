/** Stamping out a template: the templates that have to be stamped out before
    it, and the moment each counts its dates from. */
module Templates {
  import opened Options
  import opened Offsets
  import opened Graph
  import opened Lists
  import Deps

  /** Every dependency of an entry comes before it. */
  ghost predicate DepsFirst(g: Graph, s: seq<Node>) {
    forall i, m :: 0 <= i < |s| && Edge(g, s[i], m) ==> m in s[..i]
  }

  /** A depth first walk, with what it has emitted and what it is still inside. */
  class Walker {
    const g: Graph
    ghost const all: set<Node>
    var done: set<Node>
    var onStack: set<Node>
    var out: seq<Node>

    constructor (graph: Graph, root: Node)
      ensures g == graph && all == Deps.Universe(graph, root)
      ensures done == {} && onStack == {} && out == []
    {
      g, all := graph, Deps.Universe(graph, root);
      done, onStack, out := {}, {}, [];
    }

    ghost predicate Valid()
      reads this
    {
      && (forall n :: n in done <==> n in out)
      && NoRepeats(out)
      && done !! onStack && onStack <= all
      && (forall n, m :: n in done && Edge(g, n, m) ==> m in done || m in onStack)
      && (forall n, m :: Edge(g, n, m) ==> m in all)
      && (Acyclic(g) ==> DepsFirst(g, out))
    }

    /** Emits what `t` reaches and was not emitted yet, and then `t`; a node the
        walk is still inside is left alone, which breaks cycles. */
    method Visit(t: Node)
      requires Valid() && t in all
      requires forall n :: n in onStack ==> Reaches(g, n, t)
      modifies this
      decreases all - onStack
      ensures Valid() && onStack == old(onStack)
      ensures old(out) <= out && old(done) <= done
      ensures t in done || t in onStack
      ensures forall n :: n in done && n !in old(done) ==> Reaches(g, t, n)
      ensures t !in old(done) && t !in onStack ==> out != [] && out[|out| - 1] == t
    {
      if t in done || t in onStack {
        return;
      }
      onStack := onStack + {t};
      var deps := Next(g, t);
      ReachesSelf(g, t);
      for i := 0 to |deps|
        invariant Valid() && onStack == old(onStack) + {t}
        invariant old(out) <= out && old(done) <= done
        invariant forall k :: 0 <= k < i ==> deps[k] in done || deps[k] in onStack
        invariant forall n :: n in done && n !in old(done) ==> Reaches(g, t, n)
      {
        ghost var before := done;
        var dep := deps[i];
        assert Edge(g, t, dep);
        ReachesEdge(g, t, dep);
        forall n | n in onStack ensures Reaches(g, n, dep) {
          ReachesTrans(g, n, t, dep);
        }
        Visit(dep);
        forall n | n in done && n !in before ensures Reaches(g, t, n) {
          ReachesTrans(g, t, dep, n);
        }
      }
      onStack := onStack - {t};
      AllDepsOut(old(onStack), t, deps);
      Emit(t);
    }

    /** A node with everything it needs behind it is done. */
    method Emit(t: Node)
      requires t !in done && t !in onStack && t in all
      requires (forall n :: n in done <==> n in out) && NoRepeats(out) && done !! onStack && onStack <= all
      requires forall n, m :: n in done && Edge(g, n, m) ==> m in done || m in onStack || m == t
      requires forall m :: Edge(g, t, m) ==> m in done || m in onStack || m == t
      requires forall n, m :: Edge(g, n, m) ==> m in all
      requires Acyclic(g) ==> DepsFirst(g, out) && forall m :: Edge(g, t, m) ==> m in done
      modifies this`done, this`out
      ensures Valid() && done == old(done) + {t} && out == old(out) + [t]
    {
      done := done + {t};
      out := out + [t];
      if Acyclic(g) {
        forall i, m | 0 <= i < |out| && Edge(g, out[i], m) ensures m in out[..i] {
          assert i < |old(out)| ==> out[..i] == old(out)[..i];
          assert i == |old(out)| ==> out[..i] == old(out);
        }
      }
    }

    /** In an acyclic graph nothing `t` needs can be on the way to `t`. */
    ghost method AllDepsOut(stack: set<Node>, t: Node, deps: seq<Node>)
      requires deps == Next(g, t)
      requires forall n :: n in stack ==> Reaches(g, n, t)
      requires forall k :: 0 <= k < |deps| ==> deps[k] in done || deps[k] in stack + {t}
      ensures forall m :: Edge(g, t, m) ==> m in done || m in stack + {t}
      ensures Acyclic(g) ==> forall m :: Edge(g, t, m) ==> m in done
    {
      forall m | Edge(g, t, m) ensures m in done || m in stack + {t} {
        var k :| 0 <= k < |deps| && deps[k] == m;
      }
      if Acyclic(g) {
        forall m | Edge(g, t, m) ensures m in done {
          if m !in done {
            ReachesSelf(g, t);
            assert OnCycle(g, t);
          }
        }
      }
    }
  }

  /** All templates `root` needs, directly or not, itself included and none
      twice; on a graph without cycles each stands after those it needs. */
  method ExpansionOrder(g: Graph, root: Node) returns (r: seq<Node>)
    ensures NoRepeats(r)
    ensures forall n :: n in r <==> n != root && Reaches(g, root, n)
    ensures Acyclic(g) ==> DepsFirst(g, r)
  {
    var walker := new Walker(g, root);
    forall n, m | Edge(g, n, m) ensures m in walker.all {
      Deps.NextInUniverse(g, root, n, m);
    }
    walker.Visit(root);
    var last := |walker.out| - 1;
    r := walker.out[..last];
    assert walker.out == r + [root];
    forall n | Reaches(g, root, n) ensures n in walker.done {
      var p :| PathFrom(g, root, n, p);
      ClosedHoldsReach(g, walker.done, root, n, p);
    }
  }

  // The moments dates count from.

  /** What stamping out needs of a template's options. */
  datatype TemplateOptions = TemplateOptions(startPrefill: Option<Offset>, deps: seq<Node>)

  function DepsOf(options: map<Node, TemplateOptions>): (g: Graph)
    ensures g.Keys == options.Keys
  {
    map id | id in options :: options[id].deps
  }

  /** How long after the moment it counts from a template's own task starts. */
  function Lead(options: map<Node, TemplateOptions>, n: Node): nat {
    if n in options && options[n].startPrefill.Some? then Seconds(options[n].startPrefill.value) else 0
  }

  /** Where a template's task starts, counted from `anchor`; a date past the
      calendar leaves it where it was. */
  function StartFrom(options: map<Node, TemplateOptions>, n: Node, anchor: Time): Time {
    if n in options && options[n].startPrefill.Some? then After(options[n].startPrefill.value, anchor).GetOr(anchor)
    else anchor
  }

  /** The summed leads of the templates strictly inside a chain of needs. */
  function Lag(options: map<Node, TemplateOptions>, p: seq<Node>): nat {
    if |p| <= 2 then 0 else Lag(options, p[..|p| - 1]) + Lead(options, p[|p| - 2])
  }

  /** A chain of needs from the root down to `n`, at least one long. */
  predicate Chain(options: map<Node, TemplateOptions>, root: Node, n: Node, p: seq<Node>) {
    |p| >= 2 && PathFrom(DepsOf(options), root, n, p)
  }

  /** No date along any chain runs off the calendar. */
  ghost predicate WithinCalendar(options: map<Node, TemplateOptions>, root: Node, start: Time) {
    forall n, p :: Chain(options, root, n, p) ==> start + Lag(options, p) + Lead(options, n) <= MAX_TIME
  }

  /** The anchors of a stamping out: one for each template below the root, the
      earliest moment any chain of needs gives it. */
  ghost predicate Earliest(options: map<Node, TemplateOptions>, root: Node, start: Time, n: Node, at: Time) {
    && (exists p :: Chain(options, root, n, p) && at == start + Lag(options, p))
    && (forall p :: Chain(options, root, n, p) ==> at <= start + Lag(options, p))
  }

  ghost predicate AreAnchors(options: map<Node, TemplateOptions>, root: Node, start: Time, anchors: map<Node, Time>) {
    && (forall n :: n in anchors ==> Earliest(options, root, start, n, anchors[n]))
    && (forall n, p :: Chain(options, root, n, p) ==> n in anchors)
  }

  /** Every chain whose members but the last are `known` is accounted for. */
  ghost predicate Covers(
    options: map<Node, TemplateOptions>, root: Node, start: Time, known: set<Node>, anchors: map<Node, Time>)
  {
    forall n, p :: Chain(options, root, n, p) && (forall i :: 0 <= i < |p| - 1 ==> p[i] in known) ==>
      n in anchors && anchors[n] <= start + Lag(options, p)
  }

  ghost predicate Founded(options: map<Node, TemplateOptions>, root: Node, start: Time, anchors: map<Node, Time>) {
    forall n :: n in anchors ==> exists p :: Chain(options, root, n, p) && anchors[n] == start + Lag(options, p)
  }

  /** Whatever below the root needs a known template is known. */
  ghost predicate UpClosed(options: map<Node, TemplateOptions>, root: Node, known: set<Node>) {
    forall a, b :: b in known && Edge(DepsOf(options), a, b) && Reaches(DepsOf(options), root, a) ==> a in known
  }

  ghost predicate NeedersKnown(options: map<Node, TemplateOptions>, root: Node, id: Node, known: set<Node>) {
    forall a :: Edge(DepsOf(options), a, id) && (a == root || Reaches(DepsOf(options), root, a)) ==> a in known
  }

  /** When a template's own task starts, with these anchors. */
  function StartOf(options: map<Node, TemplateOptions>, root: Node, start: Time, anchors: map<Node, Time>, n: Node): Time {
    if n == root then start else StartFrom(options, n, if n in anchors then anchors[n] else start)
  }

  /** One of `known` needs the template. */
  predicate NeededFrom(options: map<Node, TemplateOptions>, known: set<Node>, a: Node, n: Node) {
    a in known && Edge(DepsOf(options), a, n)
  }

  /** Every template some of `known` need counts from the earliest start of those. */
  ghost predicate LeastOf(
    options: map<Node, TemplateOptions>, root: Node, start: Time, known: set<Node>, anchors: map<Node, Time>)
  {
    && (forall n :: n in anchors ==>
          exists a :: NeededFrom(options, known, a, n) && anchors[n] == StartOf(options, root, start, anchors, a))
    && (forall a, n :: NeededFrom(options, known, a, n) ==>
          n in anchors && anchors[n] <= StartOf(options, root, start, anchors, a))
  }

  /** The root and everything it needs. */
  ghost predicate IsTree(options: map<Node, TemplateOptions>, root: Node, tree: set<Node>) {
    forall n :: n in tree <==> n == root || Reaches(DepsOf(options), root, n)
  }

  /** Every template below the root counts from the earliest start of those that
      need it, dates past the calendar as they are. */
  ghost predicate CountsFromNeeders(options: map<Node, TemplateOptions>, root: Node, start: Time, anchors: map<Node, Time>) {
    exists tree :: IsTree(options, root, tree) && LeastOf(options, root, start, tree, anchors)
  }

  /** What handing the moment `at` down from a template changes. */
  ghost predicate HandedDown(g: Graph, before: map<Node, Time>, from: Node, at: Time, after: map<Node, Time>) {
    && after.Keys == before.Keys + (set m | m in Next(g, from))
    && (forall n :: n in after && n !in Next(g, from) ==> after[n] == before[n])
    && (forall n :: n in after && n in Next(g, from) ==>
          after[n] == if n in before && before[n] < at then before[n] else at)
  }

  /** Gives each dependency of `from` the moment `at`, if it had none earlier. */
  method HandDown(g: Graph, anchors: map<Node, Time>, from: Node, at: Time) returns (r: map<Node, Time>)
    ensures HandedDown(g, anchors, from, at, r)
  {
    r := anchors;
    var deps := Next(g, from);
    for i := 0 to |deps|
      invariant r.Keys == anchors.Keys + set m | m in deps[..i]
      invariant forall n :: n in r && n !in deps[..i] ==> r[n] == anchors[n]
      invariant forall n :: n in r && n in deps[..i] ==>
                  r[n] == if n in anchors && anchors[n] < at then anchors[n] else at
    {
      var dep := deps[i];
      assert deps[..i + 1] == deps[..i] + [dep];
      r := r[dep := if dep in r && r[dep] < at then r[dep] else at];
    }
    assert deps[..|deps|] == deps;
  }

  lemma ChainMore(options: map<Node, TemplateOptions>, root: Node, n: Node, p: seq<Node>, m: Node)
    requires Chain(options, root, n, p) && Edge(DepsOf(options), n, m)
    ensures Chain(options, root, m, p + [m]) && Lag(options, p + [m]) == Lag(options, p) + Lead(options, n)
  {
    var g, q := DepsOf(options), p + [m];
    assert q[..|q| - 1] == p;
    forall i | 0 <= i < |q| - 1 ensures Edge(g, q[i], q[i + 1]) {
      if i < |p| - 1 {
        assert Edge(g, p[i], p[i + 1]);
      }
    }
  }

  lemma ChainLess(options: map<Node, TemplateOptions>, root: Node, m: Node, q: seq<Node>) returns (n: Node)
    requires Chain(options, root, m, q) && |q| > 2
    ensures n == q[|q| - 2] && Edge(DepsOf(options), n, m)
    ensures Chain(options, root, n, q[..|q| - 1]) && Lag(options, q) == Lag(options, q[..|q| - 1]) + Lead(options, n)
  {
    var g, p := DepsOf(options), q[..|q| - 1];
    n := q[|q| - 2];
    assert Edge(g, q[|q| - 2], q[|q| - 2 + 1]);
    forall i | 0 <= i < |p| - 1 ensures Edge(g, p[i], p[i + 1]) {
      assert Edge(g, q[i], q[i + 1]);
    }
  }

  /** The root's own dependencies. */
  lemma RootHandsDown(
    options: map<Node, TemplateOptions>, root: Node, start: Time, anchors: map<Node, Time>)
    requires anchors.Keys == (set m | m in Next(DepsOf(options), root))
    requires forall n :: n in anchors ==> anchors[n] == start
    ensures Founded(options, root, start, anchors) && Covers(options, root, start, {root}, anchors)
    ensures LeastOf(options, root, start, {root}, anchors)
  {
    var g := DepsOf(options);
    forall n | n in anchors ensures NeededFrom(options, {root}, root, n) {
    }
    forall n | n in anchors ensures exists p :: Chain(options, root, n, p) && anchors[n] == start + Lag(options, p) {
      assert IsPath(g, [root, n]) by { assert Edge(g, root, n); }
      assert Chain(options, root, n, [root, n]);
    }
    forall n, p | Chain(options, root, n, p) && (forall i :: 0 <= i < |p| - 1 ==> p[i] in {root})
      ensures n in anchors && anchors[n] <= start + Lag(options, p)
    {
      assert p[|p| - 2] == root && Edge(g, p[|p| - 2], p[|p| - 2 + 1]);
    }
  }

  /** Handing down from a template, every anchor still stands for a chain. */
  lemma HandDownFounded(
    options: map<Node, TemplateOptions>, root: Node, start: Time, id: Node, before: map<Node, Time>,
    after: map<Node, Time>)
    requires Founded(options, root, start, before) && id in before
    requires HandedDown(DepsOf(options), before, id, before[id] + Lead(options, id), after)
    ensures Founded(options, root, start, after)
  {
    forall n | n in after ensures exists p :: Chain(options, root, n, p) && after[n] == start + Lag(options, p) {
      if !(n in before && after[n] == before[n]) {
        var p :| Chain(options, root, id, p) && before[id] == start + Lag(options, p);
        ChainMore(options, root, id, p, n);
      }
    }
  }

  /** ... and once what needs it is known, so is everything through it. */
  lemma HandDownCovers(
    options: map<Node, TemplateOptions>, root: Node, start: Time, known: set<Node>, id: Node,
    before: map<Node, Time>, after: map<Node, Time>)
    requires Covers(options, root, start, known, before) && root in known && id in before && id != root
    requires NeedersKnown(options, root, id, known) && UpClosed(options, root, known)
    requires HandedDown(DepsOf(options), before, id, before[id] + Lead(options, id), after)
    ensures Covers(options, root, start, known + {id}, after)
  {
    forall n, q | Chain(options, root, n, q) && (forall i :: 0 <= i < |q| - 1 ==> q[i] in known + {id})
      ensures n in after && after[n] <= start + Lag(options, q)
    {
      if q[|q| - 2] == id {
        ChainThrough(options, root, start, known, id, before, n, q);
      } else {
        KnownAlong(options, root, known, q);
        assert n in before && before[n] <= start + Lag(options, q);
      }
    }
  }

  lemma ChainThrough(
    options: map<Node, TemplateOptions>, root: Node, start: Time, known: set<Node>, id: Node,
    before: map<Node, Time>, n: Node, q: seq<Node>)
    requires Covers(options, root, start, known, before) && id in before && id != root
    requires NeedersKnown(options, root, id, known) && UpClosed(options, root, known)
    requires Chain(options, root, n, q) && q[|q| - 2] == id
    ensures Edge(DepsOf(options), id, n) && before[id] + Lead(options, id) <= start + Lag(options, q)
  {
    var m := ChainLess(options, root, n, q);
    var p := q[..|q| - 1];
    KnownBefore(options, root, id, known, p);
    assert before[id] <= start + Lag(options, p);
  }

  /** Everything on a chain to `id`, before `id`, is known. */
  lemma KnownBefore(options: map<Node, TemplateOptions>, root: Node, id: Node, known: set<Node>, p: seq<Node>)
    requires Chain(options, root, id, p)
    requires NeedersKnown(options, root, id, known) && UpClosed(options, root, known)
    ensures forall i :: 0 <= i < |p| - 1 ==> p[i] in known
  {
    var k := |p| - 2;
    assert Edge(DepsOf(options), p[k], p[k + 1]);
    ReachedAlong(options, root, id, p, k);
    KnownUpTo(options, root, id, known, p, k);
  }

  lemma ReachedAlong(options: map<Node, TemplateOptions>, root: Node, n: Node, p: seq<Node>, k: nat)
    requires Chain(options, root, n, p) && k < |p|
    ensures Reaches(DepsOf(options), root, p[k])
  {
    var g, q := DepsOf(options), p[..k + 1];
    forall i | 0 <= i < |q| - 1 ensures Edge(g, q[i], q[i + 1]) {
      assert Edge(g, p[i], p[i + 1]);
    }
    assert PathFrom(g, root, p[k], q);
  }

  lemma {:induction false} KnownUpTo(
    options: map<Node, TemplateOptions>, root: Node, n: Node, known: set<Node>, p: seq<Node>, k: nat)
    requires Chain(options, root, n, p) && k < |p| && p[k] in known
    requires UpClosed(options, root, known)
    ensures forall i :: 0 <= i <= k ==> p[i] in known
  {
    if k > 0 {
      assert Edge(DepsOf(options), p[k - 1], p[k - 1 + 1]);
      ReachedAlong(options, root, n, p, k - 1);
      KnownUpTo(options, root, n, known, p, k - 1);
    }
  }

  lemma KnownAlong(options: map<Node, TemplateOptions>, root: Node, known: set<Node>, q: seq<Node>)
    requires |q| >= 2 && Chain(options, root, q[|q| - 1], q) && q[|q| - 2] in known
    requires UpClosed(options, root, known)
    ensures forall i :: 0 <= i < |q| - 1 ==> q[i] in known
  {
    KnownUpTo(options, root, q[|q| - 1], known, q, |q| - 2);
  }

  /** A moment for every template to be stamped, no later than any of those that
      need it asks for. */
  method PrefillAnchors(options: map<Node, TemplateOptions>, root: Node, start: Time) returns (anchors: map<Node, Time>)
    ensures Acyclic(DepsOf(options)) ==> CountsFromNeeders(options, root, start, anchors)
    ensures Acyclic(DepsOf(options)) && WithinCalendar(options, root, start) ==> AreAnchors(options, root, start, anchors)
  {
    var g := DepsOf(options);
    ghost var acyclic := Acyclic(g);
    ghost var sound := acyclic && WithinCalendar(options, root, start);
    anchors := HandDown(g, map[], root, start);
    var order := ExpansionOrder(g, root);
    ghost var known := {root};
    var i := |order|;
    RootHandsDown(options, root, start, anchors);
    if acyclic {
      NothingNeedsRoot(options, root);
    }
    while i > 0
      invariant 0 <= i <= |order|
      invariant known == {root} + set k | i <= k < |order| :: order[k]
      invariant sound ==> Founded(options, root, start, anchors) && Covers(options, root, start, known, anchors)
      invariant acyclic ==> UpClosed(options, root, known) && LeastOf(options, root, start, known, anchors)
    {
      i := i - 1;
      var id := order[i];
      assert id in order;
      if acyclic {
        NeedsAreKnown(options, root, order, i, known);
        IsNeeded(options, root, start, id, known, anchors);
        NotYetKnown(root, order, i, known);
      }
      if sound {
        HasAnchor(options, root, start, id, known, anchors);
      }
      var anchor := if id in anchors then anchors[id] else start;
      var at := StartFrom(options, id, anchor);
      ghost var before := anchors;
      anchors := HandDown(g, anchors, id, at);
      if acyclic {
        HandDownLeast(options, root, start, known, id, before, anchors);
      }
      if sound {
        HandDownFounded(options, root, start, id, before, anchors);
        HandDownCovers(options, root, start, known, id, before, anchors);
      }
      known := known + {id};
    }
    if acyclic {
      KnownIsTree(options, root, known, order);
    }
    if sound {
      AllKnown(options, root, start, known, anchors, order);
    }
  }

  lemma KnownIsTree(options: map<Node, TemplateOptions>, root: Node, known: set<Node>, order: seq<Node>)
    requires known == {root} + set k | 0 <= k < |order| :: order[k]
    requires forall n :: n in order <==> n != root && Reaches(DepsOf(options), root, n)
    ensures IsTree(options, root, known)
  {
    ReachesSelf(DepsOf(options), root);
    forall n ensures n in known <==> n == root || n in order {
    }
  }

  /** What is below the root is needed by something already handed down. */
  lemma IsNeeded(
    options: map<Node, TemplateOptions>, root: Node, start: Time, id: Node, known: set<Node>, anchors: map<Node, Time>)
    requires id != root && Reaches(DepsOf(options), root, id) && root in known
    requires NeedersKnown(options, root, id, known) && LeastOf(options, root, start, known, anchors)
    ensures id in anchors
  {
    var p :| PathFrom(DepsOf(options), root, id, p);
    assert Chain(options, root, id, p);
    ReachedAlong(options, root, id, p, |p| - 2);
    assert Edge(DepsOf(options), p[|p| - 2], p[|p| - 2 + 1]);
    assert NeededFrom(options, known, p[|p| - 2], id);
  }

  lemma NotYetKnown(root: Node, order: seq<Node>, i: nat, known: set<Node>)
    requires NoRepeats(order) && i < |order| && order[i] != root
    requires known == {root} + set k | i + 1 <= k < |order| :: order[k]
    ensures order[i] !in known
  {
  }

  /** No start that was handed down before changes. */
  lemma StartStays(
    options: map<Node, TemplateOptions>, root: Node, start: Time, known: set<Node>, id: Node,
    before: map<Node, Time>, after: map<Node, Time>, at: Time, a: Node)
    requires Acyclic(DepsOf(options)) && UpClosed(options, root, known)
    requires id !in known && Reaches(DepsOf(options), root, id)
    requires HandedDown(DepsOf(options), before, id, at, after) && (a in known || a == id)
    ensures StartOf(options, root, start, after, a) == StartOf(options, root, start, before, a)
  {
    var g := DepsOf(options);
    if Edge(g, id, a) {
      if a == id {
        ReachesSelf(g, id);
        assert OnCycle(g, id);
      }
      assert false;
    }
    assert a !in Next(g, id);
  }

  /** Handing down from a template whose needers are known keeps everything that
      counts from the earliest of those. */
  lemma HandDownLeast(
    options: map<Node, TemplateOptions>, root: Node, start: Time, known: set<Node>, id: Node,
    before: map<Node, Time>, after: map<Node, Time>)
    requires Acyclic(DepsOf(options)) && LeastOf(options, root, start, known, before) && UpClosed(options, root, known)
    requires id != root && id !in known && Reaches(DepsOf(options), root, id) && id in before
    requires HandedDown(DepsOf(options), before, id, StartFrom(options, id, before[id]), after)
    ensures LeastOf(options, root, start, known + {id}, after)
  {
    var all, at := known + {id}, StartFrom(options, id, before[id]);
    forall a | a in all ensures StartOf(options, root, start, after, a) == StartOf(options, root, start, before, a) {
      StartStays(options, root, start, known, id, before, after, at, a);
    }
    forall n | n in after
      ensures exists a :: NeededFrom(options, all, a, n) && after[n] == StartOf(options, root, start, after, a)
    {
      if n in before && after[n] == before[n] {
        var a :| NeededFrom(options, known, a, n) && before[n] == StartOf(options, root, start, before, a);
        assert NeededFrom(options, all, a, n);
      } else {
        assert NeededFrom(options, all, id, n);
      }
    }
    forall a, n | NeededFrom(options, all, a, n)
      ensures n in after && after[n] <= StartOf(options, root, start, after, a)
    {
      if a != id {
        assert NeededFrom(options, known, a, n);
      }
    }
  }

  lemma NothingNeedsRoot(options: map<Node, TemplateOptions>, root: Node)
    requires Acyclic(DepsOf(options))
    ensures forall a :: Edge(DepsOf(options), a, root) ==> !Reaches(DepsOf(options), root, a)
  {
    var g := DepsOf(options);
    forall a | Edge(g, a, root) ensures !Reaches(g, root, a) {
      if Reaches(g, root, a) {
        assert OnCycle(g, a);
      }
    }
  }

  /** Going backwards, everything that needs an entry was there already. */
  lemma NeedsAreKnown(options: map<Node, TemplateOptions>, root: Node, order: seq<Node>, i: nat, known: set<Node>)
    requires NoRepeats(order) && DepsFirst(DepsOf(options), order) && i < |order|
    requires forall n :: n in order <==> n != root && Reaches(DepsOf(options), root, n)
    requires known == {root} + set k | i + 1 <= k < |order| :: order[k]
    ensures NeedersKnown(options, root, order[i], known)
  {
    forall a | Edge(DepsOf(options), a, order[i]) && Reaches(DepsOf(options), root, a) && a != root ensures a in known {
      var j :| 0 <= j < |order| && order[j] == a;
      assert order[i] in order[..j];
      var k :| 0 <= k < j && order[..j][k] == order[i];
      assert k == i;
    }
  }

  /** An entry has an anchor by the time it is read, and no date from it runs
      off the calendar. */
  lemma HasAnchor(
    options: map<Node, TemplateOptions>, root: Node, start: Time, id: Node, known: set<Node>,
    anchors: map<Node, Time>)
    requires id != root && Reaches(DepsOf(options), root, id) && WithinCalendar(options, root, start)
    requires NeedersKnown(options, root, id, known) && UpClosed(options, root, known)
    requires Founded(options, root, start, anchors) && Covers(options, root, start, known, anchors)
    ensures id in anchors && StartFrom(options, id, anchors[id]) == anchors[id] + Lead(options, id)
  {
    var p :| PathFrom(DepsOf(options), root, id, p);
    assert Chain(options, root, id, p);
    KnownBefore(options, root, id, known, p);
    var q :| Chain(options, root, id, q) && anchors[id] == start + Lag(options, q);
  }

  lemma AllKnown(
    options: map<Node, TemplateOptions>, root: Node, start: Time, known: set<Node>, anchors: map<Node, Time>,
    order: seq<Node>)
    requires Founded(options, root, start, anchors) && Covers(options, root, start, known, anchors)
    requires known == {root} + set k | 0 <= k < |order| :: order[k]
    requires forall n :: n in order <==> n != root && Reaches(DepsOf(options), root, n)
    ensures AreAnchors(options, root, start, anchors)
  {
    forall n, p | Chain(options, root, n, p) ensures n in anchors && anchors[n] <= start + Lag(options, p) {
      forall i | 0 <= i < |p| - 1 ensures p[i] in known {
        ReachedAlong(options, root, n, p, i);
        assert p[i] != root ==> p[i] in order;
      }
    }
  }

  /** Pushing the root's start pushes every anchor shift as much. */
  lemma AnchorsShift(
    options: map<Node, TemplateOptions>, root: Node, start: Time, shift: int, a: map<Node, Time>, b: map<Node, Time>)
    requires AreAnchors(options, root, start, a) && AreAnchors(options, root, start + shift, b)
    ensures a.Keys == b.Keys && forall n :: n in a ==> b[n] == a[n] + shift
  {
    forall n | n in a ensures n in b && b[n] == a[n] + shift {
      assert Earliest(options, root, start, n, a[n]);
      var p :| Chain(options, root, n, p) && a[n] == start + Lag(options, p);
      assert Earliest(options, root, start + shift, n, b[n]);
      var q :| Chain(options, root, n, q) && b[n] == start + shift + Lag(options, q);
    }
    forall n | n in b ensures n in a {
      assert Earliest(options, root, start + shift, n, b[n]);
    }
  }
}
