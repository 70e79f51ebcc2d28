/** The cycle checks on dependency edits. Tasks and templates each have a copy
    of the same two functions. */
module Deps {
  import opened Options
  import opened Graph

  /** Everything a search can meet. */
  function Universe(g: Graph, start: Node): set<Node> {
    g.Keys + {start} + set k, n | k in g && n in g[k] :: n
  }

  lemma NextInUniverse(g: Graph, start: Node, n: Node, m: Node)
    requires Edge(g, n, m)
    ensures m in Universe(g, start)
  {
    assert n in g && m in g[n];
  }

  /** Whether a node is seen or still to be looked at. */
  predicate Met(seen: set<Node>, stack: seq<Node>, n: Node) {
    n in seen || n in stack
  }

  /** Whether making `task` depend on `newDep` would close a cycle: whether
      `newDep` already reaches `task`. */
  method CreatesCycle(g: Graph, task: Node, newDep: Node) returns (r: bool)
    ensures r <==> Reaches(g, newDep, task)
  {
    if task == newDep {
      ReachesSelf(g, task);
      return true;
    }
    var seen: set<Node> := {};
    var stack := [newDep];
    ReachesSelf(g, newDep);
    while stack != []
      invariant forall n :: n in stack ==> Reaches(g, newDep, n) && n in Universe(g, newDep)
      invariant seen <= Universe(g, newDep) && task !in seen
      invariant Met(seen, stack, newDep)
      invariant forall n, m :: n in seen && Edge(g, n, m) ==> Met(seen, stack, m)
      decreases Universe(g, newDep) - seen, |stack|
    {
      var top := |stack| - 1;
      var t := stack[top];
      ghost var before := stack;
      stack := stack[..top];
      assert before == stack + [t];
      if t == task {
        return true;
      }
      if t in seen {
        continue;
      }
      seen := seen + {t};
      forall m | m in Next(g, t) ensures Reaches(g, newDep, m) && m in Universe(g, newDep) {
        ReachesEdge(g, t, m);
        ReachesTrans(g, newDep, t, m);
        NextInUniverse(g, newDep, t, m);
      }
      stack := stack + Next(g, t);
    }
    if Reaches(g, newDep, task) {
      var p :| PathFrom(g, newDep, task, p);
      ClosedHoldsReach(g, seen, newDep, task, p);
    }
    return false;
  }

  /** The graph once `task` depends on exactly `proposed`. */
  function Edited(g: Graph, task: Node, proposed: seq<Node>): Graph {
    g[task := proposed]
  }

  /** The first of a list of new dependencies, if any, that closes a cycle, when
      they replace all those the task had. */
  method FirstCycle(g: Graph, task: Node, proposed: seq<Node>) returns (r: Option<Node>)
    ensures r.None? <==> forall j :: 0 <= j < |proposed| ==> !Reaches(Edited(g, task, []), proposed[j], task)
    ensures r.Some? ==> exists i :: FirstToReach(g, task, proposed, i) && r.value == proposed[i]
    ensures Acyclic(g) ==> (r.None? <==> Acyclic(Edited(g, task, proposed)))
    ensures Acyclic(g) && r.Some? ==> exists i :: FirstOffender(g, task, proposed, i) && r.value == proposed[i]
  {
    var graph := g[task := []];
    for i := 0 to |proposed|
      invariant graph == Edited(g, task, proposed[..i])
      invariant forall j :: 0 <= j < i ==> !Reaches(Edited(g, task, []), proposed[j], task)
    {
      var dep := proposed[i];
      var cycles := CreatesCycle(graph, task, dep);
      EarlierProposalsDoNotMatter(g, task, proposed[..i], dep);
      assert proposed[..i + 1] == proposed[..i] + [dep];
      if cycles {
        assert FirstToReach(g, task, proposed, i);
        if Acyclic(g) {
          OffenderIsFirstToReach(g, task, proposed, i);
          OffenderIsFirstToReach(g, task, proposed, i + 1);
          assert FirstOffender(g, task, proposed, i);
          MoreProposedMoreCycles(g, task, proposed, i + 1);
        }
        return Some(dep);
      }
      graph := graph[task := graph[task] + [dep]];
    }
    assert proposed[..|proposed|] == proposed;
    if Acyclic(g) {
      OffenderIsFirstToReach(g, task, proposed, |proposed|);
    }
    return None;
  }

  /** The first proposal that reaches the task without any of them. */
  ghost predicate FirstToReach(g: Graph, task: Node, proposed: seq<Node>, i: int) {
    && 0 <= i < |proposed|
    && Reaches(Edited(g, task, []), proposed[i], task)
    && forall j :: 0 <= j < i ==> !Reaches(Edited(g, task, []), proposed[j], task)
  }

  /** The first proposal with which the edited graph has a cycle. */
  ghost predicate FirstOffender(g: Graph, task: Node, proposed: seq<Node>, i: int) {
    && 0 <= i < |proposed|
    && Acyclic(Edited(g, task, proposed[..i]))
    && !Acyclic(Edited(g, task, proposed[..i + 1]))
  }

  lemma MoreProposedMoreCycles(g: Graph, task: Node, proposed: seq<Node>, n: nat)
    requires n <= |proposed|
    ensures Acyclic(Edited(g, task, proposed)) ==> Acyclic(Edited(g, task, proposed[..n]))
  {
    var few, all := Edited(g, task, proposed[..n]), Edited(g, task, proposed);
    if Acyclic(all) {
      forall a, b | Edge(few, a, b) ensures Edge(all, a, b) {
      }
      FewerEdgesAcyclic(few, all);
    }
  }

  /** A way to a task need not leave the task, so what the task depends on does
      not matter to it. */
  lemma {:induction false} ArrivesWithout(g: Graph, task: Node, proposed: seq<Node>, n: Node, p: seq<Node>)
    requires PathFrom(Edited(g, task, proposed), n, task, p)
    ensures Reaches(Edited(g, task, []), n, task)
    decreases |p|
  {
    var few, all := Edited(g, task, []), Edited(g, task, proposed);
    if n == task {
      ReachesSelf(few, task);
    } else {
      assert Edge(all, p[0], p[1]);
      TailOfPath(all, p);
      ArrivesWithout(g, task, proposed, p[1], p[1..]);
      assert Edge(few, n, p[1]);
      ReachesStep(few, n, p[1], task);
    }
  }

  lemma EarlierProposalsDoNotMatter(g: Graph, task: Node, proposed: seq<Node>, dep: Node)
    ensures Reaches(Edited(g, task, proposed), dep, task) <==> Reaches(Edited(g, task, []), dep, task)
  {
    var few, all := Edited(g, task, []), Edited(g, task, proposed);
    if Reaches(all, dep, task) {
      var p :| PathFrom(all, dep, task, p);
      ArrivesWithout(g, task, proposed, dep, p);
    }
    if Reaches(few, dep, task) {
      MoreEdgesReachMore(few, all, dep, task);
    }
  }

  /** The offender is the first proposal that reaches the task in the graph
      without any of them. */
  lemma {:induction false} OffenderIsFirstToReach(g: Graph, task: Node, proposed: seq<Node>, n: nat)
    requires Acyclic(g) && n <= |proposed|
    ensures Acyclic(Edited(g, task, proposed[..n]))
       <==> forall j :: 0 <= j < n ==> !Reaches(Edited(g, task, []), proposed[j], task)
  {
    if n == 0 {
      FewerEdgesAcyclic(Edited(g, task, proposed[..0]), g);
    } else {
      OffenderIsFirstToReach(g, task, proposed, n - 1);
      var before := Edited(g, task, proposed[..n - 1]);
      assert proposed[..n] == proposed[..n - 1] + [proposed[n - 1]];
      assert WithEdge(before, task, proposed[n - 1]) == Edited(g, task, proposed[..n]);
      assert proposed[..n][..n - 1] == proposed[..n - 1];
      MoreProposedMoreCycles(g, task, proposed[..n], n - 1);
      EarlierProposalsDoNotMatter(g, task, proposed[..n - 1], proposed[n - 1]);
      if Acyclic(before) {
        NewEdgeCycles(before, task, proposed[n - 1]);
      }
    }
  }
}
