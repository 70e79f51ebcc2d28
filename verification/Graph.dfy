/** Dependency graphs: what reaching, cycles and acyclicity mean, apart from
    any algorithm. A graph gives each node its direct dependencies. */
module Graph {
  type Node = int
  type Graph = map<Node, seq<Node>>

  function Next(g: Graph, n: Node): seq<Node> {
    if n in g then g[n] else []
  }

  predicate Edge(g: Graph, a: Node, b: Node) {
    b in Next(g, a)
  }

  /** Nodes, each a direct dependency of the one before. */
  predicate IsPath(g: Graph, p: seq<Node>) {
    p != [] && forall i :: 0 <= i < |p| - 1 ==> Edge(g, p[i], p[i + 1])
  }

  predicate PathFrom(g: Graph, a: Node, b: Node, p: seq<Node>) {
    IsPath(g, p) && p[0] == a && p[|p| - 1] == b
  }

  ghost predicate Reaches(g: Graph, a: Node, b: Node) {
    exists p :: PathFrom(g, a, b, p)
  }

  /** A way back to itself along at least one edge. */
  ghost predicate OnCycle(g: Graph, n: Node) {
    exists m :: Edge(g, n, m) && Reaches(g, m, n)
  }

  ghost predicate Acyclic(g: Graph) {
    forall n :: !OnCycle(g, n)
  }

  lemma ReachesSelf(g: Graph, a: Node)
    ensures Reaches(g, a, a)
  {
    assert PathFrom(g, a, a, [a]);
  }

  lemma ReachesStep(g: Graph, a: Node, b: Node, c: Node)
    requires Edge(g, a, b) && Reaches(g, b, c)
    ensures Reaches(g, a, c)
  {
    var p :| PathFrom(g, b, c, p);
    assert PathFrom(g, a, c, [a] + p);
  }

  lemma ReachesEdge(g: Graph, a: Node, b: Node)
    requires Edge(g, a, b)
    ensures Reaches(g, a, b)
  {
    ReachesSelf(g, b);
    ReachesStep(g, a, b, b);
  }

  lemma ReachesTrans(g: Graph, a: Node, b: Node, c: Node)
    requires Reaches(g, a, b) && Reaches(g, b, c)
    ensures Reaches(g, a, c)
  {
    var p :| PathFrom(g, a, b, p);
    var q :| PathFrom(g, b, c, q);
    PathConcat(g, a, b, c, p, q);
  }

  lemma PathConcat(g: Graph, a: Node, b: Node, c: Node, p: seq<Node>, q: seq<Node>)
    requires PathFrom(g, a, b, p) && PathFrom(g, b, c, q)
    ensures PathFrom(g, a, c, p + q[1..])
  {
    var r := p + q[1..];
    forall i | 0 <= i < |r| - 1 ensures Edge(g, r[i], r[i + 1]) {
      if i < |p| - 1 {
        assert Edge(g, p[i], p[i + 1]);
      } else {
        var j := i - (|p| - 1);
        assert r[i] == q[j] && r[i + 1] == q[j + 1];
      }
    }
  }

  lemma TailOfPath(g: Graph, p: seq<Node>)
    requires IsPath(g, p) && |p| > 1
    ensures IsPath(g, p[1..])
  {
    var q := p[1..];
    forall i | 0 <= i < |q| - 1 ensures Edge(g, q[i], q[i + 1]) {
      assert q[i] == p[i + 1] && q[i + 1] == p[i + 2];
      assert Edge(g, p[i + 1], p[i + 1 + 1]);
    }
  }

  /** A set no edge leads out of holds everything its members reach. */
  lemma {:induction false} ClosedHoldsReach(g: Graph, closed: set<Node>, a: Node, b: Node, p: seq<Node>)
    requires forall n, m :: n in closed && Edge(g, n, m) ==> m in closed
    requires a in closed && PathFrom(g, a, b, p)
    ensures b in closed
    decreases |p|
  {
    if |p| > 1 {
      assert Edge(g, p[0], p[1]);
      TailOfPath(g, p);
      ClosedHoldsReach(g, closed, p[1], b, p[1..]);
    }
  }

  /** `g` with one more edge. */
  function WithEdge(g: Graph, a: Node, b: Node): Graph {
    g[a := Next(g, a) + [b]]
  }

  lemma EdgesWith(g: Graph, a: Node, b: Node, n: Node, m: Node)
    ensures Edge(WithEdge(g, a, b), n, m) <==> Edge(g, n, m) || (n == a && m == b)
  {
  }

  /** The graph with these edges. */
  ghost function OfEdges(edges: set<(Node, Node)>): (g: Graph)
    ensures forall a, b :: Edge(g, a, b) <==> (a, b) in edges
  {
    if edges == {} then map[]
    else
      var e :| e in edges;
      WithEdge(OfEdges(edges - {e}), e.0, e.1)
  }

  lemma {:induction false} MoreEdgesReachMore(g: Graph, h: Graph, a: Node, b: Node)
    requires forall n, m :: Edge(g, n, m) ==> Edge(h, n, m)
    requires Reaches(g, a, b)
    ensures Reaches(h, a, b)
  {
    var p :| PathFrom(g, a, b, p);
    forall i | 0 <= i < |p| - 1 ensures Edge(h, p[i], p[i + 1]) {
      assert Edge(g, p[i], p[i + 1]);
    }
    assert PathFrom(h, a, b, p);
  }

  /** A path in the larger graph either never uses the new edge, or reaches its
      start first. */
  lemma {:induction false} UsesNewEdge(g: Graph, a: Node, b: Node, x: Node, y: Node, p: seq<Node>)
    requires PathFrom(WithEdge(g, a, b), x, y, p)
    ensures Reaches(g, x, y) || Reaches(g, x, a)
    decreases |p|
  {
    if |p| == 1 {
      ReachesSelf(g, x);
    } else {
      var h := WithEdge(g, a, b);
      assert Edge(h, p[0], p[1]);
      EdgesWith(g, a, b, p[0], p[1]);
      TailOfPath(h, p);
      UsesNewEdge(g, a, b, p[1], y, p[1..]);
      if x == a {
        ReachesSelf(g, a);
      } else if Reaches(g, p[1], y) {
        ReachesStep(g, x, p[1], y);
      } else {
        ReachesStep(g, x, p[1], a);
      }
    }
  }

  /** ... or leaves its end last. */
  lemma {:induction false} LeavesNewEdge(g: Graph, a: Node, b: Node, x: Node, y: Node, p: seq<Node>)
    requires PathFrom(WithEdge(g, a, b), x, y, p)
    ensures Reaches(g, x, y) || Reaches(g, b, y)
    decreases |p|
  {
    if |p| == 1 {
      ReachesSelf(g, x);
    } else {
      var h := WithEdge(g, a, b);
      assert Edge(h, p[0], p[1]);
      EdgesWith(g, a, b, p[0], p[1]);
      TailOfPath(h, p);
      LeavesNewEdge(g, a, b, p[1], y, p[1..]);
      if Reaches(g, p[1], y) && Edge(g, x, p[1]) {
        ReachesStep(g, x, p[1], y);
      }
    }
  }

  /** Adding an edge to an acyclic graph closes a cycle exactly when its end
      reaches its start. */
  lemma NewEdgeCycles(g: Graph, a: Node, b: Node)
    requires Acyclic(g)
    ensures Acyclic(WithEdge(g, a, b)) <==> !Reaches(g, b, a)
  {
    var h := WithEdge(g, a, b);
    if Reaches(g, b, a) {
      EdgesWith(g, a, b, a, b);
      forall n, m | Edge(g, n, m) ensures Edge(h, n, m) {
        EdgesWith(g, a, b, n, m);
      }
      MoreEdgesReachMore(g, h, b, a);
      assert Edge(h, a, b) && OnCycle(h, a);
    } else {
      forall n ensures !OnCycle(h, n) {
        if OnCycle(h, n) {
          var m :| Edge(h, n, m) && Reaches(h, m, n);
          CycleThrough(g, a, b, n, m);
        }
      }
    }
  }

  /** A cycle of the larger graph was there before, or uses the new edge. */
  lemma CycleThrough(g: Graph, a: Node, b: Node, n: Node, m: Node)
    requires Edge(WithEdge(g, a, b), n, m) && Reaches(WithEdge(g, a, b), m, n)
    ensures OnCycle(g, n) || Reaches(g, b, a)
  {
    var h := WithEdge(g, a, b);
    var p :| PathFrom(h, m, n, p);
    EdgesWith(g, a, b, n, m);
    if !Edge(g, n, m) {
      UsesNewEdge(g, a, b, b, a, p);
    } else if !Reaches(g, m, n) {
      UsesNewEdge(g, a, b, m, n, p);
      LeavesNewEdge(g, a, b, m, n, p);
      ReachesStep(g, n, m, a);
      ReachesTrans(g, b, n, a);
    }
  }

  /** Fewer edges, fewer cycles. */
  lemma FewerEdgesAcyclic(g: Graph, h: Graph)
    requires forall n, m :: Edge(g, n, m) ==> Edge(h, n, m)
    requires Acyclic(h)
    ensures Acyclic(g)
  {
    forall n ensures !OnCycle(g, n) {
      if OnCycle(g, n) {
        var m :| Edge(g, n, m) && Reaches(g, m, n);
        MoreEdgesReachMore(g, h, m, n);
        assert OnCycle(h, n);
      }
    }
  }

  /** Edges that only lead downhill close no cycle. */
  lemma DownhillIsAcyclic(g: Graph, rank: Node -> int)
    requires forall n, m :: Edge(g, n, m) ==> rank(m) < rank(n)
    ensures Acyclic(g)
  {
    forall n ensures !OnCycle(g, n) {
      if OnCycle(g, n) {
        var m :| Edge(g, n, m) && Reaches(g, m, n);
        var p :| PathFrom(g, m, n, p);
        Downhill(g, rank, p);
      }
    }
  }

  lemma {:induction false} Downhill(g: Graph, rank: Node -> int, p: seq<Node>)
    requires forall n, m :: Edge(g, n, m) ==> rank(m) < rank(n)
    requires IsPath(g, p)
    ensures rank(p[|p| - 1]) <= rank(p[0])
    decreases |p|
  {
    if |p| > 1 {
      assert Edge(g, p[0], p[1]);
      TailOfPath(g, p);
      Downhill(g, rank, p[1..]);
    }
  }
}
