/** Dependency graphs: paths, cycles and topological orders. */
module Graphs {
  import opened Basics

  type Id = string
  type Graph = map<Id, seq<Id>>

  /** One listed node with the ids it depends on. */
  datatype Node = Node(id: Id, deps: seq<Id>)

  /** The lookup table built from a list of nodes; a later duplicate id wins. */
  function GraphOf(nodes: seq<Node>): Graph {
    if nodes == [] then map[]
    else GraphOf(nodes[..|nodes| - 1])[Last(nodes).id := Last(nodes).deps]
  }

  function Deps(g: Graph, id: Id): seq<Id> {
    if id in g then g[id] else []
  }

  predicate Edge(g: Graph, a: Id, b: Id) {
    b in Deps(g, a)
  }

  predicate IsPath(g: Graph, p: seq<Id>) {
    p != [] && forall i :: 0 <= i < |p| - 1 ==> Edge(g, p[i], p[i + 1])
  }

  predicate IsCycle(g: Graph, p: seq<Id>) {
    |p| >= 2 && IsPath(g, p) && p[0] == Last(p)
  }

  ghost predicate HasCycle(g: Graph) {
    exists p :: IsCycle(g, p)
  }

  /** Every id appears after all the ids it depends on. */
  ghost predicate Topological(g: Graph, order: seq<Id>) {
    Distinct(order) && forall i, d :: 0 <= i < |order| && Edge(g, order[i], d) ==> d in order[..i]
  }

  lemma {:induction false} GraphOfKeys(nodes: seq<Node>)
    ensures GraphOf(nodes).Keys == set n | n in nodes :: n.id
  {
    if nodes != [] {
      var front := nodes[..|nodes| - 1];
      GraphOfKeys(front);
      assert nodes == front + [Last(nodes)];
    }
  }

  predicate UniqueNodeIds(nodes: seq<Node>) {
    forall i, j :: 0 <= i < j < |nodes| ==> nodes[i].id != nodes[j].id
  }

  lemma {:induction false} GraphOfAt(nodes: seq<Node>, k: nat)
    requires UniqueNodeIds(nodes) && k < |nodes|
    ensures nodes[k].id in GraphOf(nodes) && GraphOf(nodes)[nodes[k].id] == nodes[k].deps
  {
    if k < |nodes| - 1 {
      GraphOfAt(nodes[..|nodes| - 1], k);
    }
  }

  /** Only the edge relation decides whether there is a cycle. */
  lemma SameEdgesSameCycles(g: Graph, h: Graph)
    requires forall a, b :: Edge(g, a, b) <==> Edge(h, a, b)
    ensures HasCycle(g) <==> HasCycle(h)
  {
    if HasCycle(g) {
      var p :| IsCycle(g, p);
      assert IsCycle(h, p);
    }
    if HasCycle(h) {
      var p :| IsCycle(h, p);
      assert IsCycle(g, p);
    }
  }

  /** Walking k edges from the i-th id of a topological order goes back at least k places. */
  lemma {:induction false} PathDescends(g: Graph, order: seq<Id>, p: seq<Id>, i: nat) returns (j: nat)
    requires Topological(g, order) && IsPath(g, p)
    requires i < |order| && order[i] == p[0]
    ensures j + |p| - 1 <= i && order[j] == Last(p)
  {
    if |p| == 1 {
      j := i;
    } else {
      assert Edge(g, p[0], p[1]);
      var k :| 0 <= k < i && order[k] == p[1];
      assert p[1..][0] == p[1] && Last(p[1..]) == Last(p);
      forall m | 0 <= m < |p[1..]| - 1
        ensures Edge(g, p[1..][m], p[1..][m + 1])
      {
        assert Edge(g, p[m + 1], p[m + 2]);
      }
      j := PathDescends(g, order, p[1..], k);
    }
  }

  /** A topological order over all nodes with dependencies rules out cycles. */
  lemma OrderExcludesCycles(g: Graph, order: seq<Id>)
    requires Topological(g, order)
    requires forall id | id in g :: id in order
    ensures !HasCycle(g)
  {
    if HasCycle(g) {
      var p :| IsCycle(g, p);
      assert Edge(g, p[0], p[1]);
      var i :| 0 <= i < |order| && order[i] == p[0];
      var j := PathDescends(g, order, p, i);
      assert false;
    }
  }

  /** In an acyclic graph, every non-empty set of ids holds, reachable inside the set
      from any chosen member, an id none of whose dependencies is in the set. */
  lemma {:induction false} MinimalMember(g: Graph, among: set<Id>, p: seq<Id>) returns (q: seq<Id>)
    requires !HasCycle(g)
    requires IsPath(g, p) && Distinct(p) && forall x | x in p :: x in among
    ensures IsPath(g, q) && q[0] == p[0] && forall x | x in q :: x in among
    ensures forall d :: Edge(g, Last(q), d) ==> d !in among
    decreases |among| - |p|
  {
    DistinctFits(p, among);
    var last := Last(p);
    if d :| Edge(g, last, d) && d in among {
      if d in p {
        var i :| 0 <= i < |p| && p[i] == d;
        var c := p[i..] + [d];
        assert Last(p[i..]) == last;
        forall m | 0 <= m < |c| - 1
          ensures Edge(g, c[m], c[m + 1])
        {
          if m < |p| - i - 1 {
            assert Edge(g, p[i + m], p[i + m + 1]);
          }
        }
        assert IsCycle(g, c);
        assert false;
      } else {
        var longer := p + [d];
        forall m | 0 <= m < |longer| - 1
          ensures Edge(g, longer[m], longer[m + 1])
        {
          if m < |p| - 1 {
            assert Edge(g, p[m], p[m + 1]);
          }
        }
        DistinctFits(longer, among);
        q := MinimalMember(g, among, longer);
      }
    } else {
      q := p;
    }
  }
}
