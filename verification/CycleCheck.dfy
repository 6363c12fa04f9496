/** The depth-first cycle check run on every submitted plan. */
module CycleChecking {
  import opened Basics
  import opened Graphs

  class CycleCheck {
    const dependencies: Graph
    var visiting: set<Id>
    var visited: set<Id>
    /** The ids being visited, outermost first, and the ids in the order they became visited. */
    ghost var stack: seq<Id>
    ghost var order: seq<Id>

    ghost predicate Valid()
      reads this
    {
      && visiting == Elements(stack) && (stack == [] || IsPath(dependencies, stack))
      && visited == Elements(order) && Topological(dependencies, order)
      && visiting !! visited
    }

    ghost function Universe(): set<Id> {
      dependencies.Keys + set id, d | id in dependencies && d in dependencies[id] :: d
    }

    ghost function Unseen(): set<Id>
      reads this
    {
      Universe() - visiting - visited
    }

    constructor (nodes: seq<Node>)
      ensures Valid() && dependencies == GraphOf(nodes) && stack == [] && order == []
    {
      dependencies := GraphOf(nodes);
      visiting, visited := {}, {};
      stack, order := [], [];
    }

    /** Returns false where the source throws, which it does only on a genuine cycle. */
    method Visit(id: Id) returns (ok: bool)
      requires Valid() && id in Universe()
      requires stack != [] ==> Edge(dependencies, Last(stack), id)
      modifies this
      ensures !ok ==> HasCycle(dependencies)
      ensures ok ==> Valid() && stack == old(stack) && id in visited
      ensures ok ==> old(order) <= order && visited <= old(visited) + Universe()
      decreases Unseen()
    {
      if id in visiting {
        CycleOnStack(id);
        return false;
      }
      if id in visited {
        return true;
      }
      visiting := visiting + {id};
      stack := stack + [id];
      PushKeepsPath(old(stack), id);
      var deps := Deps(dependencies, id);
      var i := 0;
      while i < |deps|
        invariant 0 <= i <= |deps|
        invariant Valid() && stack == old(stack) + [id] && visited <= old(visited) + Universe()
        invariant old(order) <= order && forall d | d in deps[..i] :: d in visited
      {
        ghost var seen := visited;
        assert Edge(dependencies, id, deps[i]);
        assert deps[i] in Universe();
        assert Unseen() < old(Unseen()) by {
          assert id in old(Unseen()) && id !in Unseen();
          assert forall x | x in order :: x in visited;
          assert old(visited) <= visited;
        }
        ok := Visit(deps[i]);
        if !ok {
          return false;
        }
        assert seen <= visited;
        i := i + 1;
      }
      assert deps[..i] == deps;
      assert id in stack && id !in visited;
      VisitedLast(order, id);
      visiting := visiting - {id};
      visited := visited + {id};
      stack := old(stack);
      order := order + [id];
      return true;
    }

    /** A dependency that is still being visited closes a cycle. */
    lemma CycleOnStack(id: Id)
      requires Valid() && id in visiting && stack != [] && Edge(dependencies, Last(stack), id)
      ensures HasCycle(dependencies)
    {
      var i :| 0 <= i < |stack| && stack[i] == id;
      var c := stack[i..] + [id];
      forall m | 0 <= m < |c| - 1
        ensures Edge(dependencies, c[m], c[m + 1])
      {
        if m < |stack| - i - 1 {
          assert Edge(dependencies, stack[i + m], stack[i + m + 1]);
        }
      }
      assert IsCycle(dependencies, c);
    }

    lemma VisitedLast(before: seq<Id>, id: Id)
      requires Topological(dependencies, before) && id !in before
      requires forall d | Edge(dependencies, id, d) :: d in before
      ensures Topological(dependencies, before + [id])
    {
      var after := before + [id];
      forall i, d | 0 <= i < |after| && Edge(dependencies, after[i], d)
        ensures d in after[..i]
      {
        assert after[..i] == before[..i];
      }
    }

    lemma PushKeepsPath(before: seq<Id>, id: Id)
      requires before == [] || (IsPath(dependencies, before) && Edge(dependencies, Last(before), id))
      ensures IsPath(dependencies, before + [id])
    {
      var after := before + [id];
      forall m | 0 <= m < |after| - 1
        ensures Edge(dependencies, after[m], after[m + 1])
      {
        if m < |before| - 1 {
          assert Edge(dependencies, before[m], before[m + 1]);
        }
      }
    }
  }

  /** Accepts exactly the acyclic dependency lists, and then leaves a topological order. */
  method AssertAcyclic(nodes: seq<Node>) returns (ok: bool, ghost order: seq<Id>)
    ensures ok <==> !HasCycle(GraphOf(nodes))
    ensures ok ==> Topological(GraphOf(nodes), order) && forall n | n in nodes :: n.id in order
  {
    var check := new CycleCheck(nodes);
    var i := 0;
    GraphOfKeys(nodes);
    while i < |nodes|
      invariant 0 <= i <= |nodes|
      invariant fresh(check) && check.Valid() && check.stack == [] && check.dependencies == GraphOf(nodes)
      invariant forall n | n in nodes[..i] :: n.id in check.visited
    {
      ghost var seen := check.visited;
      assert nodes[i].id in check.dependencies;
      ok := check.Visit(nodes[i].id);
      if !ok {
        return false, [];
      }
      assert seen <= check.visited;
      i := i + 1;
    }
    OrderExcludesCycles(GraphOf(nodes), check.order);
    return true, check.order;
  }
}
