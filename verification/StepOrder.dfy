/** Depth-first post-order over the build steps. */
module StepOrder {
  import opened Sums
  import opened Recipes
  import opened BatchPlan

  /** Each step's type with the types its materials list. */
  type Graph = map<TypeId, set<TypeId>>

  ghost predicate Path(g: Graph, a: TypeId, b: TypeId, n: nat)
    decreases n
  {
    if n == 0 then a == b
    else a in g && exists m :: m in g[a] && Path(g, m, b, n - 1)
  }

  ghost predicate Reaches(g: Graph, a: TypeId, b: TypeId)
  {
    exists n: nat :: Path(g, a, b, n)
  }

  lemma {:induction false} PathThenEdge(g: Graph, a: TypeId, b: TypeId, n: nat, c: TypeId)
    requires Path(g, a, b, n) && b in g && c in g[b]
    ensures Path(g, a, c, n + 1)
    decreases n
  {
    if n == 0 {
      assert Path(g, c, c, 0);
    } else {
      var m :| m in g[a] && Path(g, m, b, n - 1);
      PathThenEdge(g, m, b, n - 1, c);
    }
  }

  lemma ReachesThenEdge(g: Graph, a: TypeId, b: TypeId, c: TypeId)
    requires Reaches(g, a, b) && b in g && c in g[b]
    ensures Reaches(g, a, c)
  {
    var n: nat :| Path(g, a, b, n);
    PathThenEdge(g, a, b, n, c);
  }

  lemma ReachesItself(g: Graph, a: TypeId)
    ensures Reaches(g, a, a)
  {
    assert Path(g, a, a, 0);
  }

  /** What the traversal keeps true between visits; `stack` holds the steps begun and not yet appended. */
  ghost predicate Traversed(g: Graph, visited: set<TypeId>, ordered: seq<TypeId>, stack: set<TypeId>)
  {
    && NoRepeats(ordered)
    && (forall t :: t in visited && t in g ==> t in ordered || t in stack)
    && (forall t :: t in ordered ==> t in visited && t in g && t !in stack && g[t] <= visited)
    && stack <= visited * g.Keys
    && MaterialsBefore(g, ordered)
  }

  /** A step comes after each step it lists, unless that one depends on it in turn. */
  ghost predicate MaterialsBefore(g: Graph, ordered: seq<TypeId>)
  {
    forall i, m :: 0 <= i < |ordered| && ordered[i] in g && m in g[ordered[i]] && m in g ==>
      m in ordered[..i] || Reaches(g, m, ordered[i])
  }

  lemma AppendStep(g: Graph, visited: set<TypeId>, ordered: seq<TypeId>, stack: set<TypeId>, t: TypeId)
    requires Traversed(g, visited, ordered, stack + {t})
    requires t in g && t !in stack && t in visited && g[t] <= visited
    requires forall s :: s in stack + {t} ==> Reaches(g, s, t)
    ensures Traversed(g, visited, ordered + [t], stack)
  {
    hide Reaches;
    var longer := ordered + [t];
    forall i, m | 0 <= i < |longer| && longer[i] in g && m in g[longer[i]] && m in g
      ensures m in longer[..i] || Reaches(g, m, longer[i])
    {
      if i < |ordered| {
        assert longer[i] == ordered[i] && longer[..i] == ordered[..i];
      } else {
        assert longer[..i] == ordered;
      }
    }
  }

  class StepSorter {
    const graph: Graph
    var visited: set<TypeId>
    var ordered: seq<TypeId>

    constructor (graph: Graph)
      ensures this.graph == graph && visited == {} && ordered == []
    {
      this.graph := graph;
      visited, ordered := {}, [];
    }

    /** Marks t, visits the materials of its step in any order, then appends the step. */
    method Visit(t: TypeId, ghost root: TypeId, ghost stack: set<TypeId>, ghost universe: set<TypeId>)
      requires t in universe && forall u :: u in graph ==> graph[u] <= universe
      requires Traversed(graph, visited, ordered, stack)
      requires Reaches(graph, root, t)
      requires forall s :: s in stack ==> Reaches(graph, s, t)
      requires forall u :: u in visited ==> Reaches(graph, root, u)
      modifies this`visited, this`ordered
      ensures Traversed(graph, visited, ordered, stack)
      ensures t in visited && old(visited) <= visited
      ensures old(ordered) <= ordered
      ensures forall u :: u in visited ==> Reaches(graph, root, u)
      decreases universe - visited
    {
      hide Reaches;
      if t in visited {
        return;
      }
      visited := visited + {t};
      if t !in graph {
        return;
      }
      ReachesItself(graph, t);
      var todo := graph[t];
      while todo != {}
        invariant todo <= graph[t]
        invariant Traversed(graph, visited, ordered, stack + {t})
        invariant t in visited && old(visited) <= visited && t !in old(visited)
        invariant graph[t] - todo <= visited
        invariant old(ordered) <= ordered
        invariant forall u :: u in visited ==> Reaches(graph, root, u)
      {
        var m := PickOne(todo);
        forall s | s in stack + {t}
          ensures Reaches(graph, s, m)
        {
          ReachesThenEdge(graph, s, t, m);
        }
        ReachesThenEdge(graph, root, t, m);
        Visit(m, root, stack + {t}, universe);
        todo := todo - {m};
      }
      AppendStep(graph, visited, ordered, stack, t);
      ordered := ordered + [t];
    }
  }

  lemma {:induction false} ClosedUnderPaths(g: Graph, visited: set<TypeId>, a: TypeId, b: TypeId, n: nat)
    requires forall t :: t in visited && t in g ==> g[t] <= visited
    requires a in visited && Path(g, a, b, n)
    ensures b in visited
    decreases n
  {
    if n > 0 {
      var m :| m in g[a] && Path(g, m, b, n - 1);
      ClosedUnderPaths(g, visited, m, b, n - 1);
    }
  }

  /** Lists each step that the target reaches exactly once, and after every step it lists that does not
      depend on it in turn. */
  method TopologicalOrder(target: TypeId, graph: Graph) returns (ordered: seq<TypeId>)
    ensures NoRepeats(ordered)
    ensures forall t :: t in ordered <==> t in graph && Reaches(graph, target, t)
    ensures MaterialsBefore(graph, ordered)
  {
    var sorter := new StepSorter(graph);
    ghost var universe := graph.Keys + {target} + set t, m | t in graph && m in graph[t] :: m;
    forall u | u in graph
      ensures graph[u] <= universe
    {
      forall m | m in graph[u]
        ensures m in universe
      {
      }
    }
    ReachesItself(graph, target);
    sorter.Visit(target, target, {}, universe);
    ordered := sorter.ordered;
    forall t | t in graph && Reaches(graph, target, t)
      ensures t in ordered
    {
      var n: nat :| Path(graph, target, t, n);
      ClosedUnderPaths(graph, sorter.visited, target, t, n);
    }
  }
}
