/** The order of a resolution's own steps: none is dropped, and within the depth limit it is a build order. */
module StepOrderLaws {
  import opened Recipes
  import opened BuildChain
  import opened ChainDepth
  import opened BatchPlan
  import opened Sandwich
  import opened StepOrder

  /** Each step of the resolution with the types its materials list. */
  ghost function StepGraph(q: Query, d: nat): Graph
  {
    map t | t in StepTypes(q, d) :: ConsumedBy(q, t)
  }

  lemma PathOfNone(g: Graph, t: TypeId)
    ensures Path(g, t, t, 0)
  {
  }

  lemma {:induction false} ReachedFromTarget(q: Query, d: nat, n: nat, t: TypeId)
    requires t in Level(q, n) && n <= d
    ensures Path(StepGraph(q, d), q.target, t, n)
  {
    hide Seen, NextDemand, Path;
    if n == 0 {
      PathOfNone(StepGraph(q, d), t);
    } else {
      var p := LevelHasConsumer(q, n, t);
      ReachedFromTarget(q, d, n - 1, p);
      LevelIsSeen(q, n - 1, d, p);
      PathThenEdge(StepGraph(q, d), q.target, p, n - 1, t);
    }
  }

  /** Every step is reachable from the target through the steps' materials, on cyclic recipes too. */
  lemma EveryStepReached(q: Query, d: nat, t: TypeId)
    requires t in StepTypes(q, d)
    ensures Reaches(StepGraph(q, d), q.target, t)
  {
    hide Seen, Level, Path, ConsumedBy;
    var k := FirstMeeting(q, t, d);
    ReachedFromTarget(q, d, k, t);
  }

  lemma {:induction false} PathClimbsLevels(q: Query, d: nat, a: TypeId, b: TypeId, n: nat, k: nat)
    requires a in Level(q, k) && Path(StepGraph(q, d), a, b, n)
    ensures b in Level(q, k + n)
    decreases n
  {
    hide Seen, Demanded, ConsumedBy;
    if n > 0 {
      var m :| m in StepGraph(q, d)[a] && Path(StepGraph(q, d), m, b, n - 1);
      PathClimbsLevels(q, d, m, b, n - 1, k + 1);
    }
  }

  lemma {:induction false} LoopClimbsForever(q: Query, d: nat, a: TypeId, n: nat, k: nat, times: nat)
    requires a in Level(q, k) && n > 0 && Path(StepGraph(q, d), a, a, n)
    ensures exists j: nat :: j >= times && a in Level(q, j)
  {
    hide Seen, Level, Path, ConsumedBy;
    if times > 0 {
      LoopClimbsForever(q, d, a, n, k, times - 1);
      var j: nat :| j >= times - 1 && a in Level(q, j);
      PathClimbsLevels(q, d, a, a, n, j);
    }
  }

  /** Within the depth limit no step depends on itself. */
  lemma FittingStepsAcyclic(q: Query, d: nat, t: TypeId, m: TypeId)
    requires DepthFits(q, d)
    requires t in StepTypes(q, d) && m in ConsumedBy(q, t)
    ensures !Reaches(StepGraph(q, d), m, t)
  {
    hide Seen, Level, ConsumedBy, DepthFits;
    if Reaches(StepGraph(q, d), m, t) {
      var n: nat :| Path(StepGraph(q, d), m, t, n);
      var k := FirstMeeting(q, t, d);
      assert Path(StepGraph(q, d), t, t, n + 1);
      LoopClimbsForever(q, d, t, n + 1, k, d);
      var j: nat :| j >= d && t in Level(q, j);
      LoopEndsByItself(q, d);
      EmptyLevelStays(q, d, j);
      assert false;
    }
  }

  ghost predicate Acyclic(g: Graph)
  {
    forall t, m :: t in g && m in g[t] ==> !Reaches(g, m, t)
  }

  /** Each step comes after every step it lists. */
  ghost predicate BuildOrder(g: Graph, ordered: seq<TypeId>)
  {
    forall i, m :: 0 <= i < |ordered| && ordered[i] in g && m in g[ordered[i]] && m in g ==> m in ordered[..i]
  }

  lemma {:induction false} PathGoesBack(g: Graph, ordered: seq<TypeId>, i: nat, b: TypeId, n: nat)
    requires BuildOrder(g, ordered) && i < |ordered|
    requires Path(g, ordered[i], b, n) && b in g && n > 0
    ensures b in ordered[..i]
    decreases n
  {
    var m :| m in g[ordered[i]] && Path(g, m, b, n - 1);
    assert m in ordered[..i];
    if n > 1 {
      var j :| 0 <= j < i && ordered[j] == m;
      PathGoesBack(g, ordered, j, b, n - 1);
      assert ordered[..j] <= ordered[..i];
    }
  }

  /** The traversal's order is one to build in exactly when no step depends on itself. */
  lemma BuildOrderIffAcyclic(g: Graph, ordered: seq<TypeId>)
    requires NoRepeats(ordered) && MaterialsBefore(g, ordered)
    requires forall t :: t in ordered <==> t in g
    ensures BuildOrder(g, ordered) <==> Acyclic(g)
  {
    hide Path;
    if BuildOrder(g, ordered) {
      forall t, m | t in g && m in g[t]
        ensures !Reaches(g, m, t)
      {
        if Reaches(g, m, t) {
          var n: nat :| Path(g, m, t, n);
          var i :| 0 <= i < |ordered| && ordered[i] == t;
          EdgeThenPath(g, t, m, n);
          PathGoesBack(g, ordered, i, t, n + 1);
          assert false;
        }
      }
    }
  }

  lemma EdgeThenPath(g: Graph, t: TypeId, m: TypeId, n: nat)
    requires t in g && m in g[t] && Path(g, m, t, n)
    ensures Path(g, t, t, n + 1)
  {
  }

  /** Two types that consume each other, both built. */
  function Circle(): Query
  {
    Query(map[0 := Recipe(1, [Material(1, 1)]), 1 := Recipe(1, [Material(0, 1)])], 0, 1, {1}, 0, 0.0)
  }

  lemma CircleConsumes(t: TypeId)
    requires t == 0 || t == 1
    ensures Builds(Circle(), t) && ConsumedBy(Circle(), t) == {1 - t}
  {
    var ms := MaterialsOf(Circle(), t);
    assert ms == [Material(1 - t, 1)] && ms[0].typeId == 1 - t;
    assert ListedTypes(ms) == {1 - t};
  }

  /** On such recipes no order of the steps lists every component before what depends on it. */
  lemma CircleHasNoBuildOrder(d: nat, ordered: seq<TypeId>)
    requires d >= 2 && NoRepeats(ordered) && MaterialsBefore(StepGraph(Circle(), d), ordered)
    requires forall t :: t in ordered <==> t in StepGraph(Circle(), d)
    ensures !Acyclic(StepGraph(Circle(), d)) && !BuildOrder(StepGraph(Circle(), d), ordered)
  {
    hide Seen, Circle, Demanded, ConsumedBy, Builds, Path, NoRepeats, MaterialsBefore, BuildOrder;
    var q, g := Circle(), StepGraph(Circle(), d);
    CircleConsumes(0);
    CircleConsumes(1);
    assert q.target == 0 by {
      CircleTarget();
    }
    assert 0 in Level(q, 0);
    assert Level(q, 0).Keys == {0} && NextTypes(q, {0}) == {1};
    assert 1 in Level(q, 1);
    LevelIsSeen(q, 0, d, 0);
    LevelIsSeen(q, 1, d, 1);
    assert 0 in g && 1 in g && 1 in g[0] && 0 in g[1];
    PathOfNone(g, 1);
    PathThenEdge(g, 1, 1, 0, 0);
    BuildOrderIffAcyclic(g, ordered);
  }

  lemma CircleTarget()
    ensures Circle().target == 0
  {
  }

  function Reversed(s: seq<TypeId>): (r: seq<TypeId>)
    ensures |r| == |s| && forall i :: 0 <= i < |s| ==> r[i] == s[|s| - 1 - i]
  {
    seq(|s|, i requires 0 <= i < |s| => s[|s| - 1 - i])
  }

  /** Read backwards, a post-order of fitting steps meets every consumer before what it consumes, so it is
      an order the batch plan can follow. */
  lemma BackwardsIsConsumersFirst(q: Query, d: nat, ordered: seq<TypeId>)
    requires DepthFits(q, d)
    requires NoRepeats(ordered) && (forall t :: t in ordered ==> t in StepTypes(q, d))
    requires MaterialsBefore(StepGraph(q, d), ordered)
    ensures ConsumersFirst(q, Reversed(ordered))
    ensures forall i, m :: 0 <= i < |ordered| && m in ConsumedBy(q, ordered[i]) && m in StepTypes(q, d) ==>
            m in ordered[..i]
  {
    hide Seen, ConsumedBy, DepthFits, Reaches;
    var n := |ordered|;
    forall i, m | 0 <= i < n && m in ConsumedBy(q, ordered[i]) && m in StepTypes(q, d)
      ensures m in ordered[..i]
    {
      assert ordered[i] in StepGraph(q, d);
      FittingStepsAcyclic(q, d, ordered[i], m);
    }
    forall i, j | 0 <= i <= j < n
      ensures Reversed(ordered)[i] !in ConsumedBy(q, Reversed(ordered)[j])
    {
      var a, b := n - 1 - i, n - 1 - j;
      assert Reversed(ordered)[i] == ordered[a] && Reversed(ordered)[j] == ordered[b];
      assert ordered[a] in StepTypes(q, d);
      assert ordered[a] !in ordered[..b];
    }
  }

  lemma ReversedMembers(ids: seq<TypeId>, all: set<TypeId>)
    requires forall t :: t in ids <==> t in all
    ensures Members(Reversed(ids)) == all
  {
    forall t
      ensures t in Members(Reversed(ids)) <==> t in all
    {
      if t in all {
        var i :| 0 <= i < |ids| && ids[i] == t;
        assert Reversed(ids)[|ids| - 1 - i] == t;
      }
    }
  }

  /** Every bought type's total lies between the plan that rounds once, along the reverse of this order, and the
      expansion of every branch on its own. */
  ghost predicate BetweenPlans(q: Query, d: nat, raw: map<TypeId, nat>, ids: seq<TypeId>)
  {
    forall x :: !Builds(q, x) ==>
      BatchDemand(q, Reversed(ids), x) <= Get(raw, x) <= BranchRaw(q, q.target, q.quantity, d, x)
  }

  /** Along the reverse of the resolution's own order, rounding once <= the merged run <= every branch on its own. */
  lemma OwnOrderSandwiches(q: Query, d: nat, ids: seq<TypeId>)
    requires DepthFits(q, d) && ConsumersFirst(q, Reversed(ids))
    requires forall t :: t in ids <==> t in Resolve(q, d).steps
    ensures BetweenPlans(q, d, Resolve(q, d).raw, ids)
  {
    hide DepthFits, ConsumersFirst, Resolve, Builds, BatchDemand, BranchRaw, Reversed, Members;
    ReversedMembers(ids, Resolve(q, d).steps.Keys);
    forall x | !Builds(q, x)
      ensures BatchDemand(q, Reversed(ids), x) <= RawFor(Resolve(q, d), x) <= BranchRaw(q, q.target, q.quantity, d, x)
    {
      Sandwiched(q, d, Reversed(ids), x);
    }
  }
}
