/** The lower reference plan: walk the built types in an order that meets every consumer first, sum all
    demand for a type, and round it once. */
module BatchPlan {
  import opened Sums
  import opened Recipes
  import opened BuildChain
  import opened ChainDepth
  import opened ChainLaws
  import opened Sandwich

  function BatchRuns(q: Query, p: TypeId, demand: nat): nat
  {
    if Builds(q, p) then CeilDiv(demand, q.recipes[p].outputQuantity) else 0
  }

  /** The demand for t once every type of `order` has been expanded in turn. */
  function BatchDemand(q: Query, order: seq<TypeId>, t: TypeId): nat
  {
    if order == [] then TargetDemand(q, t)
    else
      var rest, p := order[..|order| - 1], order[|order| - 1];
      BatchDemand(q, rest, t) + BatchTakes(q, p, BatchDemand(q, rest, p), t)
  }

  function BatchTakes(q: Query, p: TypeId, demand: nat, t: TypeId): nat
  {
    BatchRuns(q, p, demand) * PerRun(q, p, t)
  }

  ghost predicate NoRepeats(order: seq<TypeId>)
  {
    forall i, j :: 0 <= i < j < |order| ==> order[i] != order[j]
  }

  /** No type consumes itself or one that comes before it. */
  ghost predicate ConsumersFirst(q: Query, order: seq<TypeId>)
  {
    && NoRepeats(order)
    && forall i, j :: 0 <= i <= j < |order| ==> order[i] !in ConsumedBy(q, order[j])
  }

  lemma MembersOfLonger(order: seq<TypeId>)
    requires order != [] && NoRepeats(order)
    ensures Members(order) == Members(order[..|order| - 1]) + {order[|order| - 1]}
    ensures order[|order| - 1] !in Members(order[..|order| - 1])
  {
    var rest, p := order[..|order| - 1], order[|order| - 1];
    forall t
      ensures t in Members(order) <==> t in Members(rest) + {p}
    {
      if t in Members(rest) {
        var i :| 0 <= i < |rest| && rest[i] == t;
        assert order[i] == t;
      }
      if t in Members(order) && t != p {
        var i :| 0 <= i < |order| && order[i] == t;
        assert rest[i] == t;
      }
    }
  }

  /** In such an order the plan does round each type's whole demand: it solves the demand equations. */
  lemma {:induction false} BatchSolvesDemand(q: Query, order: seq<TypeId>, t: TypeId)
    requires ConsumersFirst(q, order)
    ensures BatchDemand(q, order, t)
         == TargetDemand(q, t) + Sum(Members(order), p => BatchTakes(q, p, BatchDemand(q, order, p), t))
  {
    hide PerRun, BatchRuns, ConsumedBy;
    var takes := p => BatchTakes(q, p, BatchDemand(q, order, p), t);
    if order == [] {
      SumSupport({}, Members(order), takes);
    } else {
      var rest, last := order[..|order| - 1], order[|order| - 1];
      BatchSolvesDemand(q, rest, t);
      MembersOfLonger(order);
      SumInsert(Members(rest), last, takes);
      forall p | p in Members(order)
        ensures BatchDemand(q, order, p) == BatchDemand(q, rest, p)
      {
        ConsumedIffPositive(q, last, p);
      }
      SumCongruence(Members(rest), takes, p => BatchTakes(q, p, BatchDemand(q, rest, p), t));
    }
  }

  // ----- The lower bound of every plan -----

  /** What `runs(c)` runs of c take of t. */
  ghost function PlanTakes(q: Query, runs: TypeId -> nat, c: TypeId, t: TypeId): nat { Times(runs(c), PerRun(q, c, t)) }

  /** What a plan that runs each type of `all` so many times asks for of t. */
  ghost function PlanDemand(q: Query, runs: TypeId -> nat, all: set<TypeId>, t: TypeId): int
  {
    TargetDemand(q, t) + Sum(all, c => PlanTakes(q, runs, c, t))
  }

  /** The runs of every built type make at least what is asked for of it. */
  ghost predicate Covers(q: Query, runs: TypeId -> nat, all: set<TypeId>)
  {
    forall p :: p in all && Builds(q, p) ==> PlanDemand(q, runs, all, p) <= Times(runs(p), q.recipes[p].outputQuantity)
  }

  lemma FewestRuns(q: Query, runs: TypeId -> nat, all: set<TypeId>, p: TypeId, demand: nat)
    requires Covers(q, runs, all) && p in all && demand <= PlanDemand(q, runs, all, p)
    ensures BatchRuns(q, p, demand) <= runs(p)
  {
    hide PlanDemand;
    if Builds(q, p) {
      CeilDivLeast(demand, q.recipes[p].outputQuantity, runs(p));
    }
  }

  /** Summing first and rounding once asks for no more of anything than any plan whose runs cover its own demand. */
  lemma {:induction false} BatchIsLeast(q: Query, order: seq<TypeId>, runs: TypeId -> nat, all: set<TypeId>, t: TypeId)
    requires NoRepeats(order) && Members(order) <= all && Covers(q, runs, all)
    ensures BatchDemand(q, order, t) <= TargetDemand(q, t) + Sum(Members(order), c => PlanTakes(q, runs, c, t))
         <= PlanDemand(q, runs, all, t)
    decreases |order|
  {
    hide PerRun, BatchRuns, Covers, TargetDemand;
    SumSubset(Members(order), all, c => PlanTakes(q, runs, c, t));
    if order == [] {
      SumSupport({}, Members(order), c => PlanTakes(q, runs, c, t));
    } else {
      var rest, last := order[..|order| - 1], order[|order| - 1];
      MembersOfLonger(order);
      BatchIsLeast(q, rest, runs, all, t);
      BatchIsLeast(q, rest, runs, all, last);
      FewestRuns(q, runs, all, last, BatchDemand(q, rest, last));
      TimesMonotone(BatchRuns(q, last, BatchDemand(q, rest, last)), runs(last), PerRun(q, last, t));
      SumInsert(Members(rest), last, c => PlanTakes(q, runs, c, t));
    }
  }

  // ----- The merged run is such a plan -----

  /** The demand the merged run sees in total is what its runs ask for. */
  lemma MergedDemand(q: Query, d: nat, all: set<TypeId>, t: TypeId)
    requires Seen(q, d) <= all
    ensures PlanDemand(q, p => TotalRuns(q, d, p), all, t) == Needed(q, d, t) + RawBefore(q, d, t) + QtyAt(q, d, t)
  {
    hide PerRun, Level, Needed, RawBefore, Seen, TotalRuns;
    LevelConservation(q, d, t, all);
    SumCongruence(all, p => Taken(q, d, p, t), c => PlanTakes(q, p => TotalRuns(q, d, p), c, t));
  }

  lemma MergedCovers(q: Query, d: nat, all: set<TypeId>)
    requires DepthFits(q, d) && Seen(q, d) <= all
    ensures Covers(q, p => TotalRuns(q, d, p), all)
  {
    hide Level, Needed, TotalRuns, RawBefore, DepthFits, PlanDemand, Seen;
    forall p | p in all && Builds(q, p)
      ensures PlanDemand(q, p => TotalRuns(q, d, p), all, p) <= Times(TotalRuns(q, d, p), q.recipes[p].outputQuantity)
    {
      MergedDemand(q, d, all, p);
      NothingCut(q, d, p);
      SeenIffPositive(q, d, p);
      RunsLedger(q, d, p);
    }
  }

  /** On recipes that fit the depth limit the merged run needs no less of anything than summing first and
      rounding once, whatever consumer-first order that plan follows. */
  lemma MergedNeedsNoLess(q: Query, d: nat, order: seq<TypeId>, t: TypeId)
    requires DepthFits(q, d) && ConsumersFirst(q, order)
    ensures Builds(q, t) ==> BatchDemand(q, order, t) <= NeededFor(Resolve(q, d), t)
    ensures !Builds(q, t) ==> BatchDemand(q, order, t) <= RawFor(Resolve(q, d), t)
  {
    hide Level, Seen, Needed, TotalRuns, RawBefore, DepthFits, Builds, NeededFor, RawFor, Resolve, Covers, PlanDemand;
    var all := Seen(q, d) + Members(order);
    MergedCovers(q, d, all);
    BatchIsLeast(q, order, p => TotalRuns(q, d, p), all, t);
    MergedDemand(q, d, all, t);
    NothingCut(q, d, t);
    SeenIffPositive(q, d, t);
    ResolutionTotals(q, d, t);
  }

  /** The whole comparison on recipes that fit the depth limit, along any consumer-first order of the resolution's
      own steps: rounding once <= the merged run <= expanding every branch on its own. */
  lemma Sandwiched(q: Query, d: nat, order: seq<TypeId>, x: TypeId)
    requires DepthFits(q, d) && ConsumersFirst(q, order) && !Builds(q, x)
    requires Members(order) == Resolve(q, d).steps.Keys
    ensures BatchDemand(q, order, x)
         == TargetDemand(q, x) + Sum(Resolve(q, d).steps.Keys, p => BatchTakes(q, p, BatchDemand(q, order, p), x))
    ensures BatchDemand(q, order, x) <= RawFor(Resolve(q, d), x) <= BranchRaw(q, q.target, q.quantity, d, x)
  {
    hide DepthFits, Resolve, RawFor, BranchRaw, BatchDemand, BatchTakes;
    BatchSolvesDemand(q, order, x);
    MergedNeedsNoLess(q, d, order, x);
    MergedNeedsNoMore(q, d, x);
  }
}
