/** The level-merged run lies between two reference plans: the expansion that never merges demand, and
    the plan that sums all demand for a type before it rounds once. */
module Sandwich {
  import opened Sums
  import opened Recipes
  import opened BuildChain
  import opened ChainComparisons
  import opened ChainLaws

  // ----- The upper plan: every branch on its own -----

  /** Raw demand for x when `quantity` of t is expanded by plain recursion, with d levels left. */
  function BranchRaw(q: Query, t: TypeId, quantity: nat, d: nat, x: TypeId): nat
    decreases d, 0
  {
    if d == 0 || !Builds(q, t) then (if x == t then quantity else 0)
    else BranchRawAll(q, MaterialsOf(q, t), Runs(q, t, quantity), d - 1, x)
  }

  function BranchRawAll(q: Query, ms: seq<Material>, runs: nat, d: nat, x: TypeId): nat
    decreases d, |ms|
  {
    if ms == [] then 0
    else BranchRaw(q, ms[0].typeId, ms[0].quantity * runs, d, x) + BranchRawAll(q, ms[1..], runs, d, x)
  }

  /** Every type that would be built makes one unit per run. */
  ghost predicate UnitOutputs(q: Query)
  {
    forall t :: Builds(q, t) ==> q.recipes[t].outputQuantity == 1
  }

  lemma RunsOfSum(q: Query, t: TypeId, a: nat, b: nat)
    requires Builds(q, t) && a > 0 && b > 0
    ensures Runs(q, t, a) <= Runs(q, t, a + b) <= Runs(q, t, a) + Runs(q, t, b)
    ensures UnitOutputs(q) ==> Runs(q, t, a + b) == Runs(q, t, a) + Runs(q, t, b)
    ensures Runs(q, t, a) > 0 && Runs(q, t, b) > 0
  {
    var out := q.recipes[t].outputQuantity;
    CeilDivSubadditive(a, b, out);
    CeilDivBounds(a, out);
    CeilDivBounds(b, out);
    CeilDivBounds(a + b, out);
    CeilDivLeast(a, out, CeilDiv(a + b, out));
  }

  /** Splitting a demand never lowers its raw materials, and changes nothing for unit outputs. */
  lemma {:induction false} BranchSplit(q: Query, t: TypeId, a: nat, b: nat, d: nat, x: TypeId)
    requires a > 0 && b > 0
    ensures BranchRaw(q, t, a, d, x) <= BranchRaw(q, t, a + b, d, x) <= BranchRaw(q, t, a, d, x) +
            BranchRaw(q, t, b, d, x)
    ensures UnitOutputs(q) ==> BranchRaw(q, t, a + b, d, x) == BranchRaw(q, t, a, d, x) + BranchRaw(q, t, b, d, x)
    decreases d, 0
  {
    hide Runs, UnitOutputs;
    if d > 0 && Builds(q, t) {
      var ra, rb, rab := Runs(q, t, a), Runs(q, t, b), Runs(q, t, a + b);
      var ms := MaterialsOf(q, t);
      RunsOfSum(q, t, a, b);
      BranchAllSplit(q, ms, ra, rb, d - 1, x);
      if ra < rab {
        BranchAllSplit(q, ms, ra, rab - ra, d - 1, x);
      }
      if rab < ra + rb {
        BranchAllSplit(q, ms, rab, ra + rb - rab, d - 1, x);
      }
    }
  }

  lemma {:induction false} BranchAllSplit(q: Query, ms: seq<Material>, a: nat, b: nat, d: nat, x: TypeId)
    requires a > 0 && b > 0
    ensures BranchRawAll(q, ms, a, d, x) <= BranchRawAll(q, ms, a + b, d, x)
         <= BranchRawAll(q, ms, a, d, x) + BranchRawAll(q, ms, b, d, x)
    ensures UnitOutputs(q) ==>
              BranchRawAll(q, ms, a + b, d, x) == BranchRawAll(q, ms, a, d, x) + BranchRawAll(q, ms, b, d, x)
    decreases d, |ms|
  {
    hide BranchRaw, UnitOutputs;
    if ms != [] {
      var k := ms[0].quantity;
      assert k * (a + b) == k * a + k * b;
      BranchSplit(q, ms[0].typeId, k * a, k * b, d, x);
      BranchAllSplit(q, ms[1..], a, b, d, x);
    }
  }

  /** No demand, no raw materials; otherwise the branch's. */
  ghost function BranchOrNone(q: Query, t: TypeId, quantity: int, d: nat, x: TypeId): nat
  {
    if quantity <= 0 then 0 else BranchRaw(q, t, quantity, d, x)
  }

  lemma BranchOrNoneSplit(q: Query, t: TypeId, a: nat, b: nat, d: nat, x: TypeId)
    ensures BranchOrNone(q, t, a + b, d, x) <= BranchOrNone(q, t, a, d, x) + BranchOrNone(q, t, b, d, x)
    ensures UnitOutputs(q) ==>
            BranchOrNone(q, t, a + b, d, x) == BranchOrNone(q, t, a, d, x) + BranchOrNone(q, t, b, d, x)
  {
    hide BranchRaw, UnitOutputs;
    if a > 0 && b > 0 {
      BranchSplit(q, t, a, b, d, x);
    }
  }

  /** The same for a demand summed over any number of consumers. */
  lemma {:induction false} BranchOrNoneSum(q: Query, m: TypeId, s: set<TypeId>, f: TypeId -> int, g: TypeId -> int,
      d: nat, x: TypeId)
    requires forall t :: t in s ==> f(t) >= 0 && g(t) == BranchOrNone(q, m, f(t), d, x)
    ensures Sum(s, f) >= 0
    ensures BranchOrNone(q, m, Sum(s, f), d, x) <= Sum(s, g)
    ensures UnitOutputs(q) ==> BranchOrNone(q, m, Sum(s, f), d, x) == Sum(s, g)
    decreases |s|
  {
    hide BranchOrNone, UnitOutputs;
    if s == {} {
      NothingNeedsNothing(q, m, d, x);
    } else {
      var t := Pick(s);
      SumRemove(s, t, f);
      SumRemove(s, t, g);
      BranchOrNoneSum(q, m, s - {t}, f, g, d, x);
      BranchOrNoneSplit(q, m, f(t), Sum(s - {t}, f), d, x);
    }
  }

  lemma NothingNeedsNothing(q: Query, t: TypeId, d: nat, x: TypeId)
    ensures BranchOrNone(q, t, 0, d, x) == 0
  {
  }

  function HeadListed(ms: seq<Material>, m: TypeId): nat
    requires ms != []
  {
    if ms[0].typeId == m then ms[0].quantity else 0
  }

  /** Raw demand of x through the m that `runs` runs take. */
  ghost function MergedEntry(q: Query, listed: nat, runs: nat, m: TypeId, d: nat, x: TypeId): nat
  {
    BranchOrNone(q, m, listed * runs, d, x)
  }

  lemma EntrySplit(q: Query, ms: seq<Material>, runs: nat, m: TypeId, d: nat, x: TypeId)
    requires ms != []
    ensures MergedEntry(q, Listed(ms, m), runs, m, d, x)
         <= MergedEntry(q, HeadListed(ms, m), runs, m, d, x) + MergedEntry(q, Listed(ms[1..], m), runs, m, d, x)
    ensures UnitOutputs(q) ==>
              MergedEntry(q, Listed(ms, m), runs, m, d, x) ==
              MergedEntry(q, HeadListed(ms, m), runs, m, d, x) + MergedEntry(q, Listed(ms[1..], m), runs, m, d, x)
  {
    hide BranchOrNone, UnitOutputs;
    var a, b := HeadListed(ms, m), Listed(ms[1..], m);
    assert (a + b) * runs == a * runs + b * runs;
    BranchOrNoneSplit(q, m, a * runs, b * runs, d, x);
  }

  lemma HeadEntry(q: Query, ms: seq<Material>, runs: nat, d: nat, x: TypeId)
    requires ms != [] && runs > 0
    ensures BranchRawAll(q, ms, runs, d, x)
         == MergedEntry(q, HeadListed(ms, ms[0].typeId), runs, ms[0].typeId, d, x) +
             BranchRawAll(q, ms[1..], runs, d, x)
    ensures forall m :: m != ms[0].typeId ==> MergedEntry(q, HeadListed(ms, m), runs, m, d, x) == 0
  {
    hide BranchRaw;
    assert ms[0].quantity * runs > 0;
  }

  /** Merging the entries a recipe lists for the same type never adds raw materials. */
  lemma {:induction false} EntriesMerge(q: Query, ms: seq<Material>, runs: nat, types: set<TypeId>, d: nat, x: TypeId)
    requires runs > 0
    requires forall i :: 0 <= i < |ms| ==> ms[i].typeId in types
    ensures Sum(types, m => MergedEntry(q, Listed(ms, m), runs, m, d, x)) <= BranchRawAll(q, ms, runs, d, x)
    ensures UnitOutputs(q) ==>
              Sum(types, m => MergedEntry(q, Listed(ms, m), runs, m, d, x)) == BranchRawAll(q, ms, runs, d, x)
    decreases |ms|
  {
    hide BranchRaw, BranchRawAll, UnitOutputs, MergedEntry, HeadListed;
    var whole := m => MergedEntry(q, Listed(ms, m), runs, m, d, x);
    if ms == [] {
      NoEntries(q, runs, types, d, x, whole);
    } else {
      var rest := ms[1..];
      var first := m => MergedEntry(q, HeadListed(ms, m), runs, m, d, x);
      var others := m => MergedEntry(q, Listed(rest, m), runs, m, d, x);
      var both := m => first(m) + others(m);
      forall m
        ensures whole(m) <= both(m)
        ensures UnitOutputs(q) ==> whole(m) == both(m)
      {
        EntrySplit(q, ms, runs, m, d, x);
      }
      SumMonotone(types, whole, both);
      if UnitOutputs(q) {
        SumCongruence(types, whole, both);
      }
      SumPlus(types, first, others, both);
      HeadEntry(q, ms, runs, d, x);
      SumSingle(types, ms[0].typeId, first);
      EntriesMerge(q, rest, runs, types, d, x);
    }
  }

  lemma NoEntries(q: Query, runs: nat, types: set<TypeId>, d: nat, x: TypeId, whole: TypeId -> int)
    requires forall m :: whole(m) == MergedEntry(q, 0, runs, m, d, x)
    ensures Sum(types, whole) == 0 == BranchRawAll(q, [], runs, d, x)
  {
    forall m
      ensures whole(m) == 0
    {
    }
    SumSupport({}, types, whole);
  }

  /** Raw demand still pending at level n if every type on it were expanded on its own. */
  ghost function Pending(q: Query, n: nat, d: nat, x: TypeId): int
  {
    Sum(Level(q, n).Keys, t => BranchRaw(q, t, QtyAt(q, n, t), d, x))
  }

  // What one type of a level contributes at once, and through its materials.
  ghost function LeafPart(q: Query, n: nat, t: TypeId, x: TypeId): nat
  {
    if !Builds(q, t) && x == t then QtyAt(q, n, t) else 0
  }

  ghost function BuiltPart(q: Query, n: nat, t: TypeId, d: nat, x: TypeId): nat
  {
    if Builds(q, t) then BranchRawAll(q, MaterialsOf(q, t), Runs(q, t, QtyAt(q, n, t)), d, x) else 0
  }

  /** Raw demand of x through the amount of m that t consumes at level n. */
  ghost function Through(q: Query, n: nat, d: nat, x: TypeId): (TypeId, TypeId) -> int
  {
    (t, m) => BranchOrNone(q, m, Takes(q, Level(q, n), t, m), d, x)
  }

  lemma BuiltPartMerges(q: Query, n: nat, t: TypeId, d: nat, x: TypeId)
    requires t in Level(q, n)
    ensures Sum(Level(q, n + 1).Keys, Row(Through(q, n, d, x), t)) <= BuiltPart(q, n, t, d, x)
    ensures UnitOutputs(q) ==> Sum(Level(q, n + 1).Keys, Row(Through(q, n, d, x), t)) == BuiltPart(q, n, t, d, x)
  {
    hide BranchRaw, BranchRawAll, UnitOutputs, MaterialsOf, Runs, Listed, Level;
    var types := Level(q, n + 1).Keys;
    var through := Row(Through(q, n, d, x), t);
    if Builds(q, t) {
      var ms, runs := MaterialsOf(q, t), Runs(q, t, QtyAt(q, n, t));
      ListedOnNextLevel(q, n, t);
      AtLeastOneRun(q, t, QtyAt(q, n, t));
      EntriesMerge(q, ms, runs, types, d, x);
      forall m
        ensures through(m) == MergedEntry(q, Listed(ms, m), runs, m, d, x)
      {
        assert Takes(q, Level(q, n), t, m) == Listed(ms, m) * runs;
      }
      SumCongruence(types, through, m => MergedEntry(q, Listed(ms, m), runs, m, d, x));
    } else {
      SumSupport({}, types, through);
    }
  }

  lemma ListedOnNextLevel(q: Query, n: nat, t: TypeId)
    requires t in Level(q, n) && Builds(q, t)
    ensures forall i :: 0 <= i < |MaterialsOf(q, t)| ==> MaterialsOf(q, t)[i].typeId in Level(q, n + 1)
  {
    hide MaterialsOf, Demanded;
    forall i | 0 <= i < |MaterialsOf(q, t)|
      ensures MaterialsOf(q, t)[i].typeId in Level(q, n + 1)
    {
      assert MaterialsOf(q, t)[i].typeId in ConsumedBy(q, t);
    }
  }

  lemma AtLeastOneRun(q: Query, t: TypeId, quantity: nat)
    requires t in q.recipes
    ensures Runs(q, t, quantity) > 0
  {
  }

  /** What one type of the next level pends is at most what its consumers pend through it. */
  lemma PendingThrough(q: Query, n: nat, m: TypeId, d: nat, x: TypeId)
    requires m in Level(q, n + 1)
    ensures BranchRaw(q, m, QtyAt(q, n + 1, m), d, x) <= Sum(Level(q, n).Keys, Column(Through(q, n, d, x), m))
    ensures UnitOutputs(q) ==>
              BranchRaw(q, m, QtyAt(q, n + 1, m), d, x) == Sum(Level(q, n).Keys, Column(Through(q, n, d, x), m))
  {
    hide BranchRaw, UnitOutputs, Takes, Level;
    var level := Level(q, n);
    NextLevelTakes(q, n, m, level.Keys);
    LevelPositive(q, n + 1, m);
    BranchOrNoneSum(q, m, level.Keys, p => Takes(q, Level(q, n), p, m), Column(Through(q, n, d, x), m), d, x);
  }

  /** One pass of the level loop: what becomes raw plus what pends afterwards is at most what pended before. */
  lemma PassMerges(q: Query, n: nat, d: nat, x: TypeId)
    ensures RawBefore(q, n + 1, x) - RawBefore(q, n, x) + Pending(q, n + 1, d, x) <= Pending(q, n, d + 1, x)
    ensures UnitOutputs(q) ==>
              RawBefore(q, n + 1, x) - RawBefore(q, n, x) + Pending(q, n + 1, d, x) == Pending(q, n, d + 1, x)
  {
    hide BranchRawAll, UnitOutputs, Level, Builds, MaterialsOf, Runs, Through, Row, Column;
    var here, below := Level(q, n).Keys, Level(q, n + 1).Keys;
    var leaf, built := t => LeafPart(q, n, t, x), t => BuiltPart(q, n, t, d, x);
    LevelSplits(q, n, d, x);
    var f := Through(q, n, d, x);
    var byConsumer, byMaterial := t => Sum(below, Row(f, t)), m => Sum(here, Column(f, m));
    var pending := m => BranchRaw(q, m, QtyAt(q, n + 1, m), d, x);
    forall t | t in here
      ensures byConsumer(t) <= built(t)
      ensures UnitOutputs(q) ==> byConsumer(t) == built(t)
    {
      BuiltPartMerges(q, n, t, d, x);
    }
    forall m | m in below
      ensures pending(m) <= byMaterial(m)
      ensures UnitOutputs(q) ==> pending(m) == byMaterial(m)
    {
      PendingThrough(q, n, m, d, x);
    }
    SumSwap(here, below, f);
    SumMonotone(here, byConsumer, built);
    SumMonotone(below, pending, byMaterial);
    if UnitOutputs(q) {
      SumCongruence(here, byConsumer, built);
      SumCongruence(below, pending, byMaterial);
    }
  }

  lemma LevelSplits(q: Query, n: nat, d: nat, x: TypeId)
    ensures Pending(q, n, d + 1, x)
         == RawBefore(q, n + 1, x) - RawBefore(q, n, x) + Sum(Level(q, n).Keys, t => BuiltPart(q, n, t, d, x))
  {
    hide BranchRawAll, Level, MaterialsOf, Runs;
    var here := Level(q, n).Keys;
    var leaf := t => LeafPart(q, n, t, x);
    SumPlus(here, leaf, t => BuiltPart(q, n, t, d, x), t => BranchRaw(q, t, QtyAt(q, n, t), d + 1, x));
    SumSingle(here, x, leaf);
  }

  lemma {:induction false} PassesMerge(q: Query, n: nat, d: nat, x: TypeId)
    ensures RawBefore(q, n, x) + Pending(q, n, d, x) <= BranchRaw(q, q.target, q.quantity, n + d, x)
    ensures UnitOutputs(q) ==> RawBefore(q, n, x) + Pending(q, n, d, x) == BranchRaw(q, q.target, q.quantity, n + d, x)
    decreases n
  {
    hide BranchRaw, UnitOutputs, RawBefore, NextDemand;
    if n == 0 {
      SumSingle(Level(q, 0).Keys, q.target, t => BranchRaw(q, t, QtyAt(q, 0, t), d, x));
      RawAtStart(q, x);
    } else {
      PassesMerge(q, n - 1, d + 1, x);
      PassMerges(q, n - 1, d, x);
    }
  }

  lemma RawAtStart(q: Query, x: TypeId)
    ensures RawBefore(q, 0, x) == 0
  {
  }

  lemma MergedBelowBranches(q: Query, d: nat, x: TypeId)
    ensures RawFor(Resolve(q, d), x) <= BranchRaw(q, q.target, q.quantity, d, x)
    ensures UnitOutputs(q) ==> RawFor(Resolve(q, d), x) == BranchRaw(q, q.target, q.quantity, d, x)
  {
    hide Level, RawBefore, UnitOutputs, RawFor, Resolve;
    ResolutionTotals(q, d, x);
    PassesMerge(q, d, 0, x);
    SumSingle(Level(q, d).Keys, x, t => BranchRaw(q, t, QtyAt(q, d, t), 0, x));
  }

  // ----- Only the recipes this job uses matter -----

  /** The same job choosing to build only what it does build. */
  ghost function Trimmed(q: Query, d: nat): Query { q.(buildSet := StepTypes(q, d)) }

  /** Every step of the resolution makes one unit per run. */
  ghost predicate StepsMakeOne(q: Query, d: nat)
  {
    forall t :: t in StepTypes(q, d) ==> q.recipes[t].outputQuantity == 1
  }

  lemma TrimmedBuilds(q: Query, d: nat, n: nat)
    requires n < d
    ensures forall t :: t in Level(q, n) ==> (Builds(Trimmed(q, d), t) <==> Builds(q, t))
  {
    hide Level, Seen;
    forall t | t in Level(q, n)
      ensures t in Seen(q, d)
    {
      LevelIsSeen(q, n, d, t);
    }
  }

  lemma {:induction false} TrimmedLevels(q: Query, d: nat, n: nat)
    requires n <= d
    ensures Level(Trimmed(q, d), n) == Level(q, n)
  {
    hide NextDemand, Builds, StepTypes;
    if n > 0 {
      TrimmedLevels(q, d, n - 1);
      TrimmedBuilds(q, d, n - 1);
      NextDemandAgrees(q, Trimmed(q, d), Level(q, n - 1));
    }
  }

  lemma {:induction false} TrimmedRaw(q: Query, d: nat, n: nat, x: TypeId)
    requires n <= d
    ensures RawBefore(Trimmed(q, d), n, x) == RawBefore(q, n, x)
  {
    hide Level, Builds, StepTypes;
    if n > 0 {
      TrimmedRaw(q, d, n - 1, x);
      TrimmedLevels(q, d, n - 1);
      TrimmedBuilds(q, d, n - 1);
    }
  }

  lemma {:induction false} TrimmedBranch(q: Query, d: nat, n: nat, t: TypeId, quantity: nat, k: nat, x: TypeId)
    requires t in Level(q, n) && n + k <= d
    ensures BranchRaw(Trimmed(q, d), t, quantity, k, x) == BranchRaw(q, t, quantity, k, x)
    decreases k, 0
  {
    hide Level, Builds, StepTypes, MaterialsOf, Runs;
    if k > 0 {
      TrimmedBuilds(q, d, n);
      SameRecipe(q, Trimmed(q, d), t);
      if Builds(q, t) {
        BuildsOnlyKnown(q, t);
        ListedOnNextLevel(q, n, t);
        TrimmedBranches(q, d, n + 1, MaterialsOf(q, t), Runs(q, t, quantity), k - 1, x);
      }
    }
  }

  lemma BuildsOnlyKnown(q: Query, t: TypeId)
    requires Builds(q, t)
    ensures t in q.recipes
  {
  }

  lemma {:induction false} TrimmedBranches(q: Query, d: nat, n: nat, ms: seq<Material>, runs: nat, k: nat, x: TypeId)
    requires n + k <= d && forall i :: 0 <= i < |ms| ==> ms[i].typeId in Level(q, n)
    ensures BranchRawAll(Trimmed(q, d), ms, runs, k, x) == BranchRawAll(q, ms, runs, k, x)
    decreases k, |ms|
  {
    hide Level, BranchRaw, Trimmed;
    if ms != [] {
      TrimmedBranch(q, d, n, ms[0].typeId, ms[0].quantity * runs, k, x);
      TrimmedBranches(q, d, n, ms[1..], runs, k, x);
    }
  }

  lemma TrimmedUnits(q: Query, d: nat)
    requires StepsMakeOne(q, d) && d > 0
    ensures UnitOutputs(Trimmed(q, d))
  {
    hide Level, Seen;
    TargetOnLevel(q);
    LevelIsSeen(q, 0, d, q.target);
  }

  lemma TargetOnLevel(q: Query)
    ensures q.target in Level(q, 0)
  {
  }

  /** The merged run needs no more of any raw material than expanding every branch on its own with the same
      depth limit, and exactly as much when every step of this resolution makes one unit per run. */
  lemma MergedNeedsNoMore(q: Query, d: nat, x: TypeId)
    ensures RawFor(Resolve(q, d), x) <= BranchRaw(q, q.target, q.quantity, d, x)
    ensures StepsMakeOne(q, d) ==> RawFor(Resolve(q, d), x) == BranchRaw(q, q.target, q.quantity, d, x)
  {
    hide Level, RawBefore, UnitOutputs, RawFor, Resolve, StepsMakeOne, BranchRaw;
    MergedBelowBranches(q, d, x);
    if StepsMakeOne(q, d) {
      var q' := Trimmed(q, d);
      ResolutionTotals(q, d, x);
      ResolutionTotals(q', d, x);
      TrimmedRaw(q, d, d, x);
      TrimmedLevels(q, d, d);
      TargetOnLevel(q);
      TrimmedBranch(q, d, 0, q.target, q.quantity, d, x);
      if d > 0 {
        TrimmedUnits(q, d);
        MergedBelowBranches(q', d, x);
      } else {
        NothingExpanded(q, x);
      }
    }
  }

  lemma NothingExpanded(q: Query, x: TypeId)
    ensures RawFor(Resolve(q, 0), x) == BranchRaw(q, q.target, q.quantity, 0, x)
  {
    ResolutionTotals(q, 0, x);
  }
}
