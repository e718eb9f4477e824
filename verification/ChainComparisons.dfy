/** Laws that compare two runs of the resolver. */
module ChainComparisons {
  import opened Sums
  import opened Recipes
  import opened BuildChain

  // ----- Monotonicity -----

  /** The same recipes and choices, asking for at least as much with discounts that are no better. */
  ghost predicate AsksForMore(q: Query, q': Query)
  {
    && q'.recipes == q.recipes && q'.target == q.target && q'.buildSet == q.buildSet
    && q.quantity <= q'.quantity
    && q'.materialEfficiency <= q.materialEfficiency <= 100
    && q'.structureBonus <= q.structureBonus <= 1.0
  }

  lemma PerRunMonotone(q: Query, q': Query, p: TypeId, m: TypeId)
    requires AsksForMore(q, q')
    ensures PerRun(q, p, m) <= PerRun(q', p, m)
  {
    hide MaterialPerRun;
    if Builds(q, p) {
      var ms, ms' := MaterialsOf(q, p), MaterialsOf(q', p);
      forall i | 0 <= i < |ms|
        ensures ms[i].typeId == ms'[i].typeId && ms[i].quantity <= ms'[i].quantity
      {
        var base := q.recipes[p].materials[i].quantity;
        MaterialPerRunUndiscounted(base);
        MaterialPerRunFalls(base, q'.materialEfficiency, q.materialEfficiency, q'.structureBonus, q.structureBonus);
      }
      ListedMonotone(ms, ms', m);
    }
  }

  lemma {:induction false} ListedMonotone(ms: seq<Material>, ms': seq<Material>, m: TypeId)
    requires |ms| == |ms'|
    requires forall i :: 0 <= i < |ms| ==> ms[i].typeId == ms'[i].typeId && ms[i].quantity <= ms'[i].quantity
    ensures Listed(ms, m) <= Listed(ms', m)
  {
    if ms != [] {
      ListedMonotone(ms[1..], ms'[1..], m);
    }
  }

  lemma RunsMonotone(a: nat, c: nat, b: Quantity)
    requires a <= c
    ensures CeilDiv(a, b) <= CeilDiv(c, b)
  {
    CeilDivBounds(c, b);
    CeilDivLeast(a, b, CeilDiv(c, b));
  }

  lemma ConsumedMonotone(q: Query, q': Query, p: TypeId)
    requires AsksForMore(q, q')
    ensures ConsumedBy(q', p) == ConsumedBy(q, p)
  {
    hide MaterialsOf, ListedTypes;
    if Builds(q, p) {
      ConsumedIsUndiscounted(q, p);
      ConsumedIsUndiscounted(q', p);
    }
  }

  lemma NextTypesMonotone(q: Query, q': Query, types: set<TypeId>)
    requires AsksForMore(q, q')
    ensures NextTypes(q', types) == NextTypes(q, types)
  {
    hide ConsumedBy;
    forall p
      ensures ConsumedBy(q', p) == ConsumedBy(q, p)
    {
      ConsumedMonotone(q, q', p);
    }
  }

  ghost predicate Below(d: map<TypeId, nat>, d': map<TypeId, nat>)
  {
    d.Keys == d'.Keys && forall t :: t in d ==> d[t] <= d'[t]
  }

  lemma RunsAtMonotone(q: Query, q': Query, level: map<TypeId, nat>, level': map<TypeId, nat>, p: TypeId)
    requires AsksForMore(q, q') && Below(level, level')
    ensures RunsAt(q, level, p) <= RunsAt(q', level', p)
  {
    hide CeilDiv;
    if p in level && Builds(q, p) {
      RunsMonotone(level[p], level'[p], q.recipes[p].outputQuantity);
    }
  }

  lemma DemandedMonotone(q: Query, q': Query, level: map<TypeId, nat>, level': map<TypeId, nat>, m: TypeId)
    requires AsksForMore(q, q') && Below(level, level')
    ensures Demanded(q, level, level.Keys, m) <= Demanded(q', level', level'.Keys, m)
  {
    hide RunsAt, PerRun;
    forall p | p in level.Keys
      ensures Takes(q, level, p, m) <= Takes(q', level', p, m)
    {
      RunsAtMonotone(q, q', level, level', p);
      PerRunMonotone(q, q', p, m);
      ProductsMonotone(RunsAt(q, level, p), RunsAt(q', level', p), PerRun(q, p, m), PerRun(q', p, m));
    }
    SumMonotone(level.Keys, p => Takes(q, level, p, m), p => Takes(q', level', p, m));
  }

  lemma ProductsMonotone(a: nat, a': nat, b: nat, b': nat)
    requires a <= a' && b <= b'
    ensures a * b <= a' * b'
  {
    TimesMonotone(a, a', b);
    TimesMonotone(b, b', a');
  }

  lemma {:induction false} LevelsMonotone(q: Query, q': Query, n: nat)
    requires AsksForMore(q, q')
    ensures Below(Level(q, n), Level(q', n))
  {
    hide NextTypes, Demanded;
    if n > 0 {
      LevelsMonotone(q, q', n - 1);
      var level, level' := Level(q, n - 1), Level(q', n - 1);
      NextTypesMonotone(q, q', level.Keys);
      forall m | m in Level(q, n)
        ensures Level(q, n)[m] <= Level(q', n)[m]
      {
        DemandedMonotone(q, q', level, level', m);
      }
    }
  }

  lemma {:induction false} TotalsMonotone(q: Query, q': Query, n: nat, t: TypeId)
    requires AsksForMore(q, q')
    ensures Needed(q, n, t) <= Needed(q', n, t)
    ensures TotalRuns(q, n, t) <= TotalRuns(q', n, t)
    ensures RawBefore(q, n, t) <= RawBefore(q', n, t)
    ensures Seen(q, n) == Seen(q', n)
  {
    hide Level, RunsAt;
    if n > 0 {
      TotalsMonotone(q, q', n - 1, t);
      LevelsMonotone(q, q', n - 1);
      RunsAtMonotone(q, q', Level(q, n - 1), Level(q', n - 1), t);
    }
  }

  /** Asking for more, or with weaker discounts, never lowers a raw total, a run count or a needed quantity;
      the types met at each level, the steps and the raw materials are the same. */
  lemma Monotonicity(q: Query, q': Query, d: nat)
    requires AsksForMore(q, q')
    ensures forall n :: Level(q, n).Keys == Level(q', n).Keys
    ensures Resolve(q, d).steps.Keys == Resolve(q', d).steps.Keys
    ensures Resolve(q, d).raw.Keys == Resolve(q', d).raw.Keys
    ensures Resolve(q, d).buildable == Resolve(q', d).buildable
    ensures forall t :: NeededFor(Resolve(q, d), t) <= NeededFor(Resolve(q', d), t)
    ensures forall t :: RunsFor(Resolve(q, d), t) <= RunsFor(Resolve(q', d), t)
    ensures forall t :: RawFor(Resolve(q, d), t) <= RawFor(Resolve(q', d), t)
  {
    hide Level, Seen, Needed, TotalRuns, RawBefore, NeededFor, RunsFor, RawFor;
    forall n
      ensures Level(q, n).Keys == Level(q', n).Keys
    {
      LevelsMonotone(q, q', n);
    }
    forall t
      ensures NeededFor(Resolve(q, d), t) <= NeededFor(Resolve(q', d), t)
      ensures RunsFor(Resolve(q, d), t) <= RunsFor(Resolve(q', d), t)
      ensures RawFor(Resolve(q, d), t) <= RawFor(Resolve(q', d), t)
    {
      ResolutionTotals(q, d, t);
      ResolutionTotals(q', d, t);
      TotalsMonotone(q, q', d, t);
      LevelsMonotone(q, q', d);
    }
    TotalsMonotone(q, q', d, q.target);
    assert LeafTypes(q, d) == LeafTypes(q', d);
    assert StepTypes(q, d) == StepTypes(q', d);
  }

  // ----- Build-set relevance -----

  function WithBuilt(q: Query, x: TypeId): Query { q.(buildSet := q.buildSet + {x}) }

  /** x was met as a leaf that has a recipe. */
  ghost predicate BuildableLeaf(q: Query, n: nat, x: TypeId)
  {
    x in Seen(q, n) && !Builds(q, x) && x in q.recipes
  }

  lemma NextDemandAgrees(q: Query, q': Query, level: map<TypeId, nat>)
    requires q'.(buildSet := q.buildSet) == q
    requires forall p :: p in level ==> (Builds(q, p) <==> Builds(q', p))
    ensures NextDemand(q', level, level.Keys) == NextDemand(q, level, level.Keys)
    ensures forall p :: RunsAt(q', level, p) == RunsAt(q, level, p)
  {
    hide MaterialsOf, Runs, Listed, ListedTypes;
    forall p
      ensures p in level ==> ConsumedBy(q', p) == ConsumedBy(q, p)
      ensures RunsAt(q', level, p) == RunsAt(q, level, p)
      ensures p in level ==> forall m :: PerRun(q', p, m) == PerRun(q, p, m)
    {
      SameRecipe(q, q', p);
    }
    assert NextTypes(q', level.Keys) == NextTypes(q, level.Keys);
    forall m
      ensures Demanded(q', level, level.Keys, m) == Demanded(q, level, level.Keys, m)
    {
      SumCongruence(level.Keys, p => Takes(q', level, p, m), p => Takes(q, level, p, m));
    }
  }

  lemma SameRecipe(q: Query, q': Query, p: TypeId)
    requires q'.(buildSet := q.buildSet) == q
    ensures p in q.recipes ==> MaterialsOf(q', p) == MaterialsOf(q, p)
    ensures p in q.recipes ==> forall a :: Runs(q', p, a) == Runs(q, p, a)
  {
  }

  /** While x has not been met as a buildable leaf, building it makes no difference. */
  lemma {:induction false} LevelsAgree(q: Query, x: TypeId, n: nat)
    requires !BuildableLeaf(q, n, x)
    ensures Level(WithBuilt(q, x), n) == Level(q, n)
    ensures Seen(WithBuilt(q, x), n) == Seen(q, n)
  {
    hide NextDemand;
    if n > 0 {
      LevelsAgree(q, x, n - 1);
      NextDemandAgrees(q, WithBuilt(q, x), Level(q, n - 1));
    }
  }

  lemma {:induction false} TotalsAgree(q: Query, x: TypeId, n: nat, t: TypeId)
    requires !BuildableLeaf(q, n, x)
    ensures Needed(WithBuilt(q, x), n, t) == Needed(q, n, t)
    ensures TotalRuns(WithBuilt(q, x), n, t) == TotalRuns(q, n, t)
    ensures RawBefore(WithBuilt(q, x), n, t) == RawBefore(q, n, t)
  {
    hide Level, NextDemand;
    if n > 0 {
      TotalsAgree(q, x, n - 1, t);
      LevelsAgree(q, x, n - 1);
      NextDemandAgrees(q, WithBuilt(q, x), Level(q, n - 1));
    }
  }

  lemma StepAgrees(q: Query, d: nat, x: TypeId, t: TypeId)
    requires !BuildableLeaf(q, d, x) && Builds(q, t) && Builds(WithBuilt(q, x), t)
    ensures StepAfter(WithBuilt(q, x), d, t) == StepAfter(q, d, t)
  {
    hide Needed, TotalRuns, MaterialsOf, Listed, ListedTypes, Seen;
    TotalsAgree(q, x, d, t);
    SameRecipe(q, WithBuilt(q, x), t);
  }

  lemma ResolutionsAgree(q: Query, d: nat, x: TypeId)
    requires !BuildableLeaf(q, d, x)
    ensures Resolve(WithBuilt(q, x), d) == Resolve(q, d)
  {
    hide Level, Seen, RawBefore, Builds, StepAfter;
    var q' := WithBuilt(q, x);
    LevelsAgree(q, x, d);
    forall t
      ensures RawBefore(q', d, t) == RawBefore(q, d, t)
      ensures t in Seen(q, d) ==> (Builds(q', t) <==> Builds(q, t))
    {
      TotalsAgree(q, x, d, t);
      BuildsAgrees(q, x, d, t);
    }
    assert StepTypes(q', d) == StepTypes(q, d);
    assert LeafTypes(q', d) == LeafTypes(q, d);
    forall t | t in StepTypes(q, d)
      ensures StepAfter(q', d, t) == StepAfter(q, d, t)
    {
      StepAgrees(q, d, x, t);
    }
  }

  lemma BuildsAgrees(q: Query, x: TypeId, d: nat, t: TypeId)
    requires !BuildableLeaf(q, d, x)
    ensures t in Seen(q, d) ==> (Builds(WithBuilt(q, x), t) <==> Builds(q, t))
  {
  }

  /** Adding a type to the build set changes the resolution exactly when the type is a raw material marked
      buildable: a type outside the chain, without a recipe, already built, the target itself, or left over by
      the depth cut changes nothing. */
  lemma BuildSetRelevance(q: Query, d: nat, x: TypeId)
    ensures Resolve(WithBuilt(q, x), d) == Resolve(q, d)
       <==> !(x in Resolve(q, d).raw && Resolve(q, d).buildable[x])
  {
    hide Level, Seen, Needed, TotalRuns, RawBefore, Builds;
    assert BuildableLeaf(q, d, x) <==> x in Resolve(q, d).raw && Resolve(q, d).buildable[x];
    if BuildableLeaf(q, d, x) {
      var k := FirstMeeting(q, x, d);
      LevelsAgree(q, x, k);
      LevelIsSeen(WithBuilt(q, x), k, d, x);
      NowBuilt(q, x);
      assert x in Resolve(WithBuilt(q, x), d).steps;
      assert x !in Resolve(q, d).steps;
    } else {
      ResolutionsAgree(q, d, x);
    }
  }

  lemma NowBuilt(q: Query, x: TypeId)
    ensures x in q.recipes ==> Builds(WithBuilt(q, x), x)
  {
  }
}
