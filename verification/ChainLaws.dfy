/** Conservation and rounding laws of a resolution. */
module ChainLaws {
  import opened Sums
  import opened Recipes
  import opened BuildChain

  function TargetDemand(q: Query, t: TypeId): nat { if t == q.target then q.quantity else 0 }

  // ----- Demand conservation -----

  /** What the levels so far put on the next one is what their runs consume. */
  lemma NextLevelTakes(q: Query, n: nat, t: TypeId, all: set<TypeId>)
    requires Level(q, n).Keys <= all
    ensures Sum(all, p => Takes(q, Level(q, n), p, t)) == QtyAt(q, n + 1, t)
  {
    hide PerRun, Runs, NextDemand;
    var level := Level(q, n);
    SumSupport(level.Keys, all, p => Takes(q, level, p, t));
    DemandOutside(q, level, level.Keys, t);
  }

  /** Kept by every pass of the level loop: all demand created so far is stepped, raw, or pending. */
  lemma {:induction false} LevelConservation(q: Query, n: nat, t: TypeId, all: set<TypeId>)
    requires Seen(q, n) <= all
    ensures TargetDemand(q, t) + Sum(all, p => Taken(q, n, p, t))
            == Needed(q, n, t) + RawBefore(q, n, t) + QtyAt(q, n, t)
  {
    hide PerRun, Runs, NextDemand;
    if n == 0 {
      SumSupport({}, all, p => Taken(q, 0, p, t));
    } else {
      LevelConservation(q, n - 1, t, all);
      NextLevelTakes(q, n - 1, t, all);
      forall p
        ensures Taken(q, n, p, t) == Taken(q, n - 1, p, t) + Takes(q, Level(q, n - 1), p, t)
      {
        TakenGrows(q, n, p, t);
      }
      SumPlus(all, p => Taken(q, n - 1, p, t), p => Takes(q, Level(q, n - 1), p, t), p => Taken(q, n, p, t));
    }
  }

  lemma TakenGrows(q: Query, n: nat, p: TypeId, t: TypeId)
    requires n > 0
    ensures Taken(q, n, p, t) == Taken(q, n - 1, p, t) + Takes(q, Level(q, n - 1), p, t)
  {
    hide PerRun, Level, RunsAt;
  }

  /** For every type: the target quantity plus everything listed for it in all steps' materials
      equals what its step needs plus its raw total, on cyclic recipes and after the depth cut too. */
  lemma DemandConservation(q: Query, d: nat, t: TypeId)
    ensures TargetDemand(q, t) + Sum(Resolve(q, d).steps.Keys, p => TakenBy(Resolve(q, d), p, t))
         == NeededFor(Resolve(q, d), t) + RawFor(Resolve(q, d), t)
  {
    hide Level, Seen, Needed, TotalRuns, RawBefore, PerRun, Taken, TakenBy;
    var r, seen := Resolve(q, d), Seen(q, d);
    ResolutionTotals(q, d, t);
    LevelConservation(q, d, t, seen);
    forall p
      ensures TakenBy(r, p, t) == Taken(q, d, p, t)
      ensures p !in r.steps ==> TakenBy(r, p, t) == 0
    {
      ResolutionTaken(q, d, p, t);
    }
    SumSupport(r.steps.Keys, seen, p => TakenBy(r, p, t));
    SumCongruence(seen, p => TakenBy(r, p, t), p => Taken(q, d, p, t));
  }

  // ----- Rounding ledger -----

  lemma {:induction false} RunsLedger(q: Query, n: nat, p: TypeId)
    requires Builds(q, p)
    ensures Needed(q, n, p) <= TotalRuns(q, n, p) * q.recipes[p].outputQuantity
         <= Needed(q, n, p) + Visits(q, n, p) * (q.recipes[p].outputQuantity - 1)
    ensures Visits(q, n, p) <= n
    ensures Visits(q, n, p) > 0 <==> p in Seen(q, n)
  {
    hide Level;
    if n > 0 {
      RunsLedger(q, n - 1, p);
      LevelPositive(q, n - 1, p);
      if p in Level(q, n - 1) {
        OneRounding(QtyAt(q, n - 1, p), q.recipes[p].outputQuantity,
                    TotalRuns(q, n - 1, p), Needed(q, n - 1, p), Visits(q, n - 1, p));
      }
    }
  }

  lemma OneRounding(quantity: Quantity, out: Quantity, runs: nat, needed: nat, visits: nat)
    requires needed <= runs * out <= needed + visits * (out - 1)
    ensures needed + quantity <= (runs + Max(1, CeilDiv(quantity, out))) * out <= needed + quantity +
            (visits + 1) * (out - 1)
  {
    var c := CeilDiv(quantity, out);
    CeilDivBounds(quantity, out);
    assert c >= 1;
    assert (runs + c) * out == runs * out + c * out;
    assert (visits + 1) * (out - 1) == visits * (out - 1) + (out - 1);
  }

  /** Every step's ledger: materials are runs times the per-run quantities, and the runs cover the
      demand with less than one batch wasted per level on which the type was expanded. */
  lemma RoundingLedger(q: Query, d: nat, p: TypeId)
    requires p in Resolve(q, d).steps
    ensures Builds(q, p)
    ensures var s := Resolve(q, d).steps[p];
            && s.productQuantity == q.recipes[p].outputQuantity
            && s.materials.Keys == ListedTypes(q.recipes[p].materials)
            && (forall m :: m in s.materials ==> s.materials[m] == s.runs * PerRun(q, p, m))
            && s.quantityNeeded <= s.runs * s.productQuantity <= s.quantityNeeded +
                Visits(q, d, p) * (s.productQuantity - 1)
            && 1 <= Visits(q, d, p) <= d
  {
    hide Level, Seen, Needed, TotalRuns, Visits;
    RunsLedger(q, d, p);
    ConsumedIsUndiscounted(q, p);
  }

  // ----- Which recipe the discounts reach -----

  /** The least whole number, from 1 on, not below x. */
  predicate LeastCovering(r: int, x: real) { r >= 1 && r as real >= x && (r > 1 ==> (r - 1) as real < x) }

  /** What one entry of p's recipe asks for per run: its own quantity, or for the target the discounted one. */
  predicate EntryAsks(q: Query, p: TypeId, quantity: Quantity, r: int)
  {
    if p != q.target then r == quantity
    else
      LeastCovering(r, quantity as real * (1.0 - q.materialEfficiency as real / 100.0) * (1.0 - q.structureBonus))
  }

  /** What the entries of p's recipe ask for per run, in order. */
  ghost predicate RecipeAsks(q: Query, p: TypeId, per: seq<int>)
    requires p in q.recipes
  {
    var ms := q.recipes[p].materials;
    |per| == |ms| && forall i :: 0 <= i < |ms| ==> EntryAsks(q, p, ms[i].quantity, per[i])
  }

  /** A step for p lists the types of p's recipe, each with the runs times the sum of what its entries ask for. */
  ghost predicate TakesItsRecipe(q: Query, p: TypeId, runs: nat, materials: map<TypeId, nat>)
  {
    p in q.recipes &&
    (var ms := q.recipes[p].materials;
     && (forall m :: m in materials <==> exists i :: 0 <= i < |ms| && ms[i].typeId == m)
     && exists per: seq<int> ::
          RecipeAsks(q, p, per) &&
          forall m :: m in materials ==> materials[m] == runs * Sum(PlacesOf(ms, m), At(per)))
  }

  lemma EntryAsksIs(q: Query, p: TypeId, i: nat)
    requires Builds(q, p) && i < |q.recipes[p].materials|
    ensures |MaterialsOf(q, p)| == |q.recipes[p].materials|
    ensures EntryAsks(q, p, q.recipes[p].materials[i].quantity, MaterialsOf(q, p)[i].quantity)
    ensures MaterialsOf(q, p)[i].typeId == q.recipes[p].materials[i].typeId
  {
    hide MaterialPerRun;
    var base := q.recipes[p].materials[i].quantity;
    if p == q.target && q.materialEfficiency == 0 && q.structureBonus == 0.0 {
      assert base as real * (1.0 - 0.0) * (1.0 - 0.0) == base as real;
    }
  }

  lemma RecipeQuantities(q: Query, p: TypeId)
    requires Builds(q, p)
    ensures RecipeAsks(q, p, Quantities(MaterialsOf(q, p)))
    ensures forall m :: PerRun(q, p, m) == Sum(PlacesOf(q.recipes[p].materials, m), At(Quantities(MaterialsOf(q, p))))
  {
    hide Listed, MaterialsOf, EntryAsks;
    var ms, ds := q.recipes[p].materials, MaterialsOf(q, p);
    SameLength(q, p);
    forall i: nat | i < |ms|
      ensures EntryAsks(q, p, ms[i].quantity, ds[i].quantity) && ds[i].typeId == ms[i].typeId
    {
      EntryAsksIs(q, p, i);
    }
    forall m
      ensures PerRun(q, p, m) == Sum(PlacesOf(ms, m), At(Quantities(ds)))
    {
      ListedIsSum(ds, m);
      assert PlacesOf(ds, m) == PlacesOf(ms, m);
    }
  }

  lemma SameLength(q: Query, p: TypeId)
    requires Builds(q, p)
    ensures |MaterialsOf(q, p)| == |q.recipes[p].materials|
  {
  }

  /** The discounts reach the target's recipe and no other, each of its entries rounded up after both of them. */
  lemma StepTakesItsRecipe(q: Query, d: nat, p: TypeId)
    requires p in Resolve(q, d).steps
    ensures TakesItsRecipe(q, p, Resolve(q, d).steps[p].runs, Resolve(q, d).steps[p].materials)
  {
    hide Resolve, PerRun, RecipeAsks, MaterialsOf, Visits;
    RoundingLedger(q, d, p);
    RecipeQuantities(q, p);
    var s, ms, per := Resolve(q, d).steps[p], q.recipes[p].materials, Quantities(MaterialsOf(q, p));
    forall m
      ensures m in s.materials <==> exists i :: 0 <= i < |ms| && ms[i].typeId == m
    {
      assert m in s.materials <==> m in ListedTypes(ms);
    }
    forall m | m in s.materials
      ensures s.materials[m] == s.runs * Sum(PlacesOf(ms, m), At(per))
    {
      assert s.materials[m] == s.runs * PerRun(q, p, m);
    }
  }
}
