/** The combined shopping list and the combined build steps of a plan's jobs. */
module PlanTotals {
  import opened Sums
  import opened RealSums
  import opened Recipes
  import opened BuildChain
  import opened ChainLaws
  import opened PlanResolutions
  import PlanJobs
  import Resolver

  // ----- Sums over jobs -----

  function RawSum(rs: seq<Resolution>, t: TypeId): nat
  {
    if rs == [] then 0 else RawSum(rs[..|rs| - 1], t) + RawFor(rs[|rs| - 1], t)
  }

  function NeededSum(rs: seq<Resolution>, t: TypeId): nat
  {
    if rs == [] then 0 else NeededSum(rs[..|rs| - 1], t) + NeededFor(rs[|rs| - 1], t)
  }

  function RunsSum(rs: seq<Resolution>, t: TypeId): nat
  {
    if rs == [] then 0 else RunsSum(rs[..|rs| - 1], t) + RunsFor(rs[|rs| - 1], t)
  }

  /** What the steps for t take of m, all jobs together. */
  function TakenSum(rs: seq<Resolution>, t: TypeId, m: TypeId): nat
  {
    if rs == [] then 0 else TakenSum(rs[..|rs| - 1], t, m) + TakenBy(rs[|rs| - 1], t, m)
  }

  function TargetSum(qs: seq<Query>, t: TypeId): nat
  {
    if qs == [] then 0 else TargetSum(qs[..|qs| - 1], t) + TargetDemand(qs[|qs| - 1], t)
  }

  /** What all steps of all jobs take of m. */
  ghost function ConsumedSum(rs: seq<Resolution>, m: TypeId): int
  {
    if rs == [] then 0
    else ConsumedSum(rs[..|rs| - 1], m) + Sum(rs[|rs| - 1].steps.Keys, p => TakenBy(rs[|rs| - 1], p, m))
  }

  /** The first job that buys t, or past the end. */
  function FirstBuyer(rs: seq<Resolution>, t: TypeId): (k: nat)
    ensures k <= |rs| && (k < |rs| ==> t in rs[k].raw)
    ensures forall j :: 0 <= j < k ==> t !in rs[j].raw
  {
    if rs == [] || t in rs[0].raw then 0 else 1 + FirstBuyer(rs[1..], t)
  }

  /** The first job that builds t, or past the end. */
  function FirstBuilder(rs: seq<Resolution>, t: TypeId): (k: nat)
    ensures k <= |rs| && (k < |rs| ==> t in rs[k].steps)
    ensures forall j :: 0 <= j < k ==> t !in rs[j].steps
  {
    if rs == [] || t in rs[0].steps then 0 else 1 + FirstBuilder(rs[1..], t)
  }

  /** Whatever a plan's jobs ask for or consume of a type is needed by some step or on the shopping list. */
  lemma {:induction false} PlanConservation(qs: seq<Query>, d: nat, t: TypeId)
    ensures TargetSum(qs, t) + ConsumedSum(Resolved(qs, d), t)
            == NeededSum(Resolved(qs, d), t) + RawSum(Resolved(qs, d), t)
  {
    hide Resolve, NeededFor, RawFor, TakenBy, TargetDemand;
    if qs != [] {
      var n, rs := |qs| - 1, Resolved(qs, d);
      PlanConservation(qs[..n], d, t);
      assert rs[..n] == Resolved(qs[..n], d);
      DemandConservation(qs[n], d, t);
    }
  }

  /** What a plan's jobs are to make of t. */
  function AskedFor(jobs: seq<PlanJobs.Job>, t: TypeId): int
  {
    if jobs == [] then 0
    else
      var last := jobs[|jobs| - 1];
      AskedFor(jobs[..|jobs| - 1], t) + if last.targetTypeId == t then last.targetQuantity else 0
  }

  lemma {:induction false} TargetsAreJobs(recipes: map<TypeId, Recipe>, jobs: seq<PlanJobs.Job>,
      discounts: seq<Discount>, t: TypeId)
    requires Resolvable(jobs, discounts)
    ensures TargetSum(JobQueries(recipes, jobs, discounts), t) == AskedFor(jobs, t)
  {
    if jobs != [] {
      var n := |jobs| - 1;
      TargetsAreJobs(recipes, jobs[..n], discounts[..n], t);
      assert JobQueries(recipes, jobs, discounts)[..n] == JobQueries(recipes, jobs[..n], discounts[..n]);
    }
  }

  /** The same for stored jobs: what they are to make, plus what all their steps consume, is needed or listed. */
  lemma JobsConservation(recipes: map<TypeId, Recipe>, jobs: seq<PlanJobs.Job>, discounts: seq<Discount>, d: nat,
      t: TypeId)
    requires Resolvable(jobs, discounts)
    ensures var rs := Resolved(JobQueries(recipes, jobs, discounts), d);
            AskedFor(jobs, t) + ConsumedSum(rs, t) == NeededSum(rs, t) + RawSum(rs, t)
  {
    TargetsAreJobs(recipes, jobs, discounts, t);
    PlanConservation(JobQueries(recipes, jobs, discounts), d, t);
  }

  // ----- The shopping list -----

  class RawMaterial {
    const typeId: TypeId
    const isBuildable: bool
    var quantity: nat

    constructor (typeId: TypeId, isBuildable: bool, quantity: nat)
      ensures this.typeId == typeId && this.isBuildable == isBuildable && this.quantity == quantity
    {
      this.typeId, this.isBuildable, this.quantity := typeId, isBuildable, quantity;
    }
  }

  type ShoppingList = map<TypeId, RawMaterial>

  ghost function Quantities(merged: ShoppingList): map<TypeId, nat>
    reads merged.Values
  {
    map t | t in merged :: merged[t].quantity
  }

  ghost predicate ListedByType(merged: ShoppingList, objects: set<RawMaterial>)
  {
    forall t :: t in merged ==> merged[t].typeId == t && merged[t] in objects
  }

  function Added(a: map<TypeId, nat>, b: map<TypeId, nat>, done: set<TypeId>): map<TypeId, nat>
  {
    map t | t in a.Keys + done :: Get(a, t) + if t in done then Get(b, t) else 0
  }

  /** The raw materials of all resolutions, added up. */
  function Combined(rs: seq<Resolution>): map<TypeId, nat>
  {
    if rs == [] then map[]
    else Added(Combined(rs[..|rs| - 1]), rs[|rs| - 1].raw, rs[|rs| - 1].raw.Keys)
  }

  lemma {:induction false} CombinedIs(rs: seq<Resolution>, t: TypeId)
    ensures Get(Combined(rs), t) == RawSum(rs, t)
    ensures t in Combined(rs) <==> BoughtSomewhere(t, rs)
  {
    if rs != [] {
      var before := rs[..|rs| - 1];
      CombinedIs(before, t);
      assert rs == before + [rs[|rs| - 1]];
      if k :| 0 <= k < |before| && t in before[k].raw {
        assert t in rs[k].raw;
      }
    }
  }

  /** Adds one material to the list: a first occurrence is copied, a later one adds its quantity. */
  method MergeOne(merged: ShoppingList, t: TypeId, quantity: nat, isBuildable: bool, ghost objects: set<RawMaterial>)
    returns (merged': ShoppingList, ghost objects': set<RawMaterial>)
    requires ListedByType(merged, objects)
    modifies objects
    ensures ListedByType(merged', objects') && fresh(objects' - objects)
    ensures Quantities(merged') == old(Quantities(merged))[t := Get(old(Quantities(merged)), t) + quantity]
    ensures t in merged ==> merged' == merged
    ensures t !in merged ==> t in merged' && merged'[t].isBuildable == isBuildable && merged' == merged[t := merged'[t]]
  {
    merged', objects' := merged, objects;
    if t !in merged {
      var material := new RawMaterial(t, isBuildable, quantity);
      merged', objects' := merged[t := material], objects + {material};
    } else {
      var existing := merged[t];
      existing.quantity := existing.quantity + quantity;
      forall u | u in merged && u != t
        ensures merged[u].quantity == old(merged[u].quantity)
      {
        assert merged[u].typeId != existing.typeId;
      }
    }
  }

  lemma OneMoreAdded(a: map<TypeId, nat>, b: map<TypeId, nat>, done: set<TypeId>, t: TypeId)
    requires t in b && t !in done
    ensures Added(a, b, done + {t}) == Added(a, b, done)[t := Get(Added(a, b, done), t) + b[t]]
  {
  }

  lemma NothingAdded(a: map<TypeId, nat>, b: map<TypeId, nat>)
    ensures Added(a, b, {}) == a
  {
  }

  /** Adds one resolution's raw materials, in any order. */
  method MergeRaw(merged: ShoppingList, r: Resolution, ghost objects: set<RawMaterial>)
    returns (merged': ShoppingList, ghost objects': set<RawMaterial>)
    requires ListedByType(merged, objects) && r.buildable.Keys == r.raw.Keys
    modifies objects
    ensures ListedByType(merged', objects') && fresh(objects' - objects)
    ensures Quantities(merged') == Added(old(Quantities(merged)), r.raw, r.raw.Keys)
    ensures merged'.Keys == merged.Keys + r.raw.Keys
    ensures forall t :: t in merged' ==>
            merged'[t].isBuildable == if t in merged then merged[t].isBuildable else r.buildable[t]
  {
    hide Quantities, ListedByType, Added;
    merged', objects' := merged, objects;
    NothingAdded(old(Quantities(merged)), r.raw);
    var todo := r.raw.Keys;
    ghost var done: set<TypeId> := {};
    while todo != {}
      invariant done + todo == r.raw.Keys && done !! todo
      invariant ListedByType(merged', objects') && fresh(objects' - objects)
      invariant Quantities(merged') == Added(old(Quantities(merged)), r.raw, done)
      invariant merged'.Keys == merged.Keys + done
      invariant forall t :: t in merged' ==>
                merged'[t].isBuildable == if t in merged then merged[t].isBuildable else r.buildable[t]
      decreases todo
    {
      var t := PickOne(todo);
      OneMoreAdded(old(Quantities(merged)), r.raw, done, t);
      merged', objects' := MergeOne(merged', t, r.raw[t], r.buildable[t], objects');
      todo, done := todo - {t}, done + {t};
    }
    assert done == r.raw.Keys;
  }

  /** One entry per raw material of any job, with the quantities of all jobs together and the first job's flag. */
  method AggregateRawMaterials(rs: seq<Resolution>) returns (merged: ShoppingList)
    requires forall k :: 0 <= k < |rs| ==> rs[k].buildable.Keys == rs[k].raw.Keys
    ensures forall t :: t in merged <==> BoughtSomewhere(t, rs)
    ensures forall t :: t in merged ==> merged[t].typeId == t && merged[t].quantity == RawSum(rs, t)
    ensures forall t :: t in merged ==>
            FirstBuyer(rs, t) < |rs| && merged[t].isBuildable == rs[FirstBuyer(rs, t)].buildable[t]
  {
    hide Added, Combined, RawSum, Quantities, FirstBuyer, ListedByType;
    merged := map[];
    ghost var objects: set<RawMaterial> := {};
    NothingListed(objects);
    assert rs[..0] == [] && Combined([]) == map[] by {
      NothingCombined();
    }
    for i := 0 to |rs|
      invariant ListedByType(merged, objects) && fresh(objects)
      invariant Quantities(merged) == Combined(rs[..i])
      invariant forall t :: t in merged <==> FirstBuyer(rs, t) < i
      invariant forall t :: t in merged ==> merged[t].isBuildable == rs[FirstBuyer(rs, t)].buildable[t]
    {
      merged, objects := MergeRaw(merged, rs[i], objects);
      CombinedNext(rs, i);
    }
    assert rs[..|rs|] == rs;
    Listed(merged, objects);
    forall t
      ensures t in merged ==> merged[t].quantity == RawSum(rs, t)
      ensures t in merged <==> BoughtSomewhere(t, rs)
    {
      CombinedIs(rs, t);
    }
  }

  lemma CombinedNext(rs: seq<Resolution>, i: nat)
    requires i < |rs|
    ensures Combined(rs[..i + 1]) == Added(Combined(rs[..i]), rs[i].raw, rs[i].raw.Keys)
  {
    assert rs[..i + 1][..i] == rs[..i];
  }

  lemma NothingCombined()
    ensures Combined([]) == map[]
  {
  }

  lemma NothingListed(objects: set<RawMaterial>)
    ensures ListedByType(map[], objects) && Quantities(map[]) == map[]
  {
  }

  lemma Listed(merged: ShoppingList, objects: set<RawMaterial>)
    requires ListedByType(merged, objects)
    ensures Quantities(merged).Keys == merged.Keys
    ensures forall t :: t in merged ==> merged[t].typeId == t && merged[t].quantity == Quantities(merged)[t]
  {
  }

  // ----- What the list costs -----

  /** A bill of materials at given unit prices. */
  ghost function Bill(raw: map<TypeId, nat>, price: TypeId -> real): real
  {
    Total(raw.Keys, t => Priced(raw, price, t))
  }

  ghost function Priced(raw: map<TypeId, nat>, price: TypeId -> real, t: TypeId): real
  {
    Get(raw, t) as real * price(t)
  }

  /** The raw material costs of all jobs together. */
  ghost function CostSum(rs: seq<Resolution>, price: TypeId -> real): real
  {
    if rs == [] then 0.0 else CostSum(rs[..|rs| - 1], price) + Bill(rs[|rs| - 1].raw, price)
  }

  lemma BillAdds(a: map<TypeId, nat>, b: map<TypeId, nat>, price: TypeId -> real)
    ensures Bill(Added(a, b, b.Keys), price) == Bill(a, price) + Bill(b, price)
  {
    var all, ab := a.Keys + b.Keys, Added(a, b, b.Keys);
    assert ab.Keys == all;
    forall t
      ensures t in all ==> Priced(ab, price, t) == Priced(a, price, t) + Priced(b, price, t)
      ensures t !in a ==> Priced(a, price, t) == 0.0
      ensures t !in b ==> Priced(b, price, t) == 0.0
    {
    }
    TotalPlus(all, t => Priced(a, price, t), t => Priced(b, price, t), t => Priced(ab, price, t));
    TotalSupport(a.Keys, all, t => Priced(a, price, t));
    TotalSupport(b.Keys, all, t => Priced(b, price, t));
  }

  lemma {:induction false} CombinedCosts(rs: seq<Resolution>, price: TypeId -> real)
    ensures Bill(Combined(rs), price) == CostSum(rs, price)
  {
    hide Added, Priced;
    if rs != [] {
      CombinedCosts(rs[..|rs| - 1], price);
      BillAdds(Combined(rs[..|rs| - 1]), rs[|rs| - 1].raw, price);
    }
  }

  /** The plan page's two totals agree: the combined shopping list costs what its jobs' materials cost together. */
  lemma ListCostsJobs(rs: seq<Resolution>, listed: map<TypeId, nat>, price: TypeId -> real)
    requires forall t :: t in listed <==> BoughtSomewhere(t, rs)
    requires forall t :: t in listed ==> listed[t] == RawSum(rs, t)
    ensures Bill(listed, price) == CostSum(rs, price)
  {
    hide Combined, RawSum, BoughtSomewhere, Bill, CostSum;
    var combined := Combined(rs);
    forall t
      ensures t in listed <==> t in combined
      ensures t in listed ==> listed[t] == combined[t]
    {
      CombinedIs(rs, t);
    }
    assert listed.Keys == combined.Keys;
    assert listed == combined;
    CombinedCosts(rs, price);
  }

  // ----- The combined steps -----

  function WithSteps(a: map<TypeId, Step>, b: map<TypeId, Step>, done: set<TypeId>): map<TypeId, Step>
  {
    map t | t in a.Keys + b.Keys * done :: if t in b && t in done then Merged(a, t, b[t]) else a[t]
  }

  /** A first occurrence is copied; a later one adds its demand and runs, and nothing else. */
  function Merged(a: map<TypeId, Step>, t: TypeId, s: Step): Step
  {
    if t in a then a[t].(quantityNeeded := a[t].quantityNeeded + s.quantityNeeded, runs := a[t].runs + s.runs) else s
  }

  function CombinedSteps(rs: seq<Resolution>): map<TypeId, Step>
  {
    if rs == [] then map[]
    else WithSteps(CombinedSteps(rs[..|rs| - 1]), rs[|rs| - 1].steps, rs[|rs| - 1].steps.Keys)
  }

  lemma {:induction false} CombinedStepsAre(rs: seq<Resolution>, t: TypeId)
    ensures t in CombinedSteps(rs) <==> FirstBuilder(rs, t) < |rs|
    ensures t in CombinedSteps(rs) ==>
              var first := rs[FirstBuilder(rs, t)].steps[t];
              CombinedSteps(rs)[t] == first.(quantityNeeded := NeededSum(rs, t), runs := RunsSum(rs, t))
    ensures t !in CombinedSteps(rs) ==> NeededSum(rs, t) == 0 && RunsSum(rs, t) == 0
  {
    if rs != [] {
      var before, last := rs[..|rs| - 1], rs[|rs| - 1];
      CombinedStepsAre(before, t);
      assert forall j :: 0 <= j < |before| ==> before[j] == rs[j];
      assert FirstBuilder(before, t) < |before| ==> FirstBuilder(rs, t) == FirstBuilder(before, t);
      assert FirstBuilder(before, t) == |before| ==> FirstBuilder(rs, t) >= |before|;
    }
  }

  method MergeStep(merged: Resolver.Steps, t: TypeId, s: Step, ghost objects: set<Resolver.BuildStep>)
    returns (merged': Resolver.Steps, ghost objects': set<Resolver.BuildStep>)
    requires Resolver.KeyedByType(merged, objects)
    modifies objects
    ensures Resolver.KeyedByType(merged', objects') && fresh(objects' - objects)
    ensures Resolver.Views(merged') == old(Resolver.Views(merged))[t := Merged(old(Resolver.Views(merged)), t, s)]
  {
    merged', objects' := merged, objects;
    if t !in merged {
      var step := new Resolver.BuildStep(t, s.productQuantity);
      step.quantityNeeded, step.runs, step.materials := s.quantityNeeded, s.runs, s.materials;
      merged', objects' := merged[t := step], objects + {step};
    } else {
      var existing := merged[t];
      existing.quantityNeeded := existing.quantityNeeded + s.quantityNeeded;
      existing.runs := existing.runs + s.runs;
      forall u | u in merged && u != t
        ensures merged[u].View() == old(merged[u].View())
      {
        assert merged[u].typeId != existing.typeId;
      }
    }
  }

  lemma OneMoreStep(a: map<TypeId, Step>, b: map<TypeId, Step>, done: set<TypeId>, t: TypeId)
    requires t in b && t !in done
    ensures WithSteps(a, b, done + {t}) == WithSteps(a, b, done)[t := Merged(WithSteps(a, b, done), t, b[t])]
  {
  }

  lemma NoStepsYet(a: map<TypeId, Step>, b: map<TypeId, Step>)
    ensures WithSteps(a, b, {}) == a
  {
  }

  method MergeSteps(merged: Resolver.Steps, steps: map<TypeId, Step>, ghost objects: set<Resolver.BuildStep>)
    returns (merged': Resolver.Steps, ghost objects': set<Resolver.BuildStep>)
    requires Resolver.KeyedByType(merged, objects)
    modifies objects
    ensures Resolver.KeyedByType(merged', objects') && fresh(objects' - objects)
    ensures Resolver.Views(merged') == WithSteps(old(Resolver.Views(merged)), steps, steps.Keys)
  {
    hide Resolver.Views, Resolver.KeyedByType, WithSteps, Merged;
    merged', objects' := merged, objects;
    NoStepsYet(old(Resolver.Views(merged)), steps);
    var todo := steps.Keys;
    ghost var done: set<TypeId> := {};
    while todo != {}
      invariant done + todo == steps.Keys && done !! todo
      invariant Resolver.KeyedByType(merged', objects') && fresh(objects' - objects)
      invariant Resolver.Views(merged') == WithSteps(old(Resolver.Views(merged)), steps, done)
      decreases todo
    {
      var t := PickOne(todo);
      OneMoreStep(old(Resolver.Views(merged)), steps, done, t);
      merged', objects' := MergeStep(merged', t, steps[t], objects');
      todo, done := todo - {t}, done + {t};
    }
    assert done == steps.Keys;
  }

  /** One entry per step of any job, with the demand and runs of all jobs together; its materials are those of
      the first job that builds the type. */
  method AggregateBuildSteps(rs: seq<Resolution>) returns (merged: Resolver.Steps)
    ensures forall t :: t in merged <==> BuiltSomewhere(t, rs)
    ensures forall t :: t in merged ==> merged[t].typeId == t && FirstBuilder(rs, t) < |rs|
    ensures forall t :: t in merged ==>
              merged[t].View()
                  == rs[FirstBuilder(rs, t)].steps[t].(quantityNeeded := NeededSum(rs, t), runs := RunsSum(rs, t))
  {
    hide WithSteps;
    merged := map[];
    ghost var objects: set<Resolver.BuildStep> := {};
    for i := 0 to |rs|
      invariant Resolver.KeyedByType(merged, objects) && fresh(objects)
      invariant Resolver.Views(merged) == CombinedSteps(rs[..i])
    {
      merged, objects := MergeSteps(merged, rs[i].steps, objects);
      assert rs[..i + 1][..i] == rs[..i];
    }
    assert rs[..|rs|] == rs;
    forall t
      ensures t in merged <==> FirstBuilder(rs, t) < |rs|
      ensures t in merged ==>
                merged[t].View()
                    == rs[FirstBuilder(rs, t)].steps[t].(quantityNeeded := NeededSum(rs, t), runs := RunsSum(rs, t))
    {
      CombinedStepsAre(rs, t);
      assert t in merged <==> t in Resolver.Views(merged);
    }
  }

  /** The combined runs still cover the combined demand. */
  lemma {:induction false} CombinedRunsCover(qs: seq<Query>, d: nat, t: TypeId, out: Quantity)
    requires forall k :: 0 <= k < |qs| && t in qs[k].recipes ==> qs[k].recipes[t].outputQuantity == out
    ensures NeededSum(Resolved(qs, d), t) <= RunsSum(Resolved(qs, d), t) * out
  {
    hide Resolve, NeededFor, RunsFor;
    if qs != [] {
      var n, rs := |qs| - 1, Resolved(qs, d);
      CombinedRunsCover(qs[..n], d, t, out);
      assert rs[..n] == Resolved(qs[..n], d);
      RunsCover(qs[n], d, t, out);
      assert RunsSum(rs, t) * out == RunsSum(rs[..n], t) * out + RunsFor(rs[n], t) * out;
    }
  }

  lemma RunsCover(q: Query, d: nat, t: TypeId, out: Quantity)
    requires t in q.recipes ==> q.recipes[t].outputQuantity == out
    ensures NeededFor(Resolve(q, d), t) <= RunsFor(Resolve(q, d), t) * out
  {
    hide Resolve;
    if t in Resolve(q, d).steps {
      RoundingLedger(q, d, t);
      BuiltHasRecipe(q, d, t);
    }
  }

  lemma NotTakenUnbuilt(rs: seq<Resolution>, t: TypeId, m: TypeId)
    ensures forall k :: 0 <= k < |rs| && t !in rs[k].steps ==> TakenBy(rs[k], t, m) == 0
  {
  }

  lemma {:induction false} TakenByOthers(rs: seq<Resolution>, t: TypeId, m: TypeId)
    ensures FirstBuilder(rs, t) == |rs| ==> TakenSum(rs, t, m) == 0
    ensures FirstBuilder(rs, t) < |rs| ==> TakenBy(rs[FirstBuilder(rs, t)], t, m) <= TakenSum(rs, t, m)
    ensures FirstBuilder(rs, t) < |rs| ==>
              (TakenBy(rs[FirstBuilder(rs, t)], t, m) == TakenSum(rs, t, m) <==>
               forall k :: FirstBuilder(rs, t) < k < |rs| ==> TakenBy(rs[k], t, m) == 0)
  {
    hide TakenBy;
    if rs != [] {
      var before, first := rs[..|rs| - 1], FirstBuilder(rs, t);
      NotTakenUnbuilt(rs, t, m);
      TakenByOthers(before, t, m);
      assert forall j :: 0 <= j < |before| ==> before[j] == rs[j];
      assert first < |before| ==> FirstBuilder(before, t) == first;
      assert first >= |before| ==> FirstBuilder(before, t) == |before|;
    }
  }

  /** A combined step's materials are what all jobs take together exactly when no later job builds the type. */
  lemma CombinedMaterialsAreFirsts(qs: seq<Query>, d: nat, t: TypeId, m: TypeId)
    requires OneCatalogue(qs) && BuiltSomewhere(t, Resolved(qs, d))
    requires t in qs[0].recipes ==> m in ListedTypes(qs[0].recipes[t].materials)
    ensures var rs := Resolved(qs, d);
            FirstBuilder(rs, t) < |rs| &&
            (Get(rs[FirstBuilder(rs, t)].steps[t].materials, m) == TakenSum(rs, t, m) <==>
             forall k :: FirstBuilder(rs, t) < k < |rs| ==> t !in rs[k].steps)
  {
    hide Resolve;
    var rs := Resolved(qs, d);
    TakenByOthers(rs, t, m);
    forall k | 0 <= k < |rs|
      ensures TakenBy(rs[k], t, m) == 0 <==> t !in rs[k].steps
    {
      if t in rs[k].steps {
        BuiltHasRecipe(qs[k], d, t);
        assert qs[k].recipes == qs[0].recipes;
        StepTakesItsMaterials(qs[k], d, t, m);
      }
    }
  }

  /** One unit from one unit of type 1, whose combined materials a plan with two such jobs understates. */
  function Simple(): Query { Query(map[0 := Recipe(1, [Material(1, 1)])], 0, 1, {}, 0, 0.0) }

  lemma CombinedMaterialsFallShort(d: nat)
    requires d >= 1
    ensures var rs := Resolved([Simple(), Simple()], d);
            FirstBuilder(rs, 0) < |rs| && Get(rs[FirstBuilder(rs, 0)].steps[0].materials, 1) != TakenSum(rs, 0, 1)
  {
    hide Resolve;
    var q, qs := Simple(), [Simple(), Simple()];
    var rs := Resolved(qs, d);
    ChosenToBuy(q, d, 0);
    assert rs[0] == rs[1] == Resolve(q, d);
    assert 0 in rs[0].steps && 0 in rs[1].steps;
    assert q.recipes[0].materials[0].typeId == 1;
    CombinedMaterialsAreFirsts(qs, d, 0, 1);
    assert FirstBuilder(rs, 0) == 0;
  }

  lemma StepTakesItsMaterials(q: Query, d: nat, t: TypeId, m: TypeId)
    requires t in Resolve(q, d).steps && t in q.recipes && m in ListedTypes(q.recipes[t].materials)
    ensures TakenBy(Resolve(q, d), t, m) > 0
  {
    hide Resolve;
    RoundingLedger(q, d, t);
    ConsumedIsUndiscounted(q, t);
    ConsumedIffPositive(q, t, m);
    var s := Resolve(q, d).steps[t];
    StepHasRuns(q, d, t);
    TimesPositive(s.runs, PerRun(q, t, m));
  }

  lemma StepHasRuns(q: Query, d: nat, t: TypeId)
    requires t in Resolve(q, d).steps
    ensures Resolve(q, d).steps[t].runs > 0
  {
    hide Resolve;
    ResolutionTotals(q, d, t);
    RoundingLedger(q, d, t);
  }
}
