/** Recipes, the discounts on a recipe's materials, and what one job asks the resolver for. */
module Recipes {
  import opened Options
  import opened Sums

  type TypeId = int
  type Quantity = n: int | n >= 1 witness 1

  function Members(ids: seq<TypeId>): set<TypeId> { set i | 0 <= i < |ids| :: ids[i] }

  datatype Material = Material(typeId: TypeId, quantity: Quantity)

  datatype Recipe = Recipe(outputQuantity: Quantity, materials: seq<Material>)

  /** A blueprint wins over a planetary schematic for the same product. */
  function Catalogue(blueprints: map<TypeId, Recipe>, schematics: map<TypeId, Recipe>): (c: map<TypeId, Recipe>)
    ensures forall t :: t in c <==> t in blueprints || t in schematics
    ensures forall t :: t in c ==> c[t] == if t in blueprints then blueprints[t] else schematics[t]
  {
    schematics + blueprints
  }

  // ----- Rounding up -----

  function Max(a: int, b: int): int { if a < b then b else a }

  /** The least integer not below a / b. */
  function CeilDiv(a: nat, b: Quantity): nat
  {
    (a + b - 1) / b
  }

  lemma CeilDivBounds(a: nat, b: Quantity)
    ensures a <= CeilDiv(a, b) * b <= a + b - 1
  {
  }

  lemma CeilDivLeast(a: nat, b: Quantity, r: nat)
    requires r * b >= a
    ensures CeilDiv(a, b) <= r
  {
    CeilDivBounds(a, b);
    if r + 1 <= CeilDiv(a, b) {
      TimesMonotone(r + 1, CeilDiv(a, b), b);
      assert false;
    }
  }

  lemma TimesMonotone(x: nat, y: nat, b: nat)
    requires x <= y
    ensures x * b <= y * b
  {
  }

  lemma CeilDivSubadditive(a: nat, c: nat, b: Quantity)
    ensures CeilDiv(a + c, b) <= CeilDiv(a, b) + CeilDiv(c, b)
  {
    CeilDivBounds(a, b);
    CeilDivBounds(c, b);
    assert (CeilDiv(a, b) + CeilDiv(c, b)) * b == CeilDiv(a, b) * b + CeilDiv(c, b) * b;
    CeilDivLeast(a + c, b, CeilDiv(a, b) + CeilDiv(c, b));
  }

  function Ceil(x: real): int { -((-x).Floor) }

  function Times(a: nat, b: nat): nat { a * b }

  lemma TimesPlus(a: nat, b: nat, c: nat)
    ensures Times(a, b + c) == Times(a, b) + Times(a, c)
    ensures Times(b + c, a) == Times(b, a) + Times(c, a)
    ensures Times(a, 0) == 0
  {
  }

  // ----- Discounts -----

  const FACILITY_MATERIAL_BONUS: real := 0.01
  const RIG_BASE_MATERIAL_BONUS: map<string, real> := map["t1" := 0.02, "t2" := 0.024]
  const SECURITY_RIG_MULTIPLIER: map<string, real> := map["high" := 1.0, "low" := 1.9, "null_wh" := 2.1]

  /** None stands for the KeyError raised for a rig tier or a security band the tables do not list. */
  function StructureMaterialBonus(hasEngineeringComplex: bool, rigTier: Option<string>,
      securityBand: string): (r: Option<real>)
    ensures r.None? <==>
            hasEngineeringComplex && rigTier.Some? && rigTier.value != "" &&
            (rigTier.value !in RIG_BASE_MATERIAL_BONUS || securityBand !in SECURITY_RIG_MULTIPLIER)
    ensures r.Some? && hasEngineeringComplex ==> FACILITY_MATERIAL_BONUS <= r.value <= 0.059896
    ensures r.Some? && hasEngineeringComplex && rigTier.Some? && rigTier.value != "" ==> 0.0298 <= r.value
    ensures r.Some? && !hasEngineeringComplex ==> r.value == 0.0
    ensures hasEngineeringComplex && (rigTier.None? || rigTier.value == "") ==> r == Some(0.01)
    ensures hasEngineeringComplex && rigTier == Some("t1") ==>
              && (securityBand == "high" ==> r == Some(0.0298))
              && (securityBand == "low" ==> r == Some(0.04762))
              && (securityBand == "null_wh" ==> r == Some(0.05158))
    ensures hasEngineeringComplex && rigTier == Some("t2") ==>
              && (securityBand == "high" ==> r == Some(0.03376))
              && (securityBand == "low" ==> r == Some(0.055144))
              && (securityBand == "null_wh" ==> r == Some(0.059896))
  {
    if !hasEngineeringComplex then Some(0.0)
    else
      var multiplier := 1.0 - FACILITY_MATERIAL_BONUS;
      if rigTier.None? || rigTier.value == "" then Some(1.0 - multiplier)
      else if rigTier.value !in RIG_BASE_MATERIAL_BONUS || securityBand !in SECURITY_RIG_MULTIPLIER then None
      else
        var rigBonus := RIG_BASE_MATERIAL_BONUS[rigTier.value] * SECURITY_RIG_MULTIPLIER[securityBand];
        assert 0.02 <= RIG_BASE_MATERIAL_BONUS[rigTier.value] <= 0.024;
        assert 1.0 <= SECURITY_RIG_MULTIPLIER[securityBand] <= 2.1;
        RigBonusRange(RIG_BASE_MATERIAL_BONUS[rigTier.value], SECURITY_RIG_MULTIPLIER[securityBand]);
        Some(1.0 - multiplier * (1.0 - rigBonus))
  }

  lemma RigBonusRange(base: real, factor: real)
    requires 0.02 <= base <= 0.024 && 1.0 <= factor <= 2.1
    ensures 0.02 <= base * factor <= 0.0504
  {
    ProductMonotone(base, 0.024, factor, 2.1);
    ProductMonotone(0.02, base, 1.0, factor);
  }

  /** One material's base quantity after both discounts, before rounding. */
  function Reduced(base: int, materialEfficiency: int, structureBonus: real): real
  {
    base as real * (1.0 - materialEfficiency as real / 100.0) * (1.0 - structureBonus)
  }

  /** One material's quantity per run: the least whole number, from 1 on, that covers the reduced quantity. */
  function MaterialPerRun(base: int, materialEfficiency: int, structureBonus: real): (r: Quantity)
    ensures r as real >= Reduced(base, materialEfficiency, structureBonus)
    ensures r > 1 ==> (r - 1) as real < Reduced(base, materialEfficiency, structureBonus)
  {
    Max(1, Ceil(Reduced(base, materialEfficiency, structureBonus)))
  }

  /** A better blueprint and a better structure never ask for more. */
  lemma MaterialPerRunFalls(base: Quantity, me: int, me': int, bonus: real, bonus': real)
    requires me <= me' <= 100 && bonus <= bonus' <= 1.0
    ensures MaterialPerRun(base, me', bonus') <= MaterialPerRun(base, me, bonus)
  {
    hide Reduced;
    ReducedFalls(base, me, me', bonus, bonus');
    var more, fewer := MaterialPerRun(base, me, bonus), MaterialPerRun(base, me', bonus');
    assert fewer > 1 ==> (fewer - 1) as real < more as real;
  }

  lemma ReducedFalls(base: Quantity, me: int, me': int, bonus: real, bonus': real)
    requires me <= me' <= 100 && bonus <= bonus' <= 1.0
    ensures Reduced(base, me', bonus') <= Reduced(base, me, bonus)
  {
    var a, a' := 1.0 - me as real / 100.0, 1.0 - me' as real / 100.0;
    var b, b' := 1.0 - bonus, 1.0 - bonus';
    ProductMonotone(base as real * a', base as real * a, b', b) by {
      assert base as real * a' <= base as real * a;
    }
  }

  lemma ProductMonotone(x: real, y: real, u: real, v: real)
    requires 0.0 <= x <= y && 0.0 <= u <= v
    ensures x * u <= y * v
  {
    assert x * u <= y * u;
    assert y * u <= y * v;
  }

  /** Without discounts the rounding changes nothing. */
  lemma MaterialPerRunUndiscounted(base: Quantity)
    ensures MaterialPerRun(base, 0, 0.0) == base
  {
    assert Reduced(base, 0, 0.0) == base as real;
  }

  // ----- One job -----

  datatype Query = Query(
    recipes: map<TypeId, Recipe>,
    target: TypeId,
    quantity: Quantity,
    buildSet: set<TypeId>,
    materialEfficiency: int,
    structureBonus: real)

  /** The target is always expanded when it has a recipe, another type only when it is in the build set. */
  predicate Builds(q: Query, t: TypeId)
  {
    t in q.recipes && (t == q.target || t in q.buildSet)
  }

  function Discounted(ms: seq<Material>, me: int, bonus: real): (r: seq<Material>)
    ensures |r| == |ms|
    ensures forall i :: 0 <= i < |ms| ==> r[i] == Material(ms[i].typeId, MaterialPerRun(ms[i].quantity, me, bonus))
  {
    seq(|ms|, i requires 0 <= i < |ms| => Material(ms[i].typeId, MaterialPerRun(ms[i].quantity, me, bonus)))
  }

  /** The discounts belong to the target's own recipe only. */
  function MaterialsOf(q: Query, t: TypeId): seq<Material>
    requires t in q.recipes
  {
    var ms := q.recipes[t].materials;
    if t == q.target && (q.materialEfficiency != 0 || q.structureBonus != 0.0)
    then Discounted(ms, q.materialEfficiency, q.structureBonus)
    else ms
  }

  function Listed(ms: seq<Material>, m: TypeId): nat
  {
    if ms == [] then 0
    else (if ms[0].typeId == m then ms[0].quantity else 0) + Listed(ms[1..], m)
  }

  /** The entries for m, by their places in the recipe. */
  ghost function PlacesOf(ms: seq<Material>, m: TypeId): set<int>
  {
    set i | 0 <= i < |ms| && ms[i].typeId == m
  }

  ghost function At(per: seq<int>): int -> int { i => if 0 <= i < |per| then per[i] else 0 }

  /** Quantities of a recipe's entries, in order. */
  function Quantities(ms: seq<Material>): (per: seq<int>)
    ensures |per| == |ms| && forall i :: 0 <= i < |ms| ==> per[i] == ms[i].quantity
  {
    seq(|ms|, i requires 0 <= i < |ms| => ms[i].quantity)
  }

  lemma {:induction false} ListedIsSum(ms: seq<Material>, m: TypeId)
    ensures Listed(ms, m) == Sum(PlacesOf(ms, m), At(Quantities(ms)))
  {
    if ms == [] {
      assert PlacesOf(ms, m) == {};
    } else {
      var n := |ms| - 1;
      var rest, last := ms[..n], ms[n];
      ListedIsSum(rest, m);
      assert ms == rest + [last];
      ListedAppend(rest, last, m);
      SumCongruence(PlacesOf(rest, m), At(Quantities(rest)), At(Quantities(ms)));
      if last.typeId == m {
        assert PlacesOf(ms, m) == PlacesOf(rest, m) + {n};
        SumInsert(PlacesOf(rest, m), n, At(Quantities(ms)));
      } else {
        assert PlacesOf(ms, m) == PlacesOf(rest, m);
      }
    }
  }

  function ListedTypes(ms: seq<Material>): set<TypeId>
  {
    set i | 0 <= i < |ms| :: ms[i].typeId
  }

  lemma {:induction false} ListedIffPositive(ms: seq<Material>, m: TypeId)
    ensures Listed(ms, m) > 0 <==> m in ListedTypes(ms)
  {
    if ms != [] {
      ListedIffPositive(ms[1..], m);
      if m in ListedTypes(ms) && ms[0].typeId != m {
        var i :| 0 <= i < |ms| && ms[i].typeId == m;
        assert ms[1..][i - 1].typeId == m;
      }
      if m in ListedTypes(ms[1..]) {
        var i :| 0 <= i < |ms[1..]| && ms[1..][i].typeId == m;
        assert ms[i + 1].typeId == m;
      }
    }
  }

  lemma {:induction false} ListedAppend(ms: seq<Material>, last: Material, m: TypeId)
    ensures Listed(ms + [last], m) == Listed(ms, m) + (if last.typeId == m then last.quantity else 0)
  {
    if ms == [] {
      assert ms + [last] == [last];
    } else {
      assert (ms + [last])[1..] == ms[1..] + [last];
      ListedAppend(ms[1..], last, m);
    }
  }

  function Runs(q: Query, t: TypeId, quantity: nat): nat
    requires t in q.recipes
  {
    Max(1, CeilDiv(quantity, q.recipes[t].outputQuantity))
  }

  /** How much of m one run of t takes; 0 when t is not built. */
  function PerRun(q: Query, t: TypeId, m: TypeId): nat
  {
    if Builds(q, t) then Listed(MaterialsOf(q, t), m) else 0
  }

  function ConsumedBy(q: Query, t: TypeId): set<TypeId>
  {
    if Builds(q, t) then ListedTypes(MaterialsOf(q, t)) else {}
  }

  lemma ConsumedIffPositive(q: Query, t: TypeId, m: TypeId)
    ensures PerRun(q, t, m) > 0 <==> m in ConsumedBy(q, t)
  {
    if Builds(q, t) {
      ListedIffPositive(MaterialsOf(q, t), m);
    }
  }

  /** The discounts change quantities only, so the consumed types are those of the plain recipe. */
  lemma ConsumedIsUndiscounted(q: Query, t: TypeId)
    requires Builds(q, t)
    ensures ConsumedBy(q, t) == ListedTypes(q.recipes[t].materials)
  {
    var ms, ds := q.recipes[t].materials, MaterialsOf(q, t);
    forall m
      ensures m in ListedTypes(ms) <==> m in ListedTypes(ds)
    {
      if m in ListedTypes(ms) {
        var i :| 0 <= i < |ms| && ms[i].typeId == m;
        assert ds[i].typeId == m;
      }
      if m in ListedTypes(ds) {
        var i :| 0 <= i < |ds| && ds[i].typeId == m;
        assert ms[i].typeId == m;
      }
    }
  }
}
