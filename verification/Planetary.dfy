/** Expanding planetary commodities down to a floor tier, and what that costs. */
module Planetary {
  import opened Sums
  import opened RealSums
  import opened Recipes

  /** The schematics by the type they make, and the tier of each classified type. */
  datatype Tables = Tables(schematics: map<TypeId, Recipe>, tiers: map<TypeId, nat>)

  type Amounts = map<TypeId, real>

  function TierOf(tables: Tables, t: TypeId): nat { if t in tables.tiers then tables.tiers[t] else 0 }

  /** The inputs of a classified schematic are of a lower tier than its output. */
  ghost predicate Falling(tables: Tables)
  {
    forall t, i :: t in tables.schematics && TierOf(tables, t) > 0 && 0 <= i < |tables.schematics[t].materials| ==>
      TierOf(tables, tables.schematics[t].materials[i].typeId) < TierOf(tables, t)
  }

  ghost predicate AllBelow(tables: Tables, inputs: seq<Material>, tier: nat)
  {
    forall i :: 0 <= i < |inputs| ==> TierOf(tables, inputs[i].typeId) < tier
  }

  predicate Stops(tables: Tables, t: TypeId, floor: nat)
  {
    t !in tables.schematics || TierOf(tables, t) <= floor
  }

  function Amount(a: Amounts, t: TypeId): real { if t in a then a[t] else 0.0 }

  function Merged(a: Amounts, b: Amounts): Amounts
  {
    map t | t in a.Keys + b.Keys :: Amount(a, t) + Amount(b, t)
  }

  /** Schematic runs that make the quantity, fractions included. */
  function RunsNeeded(s: Recipe, quantity: real): real { quantity / s.outputQuantity as real }

  function Needs(runs: real, input: Material): real { runs * input.quantity as real }

  ghost function Expand(tables: Tables, t: TypeId, quantity: real, floor: nat): Amounts
    requires Falling(tables)
    decreases 2 * TierOf(tables, t), 0
  {
    if Stops(tables, t, floor) then map[t := quantity]
    else
      var s := tables.schematics[t];
      ExpandInputs(tables, s.materials, RunsNeeded(s, quantity), floor, TierOf(tables, t))
  }

  /** All inputs of `runs` runs expanded and merged; their tiers lie below `tier`. */
  ghost function ExpandInputs(tables: Tables, inputs: seq<Material>, runs: real, floor: nat, tier: nat): Amounts
    requires Falling(tables) && AllBelow(tables, inputs, tier)
    decreases 2 * tier - 1, |inputs|
  {
    if inputs == [] then map[]
    else
      var rest, last := inputs[..|inputs| - 1], inputs[|inputs| - 1];
      Merged(ExpandInputs(tables, rest, runs, floor, tier), Expand(tables, last.typeId, Needs(runs, last), floor))
  }

  // ----- The code -----

  method MergeInto(result: Amounts, sub: Amounts) returns (merged: Amounts)
    ensures merged == Merged(result, sub)
  {
    merged := result;
    var todo := sub.Keys;
    ghost var done: set<TypeId> := {};
    while todo != {}
      invariant done + todo == sub.Keys && done !! todo
      invariant merged == map t | t in result.Keys + done ::
                Amount(result, t) + (if t in done then Amount(sub, t) else 0.0)
      decreases todo
    {
      var t := PickOne(todo);
      merged := merged[t := Amount(merged, t) + sub[t]];
      todo, done := todo - {t}, done + {t};
    }
    assert done == sub.Keys;
  }

  method ExpandToTier(tables: Tables, t: TypeId, quantity: real, floor: nat) returns (result: Amounts)
    requires Falling(tables)
    ensures result == Expand(tables, t, quantity, floor)
    ensures ExpandsTo(tables, t, quantity, floor, result)
    decreases 2 * TierOf(tables, t), 0
  {
    hide ExpandsTo;
    ExpansionIs(tables, t, quantity, floor);
    if Stops(tables, t, floor) {
      return map[t := quantity];
    }
    var schematic := tables.schematics[t];
    result := ExpandAllInputs(tables, schematic.materials, RunsNeeded(schematic, quantity), floor, TierOf(tables, t));
  }

  /** The accumulating loop over a schematic's inputs. */
  method ExpandAllInputs(tables: Tables, inputs: seq<Material>, runs: real, floor: nat, ghost tier: nat)
      returns (result: Amounts)
    requires Falling(tables) && AllBelow(tables, inputs, tier)
    ensures result == ExpandInputs(tables, inputs, runs, floor, tier)
    decreases 2 * tier - 1, 0
  {
    hide Expand, Needs, Merged;
    result := map[];
    for i := 0 to |inputs|
      invariant result == ExpandInputs(tables, inputs[..i], runs, floor, tier)
    {
      var sub := ExpandToTier(tables, inputs[i].typeId, Needs(runs, inputs[i]), floor);
      result := MergeInto(result, sub);
      var longer := inputs[..i + 1];
      assert longer[..|longer| - 1] == inputs[..i] && longer[|longer| - 1] == inputs[i];
    }
    assert inputs[..|inputs|] == inputs;
  }

  // ----- Scaling and additivity -----

  lemma RunsScale(s: Recipe, c: real, quantity: real)
    ensures RunsNeeded(s, Scale(c, quantity)) == Scale(c, RunsNeeded(s, quantity))
  {
  }

  lemma NeedsScale(c: real, runs: real, input: Material)
    ensures Needs(Scale(c, runs), input) == Scale(c, Needs(runs, input))
  {
  }

  /** Scaling the quantity scales every amount and keeps the types. */
  lemma {:induction false} ExpandScales(tables: Tables, t: TypeId, c: real, quantity: real, floor: nat, x: TypeId)
    requires Falling(tables)
    ensures Expand(tables, t, Scale(c, quantity), floor).Keys == Expand(tables, t, quantity, floor).Keys
    ensures Amount(Expand(tables, t, Scale(c, quantity), floor), x)
            == Scale(c, Amount(Expand(tables, t, quantity, floor), x))
    decreases 2 * TierOf(tables, t), 0
  {
    hide Scale, RunsNeeded, ExpandInputs;
    if Stops(tables, t, floor) {
      ScaleLaws(c, 0.0, 0.0);
    } else {
      var s := tables.schematics[t];
      RunsScale(s, c, quantity);
      InputsScale(tables, s.materials, c, RunsNeeded(s, quantity), floor, TierOf(tables, t), x);
    }
  }

  lemma {:induction false} InputsScale(tables: Tables, inputs: seq<Material>, c: real, runs: real, floor: nat,
      tier: nat, x: TypeId)
    requires Falling(tables) && AllBelow(tables, inputs, tier)
    ensures ExpandInputs(tables, inputs, Scale(c, runs), floor, tier).Keys
            == ExpandInputs(tables, inputs, runs, floor, tier).Keys
    ensures Amount(ExpandInputs(tables, inputs, Scale(c, runs), floor, tier), x)
            == Scale(c, Amount(ExpandInputs(tables, inputs, runs, floor, tier), x))
    decreases 2 * tier - 1, |inputs|
  {
    hide Expand, Scale, Needs;
    if inputs == [] {
      ScaleLaws(c, 0.0, 0.0);
    } else {
      var rest, last := inputs[..|inputs| - 1], inputs[|inputs| - 1];
      InputsScale(tables, rest, c, runs, floor, tier, x);
      NeedsScale(c, runs, last);
      ExpandScales(tables, last.typeId, c, Needs(runs, last), floor, x);
      ScaleLaws(c, Amount(ExpandInputs(tables, rest, runs, floor, tier), x),
          Amount(Expand(tables, last.typeId, Needs(runs, last), floor), x));
    }
  }

  /** Every amount is the quantity times the amount for one unit. */
  lemma ExpandByUnit(tables: Tables, t: TypeId, quantity: real, floor: nat, x: TypeId)
    requires Falling(tables)
    ensures Amount(Expand(tables, t, quantity, floor), x) == Scale(quantity, Amount(Expand(tables, t, 1.0, floor), x))
  {
    hide Expand, Scale;
    ScaleLaws(quantity, 0.0, 0.0);
    ExpandScales(tables, t, quantity, 1.0, floor, x);
  }

  lemma ExpandAdds(tables: Tables, t: TypeId, a: real, b: real, floor: nat, x: TypeId)
    requires Falling(tables)
    ensures Amount(Expand(tables, t, a + b, floor), x)
            == Amount(Expand(tables, t, a, floor), x) + Amount(Expand(tables, t, b, floor), x)
  {
    hide Expand, Scale;
    ExpandByUnit(tables, t, a, floor, x);
    ExpandByUnit(tables, t, b, floor, x);
    ExpandByUnit(tables, t, a + b, floor, x);
    ScaleLaws(Amount(Expand(tables, t, 1.0, floor), x), a, b);
  }

  lemma ExpandNothing(tables: Tables, t: TypeId, floor: nat, x: TypeId)
    requires Falling(tables)
    ensures Amount(Expand(tables, t, 0.0, floor), x) == 0.0
  {
    hide Expand;
    ExpandByUnit(tables, t, 0.0, floor, x);
  }

  /** An expansion reaches the same types whatever the quantity. */
  lemma ExpandKeys(tables: Tables, t: TypeId, a: real, b: real, floor: nat)
    requires Falling(tables)
    ensures Expand(tables, t, a, floor).Keys == Expand(tables, t, b, floor).Keys
  {
    hide Expand, Scale;
    ScaleLaws(a, 0.0, 0.0);
    ScaleLaws(b, 0.0, 0.0);
    ExpandScales(tables, t, a, 1.0, floor, t);
    ExpandScales(tables, t, b, 1.0, floor, t);
  }

  // ----- How much of each input -----

  /** What one run brings of x through each of its inputs: the input's quantity times what one unit of it expands to. */
  ghost function Brings(tables: Tables, inputs: seq<Material>, floor: nat, x: TypeId): (bs: seq<real>)
    requires Falling(tables)
    ensures |bs| == |inputs|
    ensures forall i :: 0 <= i < |inputs| ==>
              bs[i] == inputs[i].quantity as real * Amount(Expand(tables, inputs[i].typeId, 1.0, floor), x)
  {
    seq(|inputs|, i requires 0 <= i < |inputs| =>
      inputs[i].quantity as real * Amount(Expand(tables, inputs[i].typeId, 1.0, floor), x))
  }

  lemma OneInput(tables: Tables, input: Material, runs: real, floor: nat, x: TypeId)
    requires Falling(tables)
    ensures Amount(Expand(tables, input.typeId, Needs(runs, input), floor), x)
         == Scale(runs, input.quantity as real * Amount(Expand(tables, input.typeId, 1.0, floor), x))
  {
    hide Expand;
    ExpandByUnit(tables, input.typeId, Needs(runs, input), floor, x);
    Regroup(runs, input.quantity as real, Amount(Expand(tables, input.typeId, 1.0, floor), x));
  }

  lemma Regroup(a: real, b: real, c: real)
    ensures (a * b) * c == a * (b * c)
  {
  }

  lemma BringsRest(tables: Tables, inputs: seq<Material>, floor: nat, x: TypeId)
    requires Falling(tables) && inputs != []
    ensures var n := |inputs| - 1; Brings(tables, inputs, floor, x)[..n] == Brings(tables, inputs[..n], floor, x)
  {
    hide Expand;
  }

  lemma {:induction false} InputsBring(tables: Tables, inputs: seq<Material>, runs: real, floor: nat, tier: nat,
      x: TypeId)
    requires Falling(tables) && AllBelow(tables, inputs, tier)
    ensures Amount(ExpandInputs(tables, inputs, runs, floor, tier), x)
         == Scale(runs, Added(Brings(tables, inputs, floor, x)))
    decreases |inputs|
  {
    hide Expand, Needs, Scale, Brings;
    if inputs == [] {
      ScaleLaws(runs, 0.0, 0.0);
    } else {
      var n := |inputs| - 1;
      var rest, last := inputs[..n], inputs[n];
      var bs := Brings(tables, inputs, floor, x);
      InputsBring(tables, rest, runs, floor, tier, x);
      OneInput(tables, last, runs, floor, x);
      BringsRest(tables, inputs, floor, x);
      ScaleLaws(runs, Added(bs[..n]), bs[n]);
      assert |bs| - 1 == n && Added(bs) == Added(bs[..n]) + bs[n];
      assert bs[n] == last.quantity as real * Amount(Expand(tables, last.typeId, 1.0, floor), x);
    }
  }

  /** No tier above the floor, or nothing to make it from. */
  predicate AtRest(tables: Tables, t: TypeId, floor: nat)
  {
    t !in tables.schematics || t !in tables.tiers || tables.tiers[t] <= floor
  }

  /** For an item above the floor, out * amount == quantity * what one run of its schematic brings. */
  lemma ExpandsByRecipe(tables: Tables, t: TypeId, quantity: real, floor: nat, x: TypeId)
    requires Falling(tables) && !AtRest(tables, t, floor)
    ensures var s := tables.schematics[t];
            Amount(Expand(tables, t, quantity, floor), x) * s.outputQuantity as real
            == quantity * Added(Brings(tables, s.materials, floor, x))
  {
    hide ExpandInputs, Brings, Added;
    var s := tables.schematics[t];
    InputsBring(tables, s.materials, RunsNeeded(s, quantity), floor, TierOf(tables, t), x);
    RunsMake(quantity, s.outputQuantity as real, Added(Brings(tables, s.materials, floor, x)));
  }

  lemma RunsMake(quantity: real, out: real, total: real)
    requires out > 0.0
    ensures Scale(quantity / out, total) * out == quantity * total
  {
    assert quantity / out * out == quantity;
    assert quantity / out * total * out == (quantity / out * out) * total;
  }

  /** What a schematic lists for x, entry by entry. */
  function ListedFor(inputs: seq<Material>, x: TypeId): (qs: seq<real>)
    ensures |qs| == |inputs|
    ensures forall i :: 0 <= i < |inputs| ==> qs[i] == if inputs[i].typeId == x then inputs[i].quantity as real else 0.0
  {
    seq(|inputs|, i requires 0 <= i < |inputs| => if inputs[i].typeId == x then inputs[i].quantity as real else 0.0)
  }

  predicate AllAtRest(tables: Tables, inputs: seq<Material>, floor: nat)
  {
    forall i :: 0 <= i < |inputs| ==> AtRest(tables, inputs[i].typeId, floor)
  }

  /** When all inputs are at rest, out * amount == quantity * the quantities listed for the type. */
  lemma LastStage(tables: Tables, t: TypeId, quantity: real, floor: nat, x: TypeId)
    requires Falling(tables) && !AtRest(tables, t, floor) && AllAtRest(tables, tables.schematics[t].materials, floor)
    ensures var s := tables.schematics[t];
            Amount(Expand(tables, t, quantity, floor), x) * s.outputQuantity as real
            == quantity * Added(ListedFor(s.materials, x))
  {
    hide Expand, Added, Brings;
    var ms := tables.schematics[t].materials;
    ExpandsByRecipe(tables, t, quantity, floor, x);
    forall i | 0 <= i < |ms|
      ensures Brings(tables, ms, floor, x)[i] == ListedFor(ms, x)[i]
    {
      ExpandRests(tables, ms[i].typeId, 1.0, floor, x);
    }
    assert Brings(tables, ms, floor, x) == ListedFor(ms, x);
  }

  /** An expansion holds types at rest only; an item at rest is its own expansion. */
  lemma {:induction false} ExpandRests(tables: Tables, t: TypeId, quantity: real, floor: nat, x: TypeId)
    requires Falling(tables)
    ensures x in Expand(tables, t, quantity, floor) ==> AtRest(tables, x, floor)
    ensures AtRest(tables, t, floor) ==> Expand(tables, t, quantity, floor) == map[t := quantity]
    decreases 2 * TierOf(tables, t), 0
  {
    hide RunsNeeded;
    if !Stops(tables, t, floor) {
      var s := tables.schematics[t];
      InputsRest(tables, s.materials, RunsNeeded(s, quantity), floor, TierOf(tables, t), x);
    }
  }

  lemma {:induction false} InputsRest(tables: Tables, inputs: seq<Material>, runs: real, floor: nat, tier: nat,
      x: TypeId)
    requires Falling(tables) && AllBelow(tables, inputs, tier)
    ensures x in ExpandInputs(tables, inputs, runs, floor, tier) ==> AtRest(tables, x, floor)
    decreases 2 * tier - 1, |inputs|
  {
    hide Needs, Expand, AtRest;
    if inputs != [] {
      var rest, last := inputs[..|inputs| - 1], inputs[|inputs| - 1];
      InputsRest(tables, rest, runs, floor, tier, x);
      ExpandRests(tables, last.typeId, Needs(runs, last), floor, x);
    }
  }

  /** What an expansion holds: an item at rest itself, and for any other item, of each type, what one run of its
      schematic brings per unit made, times the quantity; of types at rest only. */
  ghost predicate ExpandsTo(tables: Tables, t: TypeId, quantity: real, floor: nat, r: Amounts)
    requires Falling(tables)
  {
    && (AtRest(tables, t, floor) ==> r == map[t := quantity])
    && (forall x :: x in r ==> AtRest(tables, x, floor))
    && (!AtRest(tables, t, floor) ==>
         var s := tables.schematics[t];
         && (forall x :: Amount(r, x) * s.outputQuantity as real
                         == quantity * Added(Brings(tables, s.materials, floor, x)))
         && (AllAtRest(tables, s.materials, floor) ==>
              forall x :: Amount(r, x) * s.outputQuantity as real == quantity * Added(ListedFor(s.materials, x))))
  }

  lemma ExpansionIs(tables: Tables, t: TypeId, quantity: real, floor: nat)
    requires Falling(tables)
    ensures ExpandsTo(tables, t, quantity, floor, Expand(tables, t, quantity, floor))
  {
    hide Expand, Brings, Added, ListedFor, AllAtRest, AtRest;
    forall x
      ensures x in Expand(tables, t, quantity, floor) ==> AtRest(tables, x, floor)
    {
      ExpandRests(tables, t, quantity, floor, x);
    }
    ExpandRests(tables, t, quantity, floor, t);
    if !AtRest(tables, t, floor) {
      HasSchematic(tables, t, floor);
      var s := tables.schematics[t];
      forall x
        ensures Amount(Expand(tables, t, quantity, floor), x) * s.outputQuantity as real
             == quantity * Added(Brings(tables, s.materials, floor, x))
        ensures AllAtRest(tables, s.materials, floor) ==>
                  Amount(Expand(tables, t, quantity, floor), x) * s.outputQuantity as real
                  == quantity * Added(ListedFor(s.materials, x))
      {
        ExpandsByRecipe(tables, t, quantity, floor, x);
        if AllAtRest(tables, s.materials, floor) {
          LastStage(tables, t, quantity, floor, x);
        }
      }
    }
  }

  lemma HasSchematic(tables: Tables, t: TypeId, floor: nat)
    requires !AtRest(tables, t, floor)
    ensures t in tables.schematics
  {
  }

  // ----- Composition -----

  ghost function AllKeys(tables: Tables, a: Amounts, floor: nat): set<TypeId>
    requires Falling(tables)
  {
    set t, x | t in a && x in Expand(tables, t, a[t], floor) :: x
  }

  ghost function AllAmount(tables: Tables, a: Amounts, floor: nat, x: TypeId): real
    requires Falling(tables)
  {
    Total(a.Keys, t => Amount(Expand(tables, t, Amount(a, t), floor), x))
  }

  /** Every entry expanded to the floor, and the results merged. */
  ghost function ExpandAll(tables: Tables, a: Amounts, floor: nat): Amounts
    requires Falling(tables)
  {
    map x | x in AllKeys(tables, a, floor) :: AllAmount(tables, a, floor, x)
  }

  lemma AllAmountMerges(tables: Tables, a: Amounts, b: Amounts, floor: nat, x: TypeId)
    requires Falling(tables)
    ensures AllAmount(tables, Merged(a, b), floor, x) == AllAmount(tables, a, floor, x) + AllAmount(tables, b, floor, x)
  {
    hide Expand;
    var all := a.Keys + b.Keys;
    var f, g := t => Amount(Expand(tables, t, Amount(a, t), floor), x),
        t => Amount(Expand(tables, t, Amount(b, t), floor), x);
    var h := t => Amount(Expand(tables, t, Amount(Merged(a, b), t), floor), x);
    forall t
      ensures t in all ==> h(t) == f(t) + g(t)
      ensures t !in a ==> f(t) == 0.0
      ensures t !in b ==> g(t) == 0.0
    {
      ExpandAdds(tables, t, Amount(a, t), Amount(b, t), floor, x);
      ExpandNothing(tables, t, floor, x);
    }
    assert Merged(a, b).Keys == all;
    TotalPlus(all, f, g, h);
    TotalSupport(a.Keys, all, f);
    TotalSupport(b.Keys, all, g);
  }

  lemma InAllKeys(tables: Tables, a: Amounts, floor: nat, x: TypeId)
    requires Falling(tables)
    ensures x in AllKeys(tables, a, floor) <==> exists t :: t in a && x in Expand(tables, t, 1.0, floor).Keys
  {
    hide Expand;
    forall t | t in a
      ensures Expand(tables, t, a[t], floor).Keys == Expand(tables, t, 1.0, floor).Keys
    {
      ExpandKeys(tables, t, a[t], 1.0, floor);
    }
  }

  lemma AllKeysMerge(tables: Tables, a: Amounts, b: Amounts, floor: nat)
    requires Falling(tables)
    ensures AllKeys(tables, Merged(a, b), floor) == AllKeys(tables, a, floor) + AllKeys(tables, b, floor)
  {
    hide Expand, AllKeys;
    forall x
      ensures x in AllKeys(tables, Merged(a, b), floor) <==>
              x in AllKeys(tables, a, floor) || x in AllKeys(tables, b, floor)
    {
      InAllKeys(tables, a, floor, x);
      InAllKeys(tables, b, floor, x);
      InAllKeys(tables, Merged(a, b), floor, x);
    }
  }

  lemma {:induction false} ExpandComposes(tables: Tables, t: TypeId, quantity: real, f: nat, g: nat, x: TypeId)
    requires Falling(tables) && g <= f
    ensures AllAmount(tables, Expand(tables, t, quantity, f), g, x) == Amount(Expand(tables, t, quantity, g), x)
    ensures AllKeys(tables, Expand(tables, t, quantity, f), g) == Expand(tables, t, quantity, g).Keys
    decreases 2 * TierOf(tables, t), 0
  {
    if Stops(tables, t, f) {
      var one: Amounts := map[t := quantity];
      assert one.Keys == {t};
      TotalOne(t, u => Amount(Expand(tables, u, Amount(one, u), g), x));
      OneKey(tables, t, quantity, g);
    } else {
      var s := tables.schematics[t];
      InputsCompose(tables, s.materials, RunsNeeded(s, quantity), f, g, TierOf(tables, t), x);
    }
  }

  lemma OneKey(tables: Tables, t: TypeId, quantity: real, g: nat)
    requires Falling(tables)
    ensures AllKeys(tables, map[t := quantity], g) == Expand(tables, t, quantity, g).Keys
  {
    hide Expand, AllKeys;
    ExpandKeys(tables, t, quantity, 1.0, g);
    forall x
      ensures x in AllKeys(tables, map[t := quantity], g) <==> x in Expand(tables, t, quantity, g).Keys
    {
      InAllKeys(tables, map[t := quantity], g, x);
    }
  }

  lemma {:induction false} InputsCompose(tables: Tables, inputs: seq<Material>, runs: real, f: nat, g: nat, tier: nat,
      x: TypeId)
    requires Falling(tables) && AllBelow(tables, inputs, tier) && g <= f
    ensures AllAmount(tables, ExpandInputs(tables, inputs, runs, f, tier), g, x)
            == Amount(ExpandInputs(tables, inputs, runs, g, tier), x)
    ensures AllKeys(tables, ExpandInputs(tables, inputs, runs, f, tier), g)
            == ExpandInputs(tables, inputs, runs, g, tier).Keys
    decreases 2 * tier - 1, |inputs|
  {
    hide Expand, Needs, AllKeys, AllAmount;
    if inputs == [] {
      NoAmounts(tables, g, x);
    } else {
      var rest, last := inputs[..|inputs| - 1], inputs[|inputs| - 1];
      var a, b := ExpandInputs(tables, rest, runs, f, tier), Expand(tables, last.typeId, Needs(runs, last), f);
      InputsCompose(tables, rest, runs, f, g, tier, x);
      ExpandComposes(tables, last.typeId, Needs(runs, last), f, g, x);
      AllAmountMerges(tables, a, b, g, x);
      AllKeysMerge(tables, a, b, g);
    }
  }

  lemma NoAmounts(tables: Tables, g: nat, x: TypeId)
    requires Falling(tables)
    ensures AllAmount(tables, map[], g, x) == 0.0 && AllKeys(tables, map[], g) == {}
  {
    hide Expand;
    var none: Amounts := map[];
    assert none.Keys == {};
  }

  /** Expanding to a floor and each result on to a lower floor is expanding to the lower floor at once. */
  lemma TierComposition(tables: Tables, t: TypeId, quantity: real, f: nat, g: nat)
    requires Falling(tables) && g <= f
    ensures ExpandAll(tables, Expand(tables, t, quantity, f), g) == Expand(tables, t, quantity, g)
  {
    hide Expand, AllKeys, AllAmount;
    forall x
      ensures AllAmount(tables, Expand(tables, t, quantity, f), g, x) == Amount(Expand(tables, t, quantity, g), x)
    {
      ExpandComposes(tables, t, quantity, f, g, x);
    }
    ExpandComposes(tables, t, quantity, f, g, t);
  }
}
