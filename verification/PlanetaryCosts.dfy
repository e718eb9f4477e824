/** What an expansion costs at market prices, and the "From P" rows of a schematic's page. */
module PlanetaryCosts {
  import opened Sums
  import opened RealSums
  import opened Recipes
  import opened Planetary

  type Prices = map<TypeId, real>

  /** A type without a price counts as free. */
  function Price(prices: Prices, t: TypeId): real { if t in prices then prices[t] else 0.0 }

  ghost function Cost(prices: Prices, a: Amounts): real
  {
    Total(a.Keys, t => Scale(Amount(a, t), Price(prices, t)))
  }

  // ----- What that means -----

  /** Amounts times prices, a type without a price at nothing. */
  ghost function Bill(prices: Prices, a: Amounts): real
  {
    Total(a.Keys, t => if t in a && t in prices then a[t] * prices[t] else 0.0)
  }

  lemma CostIsBill(prices: Prices, a: Amounts)
    ensures Cost(prices, a) == Bill(prices, a)
  {
    TotalCongruence(a.Keys, t => Scale(Amount(a, t), Price(prices, t)),
      t => if t in a && t in prices then a[t] * prices[t] else 0.0);
  }

  /** A schematic's inputs, each by its quantity, at what one unit of it costs from the floor. */
  ghost function InputBills(tables: Tables, prices: Prices, inputs: seq<Material>, floor: nat): (bs: seq<real>)
    requires Falling(tables)
    ensures |bs| == |inputs|
    ensures forall i :: 0 <= i < |inputs| ==>
              bs[i] == inputs[i].quantity as real * Bill(prices, Expand(tables, inputs[i].typeId, 1.0, floor))
  {
    seq(|inputs|, i requires 0 <= i < |inputs| =>
      inputs[i].quantity as real * Bill(prices, Expand(tables, inputs[i].typeId, 1.0, floor)))
  }

  /** A schematic's inputs, each by its quantity, at the market price. */
  function MarketValues(prices: Prices, inputs: seq<Material>): (vs: seq<real>)
    ensures |vs| == |inputs|
    ensures forall i :: 0 <= i < |inputs| ==>
              vs[i] == if inputs[i].typeId in prices then inputs[i].quantity as real * prices[inputs[i].typeId] else 0.0
  {
    seq(|inputs|, i requires 0 <= i < |inputs| =>
      if inputs[i].typeId in prices then inputs[i].quantity as real * prices[inputs[i].typeId] else 0.0)
  }

  lemma ScaleTwice(a: real, b: real, c: real)
    ensures Scale(Scale(a, b), c) == Scale(a, Scale(b, c))
  {
  }

  lemma OneRunOf(input: Material, bill: real)
    ensures Scale(Needs(1.0, input), bill) == input.quantity as real * bill
  {
  }

  lemma CostByUnit(tables: Tables, prices: Prices, t: TypeId, quantity: real, floor: nat)
    requires Falling(tables)
    ensures Cost(prices, Expand(tables, t, quantity, floor))
            == Scale(quantity, Bill(prices, Expand(tables, t, 1.0, floor)))
  {
    hide Expand, Scale, Bill;
    var one, many := Expand(tables, t, 1.0, floor), Expand(tables, t, quantity, floor);
    ExpandKeys(tables, t, quantity, 1.0, floor);
    forall x
      ensures Scale(Amount(many, x), Price(prices, x)) == Scale(quantity, Scale(Amount(one, x), Price(prices, x)))
    {
      ExpandByUnit(tables, t, quantity, floor, x);
      ScaleTwice(quantity, Amount(one, x), Price(prices, x));
    }
    TotalScale(one.Keys, quantity, x => Scale(Amount(one, x), Price(prices, x)),
        x => Scale(Amount(many, x), Price(prices, x)));
    CostIsBill(prices, one);
  }

  lemma InputBillsRest(tables: Tables, prices: Prices, inputs: seq<Material>, floor: nat)
    requires Falling(tables) && inputs != []
    ensures var n := |inputs| - 1;
            InputBills(tables, prices, inputs, floor)[..n] == InputBills(tables, prices, inputs[..n], floor)
  {
    hide Expand, Bill;
    var n, rest := |inputs| - 1, inputs[..|inputs| - 1];
    forall i | 0 <= i < n
      ensures InputBills(tables, prices, inputs, floor)[i] == InputBills(tables, prices, rest, floor)[i]
    {
      assert rest[i] == inputs[i];
    }
  }

  lemma {:induction false} InputsCost(tables: Tables, prices: Prices, inputs: seq<Material>, floor: nat, tier: nat)
    requires Falling(tables) && AllBelow(tables, inputs, tier)
    ensures FloorCost(tables, prices, inputs, floor, tier) == Added(InputBills(tables, prices, inputs, floor))
    decreases |inputs|
  {
    hide Expand, Cost, Bill, InputBills, Merged, Scale, Needs;
    if inputs == [] {
      NothingCosts(prices);
    } else {
      var n := |inputs| - 1;
      var rest, last := inputs[..n], inputs[n];
      var bs := InputBills(tables, prices, inputs, floor);
      InputsCost(tables, prices, rest, floor, tier);
      CostByUnit(tables, prices, last.typeId, Needs(1.0, last), floor);
      OneRunOf(last, Bill(prices, Expand(tables, last.typeId, 1.0, floor)));
      CostMerges(prices, ExpandInputs(tables, rest, 1.0, floor, tier),
          Expand(tables, last.typeId, Needs(1.0, last), floor));
      InputBillsRest(tables, prices, inputs, floor);
      assert |bs| - 1 == n && Added(bs) == Added(bs[..n]) + bs[n];
    }
  }

  lemma NothingCosts(prices: Prices)
    ensures Cost(prices, map[]) == 0.0
  {
    var none: Amounts := map[];
    assert none.Keys == {};
  }

  /** Inputs at rest cost their market value. */
  lemma RestingInputsCost(tables: Tables, prices: Prices, inputs: seq<Material>, floor: nat)
    requires Falling(tables) && AllAtRest(tables, inputs, floor)
    ensures InputBills(tables, prices, inputs, floor) == MarketValues(prices, inputs)
  {
    hide Expand;
    forall i | 0 <= i < |inputs|
      ensures InputBills(tables, prices, inputs, floor)[i] == MarketValues(prices, inputs)[i]
    {
      var t := inputs[i].typeId;
      ExpandRests(tables, t, 1.0, floor, t);
      var one: Amounts := map[t := 1.0];
      assert one.Keys == {t};
      TotalOne(t, u => if u in one && u in prices then one[u] * prices[u] else 0.0);
    }
  }

  lemma MarketValuesRest(prices: Prices, inputs: seq<Material>)
    requires inputs != []
    ensures var n := |inputs| - 1; MarketValues(prices, inputs)[..n] == MarketValues(prices, inputs[..n])
  {
    var n, rest := |inputs| - 1, inputs[..|inputs| - 1];
    forall i | 0 <= i < n
      ensures MarketValues(prices, inputs)[i] == MarketValues(prices, rest)[i]
    {
      assert rest[i] == inputs[i];
    }
  }

  lemma {:induction false} InputValueIs(prices: Prices, inputs: seq<Material>)
    ensures InputValue(prices, inputs, 1.0) == Added(MarketValues(prices, inputs))
  {
    hide MarketValues;
    if inputs != [] {
      var n, vs := |inputs| - 1, MarketValues(prices, inputs);
      InputValueIs(prices, inputs[..n]);
      MarketValuesRest(prices, inputs);
      assert |vs| - 1 == n && Added(vs) == Added(vs[..n]) + vs[n];
    }
  }

  // ----- The code -----

  method CostOf(prices: Prices, expanded: Amounts) returns (cost: real)
    ensures cost == Cost(prices, expanded) == Bill(prices, expanded)
  {
    hide Scale, Bill;
    CostIsBill(prices, expanded);
    cost := 0.0;
    var todo := expanded.Keys;
    ghost var done: set<TypeId> := {};
    while todo != {}
      invariant done + todo == expanded.Keys && done !! todo
      invariant cost == Total(done, t => Scale(Amount(expanded, t), Price(prices, t)))
      decreases todo
    {
      var t := PickOne(todo);
      TotalInsert(done, t, t => Scale(Amount(expanded, t), Price(prices, t)));
      cost := cost + Scale(expanded[t], Price(prices, t));
      todo, done := todo - {t}, done + {t};
    }
    assert done == expanded.Keys;
  }

  /** The inputs of one run, from each floor below the schematic's own tier. */
  method FloorCosts(tables: Tables, prices: Prices, inputs: seq<Material>, ownTier: nat) returns (costs: seq<real>)
    requires Falling(tables) && AllBelow(tables, inputs, ownTier)
    ensures |costs| == ownTier
    ensures forall floor :: 0 <= floor < ownTier ==> costs[floor] == FloorCost(tables, prices, inputs, floor, ownTier)
    ensures forall floor :: 0 <= floor < ownTier ==> costs[floor] == Added(InputBills(tables, prices, inputs, floor))
    ensures forall floor :: 0 <= floor < ownTier && AllAtRest(tables, inputs, floor) ==>
              costs[floor] == Added(MarketValues(prices, inputs))
  {
    hide Cost, Bill, InputBills, MarketValues, AllAtRest, FloorCost;
    costs := [];
    for floor := 0 to ownTier
      invariant |costs| == floor
      invariant forall k :: 0 <= k < floor ==> costs[k] == FloorCost(tables, prices, inputs, k, ownTier)
      invariant forall k :: 0 <= k < floor ==> costs[k] == Added(InputBills(tables, prices, inputs, k))
      invariant forall k :: 0 <= k < floor && AllAtRest(tables, inputs, k) ==>
                  costs[k] == Added(MarketValues(prices, inputs))
    {
      var expanded := ExpandAllInputs(tables, inputs, 1.0, floor, ownTier);
      var cost := CostOf(prices, expanded);
      FloorCostIs(tables, prices, inputs, floor, ownTier);
      costs := costs + [cost];
    }
  }

  lemma FloorCostIs(tables: Tables, prices: Prices, inputs: seq<Material>, floor: nat, tier: nat)
    requires Falling(tables) && AllBelow(tables, inputs, tier)
    ensures FloorCost(tables, prices, inputs, floor, tier)
            == Cost(prices, ExpandInputs(tables, inputs, 1.0, floor, tier))
    ensures FloorCost(tables, prices, inputs, floor, tier) == Added(InputBills(tables, prices, inputs, floor))
    ensures AllAtRest(tables, inputs, floor) ==>
              FloorCost(tables, prices, inputs, floor, tier) == Added(MarketValues(prices, inputs))
  {
    hide Cost, ExpandInputs, InputBills, MarketValues, AllAtRest, Added;
    InputsCost(tables, prices, inputs, floor, tier);
    if AllAtRest(tables, inputs, floor) {
      RestingInputsCost(tables, prices, inputs, floor);
    }
  }

  ghost function FloorCost(tables: Tables, prices: Prices, inputs: seq<Material>, floor: nat, tier: nat): real
    requires Falling(tables) && AllBelow(tables, inputs, tier)
  {
    Cost(prices, ExpandInputs(tables, inputs, 1.0, floor, tier))
  }

  // ----- Where the difference goes -----

  ghost function InputValue(prices: Prices, inputs: seq<Material>, runs: real): real
  {
    if inputs == [] then 0.0
    else
      InputValue(prices, inputs[..|inputs| - 1], runs) +
      Scale(Needs(runs, inputs[|inputs| - 1]), Price(prices, inputs[|inputs| - 1].typeId))
  }

  /** What one run of the schematic for t makes minus what it takes, at market prices. */
  ghost function Margin(tables: Tables, prices: Prices, t: TypeId): real
    requires t in tables.schematics
  {
    var s := tables.schematics[t];
    Scale(s.outputQuantity as real, Price(prices, t)) - InputValue(prices, s.materials, 1.0)
  }

  /** The margins of every schematic that expanding `quantity` of t runs, each times its runs. */
  ghost function Earned(tables: Tables, prices: Prices, t: TypeId, quantity: real, floor: nat): real
    requires Falling(tables)
    decreases 2 * TierOf(tables, t), 0
  {
    if Stops(tables, t, floor) then 0.0
    else
      var s := tables.schematics[t];
      var runs := RunsNeeded(s, quantity);
      Scale(runs, Margin(tables, prices, t)) +
          EarnedByInputs(tables, prices, s.materials, runs, floor, TierOf(tables, t))
  }

  ghost function EarnedByInputs(tables: Tables, prices: Prices, inputs: seq<Material>, runs: real, floor: nat,
      tier: nat): real
    requires Falling(tables) && AllBelow(tables, inputs, tier)
    decreases 2 * tier - 1, |inputs|
  {
    if inputs == [] then 0.0
    else
      var rest, last := inputs[..|inputs| - 1], inputs[|inputs| - 1];
      EarnedByInputs(tables, prices, rest, runs, floor, tier) +
      Earned(tables, prices, last.typeId, Needs(runs, last), floor)
  }

  lemma CostMerges(prices: Prices, a: Amounts, b: Amounts)
    ensures Cost(prices, Merged(a, b)) == Cost(prices, a) + Cost(prices, b)
  {
    hide Scale;
    var all := a.Keys + b.Keys;
    var f, g := t => Scale(Amount(a, t), Price(prices, t)), t => Scale(Amount(b, t), Price(prices, t));
    var h := t => Scale(Amount(Merged(a, b), t), Price(prices, t));
    forall t
      ensures t in all ==> h(t) == f(t) + g(t)
      ensures t !in a ==> f(t) == 0.0
      ensures t !in b ==> g(t) == 0.0
    {
      ScaleLaws(Price(prices, t), Amount(a, t), Amount(b, t));
    }
    assert Merged(a, b).Keys == all;
    TotalPlus(all, f, g, h);
    TotalSupport(a.Keys, all, f);
    TotalSupport(b.Keys, all, g);
  }

  lemma {:induction false} InputValueScales(prices: Prices, inputs: seq<Material>, runs: real)
    ensures InputValue(prices, inputs, runs) == Scale(runs, InputValue(prices, inputs, 1.0))
  {
    hide Scale, Needs;
    if inputs == [] {
      ScaleLaws(runs, 0.0, 0.0);
    } else {
      var last := inputs[|inputs| - 1];
      InputValueScales(prices, inputs[..|inputs| - 1], runs);
      OneInputScales(runs, last, Price(prices, last.typeId));
      ScaleLaws(runs, InputValue(prices, inputs[..|inputs| - 1], 1.0),
          Scale(Needs(1.0, last), Price(prices, last.typeId)));
    }
  }

  lemma OneInputScales(runs: real, input: Material, price: real)
    ensures Scale(Needs(runs, input), price) == Scale(runs, Scale(Needs(1.0, input), price))
  {
    var q := input.quantity as real;
    assert (runs * q) * price == runs * ((1.0 * q) * price);
  }

  lemma RunsMakeQuantity(s: Recipe, quantity: real, price: real)
    ensures Scale(RunsNeeded(s, quantity), Scale(s.outputQuantity as real, price)) == Scale(quantity, price)
  {
    var out := s.outputQuantity as real;
    assert quantity / out * out == quantity;
    assert quantity / out * (out * price) == quantity / out * out * price;
  }

  lemma MarginOfRuns(tables: Tables, prices: Prices, t: TypeId, quantity: real)
    requires t in tables.schematics
    ensures var runs := RunsNeeded(tables.schematics[t], quantity);
            Scale(runs, Margin(tables, prices, t))
            == Scale(quantity, Price(prices, t)) - InputValue(prices, tables.schematics[t].materials, runs)
  {
    hide Scale, RunsNeeded;
    var s := tables.schematics[t];
    var runs := RunsNeeded(s, quantity);
    RunsMakeQuantity(s, quantity, Price(prices, t));
    InputValueScales(prices, s.materials, runs);
    ScaleLaws(runs, Margin(tables, prices, t), InputValue(prices, s.materials, 1.0));
  }

  /** Market value of an item minus the cost of its expansion: the margins earned on the way. */
  lemma {:induction false} CostDifference(tables: Tables, prices: Prices, t: TypeId, quantity: real, floor: nat)
    requires Falling(tables)
    ensures Scale(quantity, Price(prices, t)) - Cost(prices, Expand(tables, t, quantity, floor))
            == Earned(tables, prices, t, quantity, floor)
    decreases 2 * TierOf(tables, t), 0
  {
    hide Scale, RunsNeeded, Margin;
    if Stops(tables, t, floor) {
      var one: Amounts := map[t := quantity];
      assert one.Keys == {t};
      TotalOne(t, u => Scale(Amount(one, u), Price(prices, u)));
    } else {
      var s := tables.schematics[t];
      MarginOfRuns(tables, prices, t, quantity);
      InputsAccounting(tables, prices, s.materials, RunsNeeded(s, quantity), floor, TierOf(tables, t));
    }
  }

  lemma {:induction false} InputsAccounting(tables: Tables, prices: Prices, inputs: seq<Material>, runs: real,
      floor: nat, tier: nat)
    requires Falling(tables) && AllBelow(tables, inputs, tier)
    ensures InputValue(prices, inputs, runs) - Cost(prices, ExpandInputs(tables, inputs, runs, floor, tier))
         == EarnedByInputs(tables, prices, inputs, runs, floor, tier)
    decreases 2 * tier - 1, |inputs|
  {
    hide Scale, Needs, Expand, Earned, Merged;
    if inputs == [] {
      var none: Amounts := map[];
      assert none.Keys == {};
    } else {
      var rest, last := inputs[..|inputs| - 1], inputs[|inputs| - 1];
      InputsAccounting(tables, prices, rest, runs, floor, tier);
      CostDifference(tables, prices, last.typeId, Needs(runs, last), floor);
      CostMerges(prices, ExpandInputs(tables, rest, runs, floor, tier),
          Expand(tables, last.typeId, Needs(runs, last), floor));
    }
  }

  lemma MarginIs(tables: Tables, prices: Prices, t: TypeId)
    requires t in tables.schematics
    ensures var s := tables.schematics[t];
            Margin(tables, prices, t) ==
            (if t in prices then s.outputQuantity as real * prices[t]
                else 0.0) - Added(MarketValues(prices, s.materials))
  {
    hide InputValue, MarketValues, Added;
    InputValueIs(prices, tables.schematics[t].materials);
  }

  /** Market value of an item minus the cost of its expansion: the margins earned on the way, where a margin is what
      one run makes minus what it takes, each quantity at its price. */
  lemma CostAccounting(tables: Tables, prices: Prices, t: TypeId, quantity: real, floor: nat)
    requires Falling(tables)
    ensures (if t in prices then quantity * prices[t] else 0.0) - Bill(prices, Expand(tables, t, quantity, floor))
            == Earned(tables, prices, t, quantity, floor)
    ensures forall p :: p in tables.schematics ==>
              var s := tables.schematics[p];
              Margin(tables, prices, p) ==
              (if p in prices then s.outputQuantity as real * prices[p]
                  else 0.0) - Added(MarketValues(prices, s.materials))
  {
    hide Expand, Earned, Margin, MarketValues, Added, Bill, Cost;
    CostDifference(tables, prices, t, quantity, floor);
    CostIsBill(prices, Expand(tables, t, quantity, floor));
    forall p | p in tables.schematics
      ensures var s := tables.schematics[p];
              Margin(tables, prices, p) ==
              (if p in prices then s.outputQuantity as real * prices[p]
                  else 0.0) - Added(MarketValues(prices, s.materials))
    {
      MarginIs(tables, prices, p);
    }
  }

  // ----- Comparing two floors -----

  /** No schematic that expanding t down to g runs, of a tier up to f, sells for less than its inputs. */
  ghost predicate NoneLoses(tables: Tables, prices: Prices, t: TypeId, g: nat, f: nat)
    requires Falling(tables)
    decreases 2 * TierOf(tables, t), 0
  {
    Stops(tables, t, g) ||
    ((TierOf(tables, t) <= f ==> Margin(tables, prices, t) >= 0.0) &&
     NoInputLoses(tables, prices, tables.schematics[t].materials, g, f, TierOf(tables, t)))
  }

  ghost predicate NoInputLoses(tables: Tables, prices: Prices, inputs: seq<Material>, g: nat, f: nat, tier: nat)
    requires Falling(tables) && AllBelow(tables, inputs, tier)
    decreases 2 * tier - 1, 0
  {
    forall i :: 0 <= i < |inputs| ==> NoneLoses(tables, prices, inputs[i].typeId, g, f)
  }

  lemma RunsSign(s: Recipe, quantity: real)
    requires quantity >= 0.0
    ensures RunsNeeded(s, quantity) >= 0.0
  {
  }

  lemma ProductSign(a: real, b: real)
    requires a >= 0.0 && b >= 0.0
    ensures Scale(a, b) >= 0.0
  {
  }

  lemma NeedsSign(runs: real, input: Material)
    requires runs >= 0.0
    ensures Needs(runs, input) >= 0.0
  {
  }

  lemma {:induction false} EarnedSign(tables: Tables, prices: Prices, t: TypeId, quantity: real, g: nat, f: nat)
    requires Falling(tables) && NoneLoses(tables, prices, t, g, f)
    requires quantity >= 0.0 && Stops(tables, t, f)
    ensures Earned(tables, prices, t, quantity, g) >= 0.0
    decreases 2 * TierOf(tables, t), 0
  {
    hide Scale, RunsNeeded, Margin;
    if !Stops(tables, t, g) {
      var s := tables.schematics[t];
      RunsSign(s, quantity);
      ProductSign(RunsNeeded(s, quantity), Margin(tables, prices, t));
      InputsEarnedSign(tables, prices, s.materials, RunsNeeded(s, quantity), g, f, TierOf(tables, t));
    }
  }

  lemma {:induction false} InputsEarnedSign(tables: Tables, prices: Prices, inputs: seq<Material>, runs: real, g: nat,
      f: nat, tier: nat)
    requires Falling(tables) && AllBelow(tables, inputs, tier) && NoInputLoses(tables, prices, inputs, g, f, tier)
    requires runs >= 0.0 && tier <= f
    ensures EarnedByInputs(tables, prices, inputs, runs, g, tier) >= 0.0
    decreases 2 * tier - 1, |inputs|
  {
    hide Needs, NoneLoses, Earned;
    if inputs != [] {
      var rest, last := inputs[..|inputs| - 1], inputs[|inputs| - 1];
      InputsEarnedSign(tables, prices, rest, runs, g, f, tier);
      NeedsSign(runs, last);
      EarnedSign(tables, prices, last.typeId, Needs(runs, last), g, f);
    }
  }

  /** Nonnegative quantities expand to nonnegative amounts of types that stop at the floor. */
  lemma {:induction false} ExpandStops(tables: Tables, t: TypeId, quantity: real, f: nat, x: TypeId)
    requires Falling(tables) && quantity >= 0.0
    ensures x in Expand(tables, t, quantity, f) ==> Stops(tables, x, f) && Expand(tables, t, quantity, f)[x] >= 0.0
    decreases 2 * TierOf(tables, t), 0
  {
    hide RunsNeeded;
    if !Stops(tables, t, f) {
      var s := tables.schematics[t];
      RunsSign(s, quantity);
      InputsStop(tables, s.materials, RunsNeeded(s, quantity), f, TierOf(tables, t), x);
    }
  }

  lemma {:induction false} InputsStop(tables: Tables, inputs: seq<Material>, runs: real, f: nat, tier: nat, x: TypeId)
    requires Falling(tables) && AllBelow(tables, inputs, tier) && runs >= 0.0
    ensures x in ExpandInputs(tables, inputs, runs, f, tier) ==>
              Stops(tables, x, f) && ExpandInputs(tables, inputs, runs, f, tier)[x] >= 0.0
    decreases 2 * tier - 1, |inputs|
  {
    hide Needs, Expand, Stops;
    if inputs != [] {
      var rest, last := inputs[..|inputs| - 1], inputs[|inputs| - 1];
      InputsStop(tables, rest, runs, f, tier, x);
      NeedsSign(runs, last);
      ExpandStops(tables, last.typeId, Needs(runs, last), f, x);
    }
  }

  /** Going on from floor f to floor g turns the margins of the schematics in between into savings. */
  lemma FloorsDiffer(tables: Tables, prices: Prices, inputs: seq<Material>, f: nat, g: nat, tier: nat)
    requires Falling(tables) && AllBelow(tables, inputs, tier) && g <= f
    ensures FloorCost(tables, prices, inputs, f, tier) - FloorCost(tables, prices, inputs, g, tier)
         == EarnedByInputs(tables, prices, inputs, 1.0, g, tier) - EarnedByInputs(tables, prices, inputs, 1.0, f, tier)
  {
    hide Cost, EarnedByInputs, ExpandInputs, InputValue;
    InputsAccounting(tables, prices, inputs, 1.0, f, tier);
    InputsAccounting(tables, prices, inputs, 1.0, g, tier);
  }

  lemma {:induction false} EarnedComposes(tables: Tables, prices: Prices, t: TypeId, quantity: real, f: nat, g: nat)
    requires Falling(tables) && g <= f && quantity >= 0.0 && NoneLoses(tables, prices, t, g, f)
    ensures Earned(tables, prices, t, quantity, g) >= Earned(tables, prices, t, quantity, f)
    decreases 2 * TierOf(tables, t), 0
  {
    hide Scale, RunsNeeded, Margin;
    if Stops(tables, t, f) {
      EarnedSign(tables, prices, t, quantity, g, f);
    } else {
      var s := tables.schematics[t];
      RunsSign(s, quantity);
      InputsEarnedCompose(tables, prices, s.materials, RunsNeeded(s, quantity), f, g, TierOf(tables, t));
    }
  }

  lemma {:induction false} InputsEarnedCompose(tables: Tables, prices: Prices, inputs: seq<Material>, runs: real,
      f: nat, g: nat, tier: nat)
    requires Falling(tables) && AllBelow(tables, inputs, tier) && g <= f && runs >= 0.0 &&
             NoInputLoses(tables, prices, inputs, g, f, tier)
    ensures EarnedByInputs(tables, prices, inputs, runs, g, tier) >=
            EarnedByInputs(tables, prices, inputs, runs, f, tier)
    decreases 2 * tier - 1, |inputs|
  {
    hide Needs, NoneLoses, Earned;
    if inputs != [] {
      var rest, last := inputs[..|inputs| - 1], inputs[|inputs| - 1];
      InputsEarnedCompose(tables, prices, rest, runs, f, g, tier);
      NeedsSign(runs, last);
      EarnedComposes(tables, prices, last.typeId, Needs(runs, last), f, g);
    }
  }

  /** When no schematic expanded between two floors loses money, starting from the lower one costs no more. */
  lemma LowerFloorCheaper(tables: Tables, prices: Prices, inputs: seq<Material>, f: nat, g: nat, tier: nat)
    requires Falling(tables) && AllBelow(tables, inputs, tier) && g <= f
    requires NoInputLoses(tables, prices, inputs, g, f, tier)
    ensures FloorCost(tables, prices, inputs, g, tier) <= FloorCost(tables, prices, inputs, f, tier)
  {
    hide FloorCost, EarnedByInputs, NoInputLoses;
    FloorsDiffer(tables, prices, inputs, f, g, tier);
    InputsEarnedCompose(tables, prices, inputs, 1.0, f, g, tier);
  }
}
