/** The resolver itself: a level loop over dictionaries that it updates in place. */
module Resolver {
  import opened Sums
  import opened Recipes
  import opened BuildChain
  import opened ChainDepth
  import opened ChainLaws
  import opened BatchPlan
  import opened StepOrder
  import opened StepOrderLaws

  class BuildStep {
    const typeId: TypeId
    const productQuantity: Quantity
    var quantityNeeded: nat
    var runs: nat
    var materials: map<TypeId, nat>

    constructor (typeId: TypeId, productQuantity: Quantity)
      ensures this.typeId == typeId && this.productQuantity == productQuantity
      ensures quantityNeeded == 0 && runs == 0 && materials == map[]
    {
      this.typeId, this.productQuantity := typeId, productQuantity;
      quantityNeeded, runs, materials := 0, 0, map[];
    }

    ghost function View(): Step
      reads this
    {
      Step(quantityNeeded, runs, productQuantity, materials)
    }
  }

  type Steps = map<TypeId, BuildStep>

  ghost function Views(steps: Steps): map<TypeId, Step>
    reads steps.Values
  {
    map t | t in steps :: steps[t].View()
  }

  /** Each step object sits under its own type and belongs to the given objects. */
  ghost predicate KeyedByType(steps: Steps, objects: set<BuildStep>)
  {
    forall t :: t in steps ==> steps[t].typeId == t && steps[t] in objects
  }

  // ----- What one entry of a level adds -----

  ghost function Bumped(d: map<TypeId, nat>, t: TypeId, amount: nat): map<TypeId, nat>
  {
    d[t := Get(d, t) + amount]
  }

  ghost function WithListed(d: map<TypeId, nat>, ms: seq<Material>, runs: nat): map<TypeId, nat>
  {
    map m | m in d.Keys + ListedTypes(ms) :: Get(d, m) + Times(runs, Listed(ms, m))
  }

  lemma ListedTypesNext(ms: seq<Material>, i: nat)
    requires i < |ms|
    ensures ListedTypes(ms[..i + 1]) == ListedTypes(ms[..i]) + {ms[i].typeId}
  {
    var before, after := ms[..i], ms[..i + 1];
    forall m
      ensures m in ListedTypes(after) <==> m in ListedTypes(before) + {ms[i].typeId}
    {
      if m in ListedTypes(before) {
        var j :| 0 <= j < |before| && before[j].typeId == m;
        assert after[j].typeId == m;
      }
      assert after[i].typeId == ms[i].typeId;
    }
  }

  lemma TakenNext(ms: seq<Material>, i: nat, runs: nat, m: TypeId)
    requires i < |ms|
    ensures Times(runs, Listed(ms[..i + 1], m))
         == Times(runs, Listed(ms[..i], m)) + (if ms[i].typeId == m then Times(runs, ms[i].quantity) else 0)
    ensures m !in ListedTypes(ms[..i]) ==> Times(runs, Listed(ms[..i], m)) == 0
  {
    hide Times;
    assert ms[..i + 1] == ms[..i] + [ms[i]];
    ListedAppend(ms[..i], ms[i], m);
    ListedIffPositive(ms[..i], m);
    TimesPlus(runs, Listed(ms[..i], m), ms[i].quantity);
  }

  lemma WithNextListed(d: map<TypeId, nat>, ms: seq<Material>, i: nat, runs: nat)
    requires i < |ms|
    ensures WithListed(d, ms[..i + 1], runs)
            == Bumped(WithListed(d, ms[..i], runs), ms[i].typeId, Times(runs, ms[i].quantity))
  {
    hide Times, Listed, ListedTypes;
    ListedTypesNext(ms, i);
    forall m
      ensures Get(WithListed(d, ms[..i + 1], runs), m)
           == Get(Bumped(WithListed(d, ms[..i], runs), ms[i].typeId, Times(runs, ms[i].quantity)), m)
    {
      TakenNext(ms, i, runs, m);
    }
    SameEntries(WithListed(d, ms[..i + 1], runs),
        Bumped(WithListed(d, ms[..i], runs), ms[i].typeId, Times(runs, ms[i].quantity)));
  }

  lemma SameEntries(a: map<TypeId, nat>, b: map<TypeId, nat>)
    requires a.Keys == b.Keys && forall m :: Get(a, m) == Get(b, m)
    ensures a == b
  {
    forall m | m in a
      ensures a[m] == b[m]
    {
      assert Get(a, m) == Get(b, m);
    }
  }

  ghost function StepOrNew(q: Query, steps: map<TypeId, Step>, p: TypeId): Step
    requires p in q.recipes
  {
    if p in steps then steps[p] else Step(0, 0, q.recipes[p].outputQuantity, map[])
  }

  ghost function Grown(q: Query, s: Step, p: TypeId, quantity: nat): Step
    requires Builds(q, p)
  {
    var runs := Runs(q, p, quantity);
    Step(s.quantityNeeded + quantity, s.runs + runs, s.productQuantity,
        WithListed(s.materials, MaterialsOf(q, p), runs))
  }

  // ----- What a whole level adds -----

  ghost function StepsWith(q: Query, steps: map<TypeId, Step>, level: map<TypeId, nat>, done: set<TypeId>)
      : map<TypeId, Step>
    requires done <= level.Keys
  {
    map p | p in steps.Keys + (set p | p in done && Builds(q, p)) ::
      if p in done && Builds(q, p) then Grown(q, StepOrNew(q, steps, p), p, level[p]) else steps[p]
  }

  ghost function RawWith(q: Query, raw: map<TypeId, nat>, level: map<TypeId, nat>, done: set<TypeId>): map<TypeId, nat>
  {
    map t | t in raw.Keys + (set t | t in done && !Builds(q, t)) ::
      Get(raw, t) + (if t in done && !Builds(q, t) then Get(level, t) else 0)
  }

  ghost function BuildableWith(q: Query, buildable: map<TypeId, bool>, done: set<TypeId>): map<TypeId, bool>
  {
    map t | t in buildable.Keys + (set t | t in done && !Builds(q, t)) ::
      if t in done && !Builds(q, t) then t in q.recipes else buildable[t]
  }

  lemma DemandGrows(q: Query, level: map<TypeId, nat>, done: set<TypeId>, p: TypeId, m: TypeId)
    requires p in level && p !in done
    ensures Get(NextDemand(q, level, done + {p}), m) == Get(NextDemand(q, level, done), m) + Takes(q, level, p, m)
  {
    hide Takes, NextDemand;
    DemandOutside(q, level, done, m);
    DemandOutside(q, level, done + {p}, m);
    SumInsert(done, p, x => Takes(q, level, x, m));
  }

  lemma NextTypesGrow(q: Query, done: set<TypeId>, p: TypeId)
    ensures NextTypes(q, done + {p}) == NextTypes(q, done) + ConsumedBy(q, p)
  {
    hide ConsumedBy;
    forall m
      ensures m in NextTypes(q, done + {p}) <==> m in NextTypes(q, done) + ConsumedBy(q, p)
    {
      if m in ConsumedBy(q, p) {
        assert p in done + {p};
      }
    }
  }

  lemma OneMoreConsumer(q: Query, level: map<TypeId, nat>, done: set<TypeId>, p: TypeId)
    requires p in level && p !in done
    ensures Builds(q, p) ==>
              NextDemand(q, level, done + {p})
                  == WithListed(NextDemand(q, level, done), MaterialsOf(q, p), Runs(q, p, level[p]))
    ensures !Builds(q, p) ==> NextDemand(q, level, done + {p}) == NextDemand(q, level, done)
  {
    hide Runs, MaterialsOf, Listed, ListedTypes, Times, Demanded, NextTypes;
    var before, after := NextDemand(q, level, done), NextDemand(q, level, done + {p});
    NextTypesGrow(q, done, p);
    forall m
      ensures Get(after, m) == Get(before, m) + Takes(q, level, p, m)
      ensures !Builds(q, p) ==> Takes(q, level, p, m) == 0
    {
      DemandGrows(q, level, done, p, m);
      TimesPlus(RunsAt(q, level, p), 0, 0);
    }
    if Builds(q, p) {
      var ms := MaterialsOf(q, p);
      forall m
        ensures m !in ListedTypes(ms) ==> Takes(q, level, p, m) == 0
      {
        ListedIffPositive(ms, m);
        TimesPlus(RunsAt(q, level, p), 0, 0);
      }
      SameEntries(after, WithListed(before, ms, Runs(q, p, level[p])));
    } else {
      SameEntries(after, before);
    }
  }

  lemma StepGrows(q: Query, n: nat, p: TypeId)
    requires Builds(q, p) && p in Level(q, n)
    ensures Grown(q, StepOrNew(q, StepsAfter(q, n), p), p, Level(q, n)[p]) == StepAfter(q, n + 1, p)
  {
    hide Level, Seen, Runs, MaterialsOf, Listed, ListedTypes, Times;
    var was, now := StepOrNew(q, StepsAfter(q, n), p), StepAfter(q, n + 1, p);
    SeenIffPositive(q, n, p);
    var runs, ms := Runs(q, p, Level(q, n)[p]), MaterialsOf(q, p);
    forall m
      ensures Get(was.materials, m) + Times(runs, Listed(ms, m)) == Get(now.materials, m)
      ensures m !in ListedTypes(ms) ==> Listed(ms, m) == 0
    {
      ListedIffPositive(ms, m);
      StepTakesMore(q, n, p, m, runs);
    }
    SameEntries(WithListed(was.materials, ms, runs), now.materials);
  }

  lemma StepTakesMore(q: Query, n: nat, p: TypeId, m: TypeId, runs: nat)
    requires Builds(q, p) && p in Level(q, n) && runs == Runs(q, p, Level(q, n)[p])
    ensures Get(StepOrNew(q, StepsAfter(q, n), p).materials, m) + Times(runs, Listed(MaterialsOf(q, p), m))
         == Get(StepAfter(q, n + 1, p).materials, m)
  {
    hide Level, Seen, Runs, MaterialsOf, Times, Needed, RawBefore;
    ConsumedIffPositive(q, p, m);
    SeenIffPositive(q, n, p);
    TimesPlus(PerRun(q, p, m), TotalRuns(q, n, p), runs);
    TimesPlus(TotalRuns(q, n + 1, p), 0, 0);
    TimesPlus(runs, 0, 0);
  }

  lemma StepStays(q: Query, n: nat, p: TypeId)
    requires p in StepTypes(q, n) && p !in Level(q, n)
    ensures StepAfter(q, n + 1, p) == StepAfter(q, n, p)
  {
    hide Level, Seen, ConsumedBy, PerRun;
  }

  /** Expanding all of level n takes the totals from n to n + 1. */
  lemma StepsAdvance(q: Query, n: nat)
    ensures StepsWith(q, StepsAfter(q, n), Level(q, n), Level(q, n).Keys) == StepsAfter(q, n + 1)
  {
    hide Level, StepAfter, Grown, StepOrNew;
    var level := Level(q, n);
    forall p | p in StepTypes(q, n + 1)
      ensures p in level ==>
              Builds(q, p) && Grown(q, StepOrNew(q, StepsAfter(q, n), p), p, level[p]) == StepAfter(q, n + 1, p)
      ensures p !in level ==> StepAfter(q, n, p) == StepAfter(q, n + 1, p)
    {
      if p in level {
        StepGrows(q, n, p);
      } else {
        StepStays(q, n, p);
      }
    }
  }

  lemma LeavesAdvance(q: Query, n: nat)
    ensures RawWith(q, RawAfter(q, n), Level(q, n), Level(q, n).Keys) == RawAfter(q, n + 1)
    ensures BuildableWith(q, BuildableAfter(q, n), Level(q, n).Keys) == BuildableAfter(q, n + 1)
  {
    hide Level, Builds;
    forall t
      ensures t !in LeafTypes(q, n) && !Builds(q, t) ==> RawBefore(q, n, t) == 0
    {
      SeenIffPositive(q, n, t);
    }
  }

  lemma OneMoreEntry(q: Query, steps: map<TypeId, Step>, level: map<TypeId, nat>, done: set<TypeId>, p: TypeId)
    requires p in level && p !in done && done <= level.Keys
    ensures Builds(q, p) ==>
              var before := StepsWith(q, steps, level, done);
              StepsWith(q, steps, level, done + {p}) == before[p := Grown(q, StepOrNew(q, before, p), p, level[p])]
    ensures !Builds(q, p) ==> StepsWith(q, steps, level, done + {p}) == StepsWith(q, steps, level, done)
  {
    hide Builds, Grown;
  }

  // ----- The loops -----

  /** Charges the materials of `runs` runs to the step and to the next level. */
  method TakeMaterials(step: BuildStep, materials: seq<Material>, runs: nat, next: map<TypeId, nat>)
      returns (next': map<TypeId, nat>)
    modifies step`materials
    ensures step.materials == WithListed(old(step.materials), materials, runs)
    ensures next' == WithListed(next, materials, runs)
  {
    hide WithListed, Times;
    next' := next;
    NothingListed(next, runs);
    NothingListed(step.materials, runs);
    for i := 0 to |materials|
      invariant step.materials == WithListed(old(step.materials), materials[..i], runs)
      invariant next' == WithListed(next, materials[..i], runs)
    {
      var m := materials[i];
      var needed := Times(runs, m.quantity);
      WithNextListed(old(step.materials), materials, i, runs);
      WithNextListed(next, materials, i, runs);
      step.materials := step.materials[m.typeId := Get(step.materials, m.typeId) + needed];
      next' := next'[m.typeId := Get(next', m.typeId) + needed];
    }
    assert materials[..|materials|] == materials;
  }

  /** The step under p, new and empty if there was none. */
  method FindStep(q: Query, p: TypeId, steps: Steps, ghost objects: set<BuildStep>)
    returns (step: BuildStep, steps': Steps, ghost objects': set<BuildStep>)
    requires p in q.recipes && KeyedByType(steps, objects)
    ensures KeyedByType(steps', objects') && fresh(objects' - objects) && objects <= objects'
    ensures p in steps' && steps'[p] == step
    ensures Views(steps') == Views(steps)[p := StepOrNew(q, Views(steps), p)]
  {
    steps', objects' := steps, objects;
    if p !in steps {
      var created := new BuildStep(p, q.recipes[p].outputQuantity);
      steps', objects' := steps[p := created], objects + {created};
    }
    step := steps'[p];
  }

  /** Expands one entry of the level: a new or existing step grows, and the next level's demand with it. */
  method ExpandEntry(q: Query, p: TypeId, quantity: nat, steps: Steps, next: map<TypeId, nat>,
      ghost objects: set<BuildStep>)
    returns (steps': Steps, next': map<TypeId, nat>, ghost objects': set<BuildStep>)
    requires Builds(q, p) && KeyedByType(steps, objects)
    modifies objects
    ensures KeyedByType(steps', objects') && fresh(objects' - objects)
    ensures Views(steps') == old(Views(steps))[p := Grown(q, StepOrNew(q, old(Views(steps)), p), p, quantity)]
    ensures next' == WithListed(next, MaterialsOf(q, p), Runs(q, p, quantity))
  {
    hide WithListed, Runs, MaterialsOf, StepOrNew;
    var additionalRuns := Runs(q, p, quantity);
    var step;
    step, steps', objects' := FindStep(q, p, steps, objects);
    ghost var before := Views(steps');
    step.quantityNeeded := step.quantityNeeded + quantity;
    step.runs := step.runs + additionalRuns;
    next' := TakeMaterials(step, MaterialsOf(q, p), additionalRuns, next);
    assert step.View() == Grown(q, before[p], p, quantity);
    forall t | t in steps' && t != p
      ensures steps'[t].View() == before[t]
    {
      assert steps'[t].typeId != step.typeId;
    }
  }

  /** Expands one level, its entries in any order. */
  method ExpandLevel(q: Query, level: map<TypeId, nat>, steps: Steps, raw: map<TypeId, nat>,
      buildable: map<TypeId, bool>, ghost objects: set<BuildStep>)
    returns (steps': Steps, raw': map<TypeId, nat>, buildable': map<TypeId, bool>, next: map<TypeId, nat>,
        ghost objects': set<BuildStep>)
    requires KeyedByType(steps, objects)
    modifies objects
    ensures KeyedByType(steps', objects') && fresh(objects' - objects)
    ensures Views(steps') == StepsWith(q, old(Views(steps)), level, level.Keys)
    ensures raw' == RawWith(q, raw, level, level.Keys)
    ensures buildable' == BuildableWith(q, buildable, level.Keys)
    ensures next == NextDemand(q, level, level.Keys)
  {
    hide Views, KeyedByType, Grown, StepOrNew, NextDemand, WithListed, Runs, MaterialsOf, StepsWith, RawWith,
        BuildableWith, Listed, ListedTypes;
    steps', raw', buildable', next, objects' := steps, raw, buildable, map[], objects;
    NothingDone(q, old(Views(steps)), raw, buildable, level);
    NoDemandYet(q, level);
    var todo := level.Keys;
    ghost var done: set<TypeId> := {};
    while todo != {}
      invariant done + todo == level.Keys && done !! todo
      invariant KeyedByType(steps', objects') && fresh(objects' - objects)
      invariant Views(steps') == StepsWith(q, old(Views(steps)), level, done)
      invariant raw' == RawWith(q, raw, level, done)
      invariant buildable' == BuildableWith(q, buildable, done)
      invariant next == NextDemand(q, level, done)
      decreases todo
    {
      var t := PickOne(todo);
      OneMoreEntry(q, old(Views(steps)), level, done, t);
      OneMoreLeaf(q, raw, buildable, level, done, t);
      OneMoreConsumer(q, level, done, t);
      if t !in q.recipes || (t != q.target && t !in q.buildSet) {
        raw' := raw'[t := Get(raw', t) + level[t]];
        buildable' := buildable'[t := t in q.recipes];
      } else {
        steps', next, objects' := ExpandEntry(q, t, level[t], steps', next, objects');
      }
      todo, done := todo - {t}, done + {t};
    }
    assert done == level.Keys;
  }

  lemma NothingDone(q: Query, steps: map<TypeId, Step>, raw: map<TypeId, nat>, buildable: map<TypeId, bool>,
      level: map<TypeId, nat>)
    ensures StepsWith(q, steps, level, {}) == steps
    ensures RawWith(q, raw, level, {}) == raw
    ensures BuildableWith(q, buildable, {}) == buildable
  {
  }

  lemma OneMoreLeaf(q: Query, raw: map<TypeId, nat>, buildable: map<TypeId, bool>, level: map<TypeId, nat>,
      done: set<TypeId>, t: TypeId)
    requires t in level && t !in done
    ensures RawWith(q, raw, level, done + {t})
         == if Builds(q, t) then RawWith(q, raw, level, done)
            else RawWith(q, raw, level, done)[t := Get(RawWith(q, raw, level, done), t) + level[t]]
    ensures BuildableWith(q, buildable, done + {t})
         == if Builds(q, t) then BuildableWith(q, buildable, done)
             else BuildableWith(q, buildable, done)[t := t in q.recipes]
  {
    hide Builds;
  }

  lemma NoDemandYet(q: Query, level: map<TypeId, nat>)
    ensures NextDemand(q, level, {}) == map[]
  {
    hide ConsumedBy;
  }

  lemma NothingListed(d: map<TypeId, nat>, runs: nat)
    ensures WithListed(d, [], runs) == d
  {
  }

  ghost function RawWithCut(raw: map<TypeId, nat>, left: map<TypeId, nat>, done: set<TypeId>): map<TypeId, nat>
  {
    map t | t in raw.Keys + done :: Get(raw, t) + (if t in done then Get(left, t) else 0)
  }

  ghost function BuildableWithCut(buildable: map<TypeId, bool>, done: set<TypeId>): map<TypeId, bool>
  {
    map t | t in buildable.Keys + done :: t in buildable && buildable[t]
  }

  /** Counts what the depth limit left unexpanded as raw. */
  method CutOff(left: map<TypeId, nat>, raw: map<TypeId, nat>, buildable: map<TypeId, bool>)
    returns (raw': map<TypeId, nat>, buildable': map<TypeId, bool>)
    ensures raw' == RawWithCut(raw, left, left.Keys)
    ensures buildable' == BuildableWithCut(buildable, left.Keys)
  {
    hide RawWithCut, BuildableWithCut;
    raw', buildable' := raw, buildable;
    NothingCutYet(raw, left, buildable);
    var todo := left.Keys;
    ghost var done: set<TypeId> := {};
    while todo != {}
      invariant done + todo == left.Keys && done !! todo
      invariant raw' == RawWithCut(raw, left, done)
      invariant buildable' == BuildableWithCut(buildable, done)
      decreases todo
    {
      var t := PickOne(todo);
      OneMoreCut(raw, left, done, t);
      OneMoreCutFlag(buildable, done, t);
      raw' := raw'[t := Get(raw', t) + left[t]];
      if t !in buildable' {
        buildable' := buildable'[t := false];
      }
      todo, done := todo - {t}, done + {t};
    }
    assert done == left.Keys;
  }

  lemma NothingCutYet(raw: map<TypeId, nat>, left: map<TypeId, nat>, buildable: map<TypeId, bool>)
    ensures RawWithCut(raw, left, {}) == raw
    ensures BuildableWithCut(buildable, {}) == buildable
  {
  }

  lemma OneMoreCut(raw: map<TypeId, nat>, left: map<TypeId, nat>, done: set<TypeId>, t: TypeId)
    requires t in left && t !in done
    ensures RawWithCut(raw, left, done + {t})
            == RawWithCut(raw, left, done)[t := Get(RawWithCut(raw, left, done), t) + left[t]]
  {
  }

  lemma OneMoreCutFlag(buildable: map<TypeId, bool>, done: set<TypeId>, t: TypeId)
    requires t !in done
    ensures var before := BuildableWithCut(buildable, done);
            BuildableWithCut(buildable, done + {t}) == if t in before then before else before[t := false]
  {
  }

  /** The level loop. */
  method RunLevels(q: Query, d: nat)
    returns (steps: Steps, raw: map<TypeId, nat>, buildable: map<TypeId, bool>)
    ensures (forall t :: t in steps ==> steps[t].typeId == t) && Views(steps) == Resolve(q, d).steps
    ensures raw == Resolve(q, d).raw
    ensures buildable == Resolve(q, d).buildable
  {
    hide Level, NextDemand, StepsWith, RawWith, BuildableWith, StepsAfter, RawAfter, BuildableAfter;
    steps, raw, buildable := map[], map[], map[];
    var level: map<TypeId, nat> := map[q.target := q.quantity];
    var depth := 0;
    ghost var objects: set<BuildStep> := {};
    AtTheStart(q);
    while level != map[] && depth < d
      invariant depth <= d
      invariant level == Level(q, depth)
      invariant KeyedByType(steps, objects) && fresh(objects)
      invariant Views(steps) == StepsAfter(q, depth)
      invariant raw == RawAfter(q, depth) && buildable == BuildableAfter(q, depth)
    {
      StepsAdvance(q, depth);
      LeavesAdvance(q, depth);
      NextLevelIs(q, depth);
      steps, raw, buildable, level, objects := ExpandLevel(q, level, steps, raw, buildable, objects);
      depth := depth + 1;
    }
    LoopDone(q, depth, d);
    raw, buildable := CutOff(level, raw, buildable);
    CutIs(q, d);
  }

  lemma CutIs(q: Query, d: nat)
    ensures RawWithCut(RawAfter(q, d), Level(q, d), Level(q, d).Keys) == Resolve(q, d).raw
    ensures BuildableWithCut(BuildableAfter(q, d), Level(q, d).Keys) == Resolve(q, d).buildable
  {
    hide Level, LeafTypes, StepsAfter, RawBefore;
    assert Resolve(q, d).raw.Keys == LeafTypes(q, d) + Level(q, d).Keys;
  }

  function TypeIds(steps: seq<BuildStep>): seq<TypeId>
  {
    seq(|steps|, i requires 0 <= i < |steps| => steps[i].typeId)
  }

  function InOrder(steps: Steps, ids: seq<TypeId>): seq<BuildStep>
    requires forall i :: 0 <= i < |ids| ==> ids[i] in steps
  {
    seq(|ids|, i requires 0 <= i < |ids| => steps[ids[i]])
  }

  lemma OrderFits(q: Query, d: nat, ids: seq<TypeId>)
    requires NoRepeats(ids) && MaterialsBefore(StepGraph(q, d), ids)
    requires forall t :: t in ids <==> t in StepGraph(q, d) && Reaches(StepGraph(q, d), q.target, t)
    ensures forall t :: t in ids <==> t in StepTypes(q, d)
    ensures forall i :: 0 <= i < |ids| ==> ids[i] in StepTypes(q, d)
    ensures DepthFits(q, d) ==> ConsumersFirst(q, Reversed(ids))
    ensures BuildOrder(StepGraph(q, d), ids) <==> Acyclic(StepGraph(q, d))
  {
    hide Seen, ConsumedBy, DepthFits, Reaches, MaterialsBefore, ConsumersFirst, BuildOrder, Acyclic;
    forall t | t in StepTypes(q, d)
      ensures Reaches(StepGraph(q, d), q.target, t)
    {
      EveryStepReached(q, d, t);
    }
    BuildOrderIffAcyclic(StepGraph(q, d), ids);
    if DepthFits(q, d) {
      BackwardsIsConsumersFirst(q, d, ids);
    }
  }

  /** Orders the steps of a finished level loop. */
  method OrderSteps(q: Query, d: nat, steps: Steps) returns (ordered: seq<BuildStep>)
    requires (forall t :: t in steps ==> steps[t].typeId == t) && Views(steps) == Resolve(q, d).steps
    ensures forall i :: 0 <= i < |ordered| ==> ordered[i].typeId in steps && steps[ordered[i].typeId] == ordered[i]
    ensures NoRepeats(TypeIds(ordered)) && forall t :: t in TypeIds(ordered) <==> t in steps
    ensures BuildOrder(StepGraph(q, d), TypeIds(ordered)) <==> Acyclic(StepGraph(q, d))
    ensures DepthFits(q, d) ==> ConsumersFirst(q, Reversed(TypeIds(ordered)))
  {
    hide StepTypes, ConsumedBy, DepthFits, Reaches, StepAfter, MaterialsBefore, ConsumersFirst, NoRepeats, BuildOrder,
        Acyclic;
    var graph := map t | t in steps :: steps[t].materials.Keys;
    GraphIs(q, d, Views(steps), graph);
    var ids := TopologicalOrder(q.target, graph);
    OrderFits(q, d, ids);
    assert steps.Keys == Views(steps).Keys == StepTypes(q, d);
    ordered := InOrder(steps, ids);
    assert TypeIds(ordered) == ids;
  }

  /** The resolver for any depth limit d: its dictionaries are those of the level-by-level account, its steps
      come in an order that drops none and is one to build in exactly when no step depends on itself. */
  method ResolveToDepth(q: Query, d: nat)
    returns (steps: Steps, raw: map<TypeId, nat>, buildable: map<TypeId, bool>, ordered: seq<BuildStep>)
    ensures Views(steps) == Resolve(q, d).steps
    ensures raw == Resolve(q, d).raw
    ensures buildable == Resolve(q, d).buildable
    ensures forall t :: t in steps ==> TakesItsRecipe(q, t, steps[t].runs, steps[t].materials)
    ensures forall i :: 0 <= i < |ordered| ==> ordered[i].typeId in steps && steps[ordered[i].typeId] == ordered[i]
    ensures NoRepeats(TypeIds(ordered)) && forall t :: t in TypeIds(ordered) <==> t in steps
    ensures BuildOrder(StepGraph(q, d), TypeIds(ordered)) <==> Acyclic(StepGraph(q, d))
    ensures DepthFits(q, d) ==>
            ConsumersFirst(q, Reversed(TypeIds(ordered))) && BetweenPlans(q, d, raw, TypeIds(ordered))
  {
    hide Resolve, DepthFits, ConsumersFirst, BuildOrder, Acyclic, StepGraph, BetweenPlans, TypeIds, TakesItsRecipe;
    steps, raw, buildable := RunLevels(q, d);
    forall t | t in steps
      ensures TakesItsRecipe(q, t, steps[t].runs, steps[t].materials)
    {
      assert steps[t].View() == Resolve(q, d).steps[t];
      StepTakesItsRecipe(q, d, t);
    }
    ordered := OrderSteps(q, d, steps);
    if DepthFits(q, d) {
      assert steps.Keys == Views(steps).Keys;
      OwnOrderSandwiches(q, d, TypeIds(ordered));
    }
  }

  lemma AtTheStart(q: Query)
    ensures Level(q, 0) == map[q.target := q.quantity]
    ensures StepsAfter(q, 0) == map[] && RawAfter(q, 0) == map[] && BuildableAfter(q, 0) == map[]
  {
  }

  lemma NextLevelIs(q: Query, n: nat)
    ensures Level(q, n + 1) == NextDemand(q, Level(q, n), Level(q, n).Keys)
  {
  }

  lemma GraphIs(q: Query, d: nat, views: map<TypeId, Step>, graph: Graph)
    requires views == Resolve(q, d).steps && graph.Keys == views.Keys
    requires forall t :: t in graph ==> graph[t] == views[t].materials.Keys
    ensures graph == StepGraph(q, d)
  {
    hide Seen, ConsumedBy;
    forall t | t in graph
      ensures graph[t] == ConsumedBy(q, t)
    {
      assert views[t] == StepAfter(q, d, t);
    }
  }

  /** Stopping early at an empty level leaves the same totals as running to the limit. */
  lemma LoopDone(q: Query, n: nat, d: nat)
    requires n <= d && (Level(q, n) == map[] || n == d)
    ensures StepsAfter(q, n) == StepsAfter(q, d)
    ensures RawAfter(q, n) == RawAfter(q, d) && BuildableAfter(q, n) == BuildableAfter(q, d)
    ensures Level(q, n) == Level(q, d)
  {
    hide Level, Seen, Needed, TotalRuns, RawBefore, ConsumedBy, PerRun;
    if n < d {
      EmptyLevelStays(q, n, d);
      forall t
        ensures Needed(q, n, t) == Needed(q, d, t) && TotalRuns(q, n, t) == TotalRuns(q, d, t)
        ensures RawBefore(q, n, t) == RawBefore(q, d, t) && Seen(q, n) == Seen(q, d)
      {
        TotalsSettle(q, n, d, t);
      }
      TotalsSettle(q, n, d, q.target);
      forall t | t in StepTypes(q, n)
        ensures StepAfter(q, n, t) == StepAfter(q, d, t)
      {
        forall m
          ensures Taken(q, n, t, m) == Taken(q, d, t, m)
        {
        }
      }
    }
  }

  /** The resolver as the application calls it. */
  method ResolveBuildChain(q: Query)
    returns (steps: Steps, raw: map<TypeId, nat>, buildable: map<TypeId, bool>, ordered: seq<BuildStep>)
    ensures Views(steps) == Resolve(q, MAX_DEPTH).steps
    ensures raw == Resolve(q, MAX_DEPTH).raw
    ensures MAX_DEPTH == 15 && buildable == Resolve(q, MAX_DEPTH).buildable
    ensures forall t :: t in steps ==> TakesItsRecipe(q, t, steps[t].runs, steps[t].materials)
    ensures forall i :: 0 <= i < |ordered| ==> ordered[i].typeId in steps && steps[ordered[i].typeId] == ordered[i]
    ensures NoRepeats(TypeIds(ordered)) && forall t :: t in TypeIds(ordered) <==> t in steps
    ensures BuildOrder(StepGraph(q, MAX_DEPTH), TypeIds(ordered)) <==> Acyclic(StepGraph(q, MAX_DEPTH))
    ensures DepthFits(q, MAX_DEPTH) ==>
            ConsumersFirst(q, Reversed(TypeIds(ordered))) && BetweenPlans(q, MAX_DEPTH, raw, TypeIds(ordered))
  {
    hide Resolve, DepthFits, ConsumersFirst, BuildOrder, Acyclic, StepGraph, BetweenPlans, TakesItsRecipe;
    steps, raw, buildable, ordered := ResolveToDepth(q, MAX_DEPTH);
  }
}
