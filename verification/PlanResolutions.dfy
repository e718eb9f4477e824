/** A plan's jobs resolved together, and what the plan-wide Build/Buy toggle does to them. */
module PlanResolutions {
  import opened Sums
  import opened Recipes
  import opened BuildChain
  import opened ChainDepth
  import opened PlanJobs

  // ----- Jobs as queries -----

  /** What one job asks of the resolver; the efficiency is that of its linked blueprint. */
  function JobQuery(recipes: map<TypeId, Recipe>, job: Job, materialEfficiency: int, structureBonus: real): (q: Query)
    requires job.targetQuantity >= 1
    ensures q.recipes == recipes && q.target == job.targetTypeId && q.quantity == job.targetQuantity
    ensures q.materialEfficiency == materialEfficiency && q.structureBonus == structureBonus
    ensures forall i :: 0 <= i < |job.buildSet| ==> job.buildSet[i] in q.buildSet
  {
    Query(recipes, job.targetTypeId, job.targetQuantity, Members(job.buildSet), materialEfficiency, structureBonus)
  }

  function WithChoice(q: Query, x: TypeId, build: bool): Query
  {
    q.(buildSet := if build then q.buildSet + {x} else q.buildSet - {x})
  }

  /** Toggling a job is toggling the query it stands for. */
  lemma ToggleIsChoice(recipes: map<TypeId, Recipe>, job: Job, me: int, bonus: real, x: TypeId, build: bool)
    requires job.targetQuantity >= 1
    ensures JobQuery(recipes, Toggled(job, x, build), me, bonus)
            == WithChoice(JobQuery(recipes, job, me, bonus), x, build)
  {
    hide Toggled;
    forall y
      ensures y in Members(Toggled(job, x, build).buildSet) <==> if y == x then build else y in Members(job.buildSet)
    {
      ToggledIs(job, x, build, y);
      HasIsMember(job.buildSet, y);
      HasIsMember(Toggled(job, x, build).buildSet, y);
    }
    assert Members(Toggled(job, x, build).buildSet)
        == if build then Members(job.buildSet) + {x} else Members(job.buildSet) - {x};
    SameShape(job, x, build);
  }

  lemma HasIsMember(s: seq<int>, y: int)
    ensures y in Members(s) <==> Has(s, y)
  {
  }

  lemma SameShape(job: Job, x: TypeId, build: bool)
    ensures Toggled(job, x, build).(buildSet := job.buildSet) == job
  {
  }

  // ----- Plan-wide status -----

  datatype BulkStatus = Build | Buy | Mixed

  predicate BuiltSomewhere(t: TypeId, rs: seq<Resolution>) { exists k :: 0 <= k < |rs| && t in rs[k].steps }

  predicate BoughtSomewhere(t: TypeId, rs: seq<Resolution>) { exists k :: 0 <= k < |rs| && t in rs[k].raw }

  function MaterialBulkStatus(t: TypeId, rs: seq<Resolution>): BulkStatus
  {
    var built, bought := BuiltSomewhere(t, rs), BoughtSomewhere(t, rs);
    if built && bought then Mixed else if built then Build else Buy
  }

  ghost function Resolved(qs: seq<Query>, d: nat): (rs: seq<Resolution>)
    ensures |rs| == |qs| && forall k :: 0 <= k < |qs| ==> rs[k] == Resolve(qs[k], d)
  {
    seq(|qs|, k requires 0 <= k < |qs| => Resolve(qs[k], d))
  }

  function AllWithChoice(qs: seq<Query>, x: TypeId, build: bool): (r: seq<Query>)
    ensures |r| == |qs| && forall k :: 0 <= k < |qs| ==> r[k] == WithChoice(qs[k], x, build)
  {
    seq(|qs|, k requires 0 <= k < |qs| => WithChoice(qs[k], x, build))
  }

  /** All jobs of a plan share the recipes. */
  ghost predicate OneCatalogue(qs: seq<Query>)
  {
    forall j, k :: 0 <= j < |qs| && 0 <= k < |qs| ==> qs[j].recipes == qs[k].recipes
  }

  ghost predicate CutSomewhere(x: TypeId, qs: seq<Query>, d: nat) { exists k :: 0 <= k < |qs| && x in Level(qs[k], d) }

  /** Chosen to build, with a recipe: a job buys it exactly when the depth cut left some over. */
  lemma ChosenToBuild(q: Query, d: nat, x: TypeId)
    requires x in q.buildSet && x in q.recipes
    ensures x in Resolve(q, d).raw <==> x in Level(q, d)
  {
    hide Level, Seen;
    CutIsTheOverlap(q, d, x);
  }

  lemma BuiltHasRecipe(q: Query, d: nat, x: TypeId)
    requires x in Resolve(q, d).steps
    ensures x in q.recipes && (x == q.target || x in q.buildSet)
  {
    hide Level, Seen;
  }

  /** After the plan-wide Build toggle a material is mixed exactly when some job builds it and the depth cut left
      some of it over in a job. */
  lemma MixedAfterBuild(qs: seq<Query>, d: nat, x: TypeId)
    requires OneCatalogue(qs)
    ensures var qs' := AllWithChoice(qs, x, true);
            MaterialBulkStatus(x, Resolved(qs', d)) == Mixed <==>
                BuiltSomewhere(x, Resolved(qs', d)) && CutSomewhere(x, qs', d)
  {
    hide Resolve, Level;
    var qs' := AllWithChoice(qs, x, true);
    var rs := Resolved(qs', d);
    if BuiltSomewhere(x, rs) {
      var j :| 0 <= j < |rs| && x in rs[j].steps;
      BuiltHasRecipe(qs'[j], d, x);
      forall k | 0 <= k < |rs|
        ensures x in rs[k].raw <==> x in Level(qs'[k], d)
      {
        assert qs'[k].recipes == qs[k].recipes == qs[j].recipes;
        ChosenToBuild(qs'[k], d, x);
      }
    }
  }

  /** So with recipes that fit the depth limit it is never mixed. */
  lemma NotMixedAfterBuild(qs: seq<Query>, d: nat, x: TypeId)
    requires OneCatalogue(qs)
    requires forall k :: 0 <= k < |qs| ==> DepthFits(WithChoice(qs[k], x, true), d)
    ensures MaterialBulkStatus(x, Resolved(AllWithChoice(qs, x, true), d)) != Mixed
  {
    hide Resolve, Level, DepthFits;
    MixedAfterBuild(qs, d, x);
    forall k | 0 <= k < |qs|
      ensures x !in Level(WithChoice(qs[k], x, true), d)
    {
      LoopEndsByItself(WithChoice(qs[k], x, true), d);
    }
  }

  /** Chosen to buy: a job builds it exactly when it is the job's own target and has a recipe. */
  lemma ChosenToBuy(q: Query, d: nat, x: TypeId)
    requires x !in q.buildSet && d > 0
    ensures x in Resolve(q, d).steps <==> x == q.target && x in q.recipes
  {
    hide NextDemand;
    if x == q.target && x in q.recipes {
      LevelIsSeen(q, 0, d, q.target);
    }
  }

  lemma BuiltAfterBuy(qs: seq<Query>, d: nat, x: TypeId)
    requires d > 0
    ensures var rs := Resolved(AllWithChoice(qs, x, false), d);
            (exists k :: 0 <= k < |rs| && x in rs[k].steps) <==>
            (exists k :: 0 <= k < |qs| && qs[k].target == x && x in qs[k].recipes)
  {
    hide Resolve;
    var qs' := AllWithChoice(qs, x, false);
    var rs := Resolved(qs', d);
    forall k | 0 <= k < |qs|
      ensures x in rs[k].steps <==> qs[k].target == x && x in qs[k].recipes
    {
      ChosenToBuy(qs'[k], d, x);
    }
    if k :| 0 <= k < |qs| && qs[k].target == x && x in qs[k].recipes {
      assert x in rs[k].steps;
    }
  }

  /** After the plan-wide Buy toggle a material is mixed exactly when it is some job's own target, with a recipe,
      and some job buys it. */
  lemma MixedAfterBuy(qs: seq<Query>, d: nat, x: TypeId)
    requires d > 0
    ensures var rs := Resolved(AllWithChoice(qs, x, false), d);
            MaterialBulkStatus(x, rs) == Mixed <==>
              (exists k :: 0 <= k < |qs| && qs[k].target == x && x in qs[k].recipes) && BoughtSomewhere(x, rs)
  {
    hide Resolve, AllWithChoice;
    BuiltAfterBuy(qs, d, x);
    StatusIs(x, Resolved(AllWithChoice(qs, x, false), d));
  }

  // ----- From the stored jobs -----

  /** What a job is resolved with beside its own fields: its blueprint's efficiency and its structure's bonus. */
  datatype Discount = Discount(materialEfficiency: int, structureBonus: real)

  ghost predicate Resolvable(jobs: seq<Job>, discounts: seq<Discount>)
  {
    |discounts| == |jobs| && forall k :: 0 <= k < |jobs| ==> jobs[k].targetQuantity >= 1
  }

  ghost function JobQueries(recipes: map<TypeId, Recipe>, jobs: seq<Job>, discounts: seq<Discount>): (qs: seq<Query>)
    requires Resolvable(jobs, discounts)
    ensures |qs| == |jobs|
    ensures forall k :: 0 <= k < |jobs| ==>
            qs[k] == JobQuery(recipes, jobs[k], discounts[k].materialEfficiency, discounts[k].structureBonus)
  {
    seq(|jobs|, k requires 0 <= k < |jobs| =>
      JobQuery(recipes, jobs[k], discounts[k].materialEfficiency, discounts[k].structureBonus))
  }

  /** Toggling all stored jobs makes that choice in every query. */
  lemma BulkToggleIsChoice(recipes: map<TypeId, Recipe>, jobs: seq<Job>, discounts: seq<Discount>, x: TypeId,
      build: bool)
    requires Resolvable(jobs, discounts)
    ensures Resolvable(ToggleAll(jobs, x, build), discounts)
    ensures JobQueries(recipes, ToggleAll(jobs, x, build), discounts)
            == AllWithChoice(JobQueries(recipes, jobs, discounts), x, build)
  {
    hide Toggled, JobQuery, WithChoice;
    forall k | 0 <= k < |jobs|
      ensures Toggled(jobs[k], x, build).targetQuantity >= 1
      ensures var me, bonus := discounts[k].materialEfficiency, discounts[k].structureBonus;
              JobQuery(recipes, Toggled(jobs[k], x, build), me, bonus)
                  == WithChoice(JobQuery(recipes, jobs[k], me, bonus), x, build)
    {
      SameShape(jobs[k], x, build);
      ToggleIsChoice(recipes, jobs[k], discounts[k].materialEfficiency, discounts[k].structureBonus, x, build);
    }
  }

  lemma StatusIs(x: TypeId, rs: seq<Resolution>)
    ensures MaterialBulkStatus(x, rs) == Build <==>
              (exists k :: 0 <= k < |rs| && x in rs[k].steps) && (forall k :: 0 <= k < |rs| ==> x !in rs[k].raw)
    ensures MaterialBulkStatus(x, rs) == Buy <==> forall k :: 0 <= k < |rs| ==> x !in rs[k].steps
    ensures MaterialBulkStatus(x, rs) == Mixed <==>
              (exists k :: 0 <= k < |rs| && x in rs[k].steps) && (exists k :: 0 <= k < |rs| && x in rs[k].raw)
  {
  }

  /** The plan page after the toggle for all jobs. After Build, when the toggled jobs fit the depth limit: Build if
      some job builds the type, else Buy, never mixed. After Buy: Buy unless the type is the target of a job and has
      a recipe, and then mixed or Build according to whether some job buys it. */
  lemma BulkToggleStatus(recipes: map<TypeId, Recipe>, jobs: seq<Job>, discounts: seq<Discount>, x: TypeId,
      build: bool, d: nat)
    requires Resolvable(jobs, discounts) && d > 0
    ensures Resolvable(ToggleAll(jobs, x, build), discounts)
    ensures var qs := JobQueries(recipes, ToggleAll(jobs, x, build), discounts);
            var rs := Resolved(qs, d);
            var status := MaterialBulkStatus(x, rs);
            var built, bought := exists k :: 0 <= k < |rs| && x in rs[k].steps, exists k ::
                0 <= k < |rs| && x in rs[k].raw;
            var wanted := x in recipes && exists k :: 0 <= k < |jobs| && jobs[k].targetTypeId == x;
            && (build && (forall k :: 0 <= k < |qs| ==> DepthFits(qs[k], d)) ==> status == if built then Build else Buy)
            && (!build ==> status == if !wanted then Buy else if bought then Mixed else Build)
  {
    hide Resolve, DepthFits, MaterialBulkStatus, ToggleAll, WithChoice;
    BulkToggleIsChoice(recipes, jobs, discounts, x, build);
    var qs := JobQueries(recipes, jobs, discounts);
    StatusIs(x, Resolved(AllWithChoice(qs, x, build), d));
    if build {
      if forall k :: 0 <= k < |qs| ==> DepthFits(AllWithChoice(qs, x, true)[k], d) {
        forall k | 0 <= k < |qs|
          ensures DepthFits(WithChoice(qs[k], x, true), d)
        {
          assert AllWithChoice(qs, x, true)[k] == WithChoice(qs[k], x, true);
        }
        NotMixedAfterBuild(qs, d, x);
      }
    } else {
      BuiltAfterBuy(qs, d, x);
      if k :| 0 <= k < |jobs| && jobs[k].targetTypeId == x {
        assert qs[k].target == x;
      }
      if k :| 0 <= k < |qs| && qs[k].target == x {
        assert jobs[k].targetTypeId == x;
      }
    }
  }

  // ----- Does one job's flag speak for all? -----

  /** The job buys t, and some expansion path reaches it with fewer than d edges, before the cut. */
  ghost predicate MetEarly(q: Query, d: nat, t: TypeId)
  {
    !Builds(q, t) && exists path :: ExpansionPath(q, path) && |path| <= d && path[|path| - 1] == t
  }

  lemma FlagIs(q: Query, d: nat, t: TypeId)
    requires t in Resolve(q, d).raw
    ensures Resolve(q, d).buildable[t] <==> t in q.recipes && MetEarly(q, d, t)
  {
    hide Level, Seen, Builds, ConsumedBy;
    if t in Seen(q, d) {
      var k := FirstMeeting(q, t, d);
      var path := LevelHasPath(q, k, t);
      assert path[|path| - 1] == t;
    }
    if path :| ExpansionPath(q, path) && |path| <= d && path[|path| - 1] == t {
      PathHasLevel(q, path);
      LevelIsSeen(q, |path| - 1, d, t);
    }
  }

  /** Two jobs that buy t flag it alike exactly when it has no recipe, or when both jobs or neither of them
      meet it as a bought type before the depth cut. */
  lemma FlagsAgreeIff(q: Query, q': Query, d: nat, t: TypeId)
    requires q.recipes == q'.recipes
    requires t in Resolve(q, d).raw && t in Resolve(q', d).raw
    ensures Resolve(q, d).buildable[t] == Resolve(q', d).buildable[t]
       <==> t !in q.recipes || (MetEarly(q, d, t) <==> MetEarly(q', d, t))
  {
    hide Resolve, MetEarly;
    FlagIs(q, d, t);
    FlagIs(q', d, t);
  }

  lemma FittingIsMetEarly(q: Query, d: nat, t: TypeId)
    requires DepthFits(q, d) && t in Resolve(q, d).raw && t in q.recipes
    ensures MetEarly(q, d, t)
  {
    hide Resolve, DepthFits, MetEarly;
    DepthAdequacy(q, d);
    FlagIs(q, d, t);
  }

  /** So within the depth limit the flag depends on the type alone. */
  lemma FlagsAgree(q: Query, q': Query, d: nat, t: TypeId)
    requires q.recipes == q'.recipes && DepthFits(q, d) && DepthFits(q', d)
    requires t in Resolve(q, d).raw && t in Resolve(q', d).raw
    ensures Resolve(q, d).buildable[t] == Resolve(q', d).buildable[t]
  {
    hide Resolve, DepthFits, MetEarly;
    if t in q.recipes {
      FittingIsMetEarly(q, d, t);
      FittingIsMetEarly(q', d, t);
    }
    FlagsAgreeIff(q, q', d, t);
  }

  /** A chain of recipes 0 <- 1 <- ... <- n, one unit each. */
  function Chain(n: nat): map<TypeId, Recipe>
  {
    (if n == 0 then map[] else Chain(n - 1))[n := Recipe(1, [Material(n + 1, 1)])]
  }

  function UpTo(n: nat): set<TypeId> { if n == 0 then {} else UpTo(n - 1) + {n - 1} }

  /** The job that starts at `first` and builds everything on the chain below n. */
  function ChainJob(first: nat, n: nat): Query { Query(Chain(n), first, 1, UpTo(n), 0, 0.0) }

  lemma {:induction false} ChainIs(n: nat, t: nat)
    ensures t in Chain(n) <==> t <= n
    ensures t <= n ==> Chain(n)[t] == Recipe(1, [Material(t + 1, 1)])
    ensures t in UpTo(n) <==> t < n
  {
    if n > 0 {
      ChainIs(n - 1, t);
    }
  }

  lemma ChainStep(first: nat, n: nat, p: nat)
    requires first <= p < n
    ensures var q := ChainJob(first, n);
            Builds(q, p) && ConsumedBy(q, p) == {p + 1} && PerRun(q, p, p + 1) == 1 && Runs(q, p, 1) == 1
    ensures first < n ==> !Builds(ChainJob(first, n), n) && n in ChainJob(first, n).recipes
  {
    ChainIs(n, p);
    ChainIs(n, n);
    var q := ChainJob(first, n);
    var ms := MaterialsOf(q, p);
    assert ms == [Material(p + 1, 1)];
    assert ms[0].typeId == p + 1;
    assert ListedTypes(ms) == {p + 1};
    assert Listed(ms[1..], p + 1) == 0;
  }

  lemma {:induction false} ChainLevel(first: nat, n: nat, k: nat)
    requires first + k <= n
    ensures Level(ChainJob(first, n), k) == map[first + k := 1]
  {
    hide Runs, PerRun, ConsumedBy, Builds, Chain, UpTo;
    if k > 0 {
      var q, p := ChainJob(first, n), first + k - 1;
      ChainLevel(first, n, k - 1);
      ChainStep(first, n, p);
      var level := Level(q, k - 1);
      assert level.Keys == {p};
      assert NextTypes(q, {p}) == {p + 1};
      SumSingle({p}, p, x => Takes(q, level, x, p + 1));
    }
  }

  lemma {:induction false} ChainSeen(first: nat, n: nat, k: nat, t: TypeId)
    requires first + k <= n
    ensures t in Seen(ChainJob(first, n), k) <==> first <= t < first + k
  {
    hide Level, ChainJob;
    if k > 0 {
      ChainSeen(first, n, k - 1, t);
      ChainLevel(first, n, k - 1);
    }
  }

  /** Past the limit it need not: one job reaches type d only at the cut and flags it as not buildable, another
      meets it as a leaf and flags it as buildable. */
  lemma FlagsCanDiffer(d: nat)
    requires d >= 2
    ensures var q, q' := ChainJob(0, d), ChainJob(d - 1, d);
            && q.recipes == q'.recipes
            && d in Resolve(q, d).raw && !Resolve(q, d).buildable[d]
            && d in Resolve(q', d).raw && Resolve(q', d).buildable[d]
  {
    hide Level, Seen, Builds;
    var q, q' := ChainJob(0, d), ChainJob(d - 1, d);
    ChainLevel(0, d, d);
    ChainSeen(0, d, d, d);
    ChainLevel(d - 1, d, 1);
    LevelIsSeen(q', 1, d, d);
    ChainStep(d - 1, d, d - 1);
  }
}
