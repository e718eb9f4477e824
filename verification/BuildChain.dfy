/** What the resolver computes, stated level by level, and what one level does to demand. */
module BuildChain {
  import opened Sums
  import opened Recipes

  const MAX_DEPTH: nat := 15

  function Get(d: map<TypeId, nat>, t: TypeId): nat { if t in d then d[t] else 0 }

  // ----- One level -----

  function RunsAt(q: Query, level: map<TypeId, nat>, p: TypeId): nat
  {
    if p in level && Builds(q, p) then Runs(q, p, level[p]) else 0
  }

  /** How much of m expanding p on this level takes. */
  function Takes(q: Query, level: map<TypeId, nat>, p: TypeId, m: TypeId): nat
  {
    Times(RunsAt(q, level, p), PerRun(q, p, m))
  }

  function NextTypes(q: Query, types: set<TypeId>): set<TypeId>
  {
    set p, m | p in types && m in ConsumedBy(q, p) :: m
  }

  /** The demand that expanding the types `done` of a level puts on the next level. */
  ghost function NextDemand(q: Query, level: map<TypeId, nat>, done: set<TypeId>): map<TypeId, nat>
  {
    map m | m in NextTypes(q, done) :: Demanded(q, level, done, m)
  }

  ghost function Demanded(q: Query, level: map<TypeId, nat>, done: set<TypeId>, m: TypeId): nat
  {
    SumNonNegative(done, p => Takes(q, level, p, m));
    Sum(done, p => Takes(q, level, p, m))
  }

  /** The demand of each level: the target alone, then what the level above consumes. */
  ghost function Level(q: Query, n: nat): map<TypeId, nat>
  {
    if n == 0 then map[q.target := q.quantity]
    else NextDemand(q, Level(q, n - 1), Level(q, n - 1).Keys)
  }

  ghost function QtyAt(q: Query, n: nat, t: TypeId): nat { Get(Level(q, n), t) }

  // ----- Totals over the first n levels -----

  ghost function Needed(q: Query, n: nat, t: TypeId): nat
  {
    if n == 0 then 0 else Needed(q, n - 1, t) + (if Builds(q, t) then QtyAt(q, n - 1, t) else 0)
  }

  ghost function TotalRuns(q: Query, n: nat, t: TypeId): nat
  {
    if n == 0 then 0 else TotalRuns(q, n - 1, t) + RunsAt(q, Level(q, n - 1), t)
  }

  ghost function RawBefore(q: Query, n: nat, t: TypeId): nat
  {
    if n == 0 then 0 else RawBefore(q, n - 1, t) + (if Builds(q, t) then 0 else QtyAt(q, n - 1, t))
  }

  /** The number of levels on which t was expanded. */
  ghost function Visits(q: Query, n: nat, t: TypeId): nat
  {
    if n == 0 then 0 else Visits(q, n - 1, t) + (if Builds(q, t) && t in Level(q, n - 1) then 1 else 0)
  }

  ghost function Seen(q: Query, n: nat): set<TypeId>
  {
    if n == 0 then {} else Seen(q, n - 1) + Level(q, n - 1).Keys
  }

  ghost function StepTypes(q: Query, n: nat): set<TypeId> { set t | t in Seen(q, n) && Builds(q, t) }

  ghost function LeafTypes(q: Query, n: nat): set<TypeId> { set t | t in Seen(q, n) && !Builds(q, t) }

  // ----- The resolution -----

  datatype Step = Step(quantityNeeded: nat, runs: nat, productQuantity: Quantity, materials: map<TypeId, nat>)

  datatype Resolution = Resolution(steps: map<TypeId, Step>, raw: map<TypeId, nat>, buildable: map<TypeId, bool>)

  ghost function StepAfter(q: Query, n: nat, t: TypeId): Step
    requires Builds(q, t)
  {
    Step(Needed(q, n, t), TotalRuns(q, n, t), q.recipes[t].outputQuantity,
         map m | m in ConsumedBy(q, t) :: Taken(q, n, t, m))
  }

  /** What the step for t takes of m over the first n levels. */
  ghost function Taken(q: Query, n: nat, t: TypeId, m: TypeId): nat { Times(TotalRuns(q, n, t), PerRun(q, t, m)) }

  ghost function StepsAfter(q: Query, n: nat): map<TypeId, Step>
  {
    map t | t in StepTypes(q, n) :: StepAfter(q, n, t)
  }

  ghost function RawAfter(q: Query, n: nat): map<TypeId, nat>
  {
    map t | t in LeafTypes(q, n) :: RawBefore(q, n, t)
  }

  ghost function BuildableAfter(q: Query, n: nat): map<TypeId, bool>
  {
    map t | t in LeafTypes(q, n) :: t in q.recipes
  }

  /** The demand left when the depth limit d is hit counts as raw, and as not buildable unless it was a leaf before. */
  ghost function Resolve(q: Query, d: nat): Resolution
  {
    var cut := Level(q, d);
    var leaves := LeafTypes(q, d);
    Resolution(
      StepsAfter(q, d),
      map t | t in leaves + cut.Keys :: Get(RawAfter(q, d), t) + Get(cut, t),
      map t | t in leaves + cut.Keys :: t in leaves && t in q.recipes)
  }

  // Total views of a resolution.
  function NeededFor(r: Resolution, t: TypeId): nat { if t in r.steps then r.steps[t].quantityNeeded else 0 }
  function RunsFor(r: Resolution, t: TypeId): nat { if t in r.steps then r.steps[t].runs else 0 }
  function TakenBy(r: Resolution, p: TypeId, t: TypeId): nat
  {
    if p in r.steps then Get(r.steps[p].materials, t) else 0
  }
  function RawFor(r: Resolution, t: TypeId): nat { Get(r.raw, t) }

  // ----- Basic facts -----

  lemma NextDemandPositive(q: Query, level: map<TypeId, nat>, m: TypeId)
    requires m in NextTypes(q, level.Keys)
    ensures Demanded(q, level, level.Keys, m) > 0
  {
    hide ConsumedBy, Runs, PerRun;
    var p :| p in level && m in ConsumedBy(q, p);
    ConsumedIffPositive(q, p, m);
    ConsumerRuns(q, level, p, m);
    TimesPositive(RunsAt(q, level, p), PerRun(q, p, m));
    SumNonNegative(level.Keys, p => Takes(q, level, p, m));
  }

  lemma ConsumerRuns(q: Query, level: map<TypeId, nat>, p: TypeId, m: TypeId)
    requires p in level && m in ConsumedBy(q, p)
    ensures RunsAt(q, level, p) > 0
  {
  }

  lemma TimesPositive(a: nat, b: nat)
    requires a > 0 && b > 0
    ensures Times(a, b) > 0
  {
  }

  lemma LevelHasConsumer(q: Query, n: nat, m: TypeId) returns (p: TypeId)
    requires n > 0 && m in Level(q, n)
    ensures p in Level(q, n - 1) && m in ConsumedBy(q, p)
  {
    p :| p in Level(q, n - 1) && m in ConsumedBy(q, p);
  }

  lemma LevelPositive(q: Query, n: nat, t: TypeId)
    ensures t in Level(q, n) <==> QtyAt(q, n, t) > 0
  {
    if n > 0 && t in Level(q, n) {
      NextDemandPositive(q, Level(q, n - 1), t);
    }
  }

  lemma DemandOutside(q: Query, level: map<TypeId, nat>, done: set<TypeId>, m: TypeId)
    ensures Get(NextDemand(q, level, done), m) == Demanded(q, level, done, m)
  {
    if m !in NextTypes(q, done) {
      forall p | p in done
        ensures PerRun(q, p, m) == 0
      {
        ConsumedIffPositive(q, p, m);
      }
      SumSupport({}, done, p => Takes(q, level, p, m));
    }
  }

  lemma {:induction false} SeenIffPositive(q: Query, n: nat, t: TypeId)
    ensures t in Seen(q, n) <==> Needed(q, n, t) + RawBefore(q, n, t) > 0
    ensures Builds(q, t) ==> RawBefore(q, n, t) == 0
    ensures !Builds(q, t) ==> Needed(q, n, t) == 0 && TotalRuns(q, n, t) == 0
    ensures Needed(q, n, t) == 0 ==> TotalRuns(q, n, t) == 0
  {
    hide Level;
    if n > 0 {
      SeenIffPositive(q, n - 1, t);
      LevelPositive(q, n - 1, t);
    }
  }

  lemma NoDemandFromNothing(q: Query, level: map<TypeId, nat>)
    requires level == map[]
    ensures NextDemand(q, level, level.Keys) == map[]
  {
    hide ConsumedBy;
    assert level.Keys == {};
    assert NextTypes(q, {}) == {};
  }

  lemma {:induction false} EmptyLevelStays(q: Query, n: nat, k: nat)
    requires n <= k && Level(q, n) == map[]
    ensures Level(q, k) == map[]
    decreases k
  {
    hide NextDemand;
    if n < k {
      EmptyLevelStays(q, n, k - 1);
      NoDemandFromNothing(q, Level(q, k - 1));
    }
  }

  /** Once a level is empty the totals no longer move. */
  lemma {:induction false} TotalsSettle(q: Query, n: nat, k: nat, t: TypeId)
    requires n <= k && Level(q, n) == map[]
    ensures Needed(q, k, t) == Needed(q, n, t)
    ensures TotalRuns(q, k, t) == TotalRuns(q, n, t)
    ensures RawBefore(q, k, t) == RawBefore(q, n, t)
    ensures Seen(q, k) == Seen(q, n)
    decreases k
  {
    hide Level;
    if n < k {
      TotalsSettle(q, n, k - 1, t);
      EmptyLevelStays(q, n, k - 1);
    }
  }

  /** The first level on which x is met. */
  lemma {:induction false} FirstMeeting(q: Query, x: TypeId, n: nat) returns (k: nat)
    requires x in Seen(q, n)
    ensures k < n && x in Level(q, k) && x !in Seen(q, k)
  {
    hide Level;
    if x in Seen(q, n - 1) {
      k := FirstMeeting(q, x, n - 1);
    } else {
      k := n - 1;
    }
  }

  lemma {:induction false} LevelIsSeen(q: Query, k: nat, n: nat, t: TypeId)
    requires k < n && t in Level(q, k)
    ensures t in Seen(q, n)
  {
    hide Level;
    if k < n - 1 {
      LevelIsSeen(q, k, n - 1, t);
    }
  }

  /** The total views of the resolution are the totals over all levels. */
  lemma ResolutionTotals(q: Query, d: nat, t: TypeId)
    ensures NeededFor(Resolve(q, d), t) == Needed(q, d, t)
    ensures RunsFor(Resolve(q, d), t) == TotalRuns(q, d, t)
    ensures RawFor(Resolve(q, d), t) == RawBefore(q, d, t) + QtyAt(q, d, t)
    ensures t in Resolve(q, d).steps <==> Needed(q, d, t) > 0
    ensures t in Resolve(q, d).raw <==> RawFor(Resolve(q, d), t) > 0
  {
    SeenIffPositive(q, d, t);
    LevelPositive(q, d, t);
  }

  lemma ResolutionTaken(q: Query, d: nat, t: TypeId, m: TypeId)
    ensures TakenBy(Resolve(q, d), t, m) == Taken(q, d, t, m)
    ensures t !in Resolve(q, d).steps ==> TakenBy(Resolve(q, d), t, m) == 0
  {
    hide Level, Seen, Needed, TotalRuns, RawBefore, PerRun;
    SeenIffPositive(q, d, t);
    ConsumedIffPositive(q, t, m);
  }
}
