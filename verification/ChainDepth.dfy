/** When the level loop ends by itself, and what the depth cut leaves behind. */
module ChainDepth {
  import opened Recipes
  import opened BuildChain

  /** A walk down the recipes from the target that expands every type but the last. */
  ghost predicate ExpansionPath(q: Query, path: seq<TypeId>)
  {
    && path != []
    && path[0] == q.target
    && forall i :: 0 < i < |path| ==> path[i] in ConsumedBy(q, path[i - 1])
  }

  /** No expansion path has d edges, so none is longer than d - 1 edges. */
  ghost predicate DepthFits(q: Query, d: nat)
  {
    forall path :: ExpansionPath(q, path) ==> |path| <= d
  }

  lemma {:induction false} LevelHasPath(q: Query, n: nat, t: TypeId) returns (path: seq<TypeId>)
    requires t in Level(q, n)
    ensures ExpansionPath(q, path) && |path| == n + 1 && path[n] == t
  {
    hide ConsumedBy, Demanded;
    if n == 0 {
      path := [t];
    } else {
      var p := LevelHasConsumer(q, n, t);
      var before := LevelHasPath(q, n - 1, p);
      path := before + [t];
    }
  }

  lemma {:induction false} PathHasLevel(q: Query, path: seq<TypeId>)
    requires ExpansionPath(q, path)
    ensures path[|path| - 1] in Level(q, |path| - 1)
  {
    hide ConsumedBy, Demanded;
    if |path| > 1 {
      var before := path[..|path| - 1];
      PathHasLevel(q, before);
      var p, t := path[|path| - 2], path[|path| - 1];
      assert p in Level(q, |path| - 2).Keys && t in ConsumedBy(q, p);
    }
  }

  /** The loop ends with an empty level exactly when every expansion path is shorter than the limit. */
  lemma LoopEndsByItself(q: Query, d: nat)
    ensures Level(q, d) == map[] <==> DepthFits(q, d)
  {
    hide ConsumedBy, Level;
    if DepthFits(q, d) {
      forall t
        ensures t !in Level(q, d)
      {
        if t in Level(q, d) {
          var path := LevelHasPath(q, d, t);
          assert false;
        }
      }
    }
    if Level(q, d) == map[] {
      forall path | ExpansionPath(q, path)
        ensures |path| <= d
      {
        PathHasLevel(q, path);
        if |path| > d {
          EmptyLevelStays(q, d, |path| - 1);
          assert false;
        }
      }
    }
  }

  /** A type is both built and bought exactly when it is built and the depth cut left some of it over. */
  lemma CutIsTheOverlap(q: Query, d: nat, t: TypeId)
    ensures t in Resolve(q, d).raw && Builds(q, t) <==> t in Level(q, d) && Builds(q, t)
    ensures t in Resolve(q, d).steps ==> Builds(q, t)
  {
    hide Level, Seen, Builds;
  }

  /** With recipes that fit the depth limit nothing is cut: steps and raw materials are disjoint, and a raw
      material has no recipe or is neither the target nor in the build set; its flag says which. */
  lemma DepthAdequacy(q: Query, d: nat)
    requires DepthFits(q, d)
    ensures Level(q, d) == map[]
    ensures Resolve(q, d).steps.Keys !! Resolve(q, d).raw.Keys
    ensures forall t :: t in Resolve(q, d).raw ==> t !in q.recipes || (t != q.target && t !in q.buildSet)
    ensures forall t :: t in Resolve(q, d).raw ==> (Resolve(q, d).buildable[t] <==> t in q.recipes)
  {
    hide Level, Seen;
    LoopEndsByItself(q, d);
    forall t
      ensures t in Resolve(q, d).raw ==> !Builds(q, t)
      ensures t in Resolve(q, d).steps ==> Builds(q, t)
    {
      CutIsTheOverlap(q, d, t);
    }
  }

  lemma NothingCut(q: Query, d: nat, t: TypeId)
    requires DepthFits(q, d)
    ensures QtyAt(q, d, t) == 0
  {
    hide Level;
    LoopEndsByItself(q, d);
  }

  /** Recipes whose ranks fall along materials fit any limit above the target's rank. */
  lemma {:induction false} RankedRecipesFit(q: Query, rank: map<TypeId, nat>, d: nat)
    requires q.target in rank && rank[q.target] < d
    requires forall p, m :: m in ConsumedBy(q, p) && p in rank ==> m in rank && rank[m] < rank[p]
    ensures DepthFits(q, d)
  {
    hide ConsumedBy;
    forall path | ExpansionPath(q, path)
      ensures |path| <= d
    {
      RankFallsAlong(q, rank, path, |path| - 1);
    }
  }

  lemma {:induction false} RankFallsAlong(q: Query, rank: map<TypeId, nat>, path: seq<TypeId>, i: nat)
    requires q.target in rank
    requires forall p, m :: m in ConsumedBy(q, p) && p in rank ==> m in rank && rank[m] < rank[p]
    requires ExpansionPath(q, path) && i < |path|
    ensures path[i] in rank && rank[path[i]] + i <= rank[q.target]
  {
    hide ConsumedBy;
    if i > 0 {
      RankFallsAlong(q, rank, path, i - 1);
    }
  }
}
