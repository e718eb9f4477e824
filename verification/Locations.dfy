/** Location names through three tiers - Redis, the database, the remote API - and the walk out of containers. */
module Locations {
  import opened Sums
  import opened Options
  import opened Caches

  const PREFIX: string := "location_details"

  datatype Details = Details(name: Option<string>, systemId: Option<int>, typeId: Option<int>)

  class LocationNames {
    var docs: map<int, Details>
  }

  /** A stored document worth answering from; one without a name is looked up again. */
  function Named(docs: map<int, Details>): map<int, Details>
  {
    map id | id in docs && docs[id].name.Some? :: docs[id]
  }

  /** Redis holds only named locations, and holds them as the database does. */
  ghost predicate Mirrors(entries: map<string, Details>, docs: map<int, Details>)
  {
    forall id :: CacheKey(PREFIX, id) in entries ==> id in Named(docs) && entries[CacheKey(PREFIX, id)] == docs[id]
  }

  /** Nothing nameless was written: every document is named or is one that was there before, untouched. */
  ghost predicate NoNamelessWrite(docs: map<int, Details>, docs': map<int, Details>)
  {
    && (forall id :: id in docs ==> id in docs')
    && (forall id :: id in docs' ==> docs'[id].name.Some? || (id in docs && docs'[id] == docs[id]))
    && (forall id :: id in Named(docs) ==> docs'[id] == docs[id])
  }

  /** The remote answers worth keeping: asked for because nothing named is stored, and named. */
  function Learned(docs: map<int, Details>, ids: set<int>, remote: int -> Details): map<int, Details>
  {
    map id | id in ids && id !in Named(docs) && remote(id).name.Some? :: remote(id)
  }

  function Answer(docs: map<int, Details>, remote: int -> Details, id: int): Details
  {
    if id in Named(docs) then docs[id] else remote(id)
  }

  function Answers(docs: map<int, Details>, remote: int -> Details, ids: set<int>): map<int, Details>
  {
    map id | id in ids :: Answer(docs, remote, id)
  }

  lemma AnswersAre(docs: map<int, Details>, remote: int -> Details, ids: set<int>)
    ensures Answers(docs, remote, ids).Keys == ids
    ensures forall id :: id in ids ==>
              Answers(docs, remote, ids)[id] == if id in docs && docs[id].name.Some? then docs[id] else remote(id)
    ensures forall id :: id in ids && !(id in docs && docs[id].name.Some?) && remote(id).name.Some? ==>
              id in Learned(docs, ids, remote) && Learned(docs, ids, remote)[id] == remote(id)
  {
  }

  lemma LearningIsNamed(docs: map<int, Details>, ids: set<int>, remote: int -> Details)
    ensures NoNamelessWrite(docs, docs + Learned(docs, ids, remote))
  {
  }

  /** Over any runs too. */
  lemma NoNamelessTwice(docs: map<int, Details>, docs': map<int, Details>, docs'': map<int, Details>)
    requires NoNamelessWrite(docs, docs') && NoNamelessWrite(docs', docs'')
    ensures NoNamelessWrite(docs, docs'')
  {
    forall id | id in Named(docs)
      ensures docs''[id] == docs[id]
    {
      assert id in Named(docs');
    }
  }

  /** What was learned is answered from then on, whatever the remote says later; what was nameless is asked again. */
  lemma LearnedOnce(docs: map<int, Details>, ids: set<int>, remote: int -> Details, later: int -> Details, id: int)
    requires id in ids
    ensures Answer(docs + Learned(docs, ids, remote), later, id)
         == if Answer(docs, remote, id).name.Some? then Answer(docs, remote, id) else later(id)
  {
    var docs' := docs + Learned(docs, ids, remote);
    if id in Named(docs) {
      assert id !in Learned(docs, ids, remote);
    } else if remote(id).name.Some? {
      assert docs'[id] == remote(id);
    } else {
      assert id !in Learned(docs, ids, remote);
    }
  }

  lemma WritesMirror(entries: map<string, Details>, docs: map<int, Details>, written: map<int, Details>,
      landing: set<string>)
    requires Mirrors(entries, docs)
    requires forall id :: id in written ==> id in Named(docs) && written[id] == docs[id]
    ensures Mirrors(Written(entries, Keyed(PREFIX, written), landing), docs)
  {
    hide CacheKey;
    var after := Written(entries, Keyed(PREFIX, written), landing);
    forall id | CacheKey(PREFIX, id) in after
      ensures id in Named(docs) && after[CacheKey(PREFIX, id)] == docs[id]
    {
      var key := CacheKey(PREFIX, id);
      if key in Keyed(PREFIX, written) && after[key] == Keyed(PREFIX, written)[key] {
        var other :| other in written && key == CacheKey(PREFIX, other) &&
            Keyed(PREFIX, written)[key] == written[other];
        CacheKeysApart(PREFIX, id, PREFIX, other);
      }
    }
  }

  lemma GrowingMirrors(entries: map<string, Details>, docs: map<int, Details>, docs': map<int, Details>)
    requires Mirrors(entries, docs) && NoNamelessWrite(docs, docs')
    ensures Mirrors(entries, docs')
  {
    hide CacheKey;
    forall id | CacheKey(PREFIX, id) in entries
      ensures id in Named(docs') && entries[CacheKey(PREFIX, id)] == docs'[id]
    {
      assert id in Named(docs);
    }
  }

  /** The third tier for one location: ask, and keep the answer only if it has a name. */
  method LookUp(redis: Redis?<Details>, names: LocationNames, id: int, remote: int -> Details, landing: set<string>)
      returns (details: Details)
    requires redis != null ==> Mirrors(redis.entries, names.docs)
    requires id !in Named(names.docs)
    modifies redis, names
    ensures redis != null ==> Mirrors(redis.entries, names.docs)
    ensures details == remote(id)
    ensures names.docs == if details.name.Some? then old(names.docs)[id := details] else old(names.docs)
    ensures redis != null && details.name.Some? ==>
            redis.entries == Written(old(redis.entries), Keyed(PREFIX, map[id := details]), landing)
    ensures redis != null && details.name.None? ==> redis.entries == old(redis.entries)
  {
    hide CacheKey, Keyed, Written;
    details := remote(id);
    if details.name.Some? {
      names.docs := names.docs[id := details];
      if redis != null {
        GrowingMirrors(redis.entries, old(names.docs), names.docs);
      }
      SetManyCached(redis, Keyed(PREFIX, map[id := details]), landing);
      if redis != null {
        WritesMirror(old(redis.entries), names.docs, map[id := details], landing);
      }
    }
  }

  /** The first two tiers: what Redis or the database has under a name. */
  method ResolveStored(redis: Redis?<Details>, names: LocationNames, ids: set<int>, readFails: bool,
      landing: set<string>) returns (resolved: map<int, Details>)
    requires redis != null ==> Mirrors(redis.entries, names.docs)
    modifies redis
    ensures redis != null ==> Mirrors(redis.entries, names.docs)
    ensures resolved == Restricted(Named(names.docs), ids)
  {
    hide CacheKey, Keyed, Mirrors, Named, Restricted, Written;
    var keys := set id | id in ids :: CacheKey(PREFIX, id);
    var cached := GetManyCached(redis, keys, readFails);
    if redis != null {
      CachedAreNamed(redis.entries, names.docs, cached);
    }
    resolved := map id | id in ids && CacheKey(PREFIX, id) in cached :: cached[CacheKey(PREFIX, id)];
    var remaining := ids - resolved.Keys;
    FillingUp(Named(names.docs), ids, resolved);
    if remaining != {} {
      var found := Restricted(Named(names.docs), remaining);
      RestrictedIs(Named(names.docs), remaining);
      resolved := resolved + found;
      SetManyCached(redis, Keyed(PREFIX, found), landing);
      if redis != null {
        NamedIs(names.docs);
        WritesMirror(old(redis.entries), names.docs, found, landing);
      }
    }
  }

  lemma NamedIs(docs: map<int, Details>)
    ensures forall id :: id in Named(docs) ==> id in docs && Named(docs)[id] == docs[id]
  {
  }

  lemma LearnOneMore(docs: map<int, Details>, ids: set<int>, remote: int -> Details, id: int)
    requires id !in ids && id !in Named(docs)
    ensures docs + Learned(docs, ids + {id}, remote)
         == if remote(id).name.Some? then (docs + Learned(docs, ids, remote))[id := remote(id)]
             else docs + Learned(docs, ids, remote)
    ensures id !in Named(docs + Learned(docs, ids, remote))
    ensures Answers(docs, remote, ids + {id}) == Answers(docs, remote, ids)[id := remote(id)]
  {
  }

  /** Every location gets the stored named document, or else the remote answer; of the remote answers exactly the
      named ones are stored, and Redis goes on mirroring named documents only. */
  method ResolveLocations(redis: Redis?<Details>, names: LocationNames, ids: set<int>, remote: int -> Details,
      readFails: bool, landing: set<string>) returns (resolved: map<int, Details>)
    requires redis != null ==> Mirrors(redis.entries, names.docs)
    modifies redis, names
    ensures redis != null ==> Mirrors(redis.entries, names.docs)
    ensures resolved == Answers(old(names.docs), remote, ids)
    ensures resolved.Keys == ids && forall id :: id in ids ==>
              resolved[id] == if id in old(names.docs) && old(names.docs)[id].name.Some? then old(names.docs)[id]
                  else remote(id)
    ensures names.docs == old(names.docs) + Learned(old(names.docs), ids, remote)
    ensures forall id ::
            id in ids && !(id in old(names.docs) && old(names.docs)[id].name.Some?) && remote(id).name.Some? ==>
              id in names.docs && names.docs[id] == remote(id)
    ensures NoNamelessWrite(old(names.docs), names.docs)
  {
    hide Mirrors, Learned, Answers, NoNamelessWrite, Restricted, Written, Keyed;
    resolved := ResolveStored(redis, names, ids, readFails, landing);
    var todo := ids - resolved.Keys;
    ghost var done := resolved.Keys;
    StillUnnamed(names.docs, ids, resolved, todo, remote);
    while todo != {}
      invariant done + todo == ids && done !! todo
      invariant redis != null ==> Mirrors(redis.entries, names.docs)
      invariant names.docs == old(names.docs) + Learned(old(names.docs), done, remote)
      invariant resolved == Answers(old(names.docs), remote, done)
      invariant forall id :: id in todo ==> id !in Named(old(names.docs))
      decreases todo
    {
      var id := PickOne(todo);
      LearnOneMore(old(names.docs), done, remote, id);
      var details := LookUp(redis, names, id, remote, landing);
      resolved := resolved[id := details];
      todo, done := todo - {id}, done + {id};
    }
    assert done == ids;
    AnswersAre(old(names.docs), remote, ids);
    LearningIsNamed(old(names.docs), ids, remote);
  }

  // ----- Any sequence of calls -----

  /** One call: the ids asked, the remote's answers and Redis's failures during it, and what Redis still keeps
      before it. */
  datatype Call = Call(ids: set<int>, remote: int -> Details, readFails: bool, landing: set<string>, kept: set<string>)

  function DocsAfter(docs: map<int, Details>, calls: seq<Call>): map<int, Details>
  {
    if calls == [] then docs
    else
      var before, last := DocsAfter(docs, calls[..|calls| - 1]), calls[|calls| - 1];
      before + Learned(before, last.ids, last.remote)
  }

  /** No failed lookup is persisted over any sequence of calls, and no stored name ever changes. */
  lemma {:induction false} NoNamelessEver(docs: map<int, Details>, calls: seq<Call>)
    ensures NoNamelessWrite(docs, DocsAfter(docs, calls))
  {
    hide NoNamelessWrite, Learned;
    if calls == [] {
      NothingLearned(docs);
    } else {
      var before, last := DocsAfter(docs, calls[..|calls| - 1]), calls[|calls| - 1];
      NoNamelessEver(docs, calls[..|calls| - 1]);
      LearningIsNamed(before, last.ids, last.remote);
      NoNamelessTwice(docs, before, DocsAfter(docs, calls));
    }
  }

  lemma NothingLearned(docs: map<int, Details>)
    ensures NoNamelessWrite(docs, docs)
  {
  }

  lemma FewerMirror(entries: map<string, Details>, kept: set<string>, docs: map<int, Details>)
    requires Mirrors(entries, docs)
    ensures Mirrors(map key | key in entries && key in kept :: entries[key], docs)
  {
    hide CacheKey;
  }

  /** Any entries go, the kept ones stay. */
  method Expire(redis: Redis?<Details>, kept: set<string>, ghost docs: map<int, Details>)
    requires redis != null ==> Mirrors(redis.entries, docs)
    modifies redis
    ensures redis != null ==>
            redis.entries == map key | key in old(redis.entries) && key in kept :: old(redis.entries)[key]
    ensures redis != null ==> Mirrors(redis.entries, docs)
  {
    hide Mirrors;
    if redis != null {
      FewerMirror(redis.entries, kept, docs);
      redis.entries := map key | key in redis.entries && key in kept :: redis.entries[key];
    }
  }

  lemma NoCallsYet(docs: map<int, Details>)
    ensures DocsAfter(docs, []) == docs
  {
  }

  lemma DocsAfterNext(docs: map<int, Details>, calls: seq<Call>, k: nat)
    requires k < |calls|
    ensures DocsAfter(docs, calls[..k + 1])
            == DocsAfter(docs, calls[..k]) + Learned(DocsAfter(docs, calls[..k]), calls[k].ids, calls[k].remote)
  {
    assert calls[..k + 1][..k] == calls[..k];
  }

  /** Calls one after the other, with any Redis entries expiring in between: each is answered from the names learned
      by the calls before it, and Redis never holds anything nameless. */
  method ResolveInTurn(redis: Redis?<Details>, names: LocationNames, calls: seq<Call>)
      returns (answers: seq<map<int, Details>>)
    requires redis != null ==> Mirrors(redis.entries, names.docs)
    modifies redis, names
    ensures redis != null ==> Mirrors(redis.entries, names.docs)
    ensures names.docs == DocsAfter(old(names.docs), calls) && NoNamelessWrite(old(names.docs), names.docs)
    ensures |answers| == |calls|
    ensures forall k :: 0 <= k < |calls| ==>
            answers[k] == Answers(DocsAfter(old(names.docs), calls[..k]), calls[k].remote, calls[k].ids)
  {
    hide Mirrors, Learned, Answers, NoNamelessWrite, DocsAfter;
    answers := [];
    assert DocsAfter(names.docs, []) == names.docs by {
      NoCallsYet(names.docs);
    }
    for k := 0 to |calls|
      invariant redis != null ==> Mirrors(redis.entries, names.docs)
      invariant names.docs == DocsAfter(old(names.docs), calls[..k])
      invariant |answers| == k
      invariant forall i :: 0 <= i < k ==>
                answers[i] == Answers(DocsAfter(old(names.docs), calls[..i]), calls[i].remote, calls[i].ids)
    {
      var call := calls[k];
      Expire(redis, call.kept, names.docs);
      var answer := ResolveLocations(redis, names, call.ids, call.remote, call.readFails, call.landing);
      answers := answers + [answer];
      DocsAfterNext(old(names.docs), calls, k);
    }
    assert calls[..|calls|] == calls;
    NoNamelessEver(old(names.docs), calls);
  }

  lemma CachedAreNamed(entries: map<string, Details>, docs: map<int, Details>, cached: map<string, Details>)
    requires Mirrors(entries, docs)
    requires forall key :: key in cached ==> key in entries && cached[key] == entries[key]
    ensures forall id :: CacheKey(PREFIX, id) in cached ==>
            id in Named(docs) && cached[CacheKey(PREFIX, id)] == Named(docs)[id]
  {
    hide CacheKey;
  }

  lemma StillUnnamed(docs: map<int, Details>, ids: set<int>, resolved: map<int, Details>, todo: set<int>,
      remote: int -> Details)
    requires todo == ids - resolved.Keys && resolved == Restricted(Named(docs), ids)
    ensures forall id :: id in todo ==> id !in Named(docs)
    ensures resolved.Keys + todo == ids
    ensures resolved == Answers(docs, remote, resolved.Keys) && docs == docs + Learned(docs, resolved.Keys, remote)
  {
    forall id
      ensures id in resolved.Keys + todo <==> id in ids
    {
      if id in ids && id !in resolved {
        assert id in todo;
      }
    }
  }

  // ----- Out of the containers -----

  datatype Asset = Asset(locationId: int, insideItem: bool)

  /** n steps from one container to the one it sits in. */
  ghost predicate Inside(assets: map<int, Asset>, a: int, b: int, n: nat)
    decreases n
  {
    if n == 0 then a == b
    else a in assets && assets[a].insideItem && Inside(assets, assets[a].locationId, b, n - 1)
  }

  ghost predicate Within(assets: map<int, Asset>, a: int, b: int) { exists n: nat :: Inside(assets, a, b, n) }

  ghost predicate OnCircle(assets: map<int, Asset>, a: int) { exists m: nat :: m > 0 && Inside(assets, a, a, m) }

  lemma {:induction false} InsideThenOne(assets: map<int, Asset>, a: int, b: int, n: nat)
    requires Inside(assets, a, b, n) && b in assets && assets[b].insideItem
    ensures Inside(assets, a, assets[b].locationId, n + 1)
    decreases n
  {
    if n > 0 {
      InsideThenOne(assets, assets[a].locationId, b, n - 1);
    }
  }

  /** The containers around start sit inside each other in a circle. */
  ghost predicate CircleAround(assets: map<int, Asset>, start: int)
  {
    exists b :: Within(assets, start, b) && OnCircle(assets, b)
  }

  /** Whatever start is within for the last time lies at a location that bears an asset's id. */
  ghost predicate LeadsBack(assets: map<int, Asset>, start: int)
  {
    exists last ::
        Within(assets, start, last) && last in assets && !assets[last].insideItem && assets[last].locationId in assets
  }

  ghost predicate Moves(assets: map<int, Asset>, a: int) { a in assets && assets[a].insideItem }

  /** The walk is determined: where it stops it cannot have gone on, nor come by twice. */
  lemma {:induction false} StopsThere(assets: map<int, Asset>, start: int, end: int, steps: nat, b: int, n: nat)
    requires Inside(assets, start, end, steps) && !Moves(assets, end) && Inside(assets, start, b, n)
    ensures n <= steps && Inside(assets, b, end, steps - n)
    decreases n
  {
    if n > 0 {
      StopsThere(assets, assets[start].locationId, end, steps - 1, b, n - 1);
    }
  }

  lemma {:induction false} InsideJoins(assets: map<int, Asset>, a: int, b: int, c: int, n: nat, m: nat)
    requires Inside(assets, a, b, n) && Inside(assets, b, c, m)
    ensures Inside(assets, a, c, n + m)
    decreases n
  {
    if n > 0 {
      InsideJoins(assets, assets[a].locationId, b, c, n - 1, m);
    }
  }

  lemma {:induction false} NoCircleFrom(assets: map<int, Asset>, b: int, m: nat, end: int, steps: nat)
    requires m > 0 && Inside(assets, b, b, m) && Inside(assets, b, end, steps) && !Moves(assets, end)
    ensures false
    decreases steps
  {
    StopsThere(assets, b, end, steps, b, m);
    NoCircleFrom(assets, b, m, end, steps - m);
  }

  /** A walk that stops meets no circle, and stops at the only asset that is not inside an item. */
  lemma StoppedWalk(assets: map<int, Asset>, start: int, end: int, steps: nat)
    requires Inside(assets, start, end, steps) && !Moves(assets, end)
    ensures !CircleAround(assets, start)
    ensures forall last :: Within(assets, start, last) && last in assets && !assets[last].insideItem ==> last == end
  {
    if b :| Within(assets, start, b) && OnCircle(assets, b) {
      var n: nat :| Inside(assets, start, b, n);
      var m: nat :| m > 0 && Inside(assets, b, b, m);
      StopsThere(assets, start, end, steps, b, n);
      NoCircleFrom(assets, b, m, end, steps - n);
    }
    forall last | Within(assets, start, last) && last in assets && !assets[last].insideItem
      ensures last == end
    {
      var n: nat :| Inside(assets, start, last, n);
      StopsThere(assets, start, end, steps, last, n);
      AtRest(assets, last, end, steps - n);
    }
  }

  lemma AtRest(assets: map<int, Asset>, a: int, b: int, n: nat)
    requires Inside(assets, a, b, n) && !Moves(assets, a)
    ensures a == b
  {
  }

  /** Walks out of nested containers. The answer is the start's outermost place: a location that no asset bears, the
      location of the asset it is within for the last time, or, when the containers sit inside each other in a circle,
      one on that circle. So it is an asset's own id exactly for such a circle, or when that last location bears one. */
  method ResolveContainerChain(start: int, assets: map<int, Asset>) returns (location: int)
    ensures
      || (Within(assets, start, location) && (location !in assets || OnCircle(assets, location)))
      || (exists last ::
          Within(assets, start, last) && last in assets && !assets[last].insideItem &&
          location == assets[last].locationId)
    ensures CircleAround(assets, start) ==> Within(assets, start, location) && OnCircle(assets, location)
    ensures location in assets <==> CircleAround(assets, start) || LeadsBack(assets, start)
  {
    var current := start;
    var visited: set<int> := {};
    ghost var steps: nat := 0;
    ghost var ago: map<int, nat> := map[];
    while current in assets && current !in visited
      invariant visited <= assets.Keys && visited == ago.Keys
      invariant Inside(assets, start, current, steps)
      invariant forall v :: v in ago ==> ago[v] > 0 && Inside(assets, v, current, ago[v])
      decreases assets.Keys - visited
    {
      visited := visited + {current};
      var asset := assets[current];
      if !asset.insideItem {
        assert Within(assets, start, current);
        StoppedWalk(assets, start, current, steps);
        return asset.locationId;
      }
      InsideThenOne(assets, start, current, steps);
      forall v | v in ago
        ensures Inside(assets, v, asset.locationId, ago[v] + 1)
      {
        InsideThenOne(assets, v, current, ago[v]);
      }
      InsideThenOne(assets, current, current, 0);
      ago := map v | v in visited :: if v in ago then ago[v] + 1 else 1;
      steps := steps + 1;
      current := asset.locationId;
    }
    location := current;
    assert Within(assets, start, location);
    if current in visited {
      assert Inside(assets, location, location, ago[location]);
    } else {
      StoppedWalk(assets, start, location, steps);
    }
  }

  lemma InsideItself(id: int)
    ensures CircleAround(map[id := Asset(id, true)], id)
  {
    var assets := map[id := Asset(id, true)];
    assert Inside(assets, id, id, 0) && Inside(assets, id, id, 1);
    assert Within(assets, id, id) && OnCircle(assets, id);
  }

  /** A container inside itself comes out as its own location. */
  method ResolveInsideItself(id: int) returns (location: int)
    ensures location == id
  {
    InsideItself(id);
    location := ResolveContainerChain(id, map[id := Asset(id, true)]);
  }
}
