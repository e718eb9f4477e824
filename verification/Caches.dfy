/** Reading documents through Redis, which may be absent, fail at any call, or have dropped any entry. */
module Caches {
  import opened Sums

  // ----- Keys -----

  function Digit(d: nat): char
    requires d < 10
  {
    ['0', '1', '2', '3', '4', '5', '6', '7', '8', '9'][d]
  }

  function Digits(n: nat): string
  {
    if n < 10 then [Digit(n)] else Digits(n / 10) + [Digit(n % 10)]
  }

  function Decimal(n: int): string { if n < 0 then "-" + Digits(-n) else Digits(n) }

  function CacheKey(prefix: string, value: int): string { prefix + ":" + Decimal(value) }

  lemma {:induction false} DigitsOnly(n: nat)
    ensures |Digits(n)| > 0
    ensures forall i :: 0 <= i < |Digits(n)| ==> '0' <= Digits(n)[i] <= '9'
  {
    if n >= 10 {
      DigitsOnly(n / 10);
    }
  }

  lemma DigitsDiffer(a: nat, b: nat)
    requires a < 10 && b < 10 && Digit(a) == Digit(b)
    ensures a == b
  {
  }

  lemma {:induction false} DigitsApart(a: nat, b: nat)
    requires Digits(a) == Digits(b)
    ensures a == b
  {
    var da, db := Digits(a), Digits(b);
    assert da[|da| - 1] == Digit(a % 10) && db[|db| - 1] == Digit(b % 10);
    DigitsDiffer(a % 10, b % 10);
    LengthTells(a);
    LengthTells(b);
    if a >= 10 {
      assert Digits(a / 10) == da[..|da| - 1] == db[..|db| - 1] == Digits(b / 10);
      DigitsApart(a / 10, b / 10);
    }
  }

  lemma LengthTells(n: nat)
    ensures n < 10 <==> |Digits(n)| == 1
  {
    if n >= 10 {
      DigitsOnly(n / 10);
    }
  }

  lemma DecimalHasNoColon(n: int)
    ensures |Decimal(n)| > 0 && ':' !in Decimal(n)
  {
    DigitsOnly(if n < 0 then -n else n);
  }

  lemma DecimalSign(a: int)
    ensures Decimal(a) != [] && (a < 0 <==> Decimal(a)[0] == '-')
    ensures a < 0 ==> Digits(-a) == Decimal(a)[1..]
  {
    DigitsOnly(if a < 0 then -a else a);
  }

  lemma DecimalsApart(a: int, b: int)
    requires Decimal(a) == Decimal(b)
    ensures a == b
  {
    hide Digits;
    DecimalSign(a);
    DecimalSign(b);
    if a < 0 {
      DigitsApart(-a, -b);
    } else {
      DigitsApart(a, b);
    }
  }

  /** Two keys are equal only for the same prefix and the same value, whatever the prefixes contain. */
  lemma CacheKeysApart(p: string, a: int, r: string, b: int)
    requires CacheKey(p, a) == CacheKey(r, b)
    ensures p == r && a == b
  {
    var key := CacheKey(p, a);
    var da, db := Decimal(a), Decimal(b);
    DecimalHasNoColon(a);
    DecimalHasNoColon(b);
    assert key[|p|] == ':' && key[|r|] == ':';
    assert forall i :: |p| < i < |key| ==> key[i] == da[i - |p| - 1];
    assert forall i :: |r| < i < |key| ==> key[i] == db[i - |r| - 1];
    assert !(|p| < |r|) && !(|r| < |p|);
    assert p == key[..|p|] == r;
    assert da == key[|p| + 1..] == db;
    DecimalsApart(a, b);
  }

  // ----- Redis -----

  class Redis<D> {
    var entries: map<string, D>

    constructor ()
      ensures entries == map[]
    {
      entries := map[];
    }
  }

  /** Every cached entry of a known prefix equals the document it caches. */
  ghost predicate Agrees<D>(entries: map<string, D>, sources: map<string, map<int, D>>)
  {
    forall prefix, id :: prefix in sources && CacheKey(prefix, id) in entries ==>
      id in sources[prefix] && entries[CacheKey(prefix, id)] == sources[prefix][id]
  }

  /** Losing entries, by expiry or otherwise, never breaks the agreement. */
  lemma ExpiryKeepsAgreement<D>(entries: map<string, D>, fewer: map<string, D>, sources: map<string, map<int, D>>)
    requires Agrees(entries, sources)
    requires forall key :: key in fewer ==> key in entries && fewer[key] == entries[key]
    ensures Agrees(fewer, sources)
  {
    hide CacheKey;
  }

  /** What Redis has of the keys; nothing without Redis, without keys, or when the call fails. */
  method GetManyCached<D(!new)>(redis: Redis?<D>, keys: set<string>, fails: bool) returns (cached: map<string, D>)
    ensures redis == null || fails ==> cached == map[]
    ensures redis != null && !fails ==> cached == map key | key in keys && key in redis.entries :: redis.entries[key]
  {
    if redis == null || keys == {} {
      return map[];
    }
    if fails { return map[]; }
    cached := map key | key in keys && key in redis.entries :: redis.entries[key];
  }

  /** Those of the items whose command lands, written over the entries. */
  function Written<D>(entries: map<string, D>, items: map<string, D>, landing: set<string>): map<string, D>
  {
    entries + map key | key in items && key in landing :: items[key]
  }

  /** Sends one command per item. A failure, swallowed, leaves any part of them done: those whose keys are landing;
      without a failure all are. */
  method SetManyCached<D(!new)>(redis: Redis?<D>, items: map<string, D>, landing: set<string>)
    modifies redis
    ensures redis != null ==> redis.entries == Written(old(redis.entries), items, landing)
    ensures redis != null ==> forall key ::
              (key in redis.entries <==> key in old(redis.entries) || (key in items && key in landing)) &&
              (key in redis.entries ==>
                 redis.entries[key] == if key in items && key in landing then items[key] else old(redis.entries)[key])
  {
    if redis == null || items == map[] {
      return;
    }
    hide Written;
    var todo := items.Keys;
    NothingWritten(old(redis.entries), items, landing);
    while todo != {}
      invariant todo <= items.Keys
      invariant redis.entries == Written(old(redis.entries), items, landing - todo)
      decreases todo
    {
      var key := PickOne(todo);
      OneMoreWrite(old(redis.entries), items, landing, todo, key);
      if key in landing {
        redis.entries := redis.entries[key := items[key]];
      }
      todo := todo - {key};
    }
    assert landing - todo == landing;
  }

  lemma NothingWritten<D>(entries: map<string, D>, items: map<string, D>, landing: set<string>)
    ensures Written(entries, items, landing - items.Keys) == entries
  {
  }

  lemma OneMoreWrite<D>(entries: map<string, D>, items: map<string, D>, landing: set<string>, todo: set<string>,
      key: string)
    requires key in todo && key in items
    ensures Written(entries, items, landing - (todo - {key}))
         == if key in landing then Written(entries, items, landing - todo)[key := items[key]]
             else Written(entries, items, landing - todo)
  {
    var after := Written(entries, items, landing - (todo - {key}));
    forall k
      ensures k in after <==> k in entries || (k in items && k in landing && (k !in todo || k == key))
    {
    }
  }

  function Keyed<D>(prefix: string, docs: map<int, D>): (items: map<string, D>)
    ensures forall key :: key in items ==>
            exists id :: id in docs && key == CacheKey(prefix, id) && items[key] == docs[id]
    ensures forall id :: id in docs ==> CacheKey(prefix, id) in items
  {
    KeysApartIn(prefix, docs.Keys);
    map id | id in docs :: CacheKey(prefix, id) := docs[id]
  }

  lemma KeysApartIn(prefix: string, ids: set<int>)
    ensures forall a, b :: a in ids && b in ids && CacheKey(prefix, a) == CacheKey(prefix, b) ==> a == b
  {
    forall a, b | a in ids && b in ids && CacheKey(prefix, a) == CacheKey(prefix, b)
      ensures a == b
    {
      CacheKeysApart(prefix, a, prefix, b);
    }
  }

  function Restricted<D>(collection: map<int, D>, ids: set<int>): map<int, D>
  {
    map id | id in ids && id in collection :: collection[id]
  }

  lemma WritesKeepAgreement<D>(entries: map<string, D>, sources: map<string, map<int, D>>, prefix: string,
      docs: map<int, D>, landing: set<string>)
    requires Agrees(entries, sources) && prefix in sources
    requires forall id :: id in docs ==> id in sources[prefix] && docs[id] == sources[prefix][id]
    ensures Agrees(Written(entries, Keyed(prefix, docs), landing), sources)
  {
    hide CacheKey;
    var after := Written(entries, Keyed(prefix, docs), landing);
    forall p, id | p in sources && CacheKey(p, id) in after
      ensures id in sources[p] && after[CacheKey(p, id)] == sources[p][id]
    {
      var key := CacheKey(p, id);
      if key in Keyed(prefix, docs) && after[key] == Keyed(prefix, docs)[key] {
        var other :| other in docs && key == CacheKey(prefix, other) && Keyed(prefix, docs)[key] == docs[other];
        CacheKeysApart(p, id, prefix, other);
      }
    }
  }

  /** Whatever subset is cached and whichever Redis calls fail, the answer is the collection restricted to the
      ids, and the cache keeps agreeing with every collection. When the writes land, every document found is cached. */
  method CachedDocsById<D(!new)>(redis: Redis?<D>, sources: map<string, map<int, D>>, prefix: string, ids: set<int>,
      readFails: bool, landing: set<string>)
    returns (found: map<int, D>)
    requires prefix in sources
    requires redis != null ==> Agrees(redis.entries, sources)
    modifies redis
    ensures found == Restricted(sources[prefix], ids)
    ensures forall id :: id in found <==> id in ids && id in sources[prefix]
    ensures forall id :: id in found ==> found[id] == sources[prefix][id]
    ensures redis != null ==> Agrees(redis.entries, sources)
    ensures redis != null ==> forall id :: id in found && CacheKey(prefix, id) in landing ==>
            CacheKey(prefix, id) in redis.entries
  {
    hide CacheKey, Agrees, Keyed, Restricted;
    var collection := sources[prefix];
    var keys := set id | id in ids :: CacheKey(prefix, id);
    var cached := GetManyCached(redis, keys, readFails);
    if redis != null {
      FromCache(redis.entries, sources, prefix, cached);
    }
    found := map id | id in ids && CacheKey(prefix, id) in cached :: cached[CacheKey(prefix, id)];
    var missing := ids - found.Keys;
    FillingUp(collection, ids, found);
    RestrictedIs(collection, ids);
    if missing != {} {
      var docs := Restricted(collection, missing);
      RestrictedIs(collection, missing);
      found := found + docs;
      SetManyCached(redis, Keyed(prefix, docs), landing);
      if redis != null {
        WritesKeepAgreement(old(redis.entries), sources, prefix, docs, landing);
      }
    }
  }

  lemma FromCache<D>(entries: map<string, D>, sources: map<string, map<int, D>>, prefix: string, cached: map<string, D>)
    requires Agrees(entries, sources) && prefix in sources
    requires forall key :: key in cached ==> key in entries && cached[key] == entries[key]
    ensures forall id :: CacheKey(prefix, id) in cached ==>
              id in sources[prefix] && cached[CacheKey(prefix, id)] == sources[prefix][id]
  {
    hide CacheKey;
  }

  lemma RestrictedIs<D>(collection: map<int, D>, ids: set<int>)
    ensures forall id :: id in Restricted(collection, ids) <==> id in ids && id in collection
    ensures forall id :: id in Restricted(collection, ids) ==> Restricted(collection, ids)[id] == collection[id]
  {
  }

  lemma FillingUp<D>(collection: map<int, D>, ids: set<int>, found: map<int, D>)
    requires forall id :: id in found ==> id in ids && id in collection && found[id] == collection[id]
    ensures found + Restricted(collection, ids - found.Keys) == Restricted(collection, ids)
    ensures ids - found.Keys == {} ==> found == Restricted(collection, ids)
  {
    var all := found + Restricted(collection, ids - found.Keys);
    forall id
      ensures id in all <==> id in Restricted(collection, ids)
      ensures id in all ==> all[id] == Restricted(collection, ids)[id]
    {
      if id in ids && id !in found {
        assert id in ids - found.Keys;
      }
    }
    assert all == Restricted(collection, ids);
    if ids - found.Keys == {} {
      forall id | id in ids
        ensures id in found
      {
        assert id !in ids - found.Keys;
      }
    }
  }
}
