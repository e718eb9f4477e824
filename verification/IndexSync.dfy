/** Reconciling the configured indexes with the recorded and the real ones, with a crash possible after every await. */
module IndexSync {
  import opened Sums
  import opened Options
  import opened Crashes

  datatype Key = Key(field: string, direction: int)

  /** A configured index; options hold every further entry of the spec, known or not. */
  datatype Spec = Spec(name: string, keys: seq<Key>, options: map<string, int>)

  /** What the database builds from a spec: the keys and the options it is allowed to pass on. */
  datatype Index = Index(keys: seq<Key>, options: map<string, int>)

  const ALLOWED_OPTIONS: set<string> := {"unique", "sparse", "expireAfterSeconds"}

  function Built(spec: Spec): Index
  {
    Index(spec.keys, map o | o in spec.options && o in ALLOWED_OPTIONS :: spec.options[o])
  }

  /** The spec's keys, and of its options those the database takes, each with the spec's value. */
  ghost predicate Realizes(index: Index, spec: Spec)
  {
    && index.keys == spec.keys
    && (forall o :: o in index.options <==>
         o in spec.options && (o == "unique" || o == "sparse" || o == "expireAfterSeconds"))
    && (forall o :: o in index.options ==> index.options[o] == spec.options[o])
  }

  lemma BuiltRealizes(spec: Spec)
    ensures Realizes(Built(spec), spec)
  {
  }

  datatype Place = Place(collection: string, name: string)

  datatype Record = Record(collection: string, name: string, spec: Spec)

  type Config = map<string, seq<Spec>>

  // ----- Loading -----

  /** One configuration file, each field None when it is missing; a spec's missing name or keys read as empty. */
  datatype File = File(collection: Option<string>, indexes: Option<seq<Spec>>)

  predicate Complete(file: File) { file.collection.Some? && file.indexes.Some? }

  ghost predicate WellFormed(file: File)
  {
    && Complete(file)
    && var specs := file.indexes.value;
       && (forall i :: 0 <= i < |specs| ==> specs[i].name != "" && specs[i].keys != [])
       && (forall i, j :: 0 <= i < j < |specs| ==> specs[i].name != specs[j].name)
  }

  ghost predicate AllComplete(files: seq<File>) { forall k :: 0 <= k < |files| ==> Complete(files[k]) }

  function SpecsFor(files: seq<File>, collection: string): seq<Spec>
    requires AllComplete(files)
  {
    if files == [] then []
    else
      var last := files[|files| - 1];
      SpecsFor(files[..|files| - 1], collection) + if last.collection.value == collection then last.indexes.value
          else []
  }

  method CheckFile(file: File) returns (ok: bool)
    requires Complete(file)
    ensures ok <==> WellFormed(file)
  {
    var specs := file.indexes.value;
    var seen: set<string> := {};
    for i := 0 to |specs|
      invariant seen == set j | 0 <= j < i :: specs[j].name
      invariant forall j :: 0 <= j < i ==> specs[j].name != "" && specs[j].keys != []
      invariant forall j, l :: 0 <= j < l < i ==> specs[j].name != specs[l].name
    {
      var spec := specs[i];
      if spec.name == "" || spec.keys == [] || spec.name in seen {
        return false;
      }
      seen := seen + {spec.name};
    }
    return true;
  }

  function Merged(files: seq<File>): Config
    requires AllComplete(files)
  {
    if files == [] then map[]
    else
      var last := files[|files| - 1];
      var before := Merged(files[..|files| - 1]);
      WithFile(before, last)
  }

  function WithFile(configs: Config, file: File): Config
    requires Complete(file)
  {
    var c := file.collection.value;
    configs[c := (if c in configs then configs[c] else []) + file.indexes.value]
  }

  /** Each collection gets the specs of all its files, in file order, and no other collection appears. */
  lemma {:induction false} MergedIs(files: seq<File>, c: string)
    requires AllComplete(files)
    ensures c in Merged(files) <==> exists k :: 0 <= k < |files| && files[k].collection == Some(c)
    ensures SpecsFor(files, c) == if c in Merged(files) then Merged(files)[c] else []
  {
    if files != [] {
      var before := files[..|files| - 1];
      MergedIs(before, c);
      if k :| 0 <= k < |before| && before[k].collection == Some(c) {
        assert files[k].collection == Some(c);
      }
      if k :| 0 <= k < |files| - 1 && files[k].collection == Some(c) {
        assert before[k].collection == Some(c);
      }
    }
  }

  /** A missing field is a KeyError, a bad spec a ValueError. */
  datatype Loading = Loaded(configs: Config) | KeyError | ValueError

  /** Files are read in order and the first bad one decides: a missing collection or indexes, or else a spec without
      name or keys or a name repeated within the file. */
  method LoadIndexConfigs(files: seq<File>) returns (r: Loading)
    ensures r.Loaded? <==> forall k :: 0 <= k < |files| ==> WellFormed(files[k])
    ensures r.Loaded? ==> AllComplete(files) && r.configs == Merged(files)
    ensures r.KeyError? <==>
              exists k :: 0 <= k < |files| && !Complete(files[k]) && forall i :: 0 <= i < k ==> WellFormed(files[i])
    ensures r.ValueError? <==>
              exists k :: 0 <= k < |files| && Complete(files[k]) && !WellFormed(files[k]) &&
                          forall i :: 0 <= i < k ==> WellFormed(files[i])
  {
    hide Merged, WithFile;
    var found: Config := map[];
    assert Merged(files[..0]) == map[] by {
      NothingMerged();
    }
    for k := 0 to |files|
      invariant forall j :: 0 <= j < k ==> WellFormed(files[j])
      invariant AllComplete(files[..k]) && found == Merged(files[..k])
    {
      var file := files[k];
      if !Complete(file) { return KeyError; }
      var ok := CheckFile(file);
      if !ok { return ValueError; }
      MergedNext(files, k);
      found := WithFile(found, file);
    }
    assert files[..|files|] == files;
    return Loaded(found);
  }

  lemma NothingMerged()
    ensures Merged([]) == map[]
  {
  }

  lemma MergedNext(files: seq<File>, k: nat)
    requires k < |files| && AllComplete(files[..k]) && Complete(files[k])
    ensures AllComplete(files[..k + 1]) && Merged(files[..k + 1]) == WithFile(Merged(files[..k]), files[k])
  {
    assert files[..k + 1][..k] == files[..k];
  }

  // ----- Record ids -----

  function RecordId(collection: string, name: string): string { collection + "." + name }

  ghost predicate Desired(configs: Config, collection: string, spec: Spec)
  {
    collection in configs && spec in configs[collection]
  }

  /** Entries that share a record id are the same entry. */
  ghost predicate Unambiguous(configs: Config)
  {
    forall c, s, c', s' ::
      Desired(configs, c, s) && Desired(configs, c', s') && RecordId(c, s.name) == RecordId(c', s'.name) ==>
        c == c' && s == s'
  }

  lemma {:induction false} RecordIdsApart(c: string, n: string, c': string, n': string)
    requires '.' !in c && '.' !in c' && RecordId(c, n) == RecordId(c', n')
    ensures c == c' && n == n'
  {
    var id := RecordId(c, n);
    assert id[|c|] == '.' && id[|c'|] == '.';
    assert !(|c| < |c'|) && !(|c'| < |c|);
    assert c == id[..|c|] == c';
    assert n == id[|c| + 1..] == n';
  }

  ghost predicate DotFree(configs: Config) { forall c :: c in configs ==> '.' !in c }

  /** With collection names free of dots, it is enough that repeated (collection, name) entries carry equal specs. */
  lemma DotFreeIsUnambiguous(configs: Config)
    requires DotFree(configs)
    requires forall c, s, s' :: Desired(configs, c, s) && Desired(configs, c, s') && s.name == s'.name ==> s == s'
    ensures Unambiguous(configs)
  {
    forall c, s, c', s' | Desired(configs, c, s) && Desired(configs, c', s') &&
        RecordId(c, s.name) == RecordId(c', s'.name)
      ensures c == c' && s == s'
    {
      RecordIdsApart(c, s.name, c', s'.name);
    }
  }

  ghost predicate DesiredPlace(configs: Config, place: Place)
  {
    exists s :: Desired(configs, place.collection, s) && s.name == place.name
  }

  ghost predicate DesiredId(configs: Config, id: string)
  {
    exists c, s :: Desired(configs, c, s) && id == RecordId(c, s.name)
  }

  type Records = map<string, Record>
  type Indexes = map<Place, Index>

  // ----- What records and indexes say about each other -----

  ghost predicate Recorded(records: Records, collection: string, spec: Spec)
  {
    RecordId(collection, spec.name) in records && records[RecordId(collection, spec.name)].spec == spec
  }

  ghost predicate InPlace(indexes: Indexes, collection: string, spec: Spec)
  {
    Place(collection, spec.name) in indexes && indexes[Place(collection, spec.name)] == Built(spec)
  }

  /** Each record sits under its own id, and a record under a desired id speaks for that very place. */
  ghost predicate Filed(configs: Config, records: Records)
  {
    && (forall id :: id in records ==> id == RecordId(records[id].collection, records[id].name))
    && (forall c, s :: Desired(configs, c, s) && RecordId(c, s.name) in records ==>
          records[RecordId(c, s.name)].collection == c && records[RecordId(c, s.name)].name == s.name)
  }

  /** A record that equals its desired spec vouches for the index; kept by every step, crash or not. */
  ghost predicate Truthful(configs: Config, records: Records, indexes: Indexes)
  {
    && Filed(configs, records)
    && forall c, s :: Desired(configs, c, s) && Recorded(records, c, s) ==> InPlace(indexes, c, s)
  }

  /** The records are exactly the desired set, and they tell the truth. */
  ghost predicate Converged(configs: Config, records: Records, indexes: Indexes)
  {
    && Truthful(configs, records, indexes)
    && AllRecorded(configs, records)
    && (forall id :: id in records ==> DesiredId(configs, id))
  }

  /** Every configured index is there, as its spec has it. */
  ghost predicate AllRealized(configs: Config, indexes: Indexes)
  {
    forall c, s :: Desired(configs, c, s) ==>
      Place(c, s.name) in indexes && Realizes(indexes[Place(c, s.name)], s)
  }

  lemma ConvergedRealizes(configs: Config, records: Records, indexes: Indexes)
    requires Converged(configs, records, indexes)
    ensures AllRealized(configs, indexes)
  {
    hide RecordId, Realizes;
    forall c, s | Desired(configs, c, s)
      ensures Place(c, s.name) in indexes && Realizes(indexes[Place(c, s.name)], s)
    {
      assert Recorded(records, c, s);
      BuiltRealizes(s);
    }
  }

  ghost predicate AllRecorded(configs: Config, records: Records)
  {
    forall c, s :: Desired(configs, c, s) ==> Recorded(records, c, s)
  }

  /** Some record speaks for the place. */
  ghost predicate Spoken(records: Records, place: Place)
  {
    exists id :: id in records && Place(records[id].collection, records[id].name) == place
  }

  ghost predicate SameAt<K, V>(k: K, a: map<K, V>, b: map<K, V>)
  {
    (k in a <==> k in b) && (k in a ==> a[k] == b[k])
  }

  /** Nothing outside the configuration changed, and no desired record got worse. */
  ghost predicate OnlyDesiredChanged(configs: Config, records: Records, indexes: Indexes, records': Records,
      indexes': Indexes)
  {
    && (forall id :: !DesiredId(configs, id) ==> SameAt(id, records, records'))
    && (forall place :: !DesiredPlace(configs, place) ==> SameAt(place, indexes, indexes'))
    && (forall c, s :: Desired(configs, c, s) && Recorded(records, c, s) ==> Recorded(records', c, s))
  }

  lemma DesiredHere(configs: Config, collection: string, spec: Spec)
    requires Desired(configs, collection, spec)
    ensures DesiredId(configs, RecordId(collection, spec.name)) && DesiredPlace(configs, Place(collection, spec.name))
  {
  }

  /** Dropping, building and recording one index that is not recorded yet: all three points are safe to stop at. */
  lemma OneIndexSafe(configs: Config, collection: string, spec: Spec, records: Records, indexes: Indexes)
    requires Unambiguous(configs) && Truthful(configs, records, indexes)
    requires Desired(configs, collection, spec) && !Recorded(records, collection, spec)
    ensures var place, id := Place(collection, spec.name), RecordId(collection, spec.name);
            var dropped := indexes - {place};
            var built := dropped[place := Built(spec)];
            var filed := records[id := Record(collection, spec.name, spec)];
            && Truthful(configs, records, dropped) && OnlyDesiredChanged(configs, records, indexes, records, dropped)
            && Truthful(configs, records, built) && OnlyDesiredChanged(configs, records, indexes, records, built)
            && Truthful(configs, filed, built) && OnlyDesiredChanged(configs, records, indexes, filed, built)
            && Recorded(filed, collection, spec)
  {
    hide RecordId;
    DesiredHere(configs, collection, spec);
    var place, id := Place(collection, spec.name), RecordId(collection, spec.name);
    var filed := records[id := Record(collection, spec.name, spec)];
    forall c, s | Desired(configs, c, s)
      ensures Recorded(records, c, s) ==> Place(c, s.name) != place && Recorded(filed, c, s)
      ensures Recorded(filed, c, s) ==>
              (c == collection && s == spec) || (Recorded(records, c, s) && Place(c, s.name) != place)
    {
    }
  }

  lemma NothingChanged(configs: Config, records: Records, indexes: Indexes)
    ensures OnlyDesiredChanged(configs, records, indexes, records, indexes)
  {
  }

  lemma ChangesAddUp(configs: Config, r0: Records, i0: Indexes, r1: Records, i1: Indexes, r2: Records, i2: Indexes)
    requires OnlyDesiredChanged(configs, r0, i0, r1, i1) && OnlyDesiredChanged(configs, r1, i1, r2, i2)
    ensures OnlyDesiredChanged(configs, r0, i0, r2, i2)
    ensures forall c, s :: Desired(configs, c, s) && Recorded(r1, c, s) ==> Recorded(r2, c, s)
  {
    hide DesiredId, DesiredPlace, Recorded;
  }

  /** Records and indexes that left the configuration may go, and only those. */
  ghost predicate OnlyUndesiredDropped(configs: Config, records: Records, indexes: Indexes, records': Records,
      indexes': Indexes)
  {
    && (forall id :: DesiredId(configs, id) ==> SameAt(id, records, records'))
    && (forall id :: id in records' ==> SameAt(id, records, records'))
    && (forall place :: DesiredPlace(configs, place) || !Spoken(records, place) ==> SameAt(place, indexes, indexes'))
  }

  /** No index is left for the records that were dropped, unless its drop failed. */
  ghost predicate Unmanaged(configs: Config, records: Records, indexes': Indexes, todo: set<string>,
      failing: set<Place>)
  {
    forall id :: id in records && !DesiredId(configs, id) && id !in todo ==>
      var place := Place(records[id].collection, records[id].name);
      place !in indexes' || place in failing
  }

  function AfterDrop(indexes: Indexes, place: Place, failing: set<Place>): Indexes
  {
    if place in failing then indexes else indexes - {place}
  }

  lemma OneDropSafe(configs: Config, r0: Records, i0: Indexes, records: Records, indexes: Indexes, id: string,
      todo: set<string>, failing: set<Place>)
    requires Truthful(configs, records, indexes) && OnlyUndesiredDropped(configs, r0, i0, records, indexes)
    requires Unmanaged(configs, r0, indexes, todo, failing) && id in todo && id in records && !DesiredId(configs, id)
    ensures var dropped := AfterDrop(indexes, Place(records[id].collection, records[id].name), failing);
            && Truthful(configs, records, dropped) && OnlyUndesiredDropped(configs, r0, i0, records, dropped)
            && Truthful(configs, records - {id}, dropped) &&
                OnlyUndesiredDropped(configs, r0, i0, records - {id}, dropped)
            && Unmanaged(configs, r0, dropped, todo - {id}, failing)
  {
    hide RecordId;
    var place := Place(records[id].collection, records[id].name);
    assert SameAt(id, r0, records);
    assert Spoken(r0, place);
    PlaceOfRecord(configs, records, id);
  }

  /** A record's place is configured exactly when its id is. */
  lemma PlaceOfRecord(configs: Config, records: Records, id: string)
    requires Filed(configs, records) && id in records
    ensures DesiredPlace(configs, Place(records[id].collection, records[id].name)) <==> DesiredId(configs, id)
  {
    hide RecordId;
  }

  /** The database's indexes and the _index_config records. */
  class Store {
    var records: Records
    var indexes: Indexes

    /** A drop that fails, for a missing index or for any other reason, is passed over in silence. */
    method DropIndexIfExists(collection: string, name: string, failing: set<Place>)
      modifies this`indexes
      ensures indexes == AfterDrop(old(indexes), Place(collection, name), failing)
    {
      if Place(collection, name) !in failing {
        indexes := indexes - {Place(collection, name)};
      }
    }

    method SyncOne(configs: Config, collection: string, spec: Spec, failing: set<Place>, survives: bool)
        returns (done: bool, created: nat)
      requires Unambiguous(configs) && Desired(configs, collection, spec) && Truthful(configs, records, indexes)
      modifies this
      ensures Truthful(configs, records, indexes)
      ensures OnlyDesiredChanged(configs, old(records), old(indexes), records, indexes)
      ensures done ==> Recorded(records, collection, spec)
      ensures survives && failing == {} ==> done
      ensures done && created == 0 ==> Recorded(old(records), collection, spec)
      ensures Recorded(old(records), collection, spec) ==>
              done && created == 0 && records == old(records) && indexes == old(indexes)
    {
      hide Unambiguous, Truthful, OnlyDesiredChanged;
      created := 0;
      var recordId := RecordId(collection, spec.name);
      if recordId in records && records[recordId].spec == spec {
        NothingChanged(configs, records, indexes);
        return true, 0;
      }
      OneIndexSafe(configs, collection, spec, records, indexes);
      NothingChanged(configs, records, indexes);
      DropIndexIfExists(collection, spec.name, failing);
      var cut := Dies(survives);
      if cut { return false, created; }
      // Another index is still there under the name: creating this one is refused.
      if Place(collection, spec.name) in indexes && indexes[Place(collection, spec.name)] != Built(spec) {
        return false, created;
      }
      indexes, created := indexes[Place(collection, spec.name) := Built(spec)], 1;
      assert indexes == (old(indexes) - {Place(collection, spec.name)})[Place(collection, spec.name) := Built(spec)];
      cut := Dies(survives);
      if cut { return false, created; }
      records := records[recordId := Record(collection, spec.name, spec)];
      cut := Dies(survives);
      if cut { return false, created; }
      return true, created;
    }

    /** One collection's specs in order. */
    method SyncCollection(configs: Config, collection: string, failing: set<Place>, survives: bool)
        returns (done: bool, created: nat, ids: set<string>)
      requires Unambiguous(configs) && collection in configs && Truthful(configs, records, indexes)
      modifies this
      ensures Truthful(configs, records, indexes)
      ensures OnlyDesiredChanged(configs, old(records), old(indexes), records, indexes)
      ensures done ==> forall s :: Desired(configs, collection, s) ==>
              Recorded(records, collection, s) && RecordId(collection, s.name) in ids
      ensures survives && failing == {} ==> done
      ensures forall id :: id in ids ==> DesiredId(configs, id)
      ensures AllRecorded(configs, old(records)) ==>
              done && created == 0 && records == old(records) && indexes == old(indexes)
    {
      hide RecordId, Unambiguous, Truthful, Recorded, OnlyDesiredChanged;
      done, created, ids := true, 0, {};
      NothingChanged(configs, records, indexes);
      var specs := configs[collection];
      for i := 0 to |specs|
        invariant done
        invariant Truthful(configs, records, indexes)
        invariant OnlyDesiredChanged(configs, old(records), old(indexes), records, indexes)
        invariant forall j :: 0 <= j < i ==>
                  Recorded(records, collection, specs[j]) && RecordId(collection, specs[j].name) in ids
        invariant forall id :: id in ids ==> DesiredId(configs, id)
        invariant AllRecorded(configs, old(records)) ==>
                  created == 0 && records == old(records) && indexes == old(indexes)
      {
        var spec := specs[i];
        DesiredHere(configs, collection, spec);
        assert forall j :: 0 <= j < i ==> Desired(configs, collection, specs[j]);
        ids := ids + {RecordId(collection, spec.name)};
        ghost var r, x := records, indexes;
        var one;
        done, one := SyncOne(configs, collection, spec, failing, survives);
        ChangesAddUp(configs, old(records), old(indexes), r, x, records, indexes);
        created := created + one;
        if !done { return; }
      }
    }

    /** The first loop: brings every configured index up to its spec. */
    method SyncDesired(configs: Config, failing: set<Place>, survives: bool)
        returns (done: bool, created: nat, desiredIds: set<string>)
      requires Unambiguous(configs) && Truthful(configs, records, indexes)
      modifies this
      ensures Truthful(configs, records, indexes)
      ensures OnlyDesiredChanged(configs, old(records), old(indexes), records, indexes)
      ensures done ==> AllRecorded(configs, records)
      ensures survives && failing == {} ==> done
      ensures done ==> forall id :: id in desiredIds <==> DesiredId(configs, id)
      ensures AllRecorded(configs, old(records)) ==>
              done && created == 0 && records == old(records) && indexes == old(indexes)
    {
      hide RecordId, Unambiguous, Truthful, Recorded, OnlyDesiredChanged;
      done, created, desiredIds := true, 0, {};
      NothingChanged(configs, records, indexes);
      var todo := configs.Keys;
      while todo != {}
        invariant todo <= configs.Keys && done
        invariant Truthful(configs, records, indexes)
        invariant OnlyDesiredChanged(configs, old(records), old(indexes), records, indexes)
        invariant forall c, s :: Desired(configs, c, s) && c !in todo ==>
                  Recorded(records, c, s) && RecordId(c, s.name) in desiredIds
        invariant forall id :: id in desiredIds ==> DesiredId(configs, id)
        invariant AllRecorded(configs, old(records)) ==>
                  created == 0 && records == old(records) && indexes == old(indexes)
        decreases todo
      {
        var collection := PickOne(todo);
        ghost var r, x := records, indexes;
        var one, ids;
        done, one, ids := SyncCollection(configs, collection, failing, survives);
        ChangesAddUp(configs, old(records), old(indexes), r, x, records, indexes);
        created, desiredIds := created + one, desiredIds + ids;
        if !done { return; }
        todo := todo - {collection};
      }
    }

    /** The second loop: drops what is recorded but no longer configured. */
    method DropUnmanaged(configs: Config, desiredIds: set<string>, failing: set<Place>, survives: bool)
        returns (done: bool, dropped: nat)
      requires Truthful(configs, records, indexes)
      requires forall id :: id in desiredIds <==> DesiredId(configs, id)
      modifies this
      ensures Truthful(configs, records, indexes)
      ensures OnlyUndesiredDropped(configs, old(records), old(indexes), records, indexes)
      ensures done ==>
              (forall id :: id in records ==> DesiredId(configs, id)) &&
              Unmanaged(configs, old(records), indexes, {}, failing)
      ensures survives && failing == {} ==> done
      ensures (forall id :: id in old(records) ==> DesiredId(configs, id)) ==>
              done && dropped == 0 && records == old(records) && indexes == old(indexes)
    {
      hide Truthful, OnlyUndesiredDropped, Unmanaged, DesiredId;
      done, dropped := true, 0;
      var todo := records.Keys;
      NothingDropped(configs, records, indexes, failing);
      while todo != {}
        invariant todo <= records.Keys && done
        invariant Truthful(configs, records, indexes)
        invariant OnlyUndesiredDropped(configs, old(records), old(indexes), records, indexes)
        invariant Unmanaged(configs, old(records), indexes, todo, failing)
        invariant forall id :: id in records ==> id in todo || DesiredId(configs, id)
        invariant (forall id :: id in old(records) ==> DesiredId(configs, id)) ==>
                  dropped == 0 && records == old(records) && indexes == old(indexes)
        decreases todo
      {
        var id := PickOne(todo);
        if id in desiredIds {
          SkipDesired(configs, old(records), indexes, todo, id, failing);
          todo := todo - {id};
          continue;
        }
        OneDropSafe(configs, old(records), old(indexes), records, indexes, id, todo, failing);
        RecordedBefore(configs, old(records), old(indexes), records, indexes, id);
        var record := records[id];
        DropIndexIfExists(record.collection, record.name, failing);
        dropped := dropped + 1;
        var cut := Dies(survives);
        if cut { return false, dropped; }
        records := records - {id};
        cut := Dies(survives);
        if cut { return false, dropped; }
        todo := todo - {id};
      }
    }

    /** A run never loses track: what its records say stays true wherever it is cut short, and what is neither
        configured nor recorded is not touched. A run that ends has converged and, but for drops that
        failed in silence, dropped what left the configuration. A run from a converged state ends and does nothing. */
    method SyncIndexes(configs: Config, failing: set<Place>, survives: bool)
        returns (done: bool, created: nat, dropped: nat)
      requires Unambiguous(configs) && Truthful(configs, records, indexes)
      modifies this
      ensures Truthful(configs, records, indexes)
      ensures Untouched(configs, old(records), old(indexes), records, indexes)
      ensures done ==> Converged(configs, records, indexes) && AllRealized(configs, indexes)
      ensures survives && failing == {} ==> done
      ensures done ==> forall place :: Spoken(old(records), place) && !DesiredPlace(configs, place) ==>
              place !in indexes || place in failing
      ensures Converged(configs, old(records), old(indexes)) ==>
              done && created == 0 && dropped == 0 && records == old(records) && indexes == old(indexes)
    {
      hide RecordId, Unambiguous, Filed, OnlyDesiredChanged, OnlyUndesiredDropped, Unmanaged, DesiredId, Untouched,
          Recorded, Spoken, DesiredPlace, AllRecorded, InPlace, AllRealized;
      var desiredIds;
      done, created, desiredIds := SyncDesired(configs, failing, survives);
      dropped := 0;
      ghost var r, x := records, indexes;
      if !done {
        NothingDropped(configs, records, indexes, failing);
      } else {
        done, dropped := DropUnmanaged(configs, desiredIds, failing, survives);
        StillRecorded(configs, r, x, records, indexes);
        if done {
          ConvergedRealizes(configs, records, indexes);
          forall place | Spoken(old(records), place) && !DesiredPlace(configs, place)
            ensures place !in indexes || place in failing
          {
            StaleGone(configs, old(records), old(indexes), r, x, indexes, place, failing);
          }
        }
      }
      RunEnds(configs, old(records), old(indexes), r, x, records, indexes);
    }
  }

  lemma NothingDropped(configs: Config, records: Records, indexes: Indexes, failing: set<Place>)
    ensures OnlyUndesiredDropped(configs, records, indexes, records, indexes)
    ensures Unmanaged(configs, records, indexes, records.Keys, failing)
  {
  }

  lemma SkipDesired(configs: Config, r0: Records, indexes: Indexes, todo: set<string>, id: string, failing: set<Place>)
    requires Unmanaged(configs, r0, indexes, todo, failing) && DesiredId(configs, id)
    ensures Unmanaged(configs, r0, indexes, todo - {id}, failing)
  {
  }

  lemma RecordedBefore(configs: Config, r0: Records, i0: Indexes, records: Records, indexes: Indexes, id: string)
    requires OnlyUndesiredDropped(configs, r0, i0, records, indexes) && id in records
    ensures id in r0
  {
    hide DesiredId, DesiredPlace, Spoken;
    assert SameAt(id, r0, records);
  }

  /** What is neither configured nor recorded keeps its index and stays unrecorded. */
  ghost predicate Untouched(configs: Config, records: Records, indexes: Indexes, records': Records, indexes': Indexes)
  {
    forall place :: !DesiredPlace(configs, place) && !Spoken(records, place) ==>
        SameAt(place, indexes, indexes') && !Spoken(records', place)
  }

  lemma SpokenStays(configs: Config, r0: Records, i0: Indexes, r1: Records, i1: Indexes, place: Place)
    requires OnlyDesiredChanged(configs, r0, i0, r1, i1) && Filed(configs, r0) && Filed(configs, r1) &&
             !DesiredPlace(configs, place)
    ensures Spoken(r0, place) <==> Spoken(r1, place)
  {
    hide Filed, DesiredPlace, DesiredId, Recorded;
    if id :| id in r0 && Place(r0[id].collection, r0[id].name) == place {
      PlaceOfRecord(configs, r0, id);
      assert SameAt(id, r0, r1);
    }
    if id :| id in r1 && Place(r1[id].collection, r1[id].name) == place {
      PlaceOfRecord(configs, r1, id);
      assert SameAt(id, r0, r1);
    }
  }

  lemma RunEnds(configs: Config, r0: Records, i0: Indexes, r1: Records, i1: Indexes, r2: Records, i2: Indexes)
    requires OnlyDesiredChanged(configs, r0, i0, r1, i1) && OnlyUndesiredDropped(configs, r1, i1, r2, i2)
    requires Filed(configs, r0) && Filed(configs, r1)
    ensures Untouched(configs, r0, i0, r2, i2)
  {
    hide Filed, DesiredPlace, DesiredId, Recorded;
    forall place | !DesiredPlace(configs, place) && !Spoken(r0, place)
      ensures SameAt(place, i0, i2) && !Spoken(r2, place)
    {
      SpokenStays(configs, r0, i0, r1, i1, place);
      assert SameAt(place, i0, i1) && SameAt(place, i1, i2);
      forall id | id in r2
        ensures Place(r2[id].collection, r2[id].name) != place
      {
        assert SameAt(id, r1, r2);
      }
    }
  }

  lemma StaleGone(configs: Config, r0: Records, i0: Indexes, r1: Records, i1: Indexes, i2: Indexes, place: Place,
      failing: set<Place>)
    requires OnlyDesiredChanged(configs, r0, i0, r1, i1) && Unmanaged(configs, r1, i2, {}, failing)
    requires Filed(configs, r0) && Filed(configs, r1)
    requires Spoken(r0, place) && !DesiredPlace(configs, place)
    ensures place !in i2 || place in failing
  {
    hide Filed, DesiredPlace, DesiredId, Recorded, OnlyDesiredChanged;
    SpokenStays(configs, r0, i0, r1, i1, place);
    var id :| id in r1 && Place(r1[id].collection, r1[id].name) == place;
    PlaceOfRecord(configs, r1, id);
  }

  /** Dropping what is not desired leaves every desired record recorded. */
  lemma StillRecorded(configs: Config, r1: Records, i1: Indexes, r2: Records, i2: Indexes)
    requires OnlyUndesiredDropped(configs, r1, i1, r2, i2) && AllRecorded(configs, r1)
    ensures AllRecorded(configs, r2)
  {
    hide RecordId, DesiredPlace, Spoken;
    forall c, s | Desired(configs, c, s)
      ensures Recorded(r2, c, s)
    {
      DesiredHere(configs, c, s);
      assert SameAt(RecordId(c, s.name), r1, r2);
      assert Recorded(r1, c, s);
    }
  }

  /** Repeated entries with different specs can never all be recorded, so such a configuration is synced anew on
      every run. */
  lemma RepeatedMustAgree(configs: Config, records: Records, c: string, s: Spec, s': Spec)
    requires AllRecorded(configs, records)
    requires Desired(configs, c, s) && Desired(configs, c, s') && s.name == s'.name
    ensures s == s'
  {
    assert Recorded(records, c, s) && Recorded(records, c, s');
  }

  /** Records left by a finished run speak for the very places the next configuration means by their ids. */
  lemma FiledForNext(configs: Config, next: Config, records: Records, indexes: Indexes)
    requires Converged(configs, records, indexes) && DotFree(configs) && DotFree(next)
    ensures Filed(next, records)
  {
    hide RecordId, InPlace, Recorded;
    forall c', s' | Desired(next, c', s') && RecordId(c', s'.name) in records
      ensures records[RecordId(c', s'.name)].collection == c' && records[RecordId(c', s'.name)].name == s'.name
    {
      var id := RecordId(c', s'.name);
      var c, s :| Desired(configs, c, s) && id == RecordId(c, s.name);
      RecordIdsApart(c, s.name, c', s'.name);
    }
  }

  /** After a run that ended, the records are truthful for the next configuration too. */
  lemma ReadyForNext(configs: Config, next: Config, records: Records, indexes: Indexes)
    requires Converged(configs, records, indexes) && DotFree(configs) && DotFree(next)
    ensures Truthful(next, records, indexes)
  {
    hide RecordId, InPlace;
    FiledForNext(configs, next, records, indexes);
    forall c', s' | Desired(next, c', s') && Recorded(records, c', s')
      ensures InPlace(indexes, c', s')
    {
      var id := RecordId(c', s'.name);
      var c, s :| Desired(configs, c, s) && id == RecordId(c, s.name);
      assert Recorded(records, c, s);
    }
  }

  lemma UntouchedTwice(configs: Config, r0: Records, i0: Indexes, r1: Records, i1: Indexes, r2: Records, i2: Indexes)
    requires Untouched(configs, r0, i0, r1, i1) && Untouched(configs, r1, i1, r2, i2)
    ensures Untouched(configs, r0, i0, r2, i2)
  {
    hide DesiredPlace, Spoken;
    forall place | !DesiredPlace(configs, place) && !Spoken(r0, place)
      ensures SameAt(place, i0, i2) && !Spoken(r2, place)
    {
      assert SameAt(place, i0, i1) && SameAt(place, i1, i2);
    }
  }

  /** Whether a pod survives its run, and which of its drops fail. */
  datatype Attempt = Attempt(survives: bool, failing: set<Place>)

  /** One run per pod over one configuration, each possibly cut short: once one of them has ended, the store is
      converged and stays so. The first pod that survives and has no failing drop ends its run. */
  method Restarts(store: Store, configs: Config, attempts: seq<Attempt>) returns (converged: bool)
    requires Unambiguous(configs) && Truthful(configs, store.records, store.indexes)
    modifies store
    ensures Truthful(configs, store.records, store.indexes)
    ensures Untouched(configs, old(store.records), old(store.indexes), store.records, store.indexes)
    ensures converged ==> Converged(configs, store.records, store.indexes) && AllRealized(configs, store.indexes)
    ensures (exists k :: 0 <= k < |attempts| && attempts[k].survives && attempts[k].failing == {}) ==> converged
  {
    hide Unambiguous, Truthful, Untouched, Converged, DesiredPlace, Spoken, AllRealized;
    converged := false;
    UntouchedAtFirst(configs, store.records, store.indexes);
    for k := 0 to |attempts|
      invariant Truthful(configs, store.records, store.indexes)
      invariant Untouched(configs, old(store.records), old(store.indexes), store.records, store.indexes)
      invariant converged ==> Converged(configs, store.records, store.indexes)
      invariant (exists j :: 0 <= j < k && attempts[j].survives && attempts[j].failing == {}) ==> converged
    {
      ghost var r, x := store.records, store.indexes;
      var done, _, _ := store.SyncIndexes(configs, attempts[k].failing, attempts[k].survives);
      UntouchedTwice(configs, old(store.records), old(store.indexes), r, x, store.records, store.indexes);
      converged := converged || done;
    }
    if converged {
      ConvergedRealizes(configs, store.records, store.indexes);
    }
  }

  lemma UntouchedAtFirst(configs: Config, records: Records, indexes: Indexes)
    ensures Untouched(configs, records, indexes, records, indexes)
  {
  }
}
