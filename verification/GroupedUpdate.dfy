/** Setting one field of many documents: ids grouped by value, one bulk operation per value, sent in unordered
    chunks. */
module GroupedUpdate {
  import opened Sums
  import opened Options

  const BULK_CHUNK: nat := 1000

  datatype UpdateMany<V> = UpdateMany(ids: seq<int>, value: V)

  /** The plain way: each document on its own. */
  function SetEach<D, V>(docs: map<int, D>, values: map<int, V>, assign: (D, V) -> D): map<int, D>
  {
    map id | id in docs :: if id in values then assign(docs[id], values[id]) else docs[id]
  }

  /** One bulk operation. */
  function Applied<D, V>(docs: map<int, D>, op: UpdateMany<V>, assign: (D, V) -> D): map<int, D>
  {
    map id | id in docs :: if id in op.ids then assign(docs[id], op.value) else docs[id]
  }

  /** The documents once the operations for the values `done` have been applied. */
  ghost function SetWhere<D, V>(docs: map<int, D>, values: map<int, V>, done: set<V>, assign: (D, V) -> D): map<int, D>
  {
    map id | id in docs :: if id in values && values[id] in done then assign(docs[id], values[id]) else docs[id]
  }

  /** Each operation holds exactly the ids of its value, and each value has one. */
  ghost predicate Groups<V>(ops: seq<UpdateMany<V>>, values: map<int, V>)
  {
    && (forall i, j :: 0 <= i < j < |ops| ==> ops[i].value != ops[j].value)
    && (forall k, id :: 0 <= k < |ops| ==> (id in ops[k].ids <==> id in values && values[id] == ops[k].value))
  }

  lemma OneMoreOperation<D, V>(docs: map<int, D>, values: map<int, V>, done: set<V>, op: UpdateMany<V>,
      assign: (D, V) -> D)
    requires op.value !in done
    requires forall id :: id in op.ids <==> id in values && values[id] == op.value
    ensures Applied(SetWhere(docs, values, done, assign), op, assign)
            == SetWhere(docs, values, done + {op.value}, assign)
  {
    var before := SetWhere(docs, values, done, assign);
    var after := Applied(before, op, assign);
    forall id | id in docs
      ensures after[id] == SetWhere(docs, values, done + {op.value}, assign)[id]
    {
      if id in values && values[id] == op.value {
        assert before[id] == docs[id];
      }
    }
    assert after.Keys == docs.Keys;
  }

  ghost predicate HasValue<V>(ops: seq<UpdateMany<V>>, value: V)
  {
    exists k :: 0 <= k < |ops| && ops[k].value == value
  }

  lemma HasIndex<V>(ops: seq<UpdateMany<V>>, value: V)
    ensures HasValue(ops, value) ==> exists k :: 0 <= k < |ops| && ops[k].value == value
  {
  }

  lemma SliceGroups<V>(ops: seq<UpdateMany<V>>, values: map<int, V>, start: nat, end: nat)
    requires Groups(ops, values) && start <= end <= |ops|
    ensures Groups(ops[start..end], values)
  {
    var chunk := ops[start..end];
    forall i, j | 0 <= i < j < |chunk|
      ensures chunk[i].value != chunk[j].value
    {
      assert chunk[i] == ops[start + i] && chunk[j] == ops[start + j];
    }
    forall k, id | 0 <= k < |chunk|
      ensures id in chunk[k].ids <==> id in values && values[id] == chunk[k].value
    {
      assert chunk[k] == ops[start + k];
    }
  }

  lemma SliceHas<V>(ops: seq<UpdateMany<V>>, values: map<int, V>, start: nat, end: nat, k: nat)
    requires Groups(ops, values) && start <= end <= |ops| && k < |ops|
    ensures HasValue(ops[start..end], ops[k].value) <==> start <= k < end
  {
    var chunk := ops[start..end];
    if start <= k < end {
      assert chunk[k - start].value == ops[k].value;
    }
    forall j | 0 <= j < |chunk| && chunk[j].value == ops[k].value
      ensures start + j == k
    {
      assert chunk[j] == ops[start + j];
    }
  }

  lemma AllWhere<D, V>(docs: map<int, D>, values: map<int, V>, done: set<V>, assign: (D, V) -> D)
    requires forall id :: id in values ==> values[id] in done
    ensures SetWhere(docs, values, done, assign) == SetEach(docs, values, assign)
  {
    forall id | id in docs
      ensures SetWhere(docs, values, done, assign)[id] == SetEach(docs, values, assign)[id]
    {
      if id in values {
        assert values[id] in done;
      }
    }
    assert SetWhere(docs, values, done, assign).Keys == SetEach(docs, values, assign).Keys;
  }

  lemma NoneWhere<D, V>(docs: map<int, D>, values: map<int, V>, assign: (D, V) -> D)
    ensures SetWhere(docs, values, {}, assign) == docs
  {
  }

  method GroupByValue<V(==)>(values: map<int, V>) returns (groups: map<V, seq<int>>)
    ensures forall v, id :: v in groups ==> (id in groups[v] <==> id in values && values[id] == v)
    ensures forall id :: id in values ==> values[id] in groups
  {
    groups := map[];
    var todo := values.Keys;
    ghost var seen: set<int> := {};
    while todo != {}
      invariant seen + todo == values.Keys && seen !! todo
      invariant forall v, id :: v in groups ==> (id in groups[v] <==> id in seen && values[id] == v)
      invariant forall id :: id in seen ==> values[id] in groups
      decreases todo
    {
      var id := PickOne(todo);
      var v := values[id];
      groups := groups[v := (if v in groups then groups[v] else []) + [id]];
      todo, seen := todo - {id}, seen + {id};
    }
    assert seen == values.Keys;
  }

  method Operations<V(==)>(groups: map<V, seq<int>>, ghost values: map<int, V>) returns (ops: seq<UpdateMany<V>>)
    requires forall v, id :: v in groups ==> (id in groups[v] <==> id in values && values[id] == v)
    requires forall id :: id in values ==> values[id] in groups
    ensures Groups(ops, values)
    ensures forall id :: id in values ==> HasValue(ops, values[id])
  {
    ops := [];
    var todo := groups.Keys;
    while todo != {}
      invariant todo <= groups.Keys
      invariant Groups(ops, values)
      invariant forall k :: 0 <= k < |ops| ==> ops[k].value !in todo
      invariant forall v :: v in groups && v !in todo ==> HasValue(ops, v)
      decreases todo
    {
      var v := PickOne(todo);
      ghost var before := ops;
      ops := ops + [UpdateMany(groups[v], v)];
      todo := todo - {v};
      forall u | u in groups && u !in todo
        ensures HasValue(ops, u)
      {
        if u == v {
          assert ops[|before|].value == u;
        } else {
          var k :| 0 <= k < |before| && before[k].value == u;
          assert ops[k].value == u;
        }
      }
    }
  }

  ghost function ValuesOf<V(!new)>(ops: seq<UpdateMany<V>>): (r: set<V>)
    ensures forall v :: v in r <==> HasValue(ops, v)
  {
    var r := set k | 0 <= k < |ops| :: ops[k].value;
    assert forall v :: v in r <==> HasValue(ops, v) by {
      forall v
        ensures v in r <==> HasValue(ops, v)
      {
        HasIndex(ops, v);
      }
    }
    r
  }

  /** An unordered bulk write: the operations land in any order. */
  method BulkWrite<D, V(==,!new)>(docs: map<int, D>, chunk: seq<UpdateMany<V>>, ghost values: map<int, V>,
      ghost done: set<V>, ghost first: map<int, D>, assign: (D, V) -> D)
    returns (docs': map<int, D>)
    requires Groups(chunk, values)
    requires forall k :: 0 <= k < |chunk| ==> chunk[k].value !in done
    requires docs == SetWhere(first, values, done, assign)
    ensures docs' == SetWhere(first, values, done + ValuesOf(chunk), assign)
  {
    docs' := docs;
    ghost var done' := done;
    var todo := set k: nat | k < |chunk| :: (k, chunk[k]);
    while todo != {}
      invariant forall e :: e in todo ==> e.0 < |chunk| && e.1 == chunk[e.0]
      invariant docs' == SetWhere(first, values, done', assign)
      invariant forall v :: v in done' ==> v in done || HasValue(chunk, v)
      invariant forall v :: v in done ==> v in done'
      invariant forall k: nat :: k < |chunk| ==> ((k, chunk[k]) in todo <==> chunk[k].value !in done')
      decreases todo
    {
      var e := PickOne(todo);
      OneMoreOperation(first, values, done', e.1, assign);
      docs' := Applied(docs', e.1, assign);
      todo, done' := todo - {e}, done' + {e.1.value};
    }
    assert done' == done + ValuesOf(chunk);
  }

  /** Grouping, chunking and unordered writing come to the same as setting each document on its own. */
  method SetGrouped<D, V(==,!new)>(docs: map<int, D>, values: map<int, V>, assign: (D, V) -> D)
      returns (docs': map<int, D>)
    ensures docs' == SetEach(docs, values, assign)
  {
    hide SetWhere, SetEach, Groups, HasValue;
    var groups := GroupByValue(values);
    var ops := Operations(groups, values);
    docs' := docs;
    ghost var done: set<V> := {};
    NoneWhere(docs, values, assign);
    var start := 0;
    while start < |ops|
      invariant 0 <= start
      invariant docs' == SetWhere(docs, values, done, assign)
      invariant forall k :: 0 <= k < |ops| ==> (ops[k].value in done <==> k < start)
    {
      var end := if start + BULK_CHUNK < |ops| then start + BULK_CHUNK else |ops|;
      SliceGroups(ops, values, start, end);
      forall k: nat | k < |ops|
        ensures HasValue(ops[start..end], ops[k].value) <==> start <= k < end
      {
        SliceHas(ops, values, start, end, k);
      }
      docs' := BulkWrite(docs', ops[start..end], values, done, docs, assign);
      done := done + ValuesOf(ops[start..end]);
      start := start + BULK_CHUNK;
    }
    forall id | id in values
      ensures values[id] in done
    {
      HasIndex(ops, values[id]);
    }
    AllWhere(docs, values, done, assign);
  }

  // ----- 0003 and 0004 -----

  datatype TypeDoc = TypeDoc(groupId: Option<int>, volume: Option<real>, categoryId: Option<int>)

  datatype TypeRow = TypeRow(typeId: int, volume: Option<real>)

  /** The volume a type ends up with: its last row's, 0 when that has none. */
  function VolumeOf(rows: seq<TypeRow>, id: int): Option<real>
  {
    if rows == [] then None
    else
      var last := rows[|rows| - 1];
      if last.typeId == id then Some(if last.volume.Some? then last.volume.value else 0.0)
      else VolumeOf(rows[..|rows| - 1], id)
  }

  ghost predicate LastRow(rows: seq<TypeRow>, i: int, id: int)
  {
    0 <= i < |rows| && rows[i].typeId == id && forall j :: i < j < |rows| ==> rows[j].typeId != id
  }

  /** The volume of the last row for the type, 0 when it has none; nothing without a row. */
  ghost predicate VolumeIs(rows: seq<TypeRow>, id: int, volume: Option<real>)
  {
    && ((forall i :: 0 <= i < |rows| ==> rows[i].typeId != id) ==> volume == None)
    && (forall i :: LastRow(rows, i, id) ==>
          0 <= i < |rows| && volume == Some(if rows[i].volume.Some? then rows[i].volume.value else 0.0))
  }

  lemma LastRowBefore(rows: seq<TypeRow>, i: int, id: int)
    requires rows != [] && LastRow(rows, i, id)
    ensures if rows[|rows| - 1].typeId == id then i == |rows| - 1
            else LastRow(rows[..|rows| - 1], i, id) && rows[..|rows| - 1][i] == rows[i]
  {
    var n := |rows| - 1;
    if i < n {
      forall j | i < j < n
        ensures rows[..n][j].typeId != id
      {
        assert rows[..n][j] == rows[j];
      }
    }
  }

  lemma NoRowBefore(rows: seq<TypeRow>, id: int)
    requires rows != [] && forall i :: 0 <= i < |rows| ==> rows[i].typeId != id
    ensures var before := rows[..|rows| - 1]; forall i :: 0 <= i < |before| ==> before[i].typeId != id
  {
  }

  lemma {:induction false} VolumeOfIsLast(rows: seq<TypeRow>, id: int)
    ensures VolumeIs(rows, id, VolumeOf(rows, id))
  {
    hide LastRow;
    if rows == [] {
      NoLastRow(id);
    } else {
      VolumeOfIsLast(rows[..|rows| - 1], id);
      if forall i :: 0 <= i < |rows| ==> rows[i].typeId != id {
        NoRowBefore(rows, id);
        assert rows[|rows| - 1].typeId != id;
      }
      forall i | LastRow(rows, i, id)
        ensures 0 <= i < |rows| &&
                VolumeOf(rows, id) == Some(if rows[i].volume.Some? then rows[i].volume.value else 0.0)
      {
        LastRowBefore(rows, i, id);
      }
    }
  }

  lemma NoLastRow(id: int)
    ensures forall i :: !LastRow([], i, id)
  {
  }

  method AddVolumes(rows: seq<TypeRow>, types: map<int, TypeDoc>) returns (types': map<int, TypeDoc>)
    ensures types'.Keys == types.Keys
    ensures forall i, id :: id in types && LastRow(rows, i, id) ==>
              var v := rows[i].volume;
              types'[id] == types[id].(volume := Some(if v.Some? then v.value else 0.0))
    ensures forall id :: id in types && (forall i :: 0 <= i < |rows| ==> rows[i].typeId != id) ==>
            types'[id] == types[id]
  {
    var volumes: map<int, real> := map[];
    for i := 0 to |rows|
      invariant forall id :: VolumeOf(rows[..i], id) == if id in volumes then Some(volumes[id]) else None
    {
      assert rows[..i + 1][..i] == rows[..i];
      volumes := volumes[rows[i].typeId := if rows[i].volume.Some? then rows[i].volume.value else 0.0];
    }
    assert rows[..|rows|] == rows;
    forall id
      ensures VolumeIs(rows, id, VolumeOf(rows, id))
    {
      VolumeOfIsLast(rows, id);
    }
    types' := SetGrouped(types, volumes, (doc: TypeDoc, volume: real) => doc.(volume := Some(volume)));
  }

  /** Documents whose group has a category get it; the others stay as they are. */
  method AddCategories(categories: map<int, int>, types: map<int, TypeDoc>) returns (types': map<int, TypeDoc>)
    ensures types'.Keys == types.Keys
    ensures forall id :: id in types ==>
              types'[id] == if types[id].groupId.Some? && types[id].groupId.value in categories
                            then types[id].(categoryId := Some(categories[types[id].groupId.value])) else types[id]
  {
    var wanted := map id | id in types && types[id].groupId.Some? && types[id].groupId.value in categories ::
        categories[types[id].groupId.value];
    types' := SetGrouped(types, wanted, (doc: TypeDoc, category: int) => doc.(categoryId := Some(category)));
  }
}
