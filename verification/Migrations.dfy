/** The migration log and the migrations that build sde_blueprints, with a crash possible after every await. */
module Migrations {
  import opened Sums
  import opened Options
  import opened Crashes

  const MANUFACTURING: int := 1
  const REACTIONS: int := 11
  const IMPORT_BATCH: nat := 5000
  const REACTION_BATCH: nat := 500

  datatype Table = InvTypes | IndustryActivity | IndustryActivityMaterials | IndustryActivityProducts

  /** One raw row; each table uses the columns it has. */
  datatype Row = Row(typeId: int, activityId: int, time: int, otherTypeId: int, quantity: int)

  type Files = map<Table, seq<Row>>

  const TABLES: seq<Table> := [IndustryActivity, IndustryActivityMaterials, IndustryActivityProducts, InvTypes]

  datatype Need = Need(typeId: int, quantity: int)

  datatype Doc = Doc(productTypeId: int, productQuantity: int, time: Option<int>, materials: seq<Need>,
      activityId: Option<int>)

  datatype Record = Top(number: nat) | Step(table: Table)

  const LAST: nat := 10

  // ----- What the documents of one activity are -----

  function Rows(tables: Files, t: Table): (rows: seq<Row>)
    ensures t in tables ==> rows == tables[t]
    ensures t !in tables ==> rows == []
  {
    if t in tables then tables[t] else []
  }

  /** The last time listed wins. */
  function TimeOf(rows: seq<Row>, activity: int, id: int): Option<int>
  {
    if rows == [] then None
    else
      var last := rows[|rows| - 1];
      if last.activityId == activity && last.typeId == id then Some(last.time)
      else TimeOf(rows[..|rows| - 1], activity, id)
  }

  /** The materials listed, in order. */
  function NeedsOf(rows: seq<Row>, activity: int, id: int): seq<Need>
  {
    if rows == [] then []
    else
      var last := rows[|rows| - 1];
      NeedsOf(rows[..|rows| - 1], activity, id) +
      if last.activityId == activity && last.typeId == id then [Need(last.otherTypeId, last.quantity)] else []
  }

  lemma NeedsOfNone(activity: int)
    ensures forall id :: NeedsOf([], activity, id) == []
  {
  }

  lemma NeedsNext(rows: seq<Row>, i: nat, activity: int)
    requires i < |rows|
    ensures forall id ::
              NeedsOf(rows[..i + 1], activity, id) ==
              NeedsOf(rows[..i], activity, id) +
              if rows[i].activityId == activity && rows[i].typeId == id
              then [Need(rows[i].otherTypeId, rows[i].quantity)] else []
  {
    assert rows[..i + 1][..i] == rows[..i];
  }

  function DocOf(tables: Files, product: Row, activityId: Option<int>): Doc
  {
    Doc(product.otherTypeId, product.quantity,
        TimeOf(Rows(tables, IndustryActivity), product.activityId, product.typeId),
        NeedsOf(Rows(tables, IndustryActivityMaterials), product.activityId, product.typeId),
        activityId)
  }

  datatype Entry = Entry(id: int, doc: Doc)

  function EntryOf(tables: Files, product: Row, activityId: Option<int>): Entry
  {
    Entry(product.typeId, DocOf(tables, product, activityId))
  }

  /** The documents built for the products listed for one activity, in order. */
  function DocList(tables: Files, products: seq<Row>, activity: int, activityId: Option<int>): seq<Entry>
  {
    if products == [] then []
    else
      var last := products[|products| - 1];
      DocList(tables, products[..|products| - 1], activity, activityId) +
      if last.activityId == activity then [EntryOf(tables, last, activityId)] else []
  }

  function ListOfActivity(tables: Files, activity: int, activityId: Option<int>): seq<Entry>
  {
    DocList(tables, Rows(tables, IndustryActivityProducts), activity, activityId)
  }

  function Indexed(entries: seq<Entry>): map<int, Doc>
  {
    if entries == [] then map[]
    else Indexed(entries[..|entries| - 1])[entries[|entries| - 1].id := entries[|entries| - 1].doc]
  }

  function DocsOfActivity(tables: Files, activity: int, activityId: Option<int>): map<int, Doc>
  {
    Indexed(ListOfActivity(tables, activity, activityId))
  }

  /** Manufacturing documents marked with activity 1 and reaction documents with activity 11. */
  function Expected(files: Files): map<int, Doc>
  {
    DocsOfActivity(files, MANUFACTURING, Some(MANUFACTURING)) + DocsOfActivity(files, REACTIONS, Some(REACTIONS))
  }

  ghost predicate UniqueIds(entries: seq<Entry>)
  {
    forall i, j :: 0 <= i < j < |entries| ==> entries[i].id != entries[j].id
  }

  /** No two product rows of the activity share an id. */
  ghost predicate UniqueRows(products: seq<Row>, activity: int)
  {
    forall i, j :: 0 <= i < j < |products| && products[i].activityId == products[j].activityId == activity ==>
      products[i].typeId != products[j].typeId
  }

  /** No manufacturing blueprint is listed twice; 0002 fails on one that is. */
  ghost predicate UniqueProducts(files: Files) { UniqueRows(Rows(files, IndustryActivityProducts), 1) }

  /** No reaction formula is listed twice. */
  ghost predicate UniqueReactions(files: Files) { UniqueRows(Rows(files, IndustryActivityProducts), 11) }

  lemma {:induction false} UniqueRowsUniqueIds(tables: Files, products: seq<Row>, activity: int,
      activityId: Option<int>)
    requires UniqueRows(products, activity)
    ensures UniqueIds(DocList(tables, products, activity, activityId))
  {
    hide DocOf;
    if products != [] {
      var before, last := products[..|products| - 1], products[|products| - 1];
      assert forall i :: 0 <= i < |before| ==> before[i] == products[i];
      UniqueRowsUniqueIds(tables, before, activity, activityId);
      var entries := DocList(tables, before, activity, activityId);
      forall k | 0 <= k < |entries| && last.activityId == activity
        ensures entries[k].id != last.typeId
      {
        DocListFrom(tables, before, activity, activityId, entries[k]);
        var i :| 0 <= i < |before| && before[i].activityId == activity &&
            entries[k] == EntryOf(tables, before[i], activityId);
        assert products[i] == before[i];
      }
    }
  }

  lemma {:induction false} IndexedFinds(entries: seq<Entry>, id: int)
    ensures id in Indexed(entries) <==> exists i :: 0 <= i < |entries| && entries[i].id == id
    ensures id in Indexed(entries) ==> exists i :: 0 <= i < |entries| && entries[i] == Entry(id, Indexed(entries)[id])
  {
    if entries != [] {
      var before := entries[..|entries| - 1];
      IndexedFinds(before, id);
      if id in Indexed(before) {
        var i :| 0 <= i < |before| && before[i] == Entry(id, Indexed(before)[id]);
        assert entries[i] == before[i];
      }
      if i :| 0 <= i < |entries| - 1 && entries[i].id == id {
        assert before[i].id == id;
      }
    }
  }

  lemma {:induction false} DocListFrom(tables: Files, products: seq<Row>, activity: int, activityId: Option<int>,
      entry: Entry)
    ensures entry in DocList(tables, products, activity, activityId) <==>
              exists i ::
                  0 <= i < |products| && products[i].activityId == activity &&
                  entry == EntryOf(tables, products[i], activityId)
  {
    hide DocOf;
    if products != [] {
      var before := products[..|products| - 1];
      DocListFrom(tables, before, activity, activityId, entry);
      if i :| 0 <= i < |before| && before[i].activityId == activity && entry == EntryOf(tables, before[i], activityId) {
        assert products[i] == before[i];
      }
      if i :| 0 <= i < |before| &&
              products[i].activityId == activity && entry == EntryOf(tables, products[i], activityId) {
        assert before[i] == products[i];
      }
    }
  }

  // ----- The same, from the rows themselves -----

  predicate Concerns(row: Row, activity: int, id: int) { row.activityId == activity && row.typeId == id }

  /** The time of the last row for this activity and id, if there is one. */
  ghost predicate LastTime(rows: seq<Row>, activity: int, id: int, time: Option<int>)
  {
    && (time.None? <==> forall i :: 0 <= i < |rows| ==> !Concerns(rows[i], activity, id))
    && (time.Some? ==>
         exists i :: 0 <= i < |rows| && Concerns(rows[i], activity, id) && rows[i].time == time.value &&
                     forall j :: i < j < |rows| ==> !Concerns(rows[j], activity, id))
  }

  /** The needs are those of the rows at these places, which are all the rows for this activity and id, in order. */
  ghost predicate ListedAt(rows: seq<Row>, activity: int, id: int, needs: seq<Need>, places: seq<nat>)
  {
    && |places| == |needs|
    && (forall k, l :: 0 <= k < l < |places| ==> places[k] < places[l])
    && (forall k :: 0 <= k < |places| ==>
         && places[k] < |rows| && Concerns(rows[places[k]], activity, id)
         && needs[k] == Need(rows[places[k]].otherTypeId, rows[places[k]].quantity))
    && (forall i :: 0 <= i < |rows| && Concerns(rows[i], activity, id) ==>
        exists k :: 0 <= k < |places| && places[k] == i)
  }

  ghost predicate ListsInOrder(rows: seq<Row>, activity: int, id: int, needs: seq<Need>)
  {
    exists places: seq<nat> :: ListedAt(rows, activity, id, needs, places)
  }

  /** The document of a product row: its product, its activity's last time for its id, and its activity's materials
      for its id in order. */
  ghost predicate Carries(files: Files, row: Row, doc: Doc)
  {
    && doc.productTypeId == row.otherTypeId && doc.productQuantity == row.quantity
    && doc.activityId == Some(row.activityId)
    && LastTime(Rows(files, IndustryActivity), row.activityId, row.typeId, doc.time)
    && ListsInOrder(Rows(files, IndustryActivityMaterials), row.activityId, row.typeId, doc.materials)
  }

  lemma {:induction false} TimeOfIsLast(rows: seq<Row>, activity: int, id: int)
    ensures LastTime(rows, activity, id, TimeOf(rows, activity, id))
  {
    if rows != [] {
      var before, last := rows[..|rows| - 1], rows[|rows| - 1];
      TimeOfIsLast(before, activity, id);
      assert forall i :: 0 <= i < |before| ==> before[i] == rows[i];
      if !Concerns(last, activity, id) && TimeOf(before, activity, id).Some? {
        var i :| 0 <= i < |before| && Concerns(before[i], activity, id) &&
                 before[i].time == TimeOf(before, activity, id).value &&
                 forall j :: i < j < |before| ==> !Concerns(before[j], activity, id);
        assert rows[i] == before[i];
      }
    }
  }

  lemma {:induction false} NeedsOfAreListed(rows: seq<Row>, activity: int, id: int)
    ensures ListsInOrder(rows, activity, id, NeedsOf(rows, activity, id))
  {
    if rows == [] {
      assert ListedAt(rows, activity, id, [], []);
    } else {
      var n := |rows| - 1;
      var before := rows[..n];
      NeedsOfAreListed(before, activity, id);
      hide ListedAt;
      var needs := NeedsOf(before, activity, id);
      var places: seq<nat> :| ListedAt(before, activity, id, needs, places);
      ListedNext(rows, activity, id, needs, places);
      assert needs + [] == needs;
    }
  }

  lemma ListedNext(rows: seq<Row>, activity: int, id: int, needs: seq<Need>, places: seq<nat>)
    requires rows != [] && ListedAt(rows[..|rows| - 1], activity, id, needs, places)
    ensures var n, last := |rows| - 1, rows[|rows| - 1];
            if Concerns(last, activity, id)
            then ListedAt(rows, activity, id, needs + [Need(last.otherTypeId, last.quantity)], places + [n])
            else ListedAt(rows, activity, id, needs, places)
  {
    var n := |rows| - 1;
    var before, longer := rows[..n], if Concerns(rows[n], activity, id) then places + [n] else places;
    forall i | 0 <= i < |rows| && Concerns(rows[i], activity, id)
      ensures exists k :: 0 <= k < |longer| && longer[k] == i
    {
      if i < n {
        assert before[i] == rows[i];
        var k :| 0 <= k < |places| && places[k] == i;
        assert longer[k] == i;
      } else {
        assert longer[|places|] == i;
      }
    }
  }

  lemma DocCarries(files: Files, row: Row)
    ensures Carries(files, row, DocOf(files, row, Some(row.activityId)))
  {
    TimeOfIsLast(Rows(files, IndustryActivity), row.activityId, row.typeId);
    NeedsOfAreListed(Rows(files, IndustryActivityMaterials), row.activityId, row.typeId);
  }

  /** Each document is that of a product row of activity 1 or 11 with its id; each such row has a document under its
      id, its own for activity 11, and for activity 1 when no reaction takes its id. */
  ghost predicate AsListed(files: Files, blueprints: map<int, Doc>)
  {
    var rows := Rows(files, IndustryActivityProducts);
    && (forall id :: id in blueprints ==>
         exists i :: 0 <= i < |rows| && rows[i].typeId == id && (rows[i].activityId == 1 || rows[i].activityId == 11) &&
                     Carries(files, rows[i], blueprints[id]))
    && (forall i :: 0 <= i < |rows| && (rows[i].activityId == 1 || rows[i].activityId == 11) ==>
         rows[i].typeId in blueprints)
    && (forall i :: 0 <= i < |rows| && rows[i].activityId == 11 ==> Carries(files, rows[i], blueprints[rows[i].typeId]))
    && (UniqueProducts(files) ==>
         forall i :: 0 <= i < |rows| && rows[i].activityId == 1 &&
                     (forall j :: 0 <= j < |rows| ==> !Concerns(rows[j], 11, rows[i].typeId)) ==>
           Carries(files, rows[i], blueprints[rows[i].typeId]))
  }

  lemma ExpectedAsListed(files: Files)
    requires UniqueReactions(files)
    ensures AsListed(files, Expected(files))
  {
    hide Carries, Expected, UniqueProducts, UniqueReactions, DocsOfActivity;
    var rows := Rows(files, IndustryActivityProducts);
    forall id | id in Expected(files)
      ensures exists i ::
              0 <= i < |rows| && rows[i].typeId == id && (rows[i].activityId == 1 || rows[i].activityId == 11) &&
                          Carries(files, rows[i], Expected(files)[id])
    {
      ExpectedIsListed(files, id);
    }
    forall i: nat | i < |rows| && (rows[i].activityId == 1 || rows[i].activityId == 11)
      ensures rows[i].typeId in Expected(files)
      ensures rows[i].activityId == 11 ==> Carries(files, rows[i], Expected(files)[rows[i].typeId])
      ensures rows[i].activityId == 1 && UniqueProducts(files) &&
              (forall j :: 0 <= j < |rows| ==> !Concerns(rows[j], 11, rows[i].typeId)) ==>
                Carries(files, rows[i], Expected(files)[rows[i].typeId])
    {
      ListedIsExpected(files, i);
      DocCarries(files, rows[i]);
      if rows[i].typeId in DocsOfActivity(files, REACTIONS, Some(REACTIONS)) {
        ReactionHasRow(files, rows[i].typeId);
      }
    }
  }

  lemma ReactionHasRow(files: Files, id: int)
    requires id in DocsOfActivity(files, REACTIONS, Some(REACTIONS))
    ensures exists j :: 0 <= j < |Rows(files, IndustryActivityProducts)| &&
                        Concerns(Rows(files, IndustryActivityProducts)[j], 11, id)
  {
    hide DocOf;
    var entries, products := ListOfActivity(files, REACTIONS, Some(REACTIONS)), Rows(files, IndustryActivityProducts);
    IndexedFinds(entries, id);
    var k :| 0 <= k < |entries| && entries[k] == Entry(id, Indexed(entries)[id]);
    DocListFrom(files, products, REACTIONS, Some(REACTIONS), entries[k]);
    var i :| 0 <= i < |products| && products[i].activityId == REACTIONS &&
             entries[k] == EntryOf(files, products[i], Some(REACTIONS));
    assert Concerns(products[i], 11, id);
  }

  /** The expected documents are those of the listed products of the two activities, nothing else; each carries
      its product, its last time, its materials in order and its activity. */
  lemma ExpectedIsListed(files: Files, id: int)
    requires id in Expected(files)
    ensures exists i :: 0 <= i < |Rows(files, IndustryActivityProducts)| &&
              var row := Rows(files, IndustryActivityProducts)[i];
              row.typeId == id && (row.activityId == 1 || row.activityId == 11) &&
                  Carries(files, row, Expected(files)[id])
  {
    hide DocOf, Carries;
    var activity := if id in DocsOfActivity(files, REACTIONS, Some(REACTIONS)) then REACTIONS else MANUFACTURING;
    var entries, products := ListOfActivity(files, activity, Some(activity)), Rows(files, IndustryActivityProducts);
    IndexedFinds(entries, id);
    var k :| 0 <= k < |entries| && entries[k] == Entry(id, Indexed(entries)[id]);
    DocListFrom(files, products, activity, Some(activity), entries[k]);
    var i :| 0 <= i < |products| && products[i].activityId == activity &&
        entries[k] == EntryOf(files, products[i], Some(activity));
    DocCarries(files, products[i]);
    assert Expected(files)[id] == DocOf(files, products[i], Some(activity));
  }

  /** Every product row of the two activities has a document; a reaction's is its own. */
  lemma ListedIsExpected(files: Files, i: nat)
    requires i < |Rows(files, IndustryActivityProducts)|
    requires Rows(files, IndustryActivityProducts)[i].activityId in {MANUFACTURING, REACTIONS}
    ensures var row := Rows(files, IndustryActivityProducts)[i];
            && row.typeId in Expected(files)
            && (row.activityId == REACTIONS && UniqueReactions(files) ==>
                Expected(files)[row.typeId] == DocOf(files, row, Some(REACTIONS)))
            && (row.activityId == MANUFACTURING && UniqueProducts(files) &&
                row.typeId !in DocsOfActivity(files, REACTIONS, Some(REACTIONS)) ==>
                 Expected(files)[row.typeId] == DocOf(files, row, Some(MANUFACTURING)))
  {
    hide UniqueReactions;
    var row := Rows(files, IndustryActivityProducts)[i];
    var activity := row.activityId;
    var entries, entry := ListOfActivity(files, activity, Some(activity)), EntryOf(files, row, Some(activity));
    DocListFrom(files, Rows(files, IndustryActivityProducts), activity, Some(activity), entry);
    var k :| 0 <= k < |entries| && entries[k] == entry;
    IndexedFinds(entries, row.typeId);
    assert row.typeId in DocsOfActivity(files, activity, Some(activity));
    if activity == MANUFACTURING && UniqueProducts(files) {
      ProductIsOwn(files, i);
    }
    if activity == REACTIONS && UniqueReactions(files) {
      ReactionsAreUnique(files);
      UniqueAreKept(entries, k);
    }
  }

  /** A manufacturing row's own document is the one indexed under its id. */
  lemma ProductIsOwn(files: Files, i: nat)
    requires UniqueProducts(files) && i < |Rows(files, IndustryActivityProducts)|
    requires Rows(files, IndustryActivityProducts)[i].activityId == MANUFACTURING
    ensures var row := Rows(files, IndustryActivityProducts)[i];
            var made := DocsOfActivity(files, MANUFACTURING, Some(MANUFACTURING));
            row.typeId in made && made[row.typeId] == DocOf(files, row, Some(MANUFACTURING))
  {
    hide TimeOf, NeedsOf;
    var row := Rows(files, IndustryActivityProducts)[i];
    var entries, entry := ListOfActivity(files, MANUFACTURING, None), EntryOf(files, row, None);
    DocListFrom(files, Rows(files, IndustryActivityProducts), MANUFACTURING, None, entry);
    var k :| 0 <= k < |entries| && entries[k] == entry;
    ProductsAreUnique(files);
    UniqueAreKept(entries, k);
    DefaultedIs(files, row.typeId);
  }

  lemma ReactionsAreUnique(files: Files)
    requires UniqueReactions(files)
    ensures UniqueIds(ListOfActivity(files, REACTIONS, Some(REACTIONS)))
  {
    UniqueRowsUniqueIds(files, Rows(files, IndustryActivityProducts), REACTIONS, Some(REACTIONS));
  }

  lemma ProductsAreUnique(files: Files)
    requires UniqueProducts(files)
    ensures UniqueIds(ListOfActivity(files, MANUFACTURING, None))
  {
    UniqueRowsUniqueIds(files, Rows(files, IndustryActivityProducts), MANUFACTURING, None);
  }

  lemma RepeatedId(entries: seq<Entry>, i: nat)
    requires i < |entries| && entries[i].id in Indexed(entries[..i])
    ensures !UniqueIds(entries)
  {
    IndexedFinds(entries[..i], entries[i].id);
  }

  lemma UniqueAreKept(entries: seq<Entry>, k: nat)
    requires UniqueIds(entries) && k < |entries|
    ensures entries[k].id in Indexed(entries) && Indexed(entries)[entries[k].id] == entries[k].doc
  {
    IndexedFinds(entries, entries[k].id);
  }

  lemma {:induction false} Remarked(tables: Files, products: seq<Row>, activity: int, a: Option<int>, b: Option<int>,
      id: int)
    ensures var la, lb := DocList(tables, products, activity, a), DocList(tables, products, activity, b);
            && (id in Indexed(la) <==> id in Indexed(lb))
            && (id in Indexed(la) ==>
                Indexed(la)[id].activityId == a && Indexed(lb)[id] == Indexed(la)[id].(activityId := b))
  {
    hide TimeOf, NeedsOf, Rows, Indexed;
    if products == [] {
      assert Indexed([]) == map[] by {
        NothingIndexed();
      }
    } else {
      var before, last := products[..|products| - 1], products[|products| - 1];
      Remarked(tables, before, activity, a, b, id);
      var la, lb := DocList(tables, before, activity, a), DocList(tables, before, activity, b);
      assert la + [] == la && lb + [] == lb;
      if last.activityId == activity {
        IndexedNext(DocList(tables, before, activity, a), EntryOf(tables, last, a));
        IndexedNext(DocList(tables, before, activity, b), EntryOf(tables, last, b));
      }
    }
  }

  lemma NothingIndexed()
    ensures Indexed([]) == map[]
  {
  }

  lemma IndexedNext(entries: seq<Entry>, last: Entry)
    ensures Indexed(entries + [last]) == Indexed(entries)[last.id := last.doc]
  {
    assert (entries + [last])[..|entries|] == entries;
  }

  lemma DefaultedIs(files: Files, id: int)
    ensures id in DocsOfActivity(files, MANUFACTURING, None) <==>
            id in DocsOfActivity(files, MANUFACTURING, Some(MANUFACTURING))
    ensures id in DocsOfActivity(files, MANUFACTURING, None) ==>
              DocsOfActivity(files, MANUFACTURING, None)[id].activityId == None &&
              DocsOfActivity(files, MANUFACTURING, Some(MANUFACTURING))[id]
                  == DocsOfActivity(files, MANUFACTURING, None)[id].(activityId := Some(MANUFACTURING))
  {
    Remarked(files, Rows(files, IndustryActivityProducts), MANUFACTURING, None, Some(MANUFACTURING), id);
  }

  // ----- What sde_blueprints may hold between 0002 and 0008 -----

  ghost predicate Made(files: Files, id: int, doc: Doc)
  {
    var made := DocsOfActivity(files, MANUFACTURING, None);
    id in made && doc.(activityId := None) == made[id] && doc.activityId in {None, Some(MANUFACTURING)}
  }

  ghost predicate Reacted(files: Files, id: int, doc: Doc)
  {
    var reacted := DocsOfActivity(files, REACTIONS, Some(REACTIONS));
    id in reacted && doc == reacted[id]
  }

  /** Every manufacturing document, marked or not, and some of the reaction documents, perhaps in its place. */
  ghost predicate PartlyExtended(blueprints: map<int, Doc>, files: Files)
  {
    && DocsOfActivity(files, MANUFACTURING, None).Keys <= blueprints.Keys
    && forall id :: id in blueprints ==> Made(files, id, blueprints[id]) || Reacted(files, id, blueprints[id])
  }

  lemma {:induction false} DocsCarry(tables: Files, products: seq<Row>, activity: int, activityId: Option<int>)
    ensures forall k :: 0 <= k < |DocList(tables, products, activity, activityId)| ==>
              DocList(tables, products, activity, activityId)[k].doc.activityId == activityId
  {
    if products != [] {
      DocsCarry(tables, products[..|products| - 1], activity, activityId);
    }
  }

  lemma ReactedIsMarked(files: Files, id: int, doc: Doc)
    ensures Reacted(files, id, doc) ==> doc.activityId == Some(REACTIONS)
  {
    Remarked(files, Rows(files, IndustryActivityProducts), REACTIONS, Some(REACTIONS), None, id);
  }

  lemma MarkedIsMade(files: Files, id: int, doc: Doc)
    requires Made(files, id, doc) || Reacted(files, id, doc)
    requires doc.activityId == None
    ensures Made(files, id, doc.(activityId := Some(MANUFACTURING)))
    ensures !Reacted(files, id, doc)
  {
    hide DocsOfActivity;
    ReactedIsMarked(files, id, doc);
  }

  lemma FullyExtended(blueprints: map<int, Doc>, files: Files)
    requires PartlyExtended(blueprints, files)
    requires forall id :: id in DocsOfActivity(files, REACTIONS, Some(REACTIONS)) ==>
             id in blueprints && Reacted(files, id, blueprints[id])
    requires forall id :: id in blueprints ==> blueprints[id].activityId.Some?
    ensures blueprints == Expected(files)
  {
    hide DocsOfActivity;
    forall id
      ensures id in blueprints <==> id in Expected(files)
      ensures id in blueprints ==> blueprints[id] == Expected(files)[id]
    {
      DefaultedIs(files, id);
      if id in blueprints && Made(files, id, blueprints[id]) {
        assert blueprints[id] == DocsOfActivity(files, MANUFACTURING, None)[id].(activityId := Some(MANUFACTURING));
      }
    }
  }

  /** The database; wherever a pod dies, it is left as it stands. */
  class Database {
    var recorded: set<Record>
    var tables: Files
    var blueprints: map<int, Doc>
    ghost var applied: nat

    constructor ()
      ensures recorded == {} && tables == map[] && blueprints == map[] && applied == 0
    {
      recorded, tables, blueprints, applied := {}, map[], map[], 0;
    }

    /** The recorded top-level ids are a prefix of the list, every recorded table is complete, and
        sde_blueprints is as far along as the prefix says. */
    ghost predicate Valid(files: Files)
      reads this
    {
      && applied <= LAST
      && (forall n: nat :: Top(n) in recorded <==> 1 <= n <= applied)
      && (forall t :: Step(t) in recorded ==> Rows(tables, t) == Rows(files, t))
      && (forall t :: t !in files ==> Rows(tables, t) == [])
      && (applied >= 1 ==> Imported(files))
      && (applied < 2 ==> forall id :: id in blueprints ==> blueprints[id].activityId == None)
      && (2 <= applied < 8 ==> PartlyExtended(blueprints, files))
      && (8 <= applied ==> blueprints == Expected(files))
    }

    ghost predicate Imported(files: Files)
      reads this
    {
      forall t :: Rows(tables, t) == Rows(files, t)
    }

    // ----- 0001 -----

    method ImportTable(t: Table, rows: seq<Row>, survives: bool) returns (done: bool)
      modifies this`tables
      ensures forall u :: u != t ==> Rows(tables, u) == Rows(old(tables), u)
      ensures done ==> Rows(tables, t) == rows
      ensures survives ==> done
    {
      tables := tables[t := []];
      var cut := Dies(survives);
      if cut { return false; }
      var start := 0;
      while start < |rows|
        invariant 0 <= start
        invariant tables == old(tables)[t := rows[..if start < |rows| then start else |rows|]]
      {
        var end := if start + IMPORT_BATCH < |rows| then start + IMPORT_BATCH else |rows|;
        var batch := rows[start..end];
        var cut := Dies(survives);
        if cut {
          // The pod dies while the unordered insert is under way: any part of the batch may be in.
          var some: seq<Row> := *;
          tables := tables[t := tables[t] + some];
          return false;
        }
        assert rows[..start] + batch == rows[..end];
        tables := tables[t := tables[t] + batch];
        start := start + IMPORT_BATCH;
      }
      return true;
    }

    method ImportRawTables(files: Files, survives: bool) returns (done: bool)
      requires Valid(files) && applied == 0
      modifies this`tables, this`recorded
      ensures Valid(files)
      ensures done ==> Imported(files)
      ensures survives ==> done
    {
      hide PartlyExtended, DocsOfActivity, Expected;
      var appliedSteps := recorded;
      for i := 0 to |TABLES|
        invariant Valid(files) && applied == 0
        invariant appliedSteps <= recorded
        invariant forall k :: 0 <= k < i && TABLES[k] in files ==> Step(TABLES[k]) in recorded
        invariant forall k :: i <= k < |TABLES| && Step(TABLES[k]) in recorded ==> Step(TABLES[k]) in appliedSteps
      {
        var t := TABLES[i];
        if t in files && Step(t) !in appliedSteps {
          var imported := ImportTable(t, files[t], survives);
          if !imported { return false; }
          var cut := Dies(survives);
          if cut { return false; }
          recorded := recorded + {Step(t)};
          cut := Dies(survives);
          if cut { return false; }
        }
      }
      forall t: Table
        ensures Rows(tables, t) == Rows(files, t)
      {
        assert t == TABLES[0] || t == TABLES[1] || t == TABLES[2] || t == TABLES[3];
      }
      return true;
    }

    // ----- 0002 -----

    /** One document per product listed for the activity, in order, from the imported tables. */
    method ReadDocs(activity: int, activityId: Option<int>) returns (docs: seq<Entry>)
      ensures docs == ListOfActivity(tables, activity, activityId)
    {
      hide TimeOf, NeedsOf;
      var times := ReadTimes(activity);
      var materials := ReadMaterials(activity);
      var products := Rows(tables, IndustryActivityProducts);
      docs := [];
      for i := 0 to |products|
        invariant docs == DocList(tables, products[..i], activity, activityId)
      {
        var row := products[i];
        assert products[..i + 1][..i] == products[..i];
        if row.activityId == activity {
          var time := if row.typeId in times then Some(times[row.typeId]) else None;
          var needs := if row.typeId in materials then materials[row.typeId] else [];
          docs := docs + [Entry(row.typeId, Doc(row.otherTypeId, row.quantity, time, needs, activityId))];
        }
      }
      assert products[..|products|] == products;
    }

    method ReadTimes(activity: int) returns (times: map<int, int>)
      ensures forall id ::
                TimeOf(Rows(tables, IndustryActivity), activity, id) == if id in times then Some(times[id]) else None
    {
      var rows := Rows(tables, IndustryActivity);
      times := map[];
      for i := 0 to |rows|
        invariant forall id :: TimeOf(rows[..i], activity, id) == if id in times then Some(times[id]) else None
      {
        assert rows[..i + 1][..i] == rows[..i];
        if rows[i].activityId == activity {
          times := times[rows[i].typeId := rows[i].time];
        }
      }
      assert rows[..|rows|] == rows;
    }

    method ReadMaterials(activity: int) returns (materials: map<int, seq<Need>>)
      ensures forall id ::
                NeedsOf(Rows(tables, IndustryActivityMaterials), activity, id) ==
                if id in materials then materials[id] else []
    {
      hide NeedsOf;
      var rows := Rows(tables, IndustryActivityMaterials);
      NeedsOfNone(activity);
      assert rows[..0] == [];
      materials := map[];
      for i := 0 to |rows|
        invariant forall id :: NeedsOf(rows[..i], activity, id) == if id in materials then materials[id] else []
      {
        NeedsNext(rows, i, activity);
        var row := rows[i];
        if row.activityId == activity {
          var listed := if row.typeId in materials then materials[row.typeId] else [];
          materials := materials[row.typeId := listed + [Need(row.otherTypeId, row.quantity)]];
        }
      }
      assert rows[..|rows|] == rows;
    }

    /** Deletes the collection and inserts the documents; an id already there is a duplicate key. */
    method ReplaceBlueprints(docs: seq<Entry>, survives: bool) returns (done: bool)
      modifies this`blueprints
      ensures done ==> blueprints == Indexed(docs)
      ensures survives && UniqueIds(docs) ==> done
      ensures (forall i :: 0 <= i < |docs| ==> docs[i].doc.activityId == None) ==>
                forall id :: id in blueprints ==> blueprints[id].activityId == None
    {
      blueprints := map[];
      var cut := Dies(survives);
      if cut { return false; }
      for i := 0 to |docs|
        invariant blueprints == Indexed(docs[..i])
        invariant (forall j :: 0 <= j < |docs| ==> docs[j].doc.activityId == None) ==>
                    forall id :: id in blueprints ==> blueprints[id].activityId == None
      {
        if docs[i].id in blueprints {
          RepeatedId(docs, i);
          return false;
        }
        assert docs[..i + 1] == docs[..i] + [docs[i]];
        IndexedNext(docs[..i], docs[i]);
        blueprints := blueprints[docs[i].id := docs[i].doc];
        var cut := Dies(survives);
        if cut { return false; }
      }
      assert docs[..|docs|] == docs;
      return true;
    }

    method BuildLookupCollections(files: Files, survives: bool) returns (done: bool)
      requires Valid(files) && applied == 1
      modifies this`blueprints
      ensures Valid(files)
      ensures done ==> blueprints == DocsOfActivity(files, MANUFACTURING, None)
      ensures survives && UniqueProducts(files) ==> done
    {
      var docs := ReadDocs(MANUFACTURING, None);
      SameTablesSameDocs(tables, files, MANUFACTURING, None);
      DocsCarry(files, Rows(files, IndustryActivityProducts), MANUFACTURING, None);
      if UniqueProducts(files) {
        ProductsAreUnique(files);
      }
      done := ReplaceBlueprints(docs, survives);
    }

    // ----- 0008 -----

    /** Every reaction document stored so far is still stored. */
    twostate predicate KeepsReactions(files: Files)
      reads this
    {
      forall id :: id in old(blueprints) && Reacted(files, id, old(blueprints)[id]) ==>
          id in blueprints && Reacted(files, id, blueprints[id])
    }

    ghost predicate Stored(files: Files, entries: seq<Entry>)
      reads this
    {
      forall entry :: entry in entries ==> entry.id in blueprints && Reacted(files, entry.id, blueprints[entry.id])
    }

    /** Upserts one batch, in whatever order the gathered updates land. */
    method UpsertBatch(files: Files, batch: seq<Entry>, survives: bool) returns (done: bool)
      requires forall entry :: entry in batch ==> Reacted(files, entry.id, entry.doc)
      requires PartlyExtended(blueprints, files)
      modifies this`blueprints
      ensures PartlyExtended(blueprints, files)
      ensures KeepsReactions(files)
      ensures done ==> Stored(files, batch)
      ensures survives ==> done
    {
      hide Reacted, Made;
      var todo := set entry | entry in batch;
      while todo != {}
        invariant forall entry :: entry in todo ==> entry in batch
        invariant PartlyExtended(blueprints, files)
        invariant KeepsReactions(files)
        invariant forall entry :: entry in batch && entry !in todo ==>
                  entry.id in blueprints && Reacted(files, entry.id, blueprints[entry.id])
        decreases todo
      {
        var entry := PickOne(todo);
        blueprints := blueprints[entry.id := entry.doc];
        todo := todo - {entry};
        var cut := Dies(survives);
        if cut { return false; }
      }
      return true;
    }

    /** Marks every document without an activity as manufacturing. */
    method DefaultActivity(files: Files, survives: bool) returns (done: bool)
      requires PartlyExtended(blueprints, files)
      modifies this`blueprints
      ensures PartlyExtended(blueprints, files)
      ensures blueprints.Keys == old(blueprints).Keys
      ensures forall id :: id in blueprints && Reacted(files, id, old(blueprints)[id]) ==>
              blueprints[id] == old(blueprints)[id]
      ensures done ==> forall id :: id in blueprints ==> blueprints[id].activityId.Some?
      ensures survives ==> done
    {
      hide DocsOfActivity, Made, Reacted;
      var todo := blueprints.Keys;
      while todo != {}
        invariant todo <= blueprints.Keys == old(blueprints).Keys
        invariant PartlyExtended(blueprints, files)
        invariant forall id :: id in blueprints && Reacted(files, id, old(blueprints)[id]) ==>
                  blueprints[id] == old(blueprints)[id]
        invariant forall id :: id in blueprints && id !in todo ==> blueprints[id].activityId.Some?
        decreases todo
      {
        var id := PickOne(todo);
        if blueprints[id].activityId == None {
          MarkedIsMade(files, id, blueprints[id]);
          blueprints := blueprints[id := blueprints[id].(activityId := Some(MANUFACTURING))];
        }
        todo := todo - {id};
        var cut := Dies(survives);
        if cut { return false; }
      }
      return true;
    }

    /** Upserts all documents, batch by batch. */
    method UpsertAll(files: Files, docs: seq<Entry>, survives: bool) returns (done: bool)
      requires forall entry :: entry in docs ==> Reacted(files, entry.id, entry.doc)
      requires PartlyExtended(blueprints, files)
      modifies this`blueprints
      ensures PartlyExtended(blueprints, files)
      ensures KeepsReactions(files)
      ensures done ==> Stored(files, docs)
      ensures survives ==> done
    {
      hide Reacted, PartlyExtended;
      var start := 0;
      while start < |docs|
        invariant 0 <= start
        invariant PartlyExtended(blueprints, files)
        invariant KeepsReactions(files)
        invariant Stored(files, docs[..if start < |docs| then start else |docs|])
      {
        var end := if start + REACTION_BATCH < |docs| then start + REACTION_BATCH else |docs|;
        var upserted := UpsertBatch(files, docs[start..end], survives);
        if !upserted { return false; }
        assert docs[..end] == docs[..start] + docs[start..end];
        start := start + REACTION_BATCH;
      }
      assert docs[..|docs|] == docs;
      return true;
    }

    method AddReactionFormulas(files: Files, survives: bool) returns (done: bool)
      requires Valid(files) && applied == 7 && UniqueReactions(files)
      modifies this`blueprints
      ensures Valid(files)
      ensures KeepsReactions(files)
      ensures done ==> blueprints == Expected(files)
      ensures survives ==> done
    {
      hide Reacted, PartlyExtended, Indexed, DocList, Expected;
      var docs := ReadDocs(REACTIONS, Some(REACTIONS));
      SameTablesSameDocs(tables, files, REACTIONS, Some(REACTIONS));
      AllReacted(files, docs);
      done := UpsertAll(files, docs, survives);
      if !done { return; }
      AllStored(files, docs);
      done := DefaultActivity(files, survives);
      if done {
        FullyExtended(blueprints, files);
      }
    }

    lemma AllStored(files: Files, docs: seq<Entry>)
      requires docs == ListOfActivity(files, REACTIONS, Some(REACTIONS)) && Stored(files, docs)
      ensures forall id :: id in DocsOfActivity(files, REACTIONS, Some(REACTIONS)) ==>
              id in blueprints && Reacted(files, id, blueprints[id])
    {
      hide Reacted;
      forall id | id in DocsOfActivity(files, REACTIONS, Some(REACTIONS))
        ensures id in blueprints && Reacted(files, id, blueprints[id])
      {
        IndexedFinds(docs, id);
      }
    }

    // ----- The runner -----

    method Apply(number: nat, files: Files, survives: bool) returns (done: bool)
      requires Valid(files) && number == applied + 1 && number <= LAST && UniqueReactions(files)
      modifies this`tables, this`recorded, this`blueprints
      ensures Valid(files)
      ensures done && number == 1 ==> Imported(files)
      ensures done && number == 2 ==> blueprints == DocsOfActivity(files, MANUFACTURING, None)
      ensures done && number == 8 ==> blueprints == Expected(files)
      ensures survives && UniqueProducts(files) ==> done
      ensures KeepsReactions(files)
    {
      hide Reacted;
      forall id | id in blueprints
        ensures Reacted(files, id, blueprints[id]) ==> blueprints[id].activityId == Some(REACTIONS)
      {
        ReactedIsMarked(files, id, blueprints[id]);
      }
      match number
      case 1 => done := ImportRawTables(files, survives);
      case 2 => done := BuildLookupCollections(files, survives);
      case 8 => done := AddReactionFormulas(files, survives);
      case _ =>
        // The others write neither the raw tables nor sde_blueprints' documents.
        var cut := Dies(survives);
        if cut { return false; }
        return true;
    }

    method RecordApplied(number: nat, files: Files)
      requires Valid(files) && number == applied + 1 && number <= LAST
      requires number == 1 ==> Imported(files)
      requires number == 2 ==> blueprints == DocsOfActivity(files, MANUFACTURING, None)
      requires number == 8 ==> blueprints == Expected(files)
      modifies this`recorded, this`applied
      ensures Valid(files) && applied == number && recorded == old(recorded) + {Top(number)}
    {
      hide PartlyExtended, DocsOfActivity, Expected, Rows;
      if number == 2 {
        JustBuilt(files);
      }
      recorded := recorded + {Top(number)};
      applied := number;
    }

    /** Applies what the log does not list yet, in order, recording each only after it was applied. */
    method RunMigrations(files: Files, survives: bool) returns (completed: bool)
      requires Valid(files) && UniqueReactions(files)
      modifies this
      ensures Valid(files)
      ensures completed ==> applied == LAST == 10 && blueprints == Expected(files) && AsListed(files, blueprints)
      ensures survives && UniqueProducts(files) ==> completed
      ensures KeepsReactions(files)
      ensures old(applied) <= applied
      ensures old(applied) == LAST ==> blueprints == old(blueprints) && recorded == old(recorded)
    {
      hide PartlyExtended, DocsOfActivity, Expected, Rows, UniqueProducts, UniqueReactions, Reacted, AsListed;
      var appliedIds := recorded;
      var cut := Dies(survives);
      if cut { return false; }
      for number := 1 to LAST + 1
        invariant Valid(files)
        invariant number - 1 <= applied && old(applied) <= applied
        invariant applied == old(applied) || applied == number - 1
        invariant KeepsReactions(files)
        invariant forall n: nat :: Top(n) in appliedIds <==> 1 <= n <= old(applied)
        invariant old(applied) == LAST ==> blueprints == old(blueprints) && recorded == old(recorded)
      {
        if Top(number) in appliedIds { continue; }
        var done := Apply(number, files, survives);
        if !done { return false; }
        var cut := Dies(survives);
        if cut { return false; }
        RecordApplied(number, files);
        cut := Dies(survives);
        if cut { return false; }
      }
      ExpectedAsListed(files);
      return true;
    }
  }

  lemma {:induction false} SameDocs(a: Files, b: Files, products: seq<Row>, activity: int, activityId: Option<int>)
    requires Rows(a, IndustryActivity) == Rows(b, IndustryActivity)
    requires Rows(a, IndustryActivityMaterials) == Rows(b, IndustryActivityMaterials)
    ensures DocList(a, products, activity, activityId) == DocList(b, products, activity, activityId)
  {
    if products != [] {
      SameDocs(a, b, products[..|products| - 1], activity, activityId);
    }
  }

  lemma SameTablesSameDocs(a: Files, b: Files, activity: int, activityId: Option<int>)
    requires forall t :: Rows(a, t) == Rows(b, t)
    ensures ListOfActivity(a, activity, activityId) == ListOfActivity(b, activity, activityId)
  {
    SameDocs(a, b, Rows(a, IndustryActivityProducts), activity, activityId);
  }

  lemma ListedIsReacted(files: Files, k: nat)
    requires UniqueReactions(files) && k < |ListOfActivity(files, REACTIONS, Some(REACTIONS))|
    ensures var entry := ListOfActivity(files, REACTIONS, Some(REACTIONS))[k];
            Reacted(files, entry.id, entry.doc)
  {
    ReactionsAreUnique(files);
    UniqueAreKept(ListOfActivity(files, REACTIONS, Some(REACTIONS)), k);
  }

  lemma AllReacted(files: Files, docs: seq<Entry>)
    requires UniqueReactions(files) && docs == ListOfActivity(files, REACTIONS, Some(REACTIONS))
    ensures forall entry :: entry in docs ==> Reacted(files, entry.id, entry.doc)
  {
    hide Reacted;
    forall entry | entry in docs
      ensures Reacted(files, entry.id, entry.doc)
    {
      var k :| 0 <= k < |docs| && docs[k] == entry;
      ListedIsReacted(files, k);
    }
  }

  /** What 0002 has just built is what 0008 may start from. */
  lemma JustBuilt(files: Files)
    ensures PartlyExtended(DocsOfActivity(files, MANUFACTURING, None), files)
  {
    hide DocsOfActivity;
    forall id | id in DocsOfActivity(files, MANUFACTURING, None)
      ensures Made(files, id, DocsOfActivity(files, MANUFACTURING, None)[id])
    {
      DefaultedIs(files, id);
    }
  }

  /** One run per pod, each of them possibly cut short anywhere, from an empty database: the log stays a prefix,
      and once a run completes sde_blueprints holds exactly the expected documents. The first pod to survive
      completes. */
  method Deployments(files: Files, survivals: seq<bool>) returns (db: Database, completed: bool)
    requires UniqueReactions(files)
    ensures fresh(db) && db.Valid(files)
    ensures completed ==> db.blueprints == Expected(files) && AsListed(files, db.blueprints)
    ensures UniqueProducts(files) && (exists k :: 0 <= k < |survivals| && survivals[k]) ==> completed
  {
    hide AsListed, Expected;
    ExpectedAsListed(files);
    db := new Database();
    completed := false;
    for k := 0 to |survivals|
      invariant fresh(db) && db.Valid(files)
      invariant completed ==> db.applied == LAST && db.blueprints == Expected(files)
      invariant UniqueProducts(files) && (exists j :: 0 <= j < k && survivals[j]) ==> completed
    {
      var finished := db.RunMigrations(files, survivals[k]);
      completed := completed || finished;
    }
  }
}
