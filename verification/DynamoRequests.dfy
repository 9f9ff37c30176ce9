/** What each DynamoDB request makes of the tables and items when the repository accepts it, and the invariant
    that every item is stored under its record key. */
module DynamoRequests {
  import opened Wrappers
  import opened Strings
  import opened DynamoValues
  import opened DynamoModel
  import opened DynamoTransactions
  import opened DynamoBatch

  // ---------- items ----------

  function CheckedId(tables: Tables, table: string, key: string): Result<ItemId, Error> {
    if TrimSpace(table) == "" then Err(TableNameRequired)
    else if TrimSpace(key) == "" then Err(ItemKeyRequired)
    else if TrimSpace(table) !in tables then Err(TableNotFound)
    else Ok(ItemId(TrimSpace(table), TrimSpace(key)))
  }

  function PutItem(db: Database, table: string, key: string, attributes: Attributes): Result<Items, Error> {
    match CheckedId(db.tables, table, key)
    case Err(e) => Err(e)
    case Ok(id) => Ok(db.items[id := attributes])
  }

  function DeleteItem(db: Database, table: string, key: string): Result<Items, Error> {
    match CheckedId(db.tables, table, key)
    case Err(e) => Err(e)
    case Ok(id) => if id !in db.items then Err(ItemNotFound) else Ok(db.items - {id})
  }

  // The condition is evaluated before the text of the update is read; a missing item counts as one without attributes.
  function UpdatedAttributes(sum: Sum, t: Table, condition: Condition, update: Option<seq<Operation>>,
                             current: Attributes): Result<Attributes, Error>
  {
    if !Meets(condition, current) then Err(ConditionFailed)
    else if update.None? || |update.value| == 0 then Err(InvalidExpression)
    else Updated(sum, t, update.value, current)
  }

  function UpdateItem(sum: Sum, db: Database, table: string, key: string, condition: Condition,
                      update: Option<seq<Operation>>): Result<Items, Error>
  {
    match CheckedId(db.tables, table, key)
    case Err(e) => Err(e)
    case Ok(id) =>
      match UpdatedAttributes(sum, db.tables[id.table], condition, update, Current(Lookup(db.items, id)))
      case Err(e) => Err(e)
      case Ok(attributes) => Ok(db.items[id := attributes])
  }

  // ---------- tables ----------

  const ACTIVATION_DELAY := 200_000_000

  const DEFAULT_PARTITION_KEY := "id"
  const DEFAULT_BILLING := "PAY_PER_REQUEST"

  function OrDefault(text: string, default: string): string {
    if TrimSpace(text) == "" then default else TrimSpace(text)
  }

  // the definitions and indexes of a new table, normalized and validated
  datatype Definition = Definition(definitions: seq<AttributeDefinition>, globals: seq<SecondaryIndex>, locals: seq<SecondaryIndex>)

  function NewTable(name: string, partitionKey: string, sortKey: string, billingMode: string, d: Definition, now: nat): Table {
    Table(TrimSpace(name), OrDefault(partitionKey, DEFAULT_PARTITION_KEY), TrimSpace(sortKey),
          OrDefault(billingMode, DEFAULT_BILLING), d.definitions, d.globals, d.locals, Creating, now,
          now + ACTIVATION_DELAY, 0)
  }

  // definition: nothing if the validation fails
  function CreateTable(db: Database, name: string, partitionKey: string, sortKey: string, billingMode: string,
                       definition: Option<Definition>, now: nat): Result<Table, Error>
  {
    if TrimSpace(name) == "" then Err(TableNameRequired)
    else if TrimSpace(name) in db.tables then Err(TableExists)
    else if definition.None? then Err(InvalidDefinition)
    else Ok(NewTable(name, partitionKey, sortKey, billingMode, definition.value, now))
  }

  // materializeTableLocked: a table becomes active when its activation time has come
  predicate Due(t: Table, now: nat) {
    t.status == Creating && t.activationAt != 0 && now >= t.activationAt
  }

  function Activated(t: Table): Table {
    t.(status := Active, activationAt := 0)
  }

  function Materialized(tables: Tables, name: string, now: nat): Tables {
    if name in tables && Due(tables[name], now) then tables[name := Activated(tables[name])] else tables
  }

  // What a schema change adds to a table, merged with what the table has, normalized and validated; nothing if the
  // validation fails. Keys and local indexes stay.
  type Merge = Table -> Option<Definition>

  function Merged(t: Table, d: Definition): Table {
    t.(definitions := d.definitions, globalIndexes := d.globals)
  }

  // UpdateTableSchema; blank: the request adds nothing
  function UpdateTable(db: Database, name: string, blank: bool, merge: Merge): Result<Table, Error> {
    var n := TrimSpace(name);
    if n == "" then Err(TableNameRequired)
    else if n !in db.tables || db.tables[n].status == Deleting then Err(TableNotFound)
    else if blank then Ok(db.tables[n])
    else
      match merge(db.tables[n])
      case None => Err(InvalidDefinition)
      case Some(d) => Ok(Merged(db.tables[n], d))
  }

  function Deleted(t: Table, now: nat): Table {
    t.(status := Deleting, activationAt := 0, deletedAt := now)
  }

  // ---------- items under their record keys ----------

  ghost predicate StoredUnder(tables: Tables, id: ItemId, attributes: Attributes) {
    id.table in tables && RecordKey(tables[id.table], attributes) == Ok(id.key)
  }

  ghost predicate KeysHold(tables: Tables, items: Items) {
    forall id | id in items :: StoredUnder(tables, id, items[id])
  }

  // A put keeps the invariant exactly if its key, trimmed, is the record key of its attributes.
  lemma PutKeepsKeysIff(db: Database, table: string, key: string, attributes: Attributes)
    requires KeysHold(db.tables, db.items) && PutItem(db, table, key, attributes).Ok?
    ensures KeysHold(db.tables, PutItem(db, table, key, attributes).value) <==>
      RecordKey(db.tables[TrimSpace(table)], attributes) == Ok(TrimSpace(key))
  {
    var id, next := ItemId(TrimSpace(table), TrimSpace(key)), PutItem(db, table, key, attributes).value;
    assert next[id] == attributes;
    if StoredUnder(db.tables, id, attributes) {
      forall other | other in next ensures StoredUnder(db.tables, other, next[other]) {
        assert other != id ==> other in db.items && next[other] == db.items[other];
      }
    }
  }

  // A put under the record key of its attributes keeps the invariant exactly if that key has no white space around it.
  lemma DocumentPutKeepsKeysIff(db: Database, table: string, attributes: Attributes, key: string)
    requires KeysHold(db.tables, db.items) && PutItem(db, table, key, attributes).Ok?
    requires RecordKey(db.tables[TrimSpace(table)], attributes) == Ok(key)
    ensures KeysHold(db.tables, PutItem(db, table, key, attributes).value) <==> TrimSpace(key) == key
  {
    PutKeepsKeysIff(db, table, key, attributes);
  }

  // A put under the record key " a" is stored under "a", where a read of the key document does not find it.
  lemma SpacedKeyMisplaced(t: Table)
    requires t.partitionKey == "id" && t.sortKey == ""
    ensures var db, attributes := Database(map["t" := t], map[]), map["id" := StringValue(" a")];
      && RecordKey(t, attributes) == DocumentKey(t, attributes) == Ok(" a")
      && PutItem(db, "t", " a", attributes) == Ok(map[ItemId("t", "a") := attributes])
      && KeysHold(db.tables, db.items) && !KeysHold(db.tables, PutItem(db, "t", " a", attributes).value)
      && ItemId("t", " a") !in PutItem(db, "t", " a", attributes).value
  {
    var db, attributes := Database(map["t" := t], map[]), map["id" := StringValue(" a")];
    assert |attributes| == 1;
    SpaceTrimmed();
    hide TrimSpace;
    assert RecordKey(t, attributes) == Ok(" a");
    assert PutItem(db, "t", " a", attributes) == Ok(map[ItemId("t", "a") := attributes]);
    assert KeysHold(db.tables, db.items);
    hide *;
    DocumentPutKeepsKeysIff(db, "t", attributes, " a");
  }

  lemma SpaceTrimmed()
    ensures TrimSpace("t") == "t" && TrimSpace("id") == "id" && TrimSpace("") == ""
    ensures TrimSpace(" a") == "a" && " a" != "a"
  {
    assert " a" == " " + "a" + "";
    assert |" a"| != |"a"|;
    hide TrimSpace;
    TrimSpaceIs(" ", "a", "");
  }

  lemma RecordKeyKept(t: Table, before: Attributes, after: Attributes, key: string)
    requires RecordKey(t, before) == Ok(key)
    requires forall name | IsKeyAttribute(t, name) ::
      (name in after <==> name in before) && (name in after ==> after[name] == before[name])
    ensures RecordKey(t, after) == Ok(key)
  {
    assert IsKeyAttribute(t, t.partitionKey);
    assert t.partitionKey in after;
    if HasSortKey(t) {
      assert t.sortKey != "";
      assert IsKeyAttribute(t, t.sortKey);
    }
  }

  lemma NoKeyAttributesNoKey(t: Table, attributes: Attributes)
    requires t.partitionKey !in attributes
    ensures RecordKey(t, attributes).Err?
  {
  }

  // What an update makes of an item is stored under the item's key exactly if the item was there.
  lemma UpdatedKeyIff(sum: Sum, tables: Tables, items: Items, id: ItemId, operations: seq<Operation>)
    requires KeysHold(tables, items) && id.table in tables
    requires Updated(sum, tables[id.table], operations, Current(Lookup(items, id))).Ok?
    ensures StoredUnder(tables, id, Updated(sum, tables[id.table], operations, Current(Lookup(items, id))).value) <==>
      id in items
  {
    var t, before := tables[id.table], Current(Lookup(items, id));
    var after := Updated(sum, t, operations, before).value;
    forall name | IsKeyAttribute(t, name)
      ensures (name in after <==> name in before) && (name in after ==> after[name] == before[name])
    {
      UpdateKeepsKeyAttributes(sum, t, operations, before, name);
    }
    if id in items {
      RecordKeyKept(t, before, after, id.key);
    } else {
      assert IsKeyAttribute(t, t.partitionKey);
      NoKeyAttributesNoKey(t, after);
    }
  }

  lemma WriteKeepsKeysIff(tables: Tables, items: Items, id: ItemId, attributes: Attributes)
    requires KeysHold(tables, items)
    ensures KeysHold(tables, items[id := attributes]) <==> StoredUnder(tables, id, attributes)
  {
    var next := items[id := attributes];
    assert next[id] == attributes;
    if StoredUnder(tables, id, attributes) {
      forall other | other in next ensures StoredUnder(tables, other, next[other]) {
        assert other != id ==> other in items && next[other] == items[other];
      }
    }
  }

  // An update keeps the invariant exactly if the item exists.
  lemma UpdateKeepsKeysIff(sum: Sum, db: Database, table: string, key: string, condition: Condition, update: Option<seq<Operation>>)
    requires KeysHold(db.tables, db.items) && UpdateItem(sum, db, table, key, condition, update).Ok?
    ensures KeysHold(db.tables, UpdateItem(sum, db, table, key, condition, update).value) <==>
      ItemId(TrimSpace(table), TrimSpace(key)) in db.items
  {
    var id := ItemId(TrimSpace(table), TrimSpace(key));
    UpdatedKeyIff(sum, db.tables, db.items, id, update.value);
    WriteKeepsKeysIff(db.tables, db.items, id, UpdateItem(sum, db, table, key, condition, update).value[id]);
  }

  // An update of an item that is not there stores one without key attributes.
  lemma MissingItemUpdated(sum: Sum, t: Table, v: AttributeValue)
    requires t.partitionKey == "id" && t.sortKey == ""
    ensures var db := Database(map["t" := t], map[]);
      var r := UpdateItem(sum, db, "t", "k", Always, Some([Set("a", v)]));
      r == Ok(map[ItemId("t", "k") := map["a" := v]]) && KeysHold(db.tables, db.items) && !KeysHold(db.tables, r.value)
  {
    var db, update := Database(map["t" := t], map[]), Some([Set("a", v)]);
    assert Trimmed("t") && Trimmed("k");
    hide TrimSpace;
    assert "a" != "id" by {
      assert |"a"| != |"id"|;
    }
    assert update.value[1..] == [];
    assert Updated(sum, t, update.value, map[]) == Ok(map["a" := v]);
    UpdateKeepsKeysIff(sum, db, "t", "k", Always, update);
  }

  // ---------- batches ----------

  ghost predicate TrimmedTables(fs: seq<Flat<WriteRequest>>) {
    forall i | 0 <= i < |fs| :: TrimSpace(fs[i].table) == fs[i].table
  }

  lemma {:induction false} FlattenTrims(request: seq<TableWrites>)
    ensures TrimmedTables(Flatten(request))
  {
    if |request| > 0 {
      FlattenTrims(request[1..]);
    }
  }

  lemma OneWriteKeepsKeys(tables: Tables, items: Items, f: Flat<WriteRequest>)
    requires KeysHold(tables, items) && TrimSpace(f.table) == f.table && Wrote(tables, items, f).Ok?
    ensures KeysHold(tables, Wrote(tables, items, f).value)
  {
    var t := FindTable(tables, f.table).value;
    var id := ItemId(f.table, WriteKey(t, f.request).value);
    if |f.request.put| > 0 {
      WriteKeepsKeysIff(tables, items, id, f.request.put);
    }
  }

  lemma {:induction false} WritesKeepKeys(tables: Tables, items: Items, fs: seq<Flat<WriteRequest>>)
    requires KeysHold(tables, items) && TrimmedTables(fs) && WriteAll(WriteRulesOf(tables), items, fs).Ok?
    ensures KeysHold(tables, WriteAll(WriteRulesOf(tables), items, fs).value)
    decreases |fs|
  {
    if |fs| > 0 {
      OneWriteKeepsKeys(tables, items, fs[0]);
      WritesKeepKeys(tables, WriteRulesOf(tables).write(items, fs[0]).value, fs[1..]);
    }
  }

  // A batch keeps the invariant.
  lemma BatchKeepsKeys(tables: Tables, items: Items, request: seq<TableWrites>)
    requires KeysHold(tables, items) && BatchWrite(tables, items, request).Ok?
    ensures KeysHold(tables, BatchWrite(tables, items, request).value.items)
  {
    var flat := Flatten(request);
    WritesConserved(WriteRulesOf(tables), items, request);
    FlattenTrims(request);
    WritesKeepKeys(tables, items, flat[..Min(WRITE_LIMIT, |flat|)]);
  }

  // ---------- transactions ----------

  predicate IsUpdate(e: TransactItem) {
    |e.put| == 0 && |e.updateKey| > 0
  }

  // every update has its item in the starting state
  ghost predicate UpdatesExist(tables: Tables, items: Items, entries: seq<TransactItem>) {
    forall i | 0 <= i < |entries| && IsUpdate(entries[i]) && EntryTarget(tables, entries[i]).Ok? ::
      EntryTarget(tables, entries[i]).value in items
  }

  // what an entry leaves at its target
  lemma EntryKeepsKeyIff(sum: Sum, tables: Tables, start: Items, e: TransactItem)
    requires KeysHold(tables, start) && Possible(RulesOf(sum, tables), start, e)
    ensures var id, left := IdOf(RulesOf(sum, tables), e), Left(RulesOf(sum, tables), start, e);
      (left.Some? ==> StoredUnder(tables, id, left.value)) <==> (IsUpdate(e) ==> id in start)
  {
    var target := TargetOf(tables, e).value;
    if IsUpdate(e) {
      UpdatedKeyIff(sum, tables, start, target.id, e.update.value);
    } else if |e.put| == 0 && |e.checkKey| > 0 && target.id in start {
      assert StoredUnder(tables, target.id, start[target.id]);
    }
  }

  // A transaction of different targets keeps the invariant exactly if the items it updates exist.
  lemma TransactionKeepsKeysIff(sum: Sum, tables: Tables, start: Items, entries: seq<TransactItem>)
    requires KeysHold(tables, start) && Transact(sum, tables, start, entries).Ok?
    requires (forall i | 0 <= i < |entries| :: !Checked(entries[i])) || DistinctTargets(RulesOf(sum, tables), entries)
    ensures KeysHold(tables, Transact(sum, tables, start, entries).value) <==> UpdatesExist(tables, start, entries)
  {
    var rules, result := RulesOf(sum, tables), Transact(sum, tables, start, entries).value;
    if !DistinctTargets(rules, entries) {
      UncheckedTransaction(rules, start, entries);
    }
    DistinctTransaction(rules, start, entries);
    forall i | 0 <= i < |entries|
      ensures Lookup(result, IdOf(rules, entries[i])) == Left(rules, start, entries[i])
      ensures (Left(rules, start, entries[i]).Some? ==> StoredUnder(tables, IdOf(rules, entries[i]), Left(rules, start, entries[i]).value))
         <==> (IsUpdate(entries[i]) ==> IdOf(rules, entries[i]) in start)
    {
      EntryKeepsKeyIff(sum, tables, start, entries[i]);
    }
    AllKeysIff(sum, tables, start, entries, result);
  }

  lemma AllKeysIff(sum: Sum, tables: Tables, start: Items, entries: seq<TransactItem>, result: Items)
    requires KeysHold(tables, start)
    requires AllPossible(RulesOf(sum, tables), start, entries)
    requires AllAtOnce(RulesOf(sum, tables), start, entries, result)
    requires forall i | 0 <= i < |entries| ::
      var id, left := IdOf(RulesOf(sum, tables), entries[i]), Left(RulesOf(sum, tables), start, entries[i]);
      (left.Some? ==> StoredUnder(tables, id, left.value)) <==> (IsUpdate(entries[i]) ==> id in start)
    ensures KeysHold(tables, result) <==> UpdatesExist(tables, start, entries)
  {
    var rules := RulesOf(sum, tables);
    if KeysHold(tables, result) {
      forall i | 0 <= i < |entries| && IsUpdate(entries[i]) && EntryTarget(tables, entries[i]).Ok?
        ensures EntryTarget(tables, entries[i]).value in start
      {
        var id := IdOf(rules, entries[i]);
        assert Lookup(result, id) == Left(rules, start, entries[i]);
        assert id in result ==> StoredUnder(tables, id, result[id]);
      }
    }
    if UpdatesExist(tables, start, entries) {
      forall id | id in result ensures StoredUnder(tables, id, result[id]) {
        if Untouched(rules, entries, id) {
          assert Lookup(result, id) == Lookup(start, id);
        } else {
          var i :| 0 <= i < |entries| && rules.target(entries[i]).Ok? && IdOf(rules, entries[i]) == id;
          assert Lookup(result, id) == Left(rules, start, entries[i]);
        }
      }
    }
  }
}
