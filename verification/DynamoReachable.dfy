/** Paging on reachable states: after any run that keeps items under their record keys, queries and scans show every
    item, and what goes wrong where items are put under other keys. */
module DynamoReachable {
  import opened Wrappers
  import opened Strings
  import opened DynamoValues
  import opened DynamoModel
  import opened DynamoTransactions
  import opened DynamoRequests
  import opened DynamoRuns
  import opened DynamoState
  import opened DynamoOrder
  import opened DynamoPaging
  import opened DynamoReads
  import opened KeyedSeq
  import opened KeyedListing
  import opened KeyOrder
  import StableSort

  // ---------- tables of reachable states ----------

  // the table has its name, and keys without white space around them
  predicate KeyedTable(name: string, t: Table) {
    t.name == name && t.partitionKey != "" && Trimmed(t.partitionKey) && Trimmed(t.sortKey)
  }

  ghost predicate TablesKeyed(tables: Tables) {
    forall name | name in tables :: KeyedTable(name, tables[name])
  }

  lemma StepTablesKeyed(sum: Sum, db: Database, op: Op, env: Env)
    requires TablesKeyed(db.tables)
    ensures TablesKeyed(Step(sum, db, op, env).tables)
  {
    var after := Step(sum, db, op, env).tables;
    StepMovesForward(sum, db, op, env);
    hide TrimSpace;
    forall name | name in after ensures KeyedTable(name, after[name]) {
      if name in db.tables {
        assert Later(db.tables[name], after[name]);
      } else {
        NewTableKeyed(sum, db, op, env, name);
      }
    }
  }

  lemma NewTableKeyed(sum: Sum, db: Database, op: Op, env: Env, name: string)
    requires name !in db.tables && name in Step(sum, db, op, env).tables
    ensures KeyedTable(name, Step(sum, db, op, env).tables[name])
  {
    assert Trimmed(DEFAULT_PARTITION_KEY) && DEFAULT_PARTITION_KEY != "";
    hide TrimSpace, Trimmed;
    assert op.OpCreateTable?;
  }

  lemma {:induction false} RunTablesKeyed(sum: Sum, db: Database, requests: seq<Request>)
    requires TablesKeyed(db.tables)
    ensures TablesKeyed(Run(sum, db, requests).tables)
    decreases |requests|
  {
    if |requests| > 0 {
      StepTablesKeyed(sum, db, requests[0].op, requests[0].env);
      RunTablesKeyed(sum, Step(sum, db, requests[0].op, requests[0].env), requests[1..]);
    }
  }

  // ---------- queries and scans of reachable states ----------

  // the items of a state that a run leads to
  ghost predicate Holds(db: Database, items: seq<Item>) {
    Unique(ItemIdOf, items) && ItemMap(items) == db.items
  }

  // the key attributes that the item carries have one field, at every depth
  predicate PlainKeys(target: DynamoOrder.Target, x: Item) {
    forall name | name in KeyNames(target) && name in x.attributes :: WellFormed(x.attributes[name])
  }

  lemma HeldUnderKey(db: Database, items: seq<Item>, x: Item)
    requires Holds(db, items) && KeysHold(db.tables, db.items) && x in items
    ensures x.table in db.tables && RecordKey(db.tables[x.table], x.attributes) == Ok(x.key)
  {
    var i :| 0 <= i < |items| && items[i] == x;
    ItemFound(items, i);
    assert StoredUnder(db.tables, ItemIdOf(x), db.items[ItemIdOf(x)]);
  }

  // An item with a record key carries the keys of its table.
  lemma CarriesKeys(t: Table, x: Item)
    requires KeyedTable(t.name, t) && RecordKey(t, x.attributes).Ok?
    ensures forall name | name in KeyNames(DynamoReads.TargetOf(t, None)) :: name in x.attributes
  {
    var target := DynamoReads.TargetOf(t, None);
    assert TrimSpace(t.partitionKey) == t.partitionKey && TrimSpace(t.sortKey) == t.sortKey;
    hide TrimSpace;
    forall name | name in KeyNames(target) ensures name in x.attributes {
      var values := Names(target);
      var i :| 0 <= i < |values| && TrimSpace(values[i]) == name;
      assert values[i] == t.partitionKey || values[i] == t.sortKey;
    }
  }

  // After any run that keeps keys, a client that follows the cursors of a scan sees the unpaged scan.
  lemma ReachableScan(parse: Parse, sum: Sum, requests: seq<Request>, items: seq<Item>, name: string,
                      clauses: seq<Clause>, limit: int) returns (pages: seq<Page>)
    requires var db := Run(sum, NO_TABLES, requests);
      && AllKeepKeys(sum, NO_TABLES, requests) && Holds(db, items) && name in db.tables && limit > 0
      && forall x | x in items && x.table == name :: PlainKeys(DynamoReads.TargetOf(db.tables[name], None), x)
    ensures var t := Run(sum, NO_TABLES, requests).tables[name];
      var reader := ReaderOf(parse, KeyNames(DynamoReads.TargetOf(t, None)), clauses, []);
      var listed := ListItems(items, name);
      && IsRun(reader, listed, limit, map[], pages)
      && Read(reader, listed, map[], None) == Ok(Page(AllItems(pages), |listed|, None))
      && ScannedCount(pages) == |listed|
  {
    var db := Run(sum, NO_TABLES, requests);
    RunKeepsKeys(sum, NO_TABLES, requests);
    RunTablesKeyed(sum, NO_TABLES, requests);
    var t := db.tables[name];
    var target := DynamoReads.TargetOf(t, None);
    assert KeyedTable(name, t);
    hide Run, AllKeepKeys, KeysHold, IsRun, Read;
    forall x | x in items && x.table == name ensures KeyedItem(target, x) {
      HeldUnderKey(db, items, x);
      CarriesKeys(t, x);
    }
    pages := ScanPages(parse, target, clauses, items, limit);
  }

  // The same for a query of the table or of an index, if what it reads carries the keys of the index.
  lemma ReachableQuery(parse: Parse, sum: Sum, requests: seq<Request>, items: seq<Item>, name: string,
                       index: Option<SecondaryIndex>, plan: Plan, clauses: seq<Clause>, projection: seq<string>,
                       forward: bool, limit: int) returns (pages: seq<Page>)
    requires var db := Run(sum, NO_TABLES, requests);
      && AllKeepKeys(sum, NO_TABLES, requests) && Holds(db, items) && name in db.tables && limit > 0
      && forall x | x in items && x.table == name && Matches(parse, plan, x) ::
           var target := DynamoReads.TargetOf(db.tables[name], index);
           && PlainKeys(target, x)
           && (index.Some? ==> forall n | n in KeyNames(target) :: n in x.attributes)
    ensures var target := DynamoReads.TargetOf(Run(sum, NO_TABLES, requests).tables[name], index);
      var reader := ReaderOf(parse, KeyNames(target), clauses, projection);
      var selected := Selected(parse, target, plan, items, forward);
      && IsRun(reader, selected, limit, map[], pages)
      && Read(reader, selected, map[], None) == Ok(Page(AllItems(pages), |selected|, None))
      && ScannedCount(pages) == |selected|
  {
    var db := Run(sum, NO_TABLES, requests);
    RunKeepsKeys(sum, NO_TABLES, requests);
    RunTablesKeyed(sum, NO_TABLES, requests);
    var t := db.tables[name];
    var target := DynamoReads.TargetOf(t, index);
    assert KeyedTable(name, t);
    hide Run, AllKeepKeys, KeysHold, IsRun, Read, Matches;
    forall x | x in items && x.table == name && Matches(parse, plan, x) ensures KeyedItem(target, x) {
      HeldUnderKey(db, items, x);
      CarriesKeys(t, x);
    }
    pages := QueryPages(parse, target, plan, clauses, projection, items, forward, limit);
  }

  // ---------- items under other keys ----------

  function Records(created: nat): Table {
    Table("t", "id", "", DEFAULT_BILLING, [], [], [], Active, created, 0, 0)
  }

  function Named(key: string, id: string): Item {
    Item("t", key, map["id" := StringValue(id)])
  }

  function ThreePut(): seq<Item> {
    [Named("1", "x"), Named("2", "x"), Named("3", "y")]
  }

  // Three puts that give their own keys store two items with one key document.
  lemma PutsStored(created: nat)
    ensures var db := Database(map["t" := Records(created)], map[]);
      var id := v => map["id" := StringValue(v)];
      var one := PutItem(db, "t", "1", id("x"));
      && one.Ok?
      && var two := PutItem(db.(items := one.value), "t", "2", id("x"));
      && two.Ok?
      && var three := PutItem(db.(items := two.value), "t", "3", id("y"));
      && three.Ok? && Holds(db.(items := three.value), ThreePut())
  {
    assert Trimmed("t") && Trimmed("1") && Trimmed("2") && Trimmed("3");
    hide TrimSpace, Trimmed;
    ThreeHeld();
  }

  lemma ThreeHeld()
    ensures var items, x, y := ThreePut(), map["id" := StringValue("x")], map["id" := StringValue("y")];
      && Unique(ItemIdOf, items)
      && ItemMap(items) == map[ItemId("t", "1") := x][ItemId("t", "2") := x][ItemId("t", "3") := y]
  {
    hide *;
    var a, b, c := Named("1", "x"), Named("2", "x"), Named("3", "y");
    ThreeNamed();
    OneMore([], a, [a], map[]);
    OneMore([a], b, [a, b], map[ItemIdOf(a) := a.attributes]);
    OneMore([a, b], c, [a, b, c], map[ItemIdOf(a) := a.attributes][ItemIdOf(b) := b.attributes]);
  }

  lemma ThreeNamed()
    ensures var a, b, c := Named("1", "x"), Named("2", "x"), Named("3", "y");
      && ThreePut() == [a, b, c]
      && a.key != b.key && a.key != c.key && b.key != c.key
      && ItemIdOf(a) == ItemId("t", "1") && ItemIdOf(b) == ItemId("t", "2") && ItemIdOf(c) == ItemId("t", "3")
      && a.attributes == b.attributes == map["id" := StringValue("x")] && c.attributes == map["id" := StringValue("y")]
    ensures Unique(ItemIdOf, []) && ItemMap([]) == map[]
  {
  }

  lemma OneMore(items: seq<Item>, item: Item, more: seq<Item>, m: Items)
    requires Unique(ItemIdOf, items) && ItemMap(items) == m && more == items + [item]
    requires forall x | x in items :: x.key != item.key
    ensures Unique(ItemIdOf, more) && ItemMap(more) == m[ItemIdOf(item) := item.attributes]
  {
    hide ItemMap;
    ItemAppended(items, item);
  }

  lemma ThreeListed()
    ensures ListItems(ThreePut(), "t") == ThreePut()
  {
    var items := ThreePut();
    assert Less("1", "2") && Less("2", "3") && Less("1", "3");
    hide Less, ListItems;
    assert Ascending(Keys(ItemKey, items));
    InOrderListed(items, "t");
  }

  // Items in the order of their keys are listed as they are.
  lemma InOrderListed(items: seq<Item>, table: string)
    requires Ascending(Keys(ItemKey, items)) && forall x | x in items :: x.table == table
    ensures ListItems(items, table) == items
  {
    var listed := ListItems(items, table);
    AscendingDistinct(items);
    ListingOfTable(items, table);
    hide ListItems, Less;
    forall k ensures k in Keys(ItemKey, listed) <==> k in Keys(ItemKey, items) {
      KeyListed(listed, k);
      KeyListed(items, k);
    }
    AscendingUnique(Keys(ItemKey, listed), Keys(ItemKey, items));
    forall i | 0 <= i < |items| ensures listed[i] == items[i] {
      assert listed[i] in listed && Keys(ItemKey, listed)[i] == Keys(ItemKey, items)[i];
      var j :| 0 <= j < |items| && items[j] == listed[i];
      SameKeySamePlace(items, i, j);
    }
  }

  lemma AscendingDistinct(items: seq<Item>)
    requires Ascending(Keys(ItemKey, items))
    ensures Unique(ItemIdOf, items)
  {
    forall i, j | 0 <= i < j < |items| ensures items[i].key != items[j].key {
      assert Less(Keys(ItemKey, items)[i], Keys(ItemKey, items)[j]);
      LessIrreflexive(items[i].key);
    }
  }

  lemma SameKeySamePlace(items: seq<Item>, i: nat, j: nat)
    requires Ascending(Keys(ItemKey, items)) && i < |items| && j < |items| && items[i].key == items[j].key
    ensures i == j
  {
    LessIrreflexive(items[i].key);
    assert Keys(ItemKey, items)[i] == Keys(ItemKey, items)[j];
  }

  lemma KeyListed(items: seq<Item>, k: string)
    ensures k in Keys(ItemKey, items) <==> exists x :: x in items && x.key == k
  {
    if x :| x in items && x.key == k {
      var i :| 0 <= i < |items| && items[i] == x;
      assert Keys(ItemKey, items)[i] == k;
    }
  }

  // Pages of two show the second item twice; with pages of one the scan comes back to the second item for ever.
  lemma CursorComesBack(parse: Parse, created: nat)
    ensures var t, items, cursor := Records(created), ThreePut(), map["id" := StringValue("x")];
      && Scan(parse, t, items, Ok([]), map[], Some(2)) == Ok(Page(items[..2], 2, Some(cursor)))
      && Scan(parse, t, items, Ok([]), cursor, Some(2)) == Ok(Page(items[1..], 2, None))
      && Scan(parse, t, items, Ok([]), cursor, Some(1)) == Ok(Page(items[1..2], 1, Some(cursor)))
  {
    var t, items, cursor := Records(created), ThreePut(), map["id" := StringValue("x")];
    ThreeListed();
    var names := KeyNames(DynamoReads.TargetOf(t, None));
    assert names == ["id"] by {
      OneKeyName(t);
    }
    var reader := ReaderOf(parse, names, [], []);
    hide ListItems;
    ThreeLocated(cursor);
    Pages(reader, items, cursor);
  }

  lemma OneKeyName(t: Table)
    requires t.partitionKey == "id" && t.sortKey == ""
    ensures KeyNames(DynamoReads.TargetOf(t, None)) == ["id"]
  {
    var target := DynamoReads.TargetOf(t, None);
    assert Names(target) == ["id"];
    assert ["id"][..0] == [];
    assert TrimSpace("id") == "id";
  }

  lemma ThreeLocated(cursor: Attributes)
    requires cursor == map["id" := StringValue("x")]
    ensures Locate(["id"], ThreePut(), map[]) == Ok(0) && Locate(["id"], ThreePut(), cursor) == Ok(1)
    ensures KeyDocument(["id"], ThreePut()[1]) == Ok(cursor)
  {
    var names, items := ["id"], ThreePut();
    assert "id" in names && |cursor| == 1;
    assert KeyDocument(names, items[0]).Ok?;
    assert KeyDocument(names, items[0]).value == cursor;
    assert Normalized(names, cursor).value == cursor;
    assert DocumentsEqual(cursor, cursor);
  }

  lemma Pages(reader: Reader, items: seq<Item>, cursor: Attributes)
    requires |items| == 3 && Everything(reader) && KeyDocument(reader.names, items[1]) == Ok(cursor)
    ensures PageFrom(reader, items, 0, Some(2)) == Ok(Page(items[..2], 2, Some(cursor)))
    ensures PageFrom(reader, items, 1, Some(2)) == Ok(Page(items[1..], 2, None))
    ensures PageFrom(reader, items, 1, Some(1)) == Ok(Page(items[1..2], 1, Some(cursor)))
  {
    PickedEverything(reader, items[0..2]);
    PickedEverything(reader, items[1..3]);
    PickedEverything(reader, items[1..2]);
    assert items[0..2] == items[..2] && items[1..3] == items[1..];
  }
}
