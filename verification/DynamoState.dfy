/** The DynamoDB state object: slices of tables and items that are searched, changed in place, and copied before
    every change of the service. */
module DynamoState {
  import opened Wrappers
  import opened Strings
  import opened DynamoValues
  import opened DynamoModel
  import opened KeyedSeq
  import opened KeyedListing
  import opened KeyOrder
  import StableSort

  function TableName(t: Table): string { t.name }

  ghost function ItemMap(items: seq<Item>): Items
    requires Unique(ItemIdOf, items)
  {
    var m := ToMap(ItemIdOf, items);
    map id | id in m :: m[id].attributes
  }

  ghost predicate Well(tables: seq<Table>, items: seq<Item>) {
    Unique(TableName, tables) && Unique(ItemIdOf, items)
  }

  ghost function DatabaseOf(tables: seq<Table>, items: seq<Item>): Database
    requires Well(tables, items)
  {
    Database(ToMap(TableName, tables), ItemMap(items))
  }

  // ---------- listings ----------

  function ItemTable(item: Item): string { item.table }
  function ItemKey(item: Item): string { item.key }

  // State.ListItems
  function ListItems(items: seq<Item>, table: string): seq<Item> {
    Listing(ItemTable, ItemKey, items, table)
  }

  // State.ListTables
  function ListTables(tables: seq<Table>): seq<Table> {
    StableSort.Sort(Before(TableName), tables)
  }

  predicate ByTableAndKey(a: Item, b: Item) {
    if a.table == b.table then Less(a.key, b.key) else Less(a.table, b.table)
  }

  // What the state hook is given.
  datatype Snapshot = Snapshot(tables: seq<Table>, items: seq<Item>)

  function SnapshotOf(tables: seq<Table>, items: seq<Item>): Snapshot {
    Snapshot(ListTables(tables), StableSort.Sort(ByTableAndKey, items))
  }

  lemma UniqueIsDistinct(items: seq<Item>)
    ensures Unique(ItemIdOf, items) <==> Distinct(ItemTable, ItemKey, items)
  {
  }

  // The listing of a table is in ascending key order, and holds exactly the items of the table.
  lemma ListingOfTable(items: seq<Item>, table: string)
    requires Unique(ItemIdOf, items)
    ensures Ascending(Keys(ItemKey, ListItems(items, table)))
    ensures forall x :: x in ListItems(items, table) <==> x in items && x.table == table
    ensures Unique(ItemIdOf, ListItems(items, table))
  {
    UniqueIsDistinct(items);
    ListingAscends(ItemTable, ItemKey, items, table);
    var listed := ListItems(items, table);
    forall i, j | 0 <= i < j < |listed| ensures ItemIdOf(listed[i]) != ItemIdOf(listed[j]) {
      assert Less(Keys(ItemKey, listed)[i], Keys(ItemKey, listed)[j]);
      LessIrreflexive(listed[i].key);
    }
  }

  // ---------- item maps ----------

  lemma ItemReplaced(items: seq<Item>, i: nat, item: Item)
    requires i < |items| && Unique(ItemIdOf, items) && ItemIdOf(item) == ItemIdOf(items[i])
    ensures Unique(ItemIdOf, items[i := item])
    ensures ItemMap(items[i := item]) == ItemMap(items)[ItemIdOf(item) := item.attributes]
  {
    ReplaceAt(ItemIdOf, items, i, item);
    Found(ItemIdOf, items, i);
  }

  lemma ItemAppended(items: seq<Item>, item: Item)
    requires Unique(ItemIdOf, items) && Absent(ItemIdOf, items, ItemIdOf(item))
    ensures Unique(ItemIdOf, items + [item])
    ensures ItemMap(items + [item]) == ItemMap(items)[ItemIdOf(item) := item.attributes]
    ensures ItemIdOf(item) !in ItemMap(items)
  {
    Append(ItemIdOf, items, item);
    AbsentFromMap(ItemIdOf, items, ItemIdOf(item));
  }

  lemma ItemRemoved(items: seq<Item>, i: nat)
    requires i < |items| && Unique(ItemIdOf, items)
    ensures Unique(ItemIdOf, items[..i] + items[i + 1..])
    ensures ItemMap(items[..i] + items[i + 1..]) == ItemMap(items) - {ItemIdOf(items[i])}
    ensures ItemIdOf(items[i]) in ItemMap(items)
  {
    RemoveAt(ItemIdOf, items, i);
    Found(ItemIdOf, items, i);
  }

  lemma ItemFound(items: seq<Item>, i: nat)
    requires i < |items| && Unique(ItemIdOf, items)
    ensures ItemIdOf(items[i]) in ItemMap(items) && ItemMap(items)[ItemIdOf(items[i])] == items[i].attributes
  {
    Found(ItemIdOf, items, i);
  }

  lemma ItemAbsent(items: seq<Item>, id: ItemId)
    requires Unique(ItemIdOf, items)
    ensures Absent(ItemIdOf, items, id) <==> id !in ItemMap(items)
  {
    AbsentFromMap(ItemIdOf, items, id);
  }

  // ---------- the object ----------

  class State {
    var tables: seq<Table>
    var items: seq<Item>

    // the tables and items by name and id
    ghost var db: Database

    ghost predicate Valid() reads this {
      Well(tables, items) && db == DatabaseOf(tables, items)
    }

    constructor (tables: seq<Table>, items: seq<Item>)
      requires Well(tables, items)
      ensures Valid() && this.tables == tables && this.items == items && db == DatabaseOf(tables, items)
    {
      this.tables := tables;
      this.items := items;
      this.db := DatabaseOf(tables, items);
    }

    method Clone() returns (copy: State)
      requires Valid()
      ensures fresh(copy) && copy.Valid() && copy.db == db
      ensures copy.tables == tables && copy.items == items
    {
      copy := new State(tables, items);
    }

    method FindTable(name: string) returns (t: Option<Table>)
      requires Valid()
      ensures t == if name in db.tables then Some(db.tables[name]) else None
    {
      for i := 0 to |tables|
        invariant forall j | 0 <= j < i :: tables[j].name != name
      {
        if tables[i].name == name {
          Found(TableName, tables, i);
          return Some(tables[i]);
        }
      }
      AbsentFromMap(TableName, tables, name);
      t := None;
    }

    method FindItem(table: string, key: string) returns (found: Option<Attributes>)
      requires Valid()
      ensures found == if ItemId(table, key) in db.items then Some(db.items[ItemId(table, key)]) else None
    {
      for i := 0 to |items|
        invariant forall j | 0 <= j < i :: ItemIdOf(items[j]) != ItemId(table, key)
      {
        if items[i].table == table && items[i].key == key {
          ItemFound(items, i);
          return Some(items[i].attributes);
        }
      }
      ItemAbsent(items, ItemId(table, key));
      found := None;
    }

    method UpsertTable(table: Table)
      requires Valid()
      modifies this`tables, this`db
      ensures Valid()
      ensures db == old(db).(tables := old(db.tables)[table.name := table])
    {
      for i := 0 to |tables|
        invariant tables == old(tables) && db == old(db)
        invariant forall j | 0 <= j < i :: tables[j].name != table.name
      {
        if tables[i].name == table.name {
          ReplaceAt(TableName, tables, i, table);
          tables := tables[i := table];
          db := DatabaseOf(tables, items);
          return;
        }
      }
      Append(TableName, tables, table);
      tables := tables + [table];
      db := DatabaseOf(tables, items);
    }

    method UpsertItem(item: Item)
      requires Valid()
      modifies this`items, this`db
      ensures Valid()
      ensures db == old(db).(items := old(db.items)[ItemIdOf(item) := item.attributes])
    {
      for i := 0 to |items|
        invariant items == old(items) && db == old(db)
        invariant forall j | 0 <= j < i :: ItemIdOf(items[j]) != ItemIdOf(item)
      {
        if items[i].table == item.table && items[i].key == item.key {
          ItemReplaced(items, i, item);
          items := items[i := item];
          db := DatabaseOf(tables, items);
          return;
        }
      }
      ItemAppended(items, item);
      items := items + [item];
      db := DatabaseOf(tables, items);
    }

    method DeleteItem(table: string, key: string) returns (found: bool)
      requires Valid()
      modifies this`items, this`db
      ensures Valid()
      ensures found <==> ItemId(table, key) in old(db).items
      ensures db == old(db).(items := old(db.items) - {ItemId(table, key)})
    {
      for i := 0 to |items|
        invariant items == old(items) && db == old(db)
        invariant forall j | 0 <= j < i :: ItemIdOf(items[j]) != ItemId(table, key)
      {
        if items[i].table == table && items[i].key == key {
          ItemRemoved(items, i);
          items := items[..i] + items[i + 1..];
          db := DatabaseOf(tables, items);
          return true;
        }
      }
      ItemAbsent(items, ItemId(table, key));
      found := false;
    }

    method ItemsOf(table: string) returns (listed: seq<Item>)
      ensures listed == ListItems(items, table)
    {
      listed := ListSection(ItemTable, ItemKey, items, table);
    }
  }
}
