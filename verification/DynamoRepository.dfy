/** The rows a DynamoDB state is saved as, and the state that loading the rows gives back. */
module DynamoRepository {
  import opened Wrappers
  import opened Strings
  import opened DynamoValues
  import opened DynamoModel
  import opened DynamoState
  import opened KeyedSeq
  import opened KeyedListing
  import opened AttributeCodec
  import StableSort

  datatype ItemRow = ItemRow(table: string, key: string, document: Json)

  datatype Rows = Rows(tables: seq<Table>, items: seq<ItemRow>)

  // ---------- saving ----------

  // the items in the order in which they are written: table by table, and by key
  function SavedItems(tables: seq<Table>, items: seq<Item>): seq<Item> {
    if |tables| == 0 then []
    else SavedItems(tables[..|tables| - 1], items) + ListItems(items, tables[|tables| - 1].name)
  }

  ghost function RowOf(item: Item): ItemRow {
    ItemRow(item.table, item.key, EncodeDocument(item.attributes))
  }

  ghost function EncodeAll(items: seq<Item>): (rows: seq<ItemRow>)
    ensures |rows| == |items|
  {
    seq(|items|, i requires 0 <= i < |items| => RowOf(items[i]))
  }

  ghost function RowsOf(tables: seq<Table>, items: seq<Item>): Rows {
    Rows(ListTables(tables), EncodeAll(SavedItems(ListTables(tables), items)))
  }

  predicate ValidTable(t: Table) {
    TrimSpace(t.name) != "" && TrimSpace(t.partitionKey) != "" && TrimSpace(t.billingMode) != ""
  }

  function TrimmedName(t: Table): string { TrimSpace(t.name) }

  predicate ValidItem(item: Item) {
    TrimSpace(item.table) != "" && TrimSpace(item.key) != ""
  }

  function TrimmedTable(item: Item): string { TrimSpace(item.table) }

  // The first n elements are valid, and no two have the same name.
  ghost predicate ValidNamed<T>(valid: T -> bool, name: T -> string, xs: seq<T>, n: nat)
    requires n <= |xs|
  {
    && (forall i | 0 <= i < n :: valid(xs[i]))
    && (forall i, j | 0 <= i < j < n :: name(xs[i]) != name(xs[j]))
  }

  // the names of the first n elements
  ghost predicate NamesOf<T(!new)>(names: set<string>, name: T -> string, xs: seq<T>, n: nat)
    requires n <= |xs|
  {
    && (forall j | 0 <= j < n :: name(xs[j]) in names)
    && (forall s | s in names :: exists j :: 0 <= j < n && name(xs[j]) == s)
  }

  // validatePersistedState, up to the checks of index definitions
  ghost predicate Persistable(tables: seq<Table>, items: seq<Item>) {
    && ValidNamed(ValidTable, TrimmedName, tables, |tables|)
    && (forall i | 0 <= i < |items| :: ValidItem(items[i]) && Refers(tables, items[i]))
  }

  ghost predicate Refers(tables: seq<Table>, item: Item) {
    exists i :: 0 <= i < |tables| && TrimmedName(tables[i]) == TrimmedTable(item)
  }

  // The same of the maps of tables and items.
  ghost predicate Storable(db: Database) {
    && (forall name | name in db.tables :: ValidTable(db.tables[name]))
    && (forall a, b | a in db.tables && b in db.tables && a != b ::
          TrimmedName(db.tables[a]) != TrimmedName(db.tables[b]))
    && (forall id | id in db.items :: ValidItem(Item(id.table, id.key, map[])) && TableFor(db.tables, id))
  }

  ghost predicate TableFor(tables: Tables, id: ItemId) {
    exists name :: name in tables && TrimmedName(tables[name]) == TrimSpace(id.table)
  }

  // The validation depends on the tables and items alone, not on the order of the lists.
  lemma PersistableIff(tables: seq<Table>, items: seq<Item>)
    requires Well(tables, items)
    ensures Persistable(tables, items) <==> Storable(DatabaseOf(tables, items))
  {
    hide ValidNamed, ValidTable, ValidItem, Refers, TableFor;
    TablesPersistableIff(tables);
    ItemsPersistableIff(tables, items);
  }

  lemma ItemsPersistableIff(tables: seq<Table>, items: seq<Item>)
    requires Well(tables, items)
    ensures (forall i | 0 <= i < |items| :: ValidItem(items[i]) && Refers(tables, items[i])) <==>
      (forall id | id in ItemMap(items) :: ValidItem(Item(id.table, id.key, map[])) && TableFor(ToMap(TableName, tables), id))
  {
    hide TrimSpace, Refers, TableFor;
    var ts, m := ToMap(TableName, tables), ItemMap(items);
    forall i | 0 <= i < |items| ensures ItemIdOf(items[i]) in m && (Refers(tables, items[i]) <==> TableFor(ts, ItemIdOf(items[i]))) {
      ItemFound(items, i);
      RefersTable(tables, items[i]);
    }
    forall id | id in m ensures exists i :: 0 <= i < |items| && ItemIdOf(items[i]) == id {
      var x := ToMap(ItemIdOf, items)[id];
      var i :| 0 <= i < |items| && items[i] == x;
    }
  }

  lemma TablesPersistableIff(tables: seq<Table>)
    requires Unique(TableName, tables)
    ensures var m := ToMap(TableName, tables);
      ValidNamed(ValidTable, TrimmedName, tables, |tables|) <==>
        && (forall name | name in m :: ValidTable(m[name]))
        && (forall a, b | a in m && b in m && a != b :: TrimmedName(m[a]) != TrimmedName(m[b]))
  {
    hide ValidTable, TrimmedName;
    var m := ToMap(TableName, tables);
    forall i | 0 <= i < |tables| ensures tables[i].name in m && m[tables[i].name] == tables[i] {
      assert tables[i] in tables;
    }
    forall name | name in m ensures exists i :: 0 <= i < |tables| && tables[i] == m[name] && tables[i].name == name {
      assert m[name] in tables && TableName(m[name]) == name;
    }
  }

  lemma RefersTable(tables: seq<Table>, item: Item)
    requires Unique(TableName, tables)
    ensures Refers(tables, item) <==> TableFor(ToMap(TableName, tables), ItemIdOf(item))
  {
    hide TrimSpace;
    var m := ToMap(TableName, tables);
    if i :| 0 <= i < |tables| && TrimmedName(tables[i]) == TrimmedTable(item) {
      assert tables[i] in tables;
      assert tables[i].name in m && TrimmedName(m[tables[i].name]) == TrimSpace(item.table);
    }
    if TableFor(m, ItemIdOf(item)) {
      var name :| name in m && TrimmedName(m[name]) == TrimSpace(item.table);
      assert m[name] in tables;
      var i :| 0 <= i < |tables| && tables[i] == m[name];
    }
  }

  lemma AnotherName<T(!new)>(names: set<string>, name: T -> string, xs: seq<T>, n: nat)
    requires n < |xs| && NamesOf(names, name, xs, n)
    ensures NamesOf(names + {name(xs[n])}, name, xs, n + 1)
  {
  }

  lemma AnotherValid<T(!new)>(names: set<string>, valid: T -> bool, name: T -> string, xs: seq<T>, n: nat)
    requires n < |xs| && NamesOf(names, name, xs, n) && ValidNamed(valid, name, xs, n)
    ensures ValidNamed(valid, name, xs, n + 1) <==> valid(xs[n]) && name(xs[n]) !in names
    ensures !ValidNamed(valid, name, xs, n + 1) ==> !ValidNamed(valid, name, xs, |xs|)
  {
    if name(xs[n]) in names {
      var j :| 0 <= j < n && name(xs[j]) == name(xs[n]);
    }
  }

  method ValidateTables(tables: seq<Table>) returns (ok: bool, names: set<string>)
    ensures ok <==> ValidNamed(ValidTable, TrimmedName, tables, |tables|)
    ensures ok ==> NamesOf(names, TrimmedName, tables, |tables|)
  {
    names := {};
    for i := 0 to |tables|
      invariant NamesOf(names, TrimmedName, tables, i) && ValidNamed(ValidTable, TrimmedName, tables, i)
    {
      AnotherValid(names, ValidTable, TrimmedName, tables, i);
      if !ValidTable(tables[i]) || TrimmedName(tables[i]) in names {
        return false, {};
      }
      AnotherName(names, TrimmedName, tables, i);
      names := names + {TrimmedName(tables[i])};
    }
    ok := true;
  }

  lemma RefersIff(names: set<string>, tables: seq<Table>, item: Item)
    requires NamesOf(names, TrimmedName, tables, |tables|)
    ensures Refers(tables, item) <==> TrimmedTable(item) in names
  {
    if TrimmedTable(item) in names {
      var j :| 0 <= j < |tables| && TrimmedName(tables[j]) == TrimmedTable(item);
    }
  }

  method ValidateItems(names: set<string>, tables: seq<Table>, items: seq<Item>) returns (ok: bool)
    requires NamesOf(names, TrimmedName, tables, |tables|)
    ensures ok <==> forall i | 0 <= i < |items| :: ValidItem(items[i]) && Refers(tables, items[i])
  {
    hide TrimSpace, TrimmedTable, ValidItem, Refers, NamesOf;
    for i := 0 to |items|
      invariant forall j | 0 <= j < i :: ValidItem(items[j]) && Refers(tables, items[j])
    {
      RefersIff(names, tables, items[i]);
      if !ValidItem(items[i]) || TrimmedTable(items[i]) !in names {
        return false;
      }
    }
    ok := true;
  }

  method Validate(tables: seq<Table>, items: seq<Item>) returns (ok: bool)
    ensures ok <==> Persistable(tables, items)
  {
    var names;
    ok, names := ValidateTables(tables);
    if ok {
      ok := ValidateItems(names, tables, items);
    }
  }

  class Repository {
    var rows: Rows

    constructor ()
      ensures rows == RowsOf([], [])
    {
      rows := Rows([], []);
    }

    // accepted: whether the database takes the transaction
    method Save(state: State, accepted: bool) returns (ok: bool)
      requires state.Valid()
      modifies this
      ensures ok <==> accepted && Persistable(state.tables, state.items)
      ensures rows == if ok then RowsOf(state.tables, state.items) else old(rows)
    {
      var valid := Validate(state.tables, state.items);
      if !valid || !accepted {
        return false;
      }
      var tables := ListTables(state.tables);
      var saved := Collect(tables, state);
      var written := WriteRows(saved);
      rows := Rows(tables, written);
      ok := true;
    }

    method Collect(tables: seq<Table>, state: State) returns (saved: seq<Item>)
      ensures saved == SavedItems(tables, state.items)
    {
      saved := [];
      for i := 0 to |tables|
        invariant saved == SavedItems(tables[..i], state.items)
      {
        assert tables[..i + 1][..i] == tables[..i];
        var listed := state.ItemsOf(tables[i].name);
        saved := saved + listed;
      }
      assert tables[..|tables|] == tables;
    }

    method WriteRows(saved: seq<Item>) returns (written: seq<ItemRow>)
      ensures written == EncodeAll(saved)
    {
      written := [];
      for i := 0 to |saved|
        invariant written == EncodeAll(saved)[..i]
      {
        var fields := MarshalFields(Map(saved[i].attributes));
        written := written + [ItemRow(saved[i].table, saved[i].key, JObject(fields))];
      }
    }
  }

  // ---------- loading ----------

  function LoadItems(rows: seq<ItemRow>): Result<seq<Item>, DecodeError> {
    if |rows| == 0 then Ok([])
    else
      var last := rows[|rows| - 1];
      match (LoadItems(rows[..|rows| - 1]), if last.document.JObject? then DecodeEntries(last.document) else Err(Malformed))
      case (Ok(before), Ok(attributes)) => Ok(before + [Item(last.table, last.key, attributes)])
      case _ => Err(Malformed)
  }

  ghost predicate WellFormedItems(items: seq<Item>) {
    forall i | 0 <= i < |items| :: WellFormedDocument(items[i].attributes)
  }

  // The rows load as the items that were saved exactly if all documents are well-formed.
  lemma {:induction false} LoadsIff(items: seq<Item>)
    ensures LoadItems(EncodeAll(items)) == Ok(items) <==> WellFormedItems(items)
  {
    if |items| > 0 {
      var n := |items| - 1;
      LoadsIff(items[..n]);
      LoadsLast(items, n);
    }
  }

  lemma LoadsLast(items: seq<Item>, n: nat)
    requires |items| == n + 1
    ensures LoadItems(EncodeAll(items)) == Ok(items) <==>
      LoadItems(EncodeAll(items[..n])) == Ok(items[..n]) && WellFormedDocument(items[n].attributes)
  {
    DocumentRoundTripIff(items[n].attributes);
    var rows, document := EncodeAll(items), EncodeDocument(items[n].attributes);
    assert rows[..n] == EncodeAll(items[..n]);
    assert rows[n] == RowOf(items[n]) && document.JObject?;
    LoadItemsLast(rows, n);
    hide *;
    var before, attributes := LoadItems(rows[..n]), DecodeEntries(document);
    if before.Ok? && attributes.Ok? {
      var loaded := before.value + [Item(items[n].table, items[n].key, attributes.value)];
      assert items == items[..n] + [items[n]];
      if loaded == items {
        assert before.value == loaded[..|loaded| - 1] == items[..n];
        assert loaded[|loaded| - 1] == items[n];
      }
    }
  }

  lemma LoadItemsLast(rows: seq<ItemRow>, n: nat)
    requires |rows| == n + 1 && rows[n].document.JObject?
    ensures LoadItems(rows) == match (LoadItems(rows[..n]), DecodeEntries(rows[n].document))
      case (Ok(before), Ok(attributes)) => Ok(before + [Item(rows[n].table, rows[n].key, attributes)])
      case _ => Err(Malformed)
  {
    hide DecodeEntries;
  }

  // ---------- what a reloaded state answers ----------

  ghost predicate TablesNamed(tables: seq<Table>, items: seq<Item>) {
    forall x | x in items :: exists t :: t in tables && t.name == x.table
  }

  lemma {:induction false} SavedMembers(tables: seq<Table>, items: seq<Item>)
    requires Unique(ItemIdOf, items)
    ensures forall x :: x in SavedItems(tables, items) <==> x in items && exists t :: t in tables && t.name == x.table
  {
    if |tables| > 0 {
      var n := |tables| - 1;
      SavedMembers(tables[..n], items);
      ListingOfTable(items, tables[n].name);
      assert tables == tables[..n] + [tables[n]];
    }
  }

  lemma {:induction false} SavedUnique(tables: seq<Table>, items: seq<Item>)
    requires Unique(ItemIdOf, items) && Unique(TableName, tables)
    ensures Unique(ItemIdOf, SavedItems(tables, items))
  {
    if |tables| > 0 {
      var n := |tables| - 1;
      SavedUnique(tables[..n], items);
      SavedMembers(tables[..n], items);
      ListingOfTable(items, tables[n].name);
      SavedApart(tables, items, n);
    }
  }

  lemma SavedApart(tables: seq<Table>, items: seq<Item>, n: nat)
    requires n + 1 == |tables| && Unique(TableName, tables)
    requires forall x | x in SavedItems(tables[..n], items) :: exists t :: t in tables[..n] && t.name == x.table
    requires forall x | x in ListItems(items, tables[n].name) :: x.table == tables[n].name
    ensures var before, listed := SavedItems(tables[..n], items), ListItems(items, tables[n].name);
      forall i, j | 0 <= i < |before| && 0 <= j < |listed| :: ItemIdOf(before[i]) != ItemIdOf(listed[j])
  {
    var before, listed := SavedItems(tables[..n], items), ListItems(items, tables[n].name);
    forall i, j | 0 <= i < |before| && 0 <= j < |listed| ensures ItemIdOf(before[i]) != ItemIdOf(listed[j]) {
      assert before[i] in before && listed[j] in listed;
      var t :| t in tables[..n] && t.name == before[i].table;
      var k :| 0 <= k < n && tables[..n][k] == t;
      assert TableName(tables[k]) != TableName(tables[n]);
    }
  }

  // Unique sequences with the same members are permutations of each other and stand for the same map.
  lemma SameMembers(a: seq<Item>, b: seq<Item>)
    requires Unique(ItemIdOf, a) && Unique(ItemIdOf, b)
    requires forall x :: x in a <==> x in b
    ensures multiset(a) == multiset(b) && ItemMap(a) == ItemMap(b)
  {
    UniqueIsDistinct(a);
    UniqueIsDistinct(b);
    forall x ensures multiset(a)[x] == multiset(b)[x] {
      OnceAtMost(ItemTable, ItemKey, a, x);
      OnceAtMost(ItemTable, ItemKey, b, x);
      assert x in multiset(a) <==> x in a;
      assert x in multiset(b) <==> x in b;
    }
    SameMaps(a, b);
  }

  lemma SameMaps(a: seq<Item>, b: seq<Item>)
    requires Unique(ItemIdOf, a) && Unique(ItemIdOf, b)
    requires forall x :: x in a <==> x in b
    ensures ItemMap(a) == ItemMap(b)
  {
    hide ToMap, Unique;
    var m, n := ToMap(ItemIdOf, a), ToMap(ItemIdOf, b);
    forall id ensures (id in m <==> id in n) && (id in m ==> m[id] == n[id]) {
      if id in m {
        assert m[id] in b;
      }
      if id in n {
        assert n[id] in a;
      }
    }
  }

  lemma TablesKept(tables: seq<Table>)
    requires Unique(TableName, tables)
    ensures Unique(TableName, ListTables(tables)) && ToMap(TableName, ListTables(tables)) == ToMap(TableName, tables)
    ensures forall t :: t in ListTables(tables) <==> t in tables
  {
    var sorted := ListTables(tables);
    StableSort.SameElements(sorted, tables);
    forall i, j | 0 <= i < j < |sorted| ensures TableName(sorted[i]) != TableName(sorted[j]) {
      if TableName(sorted[i]) == TableName(sorted[j]) {
        assert sorted[i] in tables && sorted[j] in tables;
        StableSort.Twice(sorted, i, j);
        OnceAtMost(TableName, TableName, tables, sorted[i]);
      }
    }
    var m, n := ToMap(TableName, sorted), ToMap(TableName, tables);
    forall name ensures (name in m <==> name in n) && (name in m ==> m[name] == n[name]) {
      if name in m {
        assert m[name] in tables;
      }
      if name in n {
        assert n[name] in sorted;
      }
    }
  }

  lemma {:induction false} LoadedIds(rows: seq<ItemRow>)
    requires LoadItems(rows).Ok?
    ensures |LoadItems(rows).value| == |rows|
    ensures forall i | 0 <= i < |rows| :: ItemIdOf(LoadItems(rows).value[i]) == ItemId(rows[i].table, rows[i].key)
  {
    if |rows| > 0 {
      LoadedIds(rows[..|rows| - 1]);
    }
  }

  // what loading gives back
  ghost predicate Reloads(tables: seq<Table>, items: seq<Item>)
    requires Well(tables, items)
  {
    var rows := RowsOf(tables, items);
    && LoadItems(rows.items).Ok?
    && Well(rows.tables, LoadItems(rows.items).value)
    && DatabaseOf(rows.tables, LoadItems(rows.items).value) == DatabaseOf(tables, items)
  }

  // A state that was saved and loaded answers every lookup of a table or item as before exactly if its documents
  // are well-formed.
  lemma ReloadsIff(tables: seq<Table>, items: seq<Item>)
    requires Well(tables, items) && TablesNamed(tables, items)
    ensures Reloads(tables, items) <==> WellFormedItems(items)
  {
    hide DatabaseOf, ListTables, SavedItems, EncodeAll, LoadItems;
    var sorted, saved := ListTables(tables), SavedItems(ListTables(tables), items);
    SavedAnswers(tables, items);
    LoadsIff(saved);
    assert WellFormedItems(saved) <==> WellFormedItems(items) by {
      if WellFormedItems(saved) {
        MembersWellFormed(items, saved);
      }
      if WellFormedItems(items) {
        MembersWellFormed(saved, items);
      }
    }
    if Reloads(tables, items) {
      SameRows(sorted, saved);
    }
  }

  lemma SameRows(tables: seq<Table>, saved: seq<Item>)
    requires Well(tables, saved) && LoadItems(EncodeAll(saved)).Ok?
    requires var loaded := LoadItems(EncodeAll(saved)).value;
      Well(tables, loaded) && DatabaseOf(tables, loaded) == DatabaseOf(tables, saved)
    ensures LoadItems(EncodeAll(saved)) == Ok(saved)
  {
    hide EncodeDocument, LoadItems;
    var loaded := LoadItems(EncodeAll(saved)).value;
    LoadedIds(EncodeAll(saved));
    forall i | 0 <= i < |saved| ensures loaded[i] == saved[i] {
      assert EncodeAll(saved)[i] == RowOf(saved[i]);
      assert ItemIdOf(loaded[i]) == ItemIdOf(saved[i]);
      ItemFound(loaded, i);
      ItemFound(saved, i);
      assert ItemMap(loaded) == ItemMap(saved);
    }
    assert loaded == saved;
  }

  // The listings are the same, too.
  lemma ReloadLists(tables: seq<Table>, items: seq<Item>, table: string)
    requires Well(tables, items) && TablesNamed(tables, items) && WellFormedItems(items)
    ensures LoadItems(RowsOf(tables, items).items).Ok?
    ensures ListItems(LoadItems(RowsOf(tables, items).items).value, table) == ListItems(items, table)
  {
    hide DatabaseOf, ListTables, SavedItems, EncodeAll, LoadItems;
    var saved := SavedItems(ListTables(tables), items);
    SavedAnswers(tables, items);
    MembersWellFormed(saved, items);
    LoadsIff(saved);
    UniqueIsDistinct(saved);
    SameListings(ItemTable, ItemKey, saved, items, table);
  }

  lemma SavedAnswers(tables: seq<Table>, items: seq<Item>)
    requires Well(tables, items) && TablesNamed(tables, items)
    ensures var sorted, saved := ListTables(tables), SavedItems(ListTables(tables), items);
      && Well(sorted, saved)
      && DatabaseOf(sorted, saved) == DatabaseOf(tables, items)
      && multiset(saved) == multiset(items)
      && forall x :: x in saved <==> x in items
  {
    TablesKept(tables);
    SavedAll(tables, items);
    SameMembers(SavedItems(ListTables(tables), items), items);
  }

  lemma SavedAll(tables: seq<Table>, items: seq<Item>)
    requires Well(tables, items) && TablesNamed(tables, items)
    ensures var saved := SavedItems(ListTables(tables), items);
      Unique(ItemIdOf, saved) && forall x :: x in saved <==> x in items
  {
    var sorted := ListTables(tables);
    TablesKept(tables);
    SavedMembers(sorted, items);
    SavedUnique(sorted, items);
    AllSaved(tables, sorted, items, SavedItems(sorted, items));
  }

  lemma MembersWellFormed(saved: seq<Item>, items: seq<Item>)
    requires WellFormedItems(items) && forall x :: x in saved <==> x in items
    ensures WellFormedItems(saved)
  {
    forall i | 0 <= i < |saved| ensures WellFormedDocument(saved[i].attributes) {
      assert saved[i] in items;
    }
  }

  lemma AllSaved(tables: seq<Table>, sorted: seq<Table>, items: seq<Item>, saved: seq<Item>)
    requires forall t :: t in sorted <==> t in tables
    requires TablesNamed(tables, items)
    requires forall x :: x in saved <==> x in items && exists t :: t in sorted && t.name == x.table
    ensures forall x :: x in saved <==> x in items
  {
    forall x | x in items ensures x in saved {
      var t :| t in tables && t.name == x.table;
      assert t in sorted;
    }
  }
}
