/** When the conflict detection of transactions tells items apart: the marks of two tables collide exactly if the name
    of one, followed by a bar, begins the name of the other. */
module DynamoConflicts {
  import opened Wrappers
  import opened Strings
  import opened DynamoValues
  import opened DynamoModel
  import opened DynamoTransactions

  // ---------- marks ----------

  predicate Clash(a: string, b: string) {
    a + "|" <= b || b + "|" <= a
  }

  lemma ClashStarts(a: string, b: string)
    ensures Clash(a, b) <==> a + "|" <= b || b + "|" <= a
  {
  }

  // Items of two tables can have one mark exactly if the names clash.
  lemma MarksCollideIff(a: string, b: string)
    requires a != b
    ensures (exists k, l :: Mark(ItemId(a, k)) == Mark(ItemId(b, l))) <==> Clash(a, b)
  {
    if k, l :| Mark(ItemId(a, k)) == Mark(ItemId(b, l)) {
      if |a| <= |b| {
        MarksShareStart(a, k, b, l);
      } else {
        MarksShareStart(b, l, a, k);
      }
    }
    if a + "|" <= b {
      ExtendedMark(a, b, "");
    }
    if b + "|" <= a {
      ExtendedMark(b, a, "");
    }
  }

  lemma MarksShareStart(a: string, k: string, b: string, l: string)
    requires a != b && |a| <= |b| && a + "|" + k == b + "|" + l
    ensures a + "|" <= b
  {
    var m := a + "|" + k;
    assert m[..|b|] == b && m[..|a|] == a;
    assert |a| < |b|;
    assert m[..|a| + 1] == a + "|" && m[..|a| + 1] == b[..|a| + 1];
  }

  // the item of the table a that is taken for the item l of the table b
  function Twin(a: string, b: string, l: string): string
    requires a + "|" <= b
  {
    b[|a| + 1..] + "|" + l
  }

  lemma ExtendedMark(a: string, b: string, l: string)
    requires a + "|" <= b
    ensures Mark(ItemId(a, Twin(a, b, l))) == Mark(ItemId(b, l))
  {
    assert b == a + "|" + b[|a| + 1..];
  }

  // no two tables clash
  ghost predicate Separable(tables: Tables) {
    forall a, b | a in tables && b in tables && a != b :: !Clash(a, b)
  }

  lemma MarksAreIds(tables: Tables, x: ItemId, y: ItemId)
    requires Separable(tables) && x.table in tables && y.table in tables
    ensures Mark(x) == Mark(y) <==> x == y
  {
    if Mark(x) == Mark(y) {
      if x.table == y.table {
        var n := |x.table| + 1;
        assert Mark(x)[n..] == x.key && Mark(y)[n..] == y.key;
      } else {
        MarksCollideIff(x.table, y.table);
      }
    }
  }

  // ---------- transactions on separable tables ----------

  // the entries are about pairwise different items
  ghost predicate DifferentItems(tables: Tables, entries: seq<TransactItem>) {
    forall i, j | 0 <= i < j < |entries| && EntryTarget(tables, entries[i]).Ok? && EntryTarget(tables, entries[j]).Ok? ::
      EntryTarget(tables, entries[i]).value != EntryTarget(tables, entries[j]).value
  }

  lemma TargetsAreItems(sum: Sum, tables: Tables, entries: seq<TransactItem>)
    requires Separable(tables)
    ensures DistinctTargets(RulesOf(sum, tables), entries) <==> DifferentItems(tables, entries)
  {
    var rules := RulesOf(sum, tables);
    forall i, j | 0 <= i < j < |entries| && EntryTarget(tables, entries[i]).Ok? && EntryTarget(tables, entries[j]).Ok?
      ensures rules.mark(IdOf(rules, entries[i])) == rules.mark(IdOf(rules, entries[j]))
         <==> EntryTarget(tables, entries[i]).value == EntryTarget(tables, entries[j]).value
    {
      TargetKnown(tables, entries[i]);
      TargetKnown(tables, entries[j]);
      MarksAreIds(tables, EntryTarget(tables, entries[i]).value, EntryTarget(tables, entries[j]).value);
      assert rules.target(entries[i]) == EntryTarget(tables, entries[i]);
      assert rules.target(entries[j]) == EntryTarget(tables, entries[j]);
    }
    hide EntryTarget, Mark;
    assert forall e: TransactItem :: rules.target(e) == EntryTarget(tables, e);
  }

  lemma TargetKnown(tables: Tables, e: TransactItem)
    requires EntryTarget(tables, e).Ok?
    ensures EntryTarget(tables, e).value.table in tables
  {
    hide EntryKey;
  }

  // Where no two tables clash, a transaction without condition checks goes through exactly if its entries are about
  // pairwise different items and every one is possible in the starting state; then it amounts to all effects at once.
  lemma UncheckedOnItems(sum: Sum, tables: Tables, start: Items, entries: seq<TransactItem>)
    requires Separable(tables) && forall i | 0 <= i < |entries| :: !Checked(entries[i])
    ensures var rules, r := RulesOf(sum, tables), Transact(sum, tables, start, entries);
      && (r.Ok? <==> 0 < |entries| <= LIMIT && DifferentItems(tables, entries) && AllPossible(rules, start, entries))
      && (r.Ok? ==> AllAtOnce(rules, start, entries, r.value))
  {
    TargetsAreItems(sum, tables, entries);
    UncheckedTransaction(RulesOf(sum, tables), start, entries);
  }

  // The same with condition checks, when the entries are about pairwise different items.
  lemma DistinctOnItems(sum: Sum, tables: Tables, start: Items, entries: seq<TransactItem>)
    requires Separable(tables) && DifferentItems(tables, entries)
    ensures var rules, r := RulesOf(sum, tables), Transact(sum, tables, start, entries);
      && (r.Ok? <==> 0 < |entries| <= LIMIT && AllPossible(rules, start, entries))
      && (r.Ok? ==> AllAtOnce(rules, start, entries, r.value))
  {
    TargetsAreItems(sum, tables, entries);
    DistinctTransaction(RulesOf(sum, tables), start, entries);
  }

  // And any order of the entries does.
  lemma OrderOnItems(sum: Sum, tables: Tables, start: Items, xs: seq<TransactItem>, ys: seq<TransactItem>)
    requires Separable(tables) && multiset(xs) == multiset(ys)
    requires (forall i | 0 <= i < |xs| :: !Checked(xs[i])) || DifferentItems(tables, xs)
    requires Transact(sum, tables, start, xs).Ok?
    ensures Transact(sum, tables, start, ys) == Transact(sum, tables, start, xs)
  {
    TargetsAreItems(sum, tables, xs);
    OrderIrrelevant(RulesOf(sum, tables), start, xs, ys);
  }

  // ---------- transactions on tables that clash ----------

  // what CreateTable and the key schema grant
  ghost predicate Proper(tables: Tables) {
    forall name | name in tables ::
      && name != "" && Trimmed(name)
      && TrimSpace(tables[name].partitionKey) != ""
      && tables[name].partitionKey != tables[name].sortKey
  }

  // an item of the table, of text keys; the second one where the table has a sort key
  function TextItem(t: Table, partition: string, sort: string): Attributes {
    if HasSortKey(t) then map[t.partitionKey := StringValue(partition), t.sortKey := StringValue(sort)]
    else map[t.partitionKey := StringValue(partition)]
  }

  // the item under the key p|s
  function BarredItem(t: Table, p: string, s: string): Attributes {
    if HasSortKey(t) then TextItem(t, p, s) else TextItem(t, p + "|" + s, "")
  }

  lemma BarredKey(t: Table, p: string, s: string)
    requires TrimSpace(t.partitionKey) != "" && t.partitionKey != t.sortKey
    ensures |BarredItem(t, p, s)| > 0 && RecordKey(t, BarredItem(t, p, s)) == Ok(p + "|" + s)
  {
    var item := BarredItem(t, p, s);
    assert t.partitionKey in item.Keys;
    assert |item.Keys| > 0;
  }

  // Where two tables clash, two puts of different items are refused as a conflict.
  lemma ClashingPuts(sum: Sum, tables: Tables, items: Items, a: string, b: string) returns (x: TransactItem, y: TransactItem)
    requires Proper(tables) && a in tables && b in tables && a + "|" <= b
    ensures EntryTarget(tables, x).Ok? && EntryTarget(tables, y).Ok? && !Checked(x) && !Checked(y)
    ensures EntryTarget(tables, x).value != EntryTarget(tables, y).value
    ensures Mark(EntryTarget(tables, x).value) == Mark(EntryTarget(tables, y).value)
    ensures Transact(sum, tables, items, [x, y]) == Err(Cancelled(Reasons(2, 1, 0, TransactionConflict)))
  {
    hide BarredItem, RecordKey, EntryTarget, Proper, Reasons;
    var c, key := b[|a| + 1..], "k" + "|" + "k";
    x, y := PutEntry(a, BarredItem(tables[a], c, key)), PutEntry(b, BarredItem(tables[b], "k", "k"));
    BarredPut(tables, a, c, key);
    BarredPut(tables, b, "k", "k");
    ExtendedMark(a, b, key);
    assert |a| != |b|;
    hide PutEntry, Mark;
    PutsConflict(sum, tables, items, x, y);
  }

  lemma BarredPut(tables: Tables, name: string, p: string, s: string)
    requires Proper(tables) && name in tables
    ensures var x := PutEntry(name, BarredItem(tables[name], p, s));
      |x.put| > 0 && !Checked(x) && EntryTarget(tables, x) == Ok(ItemId(name, p + "|" + s))
  {
    BarredKey(tables[name], p, s);
    hide BarredItem, RecordKey;
    PutTarget(tables, name, BarredItem(tables[name], p, s), p + "|" + s);
  }

  lemma PutTarget(tables: Tables, name: string, item: Attributes, key: string)
    requires name in tables && name != "" && Trimmed(name) && |item| > 0 && RecordKey(tables[name], item) == Ok(key)
    ensures EntryTarget(tables, PutEntry(name, item)) == Ok(ItemId(name, key))
  {
  }

  lemma PutsConflict(sum: Sum, tables: Tables, items: Items, x: TransactItem, y: TransactItem)
    requires |x.put| > 0 && !Checked(x) && !Checked(y)
    requires EntryTarget(tables, x).Ok? && EntryTarget(tables, y).Ok?
    requires Mark(EntryTarget(tables, x).value) == Mark(EntryTarget(tables, y).value)
    ensures Transact(sum, tables, items, [x, y]) == Err(Cancelled(Reasons(2, 1, 0, TransactionConflict)))
  {
    var rules := RulesOf(sum, tables);
    assert rules.effect(x, Lookup(items, IdOf(rules, x))).Ok?;
    hide EntryTarget, Mark, Reasons;
    TwoSteps(rules, items, x, y);
  }

  // The conflict detection tells items apart in every transaction exactly if no two tables clash.
  lemma ConflictsTellItemsIff(sum: Sum, tables: Tables)
    requires Proper(tables)
    ensures (forall entries :: DistinctTargets(RulesOf(sum, tables), entries) <==> DifferentItems(tables, entries))
       <==> Separable(tables)
  {
    hide Proper, Clash, DistinctTargets, DifferentItems, EntryTarget, Mark, Transact, Reasons;
    var rules := RulesOf(sum, tables);
    if Separable(tables) {
      forall entries ensures DistinctTargets(rules, entries) <==> DifferentItems(tables, entries) {
        TargetsAreItems(sum, tables, entries);
      }
    } else {
      var a, b :| a in tables && b in tables && a != b && Clash(a, b);
      var x, y;
      assert a + "|" <= b || b + "|" <= a by {
        ClashStarts(a, b);
      }
      if a + "|" <= b {
        x, y := ClashingPuts(sum, tables, map[], a, b);
      } else {
        x, y := ClashingPuts(sum, tables, map[], b, a);
      }
      OneMark(sum, tables, x, y);
    }
  }

  lemma OneMark(sum: Sum, tables: Tables, x: TransactItem, y: TransactItem)
    requires EntryTarget(tables, x).Ok? && EntryTarget(tables, y).Ok?
    requires EntryTarget(tables, x).value != EntryTarget(tables, y).value
    requires Mark(EntryTarget(tables, x).value) == Mark(EntryTarget(tables, y).value)
    ensures DifferentItems(tables, [x, y]) && !DistinctTargets(RulesOf(sum, tables), [x, y])
  {
    hide EntryTarget, Mark;
    var rules, entries := RulesOf(sum, tables), [x, y];
    assert rules.target(entries[0]) == EntryTarget(tables, x) && rules.target(entries[1]) == EntryTarget(tables, y);
    assert rules.mark(IdOf(rules, entries[0])) == rules.mark(IdOf(rules, entries[1]));
  }

  function TextTable(name: string): Table {
    Table(name, "id", "", "PAY_PER_REQUEST", [], [], [], Active, 1, 0, 0)
  }

  // The items b|k|k of the table a and k|k of the table a|b cannot be put in one transaction.
  lemma BarInTableName(sum: Sum, items: Items)
    ensures var tables := map["a" := TextTable("a"), "a|b" := TextTable("a|b")];
      var x, y := PutEntry("a", map["id" := StringValue("b|k|k")]), PutEntry("a|b", map["id" := StringValue("k|k")]);
      && EntryTarget(tables, x) == Ok(ItemId("a", "b|k|k")) && EntryTarget(tables, y) == Ok(ItemId("a|b", "k|k"))
      && Transact(sum, tables, items, [x, y]) == Err(Cancelled(Reasons(2, 1, 0, TransactionConflict)))
  {
    var tables := map["a" := TextTable("a"), "a|b" := TextTable("a|b")];
    var v, w := map["id" := StringValue("b|k|k")], map["id" := StringValue("k|k")];
    var x, y := PutEntry("a", v), PutEntry("a|b", w);
    assert |v.Keys| > 0 && |w.Keys| > 0;
    assert Trimmed("a") && Trimmed("a|b") && TrimSpace("id") == "id" && TrimSpace("") == "";
    hide TrimSpace;
    assert RecordKey(TextTable("a"), v) == Ok("b|k|k") && RecordKey(TextTable("a|b"), w) == Ok("k|k");
    hide RecordKey;
    PutTarget(tables, "a", v, "b|k|k");
    PutTarget(tables, "a|b", w, "k|k");
    assert "a" + "|" + "b|k|k" == "a|b" + "|" + "k|k";
    hide EntryTarget;
    PutsConflict(sum, tables, items, x, y);
  }
}
