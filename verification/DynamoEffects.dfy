/** What the item requests answer and leave, in terms of the request and of the items there were: puts, deletes,
    conditions, updates, transactions and batches. */
module DynamoEffects {
  import opened Wrappers
  import opened Strings
  import opened DynamoValues
  import opened DynamoModel
  import opened DynamoTransactions
  import opened DynamoUpdates
  import opened DynamoBatch
  import opened DynamoRequests

  function Named(table: string, key: string): ItemId {
    ItemId(TrimSpace(table), TrimSpace(key))
  }

  // what an item has of an attribute; nothing if the item is not there
  function Stored(items: Items, id: ItemId, name: string): Slot {
    if id in items && name in items[id] then Some(items[id][name]) else None
  }

  ghost predicate Known(db: Database, id: ItemId) {
    id.table != "" && id.key != "" && id.table in db.tables
  }

  lemma NamedIff(db: Database, table: string, key: string)
    ensures var id, c := Named(table, key), CheckedId(db.tables, table, key);
      && (c.Ok? <==> Known(db, id))
      && (c.Ok? ==> c.value == id)
      && (c == Err(TableNameRequired) <==> id.table == "")
      && (c == Err(ItemKeyRequired) <==> id.table != "" && id.key == "")
      && (c == Err(TableNotFound) <==> id.table != "" && id.key != "" && id.table !in db.tables)
  {
    hide TrimSpace;
  }

  // ---------- puts and deletes ----------

  // A put leaves the document that was sent, and every other item as it was.
  lemma PutLeaves(db: Database, table: string, key: string, attributes: Attributes)
    ensures var r, id := PutItem(db, table, key, attributes), Named(table, key);
      && (r.Ok? <==> Known(db, id))
      && (r == Err(TableNameRequired) <==> id.table == "")
      && (r == Err(ItemKeyRequired) <==> id.table != "" && id.key == "")
      && (r == Err(TableNotFound) <==> id.table != "" && id.key != "" && id.table !in db.tables)
      && (r.Ok? ==> id in r.value && r.value[id] == attributes && r.value - {id} == db.items - {id})
  {
    NamedIff(db, table, key);
    hide TrimSpace, CheckedId;
  }

  // A delete leaves no such item, and every other item as it was; without the item it fails.
  lemma DeleteLeaves(db: Database, table: string, key: string)
    ensures var r, id := DeleteItem(db, table, key), Named(table, key);
      && (r.Ok? <==> Known(db, id) && id in db.items)
      && (r == Err(ItemNotFound) <==> Known(db, id) && id !in db.items)
      && (r.Ok? ==>
            && id !in r.value
            && forall other | other != id :: Lookup(r.value, other) == Lookup(db.items, other))
  {
    NamedIff(db, table, key);
    hide TrimSpace, CheckedId;
  }

  // ---------- conditions ----------

  // What a condition asks of an item. A missing item has no attribute.
  ghost predicate Met(c: Condition, items: Items, id: ItemId) {
    match c
    case Always => true
    case Exists(path) => Stored(items, id, path).Some?
    case NotExists(path) => Stored(items, id, path).None?
    case EqualTo(path, value) => Stored(items, id, path) == Some(value)
    case Unusable => false
  }

  lemma MetIff(c: Condition, items: Items, id: ItemId)
    ensures Meets(c, Current(Lookup(items, id))) <==> Met(c, items, id)
  {
  }

  lemma {:induction false} UpdateErrors(sum: Sum, t: Table, operations: seq<Operation>, attributes: Attributes)
    ensures Updated(sum, t, operations, attributes) != Err(ConditionFailed)
    decreases |operations|
  {
    if |operations| > 0 && Operated(sum, t, operations[0], attributes).Ok? {
      UpdateErrors(sum, t, operations[1..], Operated(sum, t, operations[0], attributes).value);
    }
  }

  lemma ConditionDecides(sum: Sum, db: Database, table: string, key: string, c: Condition, update: Option<seq<Operation>>)
    requires Known(db, Named(table, key))
    ensures UpdateItem(sum, db, table, key, c, update) == Err(ConditionFailed) <==> !Met(c, db.items, Named(table, key))
  {
    var id := Named(table, key);
    NamedIff(db, table, key);
    MetIff(c, db.items, id);
    if update.Some? {
      UpdateErrors(sum, db.tables[id.table], update.value, Current(Lookup(db.items, id)));
    }
    hide TrimSpace, CheckedId, Meets, Met, Updated, Known;
  }

  // An update of an item in a table that is there fails its condition
  // - with attribute_not_exists exactly if the item is there and has the attribute,
  // - with attribute_exists exactly if the item is not there or lacks it,
  // - with a value that it must have exactly if it lacks the attribute or has another value,
  // and never without a condition.
  lemma ConditionFailsIff(sum: Sum, db: Database, table: string, key: string, a: string, v: AttributeValue,
                          update: Option<seq<Operation>>)
    requires Known(db, Named(table, key))
    ensures var id, items := Named(table, key), db.items;
      && (UpdateItem(sum, db, table, key, NotExists(a), update) == Err(ConditionFailed) <==> id in items && a in items[id])
      && (UpdateItem(sum, db, table, key, Exists(a), update) == Err(ConditionFailed) <==> id !in items || a !in items[id])
      && (UpdateItem(sum, db, table, key, EqualTo(a, v), update) == Err(ConditionFailed) <==>
            id !in items || a !in items[id] || items[id][a] != v)
      && UpdateItem(sum, db, table, key, Always, update) != Err(ConditionFailed)
  {
    hide UpdateItem, Known, Named;
    ConditionDecides(sum, db, table, key, NotExists(a), update);
    ConditionDecides(sum, db, table, key, Exists(a), update);
    ConditionDecides(sum, db, table, key, EqualTo(a, v), update);
    ConditionDecides(sum, db, table, key, Always, update);
  }

  // ---------- updates ----------

  // no operation names a key attribute of the table
  ghost predicate SparesKeys(t: Table, operations: seq<Operation>) {
    forall i | 0 <= i < |operations| :: operations[i].path != t.partitionKey && (t.sortKey == "" || operations[i].path != t.sortKey)
  }

  // every attribute can be carried through the operations that name it
  ghost predicate Feasible(sum: Sum, t: Table, operations: seq<Operation>, items: Items, id: ItemId) {
    && SparesKeys(t, operations)
    && forall name :: Became(sum, About(operations, name), Stored(items, id, name)).Some?
  }

  // each attribute of the item is what the operations that name it made of it
  ghost predicate Carried(sum: Sum, operations: seq<Operation>, items: Items, result: Items, id: ItemId) {
    id in result && forall name :: Became(sum, About(operations, name), Stored(items, id, name)) == Some(Stored(result, id, name))
  }

  lemma FeasibleIff(sum: Sum, t: Table, operations: seq<Operation>, items: Items, id: ItemId)
    ensures var r := Updated(sum, t, operations, Current(Lookup(items, id)));
      && (r.Ok? <==> Feasible(sum, t, operations, items, id))
      && (r.Ok? ==> forall result: Items | id in result && result[id] == r.value :: Carried(sum, operations, items, result, id))
  {
    hide Updated, Became, About;
    UpdatedIff(sum, t, operations, Current(Lookup(items, id)));
    forall name ensures SlotOf(Current(Lookup(items, id)), name) == Stored(items, id, name) {
    }
  }

  // An update goes through exactly if its condition is met, it names some operation and no key attribute, and every
  // addition is one of numbers; then each attribute is what its operations say, and every other item as it was.
  lemma UpdateLeaves(sum: Sum, db: Database, table: string, key: string, c: Condition, update: Option<seq<Operation>>)
    ensures var r, id := UpdateItem(sum, db, table, key, c, update), Named(table, key);
      && (r.Ok? <==>
            && Known(db, id) && Met(c, db.items, id) && update.Some? && update.value != []
            && Feasible(sum, db.tables[id.table], update.value, db.items, id))
      && (r.Ok? ==> Carried(sum, update.value, db.items, r.value, id) && r.value - {id} == db.items - {id})
  {
    var id := Named(table, key);
    NamedIff(db, table, key);
    MetIff(c, db.items, id);
    if Known(db, id) && update.Some? {
      FeasibleIff(sum, db.tables[id.table], update.value, db.items, id);
    }
    hide TrimSpace, CheckedId, Meets, Met, Updated, Feasible, Carried, Current, Lookup;
  }

  // An addition takes an absent attribute for 0, and nothing but numbers.
  lemma AdditionLeaves(sum: Sum, db: Database, table: string, key: string, a: string, delta: AttributeValue)
    requires Known(db, Named(table, key)) && SparesKeys(db.tables[TrimSpace(table)], [Add(a, delta)])
    ensures var r, id := UpdateItem(sum, db, table, key, Always, Some([Add(a, delta)])), Named(table, key);
      var before := Stored(db.items, id, a);
      && (r.Err? ==> r.error == InvalidAddition)
      && (delta.N.None? ==> r.Err?)
      && (delta.N.Some? && before.None? ==>
            && (r.Ok? <==> sum("0", delta.N.value).Some?)
            && (r.Ok? ==> Stored(r.value, id, a) == Some(NumberValue(sum("0", delta.N.value).value))))
      && (delta.N.Some? && before.Some? && before.value.N.Some? ==>
            && (r.Ok? <==> sum(before.value.N.value, delta.N.value).Some?)
            && (r.Ok? ==> Stored(r.value, id, a) == Some(NumberValue(sum(before.value.N.value, delta.N.value).value))))
      && (before.Some? && before.value.N.None? && before.value != EMPTY ==> r.Err?)
      && (r.Ok? ==> forall name | name != a :: Stored(r.value, id, name) == Stored(db.items, id, name))
  {
    var id := Named(table, key);
    NamedIff(db, table, key);
    var t, before := db.tables[id.table], Current(Lookup(db.items, id));
    hide TrimSpace, CheckedId, Known;
    assert !IsKeyAttribute(t, a) by {
      assert [Add(a, delta)][0].path == a;
    }
    assert [Add(a, delta)][1..] == [];
    hide IsKeyAttribute;
    assert Updated(sum, t, [Add(a, delta)], before) == Operated(sum, t, Add(a, delta), before);
    hide Updated;
  }

  // ---------- transactions ----------

  // The item an entry is about: in the trimmed table, under the key of the document that it puts or names.
  ghost predicate Aims(tables: Tables, e: TransactItem, id: ItemId) {
    && id.table == TrimSpace(e.table) && id.table != "" && id.table in tables
    && var t := tables[id.table];
    if |e.put| > 0 then RecordKey(t, e.put) == Ok(id.key)
    else if |e.deleteKey| > 0 then DocumentKey(t, e.deleteKey) == Ok(id.key)
    else if |e.updateKey| > 0 then DocumentKey(t, e.updateKey) == Ok(id.key)
    else |e.checkKey| > 0 && DocumentKey(t, e.checkKey) == Ok(id.key)
  }

  lemma AimsIff(tables: Tables, e: TransactItem, id: ItemId)
    ensures EntryTarget(tables, e) == Ok(id) <==> Aims(tables, e, id)
    ensures EntryTarget(tables, e) == Ok(id) ==> TargetOf(tables, e) == Ok(DynamoTransactions.Target(tables[id.table], id))
  {
    hide TrimSpace, RecordKey, DocumentKey;
  }

  // An entry puts a document, or updates, or checks; otherwise it deletes.
  predicate Puts(e: TransactItem) { |e.put| > 0 }
  predicate Updates(e: TransactItem) { |e.put| == 0 && |e.updateKey| > 0 }
  predicate Checks(e: TransactItem) { |e.put| == 0 && |e.updateKey| == 0 && |e.checkKey| > 0 }
  predicate Deletes(e: TransactItem) { |e.put| == 0 && |e.updateKey| == 0 && |e.checkKey| == 0 }

  // what an entry leaves of its item, when it finds the items of the beginning
  ghost predicate Leaves(sum: Sum, e: TransactItem, items: Items, result: Items, id: ItemId) {
    && (Puts(e) ==> id in result && result[id] == e.put)
    && (Updates(e) ==> e.update.Some? && Carried(sum, e.update.value, items, result, id))
    && (Checks(e) ==> (id in result <==> id in items) && (id in items ==> result[id] == items[id]))
    && (Deletes(e) ==> id !in result)
  }

  // whether the entry can be carried out on the items of the beginning
  ghost predicate Succeeds(sum: Sum, tables: Tables, items: Items, e: TransactItem) {
    exists id :: Aims(tables, e, id) && SucceedsAt(sum, tables[id.table], items, e, id)
  }

  ghost predicate SucceedsAt(sum: Sum, t: Table, items: Items, e: TransactItem, id: ItemId) {
    && (Updates(e) ==> Met(e.condition, items, id) && e.update.Some? && Feasible(sum, t, e.update.value, items, id))
    && (Checks(e) ==> Met(e.condition, items, id))
  }

  lemma EffectIff(sum: Sum, tables: Tables, items: Items, e: TransactItem, id: ItemId)
    requires Aims(tables, e, id)
    ensures var effect := EntryEffect(sum, tables, e, Lookup(items, id));
      && (effect.Ok? <==> SucceedsAt(sum, tables[id.table], items, e, id))
      && (effect.Ok? ==> forall result: Items | Lookup(result, id) == Outcome(Lookup(items, id), effect.value) ::
            Leaves(sum, e, items, result, id))
      && (effect == Err(ConditionFailed) <==> (Updates(e) || Checks(e)) && !Met(e.condition, items, id))
  {
    AimsIff(tables, e, id);
    MetIff(e.condition, items, id);
    if e.update.Some? {
      FeasibleIff(sum, tables[id.table], e.update.value, items, id);
      UpdateErrors(sum, tables[id.table], e.update.value, Current(Lookup(items, id)));
    }
    hide TrimSpace, Aims, TargetOf, Meets, Met, Updated, Feasible, Carried;
  }

  lemma PossibleIff(sum: Sum, tables: Tables, items: Items, e: TransactItem)
    ensures Possible(RulesOf(sum, tables), items, e) <==> Succeeds(sum, tables, items, e)
  {
    hide Aims, EntryEffect, SucceedsAt, Leaves, EntryTarget;
    var target := EntryTarget(tables, e);
    if target.Ok? {
      AimsIff(tables, e, target.value);
      EffectIff(sum, tables, items, e, target.value);
    }
    forall id | Aims(tables, e, id) ensures target == Ok(id) {
      AimsIff(tables, e, id);
    }
  }

  // A transaction on items that are told apart goes through exactly if each entry can be carried out on the items of
  // the beginning; then a put has left its document, a delete nothing, a check what was there and an update what its
  // operations say, and an item that no entry is about is as before.
  lemma TransactLeaves(sum: Sum, tables: Tables, items: Items, entries: seq<TransactItem>)
    requires DistinctTargets(RulesOf(sum, tables), entries)
    ensures var r := Transact(sum, tables, items, entries);
      && (r.Ok? <==> 0 < |entries| <= 100 && forall i | 0 <= i < |entries| :: Succeeds(sum, tables, items, entries[i]))
      && (r.Ok? ==>
            && (forall i, id | 0 <= i < |entries| && Aims(tables, entries[i], id) :: Leaves(sum, entries[i], items, r.value, id))
            && (forall id | (forall i | 0 <= i < |entries| :: !Aims(tables, entries[i], id)) ::
                  Lookup(r.value, id) == Lookup(items, id)))
  {
    var rules, r := RulesOf(sum, tables), Transact(sum, tables, items, entries);
    DistinctTransaction(rules, items, entries);
    forall i | 0 <= i < |entries|
      ensures Possible(rules, items, entries[i]) <==> Succeeds(sum, tables, items, entries[i])
    {
      PossibleIff(sum, tables, items, entries[i]);
    }
    hide Succeeds, Aims, Leaves, EntryEffect, EntryTarget, DistinctTargets;
    if r.Ok? {
      forall i, id | 0 <= i < |entries| && Aims(tables, entries[i], id) ensures Leaves(sum, entries[i], items, r.value, id) {
        AimsIff(tables, entries[i], id);
        EffectIff(sum, tables, items, entries[i], id);
      }
      forall id | (forall i | 0 <= i < |entries| :: !Aims(tables, entries[i], id))
        ensures Lookup(r.value, id) == Lookup(items, id)
      {
        forall i | 0 <= i < |entries| && rules.target(entries[i]).Ok? ensures IdOf(rules, entries[i]) != id {
          AimsIff(tables, entries[i], id);
        }
        assert Untouched(rules, entries, id);
      }
    }
  }

  // The reasons of a cancellation name these two entries and no other.
  ghost predicate Blames(refusal: Refusal, size: nat, first: nat, second: nat, reason: Reason) {
    && refusal.Cancelled? && |refusal.reasons| == size
    && forall k | 0 <= k < size :: refusal.reasons[k] == if k == first || k == second then reason else NoReason
  }

  lemma ReasonsBlame(size: nat, first: nat, second: nat, reason: Reason)
    requires first < size && reason != NoReason
    ensures Blames(Cancelled(Reasons(size, first, second, reason)), size, first, second, reason)
    ensures forall k | 0 <= k < size && (k != first || reason != ConditionalCheckFailed) ::
      !Blames(Cancelled(Reasons(size, first, second, reason)), size, k, k, ConditionalCheckFailed)
  {
    var reasons := Reasons(size, first, second, reason);
    forall k | 0 <= k < size && (k != first || reason != ConditionalCheckFailed)
      ensures !Blames(Cancelled(reasons), size, k, k, ConditionalCheckFailed)
    {
      assert reasons[first] == reason;
    }
  }

  lemma InvalidBlamesNone(size: nat)
    ensures forall e: Error, k: nat :: !Blames(Invalid(e), size, k, k, ConditionalCheckFailed)
  {
  }

  // what one step of the loop is refused for
  lemma AdvanceBlames(rules: Rules, entries: seq<TransactItem>, n: nat, p: Progress)
    requires n < |entries| && SeenBelow(p, n)
    ensures var r := Advance(rules, entries, n, p);
      && (forall k | 0 <= k < |entries| && k != n && r.Err? :: !Blames(r.error, |entries|, k, k, ConditionalCheckFailed))
      && (rules.target(entries[n]).Ok? ==>
            var mark, effect := rules.mark(IdOf(rules, entries[n])), rules.effect(entries[n], Lookup(p.items, IdOf(rules, entries[n])));
            && (Conflict(entries, n, mark, p.seen) ==>
                  r.Err? && Blames(r.error, |entries|, n, p.seen[mark], TransactionConflict))
            && (!Conflict(entries, n, mark, p.seen) ==>
                  (effect == Err(ConditionFailed) <==> r.Err? && Blames(r.error, |entries|, n, n, ConditionalCheckFailed))))
  {
    hide Blames, Reasons;
    InvalidBlamesNone(|entries|);
    ReasonsBlame(|entries|, n, n, ConditionalCheckFailed);
    if rules.target(entries[n]).Ok? && rules.mark(IdOf(rules, entries[n])) in p.seen {
      ReasonsBlame(|entries|, n, p.seen[rules.mark(IdOf(rules, entries[n]))], TransactionConflict);
    }
  }

  lemma AfterNext(rules: Rules, items: Items, entries: seq<TransactItem>, n: nat)
    requires n < |entries| && After(rules, items, entries, n).Ok?
    ensures After(rules, items, entries, n + 1) == Advance(rules, entries, n, After(rules, items, entries, n).value)
  {
    hide Advance;
  }

  lemma {:induction false} BlamedBefore(rules: Rules, items: Items, entries: seq<TransactItem>, n: nat, m: nat)
    requires n < m <= |entries| && After(rules, items, entries, m).Ok?
    ensures var r := After(rules, items, entries, |entries|);
      r.Err? ==> !Blames(r.error, |entries|, n, n, ConditionalCheckFailed)
    decreases |entries| - m
  {
    hide *;
    if m < |entries| {
      AfterNext(rules, items, entries, m);
      AdvanceBlames(rules, entries, m, After(rules, items, entries, m).value);
      if After(rules, items, entries, m + 1).Ok? {
        BlamedBefore(rules, items, entries, n, m + 1);
      } else {
        RefusalStays(rules, items, entries, m + 1, |entries|);
      }
    }
  }

  lemma ConditionStops(rules: Rules, items: Items, entries: seq<TransactItem>, n: nat)
    requires n < |entries| && DistinctTargets(rules, entries) && AllPossible(rules, items, entries[..n])
    requires rules.target(entries[n]).Ok?
    ensures var effect := rules.effect(entries[n], Lookup(items, IdOf(rules, entries[n])));
      var r := After(rules, items, entries, |entries|);
      effect == Err(ConditionFailed) <==> r.Err? && Blames(r.error, |entries|, n, n, ConditionalCheckFailed)
  {
    hide *;
    Settled(rules, items, entries, n);
    AfterSeen(rules, items, entries, n);
    var p := After(rules, items, entries, n).value;
    StillUntouched(rules, items, entries, n, p);
    AfterNext(rules, items, entries, n);
    AdvanceBlames(rules, entries, n, p);
    if After(rules, items, entries, n + 1).Ok? {
      BlamedBefore(rules, items, entries, n, n + 1);
    } else {
      RefusalStays(rules, items, entries, n + 1, |entries|);
    }
  }

  // the entry finds its item as it was in the beginning, and its mark not met
  lemma StillUntouched(rules: Rules, items: Items, entries: seq<TransactItem>, n: nat, p: Progress)
    requires n < |entries| && DistinctTargets(rules, entries) && AllPossible(rules, items, entries[..n])
    requires rules.target(entries[n]).Ok? && SeenBelow(p, n) && SeenIsLatest(rules, entries, n, p.seen)
    requires AllAtOnce(rules, items, entries[..n], p.items)
    ensures var id := IdOf(rules, entries[n]);
      Lookup(p.items, id) == Lookup(items, id) && !Conflict(entries, n, rules.mark(id), p.seen)
  {
    hide Possible, Left, Lookup;
    var id, before := IdOf(rules, entries[n]), entries[..n];
    assert rules.mark(id) !in p.seen;
    assert Untouched(rules, before, id) by {
      assert forall i | 0 <= i < n :: before[i] == entries[i];
    }
  }

  // Where the entries before it can be carried out, an entry cancels the transaction for its condition, and is named as
  // the only reason, exactly if the items of the beginning do not meet the condition.
  lemma ConditionCancels(sum: Sum, tables: Tables, items: Items, entries: seq<TransactItem>, n: nat, id: ItemId)
    requires n < |entries| <= 100 && DistinctTargets(RulesOf(sum, tables), entries)
    requires forall i | 0 <= i < n :: Succeeds(sum, tables, items, entries[i])
    requires Aims(tables, entries[n], id) && (Updates(entries[n]) || Checks(entries[n]))
    ensures var r := Transact(sum, tables, items, entries);
      !Met(entries[n].condition, items, id) <==> r.Err? && Blames(r.error, |entries|, n, n, ConditionalCheckFailed)
  {
    var rules := RulesOf(sum, tables);
    forall i | 0 <= i < n ensures Possible(rules, items, entries[..n][i]) {
      PossibleIff(sum, tables, items, entries[i]);
    }
    AimsIff(tables, entries[n], id);
    EffectIff(sum, tables, items, entries[n], id);
    hide Succeeds, Aims, EntryEffect, EntryTarget, DistinctTargets, Met, Blames;
    ConditionStops(rules, items, entries, n);
  }

  // A check of a missing attribute, of a present one and of a value, spelled out.
  lemma CheckCancelsIff(sum: Sum, tables: Tables, items: Items, e: TransactItem, id: ItemId, a: string, v: AttributeValue)
    requires Aims(tables, e, id) && Checks(e)
    ensures var r := Transact(sum, tables, items, [e]);
      && (r.Ok? ==> r.value == items)
      && (e.condition == NotExists(a) ==> (r.Err? <==> id in items && a in items[id]))
      && (e.condition == Exists(a) ==> (r.Err? <==> id !in items || a !in items[id]))
      && (e.condition == EqualTo(a, v) ==> (r.Err? <==> id !in items || a !in items[id] || items[id][a] != v))
      && (e.condition == Always ==> r.Ok?)
      && (r.Err? ==> r.error == Cancelled([ConditionalCheckFailed]))
  {
    var rules, r := RulesOf(sum, tables), Transact(sum, tables, items, [e]);
    assert [e][0] == e;
    ConditionCancels(sum, tables, items, [e], 0, id);
    TransactLeaves(sum, tables, items, [e]);
    AimsIff(tables, e, id);
    hide Transact, Aims, EntryEffect, EntryTarget, DistinctTargets;
    if r.Ok? {
      assert Leaves(sum, [e][0], items, r.value, id);
      forall other ensures Lookup(r.value, other) == Lookup(items, other) {
        AimsIff(tables, e, other);
      }
      SameLookups(r.value, items);
    }
    if r.Err? && Blames(r.error, 1, 0, 0, ConditionalCheckFailed) {
      assert r.error.reasons == [ConditionalCheckFailed];
    }
  }

  // Two unchecked entries of one item without another in between cancel the transaction, and both are named.
  lemma ConflictCancels(sum: Sum, tables: Tables, items: Items, entries: seq<TransactItem>, i: nat, n: nat)
    requires n < |entries| <= 100 && LatestBefore(RulesOf(sum, tables), entries, n, i)
    requires !Checked(entries[i]) && !Checked(entries[n]) && After(RulesOf(sum, tables), items, entries, n).Ok?
    ensures var r := Transact(sum, tables, items, entries);
      r.Err? && Blames(r.error, |entries|, n, i, TransactionConflict)
  {
    hide *;
    var rules := RulesOf(sum, tables);
    var p := After(rules, items, entries, n).value;
    AfterSeen(rules, items, entries, n);
    LatestConflicts(rules, entries, n, i, p);
    AfterNext(rules, items, entries, n);
    AdvanceBlames(rules, entries, n, p);
    RefusalStays(rules, items, entries, n + 1, |entries|);
    TransactRefused(sum, tables, items, entries);
  }

  lemma TransactRefused(sum: Sum, tables: Tables, items: Items, entries: seq<TransactItem>)
    requires 0 < |entries| <= 100 && After(RulesOf(sum, tables), items, entries, |entries|).Err?
    ensures Transact(sum, tables, items, entries) == Err(After(RulesOf(sum, tables), items, entries, |entries|).error)
  {
    hide After;
  }

  lemma LatestConflicts(rules: Rules, entries: seq<TransactItem>, n: nat, i: nat, p: Progress)
    requires n < |entries| && SeenBelow(p, n) && SeenIsLatest(rules, entries, n, p.seen) && LatestBefore(rules, entries, n, i)
    requires !Checked(entries[i]) && !Checked(entries[n])
    ensures rules.target(entries[n]).Ok?
    ensures var mark := rules.mark(IdOf(rules, entries[n]));
      mark in p.seen && p.seen[mark] == i && Conflict(entries, n, mark, p.seen)
  {
    hide IdOf;
    var k := p.seen[rules.mark(IdOf(rules, entries[n]))];
    assert SameTarget(rules, entries, k, n);
  }

  // ---------- batches ----------

  ghost predicate WriteAims(tables: Tables, f: Flat<WriteRequest>, id: ItemId) {
    && id.table == f.table && TrimSpace(f.table) != "" && TrimSpace(f.table) in tables
    && var t := tables[TrimSpace(f.table)];
    if |f.request.put| > 0 then RecordKey(t, f.request.put) == Ok(id.key)
    else |f.request.deleteKey| > 0 && DocumentKey(t, f.request.deleteKey) == Ok(id.key)
  }

  // what a write leaves of its item: the document that it puts, or nothing
  function LeftBy(f: Flat<WriteRequest>): Option<Attributes> {
    if |f.request.put| > 0 then Some(f.request.put) else None
  }

  // A write is carried out exactly if it is about an item of a table that is there.
  lemma OneWrite(tables: Tables, items: Items, f: Flat<WriteRequest>)
    ensures var r := Wrote(tables, items, f);
      && (r.Ok? <==> exists id :: WriteAims(tables, f, id))
      && (r.Ok? ==> forall id :: Lookup(r.value, id) == if WriteAims(tables, f, id) then LeftBy(f) else Lookup(items, id))
  {
    hide TrimSpace, RecordKey, DocumentKey;
    if Wrote(tables, items, f).Ok? {
      var t := tables[TrimSpace(f.table)];
      assert WriteAims(tables, f, ItemId(f.table, WriteKey(t, f.request).value));
    }
  }

  // no write from the i-th on is about the item
  ghost predicate NoneFrom(tables: Tables, fs: seq<Flat<WriteRequest>>, i: int, id: ItemId) {
    forall j | 0 <= i <= j < |fs| :: !WriteAims(tables, fs[j], id)
  }

  // Of several writes of one item the last one stands; an item that no write is about is as before.
  lemma {:induction false} WritesLeave(tables: Tables, items: Items, fs: seq<Flat<WriteRequest>>)
    requires WriteAll(WriteRulesOf(tables), items, fs).Ok?
    ensures var r := WriteAll(WriteRulesOf(tables), items, fs).value;
      && (forall id | NoneFrom(tables, fs, 0, id) :: Lookup(r, id) == Lookup(items, id))
      && (forall i, id | 0 <= i < |fs| && WriteAims(tables, fs[i], id) && NoneFrom(tables, fs, i + 1, id) ::
            Lookup(r, id) == LeftBy(fs[i]))
    decreases |fs|
  {
    hide WriteAims, Lookup, Wrote;
    if |fs| > 0 {
      var next, rest := Wrote(tables, items, fs[0]).value, fs[1..];
      OneWrite(tables, items, fs[0]);
      WritesLeave(tables, next, rest);
      var r := WriteAll(WriteRulesOf(tables), items, fs).value;
      forall i, id ensures 0 <= i < |fs| && NoneFrom(tables, fs, i + 1, id) ==> NoneFrom(tables, rest, i, id) {
        assert forall j | 0 <= j < |rest| :: rest[j] == fs[j + 1];
      }
      forall id | NoneFrom(tables, fs, 0, id) ensures Lookup(r, id) == Lookup(items, id) {
        assert NoneFrom(tables, fs, 0 + 1, id) && !WriteAims(tables, fs[0], id);
      }
      forall i, id | 0 <= i < |fs| && WriteAims(tables, fs[i], id) && NoneFrom(tables, fs, i + 1, id)
        ensures Lookup(r, id) == LeftBy(fs[i])
      {
        if i > 0 {
          assert rest[i - 1] == fs[i] && NoneFrom(tables, rest, i - 1 + 1, id);
        }
      }
    }
  }

  // So it is with the writes of a batch that are carried out, the first 25 of them.
  lemma BatchLeaves(tables: Tables, items: Items, request: seq<TableWrites>)
    requires BatchWrite(tables, items, request).Ok?
    ensures var r, flat := BatchWrite(tables, items, request).value, Flatten(request);
      var done := if |flat| <= 25 then flat else flat[..25];
      && (forall id | NoneFrom(tables, done, 0, id) :: Lookup(r.items, id) == Lookup(items, id))
      && (forall i, id | 0 <= i < |done| && WriteAims(tables, done[i], id) && NoneFrom(tables, done, i + 1, id) ::
            Lookup(r.items, id) == LeftBy(done[i]))
      && Flatten(r.unprocessed) == flat[|done|..]
  {
    hide WriteAims, Lookup, Wrote, Flatten, NoneFrom, WriteAll;
    var flat := Flatten(request);
    WritesConserved(WriteRulesOf(tables), items, request);
    assert flat[..|flat|] == flat;
    WritesLeave(tables, items, flat[..Min(WRITE_LIMIT, |flat|)]);
  }

  ghost predicate ReadAims(tables: Tables, f: Flat<Attributes>, id: ItemId) {
    && id.table == f.table && TrimSpace(f.table) != "" && TrimSpace(f.table) in tables
    && DocumentKey(tables[TrimSpace(f.table)], f.request) == Ok(id.key)
  }

  lemma SingleRead(rules: ReadRules, f: Flat<Attributes>)
    requires rules.read(f).Ok?
    ensures ReadAll(rules, [f]) == Ok(if rules.read(f).value.Some? then [rules.read(f).value.value] else [])
  {
    assert [f][1..] == [];
    assert forall x: Item :: [x] + [] == [x];
  }

  // A lookup answers with the item of its key, if there is one.
  lemma OneRead(tables: Tables, items: Items, f: Flat<Attributes>, id: ItemId)
    requires ReadAims(tables, f, id)
    ensures Found(tables, items, f) == Ok(if id in items then Some(Item(id.table, id.key, items[id])) else None)
    ensures ReadAll(ReadRulesOf(tables, items), [f]) == Ok(if id in items then [Item(id.table, id.key, items[id])] else [])
  {
    hide TrimSpace, RecordKey, DocumentKey, ReadAll;
    SingleRead(ReadRulesOf(tables, items), f);
  }

  lemma ReadTarget(tables: Tables, items: Items, f: Flat<Attributes>) returns (id: ItemId)
    requires Found(tables, items, f).Ok?
    ensures ReadAims(tables, f, id)
    ensures forall other :: ReadAims(tables, f, other) ==> other == id
  {
    hide TrimSpace, RecordKey, DocumentKey;
    id := ItemId(f.table, DocumentKey(tables[TrimSpace(f.table)], f.request).value);
  }

  ghost predicate Looked(tables: Tables, items: Items, fs: seq<Flat<Attributes>>, x: Item) {
    exists i :: 0 <= i < |fs| && ReadAims(tables, fs[i], ItemIdOf(x)) && Lookup(items, ItemIdOf(x)) == Some(x.attributes)
  }

  // The answers are exactly the items that are there under the keys that are looked up.
  lemma {:induction false} ReadsFind(tables: Tables, items: Items, fs: seq<Flat<Attributes>>)
    requires ReadAll(ReadRulesOf(tables, items), fs).Ok?
    ensures forall x :: x in ReadAll(ReadRulesOf(tables, items), fs).value <==> Looked(tables, items, fs, x)
    decreases |fs|
  {
    hide ReadAims, Found;
    if |fs| > 0 {
      var rest := fs[1..];
      var id := ReadTarget(tables, items, fs[0]);
      OneRead(tables, items, fs[0], id);
      ReadsFind(tables, items, rest);
      forall x ensures Looked(tables, items, fs, x) <==>
        (ReadAims(tables, fs[0], ItemIdOf(x)) && Lookup(items, ItemIdOf(x)) == Some(x.attributes)) || Looked(tables, items, rest, x)
      {
        assert forall i | 0 <= i < |rest| :: rest[i] == fs[i + 1];
        if i :| 0 <= i < |fs| && ReadAims(tables, fs[i], ItemIdOf(x)) && Lookup(items, ItemIdOf(x)) == Some(x.attributes) {
          assert i > 0 ==> ReadAims(tables, rest[i - 1], ItemIdOf(x));
        }
      }
    }
  }

  lemma BatchFinds(tables: Tables, items: Items, request: seq<TableReads>)
    requires BatchGet(tables, items, request).Ok?
    ensures var r, flat := BatchGet(tables, items, request).value, Flatten(request);
      var done := if |flat| <= 100 then flat else flat[..100];
      && (forall x :: x in AllItems(r.responses) <==> Looked(tables, items, done, x))
      && Flatten(r.unprocessed) == flat[|done|..]
  {
    hide Looked, Found, Flatten, ReadAll;
    var flat := Flatten(request);
    ReadsConserved(ReadRulesOf(tables, items), request);
    assert flat[..|flat|] == flat;
    ReadsFind(tables, items, flat[..Min(GET_LIMIT, |flat|)]);
  }

  // ---------- tables ----------

  // A table is created with its trimmed names, the default key and billing mode where they are blank, and an activation
  // time 200 milliseconds ahead.
  lemma TableCreated(db: Database, name: string, partitionKey: string, sortKey: string, billingMode: string,
                     definition: Option<Definition>, now: nat)
    ensures var r, n := CreateTable(db, name, partitionKey, sortKey, billingMode, definition, now), TrimSpace(name);
      && (r == Err(TableNameRequired) <==> n == "")
      && (r == Err(TableExists) <==> n != "" && n in db.tables)
      && (r.Ok? <==> n != "" && n !in db.tables && definition.Some?)
      && (r.Ok? ==>
            && r.value.name == n && r.value.sortKey == TrimSpace(sortKey)
            && r.value.partitionKey == (if TrimSpace(partitionKey) != "" then TrimSpace(partitionKey) else "id")
            && r.value.billingMode == (if TrimSpace(billingMode) != "" then TrimSpace(billingMode) else "PAY_PER_REQUEST")
            && r.value.definitions == definition.value.definitions
            && r.value.globalIndexes == definition.value.globals && r.value.localIndexes == definition.value.locals
            && r.value.status == Creating && r.value.createdAt == now && r.value.activationAt == now + 200_000_000)
  {
    hide TrimSpace;
  }

  // A schema change adds to the definitions and to the global indexes of a table and changes nothing else about it.
  lemma SchemaChanged(db: Database, name: string, blank: bool, merge: Merge)
    ensures var r, n := UpdateTable(db, name, blank, merge), TrimSpace(name);
      && (r == Err(TableNameRequired) <==> n == "")
      && (r == Err(TableNotFound) <==> n != "" && (n !in db.tables || db.tables[n].status == Deleting))
      && (r == Err(InvalidDefinition) <==>
            n != "" && n in db.tables && db.tables[n].status != Deleting && !blank && merge(db.tables[n]).None?)
      && (r.Ok? ==> r.value == db.tables[n].(definitions := r.value.definitions, globalIndexes := r.value.globalIndexes))
      && (r.Ok? && blank ==> r.value == db.tables[n])
      && (r.Ok? && !blank ==>
            merge(db.tables[n]).Some? && r.value.definitions == merge(db.tables[n]).value.definitions
            && r.value.globalIndexes == merge(db.tables[n]).value.globals)
  {
    hide TrimSpace;
  }
}
