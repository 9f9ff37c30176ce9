/** Well-formed documents over runs: exactly which requests store a document that a restart does not bring back. */
module DynamoDocuments {
  import opened Wrappers
  import opened Strings
  import opened DynamoValues
  import opened DynamoModel
  import opened DynamoTransactions
  import opened DynamoBatch
  import opened DynamoRequests
  import opened DynamoRuns

  ghost predicate DocumentsWell(items: Items) {
    forall id | id in items :: WellFormedDocument(items[id])
  }

  lemma WriteWellIff(items: Items, id: ItemId, attributes: Attributes)
    requires DocumentsWell(items)
    ensures DocumentsWell(items[id := attributes]) <==> WellFormedDocument(attributes)
  {
    hide WellFormedDocument;
    assert items[id := attributes][id] == attributes;
  }

  // ---------- updates ----------

  predicate Mentions(operations: seq<Operation>, name: string) {
    exists i :: 0 <= i < |operations| && operations[i].path == name
  }

  // every value that is set, and not overwritten or removed by a later operation, is well-formed
  predicate SetsWell(operations: seq<Operation>)
    decreases |operations|
  {
    |operations| > 0 ==>
      && (operations[0].Set? && !Mentions(operations[1..], operations[0].path) ==> WellFormed(operations[0].value))
      && SetsWell(operations[1..])
  }

  ghost predicate RestWell(attributes: Attributes, operations: seq<Operation>) {
    forall name | name in attributes && !Mentions(operations, name) :: WellFormed(attributes[name])
  }

  lemma MentionsFirst(operations: seq<Operation>, name: string)
    requires |operations| > 0
    ensures Mentions(operations, name) <==> operations[0].path == name || Mentions(operations[1..], name)
  {
    if i :| 0 <= i < |operations| && operations[i].path == name {
      assert i > 0 ==> operations[1..][i - 1].path == name;
    }
    if i :| 0 <= i < |operations| - 1 && operations[1..][i].path == name {
      assert operations[i + 1].path == name;
    }
  }

  // An updated document is well-formed exactly if what the update sets is, and what it does not name was.
  lemma {:induction false} UpdatedWellIff(sum: Sum, t: Table, operations: seq<Operation>, attributes: Attributes)
    requires Updated(sum, t, operations, attributes).Ok?
    ensures WellFormedDocument(Updated(sum, t, operations, attributes).value)
      <==> SetsWell(operations) && RestWell(attributes, operations)
    decreases |operations|
  {
    if |operations| > 0 {
      var operation, more := operations[0], operations[1..];
      var next := Operated(sum, t, operation, attributes).value;
      UpdatedWellIff(sum, t, more, next);
      OperatedWell(sum, t, operations, attributes);
    }
  }

  lemma OperatedWell(sum: Sum, t: Table, operations: seq<Operation>, attributes: Attributes)
    requires |operations| > 0 && Operated(sum, t, operations[0], attributes).Ok?
    ensures RestWell(Operated(sum, t, operations[0], attributes).value, operations[1..])
      <==> RestWell(attributes, operations)
           && (operations[0].Set? && !Mentions(operations[1..], operations[0].path) ==> WellFormed(operations[0].value))
  {
    var operation, more, next := operations[0], operations[1..], Operated(sum, t, operations[0], attributes).value;
    OperatedShape(sum, t, operation, attributes);
    hide WellFormed, Operated, Mentions;
    forall name ensures Mentions(operations, name) <==> operation.path == name || Mentions(more, name) {
      MentionsFirst(operations, name);
    }
  }

  lemma OperatedShape(sum: Sum, t: Table, operation: Operation, attributes: Attributes)
    requires Operated(sum, t, operation, attributes).Ok?
    ensures var next := Operated(sum, t, operation, attributes).value;
      && (forall name | name != operation.path ::
            (name in next <==> name in attributes) && (name in next ==> next[name] == attributes[name]))
      && (operation.Set? ==> operation.path in next && next[operation.path] == operation.value)
      && (!operation.Set? && operation.path in next ==> WellFormed(next[operation.path]))
  {
  }

  // ---------- batches ----------

  function WriteTarget(tables: Tables, f: Flat<WriteRequest>): Result<ItemId, Error> {
    match FindTable(tables, f.table)
    case Err(e) => Err(e)
    case Ok(t) =>
      match WriteKey(t, f.request)
      case Err(e) => Err(e)
      case Ok(key) => Ok(ItemId(f.table, key))
  }

  predicate Targeted(tables: Tables, fs: seq<Flat<WriteRequest>>, id: ItemId) {
    exists i :: 0 <= i < |fs| && WriteTarget(tables, fs[i]) == Ok(id)
  }

  // the first write is a put that no later write of the batch undoes
  predicate Lasting(tables: Tables, fs: seq<Flat<WriteRequest>>)
    requires |fs| > 0
  {
    |fs[0].request.put| > 0 && WriteTarget(tables, fs[0]).Ok? && !Targeted(tables, fs[1..], WriteTarget(tables, fs[0]).value)
  }

  // every put that no later write of the batch undoes is well-formed
  predicate PutsWell(tables: Tables, fs: seq<Flat<WriteRequest>>)
    decreases |fs|
  {
    |fs| > 0 ==>
      && (Lasting(tables, fs) ==> WellFormedDocument(fs[0].request.put))
      && PutsWell(tables, fs[1..])
  }

  ghost predicate OthersWell(tables: Tables, items: Items, fs: seq<Flat<WriteRequest>>) {
    forall id | id in items && !Targeted(tables, fs, id) :: WellFormedDocument(items[id])
  }

  lemma TargetedFirst(tables: Tables, fs: seq<Flat<WriteRequest>>, id: ItemId)
    requires |fs| > 0
    ensures Targeted(tables, fs, id) <==> WriteTarget(tables, fs[0]) == Ok(id) || Targeted(tables, fs[1..], id)
  {
    hide WriteTarget;
    if i :| 0 <= i < |fs| && WriteTarget(tables, fs[i]) == Ok(id) {
      assert i > 0 ==> fs[1..][i - 1] == fs[i];
    }
    if i :| 0 <= i < |fs| - 1 && WriteTarget(tables, fs[1..][i]) == Ok(id) {
      assert fs[i + 1] == fs[1..][i];
    }
  }

  lemma {:induction false} WritesWellIff(tables: Tables, items: Items, fs: seq<Flat<WriteRequest>>)
    requires WriteAll(WriteRulesOf(tables), items, fs).Ok?
    ensures DocumentsWell(WriteAll(WriteRulesOf(tables), items, fs).value) <==> PutsWell(tables, fs) && OthersWell(tables, items, fs)
    decreases |fs|
  {
    hide WellFormedDocument, FindTable, WriteKey;
    if |fs| > 0 {
      var next := Wrote(tables, items, fs[0]).value;
      assert WriteRulesOf(tables).write(items, fs[0]) == Wrote(tables, items, fs[0]);
      WritesWellIff(tables, next, fs[1..]);
      OneWriteWell(tables, items, fs);
    }
  }

  lemma OneWriteWell(tables: Tables, items: Items, fs: seq<Flat<WriteRequest>>)
    requires |fs| > 0 && Wrote(tables, items, fs[0]).Ok?
    ensures WriteTarget(tables, fs[0]).Ok?
    ensures OthersWell(tables, Wrote(tables, items, fs[0]).value, fs[1..])
      <==> OthersWell(tables, items, fs) && (Lasting(tables, fs) ==> WellFormedDocument(fs[0].request.put))
  {
    hide WellFormedDocument, WriteTarget, Wrote, Targeted;
    WroteIs(tables, items, fs[0]);
    var id, next := WriteTarget(tables, fs[0]).value, Wrote(tables, items, fs[0]).value;
    forall x ensures Targeted(tables, fs, x) <==> x == id || Targeted(tables, fs[1..], x) {
      TargetedFirst(tables, fs, x);
    }
    if |fs[0].request.put| > 0 && Targeted(tables, fs[1..], id) {
      forall x | x in next && !Targeted(tables, fs[1..], x) ensures x in items && next[x] == items[x] && !Targeted(tables, fs, x) {
      }
    }
  }

  lemma WroteIs(tables: Tables, items: Items, f: Flat<WriteRequest>)
    requires Wrote(tables, items, f).Ok?
    ensures WriteTarget(tables, f).Ok?
    ensures Wrote(tables, items, f).value ==
      if |f.request.put| > 0 then items[WriteTarget(tables, f).value := f.request.put] else items - {WriteTarget(tables, f).value}
  {
    hide FindTable, WriteKey;
  }

  // the writes of a batch that are carried out
  function Carried(request: seq<TableWrites>): seq<Flat<WriteRequest>> {
    Flatten(request)[..Min(WRITE_LIMIT, |Flatten(request)|)]
  }

  lemma BatchWellIff(tables: Tables, items: Items, request: seq<TableWrites>)
    requires DocumentsWell(items) && BatchWrite(tables, items, request).Ok?
    ensures DocumentsWell(BatchWrite(tables, items, request).value.items) <==> PutsWell(tables, Carried(request))
  {
    WritesConserved(WriteRulesOf(tables), items, request);
    WritesWellIff(tables, items, Carried(request));
    hide WellFormedDocument, PutsWell, WriteAll, Targeted;
  }

  // ---------- transactions ----------

  // what the entry writes itself is well-formed
  predicate EntryWell(e: TransactItem) {
    if |e.put| > 0 then WellFormedDocument(e.put)
    else |e.updateKey| > 0 && e.update.Some? ==> SetsWell(e.update.value)
  }

  // An entry that is carried out on a well-formed document, or on none, leaves one exactly if it is well itself.
  lemma EffectWellIff(sum: Sum, t: Table, e: TransactItem, found: Option<Attributes>)
    requires EffectOf(sum, t, e, found).Ok? && (found.Some? ==> WellFormedDocument(found.value))
    ensures var left := DynamoTransactions.Outcome(found, EffectOf(sum, t, e, found).value);
      (left.Some? ==> WellFormedDocument(left.value)) <==> EntryWell(e)
  {
    hide SetsWell, Updated, Meets;
    if |e.put| == 0 && |e.updateKey| > 0 {
      UpdatedWellIff(sum, t, e.update.value, Current(found));
      RestOfWell(Current(found), e.update.value);
    }
  }

  lemma RestOfWell(attributes: Attributes, operations: seq<Operation>)
    requires WellFormedDocument(attributes)
    ensures RestWell(attributes, operations)
  {
  }

  lemma PossibleWellIff(sum: Sum, tables: Tables, items: Items, e: TransactItem)
    requires DocumentsWell(items) && Possible(RulesOf(sum, tables), items, e)
    ensures var left := Left(RulesOf(sum, tables), items, e);
      (left.Some? ==> WellFormedDocument(left.value)) <==> EntryWell(e)
  {
    hide WellFormedDocument, EntryWell, EffectOf, EntryKey;
    var target := TargetOf(tables, e).value;
    EffectWellIff(sum, target.table, e, Lookup(items, target.id));
  }

  // Whatever the entries, they leave well-formed documents if each is well itself,
  lemma {:induction false} EntriesWell(sum: Sum, tables: Tables, items: Items, entries: seq<TransactItem>, n: nat)
    requires DocumentsWell(items) && n <= |entries| && After(RulesOf(sum, tables), items, entries, n).Ok?
    requires forall i | 0 <= i < |entries| :: EntryWell(entries[i])
    ensures DocumentsWell(After(RulesOf(sum, tables), items, entries, n).value.items)
  {
    hide DocumentsWell, EntryWell, RulesOf, Advance;
    if n > 0 {
      EntriesWell(sum, tables, items, entries, n - 1);
      AdvanceWell(sum, tables, entries, n - 1, After(RulesOf(sum, tables), items, entries, n - 1).value);
    }
  }

  lemma AdvanceWell(sum: Sum, tables: Tables, entries: seq<TransactItem>, n: nat, p: Progress)
    requires n < |entries| && SeenBelow(p, n) && DocumentsWell(p.items) && EntryWell(entries[n])
    requires Advance(RulesOf(sum, tables), entries, n, p).Ok?
    ensures DocumentsWell(Advance(RulesOf(sum, tables), entries, n, p).value.items)
  {
    hide WellFormedDocument, EntryWell, EffectOf, EntryKey, Reasons, Mark;
    PossibleWellIff(sum, tables, p.items, entries[n]);
  }

  // and exactly then if no target is met twice.
  lemma TransactionWellIff(sum: Sum, tables: Tables, items: Items, entries: seq<TransactItem>)
    requires DocumentsWell(items) && Transact(sum, tables, items, entries).Ok?
    requires (forall i | 0 <= i < |entries| :: !Checked(entries[i])) || DistinctTargets(RulesOf(sum, tables), entries)
    ensures DocumentsWell(Transact(sum, tables, items, entries).value) <==> forall i | 0 <= i < |entries| :: EntryWell(entries[i])
  {
    var rules, result := RulesOf(sum, tables), Transact(sum, tables, items, entries).value;
    hide WellFormedDocument, EntryWell, EffectOf, EntryKey, After, Mark;
    if !DistinctTargets(rules, entries) {
      UncheckedTransaction(rules, items, entries);
    }
    DistinctTransaction(rules, items, entries);
    forall i | 0 <= i < |entries|
      ensures Lookup(result, IdOf(rules, entries[i])) == Left(rules, items, entries[i])
      ensures (Left(rules, items, entries[i]).Some? ==> WellFormedDocument(Left(rules, items, entries[i]).value)) <==> EntryWell(entries[i])
    {
      PossibleWellIff(sum, tables, items, entries[i]);
    }
    AllWellIff(rules, items, entries, result);
  }

  lemma AllWellIff(rules: Rules, start: Items, entries: seq<TransactItem>, result: Items)
    requires DocumentsWell(start) && AllPossible(rules, start, entries) && AllAtOnce(rules, start, entries, result)
    requires forall i | 0 <= i < |entries| ::
      (Left(rules, start, entries[i]).Some? ==> WellFormedDocument(Left(rules, start, entries[i]).value)) <==> EntryWell(entries[i])
    ensures DocumentsWell(result) <==> forall i | 0 <= i < |entries| :: EntryWell(entries[i])
  {
    hide WellFormedDocument, EntryWell;
    if DocumentsWell(result) {
      forall i | 0 <= i < |entries| ensures EntryWell(entries[i]) {
        assert Lookup(result, IdOf(rules, entries[i])) == Left(rules, start, entries[i]);
      }
    }
    if forall i | 0 <= i < |entries| :: EntryWell(entries[i]) {
      forall id | id in result ensures WellFormedDocument(result[id]) {
        if Untouched(rules, entries, id) {
          assert Lookup(result, id) == Lookup(start, id);
        } else {
          var i :| 0 <= i < |entries| && rules.target(entries[i]).Ok? && IdOf(rules, entries[i]) == id;
          assert Lookup(result, id) == Left(rules, start, entries[i]);
        }
      }
    }
  }

  // ---------- requests and runs ----------

  // what a request writes, as far as it stays, is well-formed
  predicate WritesWell(db: Database, op: Op) {
    match op
    case OpPutItem(_, _, attributes) => WellFormedDocument(attributes)
    case OpUpdateItem(_, _, _, update) => update.Some? ==> SetsWell(update.value)
    case OpBatchWrite(request) => PutsWell(db.tables, Carried(request))
    case OpTransact(entries) => forall i | 0 <= i < |entries| :: EntryWell(entries[i])
    case _ => true
  }

  // a transaction that meets no target twice, or any other request
  ghost predicate MeetsOnce(sum: Sum, db: Database, op: Op) {
    op.OpTransact? ==>
      (forall i | 0 <= i < |op.entries| :: !Checked(op.entries[i])) || DistinctTargets(RulesOf(sum, db.tables), op.entries)
  }

  lemma UpdateWellIff(sum: Sum, db: Database, table: string, key: string, condition: Condition, update: Option<seq<Operation>>)
    requires DocumentsWell(db.items) && UpdateItem(sum, db, table, key, condition, update).Ok?
    ensures update.Some?
    ensures DocumentsWell(UpdateItem(sum, db, table, key, condition, update).value) <==> SetsWell(update.value)
  {
    var id := CheckedId(db.tables, table, key).value;
    var before := Current(Lookup(db.items, id));
    hide TrimSpace, SetsWell, Updated, Meets, WellFormed;
    UpdatedWellIff(sum, db.tables[id.table], update.value, before);
    RestOfWell(before, update.value);
    WriteWellIff(db.items, id, Updated(sum, db.tables[id.table], update.value, before).value);
  }

  // A request that goes through keeps the documents well-formed if what it writes is, and, for all but transactions that
  // meet a target twice, only then.
  lemma NextWellIff(sum: Sum, db: Database, op: Op)
    requires DocumentsWell(db.items) && NextItems(sum, db, op).Ok?
    ensures WritesWell(db, op) ==> DocumentsWell(NextItems(sum, db, op).value)
    ensures MeetsOnce(sum, db, op) ==> (DocumentsWell(NextItems(sum, db, op).value) <==> WritesWell(db, op))
  {
    hide WellFormedDocument, SetsWell, PutsWell, EntryWell, UpdateItem, BatchWrite, Carried, After, EffectOf, TrimSpace;
    match op
    case OpPutItem(table, key, attributes) => WriteWellIff(db.items, CheckedId(db.tables, table, key).value, attributes);
    case OpUpdateItem(table, key, condition, update) =>
      UpdateWellIff(sum, db, table, key, condition, update);
    case OpBatchWrite(request) => BatchWellIff(db.tables, db.items, request);
    case OpTransact(entries) =>
      if WritesWell(db, op) {
        EntriesWell(sum, db.tables, db.items, entries, |entries|);
      }
      if MeetsOnce(sum, db, op) {
        TransactionWellIff(sum, db.tables, db.items, entries);
      }
    case _ =>
  }

  // every request that goes through writes well-formed documents only
  ghost predicate AllWriteWell(sum: Sum, db: Database, requests: seq<Request>)
    decreases |requests|
  {
    |requests| > 0 ==>
      && (NextItems(sum, db, requests[0].op).Ok? && requests[0].env.first ==> WritesWell(db, requests[0].op))
      && AllWriteWell(sum, Step(sum, db, requests[0].op, requests[0].env), requests[1..])
  }

  lemma StepWellIff(sum: Sum, db: Database, op: Op, env: Env)
    requires DocumentsWell(db.items)
    ensures (NextItems(sum, db, op).Ok? && env.first ==> WritesWell(db, op)) ==> DocumentsWell(Step(sum, db, op, env).items)
    ensures MeetsOnce(sum, db, op) ==>
      (DocumentsWell(Step(sum, db, op, env).items) <==> (NextItems(sum, db, op).Ok? && env.first ==> WritesWell(db, op)))
  {
    hide NextItems, NextTables, WritesWell, MeetsOnce, DocumentsWell;
    if NextItems(sum, db, op).Ok? {
      NextWellIff(sum, db, op);
    }
  }

  // Over every run of such requests all documents are well-formed.
  lemma {:induction false} RunWritesWell(sum: Sum, db: Database, requests: seq<Request>)
    requires DocumentsWell(db.items) && AllWriteWell(sum, db, requests)
    ensures DocumentsWell(Run(sum, db, requests).items)
    decreases |requests|
  {
    hide DocumentsWell, Step, NextItems, WritesWell;
    if |requests| > 0 {
      StepWellIff(sum, db, requests[0].op, requests[0].env);
      RunWritesWell(sum, Step(sum, db, requests[0].op, requests[0].env), requests[1..]);
    }
  }

  // where runs begin, they are
  lemma BeginningsWell(created: nat)
    ensures DocumentsWell(NO_TABLES.items) && DocumentsWell(Bootstrap(created).items)
  {
  }
}
