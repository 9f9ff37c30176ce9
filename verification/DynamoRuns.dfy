/** Runs of DynamoDB requests: items stay under their record keys, and tables only move forward. */
module DynamoRuns {
  import opened Wrappers
  import opened Strings
  import opened DynamoValues
  import opened DynamoModel
  import opened DynamoTransactions
  import opened DynamoBatch
  import opened DynamoRequests

  datatype Op =
    | OpPutItem(table: string, key: string, attributes: Attributes)
    | OpDeleteItem(table: string, key: string)
    | OpUpdateItem(table: string, key: string, condition: Condition, update: Option<seq<Operation>>)
    | OpBatchWrite(request: seq<TableWrites>)
    | OpTransact(entries: seq<TransactItem>)
    | OpCreateTable(name: string, partitionKey: string, sortKey: string, billingMode: string, definition: Option<Definition>)
    | OpUpdateTable(name: string, blank: bool, merge: Merge)
    | OpDescribeTable(name: string)
    | OpDeleteTable(name: string)

  // now: the clock; first, second: whether the repository accepts the first and the second state it is given
  datatype Env = Env(now: nat, first: bool, second: bool)

  // The items after a request that goes through.
  function NextItems(sum: Sum, db: Database, op: Op): Result<Items, Error> {
    match op
    case OpPutItem(table, key, attributes) => PutItem(db, table, key, attributes)
    case OpDeleteItem(table, key) => DeleteItem(db, table, key)
    case OpUpdateItem(table, key, condition, update) => UpdateItem(sum, db, table, key, condition, update)
    case OpBatchWrite(request) =>
      (match BatchWrite(db.tables, db.items, request)
       case Err(e) => Err(e)
       case Ok(r) => Ok(r.items))
    case OpTransact(entries) =>
      (match Transact(sum, db.tables, db.items, entries)
       case Err(Invalid(e)) => Err(e)
       case Err(Cancelled(_)) => Err(ConditionFailed)
       case Ok(items) => Ok(items))
    case _ => Ok(db.items)
  }

  // Activation is saved first, the deletion second: when only the second is refused, the activation stays.
  function DeletedTables(tables: Tables, name: string, env: Env): Tables {
    var n := TrimSpace(name);
    var due := n in tables && Due(tables[n], env.now);
    if n == "" || (due && !env.first) then tables
    else
      var active := Materialized(tables, n, env.now);
      var accepted := if due then env.second else env.first;
      if n in active && active[n].status != Deleting && accepted then active[n := Deleted(active[n], env.now)] else active
  }

  // A table that is being created without an activation time is activated by the second look at it.
  function DescribedTables(tables: Tables, name: string, env: Env): Tables {
    var n := TrimSpace(name);
    if n == "" || n !in tables then tables
    else if Due(tables[n], env.now) then if env.first then tables[n := Activated(tables[n])] else tables
    else if tables[n].status == Creating && env.now >= tables[n].activationAt && env.first then tables[n := Activated(tables[n])]
    else tables
  }

  // A look at a table that is being created activates it exactly if its activation time has come, and changes nothing else.
  lemma DescribeLeaves(tables: Tables, name: string, env: Env)
    requires env.first && TrimSpace(name) != "" && TrimSpace(name) in tables
    ensures var after, n := DescribedTables(tables, name, env), TrimSpace(name);
      && n in after && after - {n} == tables - {n}
      && (if tables[n].status == Creating && tables[n].activationAt <= env.now
          then after[n] == tables[n].(status := Active, activationAt := 0) else after[n] == tables[n])
  {
    hide TrimSpace;
  }

  // A deletion leaves the table as one that is being deleted since then, and one that is being deleted already as it is.
  // Where only the first of its saves is accepted, it activates a table whose activation time has come, and stops there.
  lemma DeletionLeaves(tables: Tables, name: string, env: Env)
    requires env.first && TrimSpace(name) != "" && TrimSpace(name) in tables
    ensures var after, n := DeletedTables(tables, name, env), TrimSpace(name);
      var t := tables[n];
      var due := t.status == Creating && 0 < t.activationAt <= env.now;
      && n in after && after - {n} == tables - {n}
      && (t.status == Deleting ==> after[n] == t)
      && (t.status != Deleting && due && !env.second ==> after[n] == t.(status := Active, activationAt := 0))
      && (t.status != Deleting && (due ==> env.second) ==>
            after[n] == t.(status := Deleting, activationAt := 0, deletedAt := env.now))
  {
    hide TrimSpace;
  }

  function NextTables(db: Database, op: Op, env: Env): Tables {
    match op
    case OpCreateTable(name, partitionKey, sortKey, billingMode, definition) =>
      (match CreateTable(db, name, partitionKey, sortKey, billingMode, definition, env.now)
       case Err(_) => db.tables
       case Ok(t) => if env.first then db.tables[t.name := t] else db.tables)
    case OpUpdateTable(name, blank, merge) =>
      (match UpdateTable(db, name, blank, merge)
       case Err(_) => db.tables
       case Ok(t) => if env.first then db.tables[TrimSpace(name) := t] else db.tables)
    case OpDescribeTable(name) => DescribedTables(db.tables, name, env)
    case OpDeleteTable(name) => DeletedTables(db.tables, name, env)
    case _ => db.tables
  }

  // A request that fails, or that the repository refuses, leaves the items as they were.
  function Step(sum: Sum, db: Database, op: Op, env: Env): Database {
    var items := NextItems(sum, db, op);
    Database(NextTables(db, op, env), if items.Ok? && env.first then items.value else db.items)
  }

  datatype Request = Request(op: Op, env: Env)

  function Run(sum: Sum, db: Database, requests: seq<Request>): Database
    decreases |requests|
  {
    if |requests| == 0 then db else Run(sum, Step(sum, db, requests[0].op, requests[0].env), requests[1..])
  }

  // ---------- tables only move forward ----------

  function Rank(s: TableStatus): nat {
    match s case Creating => 0 case Active => 1 case Deleting => 2
  }

  // the same table with the same keys, in the same or a later state
  predicate Later(a: Table, b: Table) {
    && b == a.(definitions := b.definitions, globalIndexes := b.globalIndexes,
               status := b.status, activationAt := b.activationAt, deletedAt := b.deletedAt)
    && Rank(a.status) <= Rank(b.status)
  }

  ghost predicate TablesLater(a: Tables, b: Tables) {
    forall name | name in a :: name in b && Later(a[name], b[name])
  }

  lemma StepMovesForward(sum: Sum, db: Database, op: Op, env: Env)
    ensures TablesLater(db.tables, Step(sum, db, op, env).tables)
  {
  }

  lemma {:induction false} RunMovesForward(sum: Sum, db: Database, requests: seq<Request>)
    ensures TablesLater(db.tables, Run(sum, db, requests).tables)
    decreases |requests|
  {
    if |requests| > 0 {
      var next := Step(sum, db, requests[0].op, requests[0].env);
      StepMovesForward(sum, db, requests[0].op, requests[0].env);
      RunMovesForward(sum, next, requests[1..]);
      var last := Run(sum, next, requests[1..]).tables;
      forall name | name in db.tables ensures name in last && Later(db.tables[name], last[name]) {
        assert Later(db.tables[name], next.tables[name]);
      }
    }
  }

  // A table is active only after its delay.
  ghost predicate Timely(tables: Tables, now: nat) {
    forall name | name in tables ::
      && (tables[name].status == Creating ==> tables[name].activationAt == tables[name].createdAt + ACTIVATION_DELAY)
      && (tables[name].status == Active ==> tables[name].createdAt + ACTIVATION_DELAY <= now)
  }

  lemma StepTimely(sum: Sum, db: Database, op: Op, env: Env, before: nat)
    requires Timely(db.tables, before) && before <= env.now
    ensures Timely(Step(sum, db, op, env).tables, env.now)
  {
    hide TrimSpace;
  }

  ghost predicate ClockRises(requests: seq<Request>, start: nat) {
    && (forall i | 0 <= i < |requests| :: start <= requests[i].env.now)
    && (forall i, j | 0 <= i < j < |requests| :: requests[i].env.now <= requests[j].env.now)
  }

  // While the clock does not go back, no table is active before its delay is over, in any run.
  lemma {:induction false} RunTimely(sum: Sum, db: Database, requests: seq<Request>, start: nat)
    requires Timely(db.tables, start) && ClockRises(requests, start)
    ensures Timely(Run(sum, db, requests).tables, if |requests| == 0 then start else requests[|requests| - 1].env.now)
    decreases |requests|
  {
    hide Timely, Step;
    if |requests| > 0 {
      var now, more := requests[0].env.now, requests[1..];
      assert forall i | 0 <= i < |more| :: more[i] == requests[i + 1];
      StepTimely(sum, db, requests[0].op, requests[0].env, start);
      RunTimely(sum, Step(sum, db, requests[0].op, requests[0].env), more, now);
    }
  }

  // ---------- every item has its table ----------

  ghost predicate Placed(tables: Tables, items: Items) {
    forall id | id in items :: id.table in tables
  }

  lemma {:induction false} WritesPlaced(tables: Tables, items: Items, fs: seq<Flat<WriteRequest>>)
    requires Placed(tables, items) && TrimmedTables(fs) && WriteAll(WriteRulesOf(tables), items, fs).Ok?
    ensures Placed(tables, WriteAll(WriteRulesOf(tables), items, fs).value)
    decreases |fs|
  {
    if |fs| > 0 {
      hide WriteKey;
      WritesPlaced(tables, WriteRulesOf(tables).write(items, fs[0]).value, fs[1..]);
    }
  }

  lemma BatchPlaced(tables: Tables, items: Items, request: seq<TableWrites>)
    requires Placed(tables, items) && BatchWrite(tables, items, request).Ok?
    ensures Placed(tables, BatchWrite(tables, items, request).value.items)
  {
    hide WriteAll, Rest;
    var flat := Flatten(request);
    WritesConserved(WriteRulesOf(tables), items, request);
    FlattenTrims(request);
    WritesPlaced(tables, items, flat[..Min(WRITE_LIMIT, |flat|)]);
  }

  lemma {:induction false} EntriesPlaced(rules: Rules, tables: Tables, items: Items, entries: seq<TransactItem>, n: nat)
    requires Placed(tables, items) && n <= |entries| && After(rules, items, entries, n).Ok?
    requires forall e: TransactItem :: rules.target(e).Ok? ==> rules.target(e).value.table in tables
    ensures Placed(tables, After(rules, items, entries, n).value.items)
  {
    if n > 0 {
      hide Reasons;
      EntriesPlaced(rules, tables, items, entries, n - 1);
      assert rules.target(entries[n - 1]).Ok?;
    }
  }

  lemma TransactionPlaced(sum: Sum, tables: Tables, items: Items, entries: seq<TransactItem>)
    requires Placed(tables, items) && Transact(sum, tables, items, entries).Ok?
    ensures Placed(tables, Transact(sum, tables, items, entries).value)
  {
    hide EffectOf, EntryKey, Mark, After;
    var rules := RulesOf(sum, tables);
    forall e: TransactItem | rules.target(e).Ok? ensures rules.target(e).value.table in tables {
      assert rules.target(e) == EntryTarget(tables, e);
    }
    EntriesPlaced(rules, tables, items, entries, |entries|);
  }

  lemma StepPlaced(sum: Sum, db: Database, op: Op, env: Env)
    requires Placed(db.tables, db.items)
    ensures Placed(Step(sum, db, op, env).tables, Step(sum, db, op, env).items)
  {
    StepMovesForward(sum, db, op, env);
    if NextItems(sum, db, op).Ok? {
      match op
      case OpBatchWrite(request) => BatchPlaced(db.tables, db.items, request);
      case OpTransact(entries) => TransactionPlaced(sum, db.tables, db.items, entries);
      case _ =>
    }
  }

  // Over every run each item has its table.
  lemma {:induction false} RunPlaced(sum: Sum, db: Database, requests: seq<Request>)
    requires Placed(db.tables, db.items)
    ensures Placed(Run(sum, db, requests).tables, Run(sum, db, requests).items)
    decreases |requests|
  {
    if |requests| > 0 {
      StepPlaced(sum, db, requests[0].op, requests[0].env);
      RunPlaced(sum, Step(sum, db, requests[0].op, requests[0].env), requests[1..]);
    }
  }

  // ---------- items stay under their record keys ----------

  // What a request must satisfy, before it is made, to keep every item under its record key.
  ghost predicate KeepsKeys(sum: Sum, db: Database, op: Op) {
    match op
    case OpPutItem(table, key, attributes) =>
      TrimSpace(table) in db.tables ==> RecordKey(db.tables[TrimSpace(table)], attributes) == Ok(TrimSpace(key))
    case OpUpdateItem(table, key, _, _) => ItemId(TrimSpace(table), TrimSpace(key)) in db.items
    case OpTransact(entries) =>
      && ((forall i | 0 <= i < |entries| :: !Checked(entries[i])) || DistinctTargets(RulesOf(sum, db.tables), entries))
      && UpdatesExist(db.tables, db.items, entries)
    case _ => true
  }

  lemma NextKeepsKeys(sum: Sum, db: Database, op: Op)
    requires KeysHold(db.tables, db.items) && KeepsKeys(sum, db, op) && NextItems(sum, db, op).Ok?
    ensures KeysHold(db.tables, NextItems(sum, db, op).value)
  {
    match op
    case OpPutItem(table, key, attributes) => PutKeepsKeysIff(db, table, key, attributes);
    case OpDeleteItem(table, key) =>
    case OpUpdateItem(table, key, condition, update) => UpdateKeepsKeysIff(sum, db, table, key, condition, update);
    case OpBatchWrite(request) => BatchKeepsKeys(db.tables, db.items, request);
    case OpTransact(entries) => TransactionKeepsKeysIff(sum, db.tables, db.items, entries);
    case _ =>
  }

  lemma TablesKeepKeys(a: Tables, b: Tables, items: Items)
    requires KeysHold(a, items) && TablesLater(a, b)
    ensures KeysHold(b, items)
  {
    forall id | id in items ensures StoredUnder(b, id, items[id]) {
      assert StoredUnder(a, id, items[id]);
      assert Later(a[id.table], b[id.table]);
    }
  }

  lemma StepKeepsKeys(sum: Sum, db: Database, op: Op, env: Env)
    requires KeysHold(db.tables, db.items) && KeepsKeys(sum, db, op)
    ensures KeysHold(Step(sum, db, op, env).tables, Step(sum, db, op, env).items)
  {
    var next := Step(sum, db, op, env);
    if NextItems(sum, db, op).Ok? {
      NextKeepsKeys(sum, db, op);
    }
    StepMovesForward(sum, db, op, env);
    TablesKeepKeys(db.tables, next.tables, next.items);
  }

  // every request of the run satisfies its condition when it is made
  ghost predicate AllKeepKeys(sum: Sum, db: Database, requests: seq<Request>)
    decreases |requests|
  {
    |requests| == 0 ||
    (KeepsKeys(sum, db, requests[0].op)
     && AllKeepKeys(sum, Step(sum, db, requests[0].op, requests[0].env), requests[1..]))
  }

  lemma {:induction false} RunKeepsKeys(sum: Sum, db: Database, requests: seq<Request>)
    requires KeysHold(db.tables, db.items) && AllKeepKeys(sum, db, requests)
    ensures KeysHold(Run(sum, db, requests).tables, Run(sum, db, requests).items)
    decreases |requests|
  {
    if |requests| > 0 {
      StepKeepsKeys(sum, db, requests[0].op, requests[0].env);
      RunKeepsKeys(sum, Step(sum, db, requests[0].op, requests[0].env), requests[1..]);
    }
  }

  // ---------- where runs begin ----------

  const NO_TABLES := Database(map[], map[])

  // NewState: one table with both keys and one item that is stored under its partition key alone
  function Bootstrap(created: nat): Database {
    var t := Table("mildstack-records", "id", "version", DEFAULT_BILLING, [], [], [], Active, created, 0, 0);
    Database(map[t.name := t],
             map[ItemId(t.name, "example#1") := map["id" := StringValue("example#1"), "version" := NumberValue("1"),
                                                    "title" := StringValue("bootstrap item")]])
  }

  // A service begins with tables that are in time.
  lemma BeginningTimely(created: nat, start: nat)
    requires created + ACTIVATION_DELAY <= start
    ensures Timely(NO_TABLES.tables, start) && Timely(Bootstrap(created).tables, start)
  {
  }

  // A run from no tables keeps every item under its record key; the bootstrap item is not under its record key.
  lemma BeginningKeys(created: nat)
    ensures KeysHold(NO_TABLES.tables, NO_TABLES.items)
    ensures !KeysHold(Bootstrap(created).tables, Bootstrap(created).items)
  {
    var db := Bootstrap(created);
    var t, id := db.tables["mildstack-records"], ItemId("mildstack-records", "example#1");
    var attributes := db.items[id];
    assert id in db.items;
    BootstrapKey(t, attributes["id"], attributes["version"], attributes);
    assert |"example#1" + "|" + "1"| != |"example#1"|;
    assert !StoredUnder(db.tables, id, attributes);
  }

  lemma BootstrapKey(t: Table, id: AttributeValue, version: AttributeValue, attributes: Attributes)
    requires t.partitionKey == "id" && t.sortKey == "version"
    requires "id" in attributes && attributes["id"] == id == StringValue("example#1")
    requires "version" in attributes && attributes["version"] == version == NumberValue("1")
    ensures RecordKey(t, attributes) == Ok("example#1" + "|" + "1")
  {
    assert TrimSpace("id") == "id" && TrimSpace("version") == "version";
    hide TrimSpace;
    assert |attributes.Keys| > 0;
  }
}
