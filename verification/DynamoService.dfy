/** The DynamoDB service object: every change is made on a copy of the state, which replaces the state once the
    repository has accepted it. */
module DynamoService {
  import opened Wrappers
  import opened Strings
  import opened DynamoValues
  import opened DynamoModel
  import opened DynamoState
  import opened DynamoRepository
  import opened DynamoTransactions
  import opened DynamoRequests
  import opened DynamoRuns
  import opened DynamoDocuments
  import KeyedSeq
  import B = DynamoBatch
  import R = DynamoReads
  import O = DynamoOrder
  import P = DynamoPaging

  class StateHook {
    var value: Snapshot

    constructor ()
    {
      value := Snapshot([], []);
    }

    method Set(next: Snapshot)
      modifies this
      ensures value == next
    {
      value := next;
    }
  }

  // Whether a state is installed: without a repository always, otherwise if it is valid and the database takes it.
  ghost predicate Takes(persistent: bool, accepted: bool, db: Database) {
    persistent ==> accepted && Storable(db)
  }

  // How a request that changes items ends: as specified, or refused by the repository without any change.
  ghost predicate Answers(spec: Result<Items, Error>, before: Database, after: Database, error: Option<Error>,
                          persistent: bool, accepted: bool)
  {
    match error
    case None => spec.Ok? && after == Database(before.tables, spec.value) && Takes(persistent, accepted, after)
    case Some(e) =>
      && after == before
      && (spec == Err(e)
          || (spec.Ok? && !Takes(persistent, accepted, Database(before.tables, spec.value)) && e == PersistFailed))
  }

  function ErrorOf<T>(r: Result<T, Error>): Option<Error> {
    match r case Ok(_) => None case Err(e) => Some(e)
  }

  function WithTable(db: Database, t: Table): Database {
    db.(tables := db.tables[t.name := t])
  }

  // which of the two states of a deletion are taken
  ghost function DeletionTaken(persistent: bool, db: Database, name: string, env: Env): Env {
    var n := TrimSpace(name);
    var active := Materialized(db.tables, n, env.now);
    var first := Takes(persistent, env.first, db.(tables := active));
    if n !in active then env
    else
      var last := db.(tables := active[n := Deleted(active[n], env.now)]);
      if Due(db.tables[n], env.now) then Env(env.now, first, Takes(persistent, env.second, last))
      else Env(env.now, Takes(persistent, env.first, last), env.second)
  }

  // whether the state with the table activated is taken
  ghost function ActivationTaken(persistent: bool, db: Database, name: string, env: Env): Env {
    var n := TrimSpace(name);
    if n !in db.tables then env
    else Env(env.now, Takes(persistent, env.first, db.(tables := db.tables[n := Activated(db.tables[n])])), env.second)
  }

  class Service {
    var state: State
    var repo: Repository?
    var hook: StateHook?

    ghost function Repr(): set<object?>
      reads this
    {
      {this, state, repo, hook}
    }

    // The repository holds the rows of the state, and the hook its snapshot.
    ghost predicate Valid()
      reads this, Repr()
    {
      && state.Valid()
      && (repo != null ==> repo.rows == RowsOf(state.tables, state.items))
      && (hook != null ==> hook.value == SnapshotOf(state.tables, state.items))
    }

    // a service on a repository that holds the rows of its state
    constructor (state: State, repo: Repository?)
      requires state.Valid() && (repo != null ==> repo.rows == RowsOf(state.tables, state.items))
      ensures Valid() && this.state == state && this.repo == repo && hook == null
    {
      this.state := state;
      this.repo := repo;
      hook := null;
    }

    method AttachState(hook: StateHook)
      requires Valid()
      modifies this, hook
      ensures Valid() && state.db == old(state.db) && this.hook == hook && state == old(state) && repo == old(repo)
    {
      this.hook := hook;
      Publish();
    }

    // publishSnapshotLocked
    method Publish()
      requires state.Valid()
      modifies hook
      ensures hook != null ==> hook.value == SnapshotOf(state.tables, state.items)
    {
      if hook != null {
        hook.Set(SnapshotOf(state.tables, state.items));
      }
    }

    // commitStateLocked; accepted: whether the database takes the transaction
    method Commit(next: State, accepted: bool) returns (ok: bool)
      requires Valid() && next.Valid() && next != state
      modifies Repr()
      ensures Valid() && next.Valid() && repo == old(repo) && hook == old(hook)
      ensures ok <==> Takes(old(repo) != null, accepted, old(next.db))
      ensures if ok then state == next && state.db == old(next.db) else state == old(state) && state.db == old(state.db)
      ensures next.tables == old(next.tables) && next.items == old(next.items)
    {
      PersistableIff(next.tables, next.items);
      if repo != null {
        var saved := repo.Save(next, accepted);
        if !saved {
          return false;
        }
      }
      state := next;
      Publish();
      ok := true;
    }

    // commits a state in which the items are changed
    method Install(ghost spec: Result<Items, Error>, next: State, accepted: bool) returns (error: Option<Error>)
      requires Valid() && next.Valid() && next != state && next !in Repr()
      requires spec.Ok? && next.db == Database(state.db.tables, spec.value)
      modifies Repr()
      ensures Valid() && Repr() <= old(Repr()) + {next}
      ensures Answers(spec, old(state.db), state.db, error, old(repo) != null, accepted)
    {
      var saved := Commit(next, accepted);
      error := if saved then None else Some(PersistFailed);
    }

    // ---------- items ----------

    method CheckId(table: string, key: string) returns (r: Result<ItemId, Error>)
      requires Valid()
      ensures r == CheckedId(state.db.tables, table, key)
    {
      if TrimSpace(table) == "" {
        return Err(TableNameRequired);
      }
      if TrimSpace(key) == "" {
        return Err(ItemKeyRequired);
      }
      var found := state.FindTable(TrimSpace(table));
      r := if found.None? then Err(TableNotFound) else Ok(ItemId(TrimSpace(table), TrimSpace(key)));
    }

    method PutItem(table: string, key: string, attributes: Attributes, env: Env) returns (r: Result<Item, Error>)
      requires Valid()
      modifies Repr()
      ensures Valid() && fresh(Repr() - old(Repr()))
      ensures Answers(DynamoRequests.PutItem(old(state.db), table, key, attributes), old(state.db), state.db, ErrorOf(r), old(repo) != null, env.first)
      ensures r.Ok? ==> r.value == Item(TrimSpace(table), TrimSpace(key), attributes)
    {
      hide DatabaseOf, Well, RowsOf, SnapshotOf;
      var id := CheckId(table, key);
      if id.Err? {
        return Err(id.error);
      }
      ghost var spec := DynamoRequests.PutItem(state.db, table, key, attributes);
      assert spec == Ok(state.db.items[id.value := attributes]);
      var next := state.Clone();
      var item := Item(id.value.table, id.value.key, attributes);
      next.UpsertItem(item);
      assert ItemIdOf(item) == id.value;
      var error := Install(spec, next, env.first);
      r := if error.None? then Ok(item) else Err(error.value);
    }

    method DeleteItem(table: string, key: string, env: Env) returns (r: Result<(), Error>)
      requires Valid()
      modifies Repr()
      ensures Valid() && fresh(Repr() - old(Repr()))
      ensures Answers(DynamoRequests.DeleteItem(old(state.db), table, key), old(state.db), state.db, ErrorOf(r), old(repo) != null, env.first)
    {
      hide DatabaseOf, Well, RowsOf, SnapshotOf;
      var id := CheckId(table, key);
      if id.Err? {
        return Err(id.error);
      }
      var found := state.FindItem(id.value.table, id.value.key);
      if found.None? {
        return Err(ItemNotFound);
      }
      var next := state.Clone();
      var removed := next.DeleteItem(id.value.table, id.value.key);
      var error := Install(DynamoRequests.DeleteItem(state.db, table, key), next, env.first);
      r := if error.None? then Ok(()) else Err(error.value);
    }

    // The operations of an update, one after the other.
    method Operate(sum: Sum, t: Table, operations: seq<Operation>, current: Attributes) returns (r: Result<Attributes, Error>)
      ensures r == Updated(sum, t, operations, current)
    {
      var attributes := current;
      for i := 0 to |operations|
        invariant Updated(sum, t, operations, current) == Updated(sum, t, operations[i..], attributes)
      {
        var path := operations[i].path;
        assert operations[i..][1..] == operations[i + 1..];
        if IsKeyAttribute(t, path) {
          return Err(KeyAttributeUpdate(path));
        }
        match operations[i] {
          case Set(_, value) =>
            attributes := attributes[path := value];
          case Remove(_) =>
            attributes := attributes - {path};
          case Add(_, value) =>
            var updated := Added(sum, if path in attributes then attributes[path] else EMPTY, value);
            if updated.Err? {
              return Err(updated.error);
            }
            attributes := attributes[path := updated.value];
        }
      }
      r := Ok(attributes);
    }

    method UpdateItem(sum: Sum, table: string, key: string, condition: Condition, update: Option<seq<Operation>>, env: Env)
      returns (r: Result<Item, Error>)
      requires Valid()
      modifies Repr()
      ensures Valid() && fresh(Repr() - old(Repr()))
      ensures Answers(DynamoRequests.UpdateItem(sum, old(state.db), table, key, condition, update), old(state.db), state.db, ErrorOf(r), old(repo) != null, env.first)
    {
      hide DatabaseOf, Well, RowsOf, SnapshotOf, TrimSpace, Takes, Meets, Updated, IsKeyAttribute, Due;
      var id := CheckId(table, key);
      if id.Err? {
        return Err(id.error);
      }
      var t := state.FindTable(id.value.table);
      var found := state.FindItem(id.value.table, id.value.key);
      var current := Current(found);
      if !Meets(condition, current) {
        return Err(ConditionFailed);
      }
      if update.None? || |update.value| == 0 {
        return Err(InvalidExpression);
      }
      var attributes := Operate(sum, t.value, update.value, current);
      if attributes.Err? {
        return Err(attributes.error);
      }
      var next := state.Clone();
      var item := Item(id.value.table, id.value.key, attributes.value);
      next.UpsertItem(item);
      var error := Install(DynamoRequests.UpdateItem(sum, state.db, table, key, condition, update), next, env.first);
      r := if error.None? then Ok(item) else Err(error.value);
    }

    // ---------- batches ----------

    // Carries out at most budget writes to one table.
    method WriteTable(next: State, table: string, t: Table, ws: seq<B.WriteRequest>, budget: nat) returns (error: Option<Error>)
      requires next.Valid() && FindTable(next.db.tables, table) == Ok(t) && TrimSpace(table) == table
      modifies next
      ensures next.Valid() && next.db.tables == old(next.db.tables)
      ensures B.WriteAll(B.WriteRulesOf(next.db.tables), old(next.db.items), B.FlatTable(table, ws[..B.Min(budget, |ws|)]))
           == match error { case None => Ok(next.db.items) case Some(e) => Err(e) }
    {
      hide DatabaseOf, Well, TrimSpace, RecordKey, DocumentKey;
      var n := B.Min(budget, |ws|);
      ghost var tables, rules := next.db.tables, B.WriteRulesOf(next.db.tables);
      ghost var flat := B.FlatTable(table, ws[..n]);
      for i := 0 to n
        invariant next.Valid() && next.db.tables == tables
        invariant B.WriteAll(rules, old(next.db.items), flat) == B.WriteAll(rules, next.db.items, flat[i..])
      {
        ghost var before := next.db.items;
        assert flat[i..][0] == B.Flat(table, ws[i]) && flat[i..][1..] == flat[i + 1..];
        var key := B.WriteKey(t, ws[i]);
        if key.Err? {
          assert rules.write(before, B.Flat(table, ws[i])) == Err(key.error);
          return Some(key.error);
        }
        if |ws[i].put| > 0 {
          next.UpsertItem(Item(table, key.value, ws[i].put));
          assert ItemIdOf(Item(table, key.value, ws[i].put)) == ItemId(table, key.value);
        } else {
          var _ := next.DeleteItem(table, key.value);
        }
        assert rules.write(before, B.Flat(table, ws[i])) == Ok(next.db.items);
      }
      error := None;
    }

    method Find(next: State, name: string) returns (r: Result<Table, Error>)
      requires next.Valid()
      ensures r == FindTable(next.db.tables, name)
    {
      if TrimSpace(name) == "" {
        return Err(TableNameRequired);
      }
      var found := next.FindTable(TrimSpace(name));
      r := if found.None? then Err(TableNotFound) else Ok(found.value);
    }

    // Carries out a batch on a copy of the state; what comes back is built when the budget is spent.
    method WriteBatch(next: State, request: seq<B.TableWrites>) returns (r: Result<seq<B.TableWrites>, Error>)
      requires next.Valid()
      modifies next
      ensures next.Valid() && next.db.tables == old(next.db.tables)
      ensures B.WriteTables(B.WriteRulesOf(next.db.tables), old(next.db.items), request, B.WRITE_LIMIT)
           == match r { case Ok(_) => Ok(next.db.items) case Err(e) => Err(e) }
      ensures r.Ok? ==> r.value == B.Rest(request, B.WRITE_LIMIT, ())
    {
      hide DatabaseOf, Well, TrimSpace, B.WriteAll, B.FlatTable;
      var processed := 0;
      ghost var tables, rules := next.db.tables, B.WriteRulesOf(next.db.tables);
      for i := 0 to |request|
        invariant next.Valid() && next.db.tables == tables && processed <= B.WRITE_LIMIT
        invariant B.WriteTables(rules, old(next.db.items), request, B.WRITE_LIMIT)
               == B.WriteTables(rules, next.db.items, request[i..], B.WRITE_LIMIT - processed)
        invariant B.Rest(request, B.WRITE_LIMIT, ()) == B.Rest(request[i..], B.WRITE_LIMIT - processed, ())
      {
        assert request[i..][0] == request[i] && request[i..][1..] == request[i + 1..];
        var t := Find(next, request[i].table);
        if t.Err? {
          assert rules.table(request[i].table) == Some(t.error);
          return Err(t.error);
        }
        assert rules.table(request[i].table) == None;
        var table, ws := TrimSpace(request[i].table), request[i].requests;
        var budget := B.WRITE_LIMIT - processed;
        var error := WriteTable(next, table, t.value, ws, budget);
        if error.Some? {
          return Err(error.value);
        }
        var n := B.Min(budget, |ws|);
        processed := processed + n;
        if n < |ws| {
          return Ok([B.TableRequests(table, (), ws[n..])] + request[i + 1..]);
        }
      }
      r := Ok([]);
    }

    function ItemsWritten(spec: Result<B.Written, Error>): Result<Items, Error> {
      match spec case Ok(w) => Ok(w.items) case Err(e) => Err(e)
    }

    method BatchWriteItem(request: seq<B.TableWrites>, env: Env) returns (r: Result<seq<B.TableWrites>, Error>)
      requires Valid()
      modifies Repr()
      ensures Valid() && fresh(Repr() - old(Repr()))
      ensures var spec := B.BatchWrite(old(state.db.tables), old(state.db.items), request);
        && Answers(ItemsWritten(spec), old(state.db), state.db, ErrorOf(r), old(repo) != null, env.first)
        && (r.Ok? ==> r.value == spec.value.unprocessed)
    {
      hide DatabaseOf, Well, RowsOf, SnapshotOf;
      if |request| == 0 {
        return Err(RequestsRequired);
      }
      var next := state.Clone();
      ghost var spec := B.BatchWrite(state.db.tables, state.db.items, request);
      var unprocessed := WriteBatch(next, request);
      if unprocessed.Err? {
        return unprocessed;
      }
      var error := Install(ItemsWritten(spec), next, env.first);
      r := if error.None? then unprocessed else Err(error.value);
    }

    // Looks up at most budget keys of one table.
    method ReadTable(table: string, t: Table, keys: seq<Attributes>, budget: nat) returns (r: Result<seq<Item>, Error>)
      requires Valid() && FindTable(state.db.tables, table) == Ok(t) && TrimSpace(table) == table
      ensures r == B.ReadAll(B.ReadRulesOf(state.db.tables, state.db.items), B.FlatTable(table, keys[..B.Min(budget, |keys|)]))
    {
      hide DatabaseOf, Well, RowsOf, SnapshotOf, TrimSpace, RecordKey, DocumentKey;
      var n := B.Min(budget, |keys|);
      ghost var rules := B.ReadRulesOf(state.db.tables, state.db.items);
      ghost var flat := B.FlatTable(table, keys[..n]);
      var items: seq<Item> := [];
      PrependItemsNone(B.ReadAll(rules, flat));
      for i := 0 to n
        invariant B.ReadAll(rules, flat) == PrependItems(items, B.ReadAll(rules, flat[i..]))
      {
        assert flat[i..][0] == B.Flat(table, keys[i]) && flat[i..][1..] == flat[i + 1..];
        var key := DocumentKey(t, keys[i]);
        if key.Err? {
          assert rules.read(B.Flat(table, keys[i])) == Err(key.error);
          return Err(key.error);
        }
        var found := state.FindItem(table, key.value);
        assert rules.read(B.Flat(table, keys[i])) ==
          Ok(if found.Some? then Some(Item(table, key.value, found.value)) else None);
        ghost var rest := B.ReadAll(rules, flat[i + 1..]);
        if found.Some? {
          var item := Item(table, key.value, found.value);
          if rest.Ok? {
            assert items + B.Prepended(Some(item), rest.value) == items + [item] + rest.value;
          }
          items := items + [item];
        }
      }
      assert items + [] == items;
      r := Ok(items);
    }

    static function PrependItems(items: seq<Item>, rest: Result<seq<Item>, Error>): Result<seq<Item>, Error> {
      match rest case Ok(more) => Ok(items + more) case Err(e) => Err(e)
    }

    static lemma PrependItemsNone(rest: Result<seq<Item>, Error>)
      ensures PrependItems([], rest) == rest
    {
      if rest.Ok? {
        assert [] + rest.value == rest.value;
      }
    }

    method BatchGetItem(request: seq<B.TableReads>) returns (r: Result<B.Reply, Error>)
      requires Valid()
      ensures r == B.BatchGet(state.db.tables, state.db.items, request)
    {
      hide DatabaseOf, Well, RowsOf, SnapshotOf, TrimSpace, B.ReadAll, B.FlatTable;
      if |request| == 0 {
        return Err(RequestsRequired);
      }
      ghost var rules := B.ReadRulesOf(state.db.tables, state.db.items);
      var processed := 0;
      var responses: seq<B.TableItems> := [];
      PrependResponsesNone(B.ReadTables(rules, request, B.GET_LIMIT));
      for i := 0 to |request|
        invariant processed <= B.GET_LIMIT
        invariant B.ReadTables(rules, request, B.GET_LIMIT)
               == PrependResponses(responses, B.ReadTables(rules, request[i..], B.GET_LIMIT - processed))
        invariant B.Rest(request, B.GET_LIMIT, false) == B.Rest(request[i..], B.GET_LIMIT - processed, false)
      {
        assert request[i..][0] == request[i] && request[i..][1..] == request[i + 1..];
        var t := Find(state, request[i].table);
        if t.Err? {
          assert rules.table(request[i].table) == Some(t.error);
          return Err(t.error);
        }
        assert rules.table(request[i].table) == None;
        var table, keys := TrimSpace(request[i].table), request[i].requests;
        var budget := B.GET_LIMIT - processed;
        var items := ReadTable(table, t.value, keys, budget);
        if items.Err? {
          return Err(items.error);
        }
        var n := B.Min(budget, |keys|);
        processed := processed + n;
        var response := B.Response(table, items.value);
        if n < |keys| {
          return Ok(B.Reply(responses + response, [B.TableRequests(table, false, keys[n..])] + request[i + 1..]));
        }
        PrependResponsesTwice(responses, response, B.ReadTables(rules, request[i + 1..], budget - n));
        responses := responses + response;
      }
      assert responses + [] == responses;
      r := Ok(B.Reply(responses, []));
    }

    static function PrependResponses(done: seq<B.TableItems>, rest: Result<seq<B.TableItems>, Error>): Result<seq<B.TableItems>, Error> {
      match rest case Ok(more) => Ok(done + more) case Err(e) => Err(e)
    }

    static lemma PrependResponsesNone(rest: Result<seq<B.TableItems>, Error>)
      ensures PrependResponses([], rest) == rest
    {
      if rest.Ok? {
        assert [] + rest.value == rest.value;
      }
    }

    static lemma PrependResponsesTwice(a: seq<B.TableItems>, b: seq<B.TableItems>, rest: Result<seq<B.TableItems>, Error>)
      ensures PrependResponses(a, PrependResponses(b, rest)) == PrependResponses(a + b, rest)
    {
      if rest.Ok? {
        assert a + (b + rest.value) == a + b + rest.value;
      }
    }

    // ---------- transactions ----------

    // the target of an entry
    method Aim(next: State, e: TransactItem) returns (r: Result<Target, Error>)
      requires next.Valid()
      ensures r == TargetOf(next.db.tables, e)
    {
      hide DatabaseOf, Well, TrimSpace, RecordKey, DocumentKey;
      var t := Find(next, e.table);
      if t.Err? {
        return Err(t.error);
      }
      var key := EntryKey(t.value, e);
      r := if key.Err? then Err(key.error) else Ok(Target(t.value, ItemId(TrimSpace(e.table), key.value)));
    }

    // what an entry does to what is found at its target
    method Evaluate(sum: Sum, t: Table, e: TransactItem, found: Option<Attributes>) returns (r: Result<Effect, Error>)
      ensures r == EffectOf(sum, t, e, found)
    {
      if |e.put| > 0 {
        return Ok(Write(e.put));
      }
      if |e.updateKey| > 0 {
        if !Meets(e.condition, Current(found)) {
          return Err(ConditionFailed);
        }
        if e.update.None? {
          return Err(InvalidExpression);
        }
        var attributes := Operate(sum, t, e.update.value, Current(found));
        return if attributes.Err? then Err(attributes.error) else Ok(Write(attributes.value));
      }
      if |e.checkKey| > 0 {
        return if Meets(e.condition, Current(found)) then Ok(Keep) else Err(ConditionFailed);
      }
      r := Ok(Erase);
    }

    method Change(next: State, id: ItemId, effect: Effect)
      requires next.Valid()
      modifies next
      ensures next.Valid() && next.db == Database(old(next.db.tables), Perform(old(next.db.items), id, effect))
    {
      hide DatabaseOf, Well;
      match effect
      case Keep =>
      case Write(attributes) =>
        next.UpsertItem(Item(id.table, id.key, attributes));
        assert ItemIdOf(Item(id.table, id.key, attributes)) == id;
      case Erase =>
        var _ := next.DeleteItem(id.table, id.key);
    }

    // Carries out one entry on a copy of the state.
    method ProceedOne(sum: Sum, next: State, entries: seq<TransactItem>, i: nat, seen: map<string, nat>)
      returns (r: Result<map<string, nat>, Refusal>)
      requires next.Valid() && i < |entries| && SeenBelow(Progress(next.db.items, seen), i)
      modifies next
      ensures next.Valid() && next.db.tables == old(next.db.tables)
      ensures Advance(RulesOf(sum, next.db.tables), entries, i, Progress(old(next.db.items), seen))
           == match r { case Ok(met) => Ok(Progress(next.db.items, met)) case Err(why) => Err(why) }
    {
      hide DatabaseOf, Well, TargetOf, EffectOf, Mark, Perform, Reasons;
      ghost var tables, rules := next.db.tables, RulesOf(sum, next.db.tables);
      var target := Aim(next, entries[i]);
      assert rules.target(entries[i]) == match target { case Err(e) => Err(e) case Ok(aim) => Ok(aim.id) };
      if target.Err? {
        return Err(Invalid(target.error));
      }
      var id := target.value.id;
      var mark := Mark(id);
      assert rules.mark(id) == mark;
      if mark in seen && !Checked(entries[i]) && !Checked(entries[seen[mark]]) {
        return Err(Cancelled(Reasons(|entries|, i, seen[mark], TransactionConflict)));
      }
      var found := next.FindItem(id.table, id.key);
      assert found == Lookup(next.db.items, id);
      var effect := Evaluate(sum, target.value.table, entries[i], found);
      assert rules.effect(entries[i], found) == effect;
      if effect.Err? {
        return Err(if effect.error == ConditionFailed
                   then Cancelled(Reasons(|entries|, i, i, ConditionalCheckFailed)) else Invalid(effect.error));
      }
      Change(next, id, effect.value);
      r := Ok(seen[mark := i]);
    }

    // Carries out the entries on a copy of the state.
    method Proceed(sum: Sum, next: State, entries: seq<TransactItem>) returns (refusal: Option<Refusal>)
      requires next.Valid()
      modifies next
      ensures next.Valid() && next.db.tables == old(next.db.tables)
      ensures Ended(After(RulesOf(sum, next.db.tables), old(next.db.items), entries, |entries|), refusal, next.db.items)
    {
      hide DatabaseOf, Well, RulesOf, Advance;
      var seen: map<string, nat> := map[];
      ghost var tables, start, rules := next.db.tables, next.db.items, RulesOf(sum, next.db.tables);
      for i := 0 to |entries|
        invariant next.Valid() && next.db.tables == tables
        invariant After(rules, start, entries, i) == Ok(Progress(next.db.items, seen))
      {
        ghost var p := Progress(next.db.items, seen);
        var met := ProceedOne(sum, next, entries, i, seen);
        if met.Err? {
          Refused(rules, start, entries, i, p, met.error);
          return Some(met.error);
        }
        seen := met.value;
        Advanced(rules, start, entries, i, p, Progress(next.db.items, seen));
      }
      refusal := None;
    }

    static ghost predicate Ended(r: Result<Progress, Refusal>, refusal: Option<Refusal>, items: Items) {
      match refusal case None => r.Ok? && r.value.items == items case Some(why) => r == Err(why)
    }

    static lemma Refused(rules: Rules, start: Items, entries: seq<TransactItem>, i: nat, p: Progress, why: Refusal)
      requires i < |entries| && After(rules, start, entries, i) == Ok(p)
      requires Advance(rules, entries, i, p) == Err(why)
      ensures After(rules, start, entries, |entries|) == Err(why)
    {
      hide Advance;
      RefusalStays(rules, start, entries, i + 1, |entries|);
    }

    static lemma Advanced(rules: Rules, start: Items, entries: seq<TransactItem>, i: nat, p: Progress, q: Progress)
      requires i < |entries| && After(rules, start, entries, i) == Ok(p) && Advance(rules, entries, i, p) == Ok(q)
      ensures After(rules, start, entries, i + 1) == Ok(q)
    {
      hide Advance;
    }

    // How a transaction ends: as specified, or refused by the repository without any change.
    static ghost predicate Transacted(spec: Result<Items, Refusal>, before: Database, after: Database,
                                      refusal: Option<Refusal>, persistent: bool, accepted: bool)
    {
      match refusal
      case None => spec.Ok? && after == Database(before.tables, spec.value) && Takes(persistent, accepted, after)
      case Some(why) =>
        && after == before
        && (spec == Err(why)
            || (spec.Ok? && !Takes(persistent, accepted, Database(before.tables, spec.value)) && why == Invalid(PersistFailed)))
    }

    method TransactWriteItems(sum: Sum, entries: seq<TransactItem>, env: Env) returns (refusal: Option<Refusal>)
      requires Valid()
      modifies Repr()
      ensures Valid() && fresh(Repr() - old(Repr()))
      ensures Transacted(Transact(sum, old(state.db.tables), old(state.db.items), entries),
                         old(state.db), state.db, refusal, old(repo) != null, env.first)
    {
      hide DatabaseOf, Well, RowsOf, SnapshotOf, RulesOf, After;
      if |entries| == 0 {
        return Some(Invalid(RequestsRequired));
      }
      if |entries| > LIMIT {
        return Some(Invalid(TooManyItems));
      }
      var next := state.Clone();
      refusal := Proceed(sum, next, entries);
      if refusal.Some? {
        return;
      }
      assert Transact(sum, state.db.tables, state.db.items, entries) == Ok(next.db.items);
      var error := Install(Ok(next.db.items), next, env.first);
      refusal := if error.None? then None else Some(Invalid(error.value));
    }

    // ---------- tables ----------

    // How a request that changes one table ends.
    static ghost predicate TableAnswers(spec: Result<Table, Error>, before: Database, after: Database, r: Result<Table, Error>,
                                        persistent: bool, accepted: bool)
    {
      match r
      case Ok(t) => spec == Ok(t) && after == WithTable(before, t) && Takes(persistent, accepted, after)
      case Err(e) =>
        && after == before
        && (spec == Err(e) || (spec.Ok? && !Takes(persistent, accepted, WithTable(before, spec.value)) && e == PersistFailed))
    }

    method CreateTable(name: string, partitionKey: string, sortKey: string, billingMode: string,
                       definition: Option<Definition>, env: Env) returns (r: Result<Table, Error>)
      requires Valid()
      modifies Repr()
      ensures Valid() && fresh(Repr() - old(Repr()))
      ensures TableAnswers(DynamoRequests.CreateTable(old(state.db), name, partitionKey, sortKey, billingMode, definition, env.now),
                           old(state.db), state.db, r, old(repo) != null, env.first)
    {
      hide DatabaseOf, Well, RowsOf, SnapshotOf;
      if TrimSpace(name) == "" {
        return Err(TableNameRequired);
      }
      var next := state.Clone();
      var found := next.FindTable(TrimSpace(name));
      if found.Some? {
        return Err(TableExists);
      }
      if definition.None? {
        return Err(InvalidDefinition);
      }
      var table := NewTable(name, partitionKey, sortKey, billingMode, definition.value, env.now);
      next.UpsertTable(table);
      var saved := Commit(next, env.first);
      r := if saved then Ok(table) else Err(PersistFailed);
    }

    // A request that adds nothing answers without a commit.
    method UpdateTableSchema(name: string, blank: bool, merge: Merge, env: Env) returns (r: Result<Table, Error>)
      requires Valid()
      modifies Repr()
      ensures Valid() && fresh(Repr() - old(Repr()))
      ensures TableAnswers(UpdateTable(old(state.db), name, blank, merge), old(state.db), state.db, r,
                           old(repo) != null && !blank, env.first)
    {
      hide DatabaseOf, Well, RowsOf, SnapshotOf;
      var n := TrimSpace(name);
      if n == "" {
        return Err(TableNameRequired);
      }
      var next := state.Clone();
      var found := next.FindTable(n);
      if found.None? || found.value.status == Deleting {
        return Err(TableNotFound);
      }
      NamesKept(state, n);
      if blank {
        return Ok(found.value);
      }
      var merged := merge(found.value);
      if merged.None? {
        return Err(InvalidDefinition);
      }
      var table := Merged(found.value, merged.value);
      next.UpsertTable(table);
      var saved := Commit(next, env.first);
      r := if saved then Ok(table) else Err(PersistFailed);
    }

    // materializeTableLocked, on a copy of the state
    method Materialize(next: State, name: string, now: nat) returns (changed: bool)
      requires next.Valid()
      modifies next
      ensures next.Valid() && next.db.items == old(next.db.items)
      ensures next.db.tables == Materialized(old(next.db.tables), name, now)
      ensures changed <==> name in old(next.db.tables) && Due(old(next.db.tables)[name], now)
    {
      hide DatabaseOf, Well;
      var t := next.FindTable(name);
      if t.None? || !Due(t.value, now) {
        return false;
      }
      NamesKept(next, name);
      next.UpsertTable(Activated(t.value));
      changed := true;
    }

    static lemma NamesKept(next: State, name: string)
      requires next.Valid() && name in next.db.tables
      ensures next.db.tables[name].name == name
    {
    }

    // Activation is committed before the deletion: if only the second commit is refused, the activation stays.
    method DeleteTable(name: string, env: Env) returns (r: Result<Table, Error>)
      requires Valid()
      modifies Repr()
      ensures Valid() && fresh(Repr() - old(Repr()))
      ensures state.db == old(state.db).(tables :=
                DeletedTables(old(state.db.tables), name, DeletionTaken(old(repo) != null, old(state.db), name, env)))
      ensures var n, after := TrimSpace(name), state.db.tables;
        r == if n == "" then Err(TableNameRequired)
             else if n !in after then Err(TableNotFound)
             else if after[n].status == Deleting then Ok(after[n])
             else Err(PersistFailed)
    {
      hide DatabaseOf, Well, RowsOf, SnapshotOf;
      var n := TrimSpace(name);
      if n == "" {
        return Err(TableNameRequired);
      }
      var next := state.Clone();
      var changed := Materialize(next, n, env.now);
      if changed {
        var saved := Commit(next, env.first);
        if !saved {
          return Err(PersistFailed);
        }
      }
      var t := state.FindTable(n);
      if t.None? {
        return Err(TableNotFound);
      }
      if t.value.status == Deleting {
        return Ok(t.value);
      }
      next := state.Clone();
      NamesKept(next, n);
      var deleted := Deleted(t.value, env.now);
      next.UpsertTable(deleted);
      var saved := Commit(next, if changed then env.second else env.first);
      r := if saved then Ok(deleted) else Err(PersistFailed);
    }

    method DescribeTable(name: string, env: Env) returns (r: Result<Table, Error>)
      requires Valid()
      modifies Repr()
      ensures Valid() && fresh(Repr() - old(Repr()))
      ensures state.db == old(state.db).(tables :=
                DescribedTables(old(state.db.tables), name, ActivationTaken(old(repo) != null, old(state.db), name, env)))
      ensures var n, after := TrimSpace(name), state.db.tables;
        r == if n == "" then Err(TableNameRequired)
             else if n !in after || after[n].status == Deleting then Err(TableNotFound)
             else if after[n].status == Creating && env.now >= after[n].activationAt then Err(PersistFailed)
             else Ok(after[n])
    {
      hide DatabaseOf, Well, RowsOf, SnapshotOf;
      var n := TrimSpace(name);
      if n == "" {
        return Err(TableNameRequired);
      }
      var next := state.Clone();
      var changed := Materialize(next, n, env.now);
      if changed {
        var saved := Commit(next, env.first);
        if !saved {
          return Err(PersistFailed);
        }
      }
      var t := state.FindTable(n);
      if t.None? || t.value.status == Deleting {
        return Err(TableNotFound);
      }
      if t.value.status == Creating && env.now >= t.value.activationAt {
        next := state.Clone();
        NamesKept(next, n);
        next.UpsertTable(Activated(t.value));
        var saved := Commit(next, env.first);
        return if saved then Ok(Activated(t.value)) else Err(PersistFailed);
      }
      r := Ok(t.value);
    }

    // ---------- queries and scans ----------

    method Query(parse: Parse, request: R.QueryRequest) returns (r: Result<P.Page, P.ReadError>)
      requires Valid()
      ensures r == match FindTable(state.db.tables, request.table) {
        case Err(e) => Err(P.BadTable(e))
        case Ok(t) => R.Query(parse, t, state.items, request)
      }
    {
      hide DatabaseOf, Well, RowsOf, SnapshotOf, TrimSpace, P.Locate, P.PageFrom, ListItems;
      var t := Find(state, request.table);
      if t.Err? {
        return Err(P.BadTable(t.error));
      }
      if request.index.Err? {
        return Err(request.index.error);
      }
      if request.plan.Err? {
        return Err(request.plan.error);
      }
      var target := R.TargetOf(t.value, request.index.value);
      var listed := state.ItemsOf(t.value.name);
      var candidates := R.Filter(parse, request.plan.value, listed);
      var names := R.Unify(O.Names(target));
      var selected := O.Ordered(parse, names, candidates, request.forward);
      var start := R.LocateStart(names, selected, request.cursor);
      if start.Err? {
        return Err(start.error);
      }
      if request.clauses.Err? {
        return Err(request.clauses.error);
      }
      if request.projection.Err? {
        return Err(request.projection.error);
      }
      r := R.ReadPage(R.ReaderOf(parse, names, request.clauses.value, request.projection.value), selected, start.value, request.limit);
    }

    method Scan(parse: Parse, table: string, clauses: Result<seq<R.Clause>, P.ReadError>, cursor: Attributes, limit: Option<int>)
      returns (r: Result<P.Page, P.ReadError>)
      requires Valid()
      ensures r == match FindTable(state.db.tables, table) {
        case Err(e) => Err(P.BadTable(e))
        case Ok(t) => R.Scan(parse, t, state.items, clauses, cursor, limit)
      }
    {
      hide DatabaseOf, Well, RowsOf, SnapshotOf, TrimSpace, P.Locate, P.PageFrom, ListItems;
      var t := Find(state, table);
      if t.Err? {
        return Err(P.BadTable(t.error));
      }
      var listed := state.ItemsOf(t.value.name);
      var names := R.Unify(O.Names(R.TargetOf(t.value, None)));
      var start := R.LocateStart(names, listed, cursor);
      if start.Err? {
        return Err(start.error);
      }
      if clauses.Err? {
        return Err(clauses.error);
      }
      r := R.ReadPage(R.ReaderOf(parse, names, clauses.value, []), listed, start.value, limit);
    }
  }

  // ---------- methods and steps ----------

  // how the repository answers a request of a run
  ghost function Taken(persistent: bool, sum: Sum, db: Database, op: Op, env: Env): Env {
    match op
    case OpDeleteTable(name) => DeletionTaken(persistent, db, name, env)
    case OpDescribeTable(name) => ActivationTaken(persistent, db, name, env)
    case _ => Env(env.now, Takes(persistent, env.first, Step(sum, db, op, Env(env.now, true, true))), env.second)
  }

  // What PutItem, DeleteItem, UpdateItem and BatchWriteItem promise is a step of a run.
  lemma AnswersAreSteps(sum: Sum, op: Op, env: Env, persistent: bool, before: Database, after: Database, error: Option<Error>)
    requires op.OpPutItem? || op.OpDeleteItem? || op.OpUpdateItem? || op.OpBatchWrite?
    requires Answers(NextItems(sum, before, op), before, after, error, persistent, env.first)
    ensures after == Step(sum, before, op, Taken(persistent, sum, before, op, env))
  {
    hide NextItems, Storable;
  }

  // So is what TransactWriteItems promises,
  lemma TransactionsAreSteps(sum: Sum, entries: seq<TransactItem>, env: Env, persistent: bool,
                             before: Database, after: Database, refusal: Option<Refusal>)
    requires Service.Transacted(Transact(sum, before.tables, before.items, entries), before, after, refusal, persistent, env.first)
    ensures after == Step(sum, before, OpTransact(entries), Taken(persistent, sum, before, OpTransact(entries), env))
  {
    hide Transact, Storable;
  }

  // and CreateTable and UpdateTableSchema, and by their contracts DeleteTable and DescribeTable.
  lemma TableRequestsAreSteps(sum: Sum, op: Op, env: Env, persistent: bool, before: Database, after: Database, r: Result<Table, Error>)
    requires match op
      case OpCreateTable(name, partitionKey, sortKey, billingMode, definition) =>
        Service.TableAnswers(DynamoRequests.CreateTable(before, name, partitionKey, sortKey, billingMode, definition, env.now),
                             before, after, r, persistent, env.first)
      case OpUpdateTable(name, blank, merge) =>
        && (TrimSpace(name) in before.tables ==> before.tables[TrimSpace(name)].name == TrimSpace(name))
        && Service.TableAnswers(UpdateTable(before, name, blank, merge), before, after, r, persistent && !blank, env.first)
      case OpDeleteTable(name) =>
        after == before.(tables := DeletedTables(before.tables, name, DeletionTaken(persistent, before, name, env)))
      case OpDescribeTable(name) =>
        after == before.(tables := DescribedTables(before.tables, name, ActivationTaken(persistent, before, name, env)))
      case _ => false
    ensures after == Step(sum, before, op, Taken(persistent, sum, before, op, env))
  {
    hide Storable, TrimSpace;
  }

  // A service on a repository whose first save is accepted and whose second one is refused keeps the activation of a
  // table that was to be deleted.
  method HalfDeleted(service: Service, name: string, env: Env) returns (r: Result<Table, Error>)
    requires service.Valid() && service.repo != null && env.first && !env.second
    requires Trimmed(name) && name != "" && name in service.state.db.tables && Due(service.state.db.tables[name], env.now)
    requires Storable(service.state.db)
    modifies service.Repr()
    ensures r == Err(PersistFailed)
    ensures service.state.db == WithTable(old(service.state.db), Activated(old(service.state.db.tables[name])))
    ensures service.state.db != old(service.state.db)
  {
    ghost var before := service.state.db;
    ActivationStorable(before, name);
    assert before.tables[name].name == name;
    r := service.DeleteTable(name, env);
  }

  lemma ActivationStorable(db: Database, name: string)
    requires name in db.tables && Storable(db)
    ensures Storable(db.(tables := db.tables[name := Activated(db.tables[name])]))
  {
    hide TrimSpace, Storable, TableFor;
    var tables := db.tables[name := Activated(db.tables[name])];
    assert tables.Keys == db.tables.Keys;
    forall n | n in tables
      ensures TrimmedName(tables[n]) == TrimmedName(db.tables[n]) && (ValidTable(db.tables[n]) ==> ValidTable(tables[n]))
    {
    }
    SameNamesStorable(db, tables);
  }

  lemma SameNamesStorable(db: Database, tables: Tables)
    requires Storable(db) && tables.Keys == db.tables.Keys
    requires forall n | n in tables ::
      TrimmedName(tables[n]) == TrimmedName(db.tables[n]) && (ValidTable(db.tables[n]) ==> ValidTable(tables[n]))
    ensures Storable(db.(tables := tables))
  {
    hide TrimmedName, ValidTable, ValidItem, TableFor;
    forall id | id in db.items ensures TableFor(tables, id) {
      SameTableFor(db.tables, tables, id);
    }
  }

  lemma SameTableFor(a: Tables, b: Tables, id: ItemId)
    requires forall n | n in a :: n in b && TrimmedName(a[n]) == TrimmedName(b[n])
    requires TableFor(a, id)
    ensures TableFor(b, id)
  {
    hide TrimmedName;
    var n :| n in a && TrimmedName(a[n]) == TrimSpace(id.table);
    assert TrimmedName(b[n]) == TrimSpace(id.table);
  }

  // A service that starts again on the rows of its repository answers every lookup as before.
  ghost predicate RestartsAlike(service: Service)
    requires service.Valid() && service.repo != null
    reads service, service.Repr()
  {
    var rows := service.repo.rows;
    LoadItems(rows.items).Ok? && Well(rows.tables, LoadItems(rows.items).value)
    && DatabaseOf(rows.tables, LoadItems(rows.items).value) == service.state.db
  }

  // It does so exactly if its documents are well-formed.
  lemma RestartIff(service: Service)
    requires service.Valid() && service.repo != null && Placed(service.state.db.tables, service.state.db.items)
    ensures RestartsAlike(service) <==> WellFormedItems(service.state.items)
  {
    hide SnapshotOf, LoadItems;
    var tables, items := service.state.tables, service.state.items;
    forall x | x in items ensures exists t :: t in tables && t.name == x.table {
      var i :| 0 <= i < |items| && items[i] == x;
      ItemFound(items, i);
      assert x.table in service.state.db.tables;
      var t := service.state.db.tables[x.table];
      assert t in tables && TableName(t) == x.table;
    }
    ReloadsIff(tables, items);
  }

  lemma DocumentsAreItems(items: seq<Item>)
    requires KeyedSeq.Unique(ItemIdOf, items)
    ensures WellFormedItems(items) <==> DocumentsWell(ItemMap(items))
  {
    hide WellFormedDocument;
    forall i | 0 <= i < |items|
      ensures ItemIdOf(items[i]) in ItemMap(items) && ItemMap(items)[ItemIdOf(items[i])] == items[i].attributes
    {
      ItemFound(items, i);
    }
    if WellFormedItems(items) {
      forall id | id in ItemMap(items) ensures WellFormedDocument(ItemMap(items)[id]) {
      }
    }
  }

  // After every run, a restart is unseen exactly if the documents are well-formed; and they are if every request that went
  // through wrote only such.
  lemma RestartOverRuns(service: Service, sum: Sum, start: Database, requests: seq<Request>)
    requires service.Valid() && service.repo != null && service.state.db == Run(sum, start, requests)
    requires Placed(start.tables, start.items) && DocumentsWell(start.items)
    ensures RestartsAlike(service) <==> DocumentsWell(Run(sum, start, requests).items)
    ensures AllWriteWell(sum, start, requests) ==> RestartsAlike(service)
  {
    hide Run, RestartsAlike, AllWriteWell, Placed, WellFormedItems, DocumentsWell;
    RunPlaced(sum, start, requests);
    RestartIff(service);
    DocumentsAreItems(service.state.items);
    if AllWriteWell(sum, start, requests) {
      RunWritesWell(sum, start, requests);
    }
  }
}
