/** BatchWriteItem and BatchGetItem: a bounded number of requests is carried out, table by table, and the
    rest comes back for the caller to send again. */
module DynamoBatch {
  import opened Wrappers
  import opened Strings
  import opened DynamoValues
  import opened DynamoModel
  import opened DynamoTransactions

  const WRITE_LIMIT := 25
  const GET_LIMIT := 100

  function Min(a: nat, b: nat): nat { if a <= b then a else b }

  // ---------- requests by table, and in one sequence ----------

  datatype TableRequests<O, R> = TableRequests(table: string, options: O, requests: seq<R>)

  datatype Flat<R> = Flat(table: string, request: R)

  function FlatTable<R>(table: string, rs: seq<R>): (fs: seq<Flat<R>>)
    ensures |fs| == |rs|
    ensures forall i | 0 <= i < |rs| :: fs[i] == Flat(table, rs[i])
  {
    seq(|rs|, i requires 0 <= i < |rs| => Flat(table, rs[i]))
  }

  function Flatten<O, R>(request: seq<TableRequests<O, R>>): seq<Flat<R>> {
    if |request| == 0 then [] else FlatTable(TrimSpace(request[0].table), request[0].requests) + Flatten(request[1..])
  }

  // What comes back of a request: the rest of the table that exhausts the budget, with the options a
  // rebuilt request has, and all tables after it.
  function Rest<O, R>(request: seq<TableRequests<O, R>>, budget: nat, rebuilt: O): seq<TableRequests<O, R>> {
    if |request| == 0 then []
    else if |request[0].requests| <= budget then Rest(request[1..], budget - |request[0].requests|, rebuilt)
    else [TableRequests(TrimSpace(request[0].table), rebuilt, request[0].requests[budget..])] + request[1..]
  }

  // Nothing is lost, reordered or duplicated; nothing comes back exactly if the budget suffices.
  lemma {:induction false} RestConserves<O, R>(request: seq<TableRequests<O, R>>, budget: nat, rebuilt: O)
    ensures var flat, rest := Flatten(request), Rest(request, budget, rebuilt);
      && Flatten(rest) == flat[Min(budget, |flat|)..]
      && (|rest| == 0 <==> |flat| <= budget)
    decreases |request|
  {
    if |request| > 0 {
      var n := |request[0].requests|;
      var head, tail := FlatTable(TrimSpace(request[0].table), request[0].requests), Flatten(request[1..]);
      if n <= budget {
        RestConserves(request[1..], budget - n, rebuilt);
        TakeJoin(head, tail, n + Min(budget - n, |tail|));
      } else {
        TakeJoin(head, tail, budget);
        assert Rest(request, budget, rebuilt)[1..] == request[1..];
        assert head[budget..] == FlatTable(TrimSpace(request[0].table), request[0].requests[budget..]);
      }
    }
  }

  lemma TakeJoin<T>(a: seq<T>, b: seq<T>, n: nat)
    requires n <= |a| + |b|
    ensures n <= |a| ==> (a + b)[..n] == a[..n] && (a + b)[n..] == a[n..] + b
    ensures n >= |a| ==> (a + b)[..n] == a + b[..n - |a|] && (a + b)[n..] == b[n - |a|..]
  {
  }

  // ---------- writes ----------

  datatype WriteRequest = WriteRequest(put: Attributes, deleteKey: Attributes)

  type TableWrites = TableRequests<(), WriteRequest>

  // batchDocumentKey
  function WriteKey(t: Table, w: WriteRequest): Result<string, Error> {
    if |w.put| > 0 then RecordKey(t, w.put)
    else if |w.deleteKey| > 0 then DocumentKey(t, w.deleteKey)
    else Err(ItemRequired)
  }

  // one write to a named table
  function Wrote(tables: Tables, items: Items, f: Flat<WriteRequest>): Result<Items, Error> {
    match FindTable(tables, f.table)
    case Err(e) => Err(e)
    case Ok(t) =>
      match WriteKey(t, f.request)
      case Err(e) => Err(e)
      case Ok(key) =>
        var id := ItemId(f.table, key);
        Ok(if |f.request.put| > 0 then items[id := f.request.put] else items - {id})
  }

  // how a batch looks at a table, and what one write does
  datatype WriteRules = WriteRules(
    table: string -> Option<Error>,
    write: (Items, Flat<WriteRequest>) -> Result<Items, Error>)

  function TableError(tables: Tables, name: string): Option<Error> {
    match FindTable(tables, name)
    case Err(e) => Some(e)
    case Ok(_) => None
  }

  function WriteRulesOf(tables: Tables): WriteRules {
    WriteRules(name => TableError(tables, name), (items, f) => Wrote(tables, items, f))
  }

  // one write after the other
  function WriteAll(rules: WriteRules, items: Items, fs: seq<Flat<WriteRequest>>): Result<Items, Error>
    decreases |fs|
  {
    if |fs| == 0 then Ok(items)
    else
      match rules.write(items, fs[0])
      case Err(e) => Err(e)
      case Ok(next) => WriteAll(rules, next, fs[1..])
  }

  lemma {:induction false} WriteAllJoin(rules: WriteRules, items: Items, a: seq<Flat<WriteRequest>>, b: seq<Flat<WriteRequest>>)
    ensures WriteAll(rules, items, a + b) ==
      (var r := WriteAll(rules, items, a); if r.Ok? then WriteAll(rules, r.value, b) else r)
    decreases |a|
  {
    if |a| == 0 {
      assert a + b == b;
    } else {
      assert (a + b)[1..] == a[1..] + b;
      var next := rules.write(items, a[0]);
      if next.Ok? {
        WriteAllJoin(rules, next.value, a[1..], b);
      }
    }
  }

  // The tables after the one that exhausts the budget are not looked at.
  function WriteTables(rules: WriteRules, items: Items, request: seq<TableWrites>, budget: nat): Result<Items, Error>
    decreases |request|
  {
    if |request| == 0 then Ok(items)
    else
      match rules.table(request[0].table)
      case Some(e) => Err(e)
      case None =>
        var table, ws := TrimSpace(request[0].table), request[0].requests;
        var n := Min(budget, |ws|);
        match WriteAll(rules, items, FlatTable(table, ws[..n]))
        case Err(e) => Err(e)
        case Ok(next) => if n < |ws| then Ok(next) else WriteTables(rules, next, request[1..], budget - n)
  }

  datatype Written = Written(items: Items, unprocessed: seq<TableWrites>)

  function BatchWriteBy(rules: WriteRules, items: Items, request: seq<TableWrites>): Result<Written, Error> {
    if |request| == 0 then Err(RequestsRequired)
    else
      match WriteTables(rules, items, request, WRITE_LIMIT)
      case Err(e) => Err(e)
      case Ok(next) => Ok(Written(next, Rest(request, WRITE_LIMIT, ())))
  }

  function BatchWrite(tables: Tables, items: Items, request: seq<TableWrites>): Result<Written, Error> {
    BatchWriteBy(WriteRulesOf(tables), items, request)
  }

  // The writes that are carried out are the first ones, as many as the budget allows.
  lemma {:induction false} FirstWritten(rules: WriteRules, items: Items, request: seq<TableWrites>, budget: nat)
    requires WriteTables(rules, items, request, budget).Ok?
    ensures var flat := Flatten(request);
      WriteAll(rules, items, flat[..Min(budget, |flat|)]) == WriteTables(rules, items, request, budget)
    decreases |request|
  {
    if |request| > 0 {
      var table, ws := TrimSpace(request[0].table), request[0].requests;
      var n := Min(budget, |ws|);
      var head, tail := FlatTable(table, ws), Flatten(request[1..]);
      assert head[..n] == FlatTable(table, ws[..n]);
      if n < |ws| {
        TakeJoin(head, tail, n);
      } else {
        assert head[..n] == head;
        var next := WriteAll(rules, items, head).value;
        FirstWritten(rules, next, request[1..], budget - n);
        FirstAndMore(rules, items, head, tail, budget);
      }
    }
  }

  lemma FirstAndMore(rules: WriteRules, items: Items, head: seq<Flat<WriteRequest>>, tail: seq<Flat<WriteRequest>>, budget: nat)
    requires |head| <= budget && WriteAll(rules, items, head).Ok?
    ensures WriteAll(rules, items, (head + tail)[..Min(budget, |head + tail|)])
         == WriteAll(rules, WriteAll(rules, items, head).value, tail[..Min(budget - |head|, |tail|)])
  {
    var m := Min(budget - |head|, |tail|);
    assert (head + tail)[..|head| + m] == head + tail[..m];
    WriteAllJoin(rules, items, head, tail[..m]);
  }

  // Conservation: the first 25 writes are carried out, the others come back in order.
  lemma WritesConserved(rules: WriteRules, items: Items, request: seq<TableWrites>)
    requires BatchWriteBy(rules, items, request).Ok?
    ensures var flat, r := Flatten(request), BatchWriteBy(rules, items, request).value;
      var n := Min(WRITE_LIMIT, |flat|);
      && WriteAll(rules, items, flat[..n]) == Ok(r.items)
      && Flatten(r.unprocessed) == flat[n..]
      && (|r.unprocessed| == 0 <==> |flat| <= WRITE_LIMIT)
  {
    FirstWritten(rules, items, request, WRITE_LIMIT);
    RestConserves(request, WRITE_LIMIT, ());
  }

  // ---------- sending again ----------

  // every table is there, and every write can be carried out on any items
  ghost predicate Valid(rules: WriteRules, request: seq<TableWrites>) {
    && (forall i | 0 <= i < |request| :: Present(rules, request[i].table))
    && Writable(rules, Flatten(request))
  }

  ghost predicate Present(rules: WriteRules, table: string) {
    rules.table(table).None? && rules.table(TrimSpace(table)).None?
  }

  ghost predicate Writable(rules: WriteRules, fs: seq<Flat<WriteRequest>>) {
    forall i, items: Items | 0 <= i < |fs| :: rules.write(items, fs[i]).Ok?
  }

  lemma {:induction false} WritableWrites(rules: WriteRules, items: Items, fs: seq<Flat<WriteRequest>>)
    requires Writable(rules, fs)
    ensures WriteAll(rules, items, fs).Ok?
    decreases |fs|
  {
    if |fs| > 0 {
      WritableWrites(rules, rules.write(items, fs[0]).value, fs[1..]);
    }
  }

  lemma {:induction false} ValidTables(rules: WriteRules, items: Items, request: seq<TableWrites>, budget: nat)
    requires Valid(rules, request)
    ensures WriteTables(rules, items, request, budget).Ok?
    decreases |request|
  {
    if |request| > 0 {
      var table, ws := TrimSpace(request[0].table), request[0].requests;
      var head, tail := FlatTable(table, ws), Flatten(request[1..]);
      var n := Min(budget, |ws|);
      assert Present(rules, request[0].table);
      WritableFirst(rules, head, tail, n);
      assert FlatTable(table, ws[..n]) == head[..n];
      WritableWrites(rules, items, head[..n]);
      if n == |ws| {
        ValidTables(rules, WriteAll(rules, items, head[..n]).value, request[1..], budget - n);
      }
    }
  }

  lemma WritableFirst(rules: WriteRules, head: seq<Flat<WriteRequest>>, tail: seq<Flat<WriteRequest>>, n: nat)
    requires n <= |head| && Writable(rules, head + tail)
    ensures Writable(rules, head[..n]) && Writable(rules, tail)
  {
    forall i, items: Items | 0 <= i < n ensures rules.write(items, head[..n][i]).Ok? {
      assert (head + tail)[i] == head[..n][i];
    }
    forall i, items: Items | 0 <= i < |tail| ensures rules.write(items, tail[i]).Ok? {
      assert (head + tail)[|head| + i] == tail[i];
    }
  }

  lemma {:induction false} RestTables(rules: WriteRules, request: seq<TableWrites>, budget: nat)
    requires forall i | 0 <= i < |request| :: Present(rules, request[i].table)
    ensures forall i | 0 <= i < |Rest(request, budget, ())| :: Present(rules, Rest(request, budget, ())[i].table)
    decreases |request|
  {
    if |request| > 0 {
      if |request[0].requests| <= budget {
        RestTables(rules, request[1..], budget - |request[0].requests|);
      } else {
        var rest := Rest(request, budget, ());
        assert rest[1..] == request[1..];
        assert Present(rules, request[0].table);
        assert TrimSpace(rest[0].table) == rest[0].table == TrimSpace(request[0].table);
        assert Present(rules, rest[0].table);
      }
    }
  }

  // What comes back of a valid batch is valid.
  lemma ValidBatch(rules: WriteRules, items: Items, request: seq<TableWrites>)
    requires |request| > 0 && Valid(rules, request)
    ensures var r := BatchWriteBy(rules, items, request);
      r.Ok? && Valid(rules, r.value.unprocessed)
  {
    ValidTables(rules, items, request, WRITE_LIMIT);
    RestTables(rules, request, WRITE_LIMIT);
    RestConserves(request, WRITE_LIMIT, ());
  }

  // A client that sends what came back until nothing does.
  function Drain(rules: WriteRules, items: Items, request: seq<TableWrites>): Items
    requires |request| > 0 && Valid(rules, request)
    decreases |Flatten(request)|
  {
    ValidBatch(rules, items, request);
    WritesConserved(rules, items, request);
    var r := BatchWriteBy(rules, items, request).value;
    if |r.unprocessed| == 0 then r.items else Drain(rules, r.items, r.unprocessed)
  }

  // It ends, with the items that all writes give one by one.
  lemma {:induction false} DrainWritesAll(rules: WriteRules, items: Items, request: seq<TableWrites>)
    requires |request| > 0 && Valid(rules, request)
    ensures WriteAll(rules, items, Flatten(request)) == Ok(Drain(rules, items, request))
    decreases |Flatten(request)|
  {
    ValidBatch(rules, items, request);
    WritesConserved(rules, items, request);
    var r := BatchWriteBy(rules, items, request).value;
    if |r.unprocessed| > 0 {
      DrainWritesAll(rules, r.items, r.unprocessed);
    }
    InTwoParts(rules, items, Flatten(request), Min(WRITE_LIMIT, |Flatten(request)|), r.items);
  }

  lemma InTwoParts(rules: WriteRules, items: Items, flat: seq<Flat<WriteRequest>>, n: nat, middle: Items)
    requires n <= |flat| && WriteAll(rules, items, flat[..n]) == Ok(middle)
    ensures WriteAll(rules, items, flat) == WriteAll(rules, middle, flat[n..])
  {
    assert flat == flat[..n] + flat[n..];
    WriteAllJoin(rules, items, flat[..n], flat[n..]);
  }

  // In terms of tables and keys: a batch is valid if its tables exist and its requests have keys.
  lemma {:induction false} KeyedIsValid(tables: Tables, request: seq<TableWrites>)
    requires forall i | 0 <= i < |request| :: FindTable(tables, request[i].table).Ok?
    requires forall i, j | 0 <= i < |request| && 0 <= j < |request[i].requests| ::
      WriteKey(FindTable(tables, request[i].table).value, request[i].requests[j]).Ok?
    ensures Valid(WriteRulesOf(tables), request)
  {
    if |request| > 0 {
      KeyedIsValid(tables, request[1..]);
      KeyedTable(tables, request[0]);
      WritableJoin(WriteRulesOf(tables), FlatTable(TrimSpace(request[0].table), request[0].requests), Flatten(request[1..]));
    }
  }

  lemma KeyedTable(tables: Tables, w: TableWrites)
    requires FindTable(tables, w.table).Ok?
    requires forall j | 0 <= j < |w.requests| :: WriteKey(FindTable(tables, w.table).value, w.requests[j]).Ok?
    ensures Writable(WriteRulesOf(tables), FlatTable(TrimSpace(w.table), w.requests))
  {
    var fs := FlatTable(TrimSpace(w.table), w.requests);
    forall i, items: Items | 0 <= i < |fs| ensures WriteRulesOf(tables).write(items, fs[i]).Ok? {
      assert FindTable(tables, fs[i].table) == FindTable(tables, w.table);
      assert WriteKey(FindTable(tables, w.table).value, w.requests[i]).Ok?;
    }
  }

  lemma WritableJoin(rules: WriteRules, a: seq<Flat<WriteRequest>>, b: seq<Flat<WriteRequest>>)
    requires Writable(rules, a) && Writable(rules, b)
    ensures Writable(rules, a + b)
  {
  }

  // ---------- reads ----------

  // options: whether the caller asked for a consistent read
  type TableReads = TableRequests<bool, Attributes>

  datatype TableItems = TableItems(table: string, items: seq<Item>)

  datatype ReadRules = ReadRules(
    table: string -> Option<Error>,
    read: Flat<Attributes> -> Result<Option<Item>, Error>)

  // one lookup in a named table
  function Found(tables: Tables, items: Items, f: Flat<Attributes>): Result<Option<Item>, Error> {
    match FindTable(tables, f.table)
    case Err(e) => Err(e)
    case Ok(t) =>
      match DocumentKey(t, f.request)
      case Err(e) => Err(e)
      case Ok(key) =>
        var id := ItemId(f.table, key);
        Ok(if id in items then Some(Item(f.table, key, items[id])) else None)
  }

  function ReadRulesOf(tables: Tables, items: Items): ReadRules {
    ReadRules(name => TableError(tables, name), f => Found(tables, items, f))
  }

  function Prepended(found: Option<Item>, items: seq<Item>): seq<Item> {
    if found.Some? then [found.value] + items else items
  }

  // the items found for a sequence of keys, in order
  function ReadAll(rules: ReadRules, fs: seq<Flat<Attributes>>): Result<seq<Item>, Error>
    decreases |fs|
  {
    if |fs| == 0 then Ok([])
    else
      match rules.read(fs[0])
      case Err(e) => Err(e)
      case Ok(found) =>
        match ReadAll(rules, fs[1..])
        case Err(e) => Err(e)
        case Ok(items) => Ok(Prepended(found, items))
  }

  function Response(table: string, items: seq<Item>): seq<TableItems> {
    if |items| == 0 then [] else [TableItems(table, items)]
  }

  // A table without any item found has no response.
  function ReadTables(rules: ReadRules, request: seq<TableReads>, budget: nat): Result<seq<TableItems>, Error>
    decreases |request|
  {
    if |request| == 0 then Ok([])
    else
      match rules.table(request[0].table)
      case Some(e) => Err(e)
      case None =>
        var table, keys := TrimSpace(request[0].table), request[0].requests;
        var n := Min(budget, |keys|);
        match ReadAll(rules, FlatTable(table, keys[..n]))
        case Err(e) => Err(e)
        case Ok(items) =>
          if n < |keys| then Ok(Response(table, items))
          else
            match ReadTables(rules, request[1..], budget - n)
            case Err(e) => Err(e)
            case Ok(more) => Ok(Response(table, items) + more)
  }

  datatype Reply = Reply(responses: seq<TableItems>, unprocessed: seq<TableReads>)

  function BatchGetBy(rules: ReadRules, request: seq<TableReads>): Result<Reply, Error> {
    if |request| == 0 then Err(RequestsRequired)
    else
      match ReadTables(rules, request, GET_LIMIT)
      case Err(e) => Err(e)
      case Ok(responses) => Ok(Reply(responses, Rest(request, GET_LIMIT, false)))
  }

  function BatchGet(tables: Tables, items: Items, request: seq<TableReads>): Result<Reply, Error> {
    BatchGetBy(ReadRulesOf(tables, items), request)
  }

  function AllItems(responses: seq<TableItems>): seq<Item> {
    if |responses| == 0 then [] else responses[0].items + AllItems(responses[1..])
  }

  lemma {:induction false} AllItemsJoin(a: seq<TableItems>, b: seq<TableItems>)
    ensures AllItems(a + b) == AllItems(a) + AllItems(b)
  {
    if |a| == 0 {
      assert a + b == b;
    } else {
      assert (a + b)[1..] == a[1..] + b;
      AllItemsJoin(a[1..], b);
    }
  }

  lemma {:induction false} ReadAllJoin(rules: ReadRules, a: seq<Flat<Attributes>>, b: seq<Flat<Attributes>>)
    requires ReadAll(rules, a).Ok? && ReadAll(rules, b).Ok?
    ensures ReadAll(rules, a + b) == Ok(ReadAll(rules, a).value + ReadAll(rules, b).value)
    decreases |a|
  {
    if |a| == 0 {
      assert a + b == b;
      assert ReadAll(rules, a).value + ReadAll(rules, b).value == ReadAll(rules, b).value;
    } else {
      assert (a + b)[1..] == a[1..] + b && (a + b)[0] == a[0];
      ReadAllJoin(rules, a[1..], b);
      var found, rest, more := rules.read(a[0]).value, ReadAll(rules, a[1..]).value, ReadAll(rules, b).value;
      assert Prepended(found, rest) + more == Prepended(found, rest + more);
    }
  }

  lemma ResponseItems(table: string, items: seq<Item>)
    ensures AllItems(Response(table, items)) == items
  {
    if |items| > 0 {
      assert Response(table, items)[1..] == [];
    }
  }

  lemma {:induction false} FirstRead(rules: ReadRules, request: seq<TableReads>, budget: nat)
    requires ReadTables(rules, request, budget).Ok?
    ensures var flat := Flatten(request);
      ReadAll(rules, flat[..Min(budget, |flat|)]) == Ok(AllItems(ReadTables(rules, request, budget).value))
    decreases |request|
  {
    if |request| > 0 {
      var table, keys := TrimSpace(request[0].table), request[0].requests;
      var n := Min(budget, |keys|);
      var head, tail := FlatTable(table, keys), Flatten(request[1..]);
      assert head[..n] == FlatTable(table, keys[..n]);
      var items := ReadAll(rules, head[..n]).value;
      ResponseItems(table, items);
      if n < |keys| {
        TakeJoin(head, tail, n);
      } else {
        assert head[..n] == head;
        FirstRead(rules, request[1..], budget - n);
        ReadAndMore(rules, head, tail, budget);
        AllItemsJoin(Response(table, items), ReadTables(rules, request[1..], budget - n).value);
      }
    }
  }

  lemma ReadAndMore(rules: ReadRules, head: seq<Flat<Attributes>>, tail: seq<Flat<Attributes>>, budget: nat)
    requires |head| <= budget && ReadAll(rules, head).Ok?
    requires ReadAll(rules, tail[..Min(budget - |head|, |tail|)]).Ok?
    ensures ReadAll(rules, (head + tail)[..Min(budget, |head + tail|)])
         == Ok(ReadAll(rules, head).value + ReadAll(rules, tail[..Min(budget - |head|, |tail|)]).value)
  {
    var m := Min(budget - |head|, |tail|);
    assert (head + tail)[..|head| + m] == head + tail[..m];
    ReadAllJoin(rules, head, tail[..m]);
  }

  // The first 100 keys are looked up, in order; the others come back in order.
  lemma ReadsConserved(rules: ReadRules, request: seq<TableReads>)
    requires BatchGetBy(rules, request).Ok?
    ensures var flat, r := Flatten(request), BatchGetBy(rules, request).value;
      var n := Min(GET_LIMIT, |flat|);
      && ReadAll(rules, flat[..n]) == Ok(AllItems(r.responses))
      && Flatten(r.unprocessed) == flat[n..]
      && (|r.unprocessed| == 0 <==> |flat| <= GET_LIMIT)
  {
    FirstRead(rules, request, GET_LIMIT);
    RestConserves(request, GET_LIMIT, false);
  }

  // The items a client collects that asks again for the keys that came back, while it gets answers.
  function Collect(rules: ReadRules, request: seq<TableReads>): Result<seq<Item>, Error>
    requires |request| > 0
    decreases |Flatten(request)|
  {
    match BatchGetBy(rules, request)
    case Err(e) => Err(e)
    case Ok(r) =>
      ReadsConserved(rules, request);
      if |r.unprocessed| == 0 then Ok(AllItems(r.responses))
      else
        match Collect(rules, r.unprocessed)
        case Err(e) => Err(e)
        case Ok(more) => Ok(AllItems(r.responses) + more)
  }

  // It ends, with the in-order lookups of all keys.
  lemma {:induction false} CollectReadsAll(rules: ReadRules, request: seq<TableReads>)
    requires |request| > 0 && Collect(rules, request).Ok?
    ensures ReadAll(rules, Flatten(request)) == Collect(rules, request)
    decreases |Flatten(request)|
  {
    hide ReadAll, BatchGetBy, Flatten, AllItems;
    ReadsConserved(rules, request);
    var r, flat := BatchGetBy(rules, request).value, Flatten(request);
    var n := Min(GET_LIMIT, |flat|);
    if |r.unprocessed| > 0 {
      CollectReadsAll(rules, r.unprocessed);
      assert flat == flat[..n] + flat[n..];
      ReadAllJoin(rules, flat[..n], flat[n..]);
    } else {
      assert flat[..n] == flat;
    }
  }

  // ---------- options of requests that come back ----------

  // the options of each request of the flattened sequence
  function Options<O, R>(request: seq<TableRequests<O, R>>): seq<O> {
    if |request| == 0 then []
    else seq(|request[0].requests|, i => request[0].options) + Options(request[1..])
  }

  // the options of the table that exhausts the budget
  function Exhausting<O, R>(request: seq<TableRequests<O, R>>, budget: nat): Option<O> {
    if |request| == 0 then None
    else if |request[0].requests| <= budget then Exhausting(request[1..], budget - |request[0].requests|)
    else Some(request[0].options)
  }

  // Requests come back with their options exactly if the table that exhausts the budget had the rebuilt ones:
  // a consistent read is forgotten.
  lemma {:induction false} OptionsKeptIff<O, R>(request: seq<TableRequests<O, R>>, budget: nat, rebuilt: O)
    ensures var n := Min(budget, |Options(request)|);
      Options(Rest(request, budget, rebuilt)) == Options(request)[n..] <==>
        Exhausting(request, budget) in {None, Some(rebuilt)}
    decreases |request|
  {
    if |request| > 0 {
      var n := |request[0].requests|;
      var head, tail := seq(n, i => request[0].options), Options(request[1..]);
      if n <= budget {
        OptionsKeptIff(request[1..], budget - n, rebuilt);
        TakeJoin(head, tail, n + Min(budget - n, |tail|));
      } else {
        TakeJoin(head, tail, budget);
        var rest := Rest(request, budget, rebuilt);
        assert rest[1..] == request[1..];
        var first := seq(|rest[0].requests|, i => rest[0].options);
        assert Options(rest) == first + tail;
        assert (head + tail)[budget..] == head[budget..] + tail;
        assert (first + tail)[0] == rebuilt && (head[budget..] + tail)[0] == request[0].options;
        if rebuilt == request[0].options {
          assert first == head[budget..];
        }
      }
    }
  }

  lemma {:induction false} ReadAllOk(rules: ReadRules, fs: seq<Flat<Attributes>>)
    requires forall i | 0 <= i < |fs| :: rules.read(fs[i]).Ok?
    ensures ReadAll(rules, fs).Ok?
    decreases |fs|
  {
    if |fs| > 0 {
      assert forall i | 0 <= i < |fs| - 1 :: fs[1..][i] == fs[i + 1];
      ReadAllOk(rules, fs[1..]);
    }
  }

  // A consistent read of more than 100 keys of a table gets the rest of its keys back as an ordinary read.
  lemma ConsistencyForgotten(tables: Tables, items: Items, table: string, keys: seq<Attributes>)
    requires FindTable(tables, table).Ok? && |keys| > GET_LIMIT
    requires forall i | 0 <= i < |keys| :: DocumentKey(FindTable(tables, table).value, keys[i]).Ok?
    ensures var r := BatchGet(tables, items, [TableRequests(table, true, keys)]);
      r.Ok? && r.value.unprocessed == [TableRequests(TrimSpace(table), false, keys[GET_LIMIT..])]
  {
    var rules, request := ReadRulesOf(tables, items), [TableRequests(table, true, keys)];
    var flat := FlatTable(TrimSpace(table), keys[..GET_LIMIT]);
    assert TrimSpace(TrimSpace(table)) == TrimSpace(table);
    hide TrimSpace, DocumentKey, ReadAll;
    forall i | 0 <= i < |flat| ensures rules.read(flat[i]).Ok? {
    }
    ReadAllOk(rules, flat);
    assert request[1..] == [];
    assert rules.table(table) == None;
  }
}
