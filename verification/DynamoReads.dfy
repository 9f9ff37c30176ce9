/** Query and Scan: the items that satisfy the key condition, in order, page by page. */
module DynamoReads {
  import opened Wrappers
  import opened Strings
  import opened DynamoValues
  import opened DynamoModel
  import opened DynamoOrder
  import opened DynamoPaging
  import opened DynamoState
  import opened KeyedSeq
  import opened KeyedListing
  import StableSort

  // ---------- conditions ----------

  datatype Comparison = Equal | NotEqual | Below | NotAbove | Above | NotBelow

  predicate Compares(parse: Parse, op: Comparison, l: AttributeValue, r: AttributeValue) {
    match op
    case Equal => Equals(l, r)
    case NotEqual => !Equals(l, r)
    case Below => CompareValues(parse, l, r) < 0
    case NotAbove => CompareValues(parse, l, r) <= 0
    case Above => CompareValues(parse, l, r) > 0
    case NotBelow => CompareValues(parse, l, r) >= 0
  }

  predicate BeginsWith(l: AttributeValue, r: AttributeValue) {
    l.S.Some? && r.S.Some? && r.S.value <= l.S.value
  }

  datatype SortPredicate =
    | AnySort | Prefix(value: AttributeValue) | Between(low: AttributeValue, high: AttributeValue)
    | Compare(op: Comparison, value: AttributeValue)

  // A plan without a sort key name accepts every item of the partition.
  datatype Plan = Plan(partitionKey: string, partition: AttributeValue, sortKey: string, sort: SortPredicate)

  predicate SortMatches(parse: Parse, sort: SortPredicate, v: AttributeValue) {
    match sort
    case AnySort => true
    case Prefix(value) => BeginsWith(v, value)
    case Between(low, high) => CompareValues(parse, v, low) >= 0 && CompareValues(parse, v, high) <= 0
    case Compare(op, value) => Compares(parse, op, v, value)
  }

  // queryPlan.matches
  predicate Matches(parse: Parse, plan: Plan, item: Item) {
    && plan.partitionKey in item.attributes
    && Equals(item.attributes[plan.partitionKey], plan.partition)
    && (plan.sortKey == "" ||
        (plan.sortKey in item.attributes && SortMatches(parse, plan.sort, item.attributes[plan.sortKey])))
  }

  datatype Clause =
    | Exists(path: string) | NotExists(path: string) | HasPrefix(path: string, value: AttributeValue)
    | Comparing(path: string, op: Comparison, value: AttributeValue)

  // filterClause.matches
  predicate ClauseHolds(parse: Parse, clause: Clause, item: Item) {
    var present := clause.path in item.attributes;
    match clause
    case Exists(path) => present
    case NotExists(path) => !present
    case HasPrefix(path, value) => present && BeginsWith(item.attributes[path], value)
    case Comparing(path, op, value) => present && Compares(parse, op, item.attributes[path], value)
  }

  predicate Passes(parse: Parse, clauses: seq<Clause>, item: Item) {
    forall i | 0 <= i < |clauses| :: ClauseHolds(parse, clauses[i], item)
  }

  // cloneProjectedItem; no names stand for all attributes
  function Projected(names: seq<string>, item: Item): Item {
    if |names| == 0 then item
    else item.(attributes := map name | name in item.attributes && name in names :: item.attributes[name])
  }

  function ReaderOf(parse: Parse, names: seq<string>, clauses: seq<Clause>, projection: seq<string>): Reader {
    Reader(names, item => Passes(parse, clauses, item), item => Projected(projection, item))
  }

  // ---------- candidates ----------

  function Candidates(parse: Parse, plan: Plan, items: seq<Item>): seq<Item> {
    if |items| == 0 then []
    else
      var last := items[|items| - 1];
      Candidates(parse, plan, items[..|items| - 1]) + (if Matches(parse, plan, last) then [last] else [])
  }

  lemma {:induction false} CandidatesMatch(parse: Parse, plan: Plan, items: seq<Item>)
    requires Unique(ItemIdOf, items)
    ensures Unique(ItemIdOf, Candidates(parse, plan, items))
    ensures forall x :: x in Candidates(parse, plan, items) <==> x in items && Matches(parse, plan, x)
  {
    if |items| > 0 {
      var n := |items| - 1;
      CandidatesMatch(parse, plan, items[..n]);
      assert items == items[..n] + [items[n]];
      var before := Candidates(parse, plan, items[..n]);
      forall i | 0 <= i < |before| ensures ItemIdOf(before[i]) != ItemIdOf(items[n]) {
        assert before[i] in before;
        var j :| 0 <= j < n && items[..n][j] == before[i];
        assert ItemIdOf(items[j]) != ItemIdOf(items[n]);
      }
    }
  }

  // the ordered result of a query, before paging
  function Selected(parse: Parse, target: Target, plan: Plan, items: seq<Item>, forward: bool): seq<Item> {
    Ordered(parse, KeyNames(target), Candidates(parse, plan, ListItems(items, target.table.name)), forward)
  }

  // ---------- whole queries ----------

  // The item is stored under its record key and carries the target's key attributes, well-formed.
  ghost predicate KeyedItem(target: Target, x: Item) {
    && RecordKey(target.table, x.attributes) == Ok(x.key)
    && forall name | name in KeyNames(target) :: name in x.attributes && WellFormed(x.attributes[name])
  }

  // What a query reads is keyed. (An item that the plan does not match may lack the keys of an index.)
  ghost predicate CandidatesKeyed(parse: Parse, target: Target, plan: Plan, items: seq<Item>) {
    forall x | x in items && x.table == target.table.name && Matches(parse, plan, x) :: KeyedItem(target, x)
  }

  ghost predicate SoundTarget(target: Target) {
    && Trimmed(target.table.partitionKey) && target.table.partitionKey != ""
    && Trimmed(target.table.sortKey)
    && (target.index.None? ==> target.partitionKey == target.table.partitionKey && target.sortKey == target.table.sortKey)
  }

  lemma SelectedMembers(parse: Parse, target: Target, plan: Plan, items: seq<Item>, forward: bool)
    requires Unique(ItemIdOf, items)
    ensures var r := Selected(parse, target, plan, items, forward);
      && DistinctItems(r)
      && forall x :: x in r <==> x in items && x.table == target.table.name && Matches(parse, plan, x)
  {
    var listed := ListItems(items, target.table.name);
    ListingOfTable(items, target.table.name);
    CandidatesMatch(parse, plan, listed);
    var candidates := Candidates(parse, plan, listed);
    var r := Selected(parse, target, plan, items, forward);
    assert multiset(r) == multiset(candidates);
    StableSort.SameElements(r, candidates);
    PermutedDistinct(r, candidates);
  }

  lemma PermutedDistinct(a: seq<Item>, b: seq<Item>)
    requires multiset(a) == multiset(b) && Unique(ItemIdOf, b)
    ensures DistinctItems(a)
  {
    StableSort.SameElements(a, b);
    forall i, j | 0 <= i < j < |a| ensures ItemIdOf(a[i]) != ItemIdOf(a[j]) {
      assert a[i] in b && a[j] in b;
      var k :| 0 <= k < |b| && b[k] == a[i];
      var l :| 0 <= l < |b| && b[l] == a[j];
      if k == l {
        StableSort.Twice(a, i, j);
        UniqueIsDistinct(b);
        OnceAtMost(ItemTable, ItemKey, b, a[i]);
      }
    }
  }

  // When the candidates of a query are stored under their record keys, a client that follows its cursors with any
  // limit sees exactly what the unpaged query answers, in the same order, with every candidate scanned once.
  lemma QueryPages(parse: Parse, target: Target, plan: Plan, clauses: seq<Clause>, projection: seq<string>,
                   items: seq<Item>, forward: bool, limit: int) returns (pages: seq<Page>)
    requires Unique(ItemIdOf, items) && SoundTarget(target) && CandidatesKeyed(parse, target, plan, items) && limit > 0
    ensures var reader := ReaderOf(parse, KeyNames(target), clauses, projection);
      var selected := Selected(parse, target, plan, items, forward);
      && IsRun(reader, selected, limit, map[], pages)
      && Read(reader, selected, map[], None) == Ok(Page(AllItems(pages), |selected|, None))
      && ScannedCount(pages) == |selected|
  {
    var reader := ReaderOf(parse, KeyNames(target), clauses, projection);
    var selected := Selected(parse, target, plan, items, forward);
    SelectedMembers(parse, target, plan, items, forward);
    KeyedSound(target, selected);
    pages := PagesComplete(reader, selected, limit);
  }

  lemma KeyedSound(target: Target, selected: seq<Item>)
    requires SoundTarget(target) && DistinctItems(selected)
    requires forall x | x in selected :: x.table == target.table.name && KeyedItem(target, x)
    ensures CursorsSound(KeyNames(target), selected)
  {
    TableKeysNamed(target);
    assert target.table.partitionKey in KeyNames(target);
    StoredByKeySound(target.table, KeyNames(target), selected);
  }

  // The same for a scan, which takes the items of the table in the order of their keys.
  lemma ScanPages(parse: Parse, target: Target, clauses: seq<Clause>, items: seq<Item>, limit: int) returns (pages: seq<Page>)
    requires Unique(ItemIdOf, items) && SoundTarget(target) && target.index.None? && limit > 0
    requires forall x | x in items && x.table == target.table.name :: KeyedItem(target, x)
    ensures var reader := ReaderOf(parse, KeyNames(target), clauses, []);
      var listed := ListItems(items, target.table.name);
      && IsRun(reader, listed, limit, map[], pages)
      && Read(reader, listed, map[], None) == Ok(Page(AllItems(pages), |listed|, None))
      && ScannedCount(pages) == |listed|
  {
    var listed := ListItems(items, target.table.name);
    ListingOfTable(items, target.table.name);
    KeyedSound(target, listed);
    pages := PagesComplete(ReaderOf(parse, KeyNames(target), clauses, []), listed, limit);
  }

  // ---------- requests ----------

  // The expressions as parsed, or the error in their text; the index the request names, if there is one of that name.
  datatype QueryRequest = QueryRequest(
    table: string, index: Result<Option<SecondaryIndex>, ReadError>, plan: Result<Plan, ReadError>,
    clauses: Result<seq<Clause>, ReadError>, projection: Result<seq<string>, ReadError>,
    cursor: Attributes, limit: Option<int>, forward: bool)

  // resolveQueryTarget
  function TargetOf(t: Table, index: Option<SecondaryIndex>): Target {
    match index
    case None => Target(t, None, t.partitionKey, t.sortKey)
    case Some(i) => Target(t, index, i.hash, i.range)
  }

  // The start is located before the filter and the projection are read.
  function Query(parse: Parse, t: Table, items: seq<Item>, request: QueryRequest): Result<Page, ReadError> {
    if request.index.Err? then Err(request.index.error)
    else if request.plan.Err? then Err(request.plan.error)
    else
      var target := TargetOf(t, request.index.value);
      var selected := Selected(parse, target, request.plan.value, items, request.forward);
      match Locate(KeyNames(target), selected, request.cursor)
      case Err(e) => Err(e)
      case Ok(start) =>
        if request.clauses.Err? then Err(request.clauses.error)
        else if request.projection.Err? then Err(request.projection.error)
        else
          PageFrom(ReaderOf(parse, KeyNames(target), request.clauses.value, request.projection.value),
                   selected, start, request.limit)
  }

  function Scan(parse: Parse, t: Table, items: seq<Item>, clauses: Result<seq<Clause>, ReadError>,
                cursor: Attributes, limit: Option<int>): Result<Page, ReadError>
  {
    var names, listed := KeyNames(TargetOf(t, None)), ListItems(items, t.name);
    match Locate(names, listed, cursor)
    case Err(e) => Err(e)
    case Ok(start) =>
      if clauses.Err? then Err(clauses.error)
      else PageFrom(ReaderOf(parse, names, clauses.value, []), listed, start, limit)
  }

  // ---------- the loops ----------

  // uniqueStrings
  method Unify(values: seq<string>) returns (unique: seq<string>)
    ensures unique == UniqueStrings(values)
  {
    var seen: set<string> := {};
    unique := [];
    for i := 0 to |values|
      invariant unique == UniqueStrings(values[..i])
      invariant forall name :: name in seen <==> name in unique
    {
      assert values[..i + 1][..i] == values[..i];
      var value := TrimSpace(values[i]);
      if value != "" && value !in seen {
        seen := seen + {value};
        unique := unique + [value];
      }
    }
    assert values[..|values|] == values;
  }

  // the items that satisfy the plan
  method Filter(parse: Parse, plan: Plan, items: seq<Item>) returns (candidates: seq<Item>)
    ensures candidates == Candidates(parse, plan, items)
  {
    candidates := [];
    for i := 0 to |items|
      invariant candidates == Candidates(parse, plan, items[..i])
    {
      assert items[..i + 1][..i] == items[..i];
      if Matches(parse, plan, items[i]) {
        candidates := candidates + [items[i]];
      }
    }
    assert items[..|items|] == items;
  }

  // locateExclusiveStartKey
  method LocateStart(names: seq<string>, items: seq<Item>, cursor: Attributes) returns (r: Result<nat, ReadError>)
    ensures r == Locate(names, items, cursor)
  {
    if |cursor| == 0 {
      return Ok(0);
    }
    var key := Normalized(names, cursor);
    if key.Err? {
      return Err(key.error);
    }
    for i := 0 to |items|
      invariant LocateFrom(names, items, key.value, 0) == LocateFrom(names, items, key.value, i)
    {
      var document := KeyDocument(names, items[i]);
      if document.Err? {
        return Err(document.error);
      }
      if DocumentsEqual(document.value, key.value) {
        return Ok(i + 1);
      }
    }
    r := Err(StartNotFound);
  }

  // pageReadItems
  method ReadPage(reader: Reader, items: seq<Item>, start: nat, limit: Option<int>) returns (r: Result<Page, ReadError>)
    requires start <= |items|
    ensures r == PageFrom(reader, items, start, limit)
  {
    if limit.Some? && limit.value <= 0 {
      return Err(InvalidLimit);
    }
    if start == |items| {
      return Ok(Page([], 0, None));
    }
    var end := |items|;
    if limit.Some? && start + limit.value < end {
      end := start + limit.value;
    }
    var picked: seq<Item> := [];
    var scanned := 0;
    for i := start to end
      invariant scanned == i - start && picked == Picked(reader, items[start..i])
    {
      assert items[start..i + 1][..i - start] == items[start..i];
      scanned := scanned + 1;
      if reader.filter(items[i]) {
        picked := picked + [reader.project(items[i])];
      }
    }
    if end < |items| {
      var cursor := KeyDocument(reader.names, items[end - 1]);
      if cursor.Err? {
        return Err(cursor.error);
      }
      return Ok(Page(picked, scanned, Some(cursor.value)));
    }
    r := Ok(Page(picked, scanned, None));
  }
}
