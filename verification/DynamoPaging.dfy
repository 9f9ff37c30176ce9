/** Pages of a query or scan: where a page starts, what it holds, and what a client sees that follows the
    cursors from page to page. */
module DynamoPaging {
  import opened Wrappers
  import opened Strings
  import opened DynamoValues
  import opened DynamoModel
  import opened DynamoOrder

  // names: the key attributes of the target; filter and project: the parsed expressions
  datatype Reader = Reader(names: seq<string>, filter: Item -> bool, project: Item -> Item)

  datatype ReadError =
    | InvalidLimit | NoKeyAttributes | MissingAttribute | UnsupportedAttributes | StartNotFound
    | BadTable(error: Error) | IndexNotFound | BadExpression

  // The cursor is absent on the last page.
  datatype Page = Page(items: seq<Item>, scanned: nat, cursor: Option<Attributes>)

  // ---------- cursors ----------

  // keyAttributesForItem
  function KeyDocument(names: seq<string>, item: Item): (r: Result<Attributes, ReadError>)
    ensures r.Ok? ==> r.value.Keys == set name | name in names
    ensures r.Ok? ==> r.value != map[]
  {
    if |names| == 0 then Err(NoKeyAttributes)
    else if exists name | name in names :: name !in item.attributes then Err(MissingAttribute)
    else
      var document := map name | name in names :: item.attributes[name];
      assert names[0] in document;
      Ok(document)
  }

  // normalizeKeyAttributes, of a cursor that is not empty
  function Normalized(names: seq<string>, cursor: Attributes): Result<Attributes, ReadError> {
    if |cursor| != |names| then Err(UnsupportedAttributes)
    else if exists name | name in names :: name !in cursor then Err(MissingAttribute)
    else Ok(map name | name in names :: cursor[name])
  }

  // the position after the first item with this key document
  function LocateFrom(names: seq<string>, items: seq<Item>, key: Attributes, i: nat): (r: Result<nat, ReadError>)
    requires i <= |items|
    ensures r.Ok? ==> i < r.value <= |items|
    decreases |items| - i
  {
    if i == |items| then Err(StartNotFound)
    else
      match KeyDocument(names, items[i])
      case Err(e) => Err(e)
      case Ok(document) => if DocumentsEqual(document, key) then Ok(i + 1) else LocateFrom(names, items, key, i + 1)
  }

  // locateExclusiveStartKey
  function Locate(names: seq<string>, items: seq<Item>, cursor: Attributes): (r: Result<nat, ReadError>)
    ensures r.Ok? ==> r.value <= |items|
  {
    if |cursor| == 0 then Ok(0)
    else
      match Normalized(names, cursor)
      case Err(e) => Err(e)
      case Ok(key) => LocateFrom(names, items, key, 0)
  }

  // ---------- one page ----------

  function Picked(reader: Reader, items: seq<Item>): seq<Item> {
    if |items| == 0 then []
    else
      var last := items[|items| - 1];
      Picked(reader, items[..|items| - 1]) + (if reader.filter(last) then [reader.project(last)] else [])
  }

  function PageEnd(items: seq<Item>, start: nat, limit: int): (end: nat)
    requires start < |items| && limit > 0
    ensures start < end <= |items|
  {
    if start + limit < |items| then start + limit else |items|
  }

  // pageReadItems; no limit stands for an unbounded page
  function PageFrom(reader: Reader, items: seq<Item>, start: nat, limit: Option<int>): (r: Result<Page, ReadError>)
    requires start <= |items|
  {
    if limit.Some? && limit.value <= 0 then Err(InvalidLimit)
    else if start == |items| then Ok(Page([], 0, None))
    else
      var end := if limit.Some? then PageEnd(items, start, limit.value) else |items|;
      var picked := Picked(reader, items[start..end]);
      if end == |items| then Ok(Page(picked, end - start, None))
      else
        match KeyDocument(reader.names, items[end - 1])
        case Err(e) => Err(e)
        case Ok(cursor) => Ok(Page(picked, end - start, Some(cursor)))
  }

  // one request
  function Read(reader: Reader, items: seq<Item>, cursor: Attributes, limit: Option<int>): Result<Page, ReadError> {
    match Locate(reader.names, items, cursor)
    case Err(e) => Err(e)
    case Ok(start) => PageFrom(reader, items, start, limit)
  }

  // ---------- following the cursors ----------

  // The pages of a client that asks with a limit from a cursor on, until a page has no cursor.
  ghost predicate IsRun(reader: Reader, items: seq<Item>, limit: int, cursor: Attributes, pages: seq<Page>)
    decreases |pages|
  {
    && |pages| > 0
    && Read(reader, items, cursor, Some(limit)) == Ok(pages[0])
    && (if pages[0].cursor.None? then |pages| == 1
        else IsRun(reader, items, limit, pages[0].cursor.value, pages[1..]))
  }

  function AllItems(pages: seq<Page>): seq<Item> {
    if |pages| == 0 then [] else pages[0].items + AllItems(pages[1..])
  }

  function ScannedCount(pages: seq<Page>): nat {
    if |pages| == 0 then 0 else pages[0].scanned + ScannedCount(pages[1..])
  }

  // Every item but the last has a key document that is found at its position only.
  ghost predicate CursorsSound(names: seq<string>, items: seq<Item>) {
    forall p | 0 <= p < |items| - 1 :: CursorSound(names, items, p)
  }

  ghost predicate CursorSound(names: seq<string>, items: seq<Item>, p: nat)
    requires p < |items|
  {
    && KeyDocument(names, items[p]).Ok?
    && var document := KeyDocument(names, items[p]).value;
       && DocumentsEqual(document, document)
       && forall q | 0 <= q < p ::
            KeyDocument(names, items[q]).Ok? && !DocumentsEqual(KeyDocument(names, items[q]).value, document)
  }

  lemma {:induction false} NamesCounted(names: seq<string>)
    requires NoDuplicates(names)
    ensures |set name | name in names| == |names|
  {
    var s := set name | name in names;
    if |names| > 0 {
      var n := |names| - 1;
      NamesCounted(names[..n]);
      var t := set name | name in names[..n];
      assert names == names[..n] + [names[n]];
      assert names[n] !in names[..n];
      assert s == t + {names[n]};
    }
  }

  // A key document is a cursor that stays as it is.
  lemma DocumentNormalized(names: seq<string>, item: Item)
    requires NoDuplicates(names) && KeyDocument(names, item).Ok?
    ensures Normalized(names, KeyDocument(names, item).value) == KeyDocument(names, item)
    ensures |KeyDocument(names, item).value| > 0
  {
    NamesCounted(names);
    var d := KeyDocument(names, item).value;
    assert |d| == |d.Keys|;
    assert (map name | name in names :: d[name]) == d;
  }

  lemma {:induction false} LocatedFrom(names: seq<string>, items: seq<Item>, key: Attributes, i: nat, p: nat)
    requires i <= p < |items|
    ensures LocateFrom(names, items, key, i) == Ok(p + 1) <==>
      && (forall q | i <= q <= p :: KeyDocument(names, items[q]).Ok?)
      && DocumentsEqual(KeyDocument(names, items[p]).value, key)
      && (forall q | i <= q < p :: !DocumentsEqual(KeyDocument(names, items[q]).value, key))
    decreases p - i
  {
    if i < p {
      LocatedFrom(names, items, key, i + 1, p);
    }
  }

  // A cursor is sound exactly if it leads back to the position after its item.
  lemma SoundIsLocated(names: seq<string>, items: seq<Item>, p: nat)
    requires NoDuplicates(names) && p < |items| && KeyDocument(names, items[p]).Ok?
    ensures CursorSound(names, items, p) <==> Locate(names, items, KeyDocument(names, items[p]).value) == Ok(p + 1)
  {
    var document := KeyDocument(names, items[p]).value;
    DocumentNormalized(names, items[p]);
    LocatedFrom(names, items, document, 0, p);
  }

  // ---------- sound cursors make complete runs ----------

  lemma {:induction false} PickedJoin(reader: Reader, a: seq<Item>, b: seq<Item>)
    ensures Picked(reader, a + b) == Picked(reader, a) + Picked(reader, b)
  {
    if |b| == 0 {
      assert a + b == a;
    } else {
      var n := |b| - 1;
      assert (a + b)[..|a + b| - 1] == a + b[..n] && (a + b)[|a + b| - 1] == b[n];
      PickedJoin(reader, a, b[..n]);
    }
  }

  // One page, and where its cursor leads.
  lemma OnePage(reader: Reader, items: seq<Item>, limit: int, start: nat) returns (page: Page, end: nat)
    requires NoDuplicates(reader.names) && CursorsSound(reader.names, items) && limit > 0 && start <= |items|
    ensures PageFrom(reader, items, start, Some(limit)) == Ok(page)
    ensures start <= end <= |items| && page.items == Picked(reader, items[start..end]) && page.scanned == end - start
    ensures page.cursor.None? <==> end == |items|
    ensures page.cursor.Some? ==> start < end && Locate(reader.names, items, page.cursor.value) == Ok(end)
  {
    hide Locate;
    end := if start == |items| then start else PageEnd(items, start, limit);
    if end < |items| {
      assert CursorSound(reader.names, items, end - 1);
      SoundIsLocated(reader.names, items, end - 1);
      page := Page(Picked(reader, items[start..end]), end - start, Some(KeyDocument(reader.names, items[end - 1]).value));
    } else {
      page := Page(Picked(reader, items[start..end]), end - start, None);
    }
  }

  lemma {:induction false} RunFrom(reader: Reader, items: seq<Item>, limit: int, cursor: Attributes, start: nat)
    returns (pages: seq<Page>)
    requires NoDuplicates(reader.names) && CursorsSound(reader.names, items) && limit > 0
    requires start <= |items| && Locate(reader.names, items, cursor) == Ok(start)
    ensures IsRun(reader, items, limit, cursor, pages)
    ensures AllItems(pages) == Picked(reader, items[start..]) && ScannedCount(pages) == |items| - start
    decreases |items| - start
  {
    var page, end := OnePage(reader, items, limit, start);
    var more := [];
    if page.cursor.Some? {
      more := RunFrom(reader, items, limit, page.cursor.value, end);
      SplitPicked(reader, items, start, end);
    } else {
      assert items[start..end] == items[start..];
    }
    pages := [page] + more;
    RunStarts(reader, items, limit, cursor, page, more);
  }

  lemma SplitPicked(reader: Reader, items: seq<Item>, start: nat, end: nat)
    requires start <= end <= |items|
    ensures Picked(reader, items[start..]) == Picked(reader, items[start..end]) + Picked(reader, items[end..])
  {
    assert items[start..] == items[start..end] + items[end..];
    PickedJoin(reader, items[start..end], items[end..]);
  }

  lemma RunStarts(reader: Reader, items: seq<Item>, limit: int, cursor: Attributes, page: Page, more: seq<Page>)
    requires Read(reader, items, cursor, Some(limit)) == Ok(page)
    requires if page.cursor.None? then more == [] else IsRun(reader, items, limit, page.cursor.value, more)
    ensures IsRun(reader, items, limit, cursor, [page] + more)
    ensures AllItems([page] + more) == page.items + AllItems(more)
    ensures ScannedCount([page] + more) == page.scanned + ScannedCount(more)
  {
    assert ([page] + more)[1..] == more;
  }

  // There is one run only.
  lemma {:induction false} RunUnique(reader: Reader, items: seq<Item>, limit: int, cursor: Attributes, a: seq<Page>, b: seq<Page>)
    requires IsRun(reader, items, limit, cursor, a) && IsRun(reader, items, limit, cursor, b)
    ensures a == b
    decreases |a|
  {
    if a[0].cursor.Some? {
      RunUnique(reader, items, limit, a[0].cursor.value, a[1..], b[1..]);
    }
    assert a == [a[0]] + a[1..] && b == [b[0]] + b[1..];
  }

  // With sound cursors a client with any positive limit comes to an end and has seen what the unpaged request
  // answers, in the same order, with every item scanned once.
  lemma PagesComplete(reader: Reader, items: seq<Item>, limit: int) returns (pages: seq<Page>)
    requires NoDuplicates(reader.names) && CursorsSound(reader.names, items) && limit > 0
    ensures IsRun(reader, items, limit, map[], pages)
    ensures Read(reader, items, map[], None) == Ok(Page(AllItems(pages), ScannedCount(pages), None))
    ensures ScannedCount(pages) == |items|
  {
    pages := RunFrom(reader, items, limit, map[], 0);
    Unpaged(reader, items);
  }

  lemma Unpaged(reader: Reader, items: seq<Item>)
    ensures items[0..] == items
    ensures Read(reader, items, map[], None) == Ok(Page(Picked(reader, items), |items|, None))
  {
    assert items[0..|items|] == items;
  }

  // ---------- complete runs need sound cursors ----------

  ghost predicate Everything(reader: Reader) {
    forall item :: reader.filter(item) && reader.project(item) == item
  }

  lemma {:induction false} PickedEverything(reader: Reader, items: seq<Item>)
    requires Everything(reader)
    ensures Picked(reader, items) == items
  {
    if |items| > 0 {
      PickedEverything(reader, items[..|items| - 1]);
      assert items == items[..|items| - 1] + [items[|items| - 1]];
    }
  }

  // Some run with this limit shows all items in order.
  ghost predicate ShowsAll(reader: Reader, items: seq<Item>, limit: int) {
    exists pages :: IsRun(reader, items, limit, map[], pages) && AllItems(pages) == items
  }

  lemma FirstCursor(reader: Reader, items: seq<Item>, p: nat, pages: seq<Page>)
    requires NoDuplicates(reader.names) && Everything(reader) && DistinctItems(items) && p < |items| - 1
    requires IsRun(reader, items, p + 1, map[], pages) && AllItems(pages) == items
    ensures CursorSound(reader.names, items, p)
  {
    var document := KeyDocument(reader.names, items[p]);
    assert Locate(reader.names, items, map[]) == Ok(0);
    assert pages[0] == Page(Picked(reader, items[0..p + 1]), p + 1, Some(document.value));
    PickedEverything(reader, items[0..p + 1]);
    var start := Locate(reader.names, items, document.value);
    assert Read(reader, items, document.value, Some(p + 1)) == Ok(pages[1..][0]);
    assert AllItems(pages) == items[..p + 1] + AllItems(pages[1..]);
    assert AllItems(pages[1..]) == items[p + 1..];
    SecondPage(reader, items, p, start.value, pages[1..]);
    SoundIsLocated(reader.names, items, p);
  }

  lemma SecondPage(reader: Reader, items: seq<Item>, p: nat, start: nat, rest: seq<Page>)
    requires Everything(reader) && DistinctItems(items) && p < |items| - 1 && start <= |items|
    requires |rest| > 0 && PageFrom(reader, items, start, Some(p + 1)) == Ok(rest[0])
    requires rest[0].cursor.None? ==> |rest| == 1
    requires AllItems(rest) == items[p + 1..]
    ensures start == p + 1
  {
    if start < |items| {
      var end := PageEnd(items, start, p + 1);
      PickedEverything(reader, items[start..end]);
      assert AllItems(rest)[0] == rest[0].items[0] == items[start];
      assert items[p + 1..][0] == items[p + 1];
    }
  }

  // Following the cursors shows all items for every limit exactly if the cursors are sound.
  lemma PagingWorksIff(reader: Reader, items: seq<Item>)
    requires NoDuplicates(reader.names) && Everything(reader) && DistinctItems(items)
    ensures (forall limit | limit > 0 :: ShowsAll(reader, items, limit)) <==> CursorsSound(reader.names, items)
  {
    if forall limit | limit > 0 :: ShowsAll(reader, items, limit) {
      forall p | 0 <= p < |items| - 1 ensures CursorSound(reader.names, items, p) {
        assert ShowsAll(reader, items, p + 1);
        ShownIsSound(reader, items, p);
      }
    }
    if CursorsSound(reader.names, items) {
      forall limit | limit > 0 ensures ShowsAll(reader, items, limit) {
        SoundShowsAll(reader, items, limit);
      }
    }
  }

  lemma ShownIsSound(reader: Reader, items: seq<Item>, p: nat)
    requires NoDuplicates(reader.names) && Everything(reader) && DistinctItems(items)
    requires p < |items| - 1 && ShowsAll(reader, items, p + 1)
    ensures CursorSound(reader.names, items, p)
  {
    var pages :| IsRun(reader, items, p + 1, map[], pages) && AllItems(pages) == items;
    FirstCursor(reader, items, p, pages);
  }

  lemma SoundShowsAll(reader: Reader, items: seq<Item>, limit: int)
    requires NoDuplicates(reader.names) && Everything(reader) && CursorsSound(reader.names, items) && limit > 0
    ensures ShowsAll(reader, items, limit)
  {
    var pages := RunFrom(reader, items, limit, map[], 0);
    PickedEverything(reader, items);
    assert items[0..] == items;
  }

  // ---------- items stored under their record keys ----------

  ghost predicate StoredByKey(t: Table, names: seq<string>, items: seq<Item>) {
    && DistinctItems(items)
    && (forall item | item in items :: item.table == t.name && RecordKey(t, item.attributes) == Ok(item.key))
    && (forall item, name | item in items && name in names ::
          name in item.attributes && WellFormed(item.attributes[name]))
  }

  // the names of the target of a table or of one of its indexes
  ghost predicate NamesKeys(t: Table, names: seq<string>) {
    && NoDuplicates(names)
    && |names| > 0
    && t.partitionKey in names
    && (HasSortKey(t) ==> t.sortKey in names)
  }

  lemma SameRecordKey(t: Table, a: Attributes, b: Attributes)
    requires RecordKey(t, a).Ok? && RecordKey(t, b).Ok?
    requires t.partitionKey in a && t.partitionKey in b && a[t.partitionKey] == b[t.partitionKey]
    requires HasSortKey(t) ==> t.sortKey in a && t.sortKey in b && a[t.sortKey] == b[t.sortKey]
    ensures RecordKey(t, a) == RecordKey(t, b)
  {
  }

  // If every item carries all key attributes and is stored under its record key, the cursors are sound.
  lemma StoredByKeySound(t: Table, names: seq<string>, items: seq<Item>)
    requires NamesKeys(t, names) && StoredByKey(t, names, items)
    ensures CursorsSound(names, items)
  {
    forall p | 0 <= p < |items| - 1 ensures CursorSound(names, items, p) {
      var document := KeyDocument(names, items[p]).value;
      assert items[p] in items;
      DocumentsEqualIsEquality(document, document);
      forall q | 0 <= q < p
        ensures KeyDocument(names, items[q]).Ok? && !DocumentsEqual(KeyDocument(names, items[q]).value, document)
      {
        assert items[q] in items;
        DifferentDocuments(t, names, items[q], items[p]);
      }
    }
  }

  lemma DifferentDocuments(t: Table, names: seq<string>, a: Item, b: Item)
    requires NamesKeys(t, names) && ItemIdOf(a) != ItemIdOf(b) && a.table == b.table
    requires RecordKey(t, a.attributes) == Ok(a.key) && RecordKey(t, b.attributes) == Ok(b.key)
    requires forall name | name in names :: name in a.attributes && WellFormed(a.attributes[name])
    requires forall name | name in names :: name in b.attributes && WellFormed(b.attributes[name])
    ensures KeyDocument(names, a).Ok? && KeyDocument(names, b).Ok?
    ensures !DocumentsEqual(KeyDocument(names, a).value, KeyDocument(names, b).value)
  {
    var d, e := KeyDocument(names, a).value, KeyDocument(names, b).value;
    DocumentsEqualIsEquality(d, e);
    if d == e {
      assert d[t.partitionKey] == e[t.partitionKey];
      assert HasSortKey(t) ==> d[t.sortKey] == e[t.sortKey];
      SameRecordKey(t, a.attributes, b.attributes);
    }
  }
}
