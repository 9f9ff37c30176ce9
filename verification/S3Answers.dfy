/** What clients read from worlds that are alike: objects, pages of keys and version listings. */
module S3Answers {
  import opened Wrappers
  import opened Strings
  import opened S3Model
  import opened S3Invariants
  import opened S3Repository
  import opened S3Alike
  import opened S3Versions
  import S3Domain
  import KeyOrder
  import opened KeyedSeq
  import StableSort

  // ---------- objects ----------

  // where the bytes are kept is not part of an answer
  function Shown(r: Result<Object, Error>): Result<Object, Error> {
    match r
    case Ok(o) => Ok(o.(ref := NoRef))
    case Err(e) => Err(e)
  }

  // Every object is read alike.
  lemma ReadAlike(w: World, v: World, id: ObjectId)
    requires Inv(w) && Like(w, v)
    ensures Shown(Read(v, id)) == Shown(Read(w, id))
  {
    LikeKeys(w, v);
    if id in w.state.objects {
      AnswersAlike(w, v, id);
      AnswerIsRead(w, id);
      AnswerIsRead(v, id);
    }
    hide Inv, Like, Answer, Hydrated;
  }

  lemma GetAlike(w: World, v: World, bucket: string, key: string)
    requires Inv(w) && Like(w, v)
    ensures Shown(GetObject(v, bucket, key)) == Shown(GetObject(w, bucket, key))
  {
    LikeChecks(w, v, bucket, key);
    hide Inv, Like, CheckedId, Read;
    if CheckedId(w, bucket, key).Ok? {
      ReadAlike(w, v, CheckedId(w, bucket, key).value);
    }
  }

  // ---------- pages ----------

  // The keys of a bucket, and so the pages of every request, are the same, and so are the objects on them.
  lemma PagesAlike(w: World, v: World, bucket: string)
    requires Inv(w) && Like(w, v)
    ensures S3Domain.KeysIn(v.state.objects, bucket) == S3Domain.KeysIn(w.state.objects, bucket)
    ensures forall id | id in w.state.objects ::
      id in v.state.objects && v.state.objects[id].(body := [], ref := NoRef) == w.state.objects[id].(body := [], ref := NoRef)
  {
    LikeKeys(w, v);
    hide Inv, Like, KeyOrder.SortedKeys;
    assert (set id | id in v.state.objects && id.bucket == bucket :: id.key)
        == (set id | id in w.state.objects && id.bucket == bucket :: id.key) by {
      assert forall id :: id in v.state.objects && id.bucket == bucket <==> id in w.state.objects && id.bucket == bucket;
    }
    forall id | id in w.state.objects
      ensures id in v.state.objects && v.state.objects[id].(body := [], ref := NoRef) == w.state.objects[id].(body := [], ref := NoRef)
    {
      SameFields(w, v, id);
    }
  }

  // ---------- version listings ----------

  // each version has a sequence number of its own
  ghost predicate Sequenced(history: seq<VersionRecord>) {
    && (forall i, j | 0 <= i < j < |history| :: history[i].sequence != history[j].sequence)
    && (forall i | 0 <= i < |history| :: history[i].sequence > 0)
  }

  // versions of one bucket differ in key or sequence number
  ghost predicate ToldApart(records: seq<VersionRecord>) {
    forall i, j | 0 <= i < j < |records| :: records[i].key != records[j].key || records[i].sequence != records[j].sequence
  }

  lemma {:induction false} BucketSequenced(history: seq<VersionRecord>, bucket: string)
    requires Sequenced(history)
    ensures Sequenced(BucketRecords(history, bucket))
  {
    if |history| > 0 {
      var n := |history| - 1;
      BucketSequenced(history[..n], bucket);
      BucketRecordsAre(history[..n], bucket);
      var records := BucketRecords(history[..n], bucket);
      forall i | 0 <= i < |records| ensures records[i].sequence != history[n].sequence {
        assert records[i] in records;
        var k :| 0 <= k < n && history[k] == records[i];
      }
    }
  }

  lemma {:induction false} NullsToldApart(objects: seq<Object>, records: seq<VersionRecord>, bucket: string)
    requires Unique(ObjectIdOf, objects)
    ensures var nulls := NullRecords(objects, records, bucket);
      ToldApart(nulls) && forall i | 0 <= i < |nulls| :: nulls[i].sequence == 0
  {
    if |objects| > 0 {
      var n := |objects| - 1;
      NullsToldApart(objects[..n], records, bucket);
      NullRecordsAre(objects[..n], records, bucket);
      var nulls := NullRecords(objects[..n], records, bucket);
      forall i | 0 <= i < |nulls| && objects[n].bucket == bucket ensures nulls[i].key != objects[n].key {
        assert nulls[i] in nulls;
        var o :| o in objects[..n] && o.bucket == bucket && !HasRecord(records, o.key) && nulls[i] == NullRecord(o);
        var k :| 0 <= k < n && objects[k] == o;
        assert ObjectIdOf(objects[k]) != ObjectIdOf(objects[n]);
      }
    }
  }

  // so that the listing has only one order
  lemma ListedStrictly(history: seq<VersionRecord>, objects: seq<Object>, bucket: string)
    requires Sequenced(history) && Unique(ObjectIdOf, objects)
    ensures StableSort.Ascends(VersionBefore, ListVersions(history, objects, bucket))
  {
    var records := BucketRecords(history, bucket);
    var nulls := NullRecords(objects, records, bucket);
    var all := records + nulls;
    BucketSequenced(history, bucket);
    NullsToldApart(objects, records, bucket);
    hide BucketRecords, NullRecords, Less;
    assert ToldApart(all);
    hide Sequenced;
    VersionsOrdered(all);
    hide StableSort.StrictWeakOn;
    forall x ensures multiset(all)[x] <= 1 {
      assert StableSort.NoRepeats(all);
      StableSort.OccursOnce(all, x);
    }
    TotalIfToldApart(all);
    hide StableSort.Sort, StableSort.StrictTotalOn;
    StableSort.SortsStrictly(VersionBefore, all);
  }

  // the version of an object that has no record
  predicate IsUnnumbered(r: VersionRecord, o: Object) {
    r == VersionRecord(o.bucket, o.key, 0, false, o.body, o.ref, o.size, o.contentType, o.etag, o.lastModified, o.metadata, o.headers)
  }

  // a live object of the bucket without a record, as a version without a number
  ghost predicate IsUnlisted(w: World, bucket: string, r: VersionRecord) {
    exists id :: && id in w.state.objects && id.bucket == bucket
                 && (forall x | x in w.state.history :: RecordIdOf(x) != id) && IsUnnumbered(r, w.state.objects[id])
  }

  // The versions of a bucket are its records and one version without a number for each live object that has no record,
  // each of them once, by key and newest first.
  lemma VersionsShown(w: World, objects: seq<Object>, bucket: string)
    requires Inv(w) && Unique(ObjectIdOf, objects) && HoldsExactly(objects, w.state.objects)
    ensures var listed := ListVersions(w.state.history, objects, bucket);
      && (forall i, j | 0 <= i < j < |listed| ::
            Less(listed[i].key, listed[j].key) || (listed[i].key == listed[j].key && listed[i].sequence > listed[j].sequence))
      && forall r :: r in listed <==>
           || (r in w.state.history && r.bucket == bucket)
           || IsUnlisted(w, bucket, r)
  {
    hide *;
    var history := w.state.history;
    var records, listed := BucketRecords(history, bucket), ListVersions(history, objects, bucket);
    RisingIsSequenced(w);
    ListedStrictly(history, objects, bucket);
    KeysThenNewest(listed);
    ListedOrder(history, objects, bucket);
    BucketRecordsAre(history, bucket);
    forall r ensures r in NullRecords(objects, records, bucket) <==> IsUnlisted(w, bucket, r) {
      NullsAre(w, objects, bucket, r);
    }
  }

  lemma KeysThenNewest(listed: seq<VersionRecord>)
    requires StableSort.Ascends(VersionBefore, listed)
    ensures forall i, j | 0 <= i < j < |listed| ::
      Less(listed[i].key, listed[j].key) || (listed[i].key == listed[j].key && listed[i].sequence > listed[j].sequence)
  {
    hide Less;
    forall i, j | 0 <= i < j < |listed|
      ensures Less(listed[i].key, listed[j].key) || (listed[i].key == listed[j].key && listed[i].sequence > listed[j].sequence)
    {
      assert VersionBefore(listed[i], listed[j]);
    }
  }

  lemma RisingIsSequenced(w: World)
    requires Inv(w)
    ensures Sequenced(w.state.history)
  {
    assert Holds(w, VersionsClause);
    hide Inv;
  }

  lemma NullsAre(w: World, objects: seq<Object>, bucket: string, r: VersionRecord)
    requires Inv(w) && HoldsExactly(objects, w.state.objects)
    ensures r in NullRecords(objects, BucketRecords(w.state.history, bucket), bucket) <==> IsUnlisted(w, bucket, r)
  {
    hide Inv, BucketRecords, NullRecords, HasRecord, RecordOf, ObjectPayloads;
    var records := BucketRecords(w.state.history, bucket);
    NullRecordsAre(objects, records, bucket);
    if r in NullRecords(objects, records, bucket) {
      var o :| o in objects && o.bucket == bucket && !HasRecord(records, o.key) && r == NullRecord(o);
      UnnumberedIs(w, ObjectIdOf(o));
      UnrecordedIs(w, ObjectIdOf(o));
    }
    if IsUnlisted(w, bucket, r) {
      var id :| && id in w.state.objects && id.bucket == bucket
                && (forall x | x in w.state.history :: RecordIdOf(x) != id) && IsUnnumbered(r, w.state.objects[id]);
      KnownObject(w, id);
      UnnumberedIs(w, id);
      UnrecordedIs(w, id);
    }
  }

  lemma UnnumberedIs(w: World, id: ObjectId)
    requires Inv(w) && id in w.state.objects
    ensures IsUnnumbered(NullRecord(w.state.objects[id]), w.state.objects[id])
  {
    assert Holds(w, ObjectPayloadsClause);
    hide Inv;
  }

  lemma UnrecordedIs(w: World, id: ObjectId)
    ensures HasRecord(BucketRecords(w.state.history, id.bucket), id.key)
      <==> exists x :: x in w.state.history && RecordIdOf(x) == id
  {
    RecordedIn(w.state.history, id.bucket, id.key);
  }

  lemma TotalIfToldApart(all: seq<VersionRecord>)
    requires ToldApart(all) && StableSort.StrictWeakOn(VersionBefore, all)
    ensures StableSort.StrictTotalOn(VersionBefore, all)
  {
    hide StableSort.StrictWeakOn;
    forall x, y | x in all && y in all && x != y ensures VersionBefore(x, y) || VersionBefore(y, x) {
      var i :| 0 <= i < |all| && all[i] == x;
      var j :| 0 <= j < |all| && all[j] == y;
      assert i < j || j < i;
      KeyOrder.LessIsTotal(x.key, y.key, x.key);
    }
  }

  // the reordered history has its sequence numbers once each, too
  lemma AlikeSequenced(w: World, v: World)
    requires Inv(w) && Like(w, v)
    ensures Sequenced(w.state.history) && Sequenced(v.state.history)
  {
    assert Holds(w, VersionsClause);
    hide Inv;
    var a, b := Bares(w.state.history), Bares(v.state.history);
    forall i, j | 0 <= i < j < |b| ensures b[i].sequence != b[j].sequence {
      if b[i].sequence == b[j].sequence {
        SameBare(w, v, i, j);
        StableSort.Twice(b, i, j);
        assert StableSort.NoRepeats(a);
        StableSort.OccursOnce(a, b[i]);
      }
    }
    forall i | 0 <= i < |v.state.history| ensures v.state.history[i].sequence > 0 {
      var k := Counterpart(w, v, i);
      assert w.state.history[k].sequence > 0;
    }
    assert forall i | 0 <= i < |b| :: b[i].sequence == v.state.history[i].sequence;
  }

  lemma SameBare(w: World, v: World, i: nat, j: nat)
    requires SequencesRise(w.state.history) && VersionsKept(w, v) && i < |v.state.history| && j < |v.state.history|
    requires v.state.history[i].sequence == v.state.history[j].sequence
    ensures Bare(v.state.history[i]) == Bare(v.state.history[j])
  {
    var k := Counterpart(w, v, i);
    var l := Counterpart(w, v, j);
    assert w.state.history[k].sequence == w.state.history[l].sequence;
  }

  // a version as it is listed, with its bytes
  function ShownRecord(payloads: map<PayloadRef, Bytes>, r: VersionRecord): Option<VersionRecord> {
    match LoadedRecord(payloads, r)
    case Some(p) => Some(p.(ref := NoRef))
    case None => None
  }

  function ShownRecords(payloads: map<PayloadRef, Bytes>, records: seq<VersionRecord>): (shown: seq<Option<VersionRecord>>)
    ensures |shown| == |records|
    ensures forall i | 0 <= i < |records| :: shown[i] == ShownRecord(payloads, records[i])
  {
    seq(|records|, i requires 0 <= i < |records| => ShownRecord(payloads, records[i]))
  }

  predicate ShownBefore(a: Option<VersionRecord>, b: Option<VersionRecord>) {
    a.Some? && b.Some? && VersionBefore(a.value, b.value)
  }

  lemma ShownAsymmetric()
    ensures StableSort.Asymmetric(ShownBefore)
  {
    forall a, b ensures ShownBefore(a, b) ==> !ShownBefore(b, a) {
      if a.Some? && b.Some? {
        KeyOrder.LessIsTotal(a.value.key, b.value.key, a.value.key);
      }
    }
  }

  lemma ShownStrictly(payloads: map<PayloadRef, Bytes>, records: seq<VersionRecord>)
    requires StableSort.Ascends(VersionBefore, records)
    requires forall r | r in records :: ShownRecord(payloads, r).Some?
    ensures StableSort.Ascends(ShownBefore, ShownRecords(payloads, records))
  {
    var shown := ShownRecords(payloads, records);
    forall i, j | 0 <= i < j < |shown| ensures ShownBefore(shown[i], shown[j]) {
      assert records[i] in records && records[j] in records;
      assert VersionBefore(records[i], records[j]);
    }
  }

  lemma RecordShownAlike(w: World, v: World, k: nat, i: nat)
    requires Inv(w) && VersionsKept(w, v) && k < |w.state.history| && i < |v.state.history|
    requires Bare(w.state.history[k]) == Bare(v.state.history[i])
    ensures ShownRecord(v.payloads, v.state.history[i]) == ShownRecord(w.payloads, w.state.history[k]) != None
  {
    assert Holds(w, HistoryClause) && Holds(w, RecordPayloadsClause);
    var q, r := w.state.history[k], v.state.history[i];
    assert q.body == [] && (q.ref != NoRef ==> Opens(w.payloads, RecordIdOf(q), q.ref, q.size, q.etag));
    assert Tidy(v.payloads, RecordIdOf(r), r.ref, r.body) && (r.ref == NoRef ==> r.body == []);
    hide Inv, VersionsKept, Hint;
  }

  lemma NullShownAlike(w: World, v: World, id: ObjectId)
    requires Inv(w) && Like(w, v) && id in w.state.objects
    ensures id in v.state.objects
    ensures ShownRecord(v.payloads, NullRecord(v.state.objects[id])) == ShownRecord(w.payloads, NullRecord(w.state.objects[id])) != None
  {
    assert Holds(w, ObjectPayloadsClause);
    SameFields(w, v, id);
    LikeAt(w, v, id);
    hide Inv, Like, Hint;
  }

  lemma HasRecordAlike(w: World, v: World, bucket: string, key: string)
    requires VersionsKept(w, v)
    ensures HasRecord(BucketRecords(v.state.history, bucket), key) <==> HasRecord(BucketRecords(w.state.history, bucket), key)
  {
    RecordedIn(w.state.history, bucket, key);
    RecordedIn(v.state.history, bucket, key);
    hide BucketRecords, HasRecord;
    if i :| 0 <= i < |v.state.history| && RecordIdOf(v.state.history[i]) == ObjectId(bucket, key) {
      var k := Counterpart(w, v, i);
      assert RecordIdOf(w.state.history[k]) == ObjectId(bucket, key);
    }
    if k :| 0 <= k < |w.state.history| && RecordIdOf(w.state.history[k]) == ObjectId(bucket, key) {
      var i := CounterpartBack(w, v, k);
      assert RecordIdOf(v.state.history[i]) == ObjectId(bucket, key);
    }
  }

  lemma RecordedIn(history: seq<VersionRecord>, bucket: string, key: string)
    ensures HasRecord(BucketRecords(history, bucket), key)
      <==> exists i :: 0 <= i < |history| && RecordIdOf(history[i]) == ObjectId(bucket, key)
  {
    BucketRecordsAre(history, bucket);
    var records := BucketRecords(history, bucket);
    hide BucketRecords;
    if i :| 0 <= i < |records| && records[i].key == key {
      assert records[i] in records;
      var k :| 0 <= k < |history| && history[k] == records[i];
      assert RecordIdOf(history[k]) == ObjectId(bucket, key);
    }
    if k :| 0 <= k < |history| && RecordIdOf(history[k]) == ObjectId(bucket, key) {
      assert history[k] in records;
    }
  }

  // a list of the live objects
  ghost predicate Lists(objects: seq<Object>, live: map<ObjectId, Object>) {
    Unique(ObjectIdOf, objects) && HoldsExactly(objects, live)
  }

  // Whatever the one world lists of a bucket, the other lists alike,
  lemma ListedThere(w: World, v: World, a: seq<Object>, b: seq<Object>, bucket: string, r: VersionRecord) returns (x: VersionRecord)
    requires Inv(w) && Like(w, v) && Lists(a, w.state.objects) && Lists(b, v.state.objects)
    requires r in ListVersions(w.state.history, a, bucket)
    ensures x in ListVersions(v.state.history, b, bucket)
    ensures ShownRecord(v.payloads, x) == ShownRecord(w.payloads, r) != None
  {
    ListedOrder(w.state.history, a, bucket);
    ListedOrder(v.state.history, b, bucket);
    BucketRecordsAre(w.state.history, bucket);
    BucketRecordsAre(v.state.history, bucket);
    var records, mine := BucketRecords(w.state.history, bucket), BucketRecords(v.state.history, bucket);
    hide Inv, ListVersions, BucketRecords, NullRecords, StableSort.SortedBy, ObjectsKept, SameElse, ShownRecord, VersionsKept;
    if r in records {
      var k :| 0 <= k < |w.state.history| && w.state.history[k] == r;
      var i := CounterpartBack(w, v, k);
      RecordShownAlike(w, v, k, i);
      x := v.state.history[i];
      assert x in v.state.history && x.bucket == bucket;
    } else {
      NullRecordsAre(a, records, bucket);
      NullRecordsAre(b, mine, bucket);
      var o :| o in a && o.bucket == bucket && !HasRecord(records, o.key) && r == NullRecord(o);
      var id := ObjectIdOf(o);
      NullShownAlike(w, v, id);
      HasRecordAlike(w, v, bucket, o.key);
      NamedSo(w, v, b, id);
      x := NullRecord(v.state.objects[id]);
    }
  }

  lemma NamedSo(w: World, v: World, b: seq<Object>, id: ObjectId)
    requires Like(w, v) && Inv(w) && id in w.state.objects && Lists(b, v.state.objects)
    ensures id in v.state.objects && v.state.objects[id] in b && ObjectIdOf(v.state.objects[id]) == id
  {
    KnownObject(w, id);
    SameFields(w, v, id);
    hide Inv, Like;
  }

  // and the other way round.
  lemma ListedHere(w: World, v: World, a: seq<Object>, b: seq<Object>, bucket: string, x: VersionRecord) returns (r: VersionRecord)
    requires Inv(w) && Like(w, v) && Lists(a, w.state.objects) && Lists(b, v.state.objects)
    requires x in ListVersions(v.state.history, b, bucket)
    ensures r in ListVersions(w.state.history, a, bucket)
    ensures ShownRecord(v.payloads, x) == ShownRecord(w.payloads, r) != None
  {
    ListedOrder(w.state.history, a, bucket);
    ListedOrder(v.state.history, b, bucket);
    BucketRecordsAre(w.state.history, bucket);
    BucketRecordsAre(v.state.history, bucket);
    var records, mine := BucketRecords(w.state.history, bucket), BucketRecords(v.state.history, bucket);
    hide Inv, ListVersions, BucketRecords, NullRecords, StableSort.SortedBy, ObjectsKept, SameElse, ShownRecord, VersionsKept;
    if x in mine {
      var i :| 0 <= i < |v.state.history| && v.state.history[i] == x;
      var k := Counterpart(w, v, i);
      RecordShownAlike(w, v, k, i);
      r := w.state.history[k];
      assert r in w.state.history && r.bucket == bucket;
    } else {
      NullRecordsAre(a, records, bucket);
      NullRecordsAre(b, mine, bucket);
      var p :| p in b && p.bucket == bucket && !HasRecord(mine, p.key) && x == NullRecord(p);
      LikeKeys(w, v);
      var id := ObjectIdOf(p);
      NullShownAlike(w, v, id);
      HasRecordAlike(w, v, bucket, p.key);
      KnownObject(w, id);
      assert w.state.objects[id] in a;
      r := NullRecord(w.state.objects[id]);
    }
  }

  // Version listings are the same, entry for entry: numbers are unique, so that the order of the history does not matter.
  lemma VersionsListedAlike(w: World, v: World, a: seq<Object>, b: seq<Object>, bucket: string)
    requires Inv(w) && Like(w, v) && Lists(a, w.state.objects) && Lists(b, v.state.objects)
    ensures var mine, yours := ListVersions(v.state.history, b, bucket), ListVersions(w.state.history, a, bucket);
      && ShownRecords(v.payloads, mine) == ShownRecords(w.payloads, yours)
      && None !in ShownRecords(w.payloads, yours)
  {
    hide *;
    var mine, yours := ListVersions(v.state.history, b, bucket), ListVersions(w.state.history, a, bucket);
    var shown, other := ShownRecords(w.payloads, yours), ShownRecords(v.payloads, mine);
    AlikeSequenced(w, v);
    ListsUnique(a, w.state.objects);
    ListsUnique(b, v.state.objects);
    ListedStrictly(w.state.history, a, bucket);
    ListedStrictly(v.state.history, b, bucket);
    forall r | r in yours ensures ShownRecord(w.payloads, r).Some? && ShownRecord(w.payloads, r) in other {
      var x := ListedThere(w, v, a, b, bucket, r);
      var i :| 0 <= i < |mine| && mine[i] == x;
      assert other[i] == ShownRecord(v.payloads, x);
    }
    forall x | x in mine ensures ShownRecord(v.payloads, x).Some? && ShownRecord(v.payloads, x) in shown {
      var r := ListedHere(w, v, a, b, bucket, x);
      var i :| 0 <= i < |yours| && yours[i] == r;
      assert shown[i] == ShownRecord(w.payloads, r);
    }
    ShownStrictly(w.payloads, yours);
    ShownStrictly(v.payloads, mine);
    ShownAsymmetric();
    forall s ensures s in shown <==> s in other {
      if s in shown {
        var i :| 0 <= i < |shown| && shown[i] == s;
        assert yours[i] in yours;
      }
      if s in other {
        var i :| 0 <= i < |other| && other[i] == s;
        assert mine[i] in mine;
      }
    }
    StableSort.AscendingUnique(ShownBefore, other, shown);
    forall i | 0 <= i < |shown| ensures shown[i] != None {
      assert yours[i] in yours;
    }
  }

  lemma ListsUnique(objects: seq<Object>, live: map<ObjectId, Object>)
    requires Lists(objects, live)
    ensures Unique(ObjectIdOf, objects)
  {
  }
}
