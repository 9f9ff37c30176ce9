/** The version listing of a bucket: every record, and a version "null" for each live object that has none, by key
    and newest first. */
module S3Versions {
  import opened Wrappers
  import opened Strings
  import opened S3Model
  import opened S3Invariants
  import opened KeyOrder
  import opened KeyedListing
  import StableSort

  // the records of a bucket, in the order in which they were made
  function BucketRecords(history: seq<VersionRecord>, bucket: string): seq<VersionRecord> {
    if |history| == 0 then []
    else
      var last := history[|history| - 1];
      BucketRecords(history[..|history| - 1], bucket) + (if last.bucket == bucket then [last] else [])
  }

  // the version of an object that has no record
  function NullRecord(o: Object): VersionRecord {
    RecordOf(o, 0)
  }

  predicate HasRecord(records: seq<VersionRecord>, key: string) {
    exists i :: 0 <= i < |records| && records[i].key == key
  }

  // null versions for the live objects of the bucket that have no record
  function NullRecords(objects: seq<Object>, records: seq<VersionRecord>, bucket: string): seq<VersionRecord> {
    if |objects| == 0 then []
    else
      var last := objects[|objects| - 1];
      NullRecords(objects[..|objects| - 1], records, bucket)
      + (if last.bucket == bucket && !HasRecord(records, last.key) then [NullRecord(last)] else [])
  }

  // by key, newest first
  predicate VersionBefore(a: VersionRecord, b: VersionRecord) {
    if a.key == b.key then a.sequence > b.sequence else Less(a.key, b.key)
  }

  // ListObjectVersions
  function ListVersions(history: seq<VersionRecord>, objects: seq<Object>, bucket: string): seq<VersionRecord> {
    var records := BucketRecords(history, bucket);
    StableSort.Sort(VersionBefore, records + NullRecords(objects, records, bucket))
  }

  lemma {:induction false} BucketRecordsAre(history: seq<VersionRecord>, bucket: string)
    ensures forall r :: r in BucketRecords(history, bucket) <==> r in history && r.bucket == bucket
  {
    if |history| > 0 {
      BucketRecordsAre(history[..|history| - 1], bucket);
      assert history == history[..|history| - 1] + [history[|history| - 1]];
    }
  }

  lemma {:induction false} NullRecordsAre(objects: seq<Object>, records: seq<VersionRecord>, bucket: string)
    ensures forall r | r in NullRecords(objects, records, bucket) ::
      exists o :: o in objects && o.bucket == bucket && !HasRecord(records, o.key) && r == NullRecord(o)
    ensures forall o | o in objects && o.bucket == bucket && !HasRecord(records, o.key) ::
      NullRecord(o) in NullRecords(objects, records, bucket)
  {
    if |objects| > 0 {
      NullRecordsAre(objects[..|objects| - 1], records, bucket);
      assert objects == objects[..|objects| - 1] + [objects[|objects| - 1]];
    }
  }

  lemma VersionsOrdered(rs: seq<VersionRecord>)
    ensures StableSort.StrictWeakOn(VersionBefore, rs)
  {
    forall x, y, z | x in rs && y in rs && z in rs
      ensures VersionBefore(x, y) ==> !VersionBefore(y, x)
      ensures VersionBefore(x, z) ==> VersionBefore(x, y) || VersionBefore(y, z)
    {
      LessIsTotal(x.key, y.key, z.key);
    }
  }

  // the first entry of a key
  ghost predicate FirstOf(listed: seq<VersionRecord>, i: int, key: string) {
    && 0 <= i < |listed| && listed[i].key == key
    && forall j | 0 <= j < i :: listed[j].key != key
  }

  // the first entry of a key has its largest sequence number
  lemma FirstIsNewest(listed: seq<VersionRecord>, i: int, key: string)
    requires StableSort.SortedBy(VersionBefore, listed) && FirstOf(listed, i, key)
    ensures forall r | r in listed && r.key == key :: r.sequence <= listed[i].sequence
  {
    forall r | r in listed && r.key == key ensures r.sequence <= listed[i].sequence {
      var j :| 0 <= j < |listed| && listed[j] == r;
      assert j > i ==> !VersionBefore(listed[j], listed[i]);
    }
  }

  // what the first entry of a key says about the live object
  ghost predicate Describes(objects: map<ObjectId, Object>, id: ObjectId, r: VersionRecord) {
    if r.marker then id !in objects
    else id in objects && r.etag == objects[id].etag && r.ref == objects[id].ref
         && (r.size == objects[id].size || (objects[id].size == 0 && r.size == |objects[id].body|))
  }

  ghost predicate HoldsExactly(objects: seq<Object>, live: map<ObjectId, Object>) {
    && (forall o | o in objects :: ObjectIdOf(o) in live && live[ObjectIdOf(o)] == o)
    && (forall id | id in live :: live[id] in objects)
  }

  lemma LatestIsNewest(history: seq<VersionRecord>, id: ObjectId, r: VersionRecord)
    requires SequencesRise(history) && r in history && RecordIdOf(r) == id
    requires forall other | other in history && RecordIdOf(other) == id :: other.sequence <= r.sequence
    ensures Latest(history, id) == Some(r)
  {
    var i :| 0 <= i < |history| && history[i] == r;
    LatestHasLargestSequence(history, id, i);
    var newest := Latest(history, id).value;
    LatestInHistory(history, id);
    var j :| 0 <= j < |history| && history[j] == newest;
    assert history[i].sequence == history[j].sequence;
  }

  lemma {:induction false} LatestInHistory(history: seq<VersionRecord>, id: ObjectId)
    requires Latest(history, id).Some?
    ensures Latest(history, id).value in history && RecordIdOf(Latest(history, id).value) == id
  {
    if RecordIdOf(history[|history| - 1]) != id {
      LatestInHistory(history[..|history| - 1], id);
    }
  }

  // Every record of the bucket is listed, and every live object under its records or as a null version.
  lemma EveryVersionListed(history: seq<VersionRecord>, objects: seq<Object>, bucket: string)
    ensures forall r | r in history && r.bucket == bucket :: r in ListVersions(history, objects, bucket)
    ensures forall o | o in objects && o.bucket == bucket ::
      exists r :: r in ListVersions(history, objects, bucket) && r.key == o.key
  {
    hide ListVersions, BucketRecords, NullRecords;
    var records, listed := BucketRecords(history, bucket), ListVersions(history, objects, bucket);
    ListedOrder(history, objects, bucket);
    BucketRecordsAre(history, bucket);
    NullRecordsAre(objects, records, bucket);
    forall o | o in objects && o.bucket == bucket ensures exists r :: r in listed && r.key == o.key {
      if HasRecord(records, o.key) {
        var i :| 0 <= i < |records| && records[i].key == o.key;
        assert records[i] in records;
      } else {
        assert NullRecord(o) in listed && NullRecord(o).key == o.key;
      }
    }
  }

  // In every state that satisfies the invariant, the first entry of a key is
  // a delete marker exactly if there is no live object, and otherwise describes the live object.
  lemma NewestListed(w: World, objects: seq<Object>, bucket: string, i: int)
    requires Inv(w) && HoldsExactly(objects, w.state.objects)
    requires var listed := ListVersions(w.state.history, objects, bucket);
      0 <= i < |listed| && FirstOf(listed, i, listed[i].key)
    ensures var r := ListVersions(w.state.history, objects, bucket)[i];
      Describes(w.state.objects, ObjectId(bucket, r.key), r)
  {
    hide Inv, ListVersions, BucketRecords, NullRecords, StableSort.SortedBy, StableSort.StrictWeakOn;
    var records := BucketRecords(w.state.history, bucket);
    var r := ListVersions(w.state.history, objects, bucket)[i];
    ListedOrder(w.state.history, objects, bucket);
    FirstIsNewest(ListVersions(w.state.history, objects, bucket), i, r.key);
    InvClauses(w);
    BucketRecordsAre(w.state.history, bucket);
    NullRecordsAre(objects, records, bucket);
    if r in records {
      RecordDescribes(w, bucket, records, r);
    } else {
      assert r in ListVersions(w.state.history, objects, bucket) && r in NullRecords(objects, records, bucket);
      var o :| o in objects && o.bucket == bucket && !HasRecord(records, o.key) && r == NullRecord(o);
      assert ObjectIdOf(o) == ObjectId(bucket, r.key);
    }
  }

  lemma InvClauses(w: World)
    requires Inv(w)
    ensures Holds(w, VersionsClause)
  {
  }

  lemma ListedOrder(history: seq<VersionRecord>, objects: seq<Object>, bucket: string)
    ensures var records, listed := BucketRecords(history, bucket), ListVersions(history, objects, bucket);
      && StableSort.SortedBy(VersionBefore, listed)
      && forall r :: r in listed <==> r in records || r in NullRecords(objects, records, bucket)
  {
    hide BucketRecords, NullRecords, VersionBefore;
    var records := BucketRecords(history, bucket);
    var all := records + NullRecords(objects, records, bucket);
    VersionsOrdered(all);
    StableSort.SortSorts(VersionBefore, all);
    StableSort.SameElements(ListVersions(history, objects, bucket), all);
  }

  lemma RecordDescribes(w: World, bucket: string, records: seq<VersionRecord>, r: VersionRecord)
    requires Holds(w, VersionsClause) && r in records
    requires forall x :: x in records <==> x in w.state.history && x.bucket == bucket
    requires forall x | x in records && x.key == r.key :: x.sequence <= r.sequence
    ensures Describes(w.state.objects, ObjectId(bucket, r.key), r)
  {
    var id := ObjectId(bucket, r.key);
    LatestIsNewest(w.state.history, id, r);
    assert Agrees(w.state, id);
  }
}
