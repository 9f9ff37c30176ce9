/** Stopping the service and starting it again: what the file holds of a world, and what is loaded from it with the
    payloads that are still there. */
module S3Restart {
  import opened Wrappers
  import opened Strings
  import opened S3Model
  import opened S3Invariants
  import opened S3ObjectLock
  import opened S3Repository
  import opened S3Alike
  import KeyOrder
  import StableSort

  // ---------- loading ----------

  function LoadedObjects(payloads: map<PayloadRef, Bytes>, file: State): map<ObjectId, Object>
    requires forall id | id in file.objects :: LoadedObject(payloads, file.objects[id]).Some?
  {
    map id | id in file.objects :: LoadedObject(payloads, file.objects[id]).value
  }

  function LoadedHistory(payloads: map<PayloadRef, Bytes>, history: seq<VersionRecord>): (loaded: seq<VersionRecord>)
    requires forall i | 0 <= i < |history| :: LoadedRecord(payloads, history[i]).Some?
    ensures |loaded| == |history|
  {
    seq(|history|, i requires 0 <= i < |history| => LoadedRecord(payloads, history[i]).value)
  }

  function LoadedState(file: State, payloads: map<PayloadRef, Bytes>): State
    requires forall id | id in file.objects :: LoadedObject(payloads, file.objects[id]).Some?
    requires forall i | 0 <= i < |Normal(file.history)| :: LoadedRecord(payloads, Normal(file.history)[i]).Some?
  {
    Pruned(file).(buckets := FilledBuckets(file.buckets), objects := LoadedObjects(payloads, file),
                  history := LoadedHistory(payloads, Normal(file.history)))
  }

  // The world that a service starts with, or nothing if it does not start. Pending uploads are held in memory only. (Every
  // object of a file has a reference, as the file was validated: there are no payloads to store. A missing file
  // reads like the file of the empty state.)
  function Load(file: State, payloads: map<PayloadRef, Bytes>): Option<World> {
    if exists id | id in file.objects :: LoadedObject(payloads, file.objects[id]).None? then None
    else if exists i | 0 <= i < |Normal(file.history)| :: LoadedRecord(payloads, Normal(file.history)[i]).None? then None
    else if Validated(LoadedState(file, payloads)) then Some(World(LoadedState(file, payloads), payloads, map[]))
    else None
  }

  // ---------- what the file holds ----------

  // nothing is without a date. (The clock never gives the zero time.)
  ghost predicate Dated(s: State) {
    && (forall b | b in s.buckets :: s.buckets[b].createdAt != 0)
    && (forall id | id in s.objects :: s.objects[id].lastModified != 0)
    && (forall i | 0 <= i < |s.history| :: s.history[i].lastModified != 0)
  }

  // nothing to fill in
  predicate SettledRecord(r: VersionRecord) {
    && r.sequence > 0 && r.lastModified != 0
    && if r.marker then r.contentType == "" && r.size == 0 && r.body == []
       else r.contentType != "" && r.etag != NoTag && (r.size == 0 ==> r.body == [])
  }

  lemma {:induction false} SortBares(history: seq<VersionRecord>)
    ensures Bares(StableSort.Sort(RecordBefore, history)) == StableSort.Sort(RecordBefore, Bares(history))
  {
    if history != [] {
      var n := |history| - 1;
      assert Bares(history)[..n] == Bares(history[..n]);
      SortBares(history[..n]);
      InsertBares(StableSort.Sort(RecordBefore, history[..n]), history[n]);
    }
  }

  lemma {:induction false} InsertBares(history: seq<VersionRecord>, r: VersionRecord)
    ensures Bares(StableSort.InsertLast(RecordBefore, history, r)) == StableSort.InsertLast(RecordBefore, Bares(history), Bare(r))
  {
    if history != [] {
      var n := |history| - 1;
      var init, last := history[..n], history[n];
      assert RecordBefore(r, last) == RecordBefore(Bare(r), Bare(last));
      hide RecordBefore, Bare;
      assert Bares(history)[..n] == Bares(init) && Bares(history)[n] == Bare(last);
      InsertBares(init, r);
      BaresJoin(StableSort.InsertLast(RecordBefore, init, r), last);
      BaresJoin(history, r);
    } else {
      BaresJoin([], r);
    }
  }

  lemma BaresJoin(history: seq<VersionRecord>, r: VersionRecord)
    ensures Bares(history + [r]) == Bares(history) + [Bare(r)]
  {
  }

  // settled versions are only sorted
  lemma NormalSorts(history: seq<VersionRecord>)
    requires forall r | r in history :: SettledRecord(r)
    ensures Normal(history) == StableSort.Sort(RecordBefore, history)
    ensures multiset(Bares(Normal(history))) == multiset(Bares(history))
  {
    var sorted := StableSort.Sort(RecordBefore, history);
    StableSort.SameElements(sorted, history);
    forall i | 0 <= i < |sorted| ensures FilledRecord(sorted[i], i) == sorted[i] {
      assert sorted[i] in history;
    }
    SortBares(history);
  }

  lemma VersionsSettled(w: World, v: World)
    requires Inv(w) && Dated(w.state) && VersionsKept(w, v)
    ensures forall r | r in v.state.history :: SettledRecord(r)
  {
    assert Holds(w, HistoryClause) && Holds(w, VersionsClause) && Holds(w, RecordPayloadsClause);
    hide Inv;
    forall i | 0 <= i < |v.state.history| ensures SettledRecord(v.state.history[i]) {
      var j := Counterpart(w, v, i);
      var q, r := w.state.history[j], v.state.history[i];
      assert Tidy(v.payloads, RecordIdOf(r), r.ref, r.body) && (r.ref == NoRef ==> r.body == []);
      SettledByCounterpart(w, v, q, r);
    }
  }

  lemma SettledByCounterpart(w: World, v: World, q: VersionRecord, r: VersionRecord)
    requires Bare(q) == Bare(r) && q.sequence > 0 && q.lastModified != 0
    requires if q.marker then q.contentType == "" && q.size == 0 && q.ref == NoRef else q.contentType != "" && q.etag != NoTag
    requires q.ref != NoRef ==> Opens(w.payloads, RecordIdOf(q), q.ref, q.size, q.etag)
    requires Tidy(v.payloads, RecordIdOf(r), r.ref, r.body) && (r.ref == NoRef ==> r.body == [])
    ensures SettledRecord(r)
  {
  }

  // ---------- the versions in the file ----------

  predicate Resting(r: VersionRecord) {
    SettledRecord(r) && (r.ref == NoRef ==> r.body == [])
  }

  // In the file, settled versions are sorted and without their bytes.
  lemma HistorySaved(history: seq<VersionRecord>)
    requires forall r | r in history :: Resting(r)
    ensures SavedHistory(history) == StableSort.Sort(RecordBefore, Bares(history))
  {
    NormalSorts(history);
    SortBares(history);
    var sorted := Normal(history);
    StableSort.SameElements(sorted, history);
    hide Normal, RecordBefore, StableSort.Sort;
    forall i | 0 <= i < |sorted| ensures SavedRecord(sorted[i]) == Bare(sorted[i]) {
      assert sorted[i] in history;
    }
    assert SavedHistory(history) == Bares(sorted);
  }

  // versions that are told apart by their sequence numbers
  ghost predicate Numbered(history: seq<VersionRecord>) {
    forall x, y | x in history && y in history && x.sequence == y.sequence :: x == y
  }

  lemma RecordsOrdered(history: seq<VersionRecord>)
    requires Numbered(history)
    ensures StableSort.StrictTotalOn(RecordBefore, history)
  {
    forall x, y, z | x in history && y in history && z in history
      ensures RecordBefore(x, y) ==> !RecordBefore(y, x)
      ensures RecordBefore(x, z) ==> RecordBefore(x, y) || RecordBefore(y, z)
      ensures x != y ==> RecordBefore(x, y) || RecordBefore(y, x)
    {
      KeyOrder.LessIsTotal(x.bucket, y.bucket, z.bucket);
      KeyOrder.LessIsTotal(x.key, y.key, z.key);
    }
  }

  // However the versions are arranged, they are sorted into one sequence.
  lemma SortedAlike(a: seq<VersionRecord>, b: seq<VersionRecord>)
    requires multiset(a) == multiset(b) && Numbered(a)
    ensures StableSort.Sort(RecordBefore, a) == StableSort.Sort(RecordBefore, b)
  {
    var f, g := StableSort.Sort(RecordBefore, a), StableSort.Sort(RecordBefore, b);
    StableSort.SameElements(a, b);
    StableSort.SameElements(f, a);
    RecordsOrdered(a);
    RecordsOrdered(b);
    RecordsOrdered(f);
    hide RecordBefore, StableSort.Sort;
    StableSort.SortSorts(RecordBefore, a);
    StableSort.SortSorts(RecordBefore, b);
    StableSort.SortedUnique(RecordBefore, f, g);
  }

  lemma HistoryNumbered(w: World)
    requires Inv(w)
    ensures Numbered(Bares(w.state.history))
  {
    assert Holds(w, VersionsClause);
    var h := w.state.history;
    forall x, y | x in Bares(h) && y in Bares(h) && x.sequence == y.sequence ensures x == y {
      var i :| 0 <= i < |h| && Bares(h)[i] == x;
      var j :| 0 <= j < |h| && Bares(h)[j] == y;
      assert h[i].sequence == x.sequence && h[j].sequence == y.sequence;
    }
  }

  lemma VersionsRest(w: World, v: World)
    requires Inv(w) && Dated(w.state) && VersionsKept(w, v)
    ensures forall r | r in v.state.history :: Resting(r)
  {
    VersionsSettled(w, v);
    hide Inv, Dated, SettledRecord, Tidy;
    forall r | r in v.state.history ensures r.ref == NoRef ==> r.body == [] {
      var i :| 0 <= i < |v.state.history| && v.state.history[i] == r;
    }
  }

  // Of alike worlds the same versions are written.
  lemma HistoriesSavedAlike(w: World, v: World)
    requires Inv(w) && Dated(w.state) && VersionsKept(w, v)
    ensures SavedHistory(v.state.history) == StableSort.Sort(RecordBefore, Bares(w.state.history))
  {
    VersionsRest(w, v);
    HistorySaved(v.state.history);
    HistoryNumbered(w);
    hide Inv, Dated, Resting, StableSort.Sort, SavedHistory, Numbered;
    SortedAlike(Bares(w.state.history), Bares(v.state.history));
  }

  // ---------- the objects in the file ----------

  // What the file says of an object with these bytes. (The bootstrap object is saved with its first bytes if it has none.)
  function OnFile(o: Object, bytes: Option<Bytes>): Object {
    var p := o.(body := [], lastModified := if o.lastModified == 0 then FallbackDate(o.bucket) else o.lastModified);
    if ObjectIdOf(o) == BOOTSTRAP then
      p.(ref := Ref(Hint(BOOTSTRAP), OfBody(if bytes.Some? then bytes.value else BootstrapBody())),
         size := if o.size == 0 then |BootstrapBody()| else o.size)
    else p.(ref := if bytes.Some? then Ref(Hint(ObjectIdOf(o)), OfBody(bytes.value)) else NoRef)
  }

  function SizeOf(bytes: Option<Bytes>): nat {
    if bytes.Some? then |bytes.value| else 0
  }

  // what is known of a live object, with its bytes
  ghost predicate Complete(v: World, id: ObjectId, p: Object) {
    && ObjectIdOf(p) == id && TrimSpace(Hint(id)) == Hint(id)
    && FilledIn(p, SizeOf(SourceBytes(v, p)))
    && Tidy(v.payloads, id, p.ref, p.body)
  }

  lemma ObjectComplete(w: World, v: World, id: ObjectId)
    requires Inv(w) && Like(w, v) && id in w.state.objects
    ensures Complete(v, id, v.state.objects[id])
  {
    assert Kept(w, v, id) && Holds(w, ObjectPayloadsClause);
    KnownObject(w, id);
    HintTells(id, id);
    hide ProperId, TrimSpace, FilledIn, Inv;
    FilledOnce(w, w.state.objects[id], v.state.objects[id], SourceBytes(v, v.state.objects[id]));
  }

  // nothing but the bytes of the bootstrap object and a date is filled in
  lemma FilledOnce(w: World, o: Object, p: Object, bytes: Option<Bytes>)
    requires p.(body := [], ref := NoRef) == o.(body := [], ref := NoRef)
    requires o.contentType != "" && bytes == SourceBytes(w, o)
    requires if o.ref != NoRef then Opens(w.payloads, ObjectIdOf(o), o.ref, o.size, o.etag) else o.size == |o.body| && o.etag != NoTag
    ensures FilledIn(p, SizeOf(bytes))
  {
  }

  lemma SavedIsOnFile(v: World, id: ObjectId, p: Object)
    requires Complete(v, id, p)
    ensures SavedObject(p) == OnFile(p, SourceBytes(v, p))
  {
    assert |BootstrapBody()| == 18;
    hide BootstrapBody, FallbackDate, Hint, TrimSpace;
    if p.ref != NoRef {
      assert SavedObject(p).ref == p.ref;
    } else if |p.body| > 0 {
      assert Filled(p).body == p.body;
    }
  }

  lemma OnFileAlike(o: Object, p: Object, bytes: Option<Bytes>)
    requires p.(body := [], ref := NoRef) == o.(body := [], ref := NoRef)
    ensures OnFile(p, bytes) == OnFile(o, bytes)
  {
    hide BootstrapBody, FallbackDate, Hint;
  }

  lemma ObjectSavedAlike(w: World, v: World, id: ObjectId)
    requires Inv(w) && Like(w, v) && id in w.state.objects
    ensures id in v.state.objects
    ensures SavedObject(v.state.objects[id]) == SavedObject(w.state.objects[id])
         == OnFile(w.state.objects[id], SourceBytes(w, w.state.objects[id]))
  {
    hide *;
    LikeSelf(w);
    SameFields(w, v, id);
    ObjectComplete(w, v, id);
    ObjectComplete(w, w, id);
    SavedIsOnFile(v, id, v.state.objects[id]);
    SavedIsOnFile(w, id, w.state.objects[id]);
    OnFileAlike(w.state.objects[id], v.state.objects[id], SourceBytes(w, w.state.objects[id]));
  }

  // ---------- what is written of alike worlds ----------

  lemma PrunedAlike(s: State, t: State)
    requires t == s.(objects := t.objects, history := t.history) && t.objects.Keys == s.objects.Keys
    ensures Pruned(t) == Pruned(s).(objects := t.objects, history := t.history)
  {
    assert forall id :: id in t.objects <==> id in s.objects;
    hide OwnedByBucket;
    assert OwnedByObject(t.acls, t) == OwnedByObject(s.acls, s);
    assert OwnedByObject(t.taggings, t) == OwnedByObject(s.taggings, s);
    assert OwnedByObject(t.retention, t) == OwnedByObject(s.retention, s);
    assert OwnedByObject(t.holds, t) == OwnedByObject(s.holds, s);
  }

  lemma SavedSame(w: World, v: World)
    requires Inv(w) && Dated(w.state) && VersionsKept(w, v)
    requires v.state == w.state.(objects := v.state.objects, history := v.state.history)
    requires v.state.objects.Keys == w.state.objects.Keys
    requires forall id | id in w.state.objects :: SavedObject(v.state.objects[id]) == SavedObject(w.state.objects[id])
    ensures ToSave(v.state) == ToSave(w.state)
  {
    SelfKept(w);
    HistoriesSavedAlike(w, v);
    HistoriesSavedAlike(w, w);
    hide Inv, Dated, Pruned, SavedHistory, SavedObject, StableSort.Sort, VersionsKept, FilledBuckets;
    PrunedAlike(w.state, v.state);
    SameSavedObjects(w.state, v.state);
  }

  lemma SelfKept(w: World)
    requires Inv(w)
    ensures VersionsKept(w, w)
  {
    LikeSelf(w);
  }

  // Of alike worlds the same file is written.
  lemma SavedAlike(w: World, v: World)
    requires Inv(w) && Dated(w.state) && Like(w, v)
    ensures ToSave(v.state) == ToSave(w.state)
  {
    hide Inv, Dated, ToSave, SavedObject, Kept, VersionsKept;
    forall id | id in w.state.objects ensures SavedObject(v.state.objects[id]) == SavedObject(w.state.objects[id]) {
      ObjectSavedAlike(w, v, id);
    }
    SavedSame(w, v);
  }

  lemma SameSavedObjects(s: State, t: State)
    requires t.objects.Keys == s.objects.Keys
    requires forall id | id in s.objects :: SavedObject(t.objects[id]) == SavedObject(s.objects[id])
    ensures SavedObjects(t) == SavedObjects(s)
  {
    hide SavedObject;
    assert forall id :: id in t.objects <==> id in s.objects;
  }

  // ---------- when a file loads ----------

  // a file that was accepted: validated, and without bytes of its own
  ghost predicate Clean(file: State) {
    && Validated(file)
    && (forall id | id in file.objects :: ObjectIdOf(file.objects[id]) == id && file.objects[id].body == [])
    && (forall r | r in file.history :: r.body == [])
  }

  // The bootstrap object does not need its payload.
  ghost predicate ObjectsOpen(file: State, payloads: map<PayloadRef, Bytes>) {
    forall id | id in file.objects && id != BOOTSTRAP :: file.objects[id].ref in payloads
  }

  ghost predicate VersionsOpen(file: State, payloads: map<PayloadRef, Bytes>) {
    forall r | r in file.history && r.ref != NoRef :: r.ref in payloads
  }

  lemma ObjectLoadsIff(file: State, payloads: map<PayloadRef, Bytes>, id: ObjectId)
    requires Clean(file) && id in file.objects
    ensures LoadedObject(payloads, file.objects[id]).Some? <==> id == BOOTSTRAP || file.objects[id].ref in payloads
    ensures LoadedObject(payloads, file.objects[id]).Some? ==>
      var o := LoadedObject(payloads, file.objects[id]).value;
      ObjectIdOf(o) == id && o.ref == file.objects[id].ref != NoRef && o.contentType != ""
  {
    var p := file.objects[id];
    assert ValidObject(file, p);
    hide Clean, FallbackDate;
    assert |BootstrapBody()| == 18;
    hide BootstrapBody;
  }

  // the versions, in the order of the file
  lemma RecordsLoadIff(file: State, payloads: map<PayloadRef, Bytes>)
    requires Clean(file)
    ensures (forall i | 0 <= i < |Normal(file.history)| :: LoadedRecord(payloads, Normal(file.history)[i]).Some?)
      <==> VersionsOpen(file, payloads)
  {
    var sorted := StableSort.Sort(RecordBefore, file.history);
    StableSort.SameElements(sorted, file.history);
    forall i | 0 <= i < |sorted|
      ensures LoadedRecord(payloads, Normal(file.history)[i]).Some? <==> sorted[i].ref == NoRef || sorted[i].ref in payloads
    {
      assert sorted[i] in file.history;
    }
    hide Normal, StableSort.Sort, Clean, LoadedRecord;
    if forall i | 0 <= i < |sorted| :: sorted[i].ref == NoRef || sorted[i].ref in payloads {
      forall r | r in file.history && r.ref != NoRef ensures r.ref in payloads {
        assert r in sorted;
      }
    }
    assert forall i | 0 <= i < |sorted| :: sorted[i] in file.history;
  }

  // what a loaded state has of the settings in its file
  ghost predicate From(file: State, s: State) {
    && s.buckets == FilledBuckets(file.buckets) && s.buckets.Keys == file.buckets.Keys
    && s.objects.Keys == file.objects.Keys && s.versioning == file.versioning
    && s.configs.Keys <= file.configs.Keys && s.locks.Keys <= file.locks.Keys
    && s.acls.Keys <= file.acls.Keys && s.taggings.Keys <= file.taggings.Keys
    && s.retention.Keys <= file.retention.Keys && s.holds.Keys <= file.holds.Keys
    && forall id | id in s.retention :: s.retention[id] == file.retention[id]
  }

  lemma LoadedFrom(file: State, payloads: map<PayloadRef, Bytes>)
    requires forall id | id in file.objects :: LoadedObject(payloads, file.objects[id]).Some?
    requires forall i | 0 <= i < |Normal(file.history)| :: LoadedRecord(payloads, Normal(file.history)[i]).Some?
    ensures From(file, LoadedState(file, payloads))
    ensures LoadedState(file, payloads).objects == LoadedObjects(payloads, file)
    ensures LoadedState(file, payloads).history == LoadedHistory(payloads, Normal(file.history))
  {
    hide Normal, LoadedHistory, LoadedObject, LoadedRecord, FilledBucket;
  }

  lemma FromValid(file: State, s: State)
    requires Clean(file) && From(file, s)
    requires forall id | id in s.objects :: ValidObject(s, s.objects[id])
    requires forall i | 0 <= i < |s.history| :: ValidRecord(s, s.history[i])
    ensures Validated(s)
  {
    hide ValidObject, ValidRecord;
    OwnersStay(file, s, file.acls.Keys, s.acls.Keys);
    OwnersStay(file, s, file.taggings.Keys, s.taggings.Keys);
    OwnersStay(file, s, file.retention.Keys, s.retention.Keys);
    OwnersStay(file, s, file.holds.Keys, s.holds.Keys);
    hide OwnersValid;
  }

  lemma OwnersStay(file: State, s: State, ids: set<ObjectId>, left: set<ObjectId>)
    requires OwnersValid(file, ids) && left <= ids
    requires s.buckets.Keys == file.buckets.Keys && s.objects.Keys == file.objects.Keys
    ensures OwnersValid(s, left)
  {
    assert forall b :: b in file.buckets <==> b in s.buckets;
    assert forall id :: id in file.objects <==> id in s.objects;
  }

  // What was validated when it was saved stays valid.
  lemma LoadedValid(file: State, payloads: map<PayloadRef, Bytes>)
    requires Clean(file)
    requires forall id | id in file.objects :: LoadedObject(payloads, file.objects[id]).Some?
    requires forall i | 0 <= i < |Normal(file.history)| :: LoadedRecord(payloads, Normal(file.history)[i]).Some?
    ensures Validated(LoadedState(file, payloads))
  {
    hide Clean, From, LoadedState, Validated, ValidObject, ValidRecord, LoadedObject, LoadedHistory, Normal, LoadedRecord;
    var s := LoadedState(file, payloads);
    LoadedFrom(file, payloads);
    assert s.buckets.Keys == file.buckets.Keys by {
      FromBuckets(file, s);
    }
    LoadedRecordsValid(file, payloads, s);
    forall id | id in s.objects ensures ValidObject(s, s.objects[id]) {
      LoadedObjectValid(file, payloads, s, id);
    }
    FromValid(file, s);
  }

  lemma FromBuckets(file: State, s: State)
    requires From(file, s)
    ensures s.buckets.Keys == file.buckets.Keys
  {
  }

  lemma LoadedObjectValid(file: State, payloads: map<PayloadRef, Bytes>, s: State, id: ObjectId)
    requires Clean(file) && s.buckets.Keys == file.buckets.Keys && id in file.objects
    requires LoadedObject(payloads, file.objects[id]).Some?
    ensures ValidObject(s, LoadedObject(payloads, file.objects[id]).value)
  {
    ObjectLoadsIff(file, payloads, id);
    assert ValidObject(file, file.objects[id]);
    hide Clean, LoadedObject;
    assert forall b :: b in file.buckets <==> b in s.buckets;
  }

  lemma LoadedRecordsValid(file: State, payloads: map<PayloadRef, Bytes>, s: State)
    requires Clean(file) && s.buckets.Keys == file.buckets.Keys
    requires forall i | 0 <= i < |Normal(file.history)| :: LoadedRecord(payloads, Normal(file.history)[i]).Some?
    ensures var loaded := LoadedHistory(payloads, Normal(file.history));
      forall i | 0 <= i < |loaded| :: ValidRecord(s, loaded[i])
  {
    var sorted, loaded := StableSort.Sort(RecordBefore, file.history), LoadedHistory(payloads, Normal(file.history));
    StableSort.SameElements(sorted, file.history);
    forall i | 0 <= i < |loaded| ensures ValidRecord(s, loaded[i]) {
      assert sorted[i] in file.history;
      var k :| 0 <= k < |file.history| && file.history[k] == sorted[i];
      assert ValidRecord(file, file.history[k]);
      hide Clean, Normal, StableSort.Sort;
      assert Normal(file.history)[i].marker == sorted[i].marker;
    }
  }

  // A file loads exactly if the payloads of its objects and versions are there; nothing else can be wrong with it.
  lemma LoadsIff(file: State, payloads: map<PayloadRef, Bytes>)
    requires Clean(file)
    ensures Load(file, payloads).Some? <==> ObjectsOpen(file, payloads) && VersionsOpen(file, payloads)
    ensures Load(file, payloads).Some? ==>
      && (forall id | id in file.objects :: LoadedObject(payloads, file.objects[id]).Some?)
      && (forall i | 0 <= i < |Normal(file.history)| :: LoadedRecord(payloads, Normal(file.history)[i]).Some?)
      && Load(file, payloads) == Some(World(LoadedState(file, payloads), payloads, map[]))
  {
    hide Clean, Validated, LoadedObject, LoadedRecord, Normal, LoadedState, ObjectIdOf;
    RecordsLoadIff(file, payloads);
    forall id | id in file.objects
      ensures LoadedObject(payloads, file.objects[id]).Some? <==> id == BOOTSTRAP || file.objects[id].ref in payloads
    {
      ObjectLoadsIff(file, payloads, id);
    }
    if ObjectsOpen(file, payloads) && VersionsOpen(file, payloads) {
      LoadedValid(file, payloads);
    }
  }

  // what an accepted save leaves
  lemma FileClean(w: World)
    requires Inv(w) && Dated(w.state) && Validated(ToSave(w.state))
    ensures Clean(ToSave(w.state))
  {
    hide *;
    var file := ToSave(w.state);
    FileHistory(w);
    forall id | id in file.objects ensures ObjectIdOf(file.objects[id]) == id && file.objects[id].body == [] {
      FileObject(w, id);
      FileObjectBare(w, id);
    }
    CleanParts(file);
  }

  lemma CleanParts(file: State)
    requires Validated(file)
    requires forall id | id in file.objects :: ObjectIdOf(file.objects[id]) == id && file.objects[id].body == []
    requires forall r | r in file.history :: r.body == []
    ensures Clean(file)
  {
    hide Validated;
  }

  lemma FileObject(w: World, id: ObjectId)
    ensures ToSave(w.state).objects.Keys == w.state.objects.Keys
    ensures id in ToSave(w.state).objects <==> id in w.state.objects
    ensures id in w.state.objects ==> ToSave(w.state).objects[id] == SavedObject(w.state.objects[id])
  {
    hide SavedObject;
    assert ToSave(w.state).objects == SavedObjects(w.state);
  }

  lemma FileObjectBare(w: World, id: ObjectId)
    requires Inv(w) && id in w.state.objects
    ensures SavedObject(w.state.objects[id]) == OnFile(w.state.objects[id], SourceBytes(w, w.state.objects[id]))
    ensures ObjectIdOf(SavedObject(w.state.objects[id])) == id && SavedObject(w.state.objects[id]).body == []
  {
    KnownObject(w, id);
    LikeSelf(w);
    ObjectSavedAlike(w, w, id);
    hide Inv, ProperId, SavedObject, SourceBytes, BootstrapBody, Hint, FallbackDate;
  }

  // the versions in the file: sorted, and without their bytes
  lemma FileHistory(w: World)
    requires Inv(w) && Dated(w.state)
    ensures var bares := Bares(w.state.history);
      ToSave(w.state).history == StableSort.Sort(RecordBefore, bares) && multiset(ToSave(w.state).history) == multiset(bares)
    ensures forall r | r in ToSave(w.state).history :: r.body == []
  {
    LikeSelf(w);
    HistoriesSavedAlike(w, w);
    hide Inv, Dated, Like, Pruned, StableSort.Sort, SavedHistory;
    StableSort.SameElements(ToSave(w.state).history, Bares(w.state.history));
  }

  // ---------- what a file loads to ----------

  // the sum in a reference is the one of its bytes
  ghost predicate Addressed(payloads: map<PayloadRef, Bytes>) {
    forall ref | ref in payloads :: ref.Ref? && ref.digest == OfBody(payloads[ref])
  }

  // the bootstrap object, if there is one, has its first bytes, and they are still stored
  predicate Intact(w: World, payloads: map<PayloadRef, Bytes>) {
    BOOTSTRAP in w.state.objects ==>
      && SourceBytes(w, w.state.objects[BOOTSTRAP]) == Some(BootstrapBody())
      && Ref(Hint(BOOTSTRAP), OfBody(BootstrapBody())) in payloads
  }

  // An object loads as it was, with its bytes both in memory and under its reference.
  lemma ObjectLoads(payloads: map<PayloadRef, Bytes>, id: ObjectId, o: Object, bytes: Bytes)
    requires ObjectIdOf(o) == id && FilledIn(o, |bytes|) && o.lastModified != 0 && Addressed(payloads)
    requires Ref(Hint(id), OfBody(bytes)) in payloads
    requires id == BOOTSTRAP ==> bytes == BootstrapBody()
    ensures LoadedObject(payloads, OnFile(o, Some(bytes))) == Some(o.(body := bytes, ref := Ref(Hint(id), OfBody(bytes))))
  {
    assert |BootstrapBody()| == 18;
    hide BootstrapBody, FallbackDate, Hint;
    assert payloads[Ref(Hint(id), OfBody(bytes))] == bytes;
  }

  // an object that is in a validated file, with its bytes
  lemma ObjectHasBytes(w: World, id: ObjectId)
    requires Inv(w) && Dated(w.state) && Validated(ToSave(w.state)) && id in w.state.objects
    ensures id in ToSave(w.state).objects
    ensures var o := w.state.objects[id];
      var bytes := SourceBytes(w, o);
      && ToSave(w.state).objects[id] == OnFile(o, bytes)
      && ObjectIdOf(o) == id && FilledIn(o, SizeOf(bytes)) && o.lastModified != 0
      && (id == BOOTSTRAP || bytes.Some?)
      && (bytes.Some? ==> ToSave(w.state).objects[id].ref == Ref(Hint(id), OfBody(bytes.value)))
  {
    FileObject(w, id);
    FileObjectBare(w, id);
    LikeSelf(w);
    ObjectComplete(w, w, id);
    assert ValidObject(ToSave(w.state), ToSave(w.state).objects[id]);
    hide Inv, Validated, ToSave, SavedObject, SourceBytes, BootstrapBody, Hint, FallbackDate, Like, Tidy, TrimSpace, FilledIn;
  }

  lemma ObjectLoadsAlike(w: World, payloads: map<PayloadRef, Bytes>, id: ObjectId)
    requires Inv(w) && Dated(w.state) && Validated(ToSave(w.state)) && id in w.state.objects
    requires Addressed(payloads) && Intact(w, payloads) && ObjectsOpen(ToSave(w.state), payloads)
    ensures id in ToSave(w.state).objects
    ensures var o := w.state.objects[id];
      var bytes := SourceBytes(w, o);
      && bytes.Some? && Ref(Hint(id), OfBody(bytes.value)) in payloads
      && LoadedObject(payloads, ToSave(w.state).objects[id])
         == Some(o.(body := bytes.value, ref := Ref(Hint(id), OfBody(bytes.value))))
  {
    hide Inv, Dated, Validated, ToSave, Addressed, LoadedObject, SourceBytes, BootstrapBody, Hint, FilledIn, OnFile;
    ObjectHasBytes(w, id);
    ObjectLoads(payloads, id, w.state.objects[id], SourceBytes(w, w.state.objects[id]).value);
  }

  // with its bytes in both places, an object is the same as before
  lemma LoadedKept(w: World, v: World, id: ObjectId, bytes: Bytes)
    requires id in w.state.objects && id in v.state.objects && Addressed(v.payloads)
    requires SourceBytes(w, w.state.objects[id]) == Some(bytes) && Ref(Hint(id), OfBody(bytes)) in v.payloads
    requires v.state.objects[id] == w.state.objects[id].(body := bytes, ref := Ref(Hint(id), OfBody(bytes)))
    ensures Kept(w, v, id)
  {
    hide Hint;
    assert v.payloads[Ref(Hint(id), OfBody(bytes))] == bytes;
  }

  lemma BareRests(r: VersionRecord)
    requires Resting(r)
    ensures Resting(Bare(r)) && Bare(Bare(r)) == Bare(r)
  {
  }

  // the versions of a file are in their order and need nothing filled in
  lemma FileRests(w: World)
    requires Inv(w) && Dated(w.state)
    ensures var f := ToSave(w.state).history;
      && Normal(f) == StableSort.Sort(RecordBefore, f)
      && multiset(Bares(Normal(f))) == multiset(Bares(w.state.history))
      && forall r | r in Normal(f) :: exists k :: 0 <= k < |w.state.history| && r == Bare(w.state.history[k])
  {
    hide *;
    var f, h := ToSave(w.state).history, w.state.history;
    FileHistory(w);
    LikeSelf(w);
    VersionsRest(w, w);
    StableSort.SameElements(f, Bares(h));
    forall r | r in f ensures Resting(r) && Bare(r) == r && exists k :: 0 <= k < |h| && r == Bare(h[k]) {
      var k :| 0 <= k < |Bares(h)| && Bares(h)[k] == r;
      assert h[k] in h;
      BareRests(h[k]);
    }
    RestingSettled(f);
    NormalSorts(f);
    assert Bares(f) == f;
    StableSort.SameElements(Normal(f), f);
  }

  lemma RestingSettled(f: seq<VersionRecord>)
    requires forall r | r in f :: Resting(r)
    ensures forall r | r in f :: SettledRecord(r)
  {
    hide SettledRecord;
  }

  lemma VersionsLoaded(w: World, v: World)
    requires Inv(w) && Dated(w.state) && Addressed(v.payloads) && VersionsOpen(ToSave(w.state), v.payloads)
    requires forall i | 0 <= i < |Normal(ToSave(w.state).history)| :: LoadedRecord(v.payloads, Normal(ToSave(w.state).history)[i]).Some?
    requires v.state.history == LoadedHistory(v.payloads, Normal(ToSave(w.state).history))
    ensures VersionsKept(w, v)
  {
    hide *;
    FileRests(w);
    var n := Normal(ToSave(w.state).history);
    forall i | 0 <= i < |n| ensures Bare(v.state.history[i]) == Bare(n[i]) && TidyRecord(v.payloads, v.state.history[i]) {
      assert n[i] in n;
      var k :| 0 <= k < |w.state.history| && n[i] == Bare(w.state.history[k]);
      LoadedAt(v.payloads, n, i);
      RecordOpens(w, k);
      RecordLoaded(w, v, w.state.history[k]);
    }
    assert Bares(v.state.history) == Bares(n);
    VersionsTidy(w, v);
  }

  ghost predicate TidyRecord(payloads: map<PayloadRef, Bytes>, r: VersionRecord) {
    Tidy(payloads, RecordIdOf(r), r.ref, r.body) && (r.ref == NoRef ==> r.body == [])
  }

  lemma VersionsTidy(w: World, v: World)
    requires multiset(Bares(v.state.history)) == multiset(Bares(w.state.history))
    requires forall i | 0 <= i < |v.state.history| :: TidyRecord(v.payloads, v.state.history[i])
    ensures VersionsKept(w, v)
  {
    hide Tidy;
  }

  lemma LoadedAt(payloads: map<PayloadRef, Bytes>, history: seq<VersionRecord>, i: nat)
    requires forall i | 0 <= i < |history| :: LoadedRecord(payloads, history[i]).Some?
    requires i < |history|
    ensures LoadedHistory(payloads, history)[i] == LoadedRecord(payloads, history[i]).value
  {
    hide LoadedRecord;
  }

  lemma RecordOpens(w: World, k: nat)
    requires Inv(w) && k < |w.state.history|
    ensures var q := w.state.history[k];
      q.ref != NoRef ==> Opens(w.payloads, RecordIdOf(q), q.ref, q.size, q.etag)
  {
    assert Holds(w, RecordPayloadsClause);
  }

  lemma RecordLoaded(w: World, v: World, q: VersionRecord)
    requires Addressed(v.payloads) && LoadedRecord(v.payloads, Bare(q)).Some?
    requires q.ref != NoRef ==> Opens(w.payloads, RecordIdOf(q), q.ref, q.size, q.etag)
    ensures Bare(LoadedRecord(v.payloads, Bare(q)).value) == Bare(Bare(q))
    ensures TidyRecord(v.payloads, LoadedRecord(v.payloads, Bare(q)).value)
  {
    hide Hint;
  }

  lemma BucketsFilled(w: World)
    requires Inv(w) && Dated(w.state)
    ensures FilledBuckets(w.state.buckets) == w.state.buckets
  {
    assert Holds(w, BucketsClause);
    hide Inv;
    forall b | b in w.state.buckets ensures FilledBucket(w.state.buckets[b]) == w.state.buckets[b] {
    }
  }

  lemma ElseLoaded(w: World, v: World)
    requires Inv(w) && Dated(w.state) && v.uploads == map[]
    requires var file := ToSave(w.state);
      v.state == Pruned(file).(buckets := FilledBuckets(file.buckets), objects := v.state.objects, history := v.state.history)
    ensures SameElse(w.(uploads := map[]), v)
  {
    SavedShape(w);
    BucketsFilled(w);
    PruningDropsNothing(w);
    FileKeys(w);
    hide Inv, Dated, ToSave, Pruned, FilledBuckets, SavedObjects, SavedHistory;
    PrunedAlike(w.state, ToSave(w.state));
  }

  lemma FileKeys(w: World)
    ensures ToSave(w.state).objects.Keys == w.state.objects.Keys
  {
    FileObject(w, BOOTSTRAP);
  }

  // From what is saved of a world, with its payloads and the bootstrap object intact, a world is loaded that is like it.
  lemma LoadsAlike(w: World, payloads: map<PayloadRef, Bytes>)
    requires Inv(w) && Dated(w.state) && Validated(ToSave(w.state))
    requires Addressed(payloads) && Intact(w, payloads) && Load(ToSave(w.state), payloads).Some?
    ensures Like(w.(uploads := map[]), Load(ToSave(w.state), payloads).value)
  {
    hide *;
    var file := ToSave(w.state);
    FileClean(w);
    LoadsIff(file, payloads);
    var v := Load(file, payloads).value;
    LoadedFrom(file, payloads);
    LoadedStateIs(file, payloads);
    ElseLoaded(w, v);
    VersionsLoaded(w, v);
    FileKeys(w);
    forall id | id in w.state.objects ensures id in v.state.objects && Kept(w, v, id) {
      ObjectLoadsAlike(w, payloads, id);
      LoadedObjectsAt(payloads, file, id);
      LoadedKept(w, v, id, SourceBytes(w, w.state.objects[id]).value);
    }
    LoadedKeys(payloads, file);
    LikeParts(w, v);
  }

  lemma LoadedStateIs(file: State, payloads: map<PayloadRef, Bytes>)
    requires forall id | id in file.objects :: LoadedObject(payloads, file.objects[id]).Some?
    requires forall i | 0 <= i < |Normal(file.history)| :: LoadedRecord(payloads, Normal(file.history)[i]).Some?
    ensures var s := LoadedState(file, payloads);
      s == Pruned(file).(buckets := FilledBuckets(file.buckets), objects := s.objects, history := s.history)
  {
    hide Pruned, FilledBuckets, LoadedObjects, LoadedHistory, Normal, LoadedObject, LoadedRecord;
  }

  lemma LoadedObjectsAt(payloads: map<PayloadRef, Bytes>, file: State, id: ObjectId)
    requires forall id | id in file.objects :: LoadedObject(payloads, file.objects[id]).Some?
    requires id in file.objects
    ensures id in LoadedObjects(payloads, file) && LoadedObjects(payloads, file)[id] == LoadedObject(payloads, file.objects[id]).value
  {
    hide LoadedObject;
  }

  lemma LoadedKeys(payloads: map<PayloadRef, Bytes>, file: State)
    requires forall id | id in file.objects :: LoadedObject(payloads, file.objects[id]).Some?
    ensures LoadedObjects(payloads, file).Keys == file.objects.Keys
  {
    hide LoadedObject;
  }

  lemma LikeParts(w: World, v: World)
    requires SameElse(w.(uploads := map[]), v) && VersionsKept(w, v)
    requires v.state.objects.Keys == w.state.objects.Keys
    requires forall id | id in w.state.objects :: id in v.state.objects && Kept(w, v, id)
    ensures Like(w.(uploads := map[]), v)
  {
    var w0 := w.(uploads := map[]);
    assert VersionsKept(w0, v);
    forall id | id in w0.state.objects ensures Kept(w0, v, id) {
      assert Kept(w, v, id);
    }
  }

  // Whatever the bootstrap object is, saving what was loaded leaves the file as it is.
  lemma SavedAgain(w: World, payloads: map<PayloadRef, Bytes>)
    requires Inv(w) && Dated(w.state) && Validated(ToSave(w.state))
    requires Addressed(payloads) && Load(ToSave(w.state), payloads).Some?
    ensures ToSave(Load(ToSave(w.state), payloads).value.state) == ToSave(w.state)
  {
    hide *;
    var file := ToSave(w.state);
    FileClean(w);
    LoadsIff(file, payloads);
    var v := Load(file, payloads).value;
    LoadedFrom(file, payloads);
    LoadedStateIs(file, payloads);
    ElseLoaded(w, v);
    ElseIs(w.(uploads := map[]), v);
    VersionsLoaded(w, v);
    FileKeys(w);
    LoadedKeys(payloads, file);
    forall id | id in w.state.objects ensures SavedObject(v.state.objects[id]) == SavedObject(w.state.objects[id]) {
      ObjectHasBytes(w, id);
      FileObject(w, id);
      LoadedObjectsAt(payloads, file, id);
      ObjectSavedAgain(payloads, id, w.state.objects[id], SourceBytes(w, w.state.objects[id]));
    }
    SavedSame(w, v);
  }

  lemma ElseIs(w: World, v: World)
    requires SameElse(w, v)
    ensures v.state == w.state.(objects := v.state.objects, history := v.state.history) && v.uploads == w.uploads
  {
  }

  lemma ObjectSavedAgain(payloads: map<PayloadRef, Bytes>, id: ObjectId, o: Object, bytes: Option<Bytes>)
    requires ObjectIdOf(o) == id && FilledIn(o, SizeOf(bytes)) && o.lastModified != 0 && Addressed(payloads)
    requires id == BOOTSTRAP || bytes.Some?
    requires LoadedObject(payloads, OnFile(o, bytes)).Some?
    ensures SavedObject(LoadedObject(payloads, OnFile(o, bytes)).value) == OnFile(o, bytes)
  {
    assert |BootstrapBody()| == 18;
    hide BootstrapBody, FallbackDate, Hint;
    var p := OnFile(o, bytes);
    assert p.ref.Ref? && (id != BOOTSTRAP && p.ref in payloads ==> payloads[p.ref] == bytes.value);
    hide Addressed;
  }

  // A world that is loaded has the bootstrap object with its first bytes, in memory; it is like no world that has others.
  lemma LoadedIntact(u: World, file: State, payloads: map<PayloadRef, Bytes>)
    requires Clean(file) && Load(file, payloads).Some? && Like(u, Load(file, payloads).value)
    ensures Intact(u, payloads)
  {
    hide *;
    LoadsIff(file, payloads);
    LoadedFrom(file, payloads);
    LoadedKeys(payloads, file);
    var v := Load(file, payloads).value;
    LikeKeys(u, v);
    if BOOTSTRAP in u.state.objects {
      LoadedObjectsAt(payloads, file, BOOTSTRAP);
      LikeAt(u, v, BOOTSTRAP);
      BootstrapLoads(file, payloads);
      BootstrapTold(u, v, v.state.objects[BOOTSTRAP]);
    }
    IntactWithout(u, payloads);
  }

  lemma IntactWithout(u: World, payloads: map<PayloadRef, Bytes>)
    ensures BOOTSTRAP !in u.state.objects ==> Intact(u, payloads)
  {
  }

  lemma BootstrapLoads(file: State, payloads: map<PayloadRef, Bytes>)
    requires Clean(file) && BOOTSTRAP in file.objects
    ensures LoadedObject(payloads, file.objects[BOOTSTRAP]).Some?
    ensures var p := LoadedObject(payloads, file.objects[BOOTSTRAP]).value;
      p.body == BootstrapBody() && p.ref != NoRef
  {
    assert ValidObject(file, file.objects[BOOTSTRAP]);
    assert |BootstrapBody()| == 18;
    hide Clean, FallbackDate, BootstrapBody;
  }

  lemma BootstrapTold(u: World, v: World, p: Object)
    requires BOOTSTRAP in u.state.objects && p.ref != NoRef && p.body == BootstrapBody()
    requires Tidy(v.payloads, BOOTSTRAP, p.ref, p.body) && SourceBytes(v, p) == SourceBytes(u, u.state.objects[BOOTSTRAP])
    ensures Intact(u, v.payloads)
  {
    assert |BootstrapBody()| == 18;
    hide BootstrapBody, Hint;
  }

  // ---------- dates ----------

  lemma StoreDated(w: World, o: Object, now: nat)
    requires Dated(w.state) && now > 0
    ensures Dated(StoreObject(w, o, now).state)
  {
    StoreObjectShape(w, o, now);
    OnlyObjectsAndHistory(w, o, now);
    var r := RecordOf(Normalized(o, now).(body := []), NextSequence(w.state.history));
    assert r.lastModified != 0 && Normalized(o, now).lastModified != 0;
    hide StoreObject, Normalized, RecordOf, NextSequence;
  }

  lemma ProtectedDated(s: State, t: State)
    requires Dated(s) && t == s.(retention := t.retention, holds := t.holds)
    ensures Dated(t)
  {
  }

  lemma StoresDated(w: World, u: string, id: ObjectId, from: ObjectId, body: Bytes, contentType: string,
                    metadata: map<string, string>, headers: map<string, string>, env: Env)
    requires Dated(w.state) && env.now > 0
    ensures Dated(PutTo(w, id, body, contentType, metadata, headers, env).state)
    ensures Dated(CopyTo(w, id, from, body, contentType, metadata, headers, env).state)
    ensures u in w.uploads ==> Dated(CompleteTo(w, u, env).state)
  {
    var o := FreshObject(id, body, contentType, metadata, headers);
    hide Dated, StoreObject, FreshObject, Completed;
    assert Dated(StorePayload(w, id, body).state);
    StoreDated(StorePayload(w, id, body), o, env.now);
    var s := StoreFresh(w, id, body, contentType, metadata, headers, env.now).state;
    ReprotectedShape(s, id, env.until);
    ProtectedDated(s, Reprotected(s, id, env.until));
    CopiedShape(s, id, from, env.until);
    ProtectedDated(s, ApplyDefaultRetention(CopyProtection(ClearProtection(s, id), id, from), id, env.until));
    if u in w.uploads {
      var c := Completed(w.uploads[u]);
      StoreDated(w, c, env.now);
      var t := StoreObject(w, c, env.now).state;
      ReprotectedShape(t, ObjectIdOf(c), env.until);
      ProtectedDated(t, Reprotected(t, ObjectIdOf(c), env.until));
    }
  }

  lemma RemoveDated(w: World, id: ObjectId, env: Env)
    requires Dated(w.state) && env.now > 0
    ensures Dated(RemoveObject(w, id, env).0.state)
  {
    RemovalIs(w, id, env);
    hide RemoveObject, Blocked, Dated, DropObject, RecordMarker;
    MarkerDated(w.state, id, env.now);
    DropDated(w.state, id);
    DropDated(RecordMarker(w.state, id, env.now), id);
  }

  lemma MarkerDated(s: State, id: ObjectId, now: nat)
    requires Dated(s) && now > 0
    ensures Dated(RecordMarker(s, id, now))
  {
    hide NextSequence;
  }

  lemma DropDated(s: State, id: ObjectId)
    requires Dated(s)
    ensures Dated(DropObject(s, id))
  {
  }

  lemma {:induction false} RemoveEachDated(w: World, bucket: string, keys: seq<string>, quiet: bool, env: Env)
    requires Dated(w.state) && env.now > 0
    ensures Dated(RemoveEach(w, bucket, keys, quiet, env).0.state)
    decreases |keys|
  {
    hide TrimSpace, RemoveObject, Dated;
    if |keys| > 0 {
      var key := TrimSpace(keys[0]);
      if key == "" {
        RemoveEachDated(w, bucket, keys[1..], quiet, NextSave(env));
      } else {
        RemoveDated(w, ObjectId(bucket, key), env);
        RemoveEachDated(RemoveObject(w, ObjectId(bucket, key), env).0, bucket, keys[1..], quiet, NextSave(env));
      }
    }
  }

  lemma StepDated(w: World, op: Op, env: Env)
    requires Dated(w.state) && env.now > 0
    ensures Dated(Step(w, op, env).state)
  {
    if Quiet(op) {
      QuietLeaves(w, op, env);
      QuietBuckets(w, op, env);
      hide Step, Quiet;
    } else {
      hide Quiet, PutObject, CopyObject, CompleteUpload, DeleteBucket, RemoveObject, RemoveEach, TrimSpace, Dated;
      match op
      case OpPutObject(bucket, key, body, contentType, metadata, headers) =>
        PutDated(w, bucket, key, body, contentType, metadata, headers, env);
      case OpCopyObject(bucket, key, sourceBucket, sourceKey, directive, metadata) =>
        CopyDated(w, bucket, key, sourceBucket, sourceKey, directive, metadata, env);
      case OpCompleteUpload(uploadId) => CompleteDated(w, uploadId, env);
      case OpDeleteBucket(name) => DeleteBucketDated(w, name, env);
      case OpDeleteObject(bucket, key) =>
        if CheckedId(w, bucket, key).Ok? {
          RemoveDated(w, CheckedId(w, bucket, key).value, env);
        }
      case OpDeleteObjects(bucket, keys, quiet) =>
        if RequireBucket(w, bucket).Ok? {
          RemoveEachDated(w, RequireBucket(w, bucket).value, keys, quiet, env);
        }
      case _ =>
    }
  }

  lemma PutDated(w: World, bucket: string, key: string, body: Bytes, contentType: string,
                 metadata: map<string, string>, headers: map<string, string>, env: Env)
    requires Dated(w.state) && env.now > 0
    ensures Dated(PutObject(w, bucket, key, body, contentType, metadata, headers, env).0.state)
  {
    hide TrimSpace, CheckedId, PutTo, FreshObject, Normalized, Blocked, Dated, TypeOr;
    if CheckedId(w, bucket, key).Ok? {
      var id := CheckedId(w, bucket, key).value;
      StoresDated(w, "", id, id, body, TypeOr(contentType), metadata, headers, env);
    }
  }

  lemma CompleteDated(w: World, uploadId: string, env: Env)
    requires Dated(w.state) && env.now > 0
    ensures Dated(CompleteUpload(w, uploadId, env).0.state)
  {
    hide TrimSpace, CompleteTo, Completed, Normalized, Blocked, Dated;
    if FindUpload(w, uploadId).Ok? {
      StoresDated(w, FindUpload(w, uploadId).value, BOOTSTRAP, BOOTSTRAP, [], "", map[], map[], env);
    }
  }

  lemma DeleteBucketDated(w: World, name: string, env: Env)
    requires Dated(w.state)
    ensures Dated(DeleteBucket(w, name, env).0.state)
  {
    hide RequireBucket, BucketEmpty, DropBucket, Dated;
    if RequireBucket(w, name).Ok? {
      DroppedDated(w.state, RequireBucket(w, name).value);
    }
  }

  lemma DroppedDated(s: State, name: string)
    requires Dated(s)
    ensures Dated(DropBucket(s, name))
  {
  }

  lemma QuietBuckets(w: World, op: Op, env: Env)
    requires Dated(w.state) && env.now > 0 && Quiet(op)
    ensures forall b | b in Step(w, op, env).state.buckets :: Step(w, op, env).state.buckets[b].createdAt != 0
  {
    hide TrimSpace, CheckedId, RequireBucket, RequireObject, FindUpload, ValidBucketName, UpsertPart, TypeOr, Reduces;
  }

  lemma CopyDated(w: World, bucket: string, key: string, sourceBucket: string, sourceKey: string,
                  directive: string, metadata: map<string, string>, env: Env)
    requires Dated(w.state) && env.now > 0
    ensures Dated(CopyObject(w, bucket, key, sourceBucket, sourceKey, directive, metadata, env).0.state)
  {
    hide TrimSpace, CheckedId, CopyTo, SourceBytes, FreshObject, Normalized, Blocked, Dated, ResolvedMetadata;
    var to, from := CheckedId(w, bucket, key), CheckedId(w, sourceBucket, sourceKey);
    if to.Ok? && from.Ok? && from.value in w.state.objects && SourceBytes(w, w.state.objects[from.value]).Some? {
      var source := w.state.objects[from.value];
      StoresDated(w, "", to.value, from.value, SourceBytes(w, source).value, source.contentType,
                  ResolvedMetadata(source.metadata, directive, metadata), source.headers, env);
    }
  }
}
