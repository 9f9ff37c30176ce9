/** Saving an S3 state to the file repository and loading it again: filling in defaults, pruning
    entries without an owner, moving bytes to the payload store, and validation. */
module S3Repository {
  import opened Wrappers
  import opened Strings
  import opened S3Model
  import opened S3Invariants
  import StableSort

  // ---------- pruning ----------

  function OwnedByBucket<V>(m: map<string, V>, buckets: set<string>): map<string, V> {
    map b | b in m && b in buckets :: m[b]
  }

  function OwnedByObject<V>(m: map<ObjectId, V>, s: State): map<ObjectId, V> {
    map id | id in m && id.bucket in s.buckets && id in s.objects :: m[id]
  }

  // the pruneOrphaned passes of normalizeState
  function Pruned(s: State): State {
    s.(configs := map id | id in s.configs && id.bucket in s.buckets :: s.configs[id],
       locks := OwnedByBucket(s.locks, s.buckets.Keys),
       acls := OwnedByObject(s.acls, s), taggings := OwnedByObject(s.taggings, s),
       retention := OwnedByObject(s.retention, s), holds := OwnedByObject(s.holds, s))
  }

  lemma AllOwned<V>(m: map<ObjectId, V>, s: State)
    requires m.Keys <= s.objects.Keys && forall id | id in s.objects :: id.bucket in s.buckets
    ensures OwnedByObject(m, s) == m
  {
  }

  // In a reachable state nothing is an orphan.
  lemma PruningDropsNothing(w: World)
    requires Inv(w)
    ensures Pruned(w.state) == w.state
  {
    var s := w.state;
    assert Holds(w, ObjectsClause) && Holds(w, SettingsClause) && Holds(w, GovernanceClause);
    assert forall id | id in s.objects :: id.bucket in s.buckets;
    hide Inv, OwnedByObject;
    AllOwned(s.acls, s);
    AllOwned(s.taggings, s);
    AllOwned(s.retention, s);
    AllOwned(s.holds, s);
    assert Pruned(s).configs == s.configs;
    assert Pruned(s).locks == s.locks;
  }

  // ---------- saving ----------

  // fallbackBucketCreatedAt, in seconds
  function FallbackDate(bucket: string): nat {
    if bucket == BOOTSTRAP.bucket then 1_776_297_600 else 946_684_800
  }

  // normalizeState on one object: the bootstrap object gets its bytes back when it holds none
  function Filled(o: Object): Object {
    var p := if |o.body| == 0 && ObjectIdOf(o) == BOOTSTRAP then o.(body := BootstrapBody()) else o;
    p.(contentType := if p.contentType == "" then DEFAULT_TYPE else p.contentType,
       size := if p.size == 0 then |p.body| else p.size,
       etag := if p.etag == NoTag then BodyTag(OfBody(p.body)) else p.etag,
       lastModified := if p.lastModified == 0 then FallbackDate(p.bucket) else p.lastModified)
  }

  // ensurePayloadRefs on one object
  function Externalized(o: Object): Object {
    if o.ref != NoRef then o.(body := [])
    else if |o.body| == 0 then o
    else o.(ref := PayloadRefFor(Hint(ObjectIdOf(o)), o.body), body := [])
  }

  function SavedObject(o: Object): Object {
    Externalized(Filled(o))
  }

  function SavedObjects(s: State): map<ObjectId, Object> {
    map id | id in s.objects :: SavedObject(s.objects[id])
  }

  // the order in which versions are saved
  predicate RecordBefore(a: VersionRecord, b: VersionRecord) {
    if a.bucket != b.bucket then Less(a.bucket, b.bucket)
    else if a.key != b.key then Less(a.key, b.key)
    else a.sequence < b.sequence
  }

  // normalizeState on the version at a place of the sorted history
  function FilledRecord(r: VersionRecord, i: nat): VersionRecord {
    var p := r.(sequence := if r.sequence == 0 then i + 1 else r.sequence,
                lastModified := if r.lastModified == 0 then FallbackDate(r.bucket) else r.lastModified);
    if p.marker then p.(contentType := "", size := 0, body := [])
    else p.(contentType := if p.contentType == "" then DEFAULT_TYPE else p.contentType,
            size := if p.size == 0 then |p.body| else p.size,
            etag := if p.etag == NoTag then BodyTag(OfBody(p.body)) else p.etag)
  }

  function Normal(history: seq<VersionRecord>): (normal: seq<VersionRecord>)
    ensures |normal| == |history|
  {
    var sorted := StableSort.Sort(RecordBefore, history);
    seq(|sorted|, i requires 0 <= i < |sorted| => FilledRecord(sorted[i], i))
  }

  // ensurePayloadRefs on one version. (A version without a reference has no bytes: HistoryPlaced.)
  function SavedRecord(r: VersionRecord): VersionRecord {
    if r.ref != NoRef then r.(body := []) else r
  }

  function SavedHistory(history: seq<VersionRecord>): (saved: seq<VersionRecord>)
    ensures |saved| == |history|
  {
    var normal := Normal(history);
    seq(|normal|, i requires 0 <= i < |normal| => SavedRecord(normal[i]))
  }

  function FilledBucket(b: Bucket): Bucket {
    WithRegion(b).(createdAt := if b.createdAt == 0 then FallbackDate(b.name) else b.createdAt)
  }

  function FilledBuckets(buckets: map<string, Bucket>): map<string, Bucket> {
    map name | name in buckets :: FilledBucket(buckets[name])
  }

  // The state as it is written to the file.
  function ToSave(s: State): State {
    Pruned(s).(buckets := FilledBuckets(s.buckets), objects := SavedObjects(s), history := SavedHistory(s.history))
  }

  predicate ValidObject(s: State, o: Object) {
    o.bucket != "" && o.key != "" && o.bucket in s.buckets && o.contentType != "" && (o.ref != NoRef || |o.body| > 0)
  }

  predicate ValidRecord(s: State, r: VersionRecord) {
    && r.bucket != "" && r.key != "" && r.bucket in s.buckets
    && (r.marker || (r.contentType != "" && (r.ref != NoRef || |r.body| > 0)))
  }

  // validateState; names of owners are checked as in the source, modes and periods hold by their types
  predicate Validated(s: State) {
    && (forall b | b in s.buckets :: b != "" && s.buckets[b].region != "")
    && (forall id | id in s.objects :: ValidObject(s, s.objects[id]))
    && (forall b | b in s.versioning :: b != "" && b in s.buckets)
    && (forall i | 0 <= i < |s.history| :: ValidRecord(s, s.history[i]))
    && (forall id | id in s.configs :: id.bucket != "" && id.bucket in s.buckets)
    && (forall b | b in s.locks :: b != "" && b in s.buckets)
    && OwnersValid(s, s.acls.Keys) && OwnersValid(s, s.taggings.Keys)
    && OwnersValid(s, s.retention.Keys) && OwnersValid(s, s.holds.Keys)
    && (forall id | id in s.retention :: s.retention[id].until != 0)
  }

  predicate OwnersValid(s: State, ids: set<ObjectId>) {
    forall id | id in ids :: id.bucket != "" && id.key != "" && id.bucket in s.buckets && id in s.objects
  }

  datatype Need = ObjectBytes | VersionBytes | RetainUntilDates

  ghost predicate Met(s: State, need: Need) {
    match need
    case ObjectBytes =>
      forall id | id in s.objects :: id == BOOTSTRAP || s.objects[id].ref != NoRef || |s.objects[id].body| > 0
    case VersionBytes => forall i | 0 <= i < |s.history| :: s.history[i].marker || s.history[i].ref != NoRef
    case RetainUntilDates => forall id | id in s.retention :: s.retention[id].until != 0
  }

  // No object and no version lacks its bytes, and no retention lacks its date.
  ghost predicate Saveable(s: State) {
    forall need :: Met(s, need)
  }

  lemma SaveableMeets(s: State)
    ensures Saveable(s) <==> Met(s, ObjectBytes) && Met(s, VersionBytes) && Met(s, RetainUntilDates)
  {
  }

  lemma ObjectsValid(w: World, t: State)
    requires Sound(w) && t.buckets.Keys == w.state.buckets.Keys && t.objects == SavedObjects(w.state)
    ensures (forall id | id in t.objects :: ValidObject(t, t.objects[id])) <==> Met(w.state, ObjectBytes)
  {
    SavedObjectsValid(w, t);
    hide Sound, SavedObject, ValidObject;
    forall id | id in w.state.objects ensures id in t.objects && t.objects[id] == SavedObject(w.state.objects[id]) {
    }
    hide SavedObjects;
    forall id | id in w.state.objects
      ensures ValidObject(t, t.objects[id]) <==> id == BOOTSTRAP || w.state.objects[id].ref != NoRef || |w.state.objects[id].body| > 0
    {
    }
    assert t.objects.Keys == w.state.objects.Keys;
  }

  lemma SavedObjectsValid(w: World, t: State)
    requires Sound(w) && t.buckets.Keys == w.state.buckets.Keys
    ensures forall id | id in w.state.objects ::
      && ObjectIdOf(SavedObject(w.state.objects[id])) == id
      && (ValidObject(t, SavedObject(w.state.objects[id])) <==>
          id == BOOTSTRAP || w.state.objects[id].ref != NoRef || |w.state.objects[id].body| > 0)
  {
    assert forall b :: b in w.state.buckets <==> b in t.buckets;
  }

  // what is left to check of a version is whether it has its bytes
  lemma RecordValid(w: World, t: State, r: VersionRecord, i: nat)
    requires Sound(w) && t.buckets.Keys == w.state.buckets.Keys && r in w.state.history
    ensures ValidRecord(t, SavedRecord(FilledRecord(r, i))) <==> r.marker || r.ref != NoRef
  {
    assert ProperId(RecordIdOf(r)) && r.bucket in w.state.buckets;
    hide Sound, Trimmed;
    assert r.bucket in t.buckets.Keys;
  }

  lemma RecordsValid(w: World, t: State)
    requires Sound(w) && t.buckets.Keys == w.state.buckets.Keys && t.history == SavedHistory(w.state.history)
    ensures (forall i | 0 <= i < |t.history| :: ValidRecord(t, t.history[i])) <==> Met(w.state, VersionBytes)
  {
    var h, sorted := w.state.history, StableSort.Sort(RecordBefore, w.state.history);
    StableSort.SameElements(sorted, h);
    forall i | 0 <= i < |t.history|
      ensures ValidRecord(t, t.history[i]) <==> sorted[i].marker || sorted[i].ref != NoRef
    {
      assert t.history[i] == SavedRecord(FilledRecord(sorted[i], i)) && sorted[i] in h;
      RecordValid(w, t, sorted[i], i);
    }
    hide Sound, ValidRecord, SavedHistory;
    AllHaveBytes(sorted);
    AllHaveBytes(h);
  }

  predicate HasBytes(r: VersionRecord) {
    r.marker || r.ref != NoRef
  }

  lemma AllHaveBytes(history: seq<VersionRecord>)
    ensures (forall i | 0 <= i < |history| :: history[i].marker || history[i].ref != NoRef) <==> forall r | r in history :: HasBytes(r)
  {
    assert forall i | 0 <= i < |history| :: history[i] in history;
  }

  lemma RestValid(w: World, t: State)
    requires Sound(w) && t == w.state.(buckets := FilledBuckets(w.state.buckets), objects := SavedObjects(w.state), history := t.history)
    ensures (forall b | b in t.buckets :: b != "" && t.buckets[b].region != "")
    ensures (forall b | b in t.versioning :: b != "" && b in t.buckets) && (forall b | b in t.locks :: b != "" && b in t.buckets)
    ensures forall id | id in t.configs :: id.bucket != "" && id.bucket in t.buckets
    ensures OwnersValid(t, t.acls.Keys) && OwnersValid(t, t.taggings.Keys)
    ensures OwnersValid(t, t.retention.Keys) && OwnersValid(t, t.holds.Keys)
  {
    hide VersionsAgree, ObjectPayloads, RecordPayloads, SavedObject, HistoryPlaced, UploadsPlaced, Trimmed;
    assert t.objects.Keys == w.state.objects.Keys;
    assert t.buckets.Keys == w.state.buckets.Keys;
  }

  // In a reachable state nothing but buckets, objects and versions is written otherwise than it is.
  lemma SavedShape(w: World)
    requires Inv(w)
    ensures var s := w.state;
      ToSave(s) == s.(buckets := FilledBuckets(s.buckets), objects := SavedObjects(s), history := SavedHistory(s.history))
    ensures ToSave(w.state).buckets.Keys == w.state.buckets.Keys
  {
    PruningDropsNothing(w);
    hide Inv, Pruned, SavedObjects, SavedHistory, FilledBucket;
  }

  // The repository accepts exactly the saveable states.
  lemma SaveAccepts(w: World)
    requires Inv(w)
    ensures Validated(ToSave(w.state)) <==> Saveable(w.state)
  {
    hide ToSave, SavedObjects, SavedHistory, ValidObject, ValidRecord, OwnersValid, Sound, Inv, Saveable, FilledBuckets;
    SavedShape(w);
    Unpack(w);
    SaveableMeets(w.state);
    ObjectsValid(w, ToSave(w.state));
    RecordsValid(w, ToSave(w.state));
    RestValid(w, ToSave(w.state));
  }

  // ---------- which requests spoil a state for saving ----------

  // whether a completion gets as far as storing the object
  predicate Completes(w: World, uploadId: string, now: nat) {
    && FindUpload(w, uploadId).Ok?
    && var upload := w.uploads[FindUpload(w, uploadId).value];
       var id := ObjectId(upload.bucket, upload.key);
       && |upload.parts| > 0
       && upload.bucket in w.state.buckets
       && !(id in w.state.objects && Blocked(w.state, id, now))
  }

  // A completed upload keeps its bytes inline, and its version record keeps none; and the zero time is no date. An
  // earlier date never gives way to the zero time, so that only a first retention can be without one.
  predicate Spoils(w: World, op: Op, env: Env) {
    match op
    case OpCompleteUpload(u) =>
      && Completes(w, u, env.now)
      && var upload := w.uploads[FindUpload(w, u).value];
         (upload.bucket in w.state.versioning
          || (|Completed(upload).body| == 0 && ObjectId(upload.bucket, upload.key) != BOOTSTRAP))
    case OpPutRetention(bucket, key, retention) =>
      && RequireObject(w, bucket, key).Ok?
      && var id := RequireObject(w, bucket, key).value;
         id.bucket in w.state.locks && id !in w.state.retention && retention.Some? && retention.value.until == 0
    case _ => false
  }

  lemma StoreSaveable(s: State, t: State, o: Object, id: ObjectId)
    requires Saveable(s)
    requires t.objects == s.objects[id := o]
    requires t.history == s.history || exists r :: t.history == s.history + [r] && !r.marker && r.ref == o.ref
    requires forall x | x in t.retention :: t.retention[x].until != 0
    ensures Saveable(t) <==>
      && (id == BOOTSTRAP || o.ref != NoRef || |o.body| > 0)
      && (t.history == s.history || o.ref != NoRef)
  {
    SaveableMeets(s);
    SaveableMeets(t);
    assert t.objects[id] == o;
    if r :| t.history == s.history + [r] && !r.marker && r.ref == o.ref {
      assert t.history[|s.history|] == r;
      assert forall i | 0 <= i < |s.history| :: t.history[i] == s.history[i];
    }
  }

  // the state after a store under new protection
  lemma ProtectedStoreSaveable(w: World, o: Object, env: Env, t: State)
    requires Saveable(w.state)
    requires t == StoreObject(w, o, env.now).state.(retention := t.retention, holds := t.holds)
    requires forall x | x in t.retention :: t.retention[x].until != 0
    ensures Saveable(t) <==>
      && (ObjectIdOf(o) == BOOTSTRAP || o.ref != NoRef || |o.body| > 0)
      && (o.bucket !in w.state.versioning || o.ref != NoRef)
  {
    StoreObjectShape(w, o, env.now);
    var r := RecordOf(Normalized(o, env.now).(body := []), NextSequence(w.state.history));
    assert w.state.history + [r] != w.state.history by {
      assert |w.state.history + [r]| == |w.state.history| + 1;
    }
    StoreSaveable(w.state, t, Normalized(o, env.now), ObjectIdOf(o));
  }

  lemma DropSaveable(s: State, id: ObjectId)
    requires Saveable(s)
    ensures Saveable(DropObject(s, id))
  {
    SaveableMeets(s);
    SaveableMeets(DropObject(s, id));
  }

  lemma MarkSaveable(s: State, id: ObjectId, now: nat)
    requires Saveable(s)
    ensures Saveable(RecordMarker(s, id, now))
  {
    SaveableMeets(s);
    SaveableMeets(RecordMarker(s, id, now));
    var t := RecordMarker(s, id, now);
    assert t.history == s.history + [t.history[|s.history|]];
  }

  lemma RemoveSaveable(w: World, id: ObjectId, env: Env)
    requires Saveable(w.state)
    ensures Saveable(RemoveObject(w, id, env).0.state)
  {
    if id in w.state.objects && Blocked(w.state, id, env.now) {
    } else if id.bucket in w.state.versioning {
      MarkSaveable(w.state, id, env.now);
      DropSaveable(RecordMarker(w.state, id, env.now), id);
    } else {
      DropSaveable(w.state, id);
    }
  }

  lemma {:induction false} RemoveEachSaveable(w: World, bucket: string, keys: seq<string>, quiet: bool, env: Env)
    requires Saveable(w.state)
    ensures Saveable(RemoveEach(w, bucket, keys, quiet, env).0.state)
    decreases |keys|
  {
    if |keys| > 0 {
      var key := TrimSpace(keys[0]);
      if key == "" {
        RemoveEachSaveable(w, bucket, keys[1..], quiet, NextSave(env));
      } else {
        RemoveSaveable(w, ObjectId(bucket, key), env);
        RemoveEachSaveable(RemoveObject(w, ObjectId(bucket, key), env).0, bucket, keys[1..], quiet, NextSave(env));
      }
    }
  }

  lemma CompleteToSaveable(w: World, u: string, env: Env)
    requires Saveable(w.state) && env.until > 0 && u in w.uploads
    ensures var o := Completed(w.uploads[u]);
      Saveable(CompleteTo(w, u, env).state) <==> o.bucket !in w.state.versioning && (|o.body| > 0 || ObjectIdOf(o) == BOOTSTRAP)
  {
    var o := Completed(w.uploads[u]);
    StoreObjectShape(w, o, env.now);
    SaveableMeets(w.state);
    ProtectedStoreSaveable(w, o, env, CompleteTo(w, u, env).state);
  }

  lemma CompleteSaveable(w: World, u: string, env: Env)
    requires Saveable(w.state) && env.until > 0
    ensures Saveable(CompleteUpload(w, u, env).0.state) <==> !Spoils(w, OpCompleteUpload(u), env)
  {
    if FindUpload(w, u).Ok? {
      CompleteToSaveable(w, FindUpload(w, u).value, env);
    }
  }

  lemma PutSaveable(w: World, id: ObjectId, body: Bytes, contentType: string,
                    metadata: map<string, string>, headers: map<string, string>, env: Env)
    requires Saveable(w.state) && env.until > 0
    ensures Saveable(PutTo(w, id, body, contentType, metadata, headers, env).state)
  {
    var o := FreshObject(id, body, contentType, metadata, headers);
    StoreObjectShape(StorePayload(w, id, body), o, env.now);
    SaveableMeets(w.state);
    ProtectedStoreSaveable(StorePayload(w, id, body), o, env, PutTo(w, id, body, contentType, metadata, headers, env).state);
  }

  lemma CopySaveable(w: World, id: ObjectId, from: ObjectId, body: Bytes, contentType: string,
                     metadata: map<string, string>, headers: map<string, string>, env: Env)
    requires Saveable(w.state) && env.until > 0
    ensures Saveable(CopyTo(w, id, from, body, contentType, metadata, headers, env).state)
  {
    var o := FreshObject(id, body, contentType, metadata, headers);
    StoreObjectShape(StorePayload(w, id, body), o, env.now);
    SaveableMeets(w.state);
    ProtectedStoreSaveable(StorePayload(w, id, body), o, env, CopyTo(w, id, from, body, contentType, metadata, headers, env).state);
  }

  lemma NewDateSaveable(s: State, id: ObjectId, retention: Retention)
    requires Saveable(s)
    ensures Saveable(s.(retention := s.retention[id := retention])) <==> retention.until != 0
  {
    var t := s.(retention := s.retention[id := retention]);
    SaveableMeets(s);
    SaveableMeets(t);
    assert id in t.retention;
  }

  // the same bytes, versions and a part of the dates
  lemma SameBytesSaveable(s: State, t: State)
    requires Saveable(s)
    requires t.objects == s.objects && t.history == s.history
    requires forall id | id in t.retention :: id in s.retention && t.retention[id] == s.retention[id]
    ensures Saveable(t)
  {
    SaveableMeets(s);
    SaveableMeets(t);
  }

  lemma RetentionSaveable(w: World, bucket: string, key: string, retention: Option<Retention>, env: Env)
    requires Saveable(w.state)
    ensures Saveable(PutRetention(w, bucket, key, retention, env).0.state)
      <==> !Spoils(w, OpPutRetention(bucket, key, retention), env)
  {
    hide TrimSpace, RequireObject, Saveable;
    var id := RequireObject(w, bucket, key);
    SaveableMeets(w.state);
    assert Met(w.state, RetainUntilDates);
    if id.Ok? && Mutated(PutRetention(w, bucket, key, retention, env).1) {
      NewDateSaveable(w.state, id.value, retention.value);
    }
  }

  // A saveable state stays saveable except through these requests, and those always spoil it.
  lemma StepSaveable(w: World, op: Op, env: Env)
    requires Saveable(w.state) && env.until > 0
    ensures Saveable(Step(w, op, env).state) <==> !Spoils(w, op, env)
  {
    hide Saveable, TrimSpace, PutObject, CopyObject, DeleteObject, DeleteObjects, PutRetention, PutLegalHold, DeleteBucket,
      CompleteUpload;
    match op
    case OpCompleteUpload(u) => CompleteSaveable(w, u, env);
    case OpPutObject(bucket, key, body, contentType, metadata, headers) =>
      PutRequestSaveable(w, bucket, key, body, contentType, metadata, headers, env);
    case OpCopyObject(bucket, key, sourceBucket, sourceKey, directive, metadata) =>
      CopyRequestSaveable(w, bucket, key, sourceBucket, sourceKey, directive, metadata, env);
    case OpDeleteObject(bucket, key) => DeleteSaveable(w, bucket, key, [], false, env);
    case OpDeleteObjects(bucket, keys, quiet) => DeleteSaveable(w, bucket, "", keys, quiet, env);
    case OpPutRetention(bucket, key, retention) => RetentionSaveable(w, bucket, key, retention, env);
    case OpPutLegalHold(bucket, key, hold) => HoldSaveable(w, bucket, key, hold, env);
    case OpDeleteBucket(name) => DeleteBucketSaveable(w, name, env);
    case _ => QuietSaveable(w, op, env);
  }

  lemma HoldSaveable(w: World, bucket: string, key: string, hold: Option<Hold>, env: Env)
    requires Saveable(w.state)
    ensures Saveable(PutLegalHold(w, bucket, key, hold, env).0.state)
  {
    hide TrimSpace, RequireObject, Saveable;
    SameBytesSaveable(w.state, PutLegalHold(w, bucket, key, hold, env).0.state);
  }

  lemma DeleteBucketSaveable(w: World, name: string, env: Env)
    requires Saveable(w.state)
    ensures Saveable(DeleteBucket(w, name, env).0.state)
  {
    hide TrimSpace, RequireBucket, Saveable, BucketEmpty;
    SameBytesSaveable(w.state, DeleteBucket(w, name, env).0.state);
  }

  lemma QuietSaveable(w: World, op: Op, env: Env)
    requires Saveable(w.state) && TouchesNoObject(op)
    ensures Saveable(Step(w, op, env).state)
  {
    hide Step, Saveable;
    NoObjectTouched(w, op, env);
    SameBytesSaveable(w.state, Step(w, op, env).state);
  }

  lemma PutRequestSaveable(w: World, bucket: string, key: string, body: Bytes, contentType: string,
                           metadata: map<string, string>, headers: map<string, string>, env: Env)
    requires Saveable(w.state) && env.until > 0
    ensures Saveable(PutObject(w, bucket, key, body, contentType, metadata, headers, env).0.state)
  {
    if CheckedId(w, bucket, key).Ok? {
      PutSaveable(w, CheckedId(w, bucket, key).value, body, TypeOr(contentType), metadata, headers, env);
    }
  }

  lemma DeleteSaveable(w: World, bucket: string, key: string, keys: seq<string>, quiet: bool, env: Env)
    requires Saveable(w.state)
    ensures Saveable(DeleteObject(w, bucket, key, env).0.state)
    ensures Saveable(DeleteObjects(w, bucket, keys, quiet, env).0.state)
  {
    if CheckedId(w, bucket, key).Ok? {
      RemoveSaveable(w, CheckedId(w, bucket, key).value, env);
    }
    if RequireBucket(w, bucket).Ok? {
      RemoveEachSaveable(w, RequireBucket(w, bucket).value, keys, quiet, env);
    }
  }

  lemma CopyRequestSaveable(w: World, bucket: string, key: string, sourceBucket: string, sourceKey: string,
                            directive: string, metadata: map<string, string>, env: Env)
    requires Saveable(w.state) && env.until > 0
    ensures Saveable(CopyObject(w, bucket, key, sourceBucket, sourceKey, directive, metadata, env).0.state)
  {
    hide TrimSpace, CheckedId, CopyTo, FreshObject, Saveable, SourceBytes;
    var to, from := CheckedId(w, bucket, key), CheckedId(w, sourceBucket, sourceKey);
    if to.Ok? && from.Ok? && from.value in w.state.objects && SourceBytes(w, w.state.objects[from.value]).Some? {
      var source := w.state.objects[from.value];
      CopySaveable(w, to.value, from.value, SourceBytes(w, source).value, source.contentType,
                   ResolvedMetadata(source.metadata, directive, metadata), source.headers, env);
    }
  }

  // ---------- loading ----------

  // an object whose bytes go to the payload store on a save
  predicate Unreferenced(o: Object) {
    Filled(o).ref == NoRef && |Filled(o).body| > 0
  }

  // The payloads that a save stores. The sum in a reference tells the bytes, as sums do not collide.
  function Written(s: State): map<PayloadRef, Bytes> {
    var refs := set id | id in s.objects && Unreferenced(s.objects[id])
                  :: PayloadRefFor(Hint(id), Filled(s.objects[id]).body);
    map ref | ref in refs && ref.Ref? && ref.digest.OfBody? :: ref.digest.body
  }

  // the payload store after a save
  function SavedPayloads(w: World): map<PayloadRef, Bytes> {
    w.payloads + Written(w.state)
  }

  // migrateLoadedPayloads on one version
  function LoadedRecord(payloads: map<PayloadRef, Bytes>, r: VersionRecord): Option<VersionRecord> {
    if r.ref == NoRef || |r.body| > 0 then Some(r)
    else if r.ref in payloads then Some(r.(body := payloads[r.ref]))
    else None
  }

  // normalizeState and migrateLoadedPayloads on one object: bytes are read only where none are held
  function LoadedObject(payloads: map<PayloadRef, Bytes>, o: Object): Option<Object> {
    var p := Filled(o);
    if p.ref == NoRef || |p.body| > 0 then Some(p)
    else if p.ref in payloads then Some(p.(body := payloads[p.ref]))
    else None
  }

  // what GetObject answers with; where the bytes are kept is not part of the answer
  function Answer(payloads: map<PayloadRef, Bytes>, o: Object): Option<Object> {
    if |o.body| > 0 || o.ref == NoRef then Some(o.(ref := NoRef))
    else if o.ref in payloads then Some(o.(body := payloads[o.ref], ref := NoRef))
    else None
  }

  lemma AnswerIsRead(w: World, id: ObjectId)
    requires id in w.state.objects
    ensures Answer(w.payloads, w.state.objects[id]) ==
      match Read(w, id) { case Ok(o) => Some(o.(ref := NoRef)) case Err(_) => None }
  {
  }

  // A reloaded object answers as before, bytes and all fields, exactly unless it is the bootstrap object and its bytes
  // were replaced, or it has no date.
  lemma ReloadAnswers(w: World, id: ObjectId)
    requires Inv(w) && Saveable(w.state) && id in w.state.objects
    ensures var o := w.state.objects[id];
      var before, loaded := Answer(w.payloads, o), LoadedObject(SavedPayloads(w), SavedObject(o));
      && before.Some? && loaded.Some?
      && (Answer(SavedPayloads(w), loaded.value) == before <==>
            (id != BOOTSTRAP || before.value.body == BootstrapBody()) && o.lastModified != 0)
  {
    KnownObject(w, id);
    assert Holds(w, ObjectPayloadsClause);
    assert Met(w.state, ObjectBytes);
    var o := w.state.objects[id];
    if o.ref != NoRef {
      SavedPayloadsKeep(w, id);
      ReloadPayload(w.payloads, SavedPayloads(w), o);
    } else {
      FilledHasBytes(o);
      SavedPayloadsHold(w, id);
      ReloadInline(w.payloads, SavedPayloads(w), o);
    }
  }

  lemma FilledHasBytes(o: Object)
    requires |o.body| > 0 || ObjectIdOf(o) == BOOTSTRAP
    ensures |Filled(o).body| > 0 && Filled(o).ref == o.ref
  {
    assert |BootstrapBody()| == 18;
  }

  // nothing is left to fill in but the bytes of the bootstrap object and the date
  predicate FilledIn(o: Object, size: nat) {
    o.contentType != "" && o.size == size && o.etag != NoTag
  }

  lemma ReloadPayload(payloads: map<PayloadRef, Bytes>, saved: map<PayloadRef, Bytes>, o: Object)
    requires o.ref != NoRef && o.ref in payloads && o.ref in saved && payloads[o.ref] == saved[o.ref]
    requires |o.body| == 0 && FilledIn(o, |payloads[o.ref]|)
    ensures LoadedObject(saved, SavedObject(o)).Some?
    ensures Answer(saved, LoadedObject(saved, SavedObject(o)).value) == Answer(payloads, o)
      <==> (ObjectIdOf(o) != BOOTSTRAP || Answer(payloads, o).value.body == BootstrapBody()) && o.lastModified != 0
  {
    assert |BootstrapBody()| == 18 && FallbackDate(o.bucket) != 0;
    hide BootstrapBody, FallbackDate;
    assert SavedObject(o).ref == o.ref && |SavedObject(o).body| == 0;
  }

  lemma ReloadInline(payloads: map<PayloadRef, Bytes>, saved: map<PayloadRef, Bytes>, o: Object)
    requires o.ref == NoRef && |Filled(o).body| > 0 && FilledIn(o, |o.body|)
    requires SavedObject(o).ref in saved && saved[SavedObject(o).ref] == Filled(o).body
    ensures LoadedObject(saved, SavedObject(o)).Some?
    ensures Answer(saved, LoadedObject(saved, SavedObject(o)).value) == Answer(payloads, o)
      <==> (ObjectIdOf(o) != BOOTSTRAP || Answer(payloads, o).value.body == BootstrapBody()) && o.lastModified != 0
  {
    assert |BootstrapBody()| == 18 && FallbackDate(o.bucket) != 0;
    hide BootstrapBody, FallbackDate;
    assert SavedObject(o).ref != NoRef && |SavedObject(o).body| == 0;
  }

  // every payload that an object refers to is still what it was
  lemma SavedPayloadsKeep(w: World, id: ObjectId)
    requires Inv(w) && id in w.state.objects && w.state.objects[id].ref != NoRef
    ensures var ref := w.state.objects[id].ref;
      ref in w.payloads && ref in SavedPayloads(w) && SavedPayloads(w)[ref] == w.payloads[ref]
  {
    assert Holds(w, ObjectPayloadsClause);
  }

  lemma SavedPayloadsHold(w: World, id: ObjectId)
    requires id in w.state.objects && Filled(w.state.objects[id]).ref == NoRef && |Filled(w.state.objects[id]).body| > 0
    requires ObjectIdOf(w.state.objects[id]) == id
    ensures var ref, body := SavedObject(w.state.objects[id]).ref, Filled(w.state.objects[id]).body;
      ref in SavedPayloads(w) && SavedPayloads(w)[ref] == body
  {
    var ref := SavedObject(w.state.objects[id]).ref;
    assert ref == PayloadRefFor(Hint(id), Filled(w.state.objects[id]).body);
  }
}
