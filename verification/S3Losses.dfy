/** Runs, from the first start of a service on, in which a restart fails or changes what clients read. */
module S3Losses {
  import opened Wrappers
  import opened Strings
  import opened S3Model
  import opened S3Invariants
  import opened S3ObjectLock
  import opened S3Repository
  import opened S3Alike
  import opened S3Restart
  import opened S3Machine
  import opened S3Durable
  import opened S3Answers
  import S3Effects

  function Now(op: Op, env: Env): Event {
    Requested(Request(op, env), {})
  }

  lemma RunOneEvent(m: Machine, request: Request, stored: set<PayloadRef>, more: seq<Event>)
    requires !request.op.OpDeleteObjects?
    ensures RunWith(m, [Requested(request, stored)] + more) == RunWith(ServeOne(m, request, stored), more)
  {
    hide ServeOne, Restart;
    var events := [Requested(request, stored)] + more;
    assert events[1..] == more;
    assert [request][1..] == [];
    assert ServeAll(m, [request], stored) == ServeAll(ServeOne(m, request, stored), [], stored);
  }

  lemma RunRestart(m: Machine)
    ensures RunWith(m, [Restarts]) == Restart(m)
  {
    hide Restart;
    assert [Restarts][1..] == [];
  }

  // ---------- a delete that is not saved ----------

  // An accepted put, then a delete of the object that is not saved: the service does not start again.
  lemma UnsavedDeleteStops(m: Machine, r: Ledger, put: Request, delete: Request, id: ObjectId)
    requires Matches(m, r) && put.op.OpPutObject? && put.env.now > 0 && Saves(m.world, put.op, put.env)
    requires delete.op == OpDeleteObject(put.op.bucket, put.op.key) && delete.env.now > 0
    requires CheckedId(m.world, put.op.bucket, put.op.key) == Ok(id) && id != BOOTSTRAP && id.bucket !in m.world.state.versioning
    requires var v := ServeOne(m, put, {}).world;
      !Blocked(v.state, id, delete.env.now) && !Saves(v, delete.op, delete.env)
    ensures RunWith(m, [Requested(put, {}), Requested(delete, {}), Restarts]) == None
  {
    hide *;
    var m1 := ServeOne(m, put, {});
    var m2 := ServeOne(m1, delete, {});
    BookMatches(m, r, put, {});
    BreaksIff(m, r, put, {});
    SavedIs(m, put, {});
    PutLeaves(m.world, put, id);
    FileObject(After(m.world, put.op, put.env), id);
    SameCheck(After(m.world, put.op, put.env), m1.world, put.op.bucket, put.op.key);
    DeleteBreaks(m1, delete, id);
    BreaksIff(m1, Book(r, put), delete, {});
    RunOneEvent(m, put, {}, [Requested(delete, {}), Restarts]);
    RunOneEvent(m1, delete, {}, [Restarts]);
    RunRestart(m2);
    assert [Requested(put, {})] + [Requested(delete, {}), Restarts] == [Requested(put, {}), Requested(delete, {}), Restarts];
    assert [Requested(delete, {})] + [Restarts] == [Requested(delete, {}), Restarts];
  }

  lemma PutLeaves(w: World, put: Request, id: ObjectId)
    requires put.op.OpPutObject? && CheckedId(w, put.op.bucket, put.op.key) == Ok(id) && Saves(w, put.op, put.env)
    ensures var v := After(w, put.op, put.env);
      && id in v.state.objects && v.state.versioning == w.state.versioning
      && SavedObject(v.state.objects[id]).ref == v.state.objects[id].ref
      && CheckedId(v, put.op.bucket, put.op.key) == Ok(id)
  {
    hide *;
    var env, kind, v := Answered(w, put.op, put.env), TypeOr(put.op.contentType), After(w, put.op, put.env);
    AfterPut(w, put, id);
    PutToShape(w, id, put.op.body, kind, put.op.metadata, put.op.headers, env);
    SameCheck(w, v, put.op.bucket, put.op.key);
    FreshSaved(id, put.op.body, kind, put.op.metadata, put.op.headers, env.now);
  }

  lemma AfterPut(w: World, put: Request, id: ObjectId)
    requires put.op.OpPutObject? && CheckedId(w, put.op.bucket, put.op.key) == Ok(id) && Saves(w, put.op, put.env)
    ensures After(w, put.op, put.env)
      == PutTo(w, id, put.op.body, TypeOr(put.op.contentType), put.op.metadata, put.op.headers, Answered(w, put.op, put.env))
  {
    AnsweredIs(w, put.op, put.env);
    hide CheckedId, Blocked, PutTo, FreshObject, Normalized, TypeOr, Answered;
    assert Asks(w, put.op, put.env);
  }

  lemma PutToShape(w: World, id: ObjectId, body: Bytes, contentType: string,
                   metadata: map<string, string>, headers: map<string, string>, env: Env)
    ensures var v := PutTo(w, id, body, contentType, metadata, headers, env);
      && v.state.buckets == w.state.buckets && v.state.versioning == w.state.versioning
      && id in v.state.objects && v.state.objects[id] == Normalized(FreshObject(id, body, contentType, metadata, headers), env.now)
  {
    var o := FreshObject(id, body, contentType, metadata, headers);
    StoreObjectShape(StorePayload(w, id, body), o, env.now);
    OnlyObjectsAndHistory(StorePayload(w, id, body), o, env.now);
    ReprotectedShape(StoreFresh(w, id, body, contentType, metadata, headers, env.now).state, id, env.until);
    hide StoreObject, Reprotected, Normalized, RecordOf, NextSequence, Hint;
    assert ObjectIdOf(o) == id;
  }

  lemma SameCheck(w: World, v: World, bucket: string, key: string)
    requires v.state.buckets == w.state.buckets
    ensures CheckedId(v, bucket, key) == CheckedId(w, bucket, key)
  {
    hide TrimSpace;
  }

  lemma FreshSaved(id: ObjectId, body: Bytes, contentType: string,
                   metadata: map<string, string>, headers: map<string, string>, now: nat)
    ensures var p := Normalized(FreshObject(id, body, contentType, metadata, headers), now);
      SavedObject(p).ref == p.ref
  {
    hide BootstrapBody, FallbackDate, Hint;
  }

  lemma DeleteBreaks(m: Machine, delete: Request, id: ObjectId)
    requires delete.op.OpDeleteObject? && CheckedId(m.world, delete.op.bucket, delete.op.key) == Ok(id)
    requires id in m.world.state.objects && !Blocked(m.world.state, id, delete.env.now) && id.bucket !in m.world.state.versioning
    requires id != BOOTSTRAP && id in m.file.objects && m.file.objects[id].ref == m.world.state.objects[id].ref
    requires !Saves(m.world, delete.op, delete.env)
    ensures Breaks(m, delete)
  {
    hide CheckedId, Blocked, Saves;
  }

  // ---------- a delete after the state can no longer be saved ----------

  // what a completion leaves alone
  lemma CompletionLeaves(w: World, u: string, env: Env, id: ObjectId)
    requires u in w.uploads && id in w.state.objects && id != ObjectId(w.uploads[u].bucket, w.uploads[u].key)
    ensures var v := CompleteTo(w, u, env);
      && id in v.state.objects && v.state.objects[id] == w.state.objects[id]
      && v.state.versioning == w.state.versioning && v.state.buckets == w.state.buckets
      && forall now :: Blocked(v.state, id, now) <==> Blocked(w.state, id, now)
  {
    var o := Completed(w.uploads[u]);
    var other := ObjectIdOf(o);
    assert other != id;
    StoreObjectShape(w, o, env.now);
    OnlyObjectsAndHistory(w, o, env.now);
    var s := StoreObject(w, o, env.now).state;
    ReprotectedShape(s, other, env.until);
    hide StoreObject, Completed, Reprotected, Normalized, RecordOf, NextSequence;
    var t := Reprotected(s, other, env.until);
    assert CompleteTo(w, u, env).state == t;
    forall now ensures Blocked(t, id, now) <==> Blocked(w.state, id, now) {
      assert id in t.retention <==> id in t.retention - {other};
      assert id in t.holds <==> id in t.holds - {other};
      assert id in s.retention <==> id in s.retention - {other};
      assert id in s.holds <==> id in s.holds - {other};
    }
  }

  lemma AfterCompletion(w: World, op: Op, env: Env)
    requires op.OpCompleteUpload? && Completes(w, op.uploadId, env.now)
    ensures FindUpload(w, op.uploadId).Ok?
    ensures After(w, op, env) == CompleteTo(w, FindUpload(w, op.uploadId).value, Answered(w, op, env))
  {
    AnsweredIs(w, op, env);
    hide FindUpload, Blocked, CompleteTo, Completed, Normalized, Answered;
  }

  // the record of the completed object has no bytes
  lemma CompletionSpoils(w: World, u: string, env: Env)
    requires u in w.uploads && w.uploads[u].bucket in w.state.versioning
    ensures !Met(CompleteTo(w, u, env).state, VersionBytes)
  {
    var o := Completed(w.uploads[u]);
    StoreObjectShape(w, o, env.now);
    var s := StoreObject(w, o, env.now).state;
    ReprotectedShape(s, ObjectIdOf(o), env.until);
    var r := RecordOf(Normalized(o, env.now).(body := []), NextSequence(w.state.history));
    assert r.ref == NoRef && !r.marker;
    hide StoreObject, Completed, Reprotected, Normalized, RecordOf, NextSequence;
    assert s.history[|w.state.history|] == r;
  }

  // Nothing is unsaved; an upload is completed in a bucket with versioning; then an object of another bucket is deleted.
  // The disk never fails, and yet the service does not start again.
  lemma SpoiledDeleteStops(m: Machine, r: Ledger, complete: Request, delete: Request, id: ObjectId)
    requires Settled(m, r) && complete.env.now > 0 && delete.env.now > 0
    requires complete.op.OpCompleteUpload? && Completes(r.world, complete.op.uploadId, complete.env.now)
    requires r.world.uploads[FindUpload(r.world, complete.op.uploadId).value].bucket in r.world.state.versioning
    requires delete.op.OpDeleteObject? && CheckedId(r.world, delete.op.bucket, delete.op.key) == Ok(id)
    requires id in r.world.state.objects && id.bucket !in r.world.state.versioning && id != BOOTSTRAP
    requires !Blocked(r.world.state, id, delete.env.now) && id in m.world.state.objects && m.world.state.objects[id].ref != NoRef
    ensures RunWith(m, [Requested(complete, {}), Requested(delete, {}), Restarts]) == None
  {
    hide *;
    SettledParts(m, r);
    MatchesParts(m, r);
    SaneParts(r.world);
    var op, env := complete.op, complete.env;
    var m1, r1 := ServeOne(m, complete, {}), Book(r, complete);
    BookMatches(m, r, complete, {});
    BookIs(r, complete);
    ServedLike(r.world, m, complete, {});
    CompletionSpoilsBook(m, r, complete, id);
    MatchesParts(m1, r1);
    SpoiledStep(m1, r1, delete, {});
    CompletionKeepsObject(m, r, complete, id);
    NamedAlike(m, r, m1, r1, delete, id);
    OpenObjects(m.file, m.world.payloads);
    DeleteBreaks(m1, delete, id);
    StaysStartable(m, r, complete);
    BreaksIff(m1, r1, delete, {});
    RunOneEvent(m, complete, {}, [Requested(delete, {}), Restarts]);
    RunOneEvent(m1, delete, {}, [Restarts]);
    RunRestart(ServeOne(m1, delete, {}));
    assert [Requested(complete, {})] + [Requested(delete, {}), Restarts] == [Requested(complete, {}), Requested(delete, {}), Restarts];
    assert [Requested(delete, {})] + [Restarts] == [Requested(delete, {}), Restarts];
  }

  // after the completion the service would still start again
  lemma StaysStartable(m: Machine, r: Ledger, complete: Request)
    requires Settled(m, r) && complete.env.now > 0 && complete.op.OpCompleteUpload?
    ensures Restart(ServeOne(m, complete, {})).Some?
  {
    hide *;
    SettledParts(m, r);
    MatchesParts(m, r);
    OpenObjects(m.file, m.world.payloads);
    RestartIff(m, r);
    BreaksIff(m, r, complete, {});
    if Breaks(m, complete) {
      var _ := BrokenOne(m, complete);
    }
  }

  lemma CompletionSpoilsBook(m: Machine, r: Ledger, complete: Request, id: ObjectId)
    requires Matches(m, r) && Inv(r.world) && complete.env.now > 0
    requires complete.op.OpCompleteUpload? && Completes(r.world, complete.op.uploadId, complete.env.now)
    requires r.world.uploads[FindUpload(r.world, complete.op.uploadId).value].bucket in r.world.state.versioning
    requires id in r.world.state.objects && id.bucket !in r.world.state.versioning
    ensures var m1, r1 := ServeOne(m, complete, {}), Book(r, complete);
      && Spoiled(r1) && m1.file == m.file
      && r1.world.state.buckets == r.world.state.buckets && r1.world.state.versioning == r.world.state.versioning
      && id in r1.world.state.objects
      && forall now :: Blocked(r1.world.state, id, now) <==> Blocked(r.world.state, id, now)
  {
    hide *;
    MatchesParts(m, r);
    SaneParts(r.world);
    var op, env := complete.op, complete.env;
    BookIs(r, complete);
    AfterCompletion(r.world, op, env);
    UploadFound(r.world, op.uploadId);
    var u := FindUpload(r.world, op.uploadId).value;
    CompletionLeaves(r.world, u, Answered(r.world, op, env), id);
    CompletionSpoils(r.world, u, Answered(r.world, op, env));
    SpoiledMeans(Book(r, complete));
    ServedLike(r.world, m, complete, {});
    NotSavedIfSpoiled(r.world, op, env);
  }

  lemma CompletesAlike(w: World, v: World, uploadId: string, now: nat)
    requires Like(w, v)
    ensures Completes(v, uploadId, now) == Completes(w, uploadId, now)
    ensures FindUpload(v, uploadId) == FindUpload(w, uploadId) && v.uploads == w.uploads
  {
    SameChecks(w, v, "", uploadId);
    hide FindUpload, Blocked, Like;
    LikeElse(w, v);
    if FindUpload(w, uploadId).Ok? {
      UploadFound(w, uploadId);
      var upload := w.uploads[FindUpload(w, uploadId).value];
      SameBlocked(w, v, ObjectId(upload.bucket, upload.key), now);
    }
  }

  lemma LikeElse(w: World, v: World)
    requires Like(w, v)
    ensures v.uploads == w.uploads && v.state.buckets == w.state.buckets && v.state.versioning == w.state.versioning
  {
    hide ObjectsKept, VersionsKept;
  }

  lemma ServedState(m: Machine, request: Request)
    ensures ServeOne(m, request, {}).world.state == After(m.world, request.op, request.env).state
    ensures ServeOne(m, request, {}).world.uploads == After(m.world, request.op, request.env).uploads
  {
    hide Step, Answered, Asks, Written, ToSave;
  }

  lemma CompletionKeepsObject(m: Machine, r: Ledger, complete: Request, id: ObjectId)
    requires Matches(m, r)
    requires complete.op.OpCompleteUpload? && Completes(r.world, complete.op.uploadId, complete.env.now)
    requires r.world.uploads[FindUpload(r.world, complete.op.uploadId).value].bucket in r.world.state.versioning
    requires id in m.world.state.objects && id.bucket !in r.world.state.versioning
    ensures var m1 := ServeOne(m, complete, {});
      id in m1.world.state.objects && m1.world.state.objects[id] == m.world.state.objects[id]
  {
    hide *;
    MatchesParts(m, r);
    CompletesAlike(r.world, m.world, complete.op.uploadId, complete.env.now);
    AfterCompletion(m.world, complete.op, complete.env);
    UploadFound(m.world, complete.op.uploadId);
    CompletionLeaves(m.world, FindUpload(m.world, complete.op.uploadId).value, Answered(m.world, complete.op, complete.env), id);
    ServedState(m, complete);
  }

  lemma UploadFound(w: World, uploadId: string)
    requires FindUpload(w, uploadId).Ok?
    ensures FindUpload(w, uploadId).value in w.uploads
  {
    hide TrimSpace;
  }

  lemma NotSavedIfSpoiled(w: World, op: Op, env: Env)
    requires Inv(w) && !Met(After(w, op, env).state, VersionBytes)
    ensures !Saves(w, op, env)
  {
    hide *;
    if Saves(w, op, env) {
      AnsweredMeans(w, op, env);
      SavesIs(w, op, env);
      AnsweredIs(w, op, env);
      AfterIs(w, op, env);
      AnsweredSame(w, op, env);
      StepKeeps(w, op, env);
      SaveAccepts(Step(w, op, env));
      SaveableMeets(Step(w, op, env).state);
    }
  }

  lemma AnsweredSame(w: World, op: Op, env: Env)
    requires Answered(w, op, env).saved
    ensures Answered(w, op, env) == env
  {
    hide Step, ToSave, Validated;
  }

  // the object is the same in memory, and the file has its reference
  lemma NamedAlike(m: Machine, r: Ledger, m1: Machine, r1: Ledger, delete: Request, id: ObjectId)
    requires Settled(m, r) && Matches(m1, r1) && m1.file == m.file
    requires delete.op.OpDeleteObject? && CheckedId(r.world, delete.op.bucket, delete.op.key) == Ok(id)
    requires id in r.world.state.objects && id.bucket !in r.world.state.versioning
    requires id in m.world.state.objects && m.world.state.objects[id].ref != NoRef
    requires r1.world.state.buckets == r.world.state.buckets && r1.world.state.versioning == r.world.state.versioning
    requires id in r1.world.state.objects && !Blocked(r1.world.state, id, delete.env.now)
    requires id in m1.world.state.objects && m1.world.state.objects[id] == m.world.state.objects[id]
    ensures CheckedId(m1.world, delete.op.bucket, delete.op.key) == Ok(id)
    ensures id.bucket !in m1.world.state.versioning && !Blocked(m1.world.state, id, delete.env.now)
    ensures id in m1.file.objects && m1.file.objects[id].ref == m1.world.state.objects[id].ref
  {
    hide *;
    SettledParts(m, r);
    MatchesParts(m, r);
    MatchesParts(m1, r1);
    SaneParts(r.world);
    SavedAlike(r.world, m.world);
    FileObject(m.world, id);
    SavedRef(m.world.state.objects[id]);
    SameCheck(r.world, r1.world, delete.op.bucket, delete.op.key);
    LikeChecks(r1.world, m1.world, delete.op.bucket, delete.op.key);
    SameBlocked(r1.world, m1.world, id, delete.env.now);
    LikeElse(r1.world, m1.world);
  }

  lemma SavedRef(o: Object)
    requires o.ref != NoRef
    ensures SavedObject(o).ref == o.ref
  {
    hide BootstrapBody, FallbackDate;
  }

  // ---------- steps of the runs below ----------

  predicate Steady(env: Env) {
    env.saved && env.now > 0 && env.until > 0
  }

  lemma StepBook(m: Machine, r: Ledger, op: Op, env: Env)
    requires Settled(m, r) && Steady(env) && !Spoils(r.world, op, env) && !op.OpDeleteObjects?
    ensures var request := Request(op, env);
      && Settled(ServeOne(m, request, {}), Book(r, request))
      && Book(r, request).world == Step(r.world, op, env)
      && (Saves(m.world, op, env) <==> Asks(r.world, op, env))
  {
    hide *;
    var request := Request(op, env);
    SettledParts(m, r);
    MatchesParts(m, r);
    SaneParts(r.world);
    SteadyHarmless(r.world, request);
    HarmlessSaves(r.world, request);
    SettledStep(m, r, request, {});
    BookIs(r, request);
    ServedLike(r.world, m, request, {});
  }

  lemma SteadyHarmless(w: World, request: Request)
    requires Steady(request.env) && !Spoils(w, request.op, request.env)
    ensures Harmless(w, request) && request.env.now > 0
  {
    hide Spoils;
  }

  lemma BucketMade(w: World, name: string, env: Env)
    requires Trimmed(name) && name != "" && ValidBucketName(name) && name !in w.state.buckets
    ensures Step(w, OpCreateBucket(name, ""), env)
      == w.(state := w.state.(buckets := w.state.buckets[name := Bucket(name, DEFAULT_REGION, env.now)]))
    ensures !Spoils(w, OpCreateBucket(name, ""), env)
  {
    NothingToTrim(name);
    hide TrimSpace, ValidBucketName;
  }

  lemma NothingToTrim(name: string)
    ensures Trimmed(name) ==> TrimSpace(name) == name
    ensures TrimSpace("") == ""
  {
  }

  lemma VersioningOn(w: World, name: string, env: Env)
    requires Trimmed(name) && name != "" && name in w.state.buckets
    ensures Step(w, OpPutBucketVersioning(name, "Enabled"), env)
      == w.(state := w.state.(versioning := w.state.versioning[name := Enabled]))
    ensures !Spoils(w, OpPutBucketVersioning(name, "Enabled"), env)
  {
    assert Trimmed("Enabled");
    NothingToTrim(name);
    NothingToTrim("Enabled");
    hide TrimSpace;
  }

  lemma UploadBegun(w: World, name: string, env: Env)
    requires Trimmed(name) && name != "" && name in w.state.buckets
    ensures var begun := OpCreateUpload("u", name, "k", "", map[], map[]);
      && Step(w, begun, env) == w.(uploads := w.uploads["u" := Upload(name, "k", DEFAULT_TYPE, map[], map[], [])])
      && !Spoils(w, begun, env)
  {
    assert Trimmed("k");
    NothingToTrim(name);
    NothingToTrim("k");
    hide TrimSpace;
  }

  lemma PartSent(w: World, upload: Upload, env: Env)
    requires "u" in w.uploads && w.uploads["u"] == upload && upload.parts == []
    ensures var sent := OpUploadPart("u", 1, [0]);
      && Step(w, sent, env) == w.(uploads := w.uploads["u" := upload.(parts := [Part(1, [0])])])
      && !Spoils(w, sent, env)
  {
    assert Trimmed("u");
    NothingToTrim("u");
    OnePart(upload.parts);
    hide TrimSpace, UpsertPart;
  }

  lemma OnePart(parts: seq<Part>)
    requires parts == []
    ensures UpsertPart(parts, Part(1, [0])) == [Part(1, [0])]
  {
  }

  // a put into a bucket without a lock configuration
  lemma PutMade(w: World, bucket: string, key: string, body: Bytes, env: Env)
    requires Trimmed(bucket) && bucket != "" && Trimmed(key) && key != "" && bucket in w.state.buckets
    requires bucket !in w.state.locks && w.state.retention == map[] && w.state.holds == map[]
    ensures var put, id := OpPutObject(bucket, key, body, "", map[], map[]), ObjectId(bucket, key);
      var v := Step(w, put, env);
      && v.state.objects.Keys == w.state.objects.Keys + {id}
      && v.state.buckets == w.state.buckets && v.state.versioning == w.state.versioning && v.uploads == w.uploads
      && v.state.retention == map[] && v.state.holds == map[]
      && !Spoils(w, put, env) && Asks(w, put, env) && CheckedId(w, bucket, key) == Ok(id)
  {
    hide *;
    var id := ObjectId(bucket, key);
    NothingToTrim(bucket);
    NothingToTrim(key);
    KnownCheck(w, bucket, key);
    NothingBlocked(w, id, env.now);
    PutStep(w, bucket, key, body, env);
    PutToKeys(w, id, body, DEFAULT_TYPE, env);
  }

  lemma KnownCheck(w: World, bucket: string, key: string)
    requires TrimSpace(bucket) == bucket != "" && TrimSpace(key) == key != "" && bucket in w.state.buckets
    ensures CheckedId(w, bucket, key) == Ok(ObjectId(bucket, key))
  {
    hide TrimSpace;
  }

  lemma NothingBlocked(w: World, id: ObjectId, now: nat)
    requires w.state.retention == map[] && w.state.holds == map[]
    ensures !Blocked(w.state, id, now)
  {
  }

  lemma PutStep(w: World, bucket: string, key: string, body: Bytes, env: Env)
    requires CheckedId(w, bucket, key).Ok? && !Blocked(w.state, CheckedId(w, bucket, key).value, env.now) && TrimSpace("") == ""
    ensures var put, id := OpPutObject(bucket, key, body, "", map[], map[]), CheckedId(w, bucket, key).value;
      && Step(w, put, env) == PutTo(w, id, body, DEFAULT_TYPE, map[], map[], env)
      && !Spoils(w, put, env) && Asks(w, put, env)
  {
    hide TrimSpace, CheckedId, Blocked, PutTo, FreshObject, Normalized;
  }

  lemma PutToKeys(w: World, id: ObjectId, body: Bytes, contentType: string, env: Env)
    requires id.bucket !in w.state.locks && w.state.retention == map[] && w.state.holds == map[]
    ensures var v := PutTo(w, id, body, contentType, map[], map[], env);
      && v.state.objects.Keys == w.state.objects.Keys + {id}
      && v.state.buckets == w.state.buckets && v.state.versioning == w.state.versioning && v.uploads == w.uploads
      && v.state.retention == map[] && v.state.holds == map[]
  {
    var o := FreshObject(id, body, contentType, map[], map[]);
    StoreObjectShape(StorePayload(w, id, body), o, env.now);
    OnlyObjectsAndHistory(StorePayload(w, id, body), o, env.now);
    ReprotectedShape(StoreFresh(w, id, body, contentType, map[], map[], env.now).state, id, env.until);
    hide StoreObject, Normalized, RecordOf, NextSequence, Hint;
  }

  lemma Unsaved(w: World, op: Op, env: Env)
    requires !env.saved
    ensures !Saves(w, op, env)
  {
    hide Asks, Step, ToSave, Validated;
  }

  lemma FirstNameFits()
    ensures Trimmed("abc") && ValidBucketName("abc") && Trimmed("k")
  {
    assert "abc"[0] == 'a';
    assert 'a' in "abc";
  }

  lemma SecondNameFits()
    ensures Trimmed("ver") && ValidBucketName("ver")
  {
    assert "ver"[0] == 'v';
    assert 'v' in "ver";
  }

  lemma BootstrapFits()
    ensures Trimmed(BOOTSTRAP.bucket) && Trimmed(BOOTSTRAP.key)
    ensures ValidBucketName(BOOTSTRAP.bucket)
  {
    hide ValidBucketName;
    var name := "mildstack-assets";
    assert |name| == 16 && name[0] == 'm' && name[15] == 's';
    assert name[6] == 'a';
    LettersFit(name);
  }

  // a name of letters with one hyphen
  lemma LettersFit(name: string)
    requires 6 < |name| <= 63 && name[6] == 'a' && name[0] != '-' && name[|name| - 1] != '-'
    requires forall i | 0 <= i < |name| :: 'a' <= name[i] <= 'z' || name[i] == '-'
    ensures ValidBucketName(name)
  {
    assert name[6] in name;
  }

  lemma BlankIs()
    ensures BLANK.world == EMPTY && START.world == EMPTY
    ensures EMPTY.state.buckets == map[] && EMPTY.state.versioning == map[] && EMPTY.state.locks == map[]
    ensures EMPTY.state.objects == map[] && EMPTY.state.retention == map[] && EMPTY.state.holds == map[] && EMPTY.uploads == map[]
  {
  }

  lemma StartsSettled()
    ensures Settled(START, BLANK)
  {
    hide Settled, Matches;
    StartMatches();
    StartSettled();
  }

  // a bucket is made, and nothing is unsaved
  lemma BucketBook(m: Machine, r: Ledger, name: string, env: Env)
    requires Settled(m, r) && Steady(env) && Trimmed(name) && name != "" && ValidBucketName(name) && name !in r.world.state.buckets
    ensures var create := Request(OpCreateBucket(name, ""), env);
      && Settled(ServeOne(m, create, {}), Book(r, create))
      && Book(r, create).world
         == r.world.(state := r.world.state.(buckets := r.world.state.buckets[name := Bucket(name, DEFAULT_REGION, env.now)]))
  {
    hide *;
    BucketMade(r.world, name, env);
    StepBook(m, r, OpCreateBucket(name, ""), env);
  }

  // ---------- from the first start on ----------

  // A bucket is made and an object put; the save of its delete fails on the disk. The service does not start again.
  lemma RefusedDeleteStops(env: Env)
    requires Steady(env)
    ensures RunWith(START, [Now(OpCreateBucket("abc", ""), env), Now(OpPutObject("abc", "k", [0], "", map[], map[]), env),
                            Now(OpDeleteObject("abc", "k"), env.(saved := false)), Restarts]) == None
  {
    hide *;
    var create, put := Request(OpCreateBucket("abc", ""), env), Request(OpPutObject("abc", "k", [0], "", map[], map[]), env);
    var delete := Request(OpDeleteObject("abc", "k"), env.(saved := false));
    var id := ObjectId("abc", "k");
    var m1, r1 := ServeOne(START, create, {}), Book(BLANK, create);
    FirstNameFits();
    SteadyParts(env);
    StartsSettled();
    BlankIs();
    BucketBook(START, BLANK, "abc", env);
    PutMade(r1.world, "abc", "k", [0], env);
    StepBook(m1, r1, put.op, env);
    SettledParts(m1, r1);
    MatchesParts(m1, r1);
    LikeChecks(r1.world, m1.world, "abc", "k");
    LikeElse(r1.world, m1.world);
    var m2, r2 := ServeOne(m1, put, {}), Book(r1, put);
    SettledParts(m2, r2);
    MatchesParts(m2, r2);
    NothingBlocked(r2.world, id, env.now);
    SameBlocked(r2.world, m2.world, id, env.now);
    Unsaved(m2.world, delete.op, delete.env);
    OtherName(id);
    UnsavedDeleteStops(m1, r1, put, delete, id);
    NowIs(create.op, env);
    NowIs(put.op, env);
    NowIs(delete.op, delete.env);
    var rest := [Requested(put, {}), Requested(delete, {}), Restarts];
    RunOneEvent(START, create, {}, rest);
    assert [Requested(create, {})] + rest == [Requested(create, {}), Requested(put, {}), Requested(delete, {}), Restarts];
  }

  lemma OtherName(id: ObjectId)
    requires id.key == "k"
    ensures id != BOOTSTRAP
  {
    assert |BOOTSTRAP.key| == 13;
  }

  // a bucket without versioning that holds an object, and one with versioning and an upload of one part
  function Prelude(): (ops: seq<Op>)
    ensures |ops| == 6
  {
    [OpCreateBucket("abc", ""), OpCreateBucket("ver", ""), OpPutBucketVersioning("ver", "Enabled"),
     OpCreateUpload("u", "ver", "k", "", map[], map[]), OpUploadPart("u", 1, [0]),
     OpPutObject("abc", "k", [0], "", map[], map[])]
  }

  lemma PreludeIs()
    ensures Prelude()[0] == OpCreateBucket("abc", "") && Prelude()[1] == OpCreateBucket("ver", "")
    ensures Prelude()[2] == OpPutBucketVersioning("ver", "Enabled")
    ensures Prelude()[3] == OpCreateUpload("u", "ver", "k", "", map[], map[]) && Prelude()[4] == OpUploadPart("u", 1, [0])
    ensures Prelude()[5] == OpPutObject("abc", "k", [0], "", map[], map[])
  {
  }

  // what five of them lead to
  lemma Prepared(env: Env) returns (m: Machine, r: Ledger)
    requires Steady(env)
    ensures Settled(m, r)
    ensures forall more ::
      RunWith(START, [Now(Prelude()[0], env), Now(Prelude()[1], env), Now(Prelude()[2], env),
                      Now(Prelude()[3], env), Now(Prelude()[4], env)] + more)
      == RunWith(m, more)
    ensures "abc" in r.world.state.buckets && "ver" in r.world.state.buckets
    ensures r.world.state.versioning == map["ver" := Enabled] && r.world.state.objects == map[] && r.world.state.locks == map[]
    ensures r.world.state.retention == map[] && r.world.state.holds == map[]
    ensures r.world.uploads == map["u" := Upload("ver", "k", DEFAULT_TYPE, map[], map[], [Part(1, [0])])]
  {
    hide *;
    PreludeIs();
    FirstNameFits();
    SecondNameFits();
    StartsSettled();
    BlankIs();
    var ops := Prelude();
    var m1, r1 := ServeOne(START, Request(ops[0], env), {}), Book(BLANK, Request(ops[0], env));
    BucketBook(START, BLANK, "abc", env);
    var m2, r2 := ServeOne(m1, Request(ops[1], env), {}), Book(r1, Request(ops[1], env));
    BucketBook(m1, r1, "ver", env);
    var m3, r3 := ServeOne(m2, Request(ops[2], env), {}), Book(r2, Request(ops[2], env));
    VersioningOn(r2.world, "ver", env);
    StepBook(m2, r2, ops[2], env);
    var m4, r4 := ServeOne(m3, Request(ops[3], env), {}), Book(r3, Request(ops[3], env));
    UploadBegun(r3.world, "ver", env);
    StepBook(m3, r3, ops[3], env);
    m, r := ServeOne(m4, Request(ops[4], env), {}), Book(r4, Request(ops[4], env));
    PartSent(r4.world, Upload("ver", "k", DEFAULT_TYPE, map[], map[], []), env);
    StepBook(m4, r4, ops[4], env);
    var a, b, c, d, e := Now(ops[0], env), Now(ops[1], env), Now(ops[2], env), Now(ops[3], env), Now(ops[4], env);
    forall more ensures RunWith(START, [a, b, c, d, e] + more) == RunWith(m, more) {
      RunOneNow(m4, ops[4], env, [], more);
      RunOneNow(m3, ops[3], env, [e], more);
      RunOneNow(m2, ops[2], env, [d, e], more);
      RunOneNow(m1, ops[1], env, [c, d, e], more);
      RunOneNow(START, ops[0], env, [b, c, d, e], more);
      assert [e] + [] == [e] && [d] + [e] == [d, e] && [c] + [d, e] == [c, d, e] && [b] + [c, d, e] == [b, c, d, e];
      assert [a] + [b, c, d, e] == [a, b, c, d, e] && [] + more == more;
    }
  }

  lemma RunOneNow(m: Machine, op: Op, env: Env, events: seq<Event>, more: seq<Event>)
    requires !op.OpDeleteObjects?
    ensures RunWith(m, [Now(op, env)] + events + more) == RunWith(ServeOne(m, Request(op, env), {}), events + more)
  {
    hide *;
    NowIs(op, env);
    RunOneEvent(m, Request(op, env), {}, events + more);
    assert [Now(op, env)] + events + more == [Requested(Request(op, env), {})] + (events + more);
  }

  // Versioning is turned on for one bucket, an object is put in another, and an upload is completed in the first one: from
  // then on every save is refused by the validation. A delete of the object takes its bytes, and the service does not start
  // again, although the disk never failed.
  lemma CompletionStops(env: Env)
    requires Steady(env)
    ensures var ops := Prelude();
      RunWith(START, [Now(ops[0], env), Now(ops[1], env), Now(ops[2], env), Now(ops[3], env), Now(ops[4], env), Now(ops[5], env),
                      Now(OpCompleteUpload("u"), env), Now(OpDeleteObject("abc", "k"), env), Restarts]) == None
  {
    hide *;
    var ops := Prelude();
    PreludeIs();
    var m, r := Prepared(env);
    PreparedStops(m, r, env);
    var put, complete, delete := Now(ops[5], env), Now(OpCompleteUpload("u"), env), Now(OpDeleteObject("abc", "k"), env);
    var a, b, c, d, e := Now(ops[0], env), Now(ops[1], env), Now(ops[2], env), Now(ops[3], env), Now(ops[4], env);
    assert [a, b, c, d, e] + [put, complete, delete, Restarts] == [a, b, c, d, e, put, complete, delete, Restarts];
  }

  lemma PreparedStops(m: Machine, r: Ledger, env: Env)
    requires Steady(env) && Settled(m, r)
    requires "abc" in r.world.state.buckets && "ver" in r.world.state.buckets
    requires r.world.state.versioning == map["ver" := Enabled] && r.world.state.objects == map[] && r.world.state.locks == map[]
    requires r.world.state.retention == map[] && r.world.state.holds == map[]
    requires r.world.uploads == map["u" := Upload("ver", "k", DEFAULT_TYPE, map[], map[], [Part(1, [0])])]
    ensures RunWith(m, [Now(OpPutObject("abc", "k", [0], "", map[], map[]), env),
                        Now(OpCompleteUpload("u"), env), Now(OpDeleteObject("abc", "k"), env), Restarts]) == None
  {
    hide *;
    var id, put := ObjectId("abc", "k"), Request(OpPutObject("abc", "k", [0], "", map[], map[]), env);
    var complete, delete := Request(OpCompleteUpload("u"), env), Request(OpDeleteObject("abc", "k"), env);
    var m1, r1 := ServeOne(m, put, {}), Book(r, put);
    FirstNameFits();
    SteadyParts(env);
    PutMade(r.world, "abc", "k", [0], env);
    StepBook(m, r, put.op, env);
    PutInMachine(m, r, put, id);
    SameCheck(r.world, r1.world, "abc", "k");
    NothingBlocked(r1.world, id, env.now);
    UploadCompletes(r1.world, env.now);
    OtherName(id);
    SpoiledDeleteStops(m1, r1, complete, delete, id);
    NowIs(put.op, env);
    NowIs(complete.op, env);
    NowIs(delete.op, env);
    var rest := [Requested(complete, {}), Requested(delete, {}), Restarts];
    RunOneEvent(m, put, {}, rest);
    assert [Requested(put, {})] + rest == [Requested(put, {}), Requested(complete, {}), Requested(delete, {}), Restarts];
  }

  lemma PutInMachine(m: Machine, r: Ledger, put: Request, id: ObjectId)
    requires Settled(m, r) && put.op.OpPutObject? && Saves(m.world, put.op, put.env)
    requires CheckedId(r.world, put.op.bucket, put.op.key) == Ok(id)
    ensures var v := ServeOne(m, put, {}).world; id in v.state.objects && v.state.objects[id].ref != NoRef
  {
    hide *;
    SettledParts(m, r);
    MatchesParts(m, r);
    LikeChecks(r.world, m.world, put.op.bucket, put.op.key);
    PutHasRef(m.world, put, id);
    ServedState(m, put);
  }

  lemma PutHasRef(w: World, put: Request, id: ObjectId)
    requires put.op.OpPutObject? && CheckedId(w, put.op.bucket, put.op.key) == Ok(id) && Saves(w, put.op, put.env)
    ensures var v := After(w, put.op, put.env); id in v.state.objects && v.state.objects[id].ref != NoRef
  {
    hide *;
    var env, kind := Answered(w, put.op, put.env), TypeOr(put.op.contentType);
    AfterPut(w, put, id);
    PutToShape(w, id, put.op.body, kind, put.op.metadata, put.op.headers, env);
    FreshHasRef(id, put.op.body, kind, put.op.metadata, put.op.headers, env.now);
  }

  lemma FreshHasRef(id: ObjectId, body: Bytes, contentType: string,
                    metadata: map<string, string>, headers: map<string, string>, now: nat)
    ensures Normalized(FreshObject(id, body, contentType, metadata, headers), now).ref != NoRef
  {
  }

  lemma UploadCompletes(w: World, now: nat)
    requires w.uploads == map["u" := Upload("ver", "k", DEFAULT_TYPE, map[], map[], [Part(1, [0])])] && "ver" in w.state.buckets
    requires w.state.objects.Keys == {ObjectId("abc", "k")}
    ensures Completes(w, "u", now) && FindUpload(w, "u") == Ok("u") && w.uploads["u"].bucket == "ver"
  {
    assert Trimmed("u");
    NothingToTrim("u");
    hide TrimSpace, Blocked;
    assert ObjectId("ver", "k") !in w.state.objects.Keys;
  }

  // ---------- the bootstrap object comes back ----------

  // Whatever was saved under the bootstrap key is read with the first bytes after a restart, while a copy is made of the
  // bytes that were put.
  lemma BootstrapLoaded(m: Machine, r: Ledger)
    requires Matches(m, r) && Restart(m).Some? && BOOTSTRAP in m.file.objects
    ensures var v := Restart(m).value.world;
      && Read(v, BOOTSTRAP).Ok? && Read(v, BOOTSTRAP).value.body == BootstrapBody()
      && BOOTSTRAP in v.state.objects
      && var ref := m.file.objects[BOOTSTRAP].ref;
         SourceBytes(v, v.state.objects[BOOTSTRAP]) == if ref in m.world.payloads then Some(m.world.payloads[ref]) else None
  {
    hide *;
    MatchesParts(m, r);
    SaneParts(r.saved);
    FileClean(r.saved);
    RestartIs(m);
    LoadsIff(m.file, m.world.payloads);
    LoadedFrom(m.file, m.world.payloads);
    LoadedObjectsAt(m.world.payloads, m.file, BOOTSTRAP);
    ObjectLoadsIff(m.file, m.world.payloads, BOOTSTRAP);
    BootstrapLoads(m.file, m.world.payloads);
    HeldIsRead(Restart(m).value.world, BOOTSTRAP);
  }

  // bytes in memory are read, and copied from under the reference
  lemma HeldIsRead(v: World, id: ObjectId)
    requires id in v.state.objects && v.state.objects[id].ref != NoRef
    ensures v.state.objects[id].body == BootstrapBody() ==>
      Read(v, id).Ok? && Read(v, id).value.body == BootstrapBody()
    ensures var ref := v.state.objects[id].ref;
      SourceBytes(v, v.state.objects[id]) == if ref in v.payloads then Some(v.payloads[ref]) else None
  {
    assert |BootstrapBody()| == 18;
    hide BootstrapBody;
  }

  // The first bucket of a service is the one of the bootstrap object, and other bytes are put under its key: they are
  // read, and after a restart the first ones are.
  lemma BootstrapComesBack(env: Env)
    requires Steady(env)
    ensures var create := Now(OpCreateBucket(BOOTSTRAP.bucket, ""), env);
      var put := Now(OpPutObject(BOOTSTRAP.bucket, BOOTSTRAP.key, [1], "", map[], map[]), env);
      var before, after := RunWith(START, [create, put]), RunWith(START, [create, put, Restarts]);
      && before.Some? && after.Some?
      && Read(before.value.world, BOOTSTRAP).Ok? && Read(before.value.world, BOOTSTRAP).value.body == [1]
      && Read(after.value.world, BOOTSTRAP).Ok? && Read(after.value.world, BOOTSTRAP).value.body == BootstrapBody()
  {
    hide *;
    var create := Request(OpCreateBucket(BOOTSTRAP.bucket, ""), env);
    var put := Request(OpPutObject(BOOTSTRAP.bucket, BOOTSTRAP.key, [1], "", map[], map[]), env);
    var m1, r1 := ServeOne(START, create, {}), Book(BLANK, create);
    BootstrapFits();
    StartsSettled();
    BlankIs();
    BootstrapNamed();
    BucketBook(START, BLANK, BOOTSTRAP.bucket, env);
    ReplacedBootstrap(m1, r1, put);
    NowIs(create.op, env);
    NowIs(put.op, env);
    RunOneEvent(START, create, {}, [Requested(put, {})]);
    RunOneEvent(START, create, {}, [Requested(put, {}), Restarts]);
    var a, b := Requested(create, {}), Requested(put, {});
    assert [a] + [b] == [a, b] && [a] + [b, Restarts] == [a, b, Restarts];
  }

  lemma ReplacedBootstrap(m: Machine, r: Ledger, put: Request)
    requires Settled(m, r) && Steady(put.env) && BOOTSTRAP.bucket in r.world.state.buckets
    requires BOOTSTRAP.bucket !in r.world.state.locks && r.world.state.retention == map[] && r.world.state.holds == map[]
    requires put.op == OpPutObject(BOOTSTRAP.bucket, BOOTSTRAP.key, [1], "", map[], map[])
    ensures var before, after := RunWith(m, [Requested(put, {})]), RunWith(m, [Requested(put, {}), Restarts]);
      && before.Some? && after.Some?
      && Read(before.value.world, BOOTSTRAP).Ok? && Read(before.value.world, BOOTSTRAP).value.body == [1]
      && Read(after.value.world, BOOTSTRAP).Ok? && Read(after.value.world, BOOTSTRAP).value.body == BootstrapBody()
  {
    hide *;
    BootstrapFits();
    BootstrapNamed();
    PutMade(r.world, BOOTSTRAP.bucket, BOOTSTRAP.key, [1], put.env);
    StepBook(m, r, put.op, put.env);
    var m1, r1 := ServeOne(m, put, {}), Book(r, put);
    SettledParts(m, r);
    MatchesParts(m, r);
    SaneParts(r.world);
    PutIsRead(r.world, put);
    FileKeys(r1.world);
    ReadAfterRestart(m1, r1);
    RunOneEvent(m, put, {}, []);
    RunOneEvent(m, put, {}, [Restarts]);
    RunNothing(m1);
    RunRestart(m1);
    var b := Requested(put, {});
    assert [b] + [] == [b] && [b] + [Restarts] == [b, Restarts];
  }

  lemma ReadAfterRestart(m: Machine, r: Ledger)
    requires Settled(m, r) && BOOTSTRAP in r.world.state.objects
    requires Read(r.world, BOOTSTRAP).Ok? && Read(r.world, BOOTSTRAP).value.body == [1]
    ensures Read(m.world, BOOTSTRAP).Ok? && Read(m.world, BOOTSTRAP).value.body == [1]
    ensures Restart(m).Some?
    ensures Read(Restart(m).value.world, BOOTSTRAP).Ok? && Read(Restart(m).value.world, BOOTSTRAP).value.body == BootstrapBody()
  {
    hide *;
    SettledParts(m, r);
    MatchesParts(m, r);
    SaneParts(r.world);
    ReadAlike(r.world, m.world, BOOTSTRAP);
    SameBody(Read(r.world, BOOTSTRAP), Read(m.world, BOOTSTRAP));
    OpenObjects(m.file, m.world.payloads);
    RestartIff(m, r);
    FileKeys(r.world);
    BootstrapLoaded(m, r);
  }

  lemma BootstrapNamed()
    ensures BOOTSTRAP == ObjectId(BOOTSTRAP.bucket, BOOTSTRAP.key) && BOOTSTRAP.bucket != "" && BOOTSTRAP.key != ""
  {
    assert |BOOTSTRAP.bucket| == 16 && |BOOTSTRAP.key| == 13;
  }

  lemma RunNothing(m: Machine)
    ensures RunWith(m, []) == Some(m)
  {
  }

  lemma SameBody(a: Result<Object, Error>, b: Result<Object, Error>)
    requires Shown(a) == Shown(b) && a.Ok?
    ensures b.Ok? && b.value.body == a.value.body
  {
  }

  lemma PutIsRead(w: World, put: Request)
    requires Inv(w) && put.op == OpPutObject(BOOTSTRAP.bucket, BOOTSTRAP.key, [1], "", map[], map[])
    requires Asks(w, put.op, put.env) && CheckedId(w, put.op.bucket, put.op.key) == Ok(BOOTSTRAP)
    ensures Read(Step(w, put.op, put.env), BOOTSTRAP).Ok? && Read(Step(w, put.op, put.env), BOOTSTRAP).value.body == [1]
  {
    S3Effects.PutToThenGet(w, BOOTSTRAP, [1], TypeOr(""), map[], map[], put.env);
    hide CheckedId, Blocked, PutTo, FreshObject, Normalized, TypeOr, Read, S3Effects.AnswersElsewhere, Inv;
  }

  lemma SteadyParts(env: Env)
    requires Steady(env)
    ensures env.saved && env.now > 0 && env.until > 0
  {
  }

  lemma NowIs(op: Op, env: Env)
    ensures Now(op, env) == Requested(Request(op, env), {})
  {
  }
}