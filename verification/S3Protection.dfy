/** What protects an object and from what: which requests are refused because of a legal hold or a retention, what the
    requests that set these leave, and how long what they set lasts. */
module S3Protection {
  import opened Wrappers
  import opened Strings
  import opened S3Model
  import opened S3Invariants
  import opened S3ObjectLock
  import opened S3Effects

  // ---------- refusals ----------

  function Named(bucket: string, key: string): ObjectId {
    ObjectId(TrimSpace(bucket), TrimSpace(key))
  }

  // A request to replace or to remove this object, with nothing else to refuse it for.
  predicate Replaces(w: World, op: Op, id: ObjectId) {
    match op
    case OpPutObject(bucket, key, _, _, _, _) => Named(bucket, key) == id
    case OpDeleteObject(bucket, key) => Named(bucket, key) == id
    case OpCopyObject(bucket, key, sourceBucket, sourceKey, _, _) =>
      Named(bucket, key) == id && TrimSpace(sourceBucket) != "" && TrimSpace(sourceKey) != ""
    case OpCompleteUpload(uploadId) =>
      var u := TrimSpace(uploadId);
      u != "" && u in w.uploads && ObjectId(w.uploads[u].bucket, w.uploads[u].key) == id && |w.uploads[u].parts| > 0
    case _ => false
  }

  lemma KnownNames(w: World, id: ObjectId)
    requires Inv(w) && id in w.state.objects
    ensures id.bucket in w.state.buckets && id.bucket != "" && id.key != ""
  {
    assert Holds(w, ObjectsClause);
    hide Inv;
  }

  // The hold of the object is on, or its retain-until date lies ahead.
  ghost predicate Guarded(s: State, id: ObjectId, now: nat) {
    || (id in s.holds && s.holds[id] == On)
    || (id in s.retention && now < s.retention[id].until)
  }

  lemma GuardedIsBlocked(s: State, id: ObjectId, now: nat)
    ensures Blocked(s, id, now) <==> Guarded(s, id, now)
  {
  }

  lemma NamedChecked(w: World, bucket: string, key: string, id: ObjectId)
    requires Named(bucket, key) == id && id.bucket in w.state.buckets && id.bucket != "" && id.key != ""
    ensures CheckedId(w, bucket, key) == Ok(id)
  {
    hide TrimSpace;
  }

  lemma PutDenied(w: World, bucket: string, key: string, body: Bytes, contentType: string,
                  metadata: map<string, string>, headers: map<string, string>, env: Env, id: ObjectId)
    requires CheckedId(w, bucket, key) == Ok(id) && id in w.state.objects
    ensures PutObject(w, bucket, key, body, contentType, metadata, headers, env).1 == Failed(AccessDenied)
      <==> Blocked(w.state, id, env.now)
  {
    hide TrimSpace, CheckedId, Blocked, PutTo, FreshObject, Normalized;
  }

  lemma CopyDenied(w: World, bucket: string, key: string, sourceBucket: string, sourceKey: string,
                   directive: string, metadata: map<string, string>, env: Env, id: ObjectId)
    requires CheckedId(w, bucket, key) == Ok(id) && id in w.state.objects
    requires TrimSpace(sourceBucket) != "" && TrimSpace(sourceKey) != ""
    ensures CopyObject(w, bucket, key, sourceBucket, sourceKey, directive, metadata, env).1 == Failed(AccessDenied)
      <==> Blocked(w.state, id, env.now)
  {
    hide TrimSpace, CheckedId, Blocked, CopyTo, SourceBytes, FreshObject, Normalized;
    CheckedErrors(w, sourceBucket, sourceKey);
  }

  lemma CheckedErrors(w: World, bucket: string, key: string)
    ensures CheckedId(w, bucket, key).Err? ==> CheckedId(w, bucket, key).error in {NameRequired, KeyRequired, NoSuchBucket}
  {
  }

  lemma DeleteDenied(w: World, bucket: string, key: string, env: Env, id: ObjectId)
    requires CheckedId(w, bucket, key) == Ok(id) && id in w.state.objects
    ensures DeleteObject(w, bucket, key, env).1 == Failed(AccessDenied) <==> Blocked(w.state, id, env.now)
  {
    hide TrimSpace, CheckedId, Blocked, RecordMarker, DropObject;
  }

  lemma CompleteDenied(w: World, uploadId: string, env: Env, id: ObjectId)
    requires Replaces(w, OpCompleteUpload(uploadId), id) && id in w.state.objects && id.bucket in w.state.buckets
    ensures CompleteUpload(w, uploadId, env).1 == Failed(AccessDenied) <==> Blocked(w.state, id, env.now)
  {
    hide TrimSpace, Blocked, CompleteTo, Completed, Normalized;
  }

  // Such a request is denied, and changes nothing, exactly if the object is guarded.
  lemma DeniedIff(w: World, op: Op, env: Env, id: ObjectId)
    requires Inv(w) && id in w.state.objects && Replaces(w, op, id)
    ensures Respond(w, op, env).1 == Failed(AccessDenied) <==> Guarded(w.state, id, env.now)
    ensures Guarded(w.state, id, env.now) ==> Step(w, op, env) == w
  {
    hide Inv, TrimSpace, Named, Blocked, Guarded, CheckedId, PutObject, CopyObject, DeleteObject, DeleteObjects, CompleteUpload,
      CreateBucket, DeleteBucket, PutRetention, PutLegalHold, CreateUpload, UploadPart, AbortUpload;
    KnownNames(w, id);
    GuardedIsBlocked(w.state, id, env.now);
    match op {
      case OpPutObject(bucket, key, body, contentType, metadata, headers) =>
        NamedChecked(w, bucket, key, id);
        PutDenied(w, bucket, key, body, contentType, metadata, headers, env, id);
      case OpDeleteObject(bucket, key) =>
        NamedChecked(w, bucket, key, id);
        DeleteDenied(w, bucket, key, env, id);
      case OpCopyObject(bucket, key, sourceBucket, sourceKey, directive, metadata) =>
        NamedChecked(w, bucket, key, id);
        CopyDenied(w, bucket, key, sourceBucket, sourceKey, directive, metadata, env, id);
      case OpCompleteUpload(uploadId) => CompleteDenied(w, uploadId, env, id);
      case _ =>
    }
    if Guarded(w.state, id, env.now) {
      RefusalChangesNothing(w, op, env);
    }
  }

  // ---------- legal holds ----------

  lemma RequiredIff(w: World, bucket: string, key: string)
    ensures var id := Named(bucket, key);
      && (RequireObject(w, bucket, key).Ok? <==> id.bucket in w.state.buckets && id.bucket != "" && id.key != "" && id in w.state.objects)
      && (RequireObject(w, bucket, key).Ok? ==> RequireObject(w, bucket, key).value == id)
      && (RequireObject(w, bucket, key).Err? ==> RequireObject(w, bucket, key).error in {NameRequired, NoSuchBucket, KeyRequired, NoSuchKey})
  {
    hide TrimSpace;
  }

  // A hold is set exactly if the object lives in a bucket with a lock configuration and the request is well-formed;
  // the object then has that hold, and nothing else is different.
  lemma HoldSetIff(w: World, bucket: string, key: string, parsed: Option<Hold>, env: Env)
    requires Inv(w)
    ensures var (w', r) := PutLegalHold(w, bucket, key, parsed, env);
      var id := Named(bucket, key);
      && (Mutated(r) <==> id in w.state.objects && id.bucket in w.state.locks && parsed.Some?)
      && (Mutated(r) ==>
            && r == (if env.saved then HoldSet(parsed.value) else Failed(PersistFailed))
            && id in w'.state.holds && w'.state.holds[id] == parsed.value
            && w'.state.holds - {id} == w.state.holds - {id}
            && w' == w.(state := w.state.(holds := w'.state.holds)))
      && (!Mutated(r) ==> w' == w)
  {
    hide Inv, TrimSpace, Named, RequireObject;
    RequiredIff(w, bucket, key);
    var id := Named(bucket, key);
    if id in w.state.objects {
      KnownNames(w, id);
    }
  }

  // ---------- protection over runs ----------

  lemma SteppedTo(w: World, op: Op, env: Env)
    ensures Step(w, op, env) == match op {
      case OpPutLegalHold(bucket, key, hold) => PutLegalHold(w, bucket, key, hold, env).0
      case OpPutRetention(bucket, key, retention) => PutRetention(w, bucket, key, retention, env).0
      case OpPutObject(bucket, key, body, contentType, metadata, headers) =>
        PutObject(w, bucket, key, body, contentType, metadata, headers, env).0
      case _ => Respond(w, op, env).0
    }
  {
    hide PutLegalHold, PutRetention, PutObject;
  }

  lemma GuardedBy(s: State, id: ObjectId, now: nat)
    ensures id in s.holds && s.holds[id] == On ==> Guarded(s, id, now)
    ensures id in s.retention && now < s.retention[id].until ==> Guarded(s, id, now)
  {
  }

  lemma SameObjectsRead(w: World, w1: World, id: ObjectId)
    requires w1.state.objects == w.state.objects && w1.payloads == w.payloads
    ensures Read(w1, id) == Read(w, id)
  {
  }

  // As long as no request sets the hold again, whatever else happens and whatever the clock says, an object whose hold
  // was put on is still there as it was, and whatever would replace or remove it is denied.
  lemma HoldDenies(w: World, bucket: string, key: string, env: Env, requests: seq<Request>, op: Op, after: Env)
    requires Inv(w) && Named(bucket, key) in w.state.objects && Named(bucket, key).bucket in w.state.locks
    requires forall i | 0 <= i < |requests| :: !SetsHold(requests[i].op, Named(bucket, key))
    requires Replaces(Run(PutLegalHold(w, bucket, key, Some(On), env).0, requests), op, Named(bucket, key))
    ensures var id, w' := Named(bucket, key), Run(PutLegalHold(w, bucket, key, Some(On), env).0, requests);
      && id in w'.state.objects && w'.state.objects[id] == w.state.objects[id] && Read(w', id) == Read(w, id)
      && Respond(w', op, after).1 == Failed(AccessDenied) && Step(w', op, after) == w'
  {
    hide *;
    var id, w1 := Named(bucket, key), PutLegalHold(w, bucket, key, Some(On), env).0;
    HoldSetIff(w, bucket, key, Some(On), env);
    StepKeeps(w, OpPutLegalHold(bucket, key, Some(On)), env);
    SteppedTo(w, OpPutLegalHold(bucket, key, Some(On)), env);
    HeldOverRuns(w1, requests, id);
    RunKeeps(w1, requests);
    var w' := Run(w1, requests);
    HeldReads(w1, w', id);
    SameObjectsRead(w, w1, id);
    GuardedBy(w'.state, id, after.now);
    DeniedIff(w', op, after, id);
  }

  lemma HeldReads(w: World, w': World, id: ObjectId)
    requires Inv(w) && id in w.state.objects && Held(w, w', id)
    ensures id in w'.state.objects && w'.state.objects[id] == w.state.objects[id] && Read(w', id) == Read(w, id)
    ensures id in w'.state.holds && w'.state.holds[id] == On
  {
    assert Holds(w, ObjectPayloadsClause);
    hide Inv;
  }

  // ---------- retention ----------

  // A retention is set exactly if, moreover, it is not earlier than the one the object has and does not relax compliance
  // to governance; the object then has that retention, and nothing else is different.
  lemma RetentionSetIff(w: World, bucket: string, key: string, parsed: Option<Retention>, env: Env)
    requires Inv(w)
    ensures var (w', r) := PutRetention(w, bucket, key, parsed, env);
      var id, before := Named(bucket, key), w.state.retention;
      && (Mutated(r) <==>
            && id in w.state.objects && id.bucket in w.state.locks && parsed.Some?
            && (id in before ==>
                 && before[id].until <= parsed.value.until
                 && (parsed.value.mode == Governance ==> before[id].mode == Governance)))
      && (Mutated(r) ==>
            && r == (if env.saved then RetentionSet(parsed.value) else Failed(PersistFailed))
            && id in w'.state.retention && w'.state.retention[id] == parsed.value
            && w'.state.retention - {id} == before - {id}
            && w' == w.(state := w.state.(retention := w'.state.retention)))
      && (!Mutated(r) ==> w' == w)
  {
    hide Inv, TrimSpace, Named, RequireObject;
    RequiredIff(w, bucket, key);
    var id := Named(bucket, key);
    if id in w.state.objects {
      KnownNames(w, id);
    }
  }

  // A refusal because of the retention itself.
  lemma WeakerDeniedIff(w: World, bucket: string, key: string, parsed: Option<Retention>, env: Env)
    requires Inv(w)
    ensures var id, before := Named(bucket, key), w.state.retention;
      PutRetention(w, bucket, key, parsed, env).1 == Failed(AccessDenied) <==>
        && id in w.state.objects && id.bucket in w.state.locks && parsed.Some? && id in before
        && (parsed.value.until < before[id].until || (before[id].mode == Compliance && parsed.value.mode == Governance))
  {
    hide Inv, TrimSpace, Named, RequireObject;
    RequiredIff(w, bucket, key);
    var id := Named(bucket, key);
    if id in w.state.objects {
      KnownNames(w, id);
    }
  }

  // As long as the clock stays before the date that was set, an object is there as it was, whatever would replace or
  // remove it is denied, and so is an earlier date.
  lemma RetentionDenies(w: World, bucket: string, key: string, retention: Retention, env: Env,
                        requests: seq<Request>, op: Op, after: Env)
    requires Inv(w) && Mutated(PutRetention(w, bucket, key, Some(retention), env).1)
    requires forall i | 0 <= i < |requests| :: requests[i].env.now < retention.until
    requires after.now < retention.until
    ensures var id, w' := Named(bucket, key), Run(PutRetention(w, bucket, key, Some(retention), env).0, requests);
      && id in w.state.objects && id in w'.state.objects && w'.state.objects[id] == w.state.objects[id]
      && Read(w', id) == Read(w, id)
      && id in w'.state.retention && retention.until <= w'.state.retention[id].until
      && (Replaces(w', op, id) ==> Respond(w', op, after).1 == Failed(AccessDenied) && Step(w', op, after) == w')
  {
    hide *;
    var id, w1 := Named(bucket, key), PutRetention(w, bucket, key, Some(retention), env).0;
    RetentionSetIff(w, bucket, key, Some(retention), env);
    StepKeeps(w, OpPutRetention(bucket, key, Some(retention)), env);
    SteppedTo(w, OpPutRetention(bucket, key, Some(retention)), env);
    RetainedOverRuns(w1, requests, id);
    RunKeeps(w1, requests);
    var w' := Run(w1, requests);
    RetainedReads(w1, w', id);
    SameObjectsRead(w, w1, id);
    GuardedBy(w'.state, id, after.now);
    if Replaces(w', op, id) {
      DeniedIff(w', op, after, id);
    }
  }

  lemma RetainedReads(w: World, w': World, id: ObjectId)
    requires Inv(w) && Retained(w, w', id)
    ensures id in w'.state.objects && w'.state.objects[id] == w.state.objects[id] && Read(w', id) == Read(w, id)
    ensures id in w'.state.retention && w.state.retention[id].until <= w'.state.retention[id].until
  {
    assert Holds(w, ObjectPayloadsClause);
    hide Inv;
  }

  // ---------- default retention ----------

  // A lock configuration is taken exactly by a bucket with enabled versioning, in place of the one before.
  lemma LockSetIff(w: World, bucket: string, parsed: Option<LockConfig>, env: Env)
    ensures var (w', r) := PutObjectLockConfiguration(w, bucket, parsed, env);
      var b, versioning := TrimSpace(bucket), w.state.versioning;
      && (Mutated(r) <==>
            b != "" && b in w.state.buckets && b in versioning && versioning[b] == Enabled && parsed.Some?)
      && (Mutated(r) ==>
            && r == (if env.saved then LockSet(parsed.value) else Failed(PersistFailed))
            && w'.state.locks == w.state.locks[b := parsed.value]
            && w' == w.(state := w.state.(locks := w'.state.locks)))
      && (!Mutated(r) ==> w' == w)
  {
    hide TrimSpace;
  }

  // An object that is put into a bucket whose lock configuration has a default retention cannot be replaced or removed
  // before that is over.
  lemma DefaultDenies(w: World, bucket: string, key: string, body: Bytes, contentType: string,
                      metadata: map<string, string>, headers: map<string, string>, env: Env,
                      requests: seq<Request>, op: Op, after: Env)
    requires Inv(w) && Mutated(PutObject(w, bucket, key, body, contentType, metadata, headers, env).1)
    requires var b := TrimSpace(bucket); b in w.state.locks && w.state.locks[b].default.Some?
    requires forall i | 0 <= i < |requests| :: requests[i].env.now < env.until
    requires after.now < env.until
    ensures var id := Named(bucket, key);
      var w1 := PutObject(w, bucket, key, body, contentType, metadata, headers, env).0;
      var w' := Run(w1, requests);
      && id in w1.state.retention
      && w1.state.retention[id] == Retention(w.state.locks[id.bucket].default.value.mode, env.until)
      && id in w1.state.objects && id in w'.state.objects && w'.state.objects[id] == w1.state.objects[id]
      && Read(w', id) == Read(w1, id)
      && (Replaces(w', op, id) ==> Respond(w', op, after).1 == Failed(AccessDenied) && Step(w', op, after) == w')
  {
    hide *;
    var id := Named(bucket, key);
    var w1 := PutObject(w, bucket, key, body, contentType, metadata, headers, env).0;
    PutRetains(w, bucket, key, body, contentType, metadata, headers, env);
    StepKeeps(w, OpPutObject(bucket, key, body, contentType, metadata, headers), env);
    SteppedTo(w, OpPutObject(bucket, key, body, contentType, metadata, headers), env);
    RetainedOverRuns(w1, requests, id);
    RunKeeps(w1, requests);
    var w' := Run(w1, requests);
    RetainedReads(w1, w', id);
    GuardedBy(w'.state, id, after.now);
    if Replaces(w', op, id) {
      DeniedIff(w', op, after, id);
    }
  }

  lemma PutRetains(w: World, bucket: string, key: string, body: Bytes, contentType: string,
                   metadata: map<string, string>, headers: map<string, string>, env: Env)
    requires Inv(w) && Mutated(PutObject(w, bucket, key, body, contentType, metadata, headers, env).1)
    requires var b := TrimSpace(bucket); b in w.state.locks && w.state.locks[b].default.Some?
    ensures var id, w1 := Named(bucket, key), PutObject(w, bucket, key, body, contentType, metadata, headers, env).0;
      && id in w1.state.objects && id in w1.state.retention
      && w1.state.retention[id] == Retention(w.state.locks[id.bucket].default.value.mode, env.until)
  {
    hide TrimSpace, PutTo, Inv, Read, Blocked, FreshObject, Normalized;
    var id := CheckedId(w, bucket, key).value;
    PutThenGet(w, bucket, key, body, contentType, metadata, headers, env);
    ReadIsLive(PutObject(w, bucket, key, body, contentType, metadata, headers, env).0, id);
    NewObjectProtection(w, id, body, TypeOr(contentType), metadata, headers, "", env);
  }

  lemma ReadIsLive(w: World, id: ObjectId)
    ensures Read(w, id).Ok? ==> id in w.state.objects
  {
    hide Hydrated;
  }
}
