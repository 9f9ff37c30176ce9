/** Object lock over runs: a protected object, its bytes and its protection outlive every request. */
module S3ObjectLock {
  import opened Wrappers
  import opened Strings
  import opened S3Model
  import opened S3Invariants

  // ---------- what stays the same about an object ----------

  datatype Aspect = LiveObject | PayloadBytes | RetentionPeriod | LegalHold

  ghost predicate Same(w: World, w': World, id: ObjectId, a: Aspect) {
    match a
    case LiveObject => id in w.state.objects && id in w'.state.objects && w'.state.objects[id] == w.state.objects[id]
    case PayloadBytes =>
      id in w.state.objects && SameEntry(w.payloads, w'.payloads, w.state.objects[id].ref)
    case RetentionPeriod => SameEntry(w.state.retention, w'.state.retention, id)
    case LegalHold => SameEntry(w.state.holds, w'.state.holds, id)
  }

  ghost predicate SameEntry<K, V>(m: map<K, V>, m': map<K, V>, k: K) {
    k in m ==> k in m' && m'[k] == m[k]
  }

  ghost predicate Unchanged(w: World, w': World, id: ObjectId) {
    forall a :: Same(w, w', id, a)
  }

  // the date never moves back, and compliance mode stays
  ghost predicate NotWeaker(before: Retention, after: Retention) {
    before.until <= after.until && (before.mode == Compliance ==> after.mode == Compliance)
  }

  // The object and its bytes are the same and its retention is no weaker.
  ghost predicate Retained(w: World, w': World, id: ObjectId) {
    && Same(w, w', id, LiveObject) && Same(w, w', id, PayloadBytes)
    && id in w.state.retention && id in w'.state.retention
    && NotWeaker(w.state.retention[id], w'.state.retention[id])
  }

  // The object and its bytes are the same and its legal hold is still on.
  ghost predicate Held(w: World, w': World, id: ObjectId) {
    && Same(w, w', id, LiveObject) && Same(w, w', id, PayloadBytes)
    && id in w'.state.holds && w'.state.holds[id] == On
  }

  ghost predicate BlockedNow(w: World, id: ObjectId, now: nat) {
    Inv(w) && id in w.state.objects && Blocked(w.state, id, now)
  }

  // ---------- requests on other objects ----------

  // The content-addressed store never gives a reference other bytes.
  lemma PayloadElsewhere(w: World, other: ObjectId, body: Bytes, id: ObjectId)
    requires Inv(w) && id in w.state.objects
    ensures Same(w, StorePayload(w, other, body), id, PayloadBytes)
  {
    assert Holds(w, ObjectPayloadsClause);
  }

  lemma StoreFreshElsewhere(w: World, other: ObjectId, body: Bytes, contentType: string,
                            metadata: map<string, string>, headers: map<string, string>, now: nat, id: ObjectId)
    requires Inv(w) && id in w.state.objects && other != id
    ensures Unchanged(w, StoreFresh(w, other, body, contentType, metadata, headers, now), id)
  {
    PayloadElsewhere(w, other, body, id);
    StoreObjectShape(StorePayload(w, other, body), FreshObject(other, body, contentType, metadata, headers), now);
  }

  // Protection given to another object.
  lemma ReprotectElsewhere(w: World, w1: World, s: State, other: ObjectId, id: ObjectId)
    requires Unchanged(w, w1, id) && other != id
    requires s == w1.state.(retention := s.retention, holds := s.holds)
    requires s.retention - {other} == w1.state.retention - {other} && s.holds - {other} == w1.state.holds - {other}
    ensures Unchanged(w, w1.(state := s), id)
  {
    forall a ensures Same(w, w1.(state := s), id, a) {
      assert Same(w, w1, id, a);
      assert id in s.retention - {other} <==> id in s.retention;
      assert id in s.holds - {other} <==> id in s.holds;
    }
  }

  lemma ReprotectedShape(s: State, other: ObjectId, until: nat)
    ensures var t := Reprotected(s, other, until);
      && t == s.(retention := t.retention, holds := t.holds)
      && t.retention - {other} == s.retention - {other} && t.holds - {other} == s.holds - {other}
  {
  }

  lemma CopiedShape(s: State, other: ObjectId, from: ObjectId, until: nat)
    ensures var t := ApplyDefaultRetention(CopyProtection(ClearProtection(s, other), other, from), other, until);
      && t == s.(retention := t.retention, holds := t.holds)
      && t.retention - {other} == s.retention - {other} && t.holds - {other} == s.holds - {other}
  {
  }

  lemma PutToElsewhere(w: World, other: ObjectId, body: Bytes, contentType: string,
                       metadata: map<string, string>, headers: map<string, string>, env: Env, id: ObjectId)
    requires Inv(w) && id in w.state.objects && other != id
    ensures Unchanged(w, PutTo(w, other, body, contentType, metadata, headers, env), id)
  {
    StoreFreshElsewhere(w, other, body, contentType, metadata, headers, env.now, id);
    var w1 := StoreFresh(w, other, body, contentType, metadata, headers, env.now);
    ReprotectedShape(w1.state, other, env.until);
    ReprotectElsewhere(w, w1, Reprotected(w1.state, other, env.until), other, id);
  }

  lemma CopyToElsewhere(w: World, other: ObjectId, from: ObjectId, body: Bytes, contentType: string,
                        metadata: map<string, string>, headers: map<string, string>, env: Env, id: ObjectId)
    requires Inv(w) && id in w.state.objects && other != id
    ensures Unchanged(w, CopyTo(w, other, from, body, contentType, metadata, headers, env), id)
  {
    StoreFreshElsewhere(w, other, body, contentType, metadata, headers, env.now, id);
    var w1 := StoreFresh(w, other, body, contentType, metadata, headers, env.now);
    var s := CopyProtection(ClearProtection(w1.state, other), other, from);
    CopiedShape(w1.state, other, from, env.until);
    ReprotectElsewhere(w, w1, ApplyDefaultRetention(s, other, env.until), other, id);
  }

  lemma CompleteToElsewhere(w: World, u: string, env: Env, id: ObjectId)
    requires u in w.uploads && id in w.state.objects && ObjectId(w.uploads[u].bucket, w.uploads[u].key) != id
    ensures Unchanged(w, CompleteTo(w, u, env), id)
  {
    var o := Completed(w.uploads[u]);
    StoreObjectShape(w, o, env.now);
    var w1 := StoreObject(w, o, env.now);
    ReprotectedShape(w1.state, ObjectIdOf(o), env.until);
    ReprotectElsewhere(w, w1, Reprotected(w1.state, ObjectIdOf(o), env.until), ObjectIdOf(o), id);
    SameUploadsAside(w, w1.(state := Reprotected(w1.state, ObjectIdOf(o), env.until)), CompleteTo(w, u, env), id);
  }

  lemma SameUploadsAside(w: World, w1: World, w2: World, id: ObjectId)
    requires Unchanged(w, w1, id) && w2 == w1.(uploads := w2.uploads)
    ensures Unchanged(w, w2, id)
  {
    forall a ensures Same(w, w2, id, a) {
      assert Same(w, w1, id, a);
    }
  }

  lemma RemoveElsewhere(w: World, other: ObjectId, env: Env, id: ObjectId)
    requires BlockedNow(w, id, env.now) && ProperId(other)
    ensures Unchanged(w, RemoveObject(w, other, env).0, id)
  {
    if other != id {
      DropElsewhere(w, other, env, id);
    }
  }

  lemma DropElsewhere(w: World, other: ObjectId, env: Env, id: ObjectId)
    requires Inv(w) && id in w.state.objects && ProperId(other) && other != id
    ensures Unchanged(w, RemoveObject(w, other, env).0, id)
  {
    if other in w.state.objects && Blocked(w.state, other, env.now) {
    } else if other.bucket in w.state.versioning {
      MarkedElsewhere(w, other, env.now, id);
    } else {
      PlainElsewhere(w, other, if other in w.state.objects then {w.state.objects[other].ref} - {NoRef} else {}, id);
    }
  }

  lemma MarkedElsewhere(w: World, other: ObjectId, now: nat, id: ObjectId)
    requires id in w.state.objects && other != id
    ensures Unchanged(w, w.(state := DropObject(RecordMarker(w.state, other, now), other)), id)
  {
  }

  lemma PlainElsewhere(w: World, other: ObjectId, dead: set<PayloadRef>, id: ObjectId)
    requires Inv(w) && id in w.state.objects && other != id
    requires dead == if other in w.state.objects then {w.state.objects[other].ref} - {NoRef} else {}
    ensures Unchanged(w, w.(state := DropObject(w.state, other), payloads := w.payloads - dead), id)
  {
    DropKeepsPayload(w, other, id);
  }

  lemma DropKeepsPayload(w: World, other: ObjectId, id: ObjectId)
    requires Inv(w) && id in w.state.objects && other != id
    ensures other in w.state.objects && w.state.objects[id].ref != NoRef && w.state.objects[other].ref != NoRef
      ==> w.state.objects[other].ref != w.state.objects[id].ref
  {
    if other in w.state.objects {
      KnownObject(w, id);
      KnownObject(w, other);
      HintTells(other, id);
      assert Holds(w, ObjectPayloadsClause);
    }
  }

  lemma {:induction false} RemoveEachElsewhere(w: World, bucket: string, keys: seq<string>, quiet: bool, env: Env, id: ObjectId)
    requires BlockedNow(w, id, env.now) && bucket in w.state.buckets
    ensures Unchanged(w, RemoveEach(w, bucket, keys, quiet, env).0, id)
    decreases |keys|
  {
    if |keys| > 0 {
      var key := TrimSpace(keys[0]);
      if key == "" {
        RemoveEachElsewhere(w, bucket, keys[1..], quiet, NextSave(env), id);
      } else {
        assert Holds(w, BucketsClause);
        var w1 := RemoveObject(w, ObjectId(bucket, key), env).0;
        RemoveElsewhere(w, ObjectId(bucket, key), env, id);
        RemoveInv(w, ObjectId(bucket, key), env);
        StillBlocked(w, w1, id, env.now);
        RemoveEachElsewhere(w1, bucket, keys[1..], quiet, NextSave(env), id);
        UnchangedTwice(w, w1, RemoveEach(w1, bucket, keys[1..], quiet, NextSave(env)).0, id);
      }
    }
  }

  lemma StillBlocked(w: World, w1: World, id: ObjectId, now: nat)
    requires BlockedNow(w, id, now) && Unchanged(w, w1, id) && Inv(w1)
    ensures BlockedNow(w1, id, now)
  {
    assert Same(w, w1, id, LiveObject) && Same(w, w1, id, RetentionPeriod) && Same(w, w1, id, LegalHold);
  }

  lemma UnchangedTwice(w: World, w1: World, w2: World, id: ObjectId)
    requires Unchanged(w, w1, id) && Unchanged(w1, w2, id)
    ensures Unchanged(w, w2, id)
  {
    forall a ensures Same(w, w2, id, a) {
      assert Same(w, w1, id, LiveObject);
      assert Same(w, w1, id, a) && Same(w1, w2, id, a);
    }
  }

  // ---------- one request ----------

  lemma PutElsewhere(w: World, bucket: string, key: string, body: Bytes, contentType: string,
                     metadata: map<string, string>, headers: map<string, string>, env: Env, id: ObjectId)
    requires BlockedNow(w, id, env.now)
    ensures Unchanged(w, PutObject(w, bucket, key, body, contentType, metadata, headers, env).0, id)
  {
    hide TrimSpace, CheckedId, PutTo, FreshObject;
    if CheckedId(w, bucket, key).Ok? && CheckedId(w, bucket, key).value != id {
      PutToElsewhere(w, CheckedId(w, bucket, key).value, body, TypeOr(contentType), metadata, headers, env, id);
    }
  }

  lemma CopyElsewhere(w: World, bucket: string, key: string, sourceBucket: string, sourceKey: string,
                      directive: string, metadata: map<string, string>, env: Env, id: ObjectId)
    requires BlockedNow(w, id, env.now)
    ensures Unchanged(w, CopyObject(w, bucket, key, sourceBucket, sourceKey, directive, metadata, env).0, id)
  {
    hide TrimSpace, CheckedId, CopyTo, FreshObject, SourceBytes;
    var to, from := CheckedId(w, bucket, key), CheckedId(w, sourceBucket, sourceKey);
    if to.Ok? && to.value != id && from.Ok? && from.value in w.state.objects
       && SourceBytes(w, w.state.objects[from.value]).Some?
    {
      var source := w.state.objects[from.value];
      CopyToElsewhere(w, to.value, from.value, SourceBytes(w, source).value, source.contentType,
                      ResolvedMetadata(source.metadata, directive, metadata), source.headers, env, id);
    }
  }

  lemma CompleteElsewhere(w: World, uploadId: string, env: Env, id: ObjectId)
    requires BlockedNow(w, id, env.now)
    ensures Unchanged(w, CompleteUpload(w, uploadId, env).0, id)
  {
    assert Unchanged(w, w, id) && id in w.state.objects && Blocked(w.state, id, env.now);
    hide Unchanged, TrimSpace, Completed, Blocked, CompleteTo, BlockedNow;
    if FindUpload(w, uploadId).Ok? {
      var u := FindUpload(w, uploadId).value;
      if ObjectId(w.uploads[u].bucket, w.uploads[u].key) != id {
        CompleteToElsewhere(w, u, env, id);
      }
    }
  }

  lemma DeleteBucketElsewhere(w: World, name: string, env: Env, id: ObjectId)
    requires id in w.state.objects
    ensures Unchanged(w, DeleteBucket(w, name, env).0, id)
  {
  }

  lemma QuietElsewhere(w: World, op: Op, env: Env, id: ObjectId)
    requires id in w.state.objects && TouchesNoObject(op)
    ensures Unchanged(w, Step(w, op, env), id)
  {
    NoObjectTouched(w, op, env);
  }

  // A blocked object, its bytes and its protection survive every request that does not set protection.
  lemma BlockedSurvives(w: World, op: Op, env: Env, id: ObjectId)
    requires BlockedNow(w, id, env.now)
    requires !op.OpPutRetention? && !op.OpPutLegalHold?
    ensures Unchanged(w, Step(w, op, env), id)
  {
    assert Unchanged(w, w, id);
    hide Unchanged, PutObject, CopyObject, CompleteUpload, RemoveObject, DropBucket, TrimSpace;
    match op
    case OpPutObject(bucket, key, body, contentType, metadata, headers) =>
      PutElsewhere(w, bucket, key, body, contentType, metadata, headers, env, id);
    case OpCopyObject(bucket, key, sourceBucket, sourceKey, directive, metadata) =>
      CopyElsewhere(w, bucket, key, sourceBucket, sourceKey, directive, metadata, env, id);
    case OpDeleteObject(bucket, key) =>
      if CheckedId(w, bucket, key).Ok? {
        KnownId(w, bucket, key);
        RemoveElsewhere(w, CheckedId(w, bucket, key).value, env, id);
      }
    case OpDeleteObjects(bucket, keys, quiet) =>
      if RequireBucket(w, bucket).Ok? {
        RemoveEachElsewhere(w, RequireBucket(w, bucket).value, keys, quiet, env, id);
      }
    case OpCompleteUpload(uploadId) => CompleteElsewhere(w, uploadId, env, id);
    case OpDeleteBucket(name) => DeleteBucketElsewhere(w, name, env, id);
    case _ => QuietElsewhere(w, op, env, id);
  }

  lemma RetentionShape(w: World, bucket: string, key: string, retention: Option<Retention>, env: Env)
    ensures var w' := PutRetention(w, bucket, key, retention, env).0;
      && w' == w.(state := w.state.(retention := w'.state.retention))
      && (w'.state.retention == w.state.retention ||
          exists to :: w'.state.retention == w.state.retention[to := retention.value] && retention.Some? &&
            (to in w.state.retention ==> !Reduces(w.state.retention[to], retention.value)))
  {
    hide TrimSpace, RequireObject, Reduces;
    var w', to := PutRetention(w, bucket, key, retention, env).0, RequireObject(w, bucket, key);
    if w'.state.retention != w.state.retention {
      assert w'.state.retention == w.state.retention[to.value := retention.value];
    }
  }

  // Setting a retention changes only that, and never to a weaker one.
  lemma RetentionNotWeaker(w: World, bucket: string, key: string, retention: Option<Retention>, env: Env, id: ObjectId)
    requires id in w.state.objects && id in w.state.retention
    ensures Retained(w, PutRetention(w, bucket, key, retention, env).0, id)
    ensures PutRetention(w, bucket, key, retention, env).0.state.holds == w.state.holds
  {
    hide PutRetention;
    RetentionShape(w, bucket, key, retention, env);
  }

  lemma HoldRetains(w: World, bucket: string, key: string, hold: Option<Hold>, env: Env, id: ObjectId)
    requires id in w.state.objects && id in w.state.retention
    ensures Retained(w, PutLegalHold(w, bucket, key, hold, env).0, id)
  {
  }

  // An object before its retain-until date.
  lemma RetainedStep(w: World, op: Op, env: Env, id: ObjectId)
    requires Inv(w) && id in w.state.objects && id in w.state.retention && env.now < w.state.retention[id].until
    ensures Retained(w, Step(w, op, env), id)
  {
    hide PutRetention, PutLegalHold, Retained, Unchanged, Inv;
    match op
    case OpPutRetention(bucket, key, retention) => RetentionNotWeaker(w, bucket, key, retention, env, id);
    case OpPutLegalHold(bucket, key, hold) => HoldRetains(w, bucket, key, hold, env, id);
    case _ =>
      BlockedSurvives(w, op, env, id);
      UnchangedRetained(w, Step(w, op, env), id);
  }

  lemma UnchangedRetained(w: World, w': World, id: ObjectId)
    requires Unchanged(w, w', id) && id in w.state.objects
    ensures id in w.state.retention ==> Retained(w, w', id)
    ensures id in w.state.holds && w.state.holds[id] == On ==> Held(w, w', id)
  {
    assert Same(w, w', id, RetentionPeriod) && Same(w, w', id, LegalHold);
  }

  // ---------- runs ----------

  // While the clock stays before the date, no run changes or removes the object or its bytes, moves the
  // date back, or relaxes compliance mode.
  lemma {:induction false} RetainedOverRuns(w: World, requests: seq<Request>, id: ObjectId)
    requires Inv(w) && id in w.state.objects && id in w.state.retention
    requires forall i | 0 <= i < |requests| :: requests[i].env.now < w.state.retention[id].until
    ensures Retained(w, Run(w, requests), id)
    decreases |requests|
  {
    if |requests| > 0 {
      var op, env := requests[0].op, requests[0].env;
      RetainedStep(w, op, env, id);
      StepKeeps(w, op, env);
      RetainedOverRuns(Step(w, op, env), requests[1..], id);
    }
  }

  // Whether a request sets the legal hold of this object.
  predicate SetsHold(op: Op, id: ObjectId) {
    op.OpPutLegalHold? && ObjectId(TrimSpace(op.bucket), TrimSpace(op.key)) == id
  }

  lemma OtherHold(w: World, bucket: string, key: string, hold: Option<Hold>, env: Env, id: ObjectId)
    requires id in w.state.objects && id in w.state.holds && w.state.holds[id] == On
    requires ObjectId(TrimSpace(bucket), TrimSpace(key)) != id
    ensures Held(w, PutLegalHold(w, bucket, key, hold, env).0, id)
  {
  }

  lemma RetentionHolds(w: World, bucket: string, key: string, retention: Option<Retention>, env: Env, id: ObjectId)
    requires id in w.state.objects && id in w.state.holds && w.state.holds[id] == On
    ensures Held(w, PutRetention(w, bucket, key, retention, env).0, id)
  {
  }

  lemma HeldStep(w: World, op: Op, env: Env, id: ObjectId)
    requires Inv(w) && id in w.state.objects && id in w.state.holds && w.state.holds[id] == On
    requires !SetsHold(op, id)
    ensures Held(w, Step(w, op, env), id)
  {
    hide PutRetention, PutLegalHold, Held, Unchanged, Inv;
    match op
    case OpPutRetention(bucket, key, retention) => RetentionHolds(w, bucket, key, retention, env, id);
    case OpPutLegalHold(bucket, key, hold) => OtherHold(w, bucket, key, hold, env, id);
    case _ =>
      BlockedSurvives(w, op, env, id);
      UnchangedRetained(w, Step(w, op, env), id);
  }

  // A legal hold protects for as long as no request sets the object's hold, whatever the clock says.
  lemma {:induction false} HeldOverRuns(w: World, requests: seq<Request>, id: ObjectId)
    requires Inv(w) && id in w.state.objects && id in w.state.holds && w.state.holds[id] == On
    requires forall i | 0 <= i < |requests| :: !SetsHold(requests[i].op, id)
    ensures Held(w, Run(w, requests), id)
    decreases |requests|
  {
    if |requests| > 0 {
      var op, env := requests[0].op, requests[0].env;
      HeldStep(w, op, env, id);
      StepKeeps(w, op, env);
      HeldOverRuns(Step(w, op, env), requests[1..], id);
    }
  }

  // And only then: setting the hold to OFF, where the bucket has a lock configuration, leaves the retention alone to protect.
  lemma HoldEnds(w: World, bucket: string, key: string, env: Env)
    requires RequireObject(w, bucket, key).Ok? && RequireObject(w, bucket, key).value.bucket in w.state.locks
    ensures var id, w' := RequireObject(w, bucket, key).value, PutLegalHold(w, bucket, key, Some(Off), env).0;
      Blocked(w'.state, id, env.now) <==> id in w.state.retention && env.now < w.state.retention[id].until
  {
  }
}
