/** Worlds that differ only in the place of bytes and in the order of versions: every request and every read is answered
    alike, and what is saved is the same. */
module S3Alike {
  import opened Wrappers
  import opened Strings
  import opened S3Model
  import opened S3Invariants
  import opened S3ObjectLock
  import opened S3Repository
  import StableSort

  // ---------- versions without their bytes ----------

  function Bare(r: VersionRecord): VersionRecord {
    r.(body := [])
  }

  function Bares(history: seq<VersionRecord>): (bares: seq<VersionRecord>)
    ensures |bares| == |history|
    ensures forall i | 0 <= i < |history| :: bares[i] == Bare(history[i])
  {
    seq(|history|, i requires 0 <= i < |history| => Bare(history[i]))
  }

  // ---------- worlds that answer alike ----------

  // the bytes of an object under a reference are the ones that the reference tells
  ghost predicate Tidy(payloads: map<PayloadRef, Bytes>, id: ObjectId, ref: PayloadRef, body: Bytes) {
    ref != NoRef ==>
      && ref in payloads
      && ref == Ref(Hint(id), OfBody(payloads[ref]))
      && (body == [] || body == payloads[ref])
  }

  // An object is the same but for the place of its bytes.
  ghost predicate Kept(w: World, v: World, id: ObjectId)
    requires id in w.state.objects && id in v.state.objects
  {
    var o, p := w.state.objects[id], v.state.objects[id];
    && p.(body := [], ref := NoRef) == o.(body := [], ref := NoRef)
    && SourceBytes(v, p) == SourceBytes(w, o)
    && Tidy(v.payloads, id, p.ref, p.body)
  }

  ghost predicate ObjectsKept(w: World, v: World) {
    && v.state.objects.Keys == w.state.objects.Keys
    && forall id | id in w.state.objects :: Kept(w, v, id)
  }

  // The versions are the same but for their order and the place of their bytes.
  ghost predicate VersionsKept(w: World, v: World) {
    && multiset(Bares(v.state.history)) == multiset(Bares(w.state.history))
    && forall i | 0 <= i < |v.state.history| ::
         var r := v.state.history[i];
         Tidy(v.payloads, RecordIdOf(r), r.ref, r.body) && (r.ref == NoRef ==> r.body == [])
  }

  // Everything but objects, versions and payloads is the same.
  ghost predicate SameElse(w: World, v: World) {
    && v.uploads == w.uploads
    && v.state == w.state.(objects := v.state.objects, history := v.state.history)
  }

  ghost predicate Like(w: World, v: World) {
    SameElse(w, v) && ObjectsKept(w, v) && VersionsKept(w, v)
  }

  lemma LikeSelf(w: World)
    requires Inv(w)
    ensures Like(w, w)
  {
    assert Holds(w, ObjectPayloadsClause) && Holds(w, RecordPayloadsClause) && Holds(w, HistoryClause);
  }

  lemma SameFields(w: World, v: World, id: ObjectId)
    requires Like(w, v) && id in w.state.objects
    ensures id in v.state.objects
    ensures var o, p := w.state.objects[id], v.state.objects[id];
      p.(body := [], ref := NoRef) == o.(body := [], ref := NoRef) && SourceBytes(v, p) == SourceBytes(w, o)
  {
    hide VersionsKept, SameElse, Tidy;
    assert Kept(w, v, id);
  }

  lemma LikeKeys(u: World, v: World)
    requires Like(u, v)
    ensures v.state.objects.Keys == u.state.objects.Keys
    ensures forall id :: id in v.state.objects <==> id in u.state.objects
  {
    hide VersionsKept, Kept, SameElse;
  }

  lemma LikeAt(u: World, v: World, id: ObjectId)
    requires Like(u, v) && id in u.state.objects
    ensures id in v.state.objects
    ensures var p := v.state.objects[id];
      SourceBytes(v, p) == SourceBytes(u, u.state.objects[id]) && Tidy(v.payloads, id, p.ref, p.body)
  {
    hide VersionsKept, SameElse;
    assert Kept(u, v, id);
  }

  // Worlds that are alike answer alike.
  lemma AnswersAlike(w: World, v: World, id: ObjectId)
    requires Inv(w) && Like(w, v) && id in w.state.objects
    ensures Answer(v.payloads, v.state.objects[id]) == Answer(w.payloads, w.state.objects[id]) != None
  {
    assert Holds(w, ObjectPayloadsClause);
    assert Kept(w, v, id);
  }

  // ---------- versions of worlds that are alike ----------

  lemma {:induction false} MaxOfBares(history: seq<VersionRecord>)
    ensures MaxSequence(Bares(history)) == MaxSequence(history)
  {
    if |history| > 0 {
      var n := |history| - 1;
      assert Bares(history)[..n] == Bares(history[..n]);
      MaxOfBares(history[..n]);
    }
  }

  lemma MaxAtMost(a: seq<VersionRecord>, b: seq<VersionRecord>)
    requires forall r :: r in a ==> r in b
    ensures MaxSequence(a) <= MaxSequence(b)
  {
    MaxIsReached(a);
    MaxIsUpperBound(b);
    assert a == [] ==> MaxSequence(a) == 0;
    hide MaxSequence;
    if a != [] {
      var r :| r in a && r.sequence == MaxSequence(a);
      assert r in b;
    }
  }

  lemma SameSequence(w: World, v: World)
    requires VersionsKept(w, v)
    ensures NextSequence(v.state.history) == NextSequence(w.state.history)
  {
    var a, b := w.state.history, v.state.history;
    MaxOfBares(a);
    MaxOfBares(b);
    StableSort.SameElements(Bares(a), Bares(b));
    hide MaxSequence, Bares;
    MaxAtMost(Bares(a), Bares(b));
    MaxAtMost(Bares(b), Bares(a));
  }

  // Every version of the one has its counterpart in the other.
  lemma Counterpart(w: World, v: World, i: nat) returns (j: nat)
    requires VersionsKept(w, v) && i < |v.state.history|
    ensures j < |w.state.history| && Bare(w.state.history[j]) == Bare(v.state.history[i])
  {
    var a, b := Bares(w.state.history), Bares(v.state.history);
    StableSort.SameElements(a, b);
    assert b[i] in a;
    j :| 0 <= j < |a| && a[j] == b[i];
  }

  lemma CounterpartBack(w: World, v: World, j: nat) returns (i: nat)
    requires VersionsKept(w, v) && j < |w.state.history|
    ensures i < |v.state.history| && Bare(w.state.history[j]) == Bare(v.state.history[i])
  {
    var a, b := Bares(w.state.history), Bares(v.state.history);
    StableSort.SameElements(a, b);
    assert a[j] in b;
    i :| 0 <= i < |b| && b[i] == a[j];
  }

  lemma SameEmptiness(w: World, v: World, name: string)
    requires Like(w, v)
    ensures BucketEmpty(v.state, name) <==> BucketEmpty(w.state, name)
  {
    var a, b := w.state.history, v.state.history;
    StableSort.SameElements(Bares(a), Bares(b));
    NoneOf(a, name);
    NoneOf(b, name);
    hide Bares;
    assert v.state.objects.Keys == w.state.objects.Keys;
    assert forall id :: id in v.state.objects <==> id in w.state.objects;
  }

  lemma NoneOf(history: seq<VersionRecord>, name: string)
    ensures (forall i | 0 <= i < |history| :: history[i].bucket != name) <==> (forall r | r in Bares(history) :: r.bucket != name)
  {
    if forall r | r in Bares(history) :: r.bucket != name {
      forall i | 0 <= i < |history| ensures history[i].bucket != name {
        assert Bares(history)[i] in Bares(history);
      }
    }
  }

  // ---------- requests that leave objects alone ----------

  predicate Quiet(op: Op) {
    TouchesNoObject(op) || op.OpPutRetention? || op.OpPutLegalHold?
  }

  lemma SameChecks(w: World, v: World, bucket: string, key: string)
    requires SameElse(w, v) && v.state.objects.Keys == w.state.objects.Keys
    ensures CheckedId(v, bucket, key) == CheckedId(w, bucket, key)
    ensures RequireBucket(v, bucket) == RequireBucket(w, bucket)
    ensures RequireObject(v, bucket, key) == RequireObject(w, bucket, key)
    ensures FindUpload(v, key) == FindUpload(w, key)
  {
    hide TrimSpace;
    assert forall id :: id in v.state.objects <==> id in w.state.objects;
  }

  lemma LikeChecks(w: World, v: World, bucket: string, key: string)
    requires Like(w, v)
    ensures CheckedId(v, bucket, key) == CheckedId(w, bucket, key)
  {
    SameChecks(w, v, bucket, key);
  }

  lemma QuietLike(w: World, v: World, op: Op, env: Env)
    requires Like(w, v) && Quiet(op)
    ensures Like(Step(w, op, env), Step(v, op, env))
    ensures Respond(v, op, env).1 == Respond(w, op, env).1
  {
    QuietAlike(w, v, op, env);
    QuietLeaves(w, op, env);
    QuietLeaves(v, op, env);
    hide Step, Respond, Quiet;
    OnlyElseChanged(w, v, Step(w, op, env), Step(v, op, env));
  }

  lemma OnlyElseChanged(w: World, v: World, w1: World, v1: World)
    requires Like(w, v) && SameElse(w1, v1)
    requires w1.payloads == w.payloads && w1.state.objects == w.state.objects && w1.state.history == w.state.history
    requires v1.payloads == v.payloads && v1.state.objects == v.state.objects && v1.state.history == v.state.history
    ensures Like(w1, v1)
  {
    forall id | id in w1.state.objects ensures Kept(w1, v1, id) {
      assert Kept(w, v, id);
    }
  }

  lemma QuietLeaves(w: World, op: Op, env: Env)
    requires Quiet(op)
    ensures var w' := Step(w, op, env);
      w'.payloads == w.payloads && w'.state.objects == w.state.objects && w'.state.history == w.state.history
  {
    match op
    case OpPutRetention(bucket, key, retention) =>
      RetentionShape(w, bucket, key, retention, env);
      hide PutRetention;
    case OpPutLegalHold(bucket, key, hold) =>
      hide TrimSpace, RequireObject;
    case _ =>
      hide Step;
      NoObjectTouched(w, op, env);
  }

  lemma QuietAlike(w: World, v: World, op: Op, env: Env)
    requires SameElse(w, v) && v.state.objects.Keys == w.state.objects.Keys && Quiet(op)
    ensures SameElse(Step(w, op, env), Step(v, op, env))
    ensures Respond(v, op, env).1 == Respond(w, op, env).1
  {
    hide Step, Respond, SameElse;
    if op.OpCreateBucket? || op.OpPutBucketVersioning? || op.OpPutObjectLockConfiguration? {
      BucketAlike(w, v, op, env);
    } else if op.OpPutBucketConfig? || op.OpDeleteBucketConfig? {
      ConfigAlike(w, v, op, env);
    } else if op.OpPutRetention? {
      RetentionAlike(w, v, op, env);
    } else if op.OpPutLegalHold? {
      HoldAlike(w, v, op, env);
    } else if op.OpPutObjectAcl? || op.OpPutObjectTagging? || op.OpDeleteObjectTagging? {
      ObjectSettingAlike(w, v, op, env);
    } else {
      UploadAlike(w, v, op, env);
    }
  }

  lemma BucketAlike(w: World, v: World, op: Op, env: Env)
    requires SameElse(w, v) && v.state.objects.Keys == w.state.objects.Keys
    requires op.OpCreateBucket? || op.OpPutBucketVersioning? || op.OpPutObjectLockConfiguration?
    ensures SameElse(Step(w, op, env), Step(v, op, env)) && Respond(v, op, env).1 == Respond(w, op, env).1
  {
    if !op.OpCreateBucket? {
      SameChecks(w, v, op.bucket, "");
    }
    hide TrimSpace, RequireBucket, ValidBucketName;
  }

  lemma ConfigAlike(w: World, v: World, op: Op, env: Env)
    requires SameElse(w, v) && v.state.objects.Keys == w.state.objects.Keys
    requires op.OpPutBucketConfig? || op.OpDeleteBucketConfig?
    ensures SameElse(Step(w, op, env), Step(v, op, env)) && Respond(v, op, env).1 == Respond(w, op, env).1
  {
    SameChecks(w, v, op.bucket, "");
    hide TrimSpace, RequireBucket;
  }

  lemma RetentionAlike(w: World, v: World, op: Op, env: Env)
    requires SameElse(w, v) && v.state.objects.Keys == w.state.objects.Keys
    requires op.OpPutRetention?
    ensures SameElse(Step(w, op, env), Step(v, op, env)) && Respond(v, op, env).1 == Respond(w, op, env).1
  {
    SameChecks(w, v, op.bucket, op.key);
    hide TrimSpace, RequireObject, Reduces;
  }

  lemma HoldAlike(w: World, v: World, op: Op, env: Env)
    requires SameElse(w, v) && v.state.objects.Keys == w.state.objects.Keys
    requires op.OpPutLegalHold?
    ensures SameElse(Step(w, op, env), Step(v, op, env)) && Respond(v, op, env).1 == Respond(w, op, env).1
  {
    SameChecks(w, v, op.bucket, op.key);
    hide TrimSpace, RequireObject, Reduces;
  }

  lemma ObjectSettingAlike(w: World, v: World, op: Op, env: Env)
    requires SameElse(w, v) && v.state.objects.Keys == w.state.objects.Keys
    requires op.OpPutObjectAcl? || op.OpPutObjectTagging? || op.OpDeleteObjectTagging?
    ensures SameElse(Step(w, op, env), Step(v, op, env)) && Respond(v, op, env).1 == Respond(w, op, env).1
  {
    SameChecks(w, v, op.bucket, op.key);
    hide TrimSpace, RequireObject;
  }

  lemma UploadAlike(w: World, v: World, op: Op, env: Env)
    requires SameElse(w, v) && v.state.objects.Keys == w.state.objects.Keys
    requires op.OpCreateUpload? || op.OpUploadPart? || op.OpAbortUpload?
    ensures SameElse(Step(w, op, env), Step(v, op, env)) && Respond(v, op, env).1 == Respond(w, op, env).1
  {
    if op.OpCreateUpload? {
      SameChecks(w, v, op.bucket, op.key);
    } else {
      SameChecks(w, v, "", op.uploadId);
    }
    hide TrimSpace, CheckedId, FindUpload, UpsertPart, TypeOr;
  }

  // ---------- requests that store objects ----------

  // Payloads may be added, and those of nobody taken away.
  ghost predicate PayloadsKept(before: map<PayloadRef, Bytes>, after: map<PayloadRef, Bytes>, ref: PayloadRef) {
    ref in before ==> ref in after && after[ref] == before[ref]
  }

  lemma TidyStays(before: map<PayloadRef, Bytes>, after: map<PayloadRef, Bytes>, id: ObjectId, ref: PayloadRef, body: Bytes)
    requires Tidy(before, id, ref, body) && PayloadsKept(before, after, ref)
    ensures Tidy(after, id, ref, body)
  {
  }

  lemma KeptStays(w: World, v: World, w1: World, v1: World, id: ObjectId)
    requires id in w.state.objects && id in v.state.objects && Kept(w, v, id)
    requires id in w1.state.objects && w1.state.objects[id] == w.state.objects[id]
    requires id in v1.state.objects && v1.state.objects[id] == v.state.objects[id]
    requires w.state.objects[id].ref in w.payloads || w.state.objects[id].ref == NoRef
    requires PayloadsKept(w.payloads, w1.payloads, w.state.objects[id].ref)
    requires PayloadsKept(v.payloads, v1.payloads, v.state.objects[id].ref)
    ensures Kept(w1, v1, id)
  {
    TidyStays(v.payloads, v1.payloads, id, v.state.objects[id].ref, v.state.objects[id].body);
  }

  // The content-addressed store never gives a reference other bytes.
  lemma StoredUnchanged(payloads: map<PayloadRef, Bytes>, id: ObjectId, ref: PayloadRef, bytes: Bytes, hint: string, body: Bytes)
    requires Tidy(payloads, id, ref, bytes)
    ensures PayloadsKept(payloads, payloads[PayloadRefFor(hint, body) := body], ref)
    ensures Tidy(payloads[PayloadRefFor(hint, body) := body], id, ref, bytes)
  {
  }

  lemma StorePayloadLike(w: World, v: World, id: ObjectId, body: Bytes)
    requires Inv(w) && Like(w, v)
    ensures Like(StorePayload(w, id, body), StorePayload(v, id, body))
  {
    var w1, v1 := StorePayload(w, id, body), StorePayload(v, id, body);
    assert Holds(w, ObjectPayloadsClause);
    hide Inv, PayloadRefFor;
    forall x | x in w.state.objects ensures Kept(w1, v1, x) {
      assert Kept(w, v, x);
      var o, p := w.state.objects[x], v.state.objects[x];
      StoredUnchanged(w.payloads, x, o.ref, o.body, Hint(id), body);
      StoredUnchanged(v.payloads, x, p.ref, p.body, Hint(id), body);
      KeptStays(w, v, w1, v1, x);
    }
    forall i | 0 <= i < |v.state.history|
      ensures Tidy(v1.payloads, RecordIdOf(v.state.history[i]), v.state.history[i].ref, v.state.history[i].body)
    {
      var r := v.state.history[i];
      StoredUnchanged(v.payloads, RecordIdOf(r), r.ref, r.body, Hint(id), body);
    }
  }

  // the object can be stored in both worlds
  ghost predicate StorableInBoth(w: World, v: World, o: Object) {
    && Tidy(w.payloads, ObjectIdOf(o), o.ref, o.body) && Tidy(v.payloads, ObjectIdOf(o), o.ref, o.body)
    && (o.ref != NoRef ==> v.payloads[o.ref] == w.payloads[o.ref])
  }

  lemma StoreObjectLike(w: World, v: World, o: Object, now: nat)
    requires Like(w, v) && StorableInBoth(w, v, o)
    ensures Like(StoreObject(w, o, now), StoreObject(v, o, now))
  {
    var w1, v1 := StoreObject(w, o, now), StoreObject(v, o, now);
    StoreObjectShape(w, o, now);
    StoreObjectShape(v, o, now);
    SameSequence(w, v);
    OnlyObjectsAndHistory(w, o, now);
    OnlyObjectsAndHistory(v, o, now);
    hide StoreObject, RecordOf, NextSequence, Kept, Bares, Tidy;
    ObjectStored(w, v, w1, v1, o, Normalized(o, now));
    if o.bucket in w.state.versioning {
      OneMoreVersion(w, v, w1, v1, RecordOf(Normalized(o, now).(body := []), NextSequence(w.state.history)), ObjectIdOf(o));
    }
  }

  lemma ObjectStored(w: World, v: World, w1: World, v1: World, o: Object, stored: Object)
    requires ObjectsKept(w, v) && StorableInBoth(w, v, o)
    requires ObjectIdOf(stored) == ObjectIdOf(o) && stored.ref == o.ref && stored.body == o.body
    requires w1.payloads == w.payloads && w1.state.objects == w.state.objects[ObjectIdOf(o) := stored]
    requires v1.payloads == v.payloads && v1.state.objects == v.state.objects[ObjectIdOf(o) := stored]
    ensures ObjectsKept(w1, v1)
  {
    forall x | x in w1.state.objects ensures x in v1.state.objects && Kept(w1, v1, x) {
      if x != ObjectIdOf(o) {
        assert Kept(w, v, x);
      }
    }
    assert v1.state.objects.Keys == w1.state.objects.Keys;
  }

  lemma OnlyObjectsAndHistory(w: World, o: Object, now: nat)
    ensures var w1 := StoreObject(w, o, now);
      && w1 == w.(state := w.state.(objects := w1.state.objects, history := w1.state.history))
    ensures var r := RecordOf(Normalized(o, now).(body := []), NextSequence(w.state.history));
      r.body == [] && r.ref == o.ref && RecordIdOf(r) == ObjectIdOf(o)
    ensures var stored := Normalized(o, now);
      ObjectIdOf(stored) == ObjectIdOf(o) && stored.ref == o.ref && stored.body == o.body
  {
  }

  lemma OneMoreVersion(w: World, v: World, w1: World, v1: World, r: VersionRecord, id: ObjectId)
    requires VersionsKept(w, v)
    requires w1.state.history == w.state.history + [r] && v1.state.history == v.state.history + [r]
    requires v1.payloads == v.payloads
    requires r.body == [] && RecordIdOf(r) == id && exists body :: Tidy(v.payloads, id, r.ref, body)
    ensures VersionsKept(w1, v1)
  {
    assert Tidy(v.payloads, id, r.ref, []);
    hide Tidy;
    assert Bares(w1.state.history) == Bares(w.state.history) + [r];
    assert Bares(v1.state.history) == Bares(v.state.history) + [r];
    forall i | 0 <= i < |v1.state.history|
      ensures var r := v1.state.history[i];
        Tidy(v1.payloads, RecordIdOf(r), r.ref, r.body) && (r.ref == NoRef ==> r.body == [])
    {
      if i < |v.state.history| {
        assert v1.state.history[i] == v.state.history[i];
      }
    }
  }

  lemma FreshLike(w: World, v: World, id: ObjectId, body: Bytes, contentType: string,
                  metadata: map<string, string>, headers: map<string, string>, now: nat)
    requires Inv(w) && Like(w, v) && ProperId(id)
    ensures Like(StoreFresh(w, id, body, contentType, metadata, headers, now), StoreFresh(v, id, body, contentType, metadata, headers, now))
  {
    StorePayloadLike(w, v, id, body);
    HintTells(id, id);
    StoreObjectLike(StorePayload(w, id, body), StorePayload(v, id, body), FreshObject(id, body, contentType, metadata, headers), now);
  }

  // the same protection is set in both worlds
  lemma ProtectLike(w: World, v: World, s: State, t: State)
    requires Like(w, v)
    requires s == w.state.(retention := s.retention, holds := s.holds) && t == v.state.(retention := s.retention, holds := s.holds)
    ensures Like(w.(state := s), v.(state := t))
  {
    OnlyElseChanged(w, v, w.(state := s), v.(state := t));
  }

  lemma PutToLike(w: World, v: World, id: ObjectId, body: Bytes, contentType: string,
                  metadata: map<string, string>, headers: map<string, string>, env: Env)
    requires Inv(w) && Like(w, v) && ProperId(id)
    ensures Like(PutTo(w, id, body, contentType, metadata, headers, env), PutTo(v, id, body, contentType, metadata, headers, env))
  {
    FreshLike(w, v, id, body, contentType, metadata, headers, env.now);
    var w1 := StoreFresh(w, id, body, contentType, metadata, headers, env.now);
    var v1 := StoreFresh(v, id, body, contentType, metadata, headers, env.now);
    hide StoreFresh;
    ReprotectedShape(w1.state, id, env.until);
    ReprotectedShape(v1.state, id, env.until);
    ProtectLike(w1, v1, Reprotected(w1.state, id, env.until), Reprotected(v1.state, id, env.until));
  }

  lemma CopyToLike(w: World, v: World, id: ObjectId, from: ObjectId, body: Bytes, contentType: string,
                   metadata: map<string, string>, headers: map<string, string>, env: Env)
    requires Inv(w) && Like(w, v) && ProperId(id)
    ensures Like(CopyTo(w, id, from, body, contentType, metadata, headers, env), CopyTo(v, id, from, body, contentType, metadata, headers, env))
  {
    FreshLike(w, v, id, body, contentType, metadata, headers, env.now);
    var w1 := StoreFresh(w, id, body, contentType, metadata, headers, env.now);
    var v1 := StoreFresh(v, id, body, contentType, metadata, headers, env.now);
    hide StoreFresh;
    var s := ApplyDefaultRetention(CopyProtection(ClearProtection(w1.state, id), id, from), id, env.until);
    var t := ApplyDefaultRetention(CopyProtection(ClearProtection(v1.state, id), id, from), id, env.until);
    CopiedShape(w1.state, id, from, env.until);
    CopiedShape(v1.state, id, from, env.until);
    ProtectLike(w1, v1, s, t);
  }

  lemma CompleteToLike(w: World, v: World, u: string, env: Env)
    requires Like(w, v) && u in w.uploads
    ensures Like(CompleteTo(w, u, env), CompleteTo(v, u, env))
  {
    var o := Completed(w.uploads[u]);
    StoreObjectLike(w, v, o, env.now);
    var w1, v1 := StoreObject(w, o, env.now), StoreObject(v, o, env.now);
    hide StoreObject, Completed;
    var id := ObjectIdOf(o);
    ReprotectedShape(w1.state, id, env.until);
    ReprotectedShape(v1.state, id, env.until);
    ProtectLike(w1, v1, Reprotected(w1.state, id, env.until), Reprotected(v1.state, id, env.until));
    OnlyElseChanged(w1.(state := Reprotected(w1.state, id, env.until)), v1.(state := Reprotected(v1.state, id, env.until)),
                    CompleteTo(w, u, env), CompleteTo(v, u, env));
  }

  // ---------- requests that remove objects ----------

  // The payload of an object that goes is not the one of an object that stays,
  lemma OtherRef(payloads: map<PayloadRef, Bytes>, id: ObjectId, ref: PayloadRef, body: Bytes,
                 other: ObjectId, otherRef: PayloadRef, otherBody: Bytes)
    requires Tidy(payloads, id, ref, body) && Tidy(payloads, other, otherRef, otherBody)
    requires ProperId(id) && ProperId(other) && id != other && ref != NoRef
    ensures otherRef != ref
  {
    HintTells(id, other);
  }

  lemma RemoveLike(w: World, v: World, id: ObjectId, env: Env)
    requires Inv(w) && Like(w, v) && ProperId(id)
    ensures Like(RemoveObject(w, id, env).0, RemoveObject(v, id, env).0)
    ensures RemoveObject(v, id, env).1 == RemoveObject(w, id, env).1
  {
    SameBlocked(w, v, id, env.now);
    assert v.state.versioning == w.state.versioning;
    RemovalIs(w, id, env);
    RemovalIs(v, id, env);
    hide RemoveObject, Blocked, Inv, DropObject, RecordMarker, Like;
    if id.bucket in w.state.versioning {
      MarkerLike(w, v, id, env.now);
      DropLike(RecordMarkerIn(w, id, env.now), RecordMarkerIn(v, id, env.now), id);
    } else {
      PlainLike(w, v, id);
    }
  }

  lemma RemovalIs(w: World, id: ObjectId, env: Env)
    ensures RemoveObject(w, id, env) ==
      if id in w.state.objects && Blocked(w.state, id, env.now) then (w, Failed(AccessDenied))
      else if id.bucket in w.state.versioning then
        var marked := RecordMarkerIn(w, id, env.now);
        (marked.(state := DropObject(marked.state, id)), Persisted(env, Done))
      else (w.(state := DropObject(w.state, id), payloads := w.payloads - Dead(w, id)), Persisted(env, Done))
  {
    hide Blocked, DropObject, RecordMarker;
  }

  function RecordMarkerIn(w: World, id: ObjectId, now: nat): World {
    w.(state := RecordMarker(w.state, id, now))
  }

  lemma MarkerLike(w: World, v: World, id: ObjectId, now: nat)
    requires Like(w, v)
    ensures Like(RecordMarkerIn(w, id, now), RecordMarkerIn(v, id, now))
  {
    SameSequence(w, v);
    var w1, v1 := RecordMarkerIn(w, id, now), RecordMarkerIn(v, id, now);
    var r := w1.state.history[|w.state.history|];
    assert w1.state.history == w.state.history + [r] && v1.state.history == v.state.history + [r];
    assert Tidy(v.payloads, id, r.ref, []);
    OneMoreVersion(w, v, w1, v1, r, id);
    hide VersionsKept, NextSequence, RecordMarker;
    forall x | x in w1.state.objects ensures Kept(w1, v1, x) {
      assert Kept(w, v, x);
    }
  }

  lemma DropLike(w: World, v: World, id: ObjectId)
    requires Like(w, v)
    ensures Like(w.(state := DropObject(w.state, id)), v.(state := DropObject(v.state, id)))
  {
    var w1, v1 := w.(state := DropObject(w.state, id)), v.(state := DropObject(v.state, id));
    hide Bares;
    forall x | x in w1.state.objects ensures x in v1.state.objects && Kept(w1, v1, x) {
      assert x in w.state.objects && Kept(w, v, x);
    }
    assert v1.state.objects.Keys == w1.state.objects.Keys;
  }

  function Dead(w: World, id: ObjectId): set<PayloadRef> {
    if id in w.state.objects then {w.state.objects[id].ref} - {NoRef} else {}
  }

  lemma PlainLike(w: World, v: World, id: ObjectId)
    requires Inv(w) && Like(w, v) && ProperId(id) && id.bucket !in w.state.versioning
    ensures Like(w.(state := DropObject(w.state, id), payloads := w.payloads - Dead(w, id)),
                 v.(state := DropObject(v.state, id), payloads := v.payloads - Dead(v, id)))
  {
    DropLike(w, v, id);
    var w1, v1 := w.(state := DropObject(w.state, id)), v.(state := DropObject(v.state, id));
    var w2, v2 := w1.(payloads := w.payloads - Dead(w, id)), v1.(payloads := v.payloads - Dead(v, id));
    forall x | x in w2.state.objects ensures Kept(w2, v2, x) {
      assert Kept(w, v, x) && Kept(w1, v1, x);
      OthersPayload(w, v, id, x);
      KeptStays(w1, v1, w2, v2, x);
    }
    forall i | 0 <= i < |v.state.history| ensures
      Tidy(v2.payloads, RecordIdOf(v.state.history[i]), v.state.history[i].ref, v.state.history[i].body)
    {
      VersionPayload(w, v, id, i);
      TidyStays(v.payloads, v2.payloads, RecordIdOf(v.state.history[i]), v.state.history[i].ref, v.state.history[i].body);
    }
  }

  lemma OthersPayload(w: World, v: World, id: ObjectId, x: ObjectId)
    requires Inv(w) && Like(w, v) && ProperId(id) && x in w.state.objects && x != id
    ensures PayloadsKept(w.payloads, w.payloads - Dead(w, id), w.state.objects[x].ref)
    ensures PayloadsKept(v.payloads, v.payloads - Dead(v, id), v.state.objects[x].ref)
    ensures w.state.objects[x].ref in w.payloads || w.state.objects[x].ref == NoRef
  {
    KnownObject(w, x);
    assert Holds(w, ObjectPayloadsClause);
    assert Kept(w, v, x);
    if id in w.state.objects {
      assert Kept(w, v, id);
    }
    hide Inv, Like, ProperId;
    assert forall y :: y in v.state.objects <==> y in w.state.objects;
    DeadIsNotOther(w, id, x);
    DeadIsNotOther(v, id, x);
  }

  ghost predicate TidyIn(w: World, id: ObjectId) {
    id in w.state.objects ==> Tidy(w.payloads, id, w.state.objects[id].ref, w.state.objects[id].body)
  }

  lemma DeadIsNotOther(w: World, id: ObjectId, x: ObjectId)
    requires x in w.state.objects && x != id && ProperId(id) && ProperId(x)
    requires TidyIn(w, id) && TidyIn(w, x)
    ensures PayloadsKept(w.payloads, w.payloads - Dead(w, id), w.state.objects[x].ref)
  {
    if id in w.state.objects && w.state.objects[id].ref != NoRef {
      var o, p := w.state.objects[id], w.state.objects[x];
      OtherRef(w.payloads, id, o.ref, o.body, x, p.ref, p.body);
    }
  }

  // nor the one of a version: a bucket without a versioning setting has none.
  lemma VersionPayload(w: World, v: World, id: ObjectId, i: nat)
    requires Inv(w) && Like(w, v) && ProperId(id) && id.bucket !in w.state.versioning && i < |v.state.history|
    ensures PayloadsKept(v.payloads, v.payloads - Dead(v, id), v.state.history[i].ref)
  {
    var r := v.state.history[i];
    var j := Counterpart(w, v, i);
    assert RecordIdOf(w.state.history[j]) == RecordIdOf(r);
    assert Holds(w, HistoryClause);
    assert ProperId(RecordIdOf(r)) && r.bucket in w.state.versioning;
    hide Inv, ProperId;
    if id in w.state.objects {
      assert Kept(w, v, id);
      var p := v.state.objects[id];
      if p.ref != NoRef {
        OtherRef(v.payloads, id, p.ref, p.body, RecordIdOf(r), r.ref, r.body);
      }
    }
  }

  lemma {:induction false} RemoveEachLike(w: World, v: World, bucket: string, keys: seq<string>, quiet: bool, env: Env)
    requires Inv(w) && Like(w, v) && bucket in w.state.buckets
    ensures Like(RemoveEach(w, bucket, keys, quiet, env).0, RemoveEach(v, bucket, keys, quiet, env).0)
    ensures RemoveEach(v, bucket, keys, quiet, env).1 == RemoveEach(w, bucket, keys, quiet, env).1
    decreases |keys|
  {
    hide TrimSpace, RemoveObject, Like;
    if |keys| > 0 {
      var key := TrimSpace(keys[0]);
      if key == "" {
        RemoveEachLike(w, v, bucket, keys[1..], quiet, NextSave(env));
      } else {
        var id := ObjectId(bucket, key);
        assert ProperId(id) by {
          assert Holds(w, BucketsClause);
        }
        RemoveLike(w, v, id, env);
        RemoveInv(w, id, env);
        RemoveEachLike(RemoveObject(w, id, env).0, RemoveObject(v, id, env).0, bucket, keys[1..], quiet, NextSave(env));
      }
    }
  }

  lemma DeleteBucketLike(w: World, v: World, name: string, env: Env)
    requires Like(w, v)
    ensures Like(DeleteBucket(w, name, env).0, DeleteBucket(v, name, env).0)
    ensures DeleteBucket(v, name, env).1 == DeleteBucket(w, name, env).1
  {
    SameChecks(w, v, name, "");
    if RequireBucket(w, name).Ok? {
      var n := RequireBucket(w, name).value;
      SameEmptiness(w, v, n);
      DroppedBucketSame(w, v, n);
      hide DropBucket, BucketEmpty, RequireBucket, Like;
      var w1, v1 := DeleteBucket(w, name, env).0, DeleteBucket(v, name, env).0;
      assert v1.uploads == w1.uploads;
      if BucketEmpty(w.state, n) {
        OnlyElseChanged(w, v, w1, v1);
      }
    }
  }

  lemma DroppedBucketSame(w: World, v: World, n: string)
    requires Like(w, v)
    ensures var s, t := DropBucket(w.state, n), DropBucket(v.state, n);
      && t == s.(objects := t.objects, history := t.history)
      && s.objects == w.state.objects && s.history == w.state.history
      && t.objects == v.state.objects && t.history == v.state.history
    ensures v.uploads == w.uploads
  {
    hide ConfigsOutside, OutsideBucket, ObjectsKept, VersionsKept;
  }

  // ---------- whole requests ----------

  // the bytes of the source are the same
  lemma SameSource(w: World, v: World, from: ObjectId)
    requires Like(w, v)
    ensures from in v.state.objects <==> from in w.state.objects
    ensures from in w.state.objects ==>
      && var o, p := w.state.objects[from], v.state.objects[from];
      && SourceBytes(v, p) == SourceBytes(w, o)
      && p.contentType == o.contentType && p.metadata == o.metadata && p.headers == o.headers
  {
    if from in w.state.objects {
      assert Kept(w, v, from);
    }
  }

  lemma PutLike(w: World, v: World, bucket: string, key: string, body: Bytes, contentType: string,
                metadata: map<string, string>, headers: map<string, string>, env: Env)
    requires Inv(w) && Like(w, v)
    ensures Like(PutObject(w, bucket, key, body, contentType, metadata, headers, env).0,
                 PutObject(v, bucket, key, body, contentType, metadata, headers, env).0)
    ensures PutObject(v, bucket, key, body, contentType, metadata, headers, env).1
         == PutObject(w, bucket, key, body, contentType, metadata, headers, env).1
  {
    SameChecks(w, v, bucket, key);
    if CheckedId(w, bucket, key).Ok? {
      var id := CheckedId(w, bucket, key).value;
      KnownId(w, bucket, key);
      SameBlocked(w, v, id, env.now);
      hide Like, TrimSpace, CheckedId, Blocked, PutTo, FreshObject, Normalized;
      PutToLike(w, v, id, body, TypeOr(contentType), metadata, headers, env);
    }
  }

  lemma SameBlocked(w: World, v: World, id: ObjectId, now: nat)
    requires Like(w, v)
    ensures Blocked(v.state, id, now) == Blocked(w.state, id, now)
    ensures id in v.state.objects <==> id in w.state.objects
  {
    assert forall x :: x in v.state.objects <==> x in w.state.objects;
  }

  lemma CopyLike(w: World, v: World, bucket: string, key: string, sourceBucket: string, sourceKey: string,
                 directive: string, metadata: map<string, string>, env: Env)
    requires Inv(w) && Like(w, v)
    ensures Like(CopyObject(w, bucket, key, sourceBucket, sourceKey, directive, metadata, env).0,
                 CopyObject(v, bucket, key, sourceBucket, sourceKey, directive, metadata, env).0)
    ensures CopyObject(v, bucket, key, sourceBucket, sourceKey, directive, metadata, env).1
         == CopyObject(w, bucket, key, sourceBucket, sourceKey, directive, metadata, env).1
  {
    hide Like, TrimSpace, CheckedId, Blocked, CopyTo, FreshObject, Normalized, SourceBytes, ResolvedMetadata, ProperId, Inv;
    LikeChecks(w, v, bucket, key);
    LikeChecks(w, v, sourceBucket, sourceKey);
    var to, from := CheckedId(w, bucket, key), CheckedId(w, sourceBucket, sourceKey);
    if to.Ok? {
      KnownId(w, bucket, key);
      SameBlocked(w, v, to.value, env.now);
    }
    if from.Ok? {
      SameSource(w, v, from.value);
    }
    if to.Ok? && from.Ok? && from.value in w.state.objects && SourceBytes(w, w.state.objects[from.value]).Some? {
      var source := w.state.objects[from.value];
      CopyToLike(w, v, to.value, from.value, SourceBytes(w, source).value, source.contentType,
                 ResolvedMetadata(source.metadata, directive, metadata), source.headers, env);
    }
  }

  lemma CompleteLike(w: World, v: World, uploadId: string, env: Env)
    requires Inv(w) && Like(w, v)
    ensures Like(CompleteUpload(w, uploadId, env).0, CompleteUpload(v, uploadId, env).0)
    ensures CompleteUpload(v, uploadId, env).1 == CompleteUpload(w, uploadId, env).1
  {
    SameChecks(w, v, "", uploadId);
    if FindUpload(w, uploadId).Ok? {
      var u := FindUpload(w, uploadId).value;
      var upload := w.uploads[u];
      SameBlocked(w, v, ObjectId(upload.bucket, upload.key), env.now);
      assert v.uploads[u] == upload && v.state.buckets == w.state.buckets;
      hide Like, TrimSpace, FindUpload, Blocked, CompleteTo, Completed, Normalized;
      CompleteToLike(w, v, u, env);
    }
  }

  // Every request leads from alike worlds to alike worlds, with the same answer.
  lemma StepLike(w: World, v: World, op: Op, env: Env)
    requires Inv(w) && Like(w, v)
    ensures Like(Step(w, op, env), Step(v, op, env)) && Respond(v, op, env).1 == Respond(w, op, env).1
  {
    if Quiet(op) {
      QuietLike(w, v, op, env);
    } else {
      assert SameElse(w, v) && v.state.objects.Keys == w.state.objects.Keys;
      hide Inv, Like, SameElse, PutObject, CopyObject, CompleteUpload, DeleteBucket, RemoveObject, RemoveEach, TrimSpace;
      match op
      case OpPutObject(bucket, key, body, contentType, metadata, headers) =>
        PutLike(w, v, bucket, key, body, contentType, metadata, headers, env);
      case OpCopyObject(bucket, key, sourceBucket, sourceKey, directive, metadata) =>
        CopyLike(w, v, bucket, key, sourceBucket, sourceKey, directive, metadata, env);
      case OpCompleteUpload(uploadId) => CompleteLike(w, v, uploadId, env);
      case OpDeleteBucket(name) => DeleteBucketLike(w, v, name, env);
      case OpDeleteObject(bucket, key) =>
        SameChecks(w, v, bucket, key);
        if CheckedId(w, bucket, key).Ok? {
          KnownId(w, bucket, key);
          RemoveLike(w, v, CheckedId(w, bucket, key).value, env);
        }
      case OpDeleteObjects(bucket, keys, quiet) =>
        SameChecks(w, v, bucket, "");
        if RequireBucket(w, bucket).Ok? {
          RemoveEachLike(w, v, RequireBucket(w, bucket).value, keys, quiet, env);
        }
      case _ =>
    }
  }
}
