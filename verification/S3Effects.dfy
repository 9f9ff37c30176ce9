/** What a client reads back: the answers to GetObject after each kind of request, the protection that objects
    start with, and the version history, which only ever grows. */
module S3Effects {
  import opened Wrappers
  import opened Strings
  import opened S3Model
  import opened S3Invariants
  import opened S3ObjectLock
  import opened S3Multipart

  // ---------- refusals ----------

  // A request that is refused changes nothing, unless it is the repository that refuses the new state.
  lemma RefusalChangesNothing(w: World, op: Op, env: Env)
    requires !Mutated(Respond(w, op, env).1)
    ensures Step(w, op, env) == w
  {
    hide TrimSpace, CheckedId, RequireBucket, RequireObject, ValidBucketName, Blocked, BucketEmpty, DropBucket, PutTo, CopyTo,
      CompleteTo, SourceBytes, RemoveEach, FreshObject, Normalized, Completed, Reduces, UpsertPart, DropObject, RecordMarker;
  }

  // ---------- answers ----------

  // Every other object is answered as before.
  ghost predicate AnswersElsewhere(w: World, w': World, id: ObjectId) {
    && w'.state.buckets == w.state.buckets
    && forall other | other != id && ProperId(other) :: Read(w', other) == Read(w, other)
  }

  lemma StoredElsewhere(w: World, w': World, id: ObjectId)
    requires Inv(w) && w'.state.buckets == w.state.buckets
    requires w'.state.objects - {id} == w.state.objects - {id}
    requires forall other | other in w.state.objects && other != id :: Unchanged(w, w', other)
    ensures AnswersElsewhere(w, w', id)
  {
    forall other | other != id && ProperId(other) ensures Read(w', other) == Read(w, other) {
      assert other in w'.state.objects <==> other in w'.state.objects - {id};
      assert other in w.state.objects <==> other in w.state.objects - {id};
      if other in w.state.objects {
        assert Same(w, w', other, LiveObject) && Same(w, w', other, PayloadBytes);
        assert Holds(w, ObjectPayloadsClause);
      }
    }
  }

  // what a put or a copy leaves for its key
  function Written(id: ObjectId, body: Bytes, contentType: string, metadata: map<string, string>,
                   headers: map<string, string>, now: nat): Object
  {
    Object(id.bucket, id.key, body, Ref(TrimSpace(Hint(id)), OfBody(body)), |body|, contentType, BodyTag(OfBody(body)), now,
           metadata, headers)
  }

  lemma FreshReads(w: World, id: ObjectId, body: Bytes, contentType: string,
                   metadata: map<string, string>, headers: map<string, string>, now: nat, s: State)
    requires s.objects == StoreFresh(w, id, body, contentType, metadata, headers, now).state.objects
    ensures Read(StoreFresh(w, id, body, contentType, metadata, headers, now).(state := s), id)
      == Ok(Written(id, body, contentType, metadata, headers, now))
  {
    var o := FreshObject(id, body, contentType, metadata, headers);
    StoreObjectShape(StorePayload(w, id, body), o, now);
    assert s.objects[id] == Normalized(o, now);
  }

  // The object read after a put is the one that was sent, and every other one is answered as before.
  lemma PutThenGet(w: World, bucket: string, key: string, body: Bytes, contentType: string,
                   metadata: map<string, string>, headers: map<string, string>, env: Env)
    requires Inv(w)
    ensures var (w', r) := PutObject(w, bucket, key, body, contentType, metadata, headers, env);
      var id, given := ObjectId(TrimSpace(bucket), TrimSpace(key)), TrimSpace(contentType);
      Mutated(r) ==>
        && GetObject(w', bucket, key)
             == Ok(Written(id, body, if given != "" then given else "application/octet-stream", metadata, headers, env.now))
        && (env.saved ==> r == Stored(GetObject(w', bucket, key).value))
        && AnswersElsewhere(w, w', id)
  {
    hide TrimSpace, PutTo, Read, AnswersElsewhere, Inv, Hint;
    var r := PutObject(w, bucket, key, body, contentType, metadata, headers, env).1;
    if Mutated(r) {
      PutToThenGet(w, CheckedId(w, bucket, key).value, body, TypeOr(contentType), metadata, headers, env);
    }
  }

  lemma PutToThenGet(w: World, id: ObjectId, body: Bytes, contentType: string,
                     metadata: map<string, string>, headers: map<string, string>, env: Env)
    requires Inv(w)
    ensures var w' := PutTo(w, id, body, contentType, metadata, headers, env);
      && Read(w', id) == Ok(Written(id, body, contentType, metadata, headers, env.now))
      && AnswersElsewhere(w, w', id)
  {
    var w', w1 := PutTo(w, id, body, contentType, metadata, headers, env),
                  StoreFresh(w, id, body, contentType, metadata, headers, env.now);
    ReprotectedShape(w1.state, id, env.until);
    StoreObjectShape(StorePayload(w, id, body), FreshObject(id, body, contentType, metadata, headers), env.now);
    FreshReads(w, id, body, contentType, metadata, headers, env.now, w'.state);
    forall other | other in w.state.objects && other != id ensures Unchanged(w, w', other) {
      PutToElsewhere(w, id, body, contentType, metadata, headers, env, other);
    }
    StoredElsewhere(w, w', id);
  }

  // A copy reads as its source did, with the metadata that the directive asks for and a tag of its own bytes.
  lemma CopyThenGet(w: World, bucket: string, key: string, sourceBucket: string, sourceKey: string,
                    directive: string, metadata: map<string, string>, env: Env)
    requires Inv(w)
    ensures var (w', r) := CopyObject(w, bucket, key, sourceBucket, sourceKey, directive, metadata, env);
      var id := ObjectId(TrimSpace(bucket), TrimSpace(key));
      Mutated(r) ==>
        && GetObject(w, sourceBucket, sourceKey).Ok?
        && var source := GetObject(w, sourceBucket, sourceKey).value;
           var data := if ToUpper(TrimSpace(directive)) == "REPLACE" then metadata else source.metadata;
        && GetObject(w', bucket, key) == Ok(Written(id, source.body, source.contentType, data, source.headers, env.now))
        && (env.saved ==> r == Stored(GetObject(w', bucket, key).value))
        && AnswersElsewhere(w, w', id)
  {
    hide TrimSpace, ToUpper, CopyTo, Hydrated, Read, AnswersElsewhere, Inv;
    var r := CopyObject(w, bucket, key, sourceBucket, sourceKey, directive, metadata, env).1;
    if Mutated(r) {
      var id, from := CheckedId(w, bucket, key).value, CheckedId(w, sourceBucket, sourceKey).value;
      var source := w.state.objects[from];
      SourceReads(w, from);
      CopyToThenGet(w, id, from, SourceBytes(w, source).value, source.contentType,
                    ResolvedMetadata(source.metadata, directive, metadata), source.headers, env);
    }
  }

  lemma SourceReads(w: World, from: ObjectId)
    requires Inv(w) && from in w.state.objects && SourceBytes(w, w.state.objects[from]).Some?
    ensures Read(w, from) == Ok(w.state.objects[from].(body := SourceBytes(w, w.state.objects[from]).value))
  {
    assert Holds(w, ObjectPayloadsClause);
  }

  lemma CopyToThenGet(w: World, id: ObjectId, from: ObjectId, body: Bytes, contentType: string,
                      metadata: map<string, string>, headers: map<string, string>, env: Env)
    requires Inv(w)
    ensures var w' := CopyTo(w, id, from, body, contentType, metadata, headers, env);
      && Read(w', id) == Ok(Written(id, body, contentType, metadata, headers, env.now))
      && AnswersElsewhere(w, w', id)
  {
    var w', w1 := CopyTo(w, id, from, body, contentType, metadata, headers, env),
                  StoreFresh(w, id, body, contentType, metadata, headers, env.now);
    CopiedShape(w1.state, id, from, env.until);
    StoreObjectShape(StorePayload(w, id, body), FreshObject(id, body, contentType, metadata, headers), env.now);
    FreshReads(w, id, body, contentType, metadata, headers, env.now, w'.state);
    forall other | other in w.state.objects && other != id ensures Unchanged(w, w', other) {
      CopyToElsewhere(w, id, from, body, contentType, metadata, headers, env, other);
    }
    StoredElsewhere(w, w', id);
  }

  // A completed upload reads as the last bytes sent for each part, in the order of the numbers.
  lemma CompleteThenGet(w: World, uploadId: string, calls: seq<Part>, env: Env)
    requires Inv(w) && FindUpload(w, uploadId).Ok? && w.uploads[FindUpload(w, uploadId).value].parts == Uploaded(calls)
    ensures var (w', r) := CompleteUpload(w, uploadId, env);
      var u := FindUpload(w, uploadId).value;
      var upload, parts := w.uploads[u], PartsOf(LastWrites(calls));
      var id := ObjectId(upload.bucket, upload.key);
      Mutated(r) ==>
        && Read(w', id) == Ok(Object(id.bucket, id.key, Assembled(parts), NoRef, |Assembled(parts)|, upload.contentType,
                                     MultipartTag(OfDigests(PartDigests(parts)), |LastWrites(calls)|), env.now,
                                     upload.metadata, upload.headers))
        && (env.saved ==> r == Stored(Read(w', id).value))
        && w'.uploads == (if env.saved then w.uploads - {u} else w.uploads)
        && AnswersElsewhere(w, w', id)
  {
    hide TrimSpace, AnswersElsewhere, Inv, Read, Assembled, PartDigests, SortedParts;
    var r, u := CompleteUpload(w, uploadId, env).1, FindUpload(w, uploadId).value;
    if Mutated(r) {
      CompletedFromLastWrites(w.uploads[u], calls);
      CompleteToThenGet(w, u, env);
    }
  }

  lemma CompleteToThenGet(w: World, u: string, env: Env)
    requires Inv(w) && u in w.uploads
    ensures var w', o := CompleteTo(w, u, env), Completed(w.uploads[u]);
      && Read(w', ObjectIdOf(o)) == Ok(o.(lastModified := env.now))
      && AnswersElsewhere(w, w', ObjectIdOf(o))
  {
    var w', o := CompleteTo(w, u, env), Completed(w.uploads[u]);
    StoreObjectShape(w, o, env.now);
    assert w'.state.objects[ObjectIdOf(o)] == o.(lastModified := env.now);
    ReprotectedShape(StoreObject(w, o, env.now).state, ObjectIdOf(o), env.until);
    forall other | other in w.state.objects && other != ObjectIdOf(o) ensures Unchanged(w, w', other) {
      CompleteToElsewhere(w, u, env, other);
    }
    StoredElsewhere(w, w', ObjectIdOf(o));
  }

  // ---------- new protection ----------

  function DefaultOf(s: State, bucket: string, until: nat): Option<Retention> {
    if bucket !in s.locks || s.locks[bucket].default.None? then None
    else Some(Retention(s.locks[bucket].default.value.mode, until))
  }

  function At<V>(m: map<ObjectId, V>, id: ObjectId): Option<V> {
    if id in m then Some(m[id]) else None
  }

  function OrElse<V>(a: Option<V>, b: Option<V>): Option<V> {
    if a.Some? then a else b
  }

  // the object has exactly this protection, and every other one what it had
  ghost predicate Protected(s: State, t: State, id: ObjectId, retention: Option<Retention>, hold: Option<Hold>) {
    && At(t.retention, id) == retention && t.retention - {id} == s.retention - {id}
    && At(t.holds, id) == hold && t.holds - {id} == s.holds - {id}
  }

  // An object that is put or completed has the default retention of its bucket and no legal hold, whatever it had before.
  lemma NewObjectProtection(w: World, id: ObjectId, body: Bytes, contentType: string,
                            metadata: map<string, string>, headers: map<string, string>, u: string, env: Env)
    ensures Protected(w.state, PutTo(w, id, body, contentType, metadata, headers, env).state, id,
                      DefaultOf(w.state, id.bucket, env.until), None)
    ensures u in w.uploads ==>
      var upload := w.uploads[u];
      Protected(w.state, CompleteTo(w, u, env).state, ObjectId(upload.bucket, upload.key),
                DefaultOf(w.state, upload.bucket, env.until), None)
  {
    StoreObjectShape(StorePayload(w, id, body), FreshObject(id, body, contentType, metadata, headers), env.now);
    ReprotectedIs(StoreFresh(w, id, body, contentType, metadata, headers, env.now).state, id, env.until);
    if u in w.uploads {
      var o := Completed(w.uploads[u]);
      StoreObjectShape(w, o, env.now);
      ReprotectedIs(StoreObject(w, o, env.now).state, ObjectIdOf(o), env.until);
    }
  }

  lemma ReprotectedIs(s: State, id: ObjectId, until: nat)
    ensures Protected(s, Reprotected(s, id, until), id, DefaultOf(s, id.bucket, until), None)
  {
    ReprotectedShape(s, id, until);
    var t := Reprotected(s, id, until);
    assert At(t.retention, id) == DefaultOf(s, id.bucket, until) && At(t.holds, id) == None;
  }

  // A copy has the protection of its source; onto itself, or from an object without a retention, the bucket's default.
  lemma CopyProtects(w: World, id: ObjectId, from: ObjectId, body: Bytes, contentType: string,
                     metadata: map<string, string>, headers: map<string, string>, env: Env)
    ensures var s := w.state;
      Protected(s, CopyTo(w, id, from, body, contentType, metadata, headers, env).state, id,
                OrElse(if from == id then None else At(s.retention, from), DefaultOf(s, id.bucket, env.until)),
                if from == id then None else At(s.holds, from))
  {
    StoreObjectShape(StorePayload(w, id, body), FreshObject(id, body, contentType, metadata, headers), env.now);
    var s := StoreFresh(w, id, body, contentType, metadata, headers, env.now).state;
    CopiedIs(s, id, from, env.until);
  }

  lemma CopiedIs(s: State, id: ObjectId, from: ObjectId, until: nat)
    ensures Protected(s, ApplyDefaultRetention(CopyProtection(ClearProtection(s, id), id, from), id, until), id,
                      OrElse(if from == id then None else At(s.retention, from), DefaultOf(s, id.bucket, until)),
                      if from == id then None else At(s.holds, from))
  {
    CopiedShape(s, id, from, until);
    CarriedAt(s.retention, id, from);
    CarriedAt(s.holds, id, from);
    hide Carried;
    DefaultAt(CopyProtection(ClearProtection(s, id), id, from), id, until);
  }

  lemma CarriedAt<V>(m: map<ObjectId, V>, id: ObjectId, from: ObjectId)
    ensures At(Carried(m - {id}, id, from), id) == if from == id then None else At(m, from)
  {
  }

  lemma DefaultAt(s: State, id: ObjectId, until: nat)
    ensures var t := ApplyDefaultRetention(s, id, until);
      && At(t.retention, id) == OrElse(At(s.retention, id), DefaultOf(s, id.bucket, until))
      && t.holds == s.holds
  {
  }

  // ---------- deletion ----------

  // whether a removal of the key is refused, now and as long as nothing else happens to it
  predicate Stuck(s: State, id: ObjectId, now: nat) {
    id in s.objects && Blocked(s, id, now)
  }

  // A delete that is not refused leaves nothing to read, and in a bucket with versioning one marker more.
  lemma DeleteThenGet(w: World, bucket: string, key: string, env: Env)
    requires Inv(w)
    ensures var (w', r) := DeleteObject(w, bucket, key, env);
      var id := ObjectId(TrimSpace(bucket), TrimSpace(key));
      Mutated(r) ==>
        && GetObject(w', bucket, key) == Err(NoSuchKey)
        && AnswersElsewhere(w, w', id)
        && (id.bucket !in w.state.versioning ==> w'.state.history == w.state.history)
        && (id.bucket in w.state.versioning ==>
             |w'.state.history| == |w.state.history| + 1 && w.state.history <= w'.state.history
             && RecordIdOf(w'.state.history[|w.state.history|]) == id && w'.state.history[|w.state.history|].marker
             && w'.state.history[|w.state.history|].lastModified == env.now)
  {
    if Mutated(DeleteObject(w, bucket, key, env).1) {
      var id := CheckedId(w, bucket, key).value;
      KnownId(w, bucket, key);
      RemoveThenRead(w, id, env);
    }
  }

  lemma RemoveThenRead(w: World, id: ObjectId, env: Env)
    requires Inv(w) && ProperId(id) && !Stuck(w.state, id, env.now)
    ensures var w' := RemoveObject(w, id, env).0;
      && w'.state.objects == w.state.objects - {id}
      && AnswersElsewhere(w, w', id)
  {
    var w' := RemoveObject(w, id, env).0;
    RemoveInv(w, id, env);
    RemovedObjects(w, id, env);
    hide Inv, Unchanged, RemoveObject, Read, Stuck, ProperId;
    forall other | other in w.state.objects && other != id ensures Unchanged(w, w', other) {
      DropElsewhere(w, id, env, other);
    }
    StoredElsewhere(w, w', id);
  }

  lemma RemovedObjects(w: World, id: ObjectId, env: Env)
    requires !Stuck(w.state, id, env.now)
    ensures var s, t := w.state, RemoveObject(w, id, env).0.state;
      t.objects == s.objects - {id} && t.retention == s.retention - {id} && t.holds == s.holds - {id}
  {
    hide Blocked, RecordMarker, DropObject;
    if id.bucket in w.state.versioning {
      MarkerOnly(w.state, id, env.now);
    } else {
      DropOnly(w.state, id);
    }
  }

  lemma DropOnly(s: State, id: ObjectId)
    ensures var t := DropObject(s, id);
      t.objects == s.objects - {id} && t.retention == s.retention - {id} && t.holds == s.holds - {id}
  {
  }

  lemma MarkerOnly(s: State, id: ObjectId, now: nat)
    ensures var t := DropObject(RecordMarker(s, id, now), id);
      t.objects == s.objects - {id} && t.retention == s.retention - {id} && t.holds == s.holds - {id}
  {
  }

  // a key of a multiple delete that names something, trimmed, and whether the save of its removal is accepted
  datatype Attempt = Attempt(key: string, saved: bool)

  function Attempts(keys: seq<string>, env: Env): seq<Attempt>
    decreases |keys|
  {
    if |keys| == 0 then []
    else if TrimSpace(keys[0]) == "" then Attempts(keys[1..], NextSave(env))
    else [Attempt(TrimSpace(keys[0]), env.saved)] + Attempts(keys[1..], NextSave(env))
  }

  // the answer of the repository to the save of the i-th key; the last one stands for all that follow
  function SavedAt(env: Env, i: nat): bool {
    if i == 0 || env.later == [] then env.saved
    else if i <= |env.later| then env.later[i - 1] else env.later[|env.later| - 1]
  }

  // Each key of a multiple delete has a save of its own, in order.
  lemma {:induction false} AttemptsInOrder(keys: seq<string>, env: Env, i: nat)
    requires i < |keys| && forall k | 0 <= k < |keys| :: TrimSpace(keys[k]) != ""
    ensures |Attempts(keys, env)| == |keys|
    ensures Attempts(keys, env)[i] == Attempt(TrimSpace(keys[i]), SavedAt(env, i))
    decreases |keys|
  {
    hide TrimSpace;
    if |keys| > 1 {
      AttemptsInOrder(keys[1..], NextSave(env), if i == 0 then 0 else i - 1);
    }
  }

  predicate Names(attempts: seq<Attempt>, key: string) {
    exists i :: 0 <= i < |attempts| && attempts[i].key == key
  }

  function Where(attempts: seq<Attempt>, wanted: Attempt -> bool): seq<string> {
    if |attempts| == 0 then []
    else if wanted(attempts[0]) then [attempts[0].key] + Where(attempts[1..], wanted)
    else Where(attempts[1..], wanted)
  }

  // what is reported as refused: what is protected from the beginning, and what is removed but not saved
  predicate Refuses(w: World, bucket: string, now: nat, attempt: Attempt) {
    !attempt.saved || Stuck(w.state, ObjectId(bucket, attempt.key), now)
  }

  function Refused(w: World, bucket: string, now: nat): Attempt -> bool {
    attempt => Refuses(w, bucket, now, attempt)
  }

  function Allowed(w: World, bucket: string, now: nat): Attempt -> bool {
    attempt => !Refuses(w, bucket, now, attempt)
  }

  // A multiple delete reports every named key once, in order, as refused or (unless quiet) as deleted; which it is does
  // not depend on the other keys and their saves. It removes exactly the named objects that are not protected.
  lemma {:induction false} DeleteEach(w: World, bucket: string, keys: seq<string>, quiet: bool, env: Env)
    requires Inv(w) && bucket in w.state.buckets
    ensures var (w', r) := RemoveEach(w, bucket, keys, quiet, env);
      && r == Deleted(if quiet then [] else Where(Attempts(keys, env), Allowed(w, bucket, env.now)),
                      Where(Attempts(keys, env), Refused(w, bucket, env.now)))
      && (forall id :: Stuck(w'.state, id, env.now) <==> Stuck(w.state, id, env.now))
      && (forall id :: id in w'.state.objects <==>
            id in w.state.objects && !(id.bucket == bucket && Names(Attempts(keys, env), id.key) && !Stuck(w.state, id, env.now)))
    decreases |keys|
  {
    hide TrimSpace, Inv, RemoveObject, Stuck, Names;
    if |keys| > 0 {
      var key, more, next := TrimSpace(keys[0]), keys[1..], NextSave(env);
      if key == "" {
        DeleteEach(w, bucket, more, quiet, next);
      } else {
        var id := ObjectId(bucket, key);
        NamedIsProper(w, bucket, keys[0]);
        var w1 := RemoveObject(w, id, env).0;
        RemoveInv(w, id, env);
        OneRemoved(w, id, env);
        DeleteEach(w1, bucket, more, quiet, next);
        OneMoreNamed(Attempt(key, env.saved), Attempts(more, next));
        WhereAgrees(Attempts(more, next), Allowed(w1, bucket, env.now), Allowed(w, bucket, env.now));
        WhereAgrees(Attempts(more, next), Refused(w1, bucket, env.now), Refused(w, bucket, env.now));
      }
    } else {
      assert forall key :: !Names([], key) by {
        NothingNamed();
      }
    }
  }

  lemma NothingNamed()
    ensures forall key :: !Names([], key)
  {
  }

  lemma OneMoreNamed(attempt: Attempt, more: seq<Attempt>)
    ensures forall key :: Names([attempt] + more, key) <==> key == attempt.key || Names(more, key)
  {
    var all := [attempt] + more;
    forall key ensures Names(all, key) <==> key == attempt.key || Names(more, key) {
      assert all[0] == attempt && forall i | 0 <= i < |more| :: all[i + 1] == more[i];
      if Names(all, key) {
        var i :| 0 <= i < |all| && all[i].key == key;
        assert i > 0 ==> more[i - 1].key == key;
      }
    }
  }

  lemma NamedIsProper(w: World, bucket: string, key: string)
    requires Inv(w) && bucket in w.state.buckets && TrimSpace(key) != ""
    ensures ProperId(ObjectId(bucket, TrimSpace(key)))
  {
    assert Holds(w, BucketsClause);
  }

  lemma OneRemoved(w: World, id: ObjectId, env: Env)
    ensures var (w', r) := RemoveObject(w, id, env);
      && (r.Failed? <==> Refuses(w, id.bucket, env.now, Attempt(id.key, env.saved)))
      && (forall other :: Stuck(w'.state, other, env.now) <==> Stuck(w.state, other, env.now))
      && (forall other :: other in w'.state.objects <==>
            other in w.state.objects && (other != id || Stuck(w.state, id, env.now)))
  {
    if !Stuck(w.state, id, env.now) {
      RemovedObjects(w, id, env);
    }
    hide DropObject, RecordMarker;
  }

  // What a multiple delete leaves is read as before.
  lemma {:induction false} DeleteEachLeaves(w: World, bucket: string, keys: seq<string>, quiet: bool, env: Env, id: ObjectId)
    requires Inv(w) && bucket in w.state.buckets && id in RemoveEach(w, bucket, keys, quiet, env).0.state.objects
    ensures Read(RemoveEach(w, bucket, keys, quiet, env).0, id) == Read(w, id)
    decreases |keys|
  {
    hide TrimSpace, Inv, RemoveObject, Stuck, Read;
    if |keys| > 0 {
      var key, more := TrimSpace(keys[0]), keys[1..];
      if key == "" {
        DeleteEachLeaves(w, bucket, more, quiet, NextSave(env), id);
      } else {
        var w1 := RemoveObject(w, ObjectId(bucket, key), env).0;
        NamedIsProper(w, bucket, keys[0]);
        RemoveInv(w, ObjectId(bucket, key), env);
        DeleteEachLeaves(w1, bucket, more, quiet, NextSave(env), id);
        DeleteEach(w1, bucket, more, quiet, NextSave(env));
        OneLeaves(w, ObjectId(bucket, key), env, id);
      }
    }
  }

  lemma OneLeaves(w: World, id: ObjectId, env: Env, other: ObjectId)
    requires Inv(w) && ProperId(id) && other in RemoveObject(w, id, env).0.state.objects
    ensures Read(RemoveObject(w, id, env).0, other) == Read(w, other)
  {
    if !Stuck(w.state, id, env.now) {
      RemoveInv(w, id, env);
      KnownObject(RemoveObject(w, id, env).0, other);
      hide Inv, Read, RemoveObject;
      RemoveThenRead(w, id, env);
    }
  }

  lemma {:induction false} WhereAgrees(attempts: seq<Attempt>, wanted: Attempt -> bool, wanted': Attempt -> bool)
    requires forall a :: wanted(a) == wanted'(a)
    ensures Where(attempts, wanted) == Where(attempts, wanted')
  {
    if |attempts| > 0 {
      WhereAgrees(attempts[1..], wanted, wanted');
    }
  }

  // ---------- history ----------

  lemma {:induction false} RemoveEachHistory(w: World, bucket: string, keys: seq<string>, quiet: bool, env: Env)
    ensures w.state.history <= RemoveEach(w, bucket, keys, quiet, env).0.state.history
    decreases |keys|
  {
    hide TrimSpace, RemoveObject;
    if |keys| > 0 {
      var key := TrimSpace(keys[0]);
      if key == "" {
        RemoveEachHistory(w, bucket, keys[1..], quiet, NextSave(env));
      } else {
        RemoveHistory(w, ObjectId(bucket, key), env);
        RemoveEachHistory(RemoveObject(w, ObjectId(bucket, key), env).0, bucket, keys[1..], quiet, NextSave(env));
      }
    }
  }

  lemma RemoveHistory(w: World, id: ObjectId, env: Env)
    ensures w.state.history <= RemoveObject(w, id, env).0.state.history
  {
    hide Blocked, RecordMarker, DropObject;
    MarkerHistory(w.state, id, env.now);
  }

  lemma MarkerHistory(s: State, id: ObjectId, now: nat)
    ensures s.history <= DropObject(RecordMarker(s, id, now), id).history && DropObject(s, id).history == s.history
  {
  }

  lemma StoreHistory(w: World, u: string, id: ObjectId, from: ObjectId, body: Bytes, contentType: string,
                     metadata: map<string, string>, headers: map<string, string>, env: Env)
    ensures w.state.history <= PutTo(w, id, body, contentType, metadata, headers, env).state.history
    ensures w.state.history <= CopyTo(w, id, from, body, contentType, metadata, headers, env).state.history
    ensures u in w.uploads ==> w.state.history <= CompleteTo(w, u, env).state.history
  {
    var w1 := StorePayload(w, id, body);
    StoreObjectShape(w1, FreshObject(id, body, contentType, metadata, headers), env.now);
    var s := StoreFresh(w, id, body, contentType, metadata, headers, env.now).state;
    ReprotectedShape(s, id, env.until);
    CopiedShape(s, id, from, env.until);
    if u in w.uploads {
      var o := Completed(w.uploads[u]);
      StoreObjectShape(w, o, env.now);
      ReprotectedShape(StoreObject(w, o, env.now).state, ObjectIdOf(o), env.until);
    }
  }

  lemma StepHistory(w: World, op: Op, env: Env)
    ensures w.state.history <= Step(w, op, env).state.history
  {
    hide PutObject, CopyObject, CompleteUpload, RemoveEach, RemoveObject, TrimSpace, BucketEmpty;
    if TouchesNoObject(op) {
      hide Step;
      NoObjectTouched(w, op, env);
    } else if op.OpPutRetention? || op.OpPutLegalHold? || op.OpDeleteBucket? {
      SettingsHistory(w, op, env);
    } else {
      match op
      case OpPutObject(bucket, key, body, contentType, metadata, headers) =>
        PutHistory(w, bucket, key, body, contentType, metadata, headers, env);
      case OpCopyObject(bucket, key, sourceBucket, sourceKey, directive, metadata) =>
        CopyHistory(w, bucket, key, sourceBucket, sourceKey, directive, metadata, env);
      case OpCompleteUpload(uploadId) => CompleteHistory(w, uploadId, env);
      case OpDeleteObject(bucket, key) =>
        if CheckedId(w, bucket, key).Ok? {
          RemoveHistory(w, CheckedId(w, bucket, key).value, env);
        }
      case OpDeleteObjects(bucket, keys, quiet) =>
        if RequireBucket(w, bucket).Ok? {
          RemoveEachHistory(w, RequireBucket(w, bucket).value, keys, quiet, env);
        }
      case _ =>
    }
  }

  lemma SettingsHistory(w: World, op: Op, env: Env)
    requires op.OpPutRetention? || op.OpPutLegalHold? || op.OpDeleteBucket?
    ensures Step(w, op, env).state.history == w.state.history
  {
    hide PutRetention, PutLegalHold, DeleteBucket;
    match op
    case OpPutRetention(bucket, key, retention) => RetentionShape(w, bucket, key, retention, env);
    case OpPutLegalHold(bucket, key, hold) => HoldHistory(w, bucket, key, hold, env);
    case OpDeleteBucket(name) => DeleteBucketHistory(w, name, env);
    case _ =>
  }

  lemma HoldHistory(w: World, bucket: string, key: string, hold: Option<Hold>, env: Env)
    ensures PutLegalHold(w, bucket, key, hold, env).0.state.history == w.state.history
  {
    hide TrimSpace, RequireObject;
  }

  lemma DeleteBucketHistory(w: World, name: string, env: Env)
    ensures DeleteBucket(w, name, env).0.state.history == w.state.history
  {
    hide RequireBucket, BucketEmpty, DropBucket;
    if RequireBucket(w, name).Ok? {
      DroppedHistory(w.state, RequireBucket(w, name).value);
    }
  }

  lemma DroppedHistory(s: State, name: string)
    ensures DropBucket(s, name).history == s.history
  {
  }

  lemma PutHistory(w: World, bucket: string, key: string, body: Bytes, contentType: string,
                   metadata: map<string, string>, headers: map<string, string>, env: Env)
    ensures w.state.history <= PutObject(w, bucket, key, body, contentType, metadata, headers, env).0.state.history
  {
    hide TrimSpace, CheckedId, PutTo, FreshObject, Normalized, Blocked;
    if CheckedId(w, bucket, key).Ok? {
      var id := CheckedId(w, bucket, key).value;
      StoreHistory(w, "", id, id, body, TypeOr(contentType), metadata, headers, env);
    }
  }

  lemma CompleteHistory(w: World, uploadId: string, env: Env)
    ensures w.state.history <= CompleteUpload(w, uploadId, env).0.state.history
  {
    hide TrimSpace, CompleteTo, Completed, Normalized, Blocked;
    if FindUpload(w, uploadId).Ok? {
      StoreHistory(w, FindUpload(w, uploadId).value, BOOTSTRAP, BOOTSTRAP, [], "", map[], map[], env);
    }
  }

  lemma CopyHistory(w: World, bucket: string, key: string, sourceBucket: string, sourceKey: string,
                    directive: string, metadata: map<string, string>, env: Env)
    ensures w.state.history <= CopyObject(w, bucket, key, sourceBucket, sourceKey, directive, metadata, env).0.state.history
  {
    hide TrimSpace, CheckedId, CopyTo, SourceBytes, FreshObject, Normalized, Blocked;
    var to, from := CheckedId(w, bucket, key), CheckedId(w, sourceBucket, sourceKey);
    if to.Ok? && from.Ok? && from.value in w.state.objects && SourceBytes(w, w.state.objects[from.value]).Some? {
      var source := w.state.objects[from.value];
      StoreHistory(w, "", to.value, from.value, SourceBytes(w, source).value, source.contentType,
                   ResolvedMetadata(source.metadata, directive, metadata), source.headers, env);
    }
  }

  lemma {:induction false} HistoryGrows(w: World, requests: seq<Request>)
    ensures w.state.history <= Run(w, requests).state.history
    decreases |requests|
  {
    if |requests| > 0 {
      StepHistory(w, requests[0].op, requests[0].env);
      HistoryGrows(Step(w, requests[0].op, requests[0].env), requests[1..]);
    }
  }

  // Whatever the requests, a version stays in its place in the history, its bucket stays, and its bytes stay what they are.
  lemma VersionsOutlive(w: World, requests: seq<Request>, i: nat)
    requires Inv(w) && i < |w.state.history|
    ensures var w', r := Run(w, requests), w.state.history[i];
      && i < |w'.state.history| && w'.state.history[i] == r
      && r.bucket in w'.state.buckets
      && (r.ref != NoRef ==> r.ref in w.payloads && r.ref in w'.payloads && w'.payloads[r.ref] == w.payloads[r.ref])
  {
    HistoryGrows(w, requests);
    RunKeeps(w, requests);
    var w' := Run(w, requests);
    assert Holds(w, RecordPayloadsClause) && Holds(w', RecordPayloadsClause);
    assert Holds(w', HistoryClause) && Holds(w', SettingsClause);
    hide Run;
    assert w'.state.history[i] == w.state.history[i];
  }
}
