/** What each accepted request leaves behind, field by field: buckets and their settings, ACLs and tags, uploads, and
    the versions that are recorded; and which requests are accepted. */
module S3Settings {
  import opened Wrappers
  import opened Strings
  import opened S3Model
  import opened S3Invariants
  import opened S3ObjectLock
  import opened S3Multipart
  import opened S3Effects
  import opened S3Protection

  // a bucket that is named and there
  predicate Known(w: World, bucket: string) {
    TrimSpace(bucket) != "" && TrimSpace(bucket) in w.state.buckets
  }

  lemma BucketRequired(w: World, bucket: string)
    ensures RequireBucket(w, bucket).Ok? <==> Known(w, bucket)
    ensures Known(w, bucket) ==> RequireBucket(w, bucket) == Ok(TrimSpace(bucket))
    ensures RequireBucket(w, bucket).Err? ==> RequireBucket(w, bucket).error in {NameRequired, NoSuchBucket}
  {
    hide TrimSpace;
  }

  // ---------- buckets ----------

  // A bucket is created once: with the region of the first request, or the default one, and nothing else changes.
  lemma BucketCreated(w: World, name: string, region: string, env: Env)
    ensures var (w', r) := CreateBucket(w, name, region, env);
      var n, place := TrimSpace(name), TrimSpace(region);
      && (Mutated(r) <==> n != "" && ValidBucketName(n))
      && (Mutated(r) ==>
            && n in w'.state.buckets && w'.state.buckets - {n} == w.state.buckets - {n}
            && w' == w.(state := w.state.(buckets := w'.state.buckets))
            && (n in w.state.buckets ==> w' == w && r.Made? && r.bucket.(region := w.state.buckets[n].region) == w.state.buckets[n])
            && (n in w.state.buckets && w.state.buckets[n].region != "" ==> r.bucket == w.state.buckets[n])
            && (n !in w.state.buckets ==>
                  && w'.state.buckets[n].name == n && w'.state.buckets[n].createdAt == env.now
                  && (place != "" ==> w'.state.buckets[n].region == place)
                  && (place == "" ==> w'.state.buckets[n].region == "us-east-1")
                  && r == (if env.saved then Made(w'.state.buckets[n]) else Failed(PersistFailed))))
  {
    hide TrimSpace, ValidBucketName;
  }

  predicate Small(c: char) { 'a' <= c <= 'z' }
  predicate Usual(c: char) { Small(c) || '0' <= c <= '9' || c == '.' || c == '-' }

  // two characters in a row of which one is a dot and the other a dot or a hyphen
  predicate DotPair(n: string, i: int)
    requires 0 <= i < |n| - 1
  {
    n[i..i + 2] in ["..", ".-", "-."]
  }

  lemma DotPairIff(n: string, i: int)
    requires 0 <= i < |n| - 1
    ensures DotPair(n, i) <==> n[i] in ".-" && n[i + 1] in ".-" && !(n[i] == n[i + 1] == '-')
  {
    var pair := n[i..i + 2];
    assert pair == [n[i], n[i + 1]] && pair[0] == n[i] && pair[1] == n[i + 1];
  }

  // Names are refused for their length, for a character other than small letters, digits, dots and hyphens, for a dot or a
  // hyphen at an end, for a dot next to a dot or a hyphen, and for want of a letter.
  ghost predicate Improper(n: string) {
    || |n| < 3 || |n| > 63
    || (exists c :: c in n && !Usual(c))
    || n[0] in ".-" || n[|n| - 1] in ".-"
    || (exists i :: 0 <= i < |n| - 1 && DotPair(n, i))
    || (forall c | c in n :: !Small(c))
  }

  lemma NameRefusedIff(w: World, name: string, region: string, env: Env)
    ensures CreateBucket(w, name, region, env).1 == Failed(InvalidBucketName) <==> TrimSpace(name) != "" && Improper(TrimSpace(name))
  {
    hide TrimSpace;
    ImproperIff(TrimSpace(name));
    hide Improper, ValidBucketName;
  }

  lemma ImproperIff(n: string)
    ensures Improper(n) <==> !ValidBucketName(n)
  {
    hide DotPair;
    if 3 <= |n| {
      if i :| 0 <= i < |n| - 1 && DotPair(n, i) {
        DotPairIff(n, i);
      } else {
        forall i | 0 <= i < |n| - 1 && n[i] in ".-" && n[i + 1] in ".-" ensures n[i] == n[i + 1] == '-' {
          DotPairIff(n, i);
        }
      }
      assert (exists c :: c in n && !Usual(c)) <==> !(forall c | c in n :: 'a' <= c <= 'z' || '0' <= c <= '9' || c == '.' || c == '-');
      assert (forall c | c in n :: !Small(c)) <==> !(exists c | c in n :: 'a' <= c <= 'z');
    }
  }

  // A bucket goes exactly if it holds neither objects nor versions, with its settings and its pending uploads; those
  // of other buckets stay.
  lemma BucketDeletedIff(w: World, name: string, env: Env)
    ensures var (w', r) := DeleteBucket(w, name, env);
      var n, s := TrimSpace(name), w.state;
      && (Mutated(r) <==>
            && Known(w, name) && (forall id | id in s.objects :: id.bucket != n)
            && forall i | 0 <= i < |s.history| :: s.history[i].bucket != n)
      && (Mutated(r) ==> r == if env.saved then Done else Failed(PersistFailed))
      && (!Mutated(r) ==> w' == w)
  {
    BucketRequired(w, name);
    hide TrimSpace, DropBucket;
  }

  ghost predicate WithoutBucket(s: State, t: State, n: string) {
    && t.buckets == s.buckets - {n} && t.versioning == s.versioning - {n} && t.locks == s.locks - {n}
    && t.objects == s.objects && t.history == s.history
    && (forall id :: id in t.configs <==> id in s.configs && id.bucket != n)
    && (forall id | id in t.configs :: t.configs[id] == s.configs[id])
    && WithoutPlace(s.acls, t.acls, n) && WithoutPlace(s.taggings, t.taggings, n)
    && WithoutPlace(s.retention, t.retention, n) && WithoutPlace(s.holds, t.holds, n)
  }

  ghost predicate WithoutPlace<V>(m: map<ObjectId, V>, m': map<ObjectId, V>, n: string) {
    && (forall id :: id in m' <==> id in m && id.bucket != n)
    && (forall id | id in m' :: m'[id] == m[id])
  }

  lemma BucketDeleted(w: World, name: string, env: Env)
    requires Mutated(DeleteBucket(w, name, env).1)
    ensures var w', n := DeleteBucket(w, name, env).0, TrimSpace(name);
      && WithoutBucket(w.state, w'.state, n) && w'.payloads == w.payloads
      && (forall u :: u in w'.uploads <==> u in w.uploads && w.uploads[u].bucket != n)
      && (forall u | u in w'.uploads :: w'.uploads[u] == w.uploads[u])
  {
    hide TrimSpace, BucketEmpty, RequireBucket, DropBucket, WithoutBucket, Known;
    BucketRequired(w, name);
    BucketDropped(w.state, TrimSpace(name));
  }

  lemma BucketDropped(s: State, n: string)
    ensures WithoutBucket(s, DropBucket(s, n), n)
  {
  }

  // A versioning setting is stored exactly for the two texts that name one.
  lemma VersioningSetIff(w: World, bucket: string, status: string, env: Env)
    ensures var (w', r) := PutBucketVersioning(w, bucket, status, env);
      var b, before := TrimSpace(bucket), w.state.versioning;
      && (Mutated(r) <==> Known(w, bucket) && TrimSpace(status) in ["Enabled", "Suspended"])
      && (Mutated(r) ==>
            && b in w'.state.versioning && w'.state.versioning - {b} == before - {b}
            && (w'.state.versioning[b] == Enabled <==> TrimSpace(status) == "Enabled")
            && w' == w.(state := w.state.(versioning := w'.state.versioning))
            && r == (if env.saved then VersioningSet(b, w'.state.versioning[b]) else Failed(PersistFailed)))
      && (!Mutated(r) ==> w' == w)
  {
    BucketRequired(w, bucket);
    hide TrimSpace, RequireBucket;
  }

  // A configuration is kept as it was sent, apart from an empty ACL, until it is replaced or removed.
  lemma ConfigSetIff(w: World, kind: ConfigKind, bucket: string, body: Bytes, env: Env)
    ensures var (w', r) := PutBucketConfig(w, kind, bucket, body, env);
      var id, before := ConfigId(kind, TrimSpace(bucket)), w.state.configs;
      && (Mutated(r) <==> Known(w, bucket))
      && w' == w.(state := w.state.(configs := w'.state.configs)) && w'.state.configs - {id} == before - {id}
      && (w' != w ==> Known(w, bucket))
      && (Known(w, bucket) && (kind != ACL || body != []) ==>
            id in w'.state.configs && w'.state.configs[id] == body && r == (if env.saved then Done else Failed(PersistFailed)))
      && (Known(w, bucket) && kind == ACL && body == [] ==> w' == w && r == Done)
  {
    BucketRequired(w, bucket);
    hide TrimSpace, RequireBucket;
  }

  lemma ConfigRemovedIff(w: World, kind: ConfigKind, bucket: string, env: Env)
    ensures var (w', r) := DeleteBucketConfig(w, kind, bucket, env);
      var id, before := ConfigId(kind, TrimSpace(bucket)), w.state.configs;
      && (Mutated(r) <==> Known(w, bucket))
      && w' == w.(state := w.state.(configs := w'.state.configs)) && w'.state.configs - {id} == before - {id}
      && (Known(w, bucket) ==> id !in w'.state.configs && (r == Done <==> env.saved || id !in before))
      && (!Known(w, bucket) ==> w' == w)
  {
    BucketRequired(w, bucket);
    hide TrimSpace, RequireBucket;
  }

  // ---------- ACLs and tags of objects ----------

  lemma AclSetIff(w: World, bucket: string, key: string, body: Bytes, env: Env)
    requires Inv(w)
    ensures var (w', r) := PutObjectAcl(w, bucket, key, body, env);
      var id, before := Named(bucket, key), w.state.acls;
      && (Mutated(r) <==> id in w.state.objects)
      && w' == w.(state := w.state.(acls := w'.state.acls)) && w'.state.acls - {id} == before - {id}
      && (Mutated(r) ==> id in w'.state.acls && w'.state.acls[id] == body && (r == Done <==> env.saved))
      && (!Mutated(r) ==> w' == w)
  {
    ObjectRequired(w, bucket, key);
    hide TrimSpace, Inv, RequireObject;
  }

  lemma TaggingSetIff(w: World, bucket: string, key: string, body: Bytes, env: Env)
    requires Inv(w)
    ensures var (w', r) := PutObjectTagging(w, bucket, key, body, env);
      var id, before := Named(bucket, key), w.state.taggings;
      && (Mutated(r) <==> id in w.state.objects)
      && w' == w.(state := w.state.(taggings := w'.state.taggings)) && w'.state.taggings - {id} == before - {id}
      && (Mutated(r) ==> id in w'.state.taggings && w'.state.taggings[id] == body && (r == Done <==> env.saved))
      && (!Mutated(r) ==> w' == w)
  {
    ObjectRequired(w, bucket, key);
    hide TrimSpace, Inv, RequireObject;
  }

  lemma TaggingRemovedIff(w: World, bucket: string, key: string, env: Env)
    requires Inv(w)
    ensures var (w', r) := DeleteObjectTagging(w, bucket, key, env);
      var id, before := Named(bucket, key), w.state.taggings;
      && (Mutated(r) <==> id in w.state.objects)
      && w' == w.(state := w.state.(taggings := w'.state.taggings)) && w'.state.taggings - {id} == before - {id}
      && (Mutated(r) ==> id !in w'.state.taggings && (r == Done <==> env.saved || id !in before))
      && (!Mutated(r) ==> w' == w)
  {
    ObjectRequired(w, bucket, key);
    hide TrimSpace, Inv, RequireObject;
  }

  lemma ObjectRequired(w: World, bucket: string, key: string)
    requires Inv(w)
    ensures var id := Named(bucket, key);
      && (RequireObject(w, bucket, key).Ok? <==> id in w.state.objects)
      && (RequireObject(w, bucket, key).Ok? ==> RequireObject(w, bucket, key).value == id)
      && (RequireObject(w, bucket, key).Err? ==> RequireObject(w, bucket, key).error in {NameRequired, NoSuchBucket, KeyRequired, NoSuchKey})
  {
    RequiredIff(w, bucket, key);
    var id := Named(bucket, key);
    if id in w.state.objects {
      KnownNames(w, id);
    }
    hide *;
  }

  // ---------- uploads ----------

  // An upload begins with the names and headers of the request and without parts.
  lemma UploadBegunIff(w: World, uploadId: string, bucket: string, key: string, contentType: string,
                       metadata: map<string, string>, headers: map<string, string>)
    ensures var (w', r) := CreateUpload(w, uploadId, bucket, key, contentType, metadata, headers);
      var id, given := Named(bucket, key), TrimSpace(contentType);
      && (Mutated(r) <==> id.bucket != "" && id.key != "" && id.bucket in w.state.buckets)
      && (Mutated(r) ==>
            && uploadId in w'.uploads && w'.uploads - {uploadId} == w.uploads - {uploadId}
            && w' == w.(uploads := w'.uploads) && r == Begun(uploadId, w'.uploads[uploadId])
            && w'.uploads[uploadId] == Upload(id.bucket, id.key, if given != "" then given else "application/octet-stream",
                                              metadata, headers, []))
      && (!Mutated(r) ==> w' == w)
  {
    hide TrimSpace;
  }

  // An upload that is aborted is gone, with its parts, and nothing else.
  lemma UploadAbortedIff(w: World, uploadId: string)
    ensures var (w', r) := AbortUpload(w, uploadId);
      var u := TrimSpace(uploadId);
      && (r == Done <==> u != "" && u in w.uploads)
      && w' == w.(uploads := if r == Done then w.uploads - {u} else w.uploads)
  {
    hide TrimSpace;
  }

  // A part is taken exactly if its upload is pending and its number is positive.
  lemma PartReceivedIff(w: World, uploadId: string, number: int, body: Bytes)
    ensures var (w', r) := UploadPart(w, uploadId, number, body);
      var u := TrimSpace(uploadId);
      && (Mutated(r) <==> u != "" && u in w.uploads && number >= 1)
      && (Mutated(r) ==> r == Received(number, BodyTag(OfBody(body)), |body|) && w' == w.(uploads := w'.uploads)
                         && w'.uploads - {u} == w.uploads - {u})
      && (!Mutated(r) ==> w' == w)
  {
    hide TrimSpace, UpsertPart;
  }

  // ---------- which requests on objects are accepted ----------

  lemma NamesChecked(w: World, bucket: string, key: string)
    ensures var id, c := Named(bucket, key), CheckedId(w, bucket, key);
      && (c.Ok? <==> id.bucket != "" && id.key != "" && id.bucket in w.state.buckets)
      && (c.Ok? ==> c.value == id)
      && (c == Err(NameRequired) <==> id.bucket == "")
      && (c == Err(KeyRequired) <==> id.bucket != "" && id.key == "")
      && (c == Err(NoSuchBucket) <==> id.bucket != "" && id.key != "" && id.bucket !in w.state.buckets)
  {
    hide TrimSpace;
  }

  // A put or a delete goes ahead unless a name is blank, there is no such bucket or the object is guarded.
  ghost predicate AnswersFor(w: World, id: ObjectId, now: nat, r: Outcome) {
    && (r == Failed(NameRequired) <==> id.bucket == "")
    && (r == Failed(KeyRequired) <==> id.bucket != "" && id.key == "")
    && (r == Failed(NoSuchBucket) <==> id.bucket != "" && id.key != "" && id.bucket !in w.state.buckets)
    && (r == Failed(AccessDenied) <==> id in w.state.objects && Guarded(w.state, id, now))
    && (Mutated(r) <==>
          id.bucket != "" && id.key != "" && id.bucket in w.state.buckets && !(id in w.state.objects && Guarded(w.state, id, now)))
  }

  lemma PutAnswers(w: World, bucket: string, key: string, body: Bytes, contentType: string,
                   metadata: map<string, string>, headers: map<string, string>, env: Env)
    requires Inv(w)
    ensures AnswersFor(w, Named(bucket, key), env.now, PutObject(w, bucket, key, body, contentType, metadata, headers, env).1)
  {
    hide Inv, TrimSpace, Named, CheckedId, Blocked, Guarded, PutTo, FreshObject, Normalized;
    NamesChecked(w, bucket, key);
    var id := Named(bucket, key);
    GuardedIsBlocked(w.state, id, env.now);
    if id in w.state.objects {
      KnownNames(w, id);
    }
  }

  lemma DeleteAnswers(w: World, bucket: string, key: string, env: Env)
    requires Inv(w)
    ensures AnswersFor(w, Named(bucket, key), env.now, DeleteObject(w, bucket, key, env).1)
  {
    hide Inv, TrimSpace, Named, CheckedId, Blocked, Guarded, DropObject, RecordMarker;
    NamesChecked(w, bucket, key);
    var id := Named(bucket, key);
    GuardedIsBlocked(w.state, id, env.now);
    if id in w.state.objects {
      KnownNames(w, id);
    }
  }

  // An upload can be completed once it has parts, unless its object is guarded.
  lemma CompleteAcceptedIff(w: World, uploadId: string, env: Env)
    requires Inv(w)
    ensures var r, u := CompleteUpload(w, uploadId, env).1, TrimSpace(uploadId);
      && (r == Failed(UploadIdRequired) <==> u == "")
      && (r == Failed(NoSuchUpload) <==> u != "" && u !in w.uploads)
      && (u != "" && u in w.uploads ==>
            var id := ObjectId(w.uploads[u].bucket, w.uploads[u].key);
            && (r == Failed(NoParts) <==> w.uploads[u].parts == [])
            && (r == Failed(AccessDenied) <==> w.uploads[u].parts != [] && id in w.state.objects && Guarded(w.state, id, env.now))
            && (Mutated(r) <==> w.uploads[u].parts != [] && !(id in w.state.objects && Guarded(w.state, id, env.now))))
  {
    assert Holds(w, UploadsClause);
    hide Inv, TrimSpace, CompleteTo, Completed, Normalized, ProperId;
  }

  // A copy also needs a source, and cannot be made of an object that was completed from parts without bytes.
  lemma CopyAcceptedIff(w: World, bucket: string, key: string, sourceBucket: string, sourceKey: string,
                        directive: string, metadata: map<string, string>, env: Env)
    requires Inv(w)
    ensures var r := CopyObject(w, bucket, key, sourceBucket, sourceKey, directive, metadata, env).1;
      var id, from := Named(bucket, key), Named(sourceBucket, sourceKey);
      var open := && id.bucket != "" && id.key != "" && id.bucket in w.state.buckets && from.bucket != "" && from.key != ""
                  && !(id in w.state.objects && Guarded(w.state, id, env.now));
      && (r == Failed(NoSuchKey) <==> open && from.bucket in w.state.buckets && from !in w.state.objects)
      && (r == Failed(PayloadUnavailable) <==>
            open && from in w.state.objects && w.state.objects[from].ref == NoRef && w.state.objects[from].body == [])
      && (r == Failed(AccessDenied) <==>
            from.bucket != "" && from.key != "" && id in w.state.objects && Guarded(w.state, id, env.now))
      && (Mutated(r) <==>
            open && from in w.state.objects && !(w.state.objects[from].ref == NoRef && w.state.objects[from].body == []))
  {
    hide Inv, TrimSpace, CheckedId, Blocked, Guarded, CopyTo, SourceBytes, FreshObject, Normalized, ResolvedMetadata;
    NamesChecked(w, bucket, key);
    NamesChecked(w, sourceBucket, sourceKey);
    var id, from := Named(bucket, key), Named(sourceBucket, sourceKey);
    GuardedIsBlocked(w.state, id, env.now);
    if id in w.state.objects {
      KnownNames(w, id);
    }
    if from in w.state.objects {
      KnownNames(w, from);
      SourceThere(w, from);
    }
  }

  lemma SourceThere(w: World, from: ObjectId)
    requires Inv(w) && from in w.state.objects
    ensures var o := w.state.objects[from];
      SourceBytes(w, o).None? <==> o.ref == NoRef && o.body == []
  {
    assert Holds(w, ObjectPayloadsClause);
    hide Inv;
  }

  // Every live object can be read, and with all of its bytes; nothing else can.
  lemma GetAnswers(w: World, bucket: string, key: string)
    requires Inv(w)
    ensures var r, id := GetObject(w, bucket, key), Named(bucket, key);
      && (r == Err(NameRequired) <==> id.bucket == "")
      && (r == Err(KeyRequired) <==> id.bucket != "" && id.key == "")
      && (r == Err(NoSuchBucket) <==> id.bucket != "" && id.key != "" && id.bucket !in w.state.buckets)
      && (r.Ok? <==> id in w.state.objects)
      && (r.Err? ==> r.error in {NameRequired, KeyRequired, NoSuchBucket, NoSuchKey})
      && (r.Ok? ==> r.value.(body := []) == w.state.objects[id].(body := []) && r.value.size == |r.value.body|)
  {
    hide Inv, TrimSpace, Named, CheckedId, Hydrated;
    NamesChecked(w, bucket, key);
    var id := Named(bucket, key);
    if id in w.state.objects {
      KnownNames(w, id);
      ObjectReads(w, id);
    }
  }

  lemma ObjectReads(w: World, id: ObjectId)
    requires Inv(w) && id in w.state.objects
    ensures var o, h := w.state.objects[id], Hydrated(w, w.state.objects[id]);
      h.Some? && h.value.(body := []) == o.(body := []) && h.value.size == |h.value.body|
  {
    assert Holds(w, ObjectPayloadsClause);
    hide Inv;
  }

  // The bytes of an object go with it where no version may need them, and stay in a bucket with a versioning setting; the
  // bytes of every other object and version stay.
  lemma DeletePayloads(w: World, bucket: string, key: string, env: Env)
    requires Mutated(DeleteObject(w, bucket, key, env).1)
    ensures var w', id := DeleteObject(w, bucket, key, env).0, Named(bucket, key);
      && (id.bucket in w.state.versioning || id !in w.state.objects ==> w'.payloads == w.payloads)
      && (id.bucket !in w.state.versioning && id in w.state.objects && w.state.objects[id].ref != NoRef ==>
            && w.state.objects[id].ref !in w'.payloads
            && forall ref | ref in w.payloads && ref != w.state.objects[id].ref :: ref in w'.payloads && w'.payloads[ref] == w.payloads[ref])
      && forall ref | ref in w'.payloads :: ref in w.payloads
  {
    NamesChecked(w, bucket, key);
    hide TrimSpace, CheckedId, Blocked, RecordMarker, DropObject;
  }

  // What the caller gives of size, tag and date is kept, and what is missing is filled in from the bytes and the clock.
  lemma UpsertFills(s: State, o: Object, now: nat)
    ensures var id, t := ObjectIdOf(o), Upsert(s, o, now);
      && id in t.objects && t == s.(objects := t.objects) && t.objects - {id} == s.objects - {id}
      && var p := t.objects[id];
      && p == o.(size := p.size, etag := p.etag, lastModified := p.lastModified)
      && (o.size != 0 ==> p.size == o.size) && (o.size == 0 ==> p.size == |o.body|)
      && (o.etag != NoTag ==> p.etag == o.etag) && (o.etag == NoTag ==> p.etag == BodyTag(OfBody(o.body)))
      && (o.lastModified != 0 ==> p.lastModified == o.lastModified) && (o.lastModified == 0 ==> p.lastModified == now)
  {
  }

  // ---------- recorded versions ----------

  // The write made one version more, under the number after the largest one, that tells about the object as it is now; in
  // a bucket without a versioning setting it made none.
  ghost predicate Recorded(s: State, t: State, id: ObjectId, now: nat) {
    && id in t.objects
    && (id.bucket !in s.versioning ==> t.history == s.history)
    && (id.bucket in s.versioning ==>
          && |t.history| == |s.history| + 1 && t.history[..|s.history|] == s.history
          && var r, o := t.history[|s.history|], t.objects[id];
          && RecordIdOf(r) == id && !r.marker && r.body == [] && r.ref == o.ref && r.size == o.size && r.etag == o.etag
          && r.contentType == o.contentType && r.metadata == o.metadata && r.headers == o.headers && r.lastModified == now
          && (forall i | 0 <= i < |s.history| :: s.history[i].sequence < r.sequence)
          && (if s.history == [] then r.sequence == 1 else exists x :: x in s.history && x.sequence + 1 == r.sequence))
  }

  lemma StoredIsRecorded(w: World, o: Object, now: nat, t: State)
    requires t.objects == StoreObject(w, o, now).state.objects && t.history == StoreObject(w, o, now).state.history
    requires o.lastModified == 0
    ensures Recorded(w.state, t, ObjectIdOf(o), now)
  {
    StoreObjectShape(w, o, now);
    MaxIsUpperBound(w.state.history);
    MaxIsReached(w.state.history);
    assert w.state.history == [] ==> MaxSequence(w.state.history) == 0;
    assert NextSequence(w.state.history) == MaxSequence(w.state.history) + 1;
    hide StoreObject, NextSequence;
  }

  lemma PutRecords(w: World, id: ObjectId, body: Bytes, contentType: string,
                   metadata: map<string, string>, headers: map<string, string>, env: Env)
    ensures Recorded(w.state, PutTo(w, id, body, contentType, metadata, headers, env).state, id, env.now)
  {
    hide Recorded, StoreObject, Reprotected;
    var o := FreshObject(id, body, contentType, metadata, headers);
    var w1 := StoreObject(StorePayload(w, id, body), o, env.now);
    ReprotectedShape(w1.state, id, env.until);
    StoredIsRecorded(StorePayload(w, id, body), o, env.now, PutTo(w, id, body, contentType, metadata, headers, env).state);
  }

  lemma CopyRecords(w: World, id: ObjectId, from: ObjectId, body: Bytes, contentType: string,
                    metadata: map<string, string>, headers: map<string, string>, env: Env)
    ensures Recorded(w.state, CopyTo(w, id, from, body, contentType, metadata, headers, env).state, id, env.now)
  {
    hide Recorded, StoreObject, ApplyDefaultRetention, CopyProtection, ClearProtection;
    var o := FreshObject(id, body, contentType, metadata, headers);
    var w1 := StoreObject(StorePayload(w, id, body), o, env.now);
    CopiedShape(w1.state, id, from, env.until);
    StoredIsRecorded(StorePayload(w, id, body), o, env.now, CopyTo(w, id, from, body, contentType, metadata, headers, env).state);
  }

  lemma CompleteRecords(w: World, u: string, env: Env)
    requires u in w.uploads
    ensures Recorded(w.state, CompleteTo(w, u, env).state, ObjectId(w.uploads[u].bucket, w.uploads[u].key), env.now)
  {
    hide Recorded, StoreObject, Reprotected;
    var o := Completed(w.uploads[u]);
    ReprotectedShape(StoreObject(w, o, env.now).state, ObjectIdOf(o), env.until);
    StoredIsRecorded(w, o, env.now, CompleteTo(w, u, env).state);
  }

  // Every accepted write is recorded.
  lemma WritesRecorded(w: World, op: Op, env: Env, id: ObjectId)
    requires Inv(w) && Replaces(w, op, id) && !op.OpDeleteObject? && Mutated(Respond(w, op, env).1)
    ensures Recorded(w.state, Step(w, op, env).state, id, env.now)
  {
    hide TrimSpace, Named, PutObject, CopyObject, CompleteUpload, PutTo, CopyTo, CompleteTo, Recorded, Inv, TypeOr;
    match op
    case OpPutObject(bucket, key, body, contentType, metadata, headers) =>
      PutIs(w, bucket, key, body, contentType, metadata, headers, env);
      PutRecords(w, id, body, TypeOr(contentType), metadata, headers, env);
    case OpCopyObject(bucket, key, sourceBucket, sourceKey, directive, metadata) =>
      var from, stored, data := CopyIs(w, bucket, key, sourceBucket, sourceKey, directive, metadata, env);
      CopyRecords(w, id, from, stored, w.state.objects[from].contentType, data, w.state.objects[from].headers, env);
    case OpCompleteUpload(uploadId) =>
      CompleteIs(w, uploadId, env);
      CompleteRecords(w, TrimSpace(uploadId), env);
    case _ =>
  }

  lemma PutIs(w: World, bucket: string, key: string, body: Bytes, contentType: string,
              metadata: map<string, string>, headers: map<string, string>, env: Env)
    requires Mutated(PutObject(w, bucket, key, body, contentType, metadata, headers, env).1)
    ensures PutObject(w, bucket, key, body, contentType, metadata, headers, env).0
      == PutTo(w, Named(bucket, key), body, TypeOr(contentType), metadata, headers, env)
  {
    NamesChecked(w, bucket, key);
    hide TrimSpace, CheckedId, Blocked, PutTo, FreshObject, Normalized;
  }

  lemma CopyIs(w: World, bucket: string, key: string, sourceBucket: string, sourceKey: string,
               directive: string, metadata: map<string, string>, env: Env)
    returns (from: ObjectId, body: Bytes, data: map<string, string>)
    requires Mutated(CopyObject(w, bucket, key, sourceBucket, sourceKey, directive, metadata, env).1)
    ensures from in w.state.objects
    ensures CopyObject(w, bucket, key, sourceBucket, sourceKey, directive, metadata, env).0
      == CopyTo(w, Named(bucket, key), from, body, w.state.objects[from].contentType, data, w.state.objects[from].headers, env)
  {
    NamesChecked(w, bucket, key);
    NamesChecked(w, sourceBucket, sourceKey);
    hide TrimSpace, CheckedId, Blocked, CopyTo, SourceBytes, FreshObject, Normalized, ResolvedMetadata;
    from := Named(sourceBucket, sourceKey);
    body := SourceBytes(w, w.state.objects[from]).value;
    data := ResolvedMetadata(w.state.objects[from].metadata, directive, metadata);
  }

  lemma CompleteIs(w: World, uploadId: string, env: Env)
    requires Mutated(CompleteUpload(w, uploadId, env).1)
    ensures TrimSpace(uploadId) in w.uploads && CompleteUpload(w, uploadId, env).0 == CompleteTo(w, TrimSpace(uploadId), env)
  {
    hide TrimSpace, Blocked, CompleteTo, Completed, Normalized;
  }
}
