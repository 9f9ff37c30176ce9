/** The S3 service object: requests change the state and the payload store step by step, and ask the repository
    afterwards. */
module S3Service {
  import opened Wrappers
  import opened Strings
  import opened S3Model
  import S3Listing
  import S3Pages
  import S3Domain
  import S3Versions
  import opened S3Invariants
  import opened KeyOrder
  import opened KeyedSeq
  import StableSort

  class MemoryPayloadStore {
    var payload: map<PayloadRef, Bytes>

    constructor ()
      ensures payload == map[]
    {
      payload := map[];
    }

    method StorePayload(hint: string, body: Bytes) returns (ref: PayloadRef, size: nat, etag: ETag)
      modifies this
      ensures ref == PayloadRefFor(hint, body) && size == |body| && etag == BodyTag(OfBody(body))
      ensures payload == old(payload)[ref := body]
    {
      ref, size, etag := PayloadRefFor(hint, body), |body|, BodyTag(OfBody(body));
      payload := payload[ref := body];
    }

    method OpenPayload(ref: PayloadRef) returns (body: Option<Bytes>)
      ensures body == if ref in payload then Some(payload[ref]) else None
    {
      body := if ref in payload then Some(payload[ref]) else None;
    }

    method DeletePayload(ref: PayloadRef)
      modifies this
      ensures payload == old(payload) - {ref}
    {
      payload := payload - {ref};
    }
  }

  class Service {
    const state: S3Domain.State
    const payloads: MemoryPayloadStore
    var uploads: map<string, Upload>

    ghost predicate Valid()
      reads this, state
    {
      state.Valid()
    }

    ghost function View(): World
      reads this, state, payloads
    {
      World(state.value, payloads.payload, uploads)
    }

    constructor (state: S3Domain.State, payloads: MemoryPayloadStore)
      requires state.Valid()
      ensures Valid() && View() == World(state.value, payloads.payload, map[])
      ensures this.state == state && this.payloads == payloads
    {
      this.state := state;
      this.payloads := payloads;
      uploads := map[];
    }

    // ---------- checks ----------

    method RequireBucket(bucket: string) returns (r: Result<string, Error>)
      requires Valid()
      ensures r == S3Model.RequireBucket(View(), bucket)
    {
      var b := TrimSpace(bucket);
      if b == "" {
        return Err(NameRequired);
      }
      var found := state.HasBucket(b);
      r := if found then Ok(b) else Err(NoSuchBucket);
    }

    method CheckId(bucket: string, key: string) returns (r: Result<ObjectId, Error>)
      requires Valid()
      ensures r == CheckedId(View(), bucket, key)
    {
      var b, k := TrimSpace(bucket), TrimSpace(key);
      if b == "" {
        return Err(NameRequired);
      }
      if k == "" {
        return Err(KeyRequired);
      }
      var found := state.HasBucket(b);
      r := if found then Ok(ObjectId(b, k)) else Err(NoSuchBucket);
    }

    method RequireObject(bucket: string, key: string) returns (r: Result<ObjectId, Error>)
      requires Valid()
      ensures r == S3Model.RequireObject(View(), bucket, key)
    {
      var b := RequireBucket(bucket);
      if b.Err? {
        return Err(b.error);
      }
      var k := TrimSpace(key);
      if k == "" {
        return Err(KeyRequired);
      }
      var found := state.FindObject(ObjectId(b.value, k));
      r := if found.Some? then Ok(ObjectId(b.value, k)) else Err(NoSuchKey);
    }

    // objectMutationBlocked, for an object that exists
    method MutationBlocked(id: ObjectId, now: nat) returns (blocked: bool)
      requires Valid()
      ensures blocked <==> id in state.value.objects && Blocked(state.value, id, now)
    {
      var found := state.FindObject(id);
      if found.None? {
        return false;
      }
      if id in state.holds && state.holds[id] == On {
        return true;
      }
      if id !in state.retention {
        return false;
      }
      blocked := state.retention[id].until > now;
    }

    // ---------- buckets ----------

    method CreateBucket(name: string, region: string, env: Env) returns (r: Outcome)
      requires Valid() && env.now > 0
      modifies state
      ensures Valid() && (View(), r) == S3Model.CreateBucket(old(View()), name, region, env)
    {
      hide ValidBucketName, TrimSpace;
      var n, where := TrimSpace(name), TrimSpace(region);
      if n == "" {
        return Failed(NameRequired);
      }
      if !ValidBucketName(n) {
        return Failed(InvalidBucketName);
      }
      var found := state.FindBucket(n);
      if found.Some? {
        return Made(WithRegion(found.value));
      }
      var bucket := state.UpsertBucket(Bucket(n, if where == "" then DEFAULT_REGION else where, 0), env.now);
      r := Persisted(env, Made(bucket));
    }

    method RemoveUploads(bucket: string)
      modifies this
      ensures uploads == map u | u in old(uploads) && old(uploads)[u].bucket != bucket :: old(uploads)[u]
    {
      uploads := map u | u in uploads && uploads[u].bucket != bucket :: uploads[u];
    }

    method DeleteBucket(name: string, env: Env) returns (r: Outcome)
      requires Valid()
      modifies this, state
      ensures Valid() && (View(), r) == S3Model.DeleteBucket(old(View()), name, env)
    {
      hide TrimSpace, DropBucket, BucketEmpty;
      var n := RequireBucket(name);
      if n.Err? {
        return Failed(n.error);
      }
      var deleted := state.DeleteBucket(n.value);
      if !deleted {
        return Failed(BucketNotEmpty);
      }
      RemoveUploads(n.value);
      r := Persisted(env, Done);
    }

    method PutBucketVersioning(bucket: string, status: string, env: Env) returns (r: Outcome)
      requires Valid()
      modifies state
      ensures Valid() && (View(), r) == S3Model.PutBucketVersioning(old(View()), bucket, status, env)
    {
      hide TrimSpace;
      var b := RequireBucket(bucket);
      if b.Err? {
        return Failed(b.error);
      }
      var st := TrimSpace(status);
      if st != "Enabled" && st != "Suspended" {
        return Failed(InvalidStatus);
      }
      var setting := if st == "Enabled" then Enabled else Suspended;
      state.SetBucketVersioning(b.value, setting);
      r := Persisted(env, VersioningSet(b.value, setting));
    }

    method PutObjectLockConfiguration(bucket: string, parsed: Option<LockConfig>, env: Env) returns (r: Outcome)
      requires Valid()
      modifies state
      ensures Valid() && (View(), r) == S3Model.PutObjectLockConfiguration(old(View()), bucket, parsed, env)
    {
      hide TrimSpace;
      var b := RequireBucket(bucket);
      if b.Err? {
        return Failed(b.error);
      }
      var status := state.VersioningStatus(b.value);
      if status != Some(Enabled) {
        return Failed(InvalidBucketState);
      }
      if parsed.None? {
        return Failed(Malformed);
      }
      state.SetLock(b.value, parsed.value);
      r := Persisted(env, LockSet(parsed.value));
    }

    // ---------- protection ----------

    method PutObjectRetention(bucket: string, key: string, parsed: Option<Retention>, env: Env) returns (r: Outcome)
      requires Valid()
      modifies state
      ensures Valid() && (View(), r) == S3Model.PutRetention(old(View()), bucket, key, parsed, env)
    {
      hide TrimSpace, S3Model.RequireObject;
      var id := RequireObject(bucket, key);
      if id.Err? {
        return Failed(id.error);
      }
      if id.value.bucket !in state.locks {
        return Failed(MissingLockConfiguration);
      }
      if parsed.None? {
        return Failed(Malformed);
      }
      if id.value in state.retention && Reduces(state.retention[id.value], parsed.value) {
        return Failed(AccessDenied);
      }
      state.SetRetention(id.value, parsed.value);
      r := Persisted(env, RetentionSet(parsed.value));
    }

    method PutObjectLegalHold(bucket: string, key: string, parsed: Option<Hold>, env: Env) returns (r: Outcome)
      requires Valid()
      modifies state
      ensures Valid() && (View(), r) == S3Model.PutLegalHold(old(View()), bucket, key, parsed, env)
    {
      hide TrimSpace, S3Model.RequireObject;
      var id := RequireObject(bucket, key);
      if id.Err? {
        return Failed(id.error);
      }
      if id.value.bucket !in state.locks {
        return Failed(MissingLockConfiguration);
      }
      if parsed.None? {
        return Failed(Malformed);
      }
      state.SetHold(id.value, parsed.value);
      r := Persisted(env, HoldSet(parsed.value));
    }

    method ClearProtection(id: ObjectId)
      requires Valid()
      modifies state
      ensures Valid() && state.value == S3Model.ClearProtection(old(state.value), id)
    {
      state.DeleteRetention(id);
      state.DeleteHold(id);
    }

    method ApplyDefaultRetention(id: ObjectId, until: nat)
      requires Valid()
      modifies state
      ensures Valid() && state.value == S3Model.ApplyDefaultRetention(old(state.value), id, until)
    {
      if id.bucket !in state.locks || state.locks[id.bucket].default.None? {
        return;
      }
      if id in state.retention {
        return;
      }
      state.SetRetention(id, Retention(state.locks[id.bucket].default.value.mode, until));
    }

    method CopyProtection(dest: ObjectId, source: ObjectId)
      requires Valid()
      modifies state
      ensures Valid() && state.value == S3Model.CopyProtection(old(state.value), dest, source)
    {
      if source in state.retention {
        state.SetRetention(dest, state.retention[source]);
      } else {
        state.DeleteRetention(dest);
      }
      if source in state.holds {
        state.SetHold(dest, state.holds[source]);
      } else {
        state.DeleteHold(dest);
      }
    }

    // ---------- objects ----------

    // The body is dropped before the version is recorded.
    method StoreObject(o: Object, now: nat) returns (stored: Object)
      requires Valid()
      modifies state
      ensures Valid() && View() == S3Model.StoreObject(old(View()), o, now)
      ensures stored == Normalized(o, now).(body := [])
    {
      hide Normalized, NextSequence, RecordOf;
      stored := state.UpsertObject(o, now);
      stored := stored.(body := []);
      var status := state.VersioningStatus(stored.bucket);
      StoredBucket(o, now);
      if status.Some? {
        state.RecordObjectVersion(stored);
      }
    }

    static lemma StoredBucket(o: Object, now: nat)
      ensures Normalized(o, now).bucket == o.bucket && Normalized(o, now).ref == o.ref
    {
    }

    method PutObject(bucket: string, key: string, body: Bytes, contentType: string,
                     metadata: map<string, string>, headers: map<string, string>, env: Env) returns (r: Outcome)
      requires Valid()
      modifies state, payloads
      ensures Valid() && (View(), r) == S3Model.PutObject(old(View()), bucket, key, body, contentType, metadata, headers, env)
    {
      hide TrimSpace, CheckedId, S3Model.StoreObject, Blocked, S3Model.ClearProtection, S3Model.ApplyDefaultRetention, PayloadRefFor;
      var id := CheckId(bucket, key);
      if id.Err? {
        return Failed(id.error);
      }
      var kind := TypeOr(contentType);
      var blocked := MutationBlocked(id.value, env.now);
      if blocked {
        return Failed(AccessDenied);
      }
      var ref, size, etag := payloads.StorePayload(Hint(id.value), body);
      var o := Object(id.value.bucket, id.value.key, [], ref, size, kind, etag, 0, metadata, headers);
      assert o == FreshObject(id.value, body, kind, metadata, headers);
      var stored := StoreObject(o, env.now);
      ClearProtection(id.value);
      ApplyDefaultRetention(id.value, env.until);
      r := Persisted(env, Stored(stored.(body := body)));
    }

    // the bytes of the source of a copy
    method ReadSource(o: Object) returns (body: Option<Bytes>)
      ensures body == SourceBytes(View(), o)
    {
      if o.ref != NoRef {
        body := payloads.OpenPayload(o.ref);
      } else {
        body := if |o.body| > 0 then Some(o.body) else None;
      }
    }

    method CopyObject(bucket: string, key: string, sourceBucket: string, sourceKey: string,
                      directive: string, metadata: map<string, string>, env: Env) returns (r: Outcome)
      requires Valid()
      modifies state, payloads
      ensures Valid() && (View(), r) == S3Model.CopyObject(old(View()), bucket, key, sourceBucket, sourceKey, directive, metadata, env)
    {
      hide TrimSpace, CheckedId, S3Model.StoreObject, Blocked, S3Model.ClearProtection, S3Model.ApplyDefaultRetention,
        S3Model.CopyProtection, PayloadRefFor, SourceBytes;
      if TrimSpace(bucket) != "" && TrimSpace(key) != "" && TrimSpace(sourceBucket) == "" {
        return Failed(NameRequired);
      }
      if TrimSpace(bucket) != "" && TrimSpace(key) != "" && TrimSpace(sourceKey) == "" {
        return Failed(KeyRequired);
      }
      var id := CheckId(bucket, key);
      if id.Err? {
        return Failed(id.error);
      }
      var blocked := MutationBlocked(id.value, env.now);
      if blocked {
        return Failed(AccessDenied);
      }
      var from := CheckId(sourceBucket, sourceKey);
      if from.Err? {
        return Failed(from.error);
      }
      var source := state.FindObject(from.value);
      if source.None? {
        return Failed(NoSuchKey);
      }
      var body := ReadSource(source.value);
      if body.None? {
        return Failed(PayloadUnavailable);
      }
      var data := ResolvedMetadata(source.value.metadata, directive, metadata);
      var ref, size, etag := payloads.StorePayload(Hint(id.value), body.value);
      var o := Object(id.value.bucket, id.value.key, [], ref, size, source.value.contentType, etag, 0, data, source.value.headers);
      assert o == FreshObject(id.value, body.value, source.value.contentType, data, source.value.headers);
      var stored := StoreObject(o, env.now);
      ClearProtection(id.value);
      CopyProtection(id.value, from.value);
      ApplyDefaultRetention(id.value, env.until);
      r := Persisted(env, Stored(stored.(body := body.value)));
    }

    // removeObject
    method RemoveObject(id: ObjectId, env: Env) returns (r: Outcome)
      requires Valid()
      modifies state, payloads
      ensures Valid() && (View(), r) == S3Model.RemoveObject(old(View()), id, env)
    {
      hide Blocked, DropObject, RecordMarker, Hint, TrimSpace;
      var blocked := MutationBlocked(id, env.now);
      if blocked {
        return Failed(AccessDenied);
      }
      var found := state.FindObject(id);
      var ref := if found.Some? then found.value.ref else NoRef;
      var status := state.VersioningStatus(id.bucket);
      if status.Some? {
        state.RecordDeleteMarker(id, env.now);
        ref := NoRef;
      }
      var _ := state.DeleteObject(id);
      ghost var dead := if status.None? && found.Some? then {found.value.ref} - {NoRef} else {};
      assert dead == if ref != NoRef then {ref} else {};
      ghost var kept := payloads.payload - dead;
      if ref != NoRef {
        payloads.DeletePayload(ref);
      }
      assert payloads.payload == kept;
      r := Persisted(env, Done);
    }

    method DeleteObject(bucket: string, key: string, env: Env) returns (r: Outcome)
      requires Valid()
      modifies state, payloads
      ensures Valid() && (View(), r) == S3Model.DeleteObject(old(View()), bucket, key, env)
    {
      var id := CheckId(bucket, key);
      if id.Err? {
        return Failed(id.error);
      }
      r := RemoveObject(id.value, env);
    }

    // One key after the other; a key that cannot be removed is reported and does not stop the rest.
    method DeleteObjects(bucket: string, keys: seq<string>, quiet: bool, env: Env) returns (r: Outcome)
      requires Valid()
      modifies state, payloads
      ensures Valid() && (View(), r) == S3Model.DeleteObjects(old(View()), bucket, keys, quiet, env)
    {
      hide TrimSpace, S3Model.RemoveObject;
      var b := RequireBucket(bucket);
      if b.Err? {
        return Failed(b.error);
      }
      var deleted: seq<string> := [];
      var failures: seq<string> := [];
      ghost var start := View();
      var turn := env;
      assert keys[0..] == keys;
      ReportedTwice([], [], [], [], RemoveEach(start, b.value, keys, quiet, env));
      for i := 0 to |keys|
        invariant Valid() && uploads == old(uploads)
        invariant RemoveEach(start, b.value, keys, quiet, env)
               == Reported(deleted, failures, RemoveEach(View(), b.value, keys[i..], quiet, turn))
      {
        assert keys[i..][0] == keys[i] && keys[i..][1..] == keys[i + 1..];
        var current := turn;
        turn := NextSave(turn);
        var key := TrimSpace(keys[i]);
        if key == "" {
          continue;
        }
        var outcome := RemoveObject(ObjectId(b.value, key), current);
        ghost var rest := RemoveEach(View(), b.value, keys[i + 1..], quiet, turn);
        if outcome.Failed? {
          ReportedTwice(deleted, failures, [], [key], rest);
          failures := failures + [key];
          continue;
        }
        ReportedTwice(deleted, failures, if quiet then [] else [key], [], rest);
        if !quiet {
          deleted := deleted + [key];
        }
      }
      ReportedTwice(deleted, failures, [], [], (View(), Deleted([], [])));
      r := Deleted(deleted, failures);
    }

    // what the loop of DeleteObjects has reported, before what the rest reports
    static function Reported(keys: seq<string>, failures: seq<string>, rest: (World, Outcome)): (World, Outcome)
      requires rest.1.Deleted?
    {
      (rest.0, Deleted(keys + rest.1.keys, failures + rest.1.failures))
    }

    static lemma ReportedTwice(keys: seq<string>, failures: seq<string>, more: seq<string>, moreFailures: seq<string>, rest: (World, Outcome))
      requires rest.1.Deleted?
      ensures Reported(keys, failures, (rest.0, Deleted(more + rest.1.keys, moreFailures + rest.1.failures)))
           == Reported(keys + more, failures + moreFailures, rest)
      ensures keys + [] == keys && failures + [] == failures
      ensures [] + rest.1.keys == rest.1.keys && [] + rest.1.failures == rest.1.failures
    {
      assert keys + (more + rest.1.keys) == keys + more + rest.1.keys;
      assert failures + (moreFailures + rest.1.failures) == failures + moreFailures + rest.1.failures;
    }

    // hydrateObject
    method HydrateObject(o: Object) returns (r: Option<Object>)
      ensures r == Hydrated(View(), o)
    {
      if |o.body| > 0 || o.ref == NoRef {
        return Some(o);
      }
      var body := payloads.OpenPayload(o.ref);
      r := if body.None? then None else Some(o.(body := body.value));
    }

    method GetObject(bucket: string, key: string) returns (r: Result<Object, Error>)
      requires Valid()
      ensures r == S3Model.GetObject(View(), bucket, key)
    {
      hide TrimSpace, Hydrated;
      var id := CheckId(bucket, key);
      if id.Err? {
        return Err(id.error);
      }
      var found := state.FindObject(id.value);
      if found.None? {
        return Err(NoSuchKey);
      }
      var o := HydrateObject(found.value);
      r := if o.None? then Err(PayloadUnavailable) else Ok(o.value);
    }

    // ---------- multipart uploads ----------

    method CreateMultipartUpload(uploadId: string, bucket: string, key: string, contentType: string,
                                 metadata: map<string, string>, headers: map<string, string>) returns (r: Outcome)
      requires Valid()
      modifies this
      ensures Valid() && (View(), r) == CreateUpload(old(View()), uploadId, bucket, key, contentType, metadata, headers)
    {
      hide TrimSpace, CheckedId;
      var id := CheckId(bucket, key);
      if id.Err? {
        return Failed(id.error);
      }
      var upload := Upload(id.value.bucket, id.value.key, TypeOr(contentType), metadata, headers, []);
      uploads := uploads[uploadId := upload];
      r := Begun(uploadId, upload);
    }

    method FindUpload(uploadId: string) returns (r: Result<string, Error>)
      ensures r == S3Model.FindUpload(View(), uploadId)
    {
      var u := TrimSpace(uploadId);
      if u == "" {
        return Err(UploadIdRequired);
      }
      r := if u in uploads then Ok(u) else Err(NoSuchUpload);
    }

    // upsertMultipartPart
    static method Upsert(parts: seq<Part>, part: Part) returns (upserted: seq<Part>)
      ensures upserted == UpsertPart(parts, part)
    {
      upserted := [];
      var replaced := false;
      for i := 0 to |parts|
        invariant |upserted| == i
        invariant forall j | 0 <= j < i :: upserted[j] == if parts[j].number == part.number then part else parts[j]
        invariant replaced <==> exists j :: 0 <= j < i && parts[j].number == part.number
      {
        if parts[i].number == part.number {
          upserted := upserted + [part];
          replaced := true;
          continue;
        }
        upserted := upserted + [parts[i]];
      }
      if !replaced {
        assert upserted == parts;
        upserted := upserted + [part];
      }
    }

    method UploadPart(uploadId: string, number: int, body: Bytes) returns (r: Outcome)
      requires Valid()
      modifies this
      ensures Valid() && (View(), r) == S3Model.UploadPart(old(View()), uploadId, number, body)
    {
      hide TrimSpace, UpsertPart;
      if TrimSpace(uploadId) != "" && number < 1 {
        return Failed(InvalidPart);
      }
      var u := FindUpload(uploadId);
      if u.Err? {
        return Failed(u.error);
      }
      var upload := uploads[u.value];
      var parts := Upsert(upload.parts, Part(number, body));
      uploads := uploads[u.value := upload.(parts := parts)];
      r := Received(number, BodyTag(OfBody(body)), |body|);
    }

    // the bytes and the sums of the parts, in order
    static method Assemble(parts: seq<Part>) returns (assembled: Bytes, digests: seq<Digest>)
      ensures assembled == Assembled(parts) && digests == PartDigests(parts)
    {
      assembled, digests := [], [];
      for i := 0 to |parts|
        invariant assembled + Assembled(parts[i..]) == Assembled(parts)
        invariant digests == PartDigests(parts)[..i]
      {
        assert parts[i..][1..] == parts[i + 1..];
        digests := digests + [OfBody(parts[i].body)];
        assembled := assembled + parts[i].body;
      }
    }

    method CompleteMultipartUpload(uploadId: string, env: Env) returns (r: Outcome)
      requires Valid()
      modifies this, state
      ensures Valid() && (View(), r) == CompleteUpload(old(View()), uploadId, env)
    {
      hide TrimSpace, Blocked, Assembled, PartDigests, S3Model.StoreObject, S3Model.ClearProtection, S3Model.ApplyDefaultRetention;
      var u := FindUpload(uploadId);
      if u.Err? {
        return Failed(u.error);
      }
      var upload := uploads[u.value];
      var parts := SortedParts(upload.parts);
      if |parts| == 0 {
        return Failed(NoParts);
      }
      var found := state.HasBucket(upload.bucket);
      if !found {
        return Failed(NoSuchBucket);
      }
      var id := ObjectId(upload.bucket, upload.key);
      var blocked := MutationBlocked(id, env.now);
      if blocked {
        return Failed(AccessDenied);
      }
      var assembled, digests := Assemble(parts);
      var o := Object(upload.bucket, upload.key, assembled, NoRef, |assembled|, upload.contentType,
                      MultipartTag(OfDigests(digests), |parts|), 0, upload.metadata, upload.headers);
      assert o == Completed(upload);
      var stored := StoreObject(o, env.now);
      ClearProtection(id);
      ApplyDefaultRetention(id, env.until);
      if !env.saved {
        return Failed(PersistFailed);
      }
      uploads := uploads - {u.value};
      BodyKept(o, env.now);
      r := Stored(stored.(body := assembled));
    }

    static lemma BodyKept(o: Object, now: nat)
      ensures Normalized(o, now).(body := o.body) == Normalized(o, now)
    {
    }

    method AbortMultipartUpload(uploadId: string) returns (r: Outcome)
      requires Valid()
      modifies this
      ensures Valid() && (View(), r) == AbortUpload(old(View()), uploadId)
    {
      hide TrimSpace;
      var u := FindUpload(uploadId);
      if u.Err? {
        return Failed(u.error);
      }
      uploads := uploads - {u.value};
      r := Done;
    }

    // ---------- listings ----------

    // the keys of a bucket, in ascending order
    ghost function KeysIn(bucket: string): seq<string>
      reads state
    {
      S3Domain.KeysIn(state.value.objects, bucket)
    }

    method ListObjectsV1(bucket: string, request: S3Listing.V1Request) returns (r: Result<(S3Listing.V1Result, seq<Object>), Error>)
      requires Valid()
      ensures match S3Model.RequireBucket(View(), bucket) {
        case Err(e) => r == Err(e)
        case Ok(b) => r.Ok? && r.value.0 == S3Listing.ListV1(request, KeysIn(b)) && Contents(b, r.value.0.leaves, r.value.1)
      }
    {
      hide TrimSpace, S3Listing.PageOf, S3Domain.KeysIn;
      var b := RequireBucket(bucket);
      if b.Err? {
        return Err(b.error);
      }
      var o := S3Listing.V1Options(request);
      var page, contents := state.ListObjectPage(b.value, o);
      var next := if page.truncated && o.delimiter != "" && page.marker != "" then page.marker else "";
      r := Ok((S3Listing.V1Result(page.leaves, page.prefixes, page.truncated, next), contents));
    }

    method ListObjectsV2(bucket: string, request: S3Listing.V2Request) returns (r: Result<(S3Listing.V2Result, seq<Object>), Error>)
      requires Valid()
      ensures match S3Model.RequireBucket(View(), bucket) {
        case Err(e) => r == Err(e)
        case Ok(b) => r.Ok? && r.value.0 == S3Listing.ListV2(request, KeysIn(b)) && Contents(b, r.value.0.leaves, r.value.1)
      }
    {
      hide TrimSpace, S3Listing.PageOf, S3Domain.KeysIn;
      var b := RequireBucket(bucket);
      if b.Err? {
        return Err(b.error);
      }
      var page, contents := state.ListObjectPage(b.value, S3Listing.V2Options(request));
      var next := if page.truncated && page.marker != "" then S3Listing.Base64(page.marker) else S3Listing.NoToken;
      r := Ok((S3Listing.V2Result(page.leaves, page.prefixes, |page.leaves| + |page.prefixes|, page.truncated, next), contents));
    }

    // the objects under these keys
    ghost predicate Contents(bucket: string, keys: seq<string>, contents: seq<Object>)
      reads state
    {
      && |contents| == |keys|
      && forall i | 0 <= i < |keys| ::
           ObjectId(bucket, keys[i]) in state.value.objects && contents[i] == state.value.objects[ObjectId(bucket, keys[i])]
    }
  }

  // ---------- what clients of a reachable service see ----------

  lemma KeysTrimmed(w: World, bucket: string)
    requires Inv(w)
    ensures Ascending(S3Domain.KeysIn(w.state.objects, bucket)) && S3Listing.AllTrimmed(S3Domain.KeysIn(w.state.objects, bucket))
  {
    assert Holds(w, ObjectsClause);
    var names := set id | id in w.state.objects && id.bucket == bucket :: id.key;
    SortedKeysAscend(names);
    forall i | 0 <= i < |SortedKeys(names)| ensures Trimmed(SortedKeys(names)[i]) {
      assert SortedKeys(names)[i] in names;
      var id :| id in w.state.objects && id.bucket == bucket && id.key == SortedKeys(names)[i];
      assert ProperId(id);
    }
  }

  // After any requests, clients of both versions that follow the pages of a bucket see every key of the bucket that
  // matches, exactly once, as a key or under one common prefix.
  // the keys of the live objects of a bucket
  lemma KeysAreLive(w: World, bucket: string, key: string)
    ensures key in S3Domain.KeysIn(w.state.objects, bucket) <==> ObjectId(bucket, key) in w.state.objects
  {
    var names := set id | id in w.state.objects && id.bucket == bucket :: id.key;
    assert ObjectId(bucket, key) in w.state.objects ==> ObjectId(bucket, key).key in names;
  }

  // Whatever was requested before, a client of either version that follows the pages of a bucket to the end sees
  // exactly the live keys it asked for, and the common prefixes of those that hold the delimiter behind the prefix.
  lemma ReachableListing(start: World, requests: seq<Request>, bucket: string,
                         v1: S3Listing.V1Request, v2: S3Listing.V2Request, from: string)
    requires Beginning(start) && S3Pages.Starts(v2, from)
    ensures var objects := Run(start, requests).state.objects;
      var keys := S3Domain.KeysIn(objects, bucket);
      && Ascending(keys) && S3Listing.AllTrimmed(keys)
      && (forall key :: key in keys <==> ObjectId(bucket, key) in objects)
      && (var pages := S3Listing.FollowV1(v1, keys);
          S3Pages.Shows(TrimSpace(v1.prefix), TrimSpace(v1.delimiter), TrimSpace(v1.marker), None, keys,
                        S3Listing.V1Leaves(pages), S3Listing.V1Prefixes(pages)))
      && (var pages := S3Listing.FollowV2(v2, keys);
          S3Pages.Shows(TrimSpace(v2.prefix), TrimSpace(v2.delimiter), from, None, keys,
                        S3Listing.V2Leaves(pages), S3Listing.V2Prefixes(pages)))
  {
    hide *;
    var w := Run(start, requests);
    ReachableInv(start, requests);
    KeysTrimmed(w, bucket);
    forall key ensures key in S3Domain.KeysIn(w.state.objects, bucket) <==> ObjectId(bucket, key) in w.state.objects {
      KeysAreLive(w, bucket, key);
    }
    S3Pages.V1Complete(v1, S3Domain.KeysIn(w.state.objects, bucket));
    S3Pages.V2Complete(v2, from, S3Domain.KeysIn(w.state.objects, bucket));
  }

  // After any requests, the first entry of a key in the version listing is a delete marker exactly if the key has no
  // live object, and otherwise describes it.
  lemma ReachableVersions(start: World, requests: seq<Request>, objects: seq<Object>, bucket: string, i: int)
    requires Beginning(start)
    requires var w := Run(start, requests);
      && Unique(ObjectIdOf, objects) && w.state.objects == ToMap(ObjectIdOf, objects)
      && var listed := S3Versions.ListVersions(w.state.history, objects, bucket);
         0 <= i < |listed| && S3Versions.FirstOf(listed, i, listed[i].key)
    ensures var w := Run(start, requests);
      var r := S3Versions.ListVersions(w.state.history, objects, bucket)[i];
      S3Versions.Describes(w.state.objects, ObjectId(bucket, r.key), r)
  {
    hide Run, Beginning, S3Versions.ListVersions, Inv, S3Versions.FirstOf, S3Versions.Describes;
    ReachableInv(start, requests);
    S3Versions.NewestListed(Run(start, requests), objects, bucket, i);
  }
}
