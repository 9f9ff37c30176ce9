/** The S3 service as a state machine on values: buckets, live objects, version history, governance,
    payloads and pending uploads, and what each request does to them. */
module S3Model {
  import opened Wrappers
  import opened Strings
  import StableSort

  newtype byte = n: int | 0 <= n < 256
  type Bytes = seq<byte>

  // ---------- entities ----------

  // An MD5 sum, of a body or of the concatenated sums of parts: taken to be free of collisions.
  datatype Digest = OfBody(body: Bytes) | OfDigests(parts: seq<Digest>)

  datatype ETag = NoTag | BodyTag(digest: Digest) | MultipartTag(digest: Digest, parts: nat)

  // The name of a payload: the sums of its hint and of its bytes.
  datatype PayloadRef = NoRef | Ref(hint: string, digest: Digest)

  datatype ObjectId = ObjectId(bucket: string, key: string)

  datatype Bucket = Bucket(name: string, region: string, createdAt: nat)

  datatype Object = Object(
    bucket: string, key: string, body: Bytes, ref: PayloadRef, size: nat, contentType: string,
    etag: ETag, lastModified: nat, metadata: map<string, string>, headers: map<string, string>)

  datatype Status = Enabled | Suspended

  // The version identifier of the source is the sequence number, printed.
  datatype VersionRecord = VersionRecord(
    bucket: string, key: string, sequence: nat, marker: bool, body: Bytes, ref: PayloadRef, size: nat,
    contentType: string, etag: ETag, lastModified: nat, metadata: map<string, string>, headers: map<string, string>)

  datatype ConfigKind =
    | Policy | Encryption | Lifecycle | CORS | ACL | Tagging | Ownership | PublicAccess | Notifications | Logging
    | Replication

  datatype ConfigId = ConfigId(kind: ConfigKind, bucket: string)

  datatype Mode = Governance | Compliance
  datatype Retention = Retention(mode: Mode, until: nat)
  datatype Hold = On | Off
  type Positive = n: nat | n > 0 witness 1
  datatype Period = Days(days: Positive) | Years(years: Positive)
  datatype DefaultRetention = DefaultRetention(mode: Mode, period: Period)
  datatype LockConfig = LockConfig(default: Option<DefaultRetention>)

  datatype Part = Part(number: int, body: Bytes)
  datatype Upload = Upload(
    bucket: string, key: string, contentType: string,
    metadata: map<string, string>, headers: map<string, string>, parts: seq<Part>)

  function ObjectIdOf(o: Object): ObjectId { ObjectId(o.bucket, o.key) }
  function RecordIdOf(r: VersionRecord): ObjectId { ObjectId(r.bucket, r.key) }

  // ---------- domain state ----------

  datatype State = State(
    buckets: map<string, Bucket>,
    objects: map<ObjectId, Object>,
    versioning: map<string, Status>,
    history: seq<VersionRecord>,
    configs: map<ConfigId, Bytes>,
    locks: map<string, LockConfig>,
    acls: map<ObjectId, Bytes>,
    taggings: map<ObjectId, Bytes>,
    retention: map<ObjectId, Retention>,
    holds: map<ObjectId, Hold>)

  // fills in what the caller left out
  function Normalized(o: Object, now: nat): Object {
    o.(size := if o.size == 0 then |o.body| else o.size,
       etag := if o.etag == NoTag then BodyTag(OfBody(o.body)) else o.etag,
       lastModified := if o.lastModified == 0 then now else o.lastModified)
  }

  function Upsert(s: State, o: Object, now: nat): State {
    s.(objects := s.objects[ObjectIdOf(o) := Normalized(o, now)])
  }

  function MaxSequence(history: seq<VersionRecord>): nat {
    if |history| == 0 then 0
    else
      var m := MaxSequence(history[..|history| - 1]);
      var n := history[|history| - 1].sequence;
      if n > m then n else m
  }

  function NextSequence(history: seq<VersionRecord>): nat {
    MaxSequence(history) + 1
  }

  function RecordOf(o: Object, sequence: nat): VersionRecord {
    VersionRecord(o.bucket, o.key, sequence, false, o.body, o.ref, if o.size == 0 then |o.body| else o.size,
                  o.contentType, o.etag, o.lastModified, o.metadata, o.headers)
  }

  function RecordVersion(s: State, o: Object): State {
    s.(history := s.history + [RecordOf(o, NextSequence(s.history))])
  }

  function RecordMarker(s: State, id: ObjectId, now: nat): State {
    var record := VersionRecord(id.bucket, id.key, NextSequence(s.history), true, [], NoRef, 0, "", NoTag, now, map[], map[]);
    s.(history := s.history + [record])
  }

  // the live object goes, and its protection, ACL and tags with it
  function DropObject(s: State, id: ObjectId): State {
    s.(objects := s.objects - {id}, retention := s.retention - {id}, holds := s.holds - {id},
       acls := s.acls - {id}, taggings := s.taggings - {id})
  }

  predicate BucketEmpty(s: State, name: string) {
    && (forall id | id in s.objects :: id.bucket != name)
    && (forall i | 0 <= i < |s.history| :: s.history[i].bucket != name)
  }

  function DropBucket(s: State, name: string): State {
    s.(buckets := s.buckets - {name},
       versioning := s.versioning - {name},
       configs := ConfigsOutside(s.configs, name),
       locks := s.locks - {name},
       acls := OutsideBucket(s.acls, name),
       taggings := OutsideBucket(s.taggings, name),
       retention := OutsideBucket(s.retention, name),
       holds := OutsideBucket(s.holds, name))
  }

  function ConfigsOutside(m: map<ConfigId, Bytes>, name: string): map<ConfigId, Bytes> {
    map id | id in m && id.bucket != name :: m[id]
  }

  function OutsideBucket<V>(m: map<ObjectId, V>, name: string): map<ObjectId, V> {
    map id | id in m && id.bucket != name :: m[id]
  }

  // ---------- object lock ----------

  // objectMutationBlocked
  predicate Blocked(s: State, id: ObjectId, now: nat) {
    || (id in s.holds && s.holds[id] == On)
    || (id in s.retention && s.retention[id].until > now)
  }

  // objectRetentionReduction
  predicate Reduces(existing: Retention, next: Retention) {
    || next.until < existing.until
    || (existing.mode == Compliance && next.mode == Governance)
  }

  function ClearProtection(s: State, id: ObjectId): State {
    s.(retention := s.retention - {id}, holds := s.holds - {id})
  }

  // until: today's date moved by the bucket's default period
  function ApplyDefaultRetention(s: State, id: ObjectId, until: nat): State {
    if id.bucket !in s.locks || s.locks[id.bucket].default.None? || id in s.retention then s
    else s.(retention := s.retention[id := Retention(s.locks[id.bucket].default.value.mode, until)])
  }

  function Reprotected(s: State, id: ObjectId, until: nat): State {
    ApplyDefaultRetention(ClearProtection(s, id), id, until)
  }

  // copyObjectProtection
  function CopyProtection(s: State, dest: ObjectId, source: ObjectId): State {
    s.(retention := Carried(s.retention, dest, source), holds := Carried(s.holds, dest, source))
  }

  function Carried<V>(m: map<ObjectId, V>, dest: ObjectId, source: ObjectId): map<ObjectId, V> {
    if source in m then m[dest := m[source]] else m - {dest}
  }

  // ---------- service ----------

  datatype World = World(state: State, payloads: map<PayloadRef, Bytes>, uploads: map<string, Upload>)

  // now: the clock; until: the calendar's answer for a default retention period; saved: whether the
  // repository accepts the state; later: the same for the further saves of a request that saves more than once
  datatype Env = Env(now: nat, until: nat, saved: bool, later: seq<bool>)

  function NextSave(env: Env): (next: Env)
    ensures next.now == env.now && next.until == env.until
  {
    if |env.later| == 0 then env else env.(saved := env.later[0], later := env.later[1..])
  }

  datatype Error =
    | NameRequired | KeyRequired | InvalidBucketName | NoSuchBucket | NoSuchKey | AccessDenied | BucketNotEmpty
    | InvalidStatus | InvalidBucketState | MissingLockConfiguration | Malformed | PayloadUnavailable
    | UploadIdRequired | NoSuchUpload | NoParts | InvalidPart | PersistFailed

  datatype Outcome =
    | Failed(error: Error)
    | Done
    | Made(bucket: Bucket)
    | VersioningSet(bucketName: string, status: Status)
    | LockSet(lock: LockConfig)
    | RetentionSet(retention: Retention)
    | HoldSet(hold: Hold)
    | Begun(uploadId: string, upload: Upload)
    | Received(number: int, etag: ETag, size: nat)
    | Stored(object: Object)
    | Deleted(keys: seq<string>, failures: seq<string>)

  function Persisted(env: Env, outcome: Outcome): Outcome {
    if env.saved then outcome else Failed(PersistFailed)
  }

  // the request got as far as changing the state, whether or not the repository took it
  predicate Mutated(outcome: Outcome) {
    !outcome.Failed? || outcome.error == PersistFailed
  }

  function PayloadRefFor(hint: string, body: Bytes): PayloadRef {
    Ref(TrimSpace(hint), OfBody(body))
  }

  function Hint(id: ObjectId): string {
    id.bucket + "/" + id.key
  }

  function StorePayload(w: World, id: ObjectId, body: Bytes): World {
    w.(payloads := w.payloads[PayloadRefFor(Hint(id), body) := body])
  }

  // an object whose bytes are a stored payload
  function FreshObject(id: ObjectId, body: Bytes, contentType: string,
                       metadata: map<string, string>, headers: map<string, string>): Object
  {
    Object(id.bucket, id.key, [], PayloadRefFor(Hint(id), body), |body|, contentType, BodyTag(OfBody(body)), 0, metadata, headers)
  }

  // storeObject: the record is made from the stored object without its body
  function StoreObject(w: World, o: Object, now: nat): World {
    var s := Upsert(w.state, o, now);
    w.(state := if o.bucket in s.versioning then RecordVersion(s, Normalized(o, now).(body := [])) else s)
  }

  function StoreFresh(w: World, id: ObjectId, body: Bytes, contentType: string,
                      metadata: map<string, string>, headers: map<string, string>, now: nat): World
  {
    StoreObject(StorePayload(w, id, body), FreshObject(id, body, contentType, metadata, headers), now)
  }

  // hydrateObject
  function Hydrated(w: World, o: Object): Option<Object> {
    if |o.body| > 0 || o.ref == NoRef then Some(o)
    else if o.ref in w.payloads then Some(o.(body := w.payloads[o.ref]))
    else None
  }

  const DEFAULT_TYPE := "application/octet-stream"
  const DEFAULT_REGION := "us-east-1"

  function TypeOr(contentType: string): string {
    if TrimSpace(contentType) == "" then DEFAULT_TYPE else TrimSpace(contentType)
  }

  // a valid bucket name holds a letter, so that it never reads as an address
  predicate ValidBucketName(name: string) {
    && 3 <= |name| <= 63
    && (forall c | c in name :: 'a' <= c <= 'z' || '0' <= c <= '9' || c == '.' || c == '-')
    && name[0] !in ".-" && name[|name| - 1] !in ".-"
    && (forall i | 0 <= i < |name| - 1 :: name[i] in ".-" && name[i + 1] in ".-" ==> name[i] == name[i + 1] == '-')
    && (exists c | c in name :: 'a' <= c <= 'z')
  }

  // trimmed names, or the error for a blank one
  function CheckedId(w: World, bucket: string, key: string): Result<ObjectId, Error> {
    var b, k := TrimSpace(bucket), TrimSpace(key);
    if b == "" then Err(NameRequired)
    else if k == "" then Err(KeyRequired)
    else if b !in w.state.buckets then Err(NoSuchBucket)
    else Ok(ObjectId(b, k))
  }

  function RequireBucket(w: World, bucket: string): Result<string, Error> {
    var b := TrimSpace(bucket);
    if b == "" then Err(NameRequired) else if b !in w.state.buckets then Err(NoSuchBucket) else Ok(b)
  }

  function RequireObject(w: World, bucket: string, key: string): Result<ObjectId, Error> {
    match RequireBucket(w, bucket)
    case Err(e) => Err(e)
    case Ok(b) =>
      var k := TrimSpace(key);
      if k == "" then Err(KeyRequired)
      else if ObjectId(b, k) !in w.state.objects then Err(NoSuchKey)
      else Ok(ObjectId(b, k))
  }

  function GetObject(w: World, bucket: string, key: string): Result<Object, Error> {
    match CheckedId(w, bucket, key)
    case Err(e) => Err(e)
    case Ok(id) => Read(w, id)
  }

  function Read(w: World, id: ObjectId): Result<Object, Error> {
    if id !in w.state.objects then Err(NoSuchKey)
    else
      match Hydrated(w, w.state.objects[id])
      case None => Err(PayloadUnavailable)
      case Some(o) => Ok(o)
  }

  // ---------- requests ----------

  function WithRegion(b: Bucket): Bucket {
    b.(region := if b.region == "" then DEFAULT_REGION else b.region)
  }

  function CreateBucket(w: World, name: string, region: string, env: Env): (World, Outcome) {
    var n, r := TrimSpace(name), TrimSpace(region);
    if n == "" then (w, Failed(NameRequired))
    else if !ValidBucketName(n) then (w, Failed(InvalidBucketName))
    else if n in w.state.buckets then (w, Made(WithRegion(w.state.buckets[n])))
    else
      var bucket := Bucket(n, if r == "" then DEFAULT_REGION else r, env.now);
      (w.(state := w.state.(buckets := w.state.buckets[n := bucket])), Persisted(env, Made(bucket)))
  }

  function DeleteBucket(w: World, name: string, env: Env): (World, Outcome) {
    match RequireBucket(w, name)
    case Err(e) => (w, Failed(e))
    case Ok(n) =>
      if !BucketEmpty(w.state, n) then (w, Failed(BucketNotEmpty))
      else
        (w.(state := DropBucket(w.state, n),
            uploads := map u | u in w.uploads && w.uploads[u].bucket != n :: w.uploads[u]),
         Persisted(env, Done))
  }

  function PutBucketVersioning(w: World, bucket: string, status: string, env: Env): (World, Outcome) {
    match RequireBucket(w, bucket)
    case Err(e) => (w, Failed(e))
    case Ok(b) =>
      var st := TrimSpace(status);
      if st != "Enabled" && st != "Suspended" then (w, Failed(InvalidStatus))
      else
        var setting := if st == "Enabled" then Enabled else Suspended;
        (w.(state := w.state.(versioning := w.state.versioning[b := setting])), Persisted(env, VersioningSet(b, setting)))
  }

  // a bucket ACL that is put with an empty body is not stored
  function PutBucketConfig(w: World, kind: ConfigKind, bucket: string, body: Bytes, env: Env): (World, Outcome) {
    match RequireBucket(w, bucket)
    case Err(e) => (w, Failed(e))
    case Ok(b) =>
      if kind == ACL && |body| == 0 then (w, Done)
      else (w.(state := w.state.(configs := w.state.configs[ConfigId(kind, b) := body])), Persisted(env, Done))
  }

  function DeleteBucketConfig(w: World, kind: ConfigKind, bucket: string, env: Env): (World, Outcome) {
    match RequireBucket(w, bucket)
    case Err(e) => (w, Failed(e))
    case Ok(b) =>
      if ConfigId(kind, b) !in w.state.configs then (w, Done)
      else (w.(state := w.state.(configs := w.state.configs - {ConfigId(kind, b)})), Persisted(env, Done))
  }

  function PutObjectLockConfiguration(w: World, bucket: string, parsed: Option<LockConfig>, env: Env): (World, Outcome) {
    match RequireBucket(w, bucket)
    case Err(e) => (w, Failed(e))
    case Ok(b) =>
      if b !in w.state.versioning || w.state.versioning[b] != Enabled then (w, Failed(InvalidBucketState))
      else if parsed.None? then (w, Failed(Malformed))
      else (w.(state := w.state.(locks := w.state.locks[b := parsed.value])), Persisted(env, LockSet(parsed.value)))
  }

  // PutObjectWithMetadata
  function PutObject(w: World, bucket: string, key: string, body: Bytes, contentType: string,
                     metadata: map<string, string>, headers: map<string, string>, env: Env): (World, Outcome)
  {
    match CheckedId(w, bucket, key)
    case Err(e) => (w, Failed(e))
    case Ok(id) =>
      if id in w.state.objects && Blocked(w.state, id, env.now) then (w, Failed(AccessDenied))
      else
        var o := FreshObject(id, body, TypeOr(contentType), metadata, headers);
        (PutTo(w, id, body, TypeOr(contentType), metadata, headers, env),
         Persisted(env, Stored(Normalized(o, env.now).(body := body))))
  }

  // a new object starts with the bucket's default protection
  function PutTo(w: World, id: ObjectId, body: Bytes, contentType: string,
                 metadata: map<string, string>, headers: map<string, string>, env: Env): World
  {
    var w1 := StoreFresh(w, id, body, contentType, metadata, headers, env.now);
    w1.(state := Reprotected(w1.state, id, env.until))
  }

  // resolvedCopyMetadata; of the letters of REPLACE none is the capital of a letter outside of ASCII
  function ResolvedMetadata(source: map<string, string>, directive: string, metadata: map<string, string>): map<string, string> {
    if ToUpper(TrimSpace(directive)) == "REPLACE" then metadata else source
  }

  // the bytes that a copy reads from its source
  function SourceBytes(w: World, o: Object): Option<Bytes> {
    if o.ref != NoRef then (if o.ref in w.payloads then Some(w.payloads[o.ref]) else None)
    else if |o.body| > 0 then Some(o.body)
    else None
  }

  // CopyObjectWithOptions
  function CopyObject(w: World, bucket: string, key: string, sourceBucket: string, sourceKey: string,
                      directive: string, metadata: map<string, string>, env: Env): (World, Outcome)
  {
    if TrimSpace(bucket) != "" && TrimSpace(key) != "" && TrimSpace(sourceBucket) == "" then (w, Failed(NameRequired))
    else if TrimSpace(bucket) != "" && TrimSpace(key) != "" && TrimSpace(sourceKey) == "" then (w, Failed(KeyRequired))
    else
      match CheckedId(w, bucket, key)
      case Err(e) => (w, Failed(e))
      case Ok(id) =>
        if id in w.state.objects && Blocked(w.state, id, env.now) then (w, Failed(AccessDenied))
        else
          match CheckedId(w, sourceBucket, sourceKey)
          case Err(e) => (w, Failed(e))
          case Ok(from) =>
            if from !in w.state.objects then (w, Failed(NoSuchKey))
            else
              var source := w.state.objects[from];
              match SourceBytes(w, source)
              case None => (w, Failed(PayloadUnavailable))
              case Some(body) =>
                var data := ResolvedMetadata(source.metadata, directive, metadata);
                var stored := FreshObject(id, body, source.contentType, data, source.headers);
                (CopyTo(w, id, from, body, source.contentType, data, source.headers, env),
                 Persisted(env, Stored(Normalized(stored, env.now).(body := body))))
  }

  // the copy takes over the source's protection, as it stands after the destination's is cleared
  function CopyTo(w: World, id: ObjectId, from: ObjectId, body: Bytes, contentType: string,
                  metadata: map<string, string>, headers: map<string, string>, env: Env): World
  {
    var w1 := StoreFresh(w, id, body, contentType, metadata, headers, env.now);
    var s := CopyProtection(ClearProtection(w1.state, id), id, from);
    w1.(state := ApplyDefaultRetention(s, id, env.until))
  }

  // removeObject
  function RemoveObject(w: World, id: ObjectId, env: Env): (World, Outcome) {
    if id in w.state.objects && Blocked(w.state, id, env.now) then (w, Failed(AccessDenied))
    else if id.bucket in w.state.versioning then
      (w.(state := DropObject(RecordMarker(w.state, id, env.now), id)), Persisted(env, Done))
    else
      var dead := if id in w.state.objects then {w.state.objects[id].ref} - {NoRef} else {};
      (w.(state := DropObject(w.state, id), payloads := w.payloads - dead), Persisted(env, Done))
  }

  function DeleteObject(w: World, bucket: string, key: string, env: Env): (World, Outcome) {
    match CheckedId(w, bucket, key)
    case Err(e) => (w, Failed(e))
    case Ok(id) => RemoveObject(w, id, env)
  }

  // One key after the other, each with a save of its own; a key that cannot be removed does not stop the rest.
  function RemoveEach(w: World, bucket: string, keys: seq<string>, quiet: bool, env: Env): (r: (World, Outcome))
    ensures r.1.Deleted?
    decreases |keys|
  {
    if |keys| == 0 then (w, Deleted([], []))
    else
      var key := TrimSpace(keys[0]);
      if key == "" then RemoveEach(w, bucket, keys[1..], quiet, NextSave(env))
      else
        var (w1, first) := RemoveObject(w, ObjectId(bucket, key), env);
        var (w2, rest) := RemoveEach(w1, bucket, keys[1..], quiet, NextSave(env));
        if first.Failed? then (w2, Deleted(rest.keys, [key] + rest.failures))
        else (w2, Deleted(if quiet then rest.keys else [key] + rest.keys, rest.failures))
  }

  function DeleteObjects(w: World, bucket: string, keys: seq<string>, quiet: bool, env: Env): (World, Outcome) {
    match RequireBucket(w, bucket)
    case Err(e) => (w, Failed(e))
    case Ok(b) => RemoveEach(w, b, keys, quiet, env)
  }

  function PutRetention(w: World, bucket: string, key: string, parsed: Option<Retention>, env: Env): (World, Outcome) {
    match RequireObject(w, bucket, key)
    case Err(e) => (w, Failed(e))
    case Ok(id) =>
      if id.bucket !in w.state.locks then (w, Failed(MissingLockConfiguration))
      else if parsed.None? then (w, Failed(Malformed))
      else if id in w.state.retention && Reduces(w.state.retention[id], parsed.value) then (w, Failed(AccessDenied))
      else (w.(state := w.state.(retention := w.state.retention[id := parsed.value])), Persisted(env, RetentionSet(parsed.value)))
  }

  function PutLegalHold(w: World, bucket: string, key: string, parsed: Option<Hold>, env: Env): (World, Outcome) {
    match RequireObject(w, bucket, key)
    case Err(e) => (w, Failed(e))
    case Ok(id) =>
      if id.bucket !in w.state.locks then (w, Failed(MissingLockConfiguration))
      else if parsed.None? then (w, Failed(Malformed))
      else (w.(state := w.state.(holds := w.state.holds[id := parsed.value])), Persisted(env, HoldSet(parsed.value)))
  }

  function PutObjectAcl(w: World, bucket: string, key: string, body: Bytes, env: Env): (World, Outcome) {
    match RequireObject(w, bucket, key)
    case Err(e) => (w, Failed(e))
    case Ok(id) => (w.(state := w.state.(acls := w.state.acls[id := body])), Persisted(env, Done))
  }

  function PutObjectTagging(w: World, bucket: string, key: string, body: Bytes, env: Env): (World, Outcome) {
    match RequireObject(w, bucket, key)
    case Err(e) => (w, Failed(e))
    case Ok(id) => (w.(state := w.state.(taggings := w.state.taggings[id := body])), Persisted(env, Done))
  }

  function DeleteObjectTagging(w: World, bucket: string, key: string, env: Env): (World, Outcome) {
    match RequireObject(w, bucket, key)
    case Err(e) => (w, Failed(e))
    case Ok(id) =>
      if id !in w.state.taggings then (w, Done)
      else (w.(state := w.state.(taggings := w.state.taggings - {id})), Persisted(env, Done))
  }

  // ---------- multipart uploads ----------

  function CreateUpload(w: World, uploadId: string, bucket: string, key: string, contentType: string,
                        metadata: map<string, string>, headers: map<string, string>): (World, Outcome)
  {
    match CheckedId(w, bucket, key)
    case Err(e) => (w, Failed(e))
    case Ok(id) =>
      var upload := Upload(id.bucket, id.key, TypeOr(contentType), metadata, headers, []);
      (w.(uploads := w.uploads[uploadId := upload]), Begun(uploadId, upload))
  }

  function FindUpload(w: World, uploadId: string): Result<string, Error> {
    var u := TrimSpace(uploadId);
    if u == "" then Err(UploadIdRequired) else if u !in w.uploads then Err(NoSuchUpload) else Ok(u)
  }

  // upsertMultipartPart
  function UpsertPart(parts: seq<Part>, part: Part): seq<Part> {
    if exists i | 0 <= i < |parts| :: parts[i].number == part.number then
      seq(|parts|, i requires 0 <= i < |parts| => if parts[i].number == part.number then part else parts[i])
    else parts + [part]
  }

  function UploadPart(w: World, uploadId: string, number: int, body: Bytes): (World, Outcome) {
    if TrimSpace(uploadId) != "" && number < 1 then (w, Failed(InvalidPart))
    else
      match FindUpload(w, uploadId)
      case Err(e) => (w, Failed(e))
      case Ok(u) =>
        var upload := w.uploads[u];
        (w.(uploads := w.uploads[u := upload.(parts := UpsertPart(upload.parts, Part(number, body)))]),
         Received(number, BodyTag(OfBody(body)), |body|))
  }

  function AbortUpload(w: World, uploadId: string): (World, Outcome) {
    match FindUpload(w, uploadId)
    case Err(e) => (w, Failed(e))
    case Ok(u) => (w.(uploads := w.uploads - {u}), Done)
  }

  predicate PartBefore(a: Part, b: Part) { a.number < b.number }

  function SortedParts(parts: seq<Part>): seq<Part> {
    StableSort.Sort(PartBefore, parts)
  }

  function Assembled(parts: seq<Part>): Bytes {
    if |parts| == 0 then [] else parts[0].body + Assembled(parts[1..])
  }

  function PartDigests(parts: seq<Part>): seq<Digest> {
    seq(|parts|, i requires 0 <= i < |parts| => OfBody(parts[i].body))
  }

  // the object that an upload becomes
  function Completed(upload: Upload): Object {
    var parts := SortedParts(upload.parts);
    Object(upload.bucket, upload.key, Assembled(parts), NoRef, |Assembled(parts)|, upload.contentType,
           MultipartTag(OfDigests(PartDigests(parts)), |parts|), 0, upload.metadata, upload.headers)
  }

  // the upload stays pending when the repository refuses the state
  function CompleteUpload(w: World, uploadId: string, env: Env): (World, Outcome) {
    match FindUpload(w, uploadId)
    case Err(e) => (w, Failed(e))
    case Ok(u) =>
      var upload := w.uploads[u];
      var id := ObjectId(upload.bucket, upload.key);
      if |upload.parts| == 0 then (w, Failed(NoParts))
      else if upload.bucket !in w.state.buckets then (w, Failed(NoSuchBucket))
      else if id in w.state.objects && Blocked(w.state, id, env.now) then (w, Failed(AccessDenied))
      else
        (CompleteTo(w, u, env), Persisted(env, Stored(Normalized(Completed(upload), env.now))))
  }

  function CompleteTo(w: World, u: string, env: Env): World
    requires u in w.uploads
  {
    var o := Completed(w.uploads[u]);
    var w1 := StoreObject(w, o, env.now);
    w1.(state := Reprotected(w1.state, ObjectIdOf(o), env.until),
        uploads := if env.saved then w1.uploads - {u} else w1.uploads)
  }

  // ---------- runs ----------

  datatype Op =
    | OpCreateBucket(name: string, region: string)
    | OpDeleteBucket(name: string)
    | OpPutBucketVersioning(bucket: string, status: string)
    | OpPutBucketConfig(kind: ConfigKind, bucket: string, body: Bytes)
    | OpDeleteBucketConfig(kind: ConfigKind, bucket: string)
    | OpPutObjectLockConfiguration(bucket: string, lock: Option<LockConfig>)
    | OpPutObject(bucket: string, key: string, body: Bytes, contentType: string,
                  metadata: map<string, string>, headers: map<string, string>)
    | OpCopyObject(bucket: string, key: string, sourceBucket: string, sourceKey: string,
                   directive: string, metadata: map<string, string>)
    | OpDeleteObject(bucket: string, key: string)
    | OpDeleteObjects(bucket: string, keys: seq<string>, quiet: bool)
    | OpPutRetention(bucket: string, key: string, retention: Option<Retention>)
    | OpPutLegalHold(bucket: string, key: string, hold: Option<Hold>)
    | OpPutObjectAcl(bucket: string, key: string, body: Bytes)
    | OpPutObjectTagging(bucket: string, key: string, body: Bytes)
    | OpDeleteObjectTagging(bucket: string, key: string)
    | OpCreateUpload(uploadId: string, bucket: string, key: string, contentType: string,
                     metadata: map<string, string>, headers: map<string, string>)
    | OpUploadPart(uploadId: string, number: int, body: Bytes)
    | OpCompleteUpload(uploadId: string)
    | OpAbortUpload(uploadId: string)

  function Respond(w: World, op: Op, env: Env): (World, Outcome) {
    match op
    case OpCreateBucket(name, region) => CreateBucket(w, name, region, env)
    case OpDeleteBucket(name) => DeleteBucket(w, name, env)
    case OpPutBucketVersioning(bucket, status) => PutBucketVersioning(w, bucket, status, env)
    case OpPutBucketConfig(kind, bucket, body) => PutBucketConfig(w, kind, bucket, body, env)
    case OpDeleteBucketConfig(kind, bucket) => DeleteBucketConfig(w, kind, bucket, env)
    case OpPutObjectLockConfiguration(bucket, lock) => PutObjectLockConfiguration(w, bucket, lock, env)
    case OpPutObject(bucket, key, body, contentType, metadata, headers) =>
      PutObject(w, bucket, key, body, contentType, metadata, headers, env)
    case OpCopyObject(bucket, key, sourceBucket, sourceKey, directive, metadata) =>
      CopyObject(w, bucket, key, sourceBucket, sourceKey, directive, metadata, env)
    case OpDeleteObject(bucket, key) => DeleteObject(w, bucket, key, env)
    case OpDeleteObjects(bucket, keys, quiet) => DeleteObjects(w, bucket, keys, quiet, env)
    case OpPutRetention(bucket, key, retention) => PutRetention(w, bucket, key, retention, env)
    case OpPutLegalHold(bucket, key, hold) => PutLegalHold(w, bucket, key, hold, env)
    case OpPutObjectAcl(bucket, key, body) => PutObjectAcl(w, bucket, key, body, env)
    case OpPutObjectTagging(bucket, key, body) => PutObjectTagging(w, bucket, key, body, env)
    case OpDeleteObjectTagging(bucket, key) => DeleteObjectTagging(w, bucket, key, env)
    case OpCreateUpload(uploadId, bucket, key, contentType, metadata, headers) =>
      CreateUpload(w, uploadId, bucket, key, contentType, metadata, headers)
    case OpUploadPart(uploadId, number, body) => UploadPart(w, uploadId, number, body)
    case OpCompleteUpload(uploadId) => CompleteUpload(w, uploadId, env)
    case OpAbortUpload(uploadId) => AbortUpload(w, uploadId)
  }

  function Step(w: World, op: Op, env: Env): World {
    Respond(w, op, env).0
  }

  datatype Request = Request(op: Op, env: Env)

  function Run(w: World, requests: seq<Request>): World
    decreases |requests|
  {
    if |requests| == 0 then w
    else Run(Step(w, requests[0].op, requests[0].env), requests[1..])
  }

  // ---------- where runs begin ----------

  const EMPTY: World :=
    World(State(map[], map[], map[], [], map[], map[], map[], map[], map[], map[]), map[], map[])

  // the bytes of the bootstrap object
  function BootstrapBody(): Bytes {
    [77, 105, 108, 100, 83, 116, 97, 99, 107, 32, 97, 115, 115, 101, 116, 32, 118, 49]
  }

  const BOOTSTRAP := ObjectId("mildstack-assets", "bootstrap.txt")

  // NewState: one bucket with one object whose bytes are kept inline
  function Initial(created: nat): World {
    var o := Object(BOOTSTRAP.bucket, BOOTSTRAP.key, BootstrapBody(), NoRef, |BootstrapBody()|, "text/plain",
                    BodyTag(OfBody(BootstrapBody())), created, map[], map[]);
    EMPTY.(state := EMPTY.state.(buckets := map[BOOTSTRAP.bucket := Bucket(BOOTSTRAP.bucket, DEFAULT_REGION, created)],
                                 objects := map[BOOTSTRAP := o]))
  }
}
