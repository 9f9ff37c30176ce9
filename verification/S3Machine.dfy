/** A service with its file: what requests and restarts do to both, when a restart succeeds, and what it brings back. */
module S3Machine {
  import opened Wrappers
  import opened Strings
  import opened S3Model
  import opened S3Invariants
  import opened S3ObjectLock
  import S3Effects
  import opened S3Repository
  import opened S3Alike
  import opened S3Restart
  import StableSort

  // The file holds what the last accepted save wrote. (Where there is none yet, a service starts with the empty state.)
  datatype Machine = Machine(world: World, file: State)

  const START: Machine := Machine(EMPTY, EMPTY.state)

  // ---------- requests ----------

  // the request gets as far as asking the repository to save
  predicate Asks(w: World, op: Op, env: Env) {
    Respond(w, op, env.(saved := false)).1 == Failed(PersistFailed)
  }

  // what the repository answers: it takes a state that is valid, if the disk does
  function Answered(w: World, op: Op, env: Env): Env {
    env.(saved := env.saved && Validated(ToSave(Step(w, op, env).state)))
  }

  predicate Saves(w: World, op: Op, env: Env) {
    Asks(w, op, env) && Answered(w, op, env).saved
  }

  function Only(payloads: map<PayloadRef, Bytes>, refs: set<PayloadRef>): map<PayloadRef, Bytes> {
    map ref | ref in payloads && ref in refs :: payloads[ref]
  }

  // A request other than a multiple delete. Every save stores the bytes that the state holds itself before it validates the
  // state; one that fails on the disk may have stored some of them.
  function ServeOne(m: Machine, request: Request, stored: set<PayloadRef>): Machine {
    var op, env := request.op, request.env;
    var w := Step(m.world, op, Answered(m.world, op, env));
    if !Asks(m.world, op, env) then m.(world := w)
    else if Answered(m.world, op, env).saved then Machine(w.(payloads := w.payloads + Written(w.state)), ToSave(w.state))
    else m.(world := w.(payloads := w.payloads + Only(Written(w.state), if env.saved then Written(w.state).Keys else stored)))
  }

  // a multiple delete is one delete after the other, each with a save of its own
  function Singles(request: Request): seq<Request> {
    if request.op.OpDeleteObjects? then Deletes(request.op.bucket, request.op.keys, request.env) else [request]
  }

  function Deletes(bucket: string, keys: seq<string>, env: Env): seq<Request>
    decreases |keys|
  {
    if |keys| == 0 then []
    else [Request(OpDeleteObject(bucket, keys[0]), env)] + Deletes(bucket, keys[1..], NextSave(env))
  }

  function ServeAll(m: Machine, requests: seq<Request>, stored: set<PayloadRef>): Machine
    decreases |requests|
  {
    if |requests| == 0 then m else ServeAll(ServeOne(m, requests[0], stored), requests[1..], stored)
  }

  lemma {:induction false} DeletesAreSingle(bucket: string, keys: seq<string>, env: Env)
    ensures forall i | 0 <= i < |Deletes(bucket, keys, env)| :: Deletes(bucket, keys, env)[i].op.OpDeleteObject?
    ensures forall i | 0 <= i < |Deletes(bucket, keys, env)| :: Deletes(bucket, keys, env)[i].env.now == env.now
    decreases |keys|
  {
    if |keys| > 0 {
      DeletesAreSingle(bucket, keys[1..], NextSave(env));
    }
  }

  // In memory, the single deletes leave exactly what the multiple delete leaves.
  lemma {:induction false} MultipleIsSingles(w: World, bucket: string, keys: seq<string>, quiet: bool, env: Env)
    ensures Run(w, Deletes(bucket, keys, env)) == DeleteObjects(w, bucket, keys, quiet, env).0
    decreases |keys|
  {
    hide TrimSpace, RemoveObject;
    if |keys| > 0 {
      var requests, more := Deletes(bucket, keys, env), Deletes(bucket, keys[1..], NextSave(env));
      assert requests[0] == Request(OpDeleteObject(bucket, keys[0]), env) && requests[1..] == more;
      var w1 := Step(w, requests[0].op, env);
      if CheckedId(w, bucket, keys[0]).Ok? {
        RemovalBuckets(w, CheckedId(w, bucket, keys[0]).value, env);
      }
      MultipleIsSingles(w1, bucket, keys[1..], quiet, NextSave(env));
    }
  }

  lemma RemovalBuckets(w: World, id: ObjectId, env: Env)
    ensures RemoveObject(w, id, env).0.state.buckets == w.state.buckets
  {
    RemovalIs(w, id, env);
    SameBuckets(w.state, id, env.now);
    hide RemoveObject, Blocked, DropObject, RecordMarker;
  }

  lemma SameBuckets(s: State, id: ObjectId, now: nat)
    ensures DropObject(s, id).buckets == s.buckets && DropObject(RecordMarker(s, id, now), id).buckets == s.buckets
  {
  }

  // ---------- restarts ----------

  // Nothing if the service does not start.
  function Restart(m: Machine): Option<Machine> {
    match Load(m.file, m.world.payloads)
    case None => None
    case Some(w) => Some(m.(world := w))
  }

  // A service that dies within a request dies in one whose save fails.
  datatype Event = Requested(request: Request, stored: set<PayloadRef>) | Restarts

  function RunWith(m: Machine, events: seq<Event>): Option<Machine>
    decreases |events|
  {
    if |events| == 0 then Some(m)
    else
      match events[0]
      case Requested(request, stored) => RunWith(ServeAll(m, Singles(request), stored), events[1..])
      case Restarts =>
        match Restart(m)
        case None => None
        case Some(next) => RunWith(next, events[1..])
  }

  // ---------- payloads of a step ----------

  // the payload that a delete takes away, before it asks for a save
  function Drops(w: World, op: Op, env: Env): set<PayloadRef> {
    if op.OpDeleteObject? && CheckedId(w, op.bucket, op.key).Ok? then
      var id := CheckedId(w, op.bucket, op.key).value;
      if !(id in w.state.objects && Blocked(w.state, id, env.now)) && id.bucket !in w.state.versioning then Dead(w, id) else {}
    else {}
  }

  ghost predicate PayloadsFollow(before: map<PayloadRef, Bytes>, after: map<PayloadRef, Bytes>, dropped: set<PayloadRef>) {
    && (Addressed(before) ==> Addressed(after))
    && (forall ref | ref in before && ref !in dropped :: ref in after)
    && (forall ref | ref in dropped :: ref !in after)
  }

  lemma StoreFollows(w: World, id: ObjectId, body: Bytes)
    ensures PayloadsFollow(w.payloads, StorePayload(w, id, body).payloads, {})
  {
  }

  lemma PayloadsStep(w: World, op: Op, env: Env)
    requires !op.OpDeleteObjects?
    ensures PayloadsFollow(w.payloads, Step(w, op, env).payloads, Drops(w, op, env))
  {
    if Quiet(op) {
      QuietLeaves(w, op, env);
    } else {
      hide TrimSpace, CheckedId, Blocked, Reprotected, CopyProtection, ClearProtection, ApplyDefaultRetention, Upsert, RecordVersion,
        FreshObject, Normalized, Completed, PayloadsFollow, RequireBucket, BucketEmpty, DropBucket, DropObject, RecordMarker, Hint;
      assert PayloadsFollow(w.payloads, w.payloads, {}) by {
        NothingMoves(w.payloads);
      }
      match op
      case OpPutObject(bucket, key, body, contentType, metadata, headers) =>
        if CheckedId(w, bucket, key).Ok? {
          StoreFollows(w, CheckedId(w, bucket, key).value, body);
        }
      case OpCopyObject(bucket, key, sourceBucket, sourceKey, directive, metadata) =>
        CopyFollows(w, bucket, key, sourceBucket, sourceKey, directive, metadata, env);
      case OpDeleteObject(bucket, key) =>
        if CheckedId(w, bucket, key).Ok? {
          RemovalIs(w, CheckedId(w, bucket, key).value, env);
          DropFollows(w.payloads, Dead(w, CheckedId(w, bucket, key).value));
        }
      case _ =>
    }
  }

  lemma NothingMoves(payloads: map<PayloadRef, Bytes>)
    ensures PayloadsFollow(payloads, payloads, {})
  {
  }

  lemma DropFollows(payloads: map<PayloadRef, Bytes>, dead: set<PayloadRef>)
    ensures PayloadsFollow(payloads, payloads - dead, dead)
  {
  }

  lemma CopyFollows(w: World, bucket: string, key: string, sourceBucket: string, sourceKey: string,
                    directive: string, metadata: map<string, string>, env: Env)
    ensures PayloadsFollow(w.payloads, CopyObject(w, bucket, key, sourceBucket, sourceKey, directive, metadata, env).0.payloads, {})
  {
    NothingMoves(w.payloads);
    hide TrimSpace, CheckedId, SourceBytes, FreshObject, Normalized, Blocked, PayloadsFollow, ResolvedMetadata, CopyTo;
    var to, from := CheckedId(w, bucket, key), CheckedId(w, sourceBucket, sourceKey);
    if to.Ok? && from.Ok? && from.value in w.state.objects && SourceBytes(w, w.state.objects[from.value]).Some? {
      var source := w.state.objects[from.value];
      CopyToPayloads(w, to.value, from.value, SourceBytes(w, source).value, source.contentType,
                     ResolvedMetadata(source.metadata, directive, metadata), source.headers, env);
    }
  }

  lemma CopyToPayloads(w: World, id: ObjectId, from: ObjectId, body: Bytes, contentType: string,
                       metadata: map<string, string>, headers: map<string, string>, env: Env)
    ensures PayloadsFollow(w.payloads, CopyTo(w, id, from, body, contentType, metadata, headers, env).payloads, {})
  {
    StoreFollows(w, id, body);
    hide PayloadsFollow, CopyProtection, ClearProtection, ApplyDefaultRetention, Upsert, RecordVersion, FreshObject;
  }

  lemma GrowsLike(w: World, v: World, more: map<PayloadRef, Bytes>)
    requires Like(w, v) && Addressed(v.payloads) && Addressed(more)
    ensures Like(w, v.(payloads := v.payloads + more)) && Addressed(v.payloads + more)
  {
    var v' := v.(payloads := v.payloads + more);
    hide Hint, Bares;
    assert forall ref | ref in v.payloads :: ref in v'.payloads && v'.payloads[ref] == v.payloads[ref];
    forall id | id in w.state.objects ensures Kept(w, v', id) {
      assert Kept(w, v, id);
    }
  }

  lemma WrittenAddressed(s: State, refs: set<PayloadRef>)
    ensures Addressed(Written(s)) && Addressed(Only(Written(s), refs))
  {
    hide Filled, Unreferenced, PayloadRefFor;
  }

  // ---------- the service and one that never loses bytes ----------

  // what a request does in memory
  function After(w: World, op: Op, env: Env): World {
    Step(w, op, Answered(w, op, env))
  }

  function Reply(w: World, op: Op, env: Env): Outcome {
    Respond(w, op, Answered(w, op, env)).1
  }

  lemma AnsweredAlike(w: World, v: World, op: Op, env: Env)
    requires Inv(w) && Dated(w.state) && Like(w, v) && env.now > 0
    ensures Answered(v, op, env) == Answered(w, op, env) && Asks(v, op, env) == Asks(w, op, env)
    ensures Like(After(w, op, env), After(v, op, env)) && Reply(v, op, env) == Reply(w, op, env)
    ensures ToSave(After(v, op, env).state) == ToSave(After(w, op, env).state)
    ensures Inv(After(w, op, env)) && Dated(After(w, op, env).state)
  {
    hide Inv, Dated, Like, Step, Respond, ToSave, Validated;
    StepLike(w, v, op, env.(saved := false));
    StepLike(w, v, op, env);
    StepKeeps(w, op, env);
    StepDated(w, op, env);
    SavedAlike(Step(w, op, env), Step(v, op, env));
    var answered := Answered(w, op, env);
    StepLike(w, v, op, answered);
    StepKeeps(w, op, answered);
    StepDated(w, op, answered);
    SavedAlike(Step(w, op, answered), Step(v, op, answered));
  }

  // A service serves every request like a world that it is like, and writes the file that this world would.
  lemma ServedLike(w: World, m: Machine, request: Request, stored: set<PayloadRef>)
    requires Inv(w) && Dated(w.state) && Like(w, m.world) && Addressed(m.world.payloads)
    requires request.env.now > 0 && !request.op.OpDeleteObjects?
    ensures var op, env := request.op, request.env;
      var w', m' := After(w, op, env), ServeOne(m, request, stored);
      && Inv(w') && Dated(w'.state) && Like(w', m'.world) && Addressed(m'.world.payloads)
      && (if Saves(w, op, env) then m'.file == ToSave(w'.state) && Validated(m'.file) else m'.file == m.file)
      && Reply(m.world, op, env) == Reply(w, op, env) && Saves(m.world, op, env) == Saves(w, op, env)
  {
    hide Inv, Dated, Like, Step, Respond, ToSave, Validated, Asks, Written, Addressed, PayloadsFollow;
    var op, env := request.op, request.env;
    AnsweredAlike(w, m.world, op, env);
    var v := After(m.world, op, env);
    PayloadsStep(m.world, op, Answered(m.world, op, env));
    StaysAddressed(m.world.payloads, v.payloads, Drops(m.world, op, Answered(m.world, op, env)));
    WrittenAddressed(v.state, if env.saved then Written(v.state).Keys else stored);
    GrowsLike(After(w, op, env), v, Written(v.state));
    GrowsLike(After(w, op, env), v, Only(Written(v.state), if env.saved then Written(v.state).Keys else stored));
    if Saves(w, op, env) {
      assert Answered(w, op, env) == env;
    }
  }

  lemma StaysAddressed(before: map<PayloadRef, Bytes>, after: map<PayloadRef, Bytes>, dropped: set<PayloadRef>)
    requires PayloadsFollow(before, after, dropped) && Addressed(before)
    ensures Addressed(after)
  {
    hide Addressed;
  }

  // ---------- the ledger: the world as it is, and as it was at the last accepted save ----------

  datatype Ledger = Ledger(world: World, saved: World)

  const BLANK: Ledger := Ledger(EMPTY, EMPTY)

  function Book(r: Ledger, request: Request): Ledger {
    var w := After(r.world, request.op, request.env);
    Ledger(w, if Saves(r.world, request.op, request.env) then w else r.saved)
  }

  function BookAll(r: Ledger, requests: seq<Request>): Ledger
    decreases |requests|
  {
    if |requests| == 0 then r else BookAll(Book(r, requests[0]), requests[1..])
  }

  ghost predicate Sane(w: World) {
    Inv(w) && Dated(w.state)
  }

  // The service is like the world of the ledger, and its file is the one of the world last saved.
  ghost predicate Matches(m: Machine, r: Ledger) {
    && Sane(r.world) && Sane(r.saved)
    && Like(r.world, m.world) && Addressed(m.world.payloads)
    && m.file == ToSave(r.saved.state) && Validated(m.file)
    && r.saved.state.history <= r.world.state.history
    && VersionsOpen(m.file, m.world.payloads)
  }

  // the payloads of the versions of a world that has just been saved are there
  lemma VersionsOpenSaved(w: World, v: World)
    requires Sane(w) && Like(w, v)
    ensures VersionsOpen(ToSave(w.state), v.payloads)
  {
    hide *;
    SaneParts(w);
    FileHistory(w);
    var f, bares := ToSave(w.state).history, Bares(w.state.history);
    StableSort.SameElements(f, bares);
    LikeVersions(w, v);
    forall r | r in f && r.ref != NoRef ensures r.ref in v.payloads {
      var k :| 0 <= k < |bares| && bares[k] == r;
      var i := CounterpartBack(w, v, k);
      VersionAt(w, v, i);
      SameRef(w.state.history[k], v.state.history[i]);
      SameRef(r, w.state.history[k]);
    }
    VersionsOpenParts(ToSave(w.state), v.payloads);
  }

  lemma SaneParts(w: World)
    requires Sane(w)
    ensures Inv(w) && Dated(w.state)
  {
  }

  lemma LikeVersions(w: World, v: World)
    requires Like(w, v)
    ensures VersionsKept(w, v)
  {
  }

  lemma VersionAt(w: World, v: World, i: nat)
    requires VersionsKept(w, v) && i < |v.state.history|
    ensures v.state.history[i].ref != NoRef ==> v.state.history[i].ref in v.payloads
  {
    hide Bares, Hint;
  }

  lemma SameRef(q: VersionRecord, r: VersionRecord)
    requires Bare(q) == Bare(r) || q == Bare(r)
    ensures q.ref == r.ref
  {
  }

  lemma VersionsOpenParts(file: State, payloads: map<PayloadRef, Bytes>)
    requires forall r | r in file.history && r.ref != NoRef :: r.ref in payloads
    ensures VersionsOpen(file, payloads)
  {
  }

  // No delete takes the payload of a version: versions are in buckets with a versioning setting, where payloads stay.
  lemma VersionsNotDropped(m: Machine, r: Ledger, op: Op, env: Env)
    requires Matches(m, r)
    ensures forall x | x in m.file.history && x.ref != NoRef :: x.ref !in Drops(m.world, op, env)
  {
    hide *;
    MatchesParts(m, r);
    SaneParts(r.world);
    SaneParts(r.saved);
    if Drops(m.world, op, env) != {} {
      var id := DroppedOne(m.world, op, env);
      DroppedIsTidy(r.world, m.world, op, env, id);
      FileHistory(r.saved);
      var bares := Bares(r.saved.state.history);
      StableSort.SameElements(m.file.history, bares);
      forall x | x in m.file.history && x.ref != NoRef ensures x.ref !in Drops(m.world, op, env) {
        var k :| 0 <= k < |bares| && bares[k] == x;
        assert r.world.state.history[k] == r.saved.state.history[k];
        SameRef(x, r.world.state.history[k]);
        OtherThanVersion(r.world, m.world, k, id);
      }
    }
  }

  lemma MatchesParts(m: Machine, r: Ledger)
    requires Matches(m, r)
    ensures Sane(r.world) && Sane(r.saved) && Like(r.world, m.world) && Addressed(m.world.payloads)
    ensures m.file == ToSave(r.saved.state) && Validated(m.file)
    ensures r.saved.state.history <= r.world.state.history && VersionsOpen(m.file, m.world.payloads)
  {
  }

  lemma DroppedOne(w: World, op: Op, env: Env) returns (id: ObjectId)
    requires Drops(w, op, env) != {}
    ensures op.OpDeleteObject? && CheckedId(w, op.bucket, op.key) == Ok(id)
    ensures id in w.state.objects && id.bucket !in w.state.versioning && w.state.objects[id].ref != NoRef
    ensures Drops(w, op, env) == {w.state.objects[id].ref}
  {
    hide CheckedId, Blocked;
    id := CheckedId(w, op.bucket, op.key).value;
  }

  lemma DroppedIsTidy(w: World, v: World, op: Op, env: Env, id: ObjectId)
    requires Inv(w) && Like(w, v) && op.OpDeleteObject? && CheckedId(v, op.bucket, op.key) == Ok(id) && id in v.state.objects
    ensures ProperId(id) && id in w.state.objects && w.state.versioning == v.state.versioning
    ensures var p := v.state.objects[id]; Tidy(v.payloads, id, p.ref, p.body)
  {
    LikeChecks(w, v, op.bucket, op.key);
    KnownId(w, op.bucket, op.key);
    LikeKeys(w, v);
    LikeAt(w, v, id);
    hide Inv, ProperId, CheckedId, Tidy, ObjectsKept, VersionsKept;
  }

  lemma OtherThanVersion(w: World, v: World, k: nat, id: ObjectId)
    requires Inv(w) && k < |w.state.history| && w.state.history[k].ref != NoRef
    requires ProperId(id) && id in v.state.objects && id.bucket !in w.state.versioning
    requires var p := v.state.objects[id]; p.ref != NoRef && Tidy(v.payloads, id, p.ref, p.body)
    ensures v.state.objects[id].ref != w.state.history[k].ref
  {
    RecordOpens(w, k);
    assert Holds(w, HistoryClause);
    var q := w.state.history[k];
    assert ProperId(RecordIdOf(q)) && q.bucket in w.state.versioning;
    hide Inv, ProperId;
    HintTells(id, RecordIdOf(q));
  }

  lemma VersionsStayOpen(m: Machine, r: Ledger, request: Request, stored: set<PayloadRef>)
    requires Matches(m, r) && !request.op.OpDeleteObjects?
    requires ServeOne(m, request, stored).file == m.file
    ensures VersionsOpen(m.file, ServeOne(m, request, stored).world.payloads)
  {
    hide *;
    MatchesParts(m, r);
    var answered := Answered(m.world, request.op, request.env);
    VersionsNotDropped(m, r, request.op, answered);
    PayloadsServed(m, request, stored);
    VersionsAre(m.file, m.world.payloads);
    VersionsOpenParts(m.file, ServeOne(m, request, stored).world.payloads);
  }

  lemma VersionsAre(file: State, payloads: map<PayloadRef, Bytes>)
    requires VersionsOpen(file, payloads)
    ensures forall r | r in file.history && r.ref != NoRef :: r.ref in payloads
  {
  }

  lemma PayloadsServed(m: Machine, request: Request, stored: set<PayloadRef>)
    requires !request.op.OpDeleteObjects?
    ensures var answered := Answered(m.world, request.op, request.env);
      forall ref | ref in m.world.payloads && ref !in Drops(m.world, request.op, answered) ::
        ref in ServeOne(m, request, stored).world.payloads
  {
    hide Step, Drops, Asks, Answered, Written, ToSave, Addressed;
    PayloadsStep(m.world, request.op, Answered(m.world, request.op, request.env));
  }

  // Every request keeps the service and the ledger together, and is answered as the ledger says.
  lemma BookMatches(m: Machine, r: Ledger, request: Request, stored: set<PayloadRef>)
    requires Matches(m, r) && request.env.now > 0 && !request.op.OpDeleteObjects?
    ensures Matches(ServeOne(m, request, stored), Book(r, request))
    ensures Reply(m.world, request.op, request.env) == Reply(r.world, request.op, request.env)
  {
    hide *;
    MatchesParts(m, r);
    SaneParts(r.world);
    var op, env := request.op, request.env;
    ServedLike(r.world, m, request, stored);
    S3Effects.StepHistory(r.world, op, Answered(r.world, op, env));
    BookIs(r, request);
    var m', r' := ServeOne(m, request, stored), Book(r, request);
    IsSane(r'.world);
    if Saves(r.world, op, env) {
      VersionsOpenSaved(r'.world, m'.world);
    } else {
      VersionsStayOpen(m, r, request, stored);
    }
    MatchesWhole(m', r');
  }

  lemma IsSane(w: World)
    requires Inv(w) && Dated(w.state)
    ensures Sane(w)
  {
  }

  lemma BookIs(r: Ledger, request: Request)
    ensures Book(r, request).world == After(r.world, request.op, request.env)
    ensures Book(r, request).world == Step(r.world, request.op, Answered(r.world, request.op, request.env))
    ensures Book(r, request).saved == if Saves(r.world, request.op, request.env) then Book(r, request).world else r.saved
  {
    hide Step, Saves, Answered;
  }

  lemma MatchesWhole(m: Machine, r: Ledger)
    requires Sane(r.world) && Sane(r.saved) && Like(r.world, m.world) && Addressed(m.world.payloads)
    requires m.file == ToSave(r.saved.state) && Validated(m.file)
    requires r.saved.state.history <= r.world.state.history && VersionsOpen(m.file, m.world.payloads)
    ensures Matches(m, r)
  {
  }

  // ---------- when a restart succeeds ----------

  // A service starts again exactly if the payload of each object in its file is still there (the bootstrap object has no
  // need of its own): those of the versions always are.
  lemma RestartIff(m: Machine, r: Ledger)
    requires Matches(m, r)
    ensures Restart(m).Some? <==> ObjectsOpen(m.file, m.world.payloads)
  {
    hide *;
    MatchesParts(m, r);
    SaneParts(r.saved);
    FileClean(r.saved);
    LoadsIff(m.file, m.world.payloads);
    RestartIs(m);
  }

  lemma RestartIs(m: Machine)
    ensures Restart(m).Some? <==> Load(m.file, m.world.payloads).Some?
    ensures Restart(m).Some? ==>
      Restart(m).value == Machine(Load(m.file, m.world.payloads).value, m.file)
      && Restart(m).value.world.payloads == m.world.payloads && Restart(m).value.world.uploads == map[]
  {
    hide Validated, LoadedState, LoadedObject, LoadedRecord, Normal;
  }

  // A delete that takes away a payload which the file names, and is not saved. (It is then reported as failed.)
  predicate Breaks(m: Machine, request: Request) {
    var op, env := request.op, request.env;
    && op.OpDeleteObject? && CheckedId(m.world, op.bucket, op.key).Ok?
    && var id := CheckedId(m.world, op.bucket, op.key).value;
    && id in m.world.state.objects && !Blocked(m.world.state, id, env.now) && id.bucket !in m.world.state.versioning
    && id != BOOTSTRAP && id in m.file.objects && m.file.objects[id].ref == m.world.state.objects[id].ref
    && !Saves(m.world, op, env)
  }

  // After an accepted save the service starts again, whatever was before; after any other request it starts again as
  // before, except exactly after such a delete.
  lemma BreaksIff(m: Machine, r: Ledger, request: Request, stored: set<PayloadRef>)
    requires Matches(m, r) && request.env.now > 0 && !request.op.OpDeleteObjects?
    ensures Saves(m.world, request.op, request.env) ==> Restart(ServeOne(m, request, stored)).Some?
    ensures Restart(m).Some? ==> (Restart(ServeOne(m, request, stored)).Some? <==> !Breaks(m, request))
  {
    hide *;
    var m', r' := ServeOne(m, request, stored), Book(r, request);
    BookMatches(m, r, request, stored);
    RestartIff(m, r);
    RestartIff(m', r');
    MatchesParts(m, r);
    SaneParts(r.world);
    ServedLike(r.world, m, request, stored);
    if Saves(m.world, request.op, request.env) {
      SavedOpens(m, r, request, stored);
      OpenObjects(m'.file, m'.world.payloads);
      SavedBreaksNothing(m, request);
    } else if Breaks(m, request) {
      BrokenByDelete(m, r, request, stored);
    } else if Restart(m).Some? {
      StaysOpen(m, r, request, stored);
    }
  }

  lemma SavedBreaksNothing(m: Machine, request: Request)
    requires Saves(m.world, request.op, request.env)
    ensures !Breaks(m, request)
  {
    hide Saves, CheckedId, Blocked;
  }

  // what a save stores is there for the next start
  lemma SavedOpens(m: Machine, r: Ledger, request: Request, stored: set<PayloadRef>)
    requires Matches(m, r) && request.env.now > 0 && !request.op.OpDeleteObjects?
    requires Saves(m.world, request.op, request.env)
    ensures AllOpen(ServeOne(m, request, stored).file, ServeOne(m, request, stored).world.payloads)
  {
    hide *;
    MatchesParts(m, r);
    SaneParts(r.world);
    ServedLike(r.world, m, request, stored);
    AnsweredAlike(r.world, m.world, request.op, request.env);
    SavedIs(m, request, stored);
    var w, v := After(r.world, request.op, request.env), After(m.world, request.op, request.env);
    var file, payloads := ToSave(w.state), SavedPayloads(v);
    FileKeys(w);
    forall id | id in file.objects ensures file.objects[id].ref in payloads {
      FileObject(w, id);
      ObjectSavedAlike(w, v, id);
      LikeKeys(w, v);
      ObjectComplete(w, v, id);
      FileObjectValid(file, id);
      SavedRefOpens(v, id);
    }
    AllOpenParts(file, payloads);
  }

  // every payload that the file names is there, the one of the bootstrap object included
  ghost predicate AllOpen(file: State, payloads: map<PayloadRef, Bytes>) {
    forall id | id in file.objects :: file.objects[id].ref in payloads
  }

  lemma AllOpenParts(file: State, payloads: map<PayloadRef, Bytes>)
    requires forall id | id in file.objects :: file.objects[id].ref in payloads
    ensures AllOpen(file, payloads)
  {
  }

  lemma OpenObjects(file: State, payloads: map<PayloadRef, Bytes>)
    requires AllOpen(file, payloads)
    ensures ObjectsOpen(file, payloads)
  {
  }

  lemma ObjectsOpenParts(file: State, payloads: map<PayloadRef, Bytes>)
    requires forall id | id in file.objects && id != BOOTSTRAP :: file.objects[id].ref in payloads
    ensures ObjectsOpen(file, payloads)
  {
  }

  lemma FileObjectValid(file: State, id: ObjectId)
    requires Validated(file) && id in file.objects
    ensures file.objects[id].ref != NoRef || |file.objects[id].body| > 0
  {
    assert ValidObject(file, file.objects[id]);
    hide Validated;
  }

  lemma SavedIs(m: Machine, request: Request, stored: set<PayloadRef>)
    requires Saves(m.world, request.op, request.env)
    ensures var v := After(m.world, request.op, request.env);
      ServeOne(m, request, stored) == Machine(v.(payloads := SavedPayloads(v)), ToSave(v.state))
  {
    hide Step, Answered, Asks, ToSave, Written;
  }

  lemma SavedRefOpens(v: World, id: ObjectId)
    requires id in v.state.objects && Complete(v, id, v.state.objects[id])
    requires var p := SavedObject(v.state.objects[id]); p.ref != NoRef || |p.body| > 0
    ensures SavedObject(v.state.objects[id]).ref in SavedPayloads(v)
  {
    hide SavedPayloads, BootstrapBody, Hint, TrimSpace, FilledIn, FallbackDate;
    var o := v.state.objects[id];
    if o.ref == NoRef {
      SavedPayloadsHold(v, id);
    } else {
      SavedPayloadsMore(v, o.ref);
    }
  }

  lemma SavedPayloadsMore(v: World, ref: PayloadRef)
    requires ref in v.payloads
    ensures ref in SavedPayloads(v)
  {
    hide Written;
  }

  // the delete takes the payload away for good: no save stores it again
  lemma BrokenByDelete(m: Machine, r: Ledger, request: Request, stored: set<PayloadRef>)
    requires Matches(m, r) && request.env.now > 0 && Breaks(m, request)
    ensures !ObjectsOpen(ServeOne(m, request, stored).file, ServeOne(m, request, stored).world.payloads)
  {
    hide *;
    var op, env := request.op, request.env;
    var answered := Answered(m.world, op, env);
    var v := After(m.world, op, env);
    var id := BrokenOne(m, request);
    var ref := m.file.objects[id].ref;
    MatchesParts(m, r);
    SaneParts(r.world);
    SaneParts(r.saved);
    FileObject(r.saved, id);
    ObjectHasBytes(r.saved, id);
    FileObjectValid(m.file, id);
    RefTold(r.saved, id);
    AnsweredAlike(r.world, m.world, op, env);
    DroppedIsTidy(r.world, m.world, op, answered, id);
    AfterIs(m.world, op, env);
    DropGone(m.world, op, answered, id);
    PayloadsStep(m.world, op, answered);
    FollowsOut(m.world.payloads, v.payloads, Drops(m.world, op, answered));
    NotWritten(After(r.world, op, env), v, id, ref);
    RefusedIs(m, request, stored);
    ObjectsClosed(m.file, ServeOne(m, request, stored).world.payloads, id);
  }

  lemma AfterIs(w: World, op: Op, env: Env)
    ensures After(w, op, env) == Step(w, op, Answered(w, op, env)) && Answered(w, op, env).now == env.now
  {
    hide Step, ToSave, Validated;
  }

  lemma FollowsOut(before: map<PayloadRef, Bytes>, after: map<PayloadRef, Bytes>, dropped: set<PayloadRef>)
    requires PayloadsFollow(before, after, dropped)
    ensures forall ref | ref in dropped :: ref !in after
    ensures forall ref | ref in before && ref !in dropped :: ref in after
  {
    hide Addressed;
  }

  lemma ObjectsClosed(file: State, payloads: map<PayloadRef, Bytes>, id: ObjectId)
    requires id in file.objects && id != BOOTSTRAP && file.objects[id].ref !in payloads
    ensures !ObjectsOpen(file, payloads)
  {
  }

  lemma BrokenOne(m: Machine, request: Request) returns (id: ObjectId)
    requires Breaks(m, request)
    ensures request.op.OpDeleteObject? && CheckedId(m.world, request.op.bucket, request.op.key) == Ok(id)
    ensures id in m.world.state.objects && !Blocked(m.world.state, id, request.env.now) && id.bucket !in m.world.state.versioning
    ensures id != BOOTSTRAP && id in m.file.objects && m.file.objects[id].ref == m.world.state.objects[id].ref
    ensures !Saves(m.world, request.op, request.env)
  {
    hide CheckedId, Blocked, Saves;
    id := CheckedId(m.world, request.op.bucket, request.op.key).value;
  }

  // the reference of an object in the file tells its name
  lemma RefTold(w: World, id: ObjectId)
    requires Inv(w) && Dated(w.state) && Validated(ToSave(w.state)) && id in w.state.objects && id != BOOTSTRAP
    ensures id in ToSave(w.state).objects && ProperId(id)
    ensures ToSave(w.state).objects[id].ref.Ref? && ToSave(w.state).objects[id].ref.hint == Hint(id)
  {
    hide *;
    KnownObject(w, id);
    ObjectHasBytes(w, id);
  }

  lemma DropGone(w: World, op: Op, env: Env, id: ObjectId)
    requires op.OpDeleteObject? && CheckedId(w, op.bucket, op.key) == Ok(id)
    requires id in w.state.objects && !Blocked(w.state, id, env.now) && id.bucket !in w.state.versioning
    ensures w.state.objects[id].ref != NoRef ==> w.state.objects[id].ref in Drops(w, op, env)
    ensures id !in Step(w, op, env).state.objects
  {
    RemovalIs(w, id, env);
    hide CheckedId, Blocked, RemoveObject;
  }

  lemma NotWritten(w: World, v: World, id: ObjectId, ref: PayloadRef)
    requires Inv(w) && Like(w, v) && id !in v.state.objects && ProperId(id) && ref.Ref? && ref.hint == Hint(id)
    ensures ref !in Written(v.state)
  {
    LikeKeys(w, v);
    hide Inv, Like, Filled, Unreferenced, ProperId, Hint, TrimSpace;
    if ref in Written(v.state) {
      var x :| x in v.state.objects && Unreferenced(v.state.objects[x])
        && ref == PayloadRefFor(Hint(x), Filled(v.state.objects[x]).body);
      KnownObject(w, x);
      HintTells(x, id);
    }
  }

  lemma RefusedIs(m: Machine, request: Request, stored: set<PayloadRef>)
    requires !Saves(m.world, request.op, request.env)
    ensures var v, m' := After(m.world, request.op, request.env), ServeOne(m, request, stored);
      && m'.file == m.file && forall ref | ref in m'.world.payloads :: ref in v.payloads || ref in Written(v.state)
  {
    hide Step, Answered, Asks, ToSave, Written;
  }

  // Every other request that is not saved leaves what the file names.
  lemma StaysOpen(m: Machine, r: Ledger, request: Request, stored: set<PayloadRef>)
    requires Matches(m, r) && request.env.now > 0 && !request.op.OpDeleteObjects?
    requires !Saves(m.world, request.op, request.env) && !Breaks(m, request) && ObjectsOpen(m.file, m.world.payloads)
    ensures ObjectsOpen(ServeOne(m, request, stored).file, ServeOne(m, request, stored).world.payloads)
  {
    hide *;
    var op, env := request.op, request.env;
    var answered, payloads := Answered(m.world, op, env), ServeOne(m, request, stored).world.payloads;
    MatchesParts(m, r);
    SaneParts(r.world);
    SaneParts(r.saved);
    RefusedIs(m, request, stored);
    PayloadsServed(m, request, stored);
    FileKeys(r.saved);
    AfterIs(m.world, op, env);
    forall id | id in m.file.objects && id != BOOTSTRAP ensures m.file.objects[id].ref in payloads {
      ObjectOpens(m.file, m.world.payloads, id);
      RefTold(r.saved, id);
      if m.file.objects[id].ref in Drops(m.world, op, answered) {
        var gone := DroppedOne(m.world, op, answered);
        DroppedIsTidy(r.world, m.world, op, answered, gone);
        SameName(m.world.payloads, gone, m.world.state.objects[gone], id, m.file.objects[id].ref);
        NotBroken(m, request, id);
      }
    }
    ObjectsOpenParts(m.file, payloads);
  }

  lemma ObjectOpens(file: State, payloads: map<PayloadRef, Bytes>, id: ObjectId)
    requires ObjectsOpen(file, payloads) && id in file.objects && id != BOOTSTRAP
    ensures file.objects[id].ref in payloads
  {
  }

  lemma SameName(payloads: map<PayloadRef, Bytes>, gone: ObjectId, p: Object, id: ObjectId, ref: PayloadRef)
    requires ProperId(gone) && ProperId(id) && p.ref != NoRef && Tidy(payloads, gone, p.ref, p.body)
    requires ref == p.ref && ref.Ref? && ref.hint == Hint(id)
    ensures gone == id
  {
    hide ProperId;
    HintTells(gone, id);
  }

  lemma NotBroken(m: Machine, request: Request, id: ObjectId)
    requires !Breaks(m, request) && !Saves(m.world, request.op, request.env)
    requires request.op.OpDeleteObject? && CheckedId(m.world, request.op.bucket, request.op.key) == Ok(id)
    requires Drops(m.world, request.op, Answered(m.world, request.op, request.env)) != {}
    requires id != BOOTSTRAP && id in m.file.objects
    ensures m.file.objects[id].ref != m.world.state.objects[id].ref
  {
    hide Saves, CheckedId, Step, ToSave, Validated;
  }

  // ---------- what a restart brings back ----------

  // the ledger of a service that goes back to the last accepted save, and of one that only forgets its uploads
  function RolledBack(r: Ledger): Ledger {
    r.(world := r.saved.(uploads := map[]))
  }

  function Forgotten(r: Ledger): Ledger {
    r.(world := r.world.(uploads := map[]))
  }

  lemma NoUploads(w: World)
    requires Sane(w)
    ensures Sane(w.(uploads := map[]))
  {
    hide Inv;
    UploadsInv(w, map[]);
  }

  // A restart brings back the world last saved, without pending uploads, exactly if the bootstrap object was saved with its
  // first bytes and they are still there.
  lemma RestartRollsBack(m: Machine, r: Ledger)
    requires Matches(m, r) && Restart(m).Some?
    ensures Like(RolledBack(r).world, Restart(m).value.world) <==> Intact(r.saved, m.world.payloads)
    ensures Intact(r.saved, m.world.payloads) ==> Matches(Restart(m).value, RolledBack(r))
  {
    hide *;
    MatchesParts(m, r);
    SaneParts(r.saved);
    RestartIs(m);
    FileClean(r.saved);
    NoUploads(r.saved);
    var m' := Restart(m).value;
    if Like(r.saved.(uploads := map[]), m'.world) {
      LoadedIntact(r.saved.(uploads := map[]), m.file, m.world.payloads);
      IntactIs(r.saved, m.world.payloads);
    }
    if Intact(r.saved, m.world.payloads) {
      LoadsAlike(r.saved, m.world.payloads);
      LedgersAre(r);
      MatchesWhole(m', RolledBack(r));
    }
    LedgersAre(r);
  }

  lemma LedgersAre(r: Ledger)
    ensures RolledBack(r) == Ledger(r.saved.(uploads := map[]), r.saved)
    ensures Forgotten(r) == Ledger(r.world.(uploads := map[]), r.saved)
  {
  }

  lemma IntactIs(w: World, payloads: map<PayloadRef, Bytes>)
    ensures Intact(w.(uploads := map[]), payloads) <==> Intact(w, payloads)
  {
    hide BootstrapBody, Hint;
  }

  // A restart is not seen, but for pending uploads, exactly if saving now would write what the file holds already, and
  // the bootstrap object has its first bytes.
  lemma RestartUnseenIff(m: Machine, r: Ledger)
    requires Matches(m, r) && Restart(m).Some?
    ensures Like(Forgotten(r).world, Restart(m).value.world)
      <==> m.file == ToSave(m.world.state) && Intact(r.world, m.world.payloads)
    ensures m.file == ToSave(m.world.state) && Intact(r.world, m.world.payloads) ==> Matches(Restart(m).value, Forgotten(r))
  {
    hide *;
    MatchesParts(m, r);
    SaneParts(r.world);
    SaneParts(r.saved);
    RestartIs(m);
    FileClean(r.saved);
    NoUploads(r.world);
    LedgersAre(r);
    SavedAlike(r.world, m.world);
    var m', w := Restart(m).value, r.world.(uploads := map[]);
    SaneParts(w);
    if Like(w, m'.world) {
      SavedAlike(w, m'.world);
      SavedAgain(r.saved, m.world.payloads);
      LoadedIntact(w, m.file, m.world.payloads);
      IntactIs(r.world, m.world.payloads);
    }
    if m.file == ToSave(r.world.state) && Intact(r.world, m.world.payloads) {
      LoadsAlike(r.world, m.world.payloads);
      MatchesWhole(m', Forgotten(r));
    }
  }

  // ---------- runs with restarts ----------

  // What a restart does to the ledger: with losses it goes back to the last accepted save, without it only forgets uploads.
  function LedgerWith(r: Ledger, losses: bool, events: seq<Event>): Ledger
    decreases |events|
  {
    if |events| == 0 then r
    else
      match events[0]
      case Requested(request, _) => LedgerWith(BookAll(r, Singles(request)), losses, events[1..])
      case Restarts => LedgerWith(if losses then RolledBack(r) else Forgotten(r), losses, events[1..])
  }

  // Every restart finds the bootstrap object intact and, where nothing may be lost, nothing that is not saved.
  ghost predicate RestartsWell(m: Machine, r: Ledger, losses: bool, events: seq<Event>)
    decreases |events|
  {
    |events| > 0 ==>
      match events[0]
      case Requested(request, stored) =>
        RestartsWell(ServeAll(m, Singles(request), stored), BookAll(r, Singles(request)), losses, events[1..])
      case Restarts =>
        && (if losses then Intact(r.saved, m.world.payloads)
            else m.file == ToSave(m.world.state) && Intact(r.world, m.world.payloads))
        && (Restart(m).Some? ==>
              RestartsWell(Restart(m).value, if losses then RolledBack(r) else Forgotten(r), losses, events[1..]))
  }

  ghost predicate Clocked(events: seq<Event>) {
    forall i | 0 <= i < |events| && events[i].Requested? :: events[i].request.env.now > 0
  }

  ghost predicate ClockedSingles(requests: seq<Request>) {
    forall i | 0 <= i < |requests| :: requests[i].env.now > 0 && !requests[i].op.OpDeleteObjects?
  }

  lemma SinglesClocked(request: Request)
    requires request.env.now > 0
    ensures ClockedSingles(Singles(request))
  {
    if request.op.OpDeleteObjects? {
      DeletesAreSingle(request.op.bucket, request.op.keys, request.env);
    }
  }

  lemma {:induction false} BookAllMatches(m: Machine, r: Ledger, requests: seq<Request>, stored: set<PayloadRef>)
    requires Matches(m, r) && ClockedSingles(requests)
    ensures Matches(ServeAll(m, requests, stored), BookAll(r, requests))
    decreases |requests|
  {
    hide Matches, ServeOne, Book;
    if |requests| > 0 {
      assert forall i | 0 <= i < |requests| - 1 :: requests[1..][i] == requests[i + 1];
      BookMatches(m, r, requests[0], stored);
      BookAllMatches(ServeOne(m, requests[0], stored), Book(r, requests[0]), requests[1..], stored);
    }
  }

  // Over every run with restarts that succeed, the service is like the ledger.
  lemma {:induction false} RunMatches(m: Machine, r: Ledger, losses: bool, events: seq<Event>)
    requires Matches(m, r) && Clocked(events) && RestartsWell(m, r, losses, events) && RunWith(m, events).Some?
    ensures Matches(RunWith(m, events).value, LedgerWith(r, losses, events))
    decreases |events|
  {
    hide Matches, ServeAll, BookAll, Singles, Restart, Intact, ToSave, RolledBack, Forgotten, ClockedSingles;
    if |events| > 0 {
      var more := events[1..];
      assert forall i | 0 <= i < |more| :: more[i] == events[i + 1];
      match events[0]
      case Requested(request, stored) =>
        SinglesClocked(request);
        BookAllMatches(m, r, Singles(request), stored);
        RunMatches(ServeAll(m, Singles(request), stored), BookAll(r, Singles(request)), losses, more);
      case Restarts =>
        RestartRollsBack(m, r);
        RestartUnseenIff(m, r);
        RunMatches(Restart(m).value, if losses then RolledBack(r) else Forgotten(r), losses, more);
    }
  }

  lemma StartMatches()
    ensures Matches(START, BLANK)
  {
    BeginningsHold(0);
    LikeSelf(EMPTY);
    assert ToSave(EMPTY.state) == EMPTY.state by {
      NothingSorted();
    }
    hide Inv, Like;
    assert Dated(EMPTY.state) && Addressed(EMPTY.payloads) && VersionsOpen(EMPTY.state, EMPTY.payloads);
  }

  lemma NothingSorted()
    ensures SavedHistory([]) == []
  {
  }

  // A service that starts, serves requests, stops and starts again, however often, is like one that at each restart goes
  // back to its last accepted save: nothing saved is lost, and nothing is left of what was not.
  lemma RestartsRollBack(events: seq<Event>)
    requires Clocked(events) && RestartsWell(START, BLANK, true, events) && RunWith(START, events).Some?
    ensures Matches(RunWith(START, events).value, LedgerWith(BLANK, true, events))
  {
    hide Matches, RunWith, LedgerWith, RestartsWell;
    StartMatches();
    RunMatches(START, BLANK, true, events);
  }

  // If nothing is left unsaved at its restarts, it is like one that never stops and only forgets its uploads then.
  lemma RestartsUnseen(events: seq<Event>)
    requires Clocked(events) && RestartsWell(START, BLANK, false, events) && RunWith(START, events).Some?
    ensures Matches(RunWith(START, events).value, LedgerWith(BLANK, false, events))
  {
    hide Matches, RunWith, LedgerWith, RestartsWell;
    StartMatches();
    RunMatches(START, BLANK, false, events);
  }

  // ---------- while every save is accepted ----------

  // A request that does not get as far as a save leaves state and payloads alone.
  lemma UnaskedLeaves(w: World, op: Op, env: Env)
    requires !Asks(w, op, env) && !op.OpDeleteObjects?
    ensures Step(w, op, Answered(w, op, env)).state == w.state && Step(w, op, Answered(w, op, env)).payloads == w.payloads
  {
    hide Answered;
    Unasked(w, op, env.(saved := false));
    Unasked(w, op, env.(saved := true));
    AfterIs(w, op, env);
    AnsweredIs(w, op, env);
  }

  lemma AnsweredIs(w: World, op: Op, env: Env)
    ensures Answered(w, op, env) == env.(saved := Answered(w, op, env).saved)
  {
    hide Step, ToSave, Validated;
  }

  lemma Unasked(w: World, op: Op, env: Env)
    requires Respond(w, op, env.(saved := false)).1 != Failed(PersistFailed) && !op.OpDeleteObjects?
    ensures Step(w, op, env).state == w.state && Step(w, op, env).payloads == w.payloads
  {
    hide TrimSpace, CheckedId, RequireBucket, RequireObject, ValidBucketName, Blocked, BucketEmpty, DropBucket, PutTo, CopyTo,
      CompleteTo, SourceBytes, FreshObject, Normalized, Completed, Reduces, UpsertPart, DropObject, RecordMarker, FindUpload;
  }

  // nothing is left unsaved
  ghost predicate Settled(m: Machine, r: Ledger) {
    Matches(m, r) && m.file == ToSave(r.world.state) && Saveable(r.world.state) && AllOpen(m.file, m.world.payloads)
  }

  // the disk works, and the request does not make a state that cannot be saved
  predicate Harmless(w: World, request: Request) {
    request.env.saved && request.env.until > 0 && !Spoils(w, request.op, request.env)
  }

  // such a request is saved if it asks for it
  lemma HarmlessSaves(w: World, request: Request)
    requires Inv(w) && Saveable(w.state) && Harmless(w, request)
    ensures Saveable(Step(w, request.op, request.env).state)
    ensures Answered(w, request.op, request.env) == request.env
    ensures Saves(w, request.op, request.env) <==> Asks(w, request.op, request.env)
  {
    hide *;
    var op, env := request.op, request.env;
    HarmlessParts(w, request);
    StepSaveable(w, op, env);
    StepKeeps(w, op, env);
    SaveAccepts(Step(w, op, env));
    AnswerOf(w, op, env);
    SavesIs(w, op, env);
  }

  lemma SettledStep(m: Machine, r: Ledger, request: Request, stored: set<PayloadRef>)
    requires Settled(m, r) && Harmless(r.world, request) && request.env.now > 0 && !request.op.OpDeleteObjects?
    ensures Settled(ServeOne(m, request, stored), Book(r, request))
  {
    hide *;
    var op, env := request.op, request.env;
    SettledParts(m, r);
    MatchesParts(m, r);
    SaneParts(r.world);
    HarmlessSaves(r.world, request);
    BookIs(r, request);
    BookMatches(m, r, request, stored);
    ServedLike(r.world, m, request, stored);
    var m', r' := ServeOne(m, request, stored), Book(r, request);
    if Asks(r.world, op, env) {
      SavedOpens(m, r, request, stored);
    } else {
      AnsweredAlike(r.world, m.world, op, env);
      UnaskedLeaves(r.world, op, env);
      UnaskedLeaves(m.world, op, env);
      UnaskedServes(m, request, stored);
    }
    SettledWhole(m', r');
  }

  lemma SettledParts(m: Machine, r: Ledger)
    requires Settled(m, r)
    ensures Matches(m, r) && m.file == ToSave(r.world.state) && Saveable(r.world.state) && AllOpen(m.file, m.world.payloads)
  {
  }

  lemma SettledWhole(m: Machine, r: Ledger)
    requires Matches(m, r) && m.file == ToSave(r.world.state) && Saveable(r.world.state) && AllOpen(m.file, m.world.payloads)
    ensures Settled(m, r)
  {
  }

  lemma HarmlessParts(w: World, request: Request)
    requires Harmless(w, request)
    ensures request.env.saved && request.env.until > 0 && !Spoils(w, request.op, request.env)
  {
    hide Spoils;
  }

  lemma AnswerOf(w: World, op: Op, env: Env)
    requires env.saved && Validated(ToSave(Step(w, op, env).state))
    ensures Answered(w, op, env) == env && Answered(w, op, env).saved
  {
    hide Step, ToSave, Validated;
  }

  lemma SavesIs(w: World, op: Op, env: Env)
    ensures Saves(w, op, env) <==> Asks(w, op, env) && Answered(w, op, env).saved
  {
    hide Asks, Answered;
  }

  lemma UnaskedServes(m: Machine, request: Request, stored: set<PayloadRef>)
    requires !Asks(m.world, request.op, request.env)
    ensures ServeOne(m, request, stored).world == Step(m.world, request.op, Answered(m.world, request.op, request.env))
    ensures ServeOne(m, request, stored).file == m.file
  {
    hide Asks, Answered, Step, Written, ToSave;
  }

  lemma {:induction false} SettledSteps(m: Machine, r: Ledger, requests: seq<Request>, stored: set<PayloadRef>)
    requires Settled(m, r) && ClockedSingles(requests) && AllHarmless(r, requests)
    ensures Settled(ServeAll(m, requests, stored), BookAll(r, requests))
    decreases |requests|
  {
    hide Settled, ServeOne, Book, Harmless;
    if |requests| > 0 {
      assert forall i | 0 <= i < |requests| - 1 :: requests[1..][i] == requests[i + 1];
      SettledStep(m, r, requests[0], stored);
      SettledSteps(ServeOne(m, requests[0], stored), Book(r, requests[0]), requests[1..], stored);
    }
  }

  predicate AllHarmless(r: Ledger, requests: seq<Request>)
    decreases |requests|
  {
    |requests| > 0 ==> Harmless(r.world, requests[0]) && AllHarmless(Book(r, requests[0]), requests[1..])
  }

  predicate BootstrapUntouched(w: World) {
    BOOTSTRAP in w.state.objects ==> SourceBytes(w, w.state.objects[BOOTSTRAP]) == Some(BootstrapBody())
  }

  // Every request is harmless, and every restart finds the bootstrap object with its first bytes.
  predicate Peaceful(r: Ledger, events: seq<Event>)
    decreases |events|
  {
    |events| > 0 ==>
      match events[0]
      case Requested(request, _) => AllHarmless(r, Singles(request)) && Peaceful(BookAll(r, Singles(request)), events[1..])
      case Restarts => BootstrapUntouched(r.world) && Peaceful(Forgotten(r), events[1..])
  }

  lemma SettledRestart(m: Machine, r: Ledger)
    requires Settled(m, r) && BootstrapUntouched(r.world)
    ensures Restart(m).Some? && Settled(Restart(m).value, Forgotten(r))
  {
    hide *;
    SettledParts(m, r);
    MatchesParts(m, r);
    SaneParts(r.world);
    SaneParts(r.saved);
    OpenObjects(m.file, m.world.payloads);
    RestartIff(m, r);
    RestartIs(m);
    SavedAlike(r.world, m.world);
    if BOOTSTRAP in r.world.state.objects {
      ObjectHasBytes(r.world, BOOTSTRAP);
      AllOpenAt(m.file, m.world.payloads, BOOTSTRAP);
    }
    UntouchedIntact(r.world, m.world.payloads);
    RestartUnseenIff(m, r);
    LedgersAre(r);
    SettledWhole(Restart(m).value, Forgotten(r));
  }

  lemma AllOpenAt(file: State, payloads: map<PayloadRef, Bytes>, id: ObjectId)
    requires AllOpen(file, payloads) && id in file.objects
    ensures file.objects[id].ref in payloads
  {
  }

  lemma UntouchedIntact(w: World, payloads: map<PayloadRef, Bytes>)
    requires BootstrapUntouched(w)
    requires BOOTSTRAP in w.state.objects ==>
      var bytes := SourceBytes(w, w.state.objects[BOOTSTRAP]);
      bytes.Some? ==> Ref(Hint(BOOTSTRAP), OfBody(bytes.value)) in payloads
    ensures Intact(w, payloads)
  {
    hide SourceBytes, BootstrapBody, Hint;
  }

  lemma {:induction false} SettledRun(m: Machine, r: Ledger, events: seq<Event>)
    requires Settled(m, r) && Clocked(events) && Peaceful(r, events)
    ensures RunWith(m, events).Some? && Settled(RunWith(m, events).value, LedgerWith(r, false, events))
    decreases |events|
  {
    hide Settled, ServeAll, BookAll, Singles, Restart, RolledBack, Forgotten, ClockedSingles, AllHarmless, BootstrapUntouched;
    if |events| > 0 {
      var more := events[1..];
      assert forall i | 0 <= i < |more| :: more[i] == events[i + 1];
      match events[0]
      case Requested(request, stored) =>
        SinglesClocked(request);
        SettledSteps(m, r, Singles(request), stored);
        SettledRun(ServeAll(m, Singles(request), stored), BookAll(r, Singles(request)), more);
      case Restarts =>
        SettledRestart(m, r);
        SettledRun(Restart(m).value, Forgotten(r), more);
    }
  }

  // While the disk works and no request spoils the state, no restart fails and none loses anything but pending uploads:
  // the service is like one that never stops.
  lemma NothingLost(events: seq<Event>)
    requires Clocked(events) && Peaceful(BLANK, events)
    ensures RunWith(START, events).Some?
    ensures Matches(RunWith(START, events).value, LedgerWith(BLANK, false, events))
  {
    StartMatches();
    StartSettled();
    hide *;
    SettledRun(START, BLANK, events);
    SettledParts(RunWith(START, events).value, LedgerWith(BLANK, false, events));
  }

  lemma StartSettled()
    requires Matches(START, BLANK)
    ensures Settled(START, BLANK)
  {
    SaveableMeets(EMPTY.state);
    hide Matches, Saveable;
    MatchesParts(START, BLANK);
  }
}
