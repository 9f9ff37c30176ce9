/** What every reachable S3 state satisfies: references lead somewhere, the version history agrees
    with the live objects, and no reference to a payload dangles. */
module S3Invariants {
  import opened Wrappers
  import opened Strings
  import opened S3Model

  // ---------- names and references ----------

  predicate ProperId(id: ObjectId) {
    && id.bucket != "" && Trimmed(id.bucket) && '/' !in id.bucket
    && id.key != "" && Trimmed(id.key)
  }

  ghost predicate BucketsProper(s: State) {
    forall b | b in s.buckets :: b != "" && Trimmed(b) && '/' !in b && s.buckets[b].region != ""
  }

  ghost predicate ObjectsPlaced(s: State) {
    forall id | id in s.objects ::
      ObjectIdOf(s.objects[id]) == id && ProperId(id) && id.bucket in s.buckets && s.objects[id].contentType != ""
  }

  ghost predicate HistoryPlaced(s: State) {
    forall i | 0 <= i < |s.history| ::
      var r := s.history[i];
      && ProperId(RecordIdOf(r)) && r.bucket in s.versioning && r.body == []
      && (if r.marker then r.contentType == "" && r.size == 0 && r.ref == NoRef else r.contentType != "" && r.etag != NoTag)
  }

  ghost predicate SettingsPlaced(s: State) {
    && s.versioning.Keys <= s.buckets.Keys
    && s.locks.Keys <= s.buckets.Keys
    && (forall id | id in s.configs :: id.bucket in s.buckets)
  }

  // protection, ACLs and tags belong to live objects
  ghost predicate GovernancePlaced(s: State) {
    && s.acls.Keys <= s.objects.Keys
    && s.taggings.Keys <= s.objects.Keys
    && s.retention.Keys <= s.objects.Keys
    && s.holds.Keys <= s.objects.Keys
  }

  ghost predicate UploadsPlaced(w: World) {
    forall u | u in w.uploads ::
      var up := w.uploads[u];
      ProperId(ObjectId(up.bucket, up.key)) && up.bucket in w.state.buckets && up.contentType != ""
  }

  ghost predicate Referential(w: World) {
    && BucketsProper(w.state) && ObjectsPlaced(w.state) && HistoryPlaced(w.state)
    && SettingsPlaced(w.state) && GovernancePlaced(w.state) && UploadsPlaced(w)
  }

  // ---------- version agreement ----------

  function Latest(history: seq<VersionRecord>, id: ObjectId): Option<VersionRecord> {
    if |history| == 0 then None
    else if RecordIdOf(history[|history| - 1]) == id then Some(history[|history| - 1])
    else Latest(history[..|history| - 1], id)
  }

  ghost predicate SequencesRise(history: seq<VersionRecord>) {
    && (forall i, j | 0 <= i < j < |history| :: history[i].sequence < history[j].sequence)
    && (forall i | 0 <= i < |history| :: history[i].sequence > 0)
  }

  // The newest record of a key is a marker exactly if there is no live object; otherwise it describes it.
  ghost predicate Agrees(s: State, id: ObjectId) {
    match Latest(s.history, id)
    case None => true
    case Some(r) =>
      if r.marker then id !in s.objects
      else
        && id in s.objects
        && r.etag == s.objects[id].etag && r.size == s.objects[id].size && r.ref == s.objects[id].ref
  }

  ghost predicate VersionsAgree(s: State) {
    && SequencesRise(s.history)
    && forall id :: Agrees(s, id)
  }

  // ---------- payloads ----------

  // the reference opens to bytes of this size and sum
  ghost predicate Opens(payloads: map<PayloadRef, Bytes>, id: ObjectId, ref: PayloadRef, size: nat, etag: ETag) {
    && ref in payloads
    && ref == Ref(Hint(id), OfBody(payloads[ref]))
    && size == |payloads[ref]|
    && etag == BodyTag(OfBody(payloads[ref]))
  }

  ghost predicate ObjectPayloads(w: World) {
    forall id | id in w.state.objects ::
      var o := w.state.objects[id];
      if o.ref != NoRef then Opens(w.payloads, id, o.ref, o.size, o.etag) && o.body == []
      else o.size == |o.body| && o.etag != NoTag
  }

  ghost predicate RecordPayloads(w: World) {
    forall i | 0 <= i < |w.state.history| ::
      var r := w.state.history[i];
      r.ref != NoRef ==> Opens(w.payloads, RecordIdOf(r), r.ref, r.size, r.etag)
  }

  ghost predicate Sound(w: World) {
    && Referential(w) && VersionsAgree(w.state) && ObjectPayloads(w) && RecordPayloads(w)
  }

  datatype Clause =
    | BucketsClause | ObjectsClause | HistoryClause | SettingsClause | GovernanceClause | UploadsClause
    | VersionsClause | ObjectPayloadsClause | RecordPayloadsClause

  ghost predicate Holds(w: World, c: Clause) {
    match c
    case BucketsClause => BucketsProper(w.state)
    case ObjectsClause => ObjectsPlaced(w.state)
    case HistoryClause => HistoryPlaced(w.state)
    case SettingsClause => SettingsPlaced(w.state)
    case GovernanceClause => GovernancePlaced(w.state)
    case UploadsClause => UploadsPlaced(w)
    case VersionsClause => VersionsAgree(w.state)
    case ObjectPayloadsClause => ObjectPayloads(w)
    case RecordPayloadsClause => RecordPayloads(w)
  }

  // The same as Sound, clause by clause, for proofs that pass it on whole.
  ghost predicate Inv(w: World) {
    forall c :: Holds(w, c)
  }

  lemma Unpack(w: World)
    requires Inv(w)
    ensures Sound(w)
  {
    assert Holds(w, BucketsClause) && Holds(w, ObjectsClause) && Holds(w, HistoryClause);
    assert Holds(w, SettingsClause) && Holds(w, GovernanceClause) && Holds(w, UploadsClause);
    assert Holds(w, VersionsClause) && Holds(w, ObjectPayloadsClause) && Holds(w, RecordPayloadsClause);
  }

  lemma Pack(w: World)
    requires Sound(w)
    ensures Inv(w)
  {
  }

  // ---------- facts about names ----------

  // The hint bucket/key of a proper name is its own trimmed form, and tells the name.
  lemma HintTells(a: ObjectId, b: ObjectId)
    requires ProperId(a) && ProperId(b)
    ensures TrimSpace(Hint(a)) == Hint(a)
    ensures Hint(a) == Hint(b) ==> a == b
  {
    assert Hint(a)[0] == a.bucket[0] && Hint(a)[|Hint(a)| - 1] == a.key[|a.key| - 1];
    if Hint(a) == Hint(b) {
      SlashSplit(a.bucket, a.key, b.bucket, b.key);
    }
  }

  lemma SlashSplit(p: string, s: string, p': string, s': string)
    requires '/' !in p && '/' !in p'
    requires p + "/" + s == p' + "/" + s'
    ensures p == p' && s == s'
  {
    var l, r := p + "/" + s, p' + "/" + s';
    assert l[|p|] == '/' && r[|p'|] == '/';
    assert forall i | 0 <= i < |p| :: l[i] == p[i];
    assert forall i | 0 <= i < |p'| :: r[i] == p'[i];
    assert |p| == |p'|;
    assert p == l[..|p|] && p' == r[..|p|];
    assert s == l[|p| + 1..] && s' == r[|p| + 1..];
  }

  lemma ValidNameProper(name: string)
    requires ValidBucketName(name)
    ensures '/' !in name
  {
  }

  // ---------- facts about the history ----------

  lemma {:induction false} MaxIsUpperBound(history: seq<VersionRecord>)
    ensures forall i | 0 <= i < |history| :: history[i].sequence <= MaxSequence(history)
  {
    if |history| > 0 {
      MaxIsUpperBound(history[..|history| - 1]);
    }
  }

  lemma {:induction false} MaxIsReached(history: seq<VersionRecord>)
    ensures history != [] ==> exists r :: r in history && r.sequence == MaxSequence(history)
  {
    if |history| > 0 {
      var n := |history| - 1;
      MaxIsReached(history[..n]);
      assert history[..n] == [] ==> MaxSequence(history[..n]) == 0;
      assert history[n] in history;
      assert forall r | r in history[..n] :: r in history;
    }
  }

  lemma LatestAfter(history: seq<VersionRecord>, r: VersionRecord, id: ObjectId)
    ensures Latest(history + [r], id) == if RecordIdOf(r) == id then Some(r) else Latest(history, id)
  {
    assert (history + [r])[..|history|] == history;
  }

  lemma AppendRises(history: seq<VersionRecord>, r: VersionRecord)
    requires SequencesRise(history) && r.sequence == NextSequence(history)
    ensures SequencesRise(history + [r])
  {
    MaxIsUpperBound(history);
  }

  // A key has a newest record exactly if it has any.
  lemma {:induction false} LatestExists(history: seq<VersionRecord>, id: ObjectId)
    ensures Latest(history, id).Some? <==> exists i :: 0 <= i < |history| && RecordIdOf(history[i]) == id
    ensures Latest(history, id).Some? ==> Latest(history, id).value in history && RecordIdOf(Latest(history, id).value) == id
  {
    if |history| > 0 && RecordIdOf(history[|history| - 1]) != id {
      LatestExists(history[..|history| - 1], id);
    }
  }

  // The newest record is the one with the largest sequence number.
  lemma {:induction false} LatestHasLargestSequence(history: seq<VersionRecord>, id: ObjectId, i: nat)
    requires SequencesRise(history) && i < |history| && RecordIdOf(history[i]) == id
    ensures Latest(history, id).Some? && history[i].sequence <= Latest(history, id).value.sequence
  {
    var n := |history| - 1;
    if RecordIdOf(history[n]) != id {
      LatestHasLargestSequence(history[..n], id, i);
    }
  }

  // ---------- what requests leave alone ----------

  predicate TouchesNoObject(op: Op) {
    !op.OpPutObject? && !op.OpCopyObject? && !op.OpDeleteObject? && !op.OpDeleteObjects? && !op.OpCompleteUpload?
    && !op.OpPutRetention? && !op.OpPutLegalHold? && !op.OpDeleteBucket?
  }

  lemma NoObjectTouched(w: World, op: Op, env: Env)
    requires TouchesNoObject(op)
    ensures var w' := Step(w, op, env);
      && w'.payloads == w.payloads && w'.state.objects == w.state.objects && w'.state.history == w.state.history
      && w'.state.retention == w.state.retention && w'.state.holds == w.state.holds
  {
    hide TrimSpace, ValidBucketName, CheckedId, RequireBucket, RequireObject, FindUpload, UpsertPart, TypeOr;
  }

  lemma StoreObjectShape(w: World, o: Object, now: nat)
    ensures var s, t := w.state, StoreObject(w, o, now).state;
      && t.objects == s.objects[ObjectIdOf(o) := Normalized(o, now)]
      && t.history == (if o.bucket in s.versioning
                       then s.history + [RecordOf(Normalized(o, now).(body := []), NextSequence(s.history))] else s.history)
      && t.retention == s.retention && t.holds == s.holds && t.locks == s.locks && t.versioning == s.versioning
  {
  }

  // ---------- steps on objects ----------

  // Storing a payload changes no payload that is referred to.
  lemma StorePayloadKeeps(w: World, id: ObjectId, body: Bytes)
    requires Sound(w) && ProperId(id)
    ensures Sound(StorePayload(w, id, body))
    ensures Opens(StorePayload(w, id, body).payloads, id, PayloadRefFor(Hint(id), body), |body|, BodyTag(OfBody(body)))
  {
    HintTells(id, id);
    var w' := StorePayload(w, id, body);
    forall x: ObjectId, ref: PayloadRef, size: nat, etag: ETag | Opens(w.payloads, x, ref, size, etag)
      ensures Opens(w'.payloads, x, ref, size, etag)
    {
    }
  }

  ghost predicate StorableIn(w: World, o: Object) {
    && ProperId(ObjectIdOf(o)) && o.bucket in w.state.buckets && o.contentType != "" && o.etag != NoTag
    && (if o.ref != NoRef then Opens(w.payloads, ObjectIdOf(o), o.ref, o.size, o.etag) && o.body == [] else o.size == |o.body|)
  }

  lemma StoreObjectReferential(w: World, o: Object, now: nat)
    requires Sound(w) && StorableIn(w, o)
    ensures Referential(StoreObject(w, o, now))
  {
    var s, t := w.state, StoreObject(w, o, now).state;
    StoreObjectShape(w, o, now);
    assert t == s.(objects := t.objects, history := t.history);
    assert ObjectIdOf(Normalized(o, now)) == ObjectIdOf(o) && Normalized(o, now).contentType == o.contentType;
    StoreObjectHistory(w, o, now);
    hide StoreObject, Normalized, RecordOf, NextSequence, VersionsAgree, ObjectPayloads, RecordPayloads, HistoryPlaced, ProperId;
    OneMorePlaced(s, t, Normalized(o, now));
    assert UploadsPlaced(StoreObject(w, o, now));
  }

  lemma OneMorePlaced(s: State, t: State, o: Object)
    requires ObjectsPlaced(s) && BucketsProper(s) && SettingsPlaced(s) && GovernancePlaced(s)
    requires t == s.(objects := s.objects[ObjectIdOf(o) := o], history := t.history)
    requires ProperId(ObjectIdOf(o)) && o.bucket in s.buckets && o.contentType != ""
    ensures ObjectsPlaced(t) && BucketsProper(t) && SettingsPlaced(t) && GovernancePlaced(t)
  {
    hide ProperId, Trimmed;
  }

  lemma StoreObjectHistory(w: World, o: Object, now: nat)
    requires HistoryPlaced(w.state) && ProperId(ObjectIdOf(o)) && o.contentType != ""
    ensures HistoryPlaced(StoreObject(w, o, now).state)
  {
    var s, t := w.state, StoreObject(w, o, now).state;
    StoreObjectShape(w, o, now);
    var r := RecordOf(Normalized(o, now).(body := []), NextSequence(s.history));
    assert RecordIdOf(r) == ObjectIdOf(o) && r.body == [] && r.contentType != "" && r.bucket == o.bucket;
    assert t.versioning == s.versioning;
    hide StoreObject, Normalized, RecordOf, NextSequence, ProperId;
    assert t.history == s.history || (o.bucket in s.versioning && t.history == s.history + [r]);
  }

  lemma StoreObjectAgrees(w: World, o: Object, now: nat)
    requires Sound(w) && StorableIn(w, o)
    ensures VersionsAgree(StoreObject(w, o, now).state)
  {
    var s, t, id := w.state, StoreObject(w, o, now).state, ObjectIdOf(o);
    if o.bucket in s.versioning {
      var r := RecordOf(Normalized(o, now).(body := []), NextSequence(s.history));
      assert t.history == s.history + [r];
      AppendRises(s.history, r);
      forall x ensures Agrees(t, x) {
        LatestAfter(s.history, r, x);
        assert Agrees(s, x);
      }
    } else {
      assert t.history == s.history;
      forall x ensures Agrees(t, x) {
        assert Agrees(s, x);
        LatestExists(s.history, x);
      }
    }
  }

  lemma StoreObjectPayloads(w: World, o: Object, now: nat)
    requires Sound(w) && StorableIn(w, o)
    ensures ObjectPayloads(StoreObject(w, o, now)) && RecordPayloads(StoreObject(w, o, now))
  {
    var s, t := w.state, StoreObject(w, o, now).state;
    assert t.objects == s.objects[ObjectIdOf(o) := Normalized(o, now)];
    if o.bucket in s.versioning {
      assert t.history == s.history + [RecordOf(Normalized(o, now).(body := []), NextSequence(s.history))];
    }
  }

  lemma StoreObjectKeeps(w: World, o: Object, now: nat)
    requires Sound(w) && StorableIn(w, o)
    ensures Sound(StoreObject(w, o, now))
    ensures ObjectIdOf(o) in StoreObject(w, o, now).state.objects
  {
    StoreObjectReferential(w, o, now);
    StoreObjectAgrees(w, o, now);
    StoreObjectPayloads(w, o, now);
  }

  // Changing the protection of live objects keeps everything else.
  lemma ProtectionKeeps(w: World, retention: map<ObjectId, Retention>, holds: map<ObjectId, Hold>)
    requires Sound(w)
    requires retention.Keys <= w.state.objects.Keys && holds.Keys <= w.state.objects.Keys
    ensures Sound(w.(state := w.state.(retention := retention, holds := holds)))
  {
    var t := w.state.(retention := retention, holds := holds);
    assert forall id :: Agrees(t, id) <==> Agrees(w.state, id);
  }

  lemma DropReferential(w: World, id: ObjectId)
    requires Referential(w)
    ensures Referential(w.(state := DropObject(w.state, id)))
  {
    assert UploadsPlaced(w.(state := DropObject(w.state, id)));
  }

  lemma MarkReferential(w: World, id: ObjectId, now: nat)
    requires Referential(w) && ProperId(id) && id.bucket in w.state.versioning
    ensures Referential(w.(state := RecordMarker(w.state, id, now)))
  {
    var t := RecordMarker(w.state, id, now);
    assert HistoryPlaced(t);
    assert ObjectsPlaced(t) && UploadsPlaced(w.(state := t));
  }

  lemma MarkedRemovalKeeps(w: World, id: ObjectId, now: nat)
    requires Sound(w) && ProperId(id) && id.bucket in w.state.versioning
    ensures Sound(w.(state := DropObject(RecordMarker(w.state, id, now), id)))
  {
    MarkReferential(w, id, now);
    DropReferential(w.(state := RecordMarker(w.state, id, now)), id);
    MarkedRemovalAgrees(w, id, now);
    var t := DropObject(RecordMarker(w.state, id, now), id);
    assert t.history == w.state.history + [t.history[|w.state.history|]];
  }

  lemma MarkedRemovalAgrees(w: World, id: ObjectId, now: nat)
    requires VersionsAgree(w.state)
    ensures VersionsAgree(DropObject(RecordMarker(w.state, id, now), id))
  {
    var s, t := w.state, DropObject(RecordMarker(w.state, id, now), id);
    var r := t.history[|s.history|];
    assert t.history == s.history + [r] && RecordIdOf(r) == id && r.marker;
    AppendRises(s.history, r);
    forall x ensures Agrees(t, x) {
      LatestAfter(s.history, r, x);
      assert Agrees(s, x);
    }
  }

  lemma PlainRemovalAgrees(w: World, id: ObjectId)
    requires Referential(w) && VersionsAgree(w.state) && id.bucket !in w.state.versioning
    ensures VersionsAgree(DropObject(w.state, id))
  {
    var s, t := w.state, DropObject(w.state, id);
    forall x ensures Agrees(t, x) {
      assert Agrees(s, x);
      LatestExists(s.history, x);
    }
  }

  // Without versioning no record can refer to the payload that goes.
  lemma PlainRemovalKeeps(w: World, id: ObjectId)
    requires Sound(w) && ProperId(id) && id.bucket !in w.state.versioning
    ensures var dead := if id in w.state.objects then {w.state.objects[id].ref} - {NoRef} else {};
      Sound(w.(state := DropObject(w.state, id), payloads := w.payloads - dead))
  {
    hide ProperId, ObjectPayloads, RecordPayloads, VersionsAgree;
    var dead := if id in w.state.objects then {w.state.objects[id].ref} - {NoRef} else {};
    DropReferential(w, id);
    PlainRemovalAgrees(w, id);
    PlainRemovalPayloads(w, id, dead);
  }

  lemma PlainRemovalPayloads(w: World, id: ObjectId, dead: set<PayloadRef>)
    requires Sound(w) && ProperId(id) && id.bucket !in w.state.versioning
    requires dead == if id in w.state.objects then {w.state.objects[id].ref} - {NoRef} else {}
    ensures var w' := w.(state := DropObject(w.state, id), payloads := w.payloads - dead);
      ObjectPayloads(w') && RecordPayloads(w')
  {
    forall x: ObjectId, ref: PayloadRef, size: nat, etag: ETag
      | ProperId(x) && x != id && Opens(w.payloads, x, ref, size, etag)
      ensures Opens(w.payloads - dead, x, ref, size, etag)
    {
      HintTells(x, id);
    }
  }

  // ---------- the invariant, step by step ----------

  lemma KnownObject(w: World, id: ObjectId)
    requires Inv(w) && id in w.state.objects
    ensures ProperId(id) && w.state.objects[id].contentType != "" && ObjectIdOf(w.state.objects[id]) == id
  {
    assert Holds(w, ObjectsClause);
  }

  lemma KnownId(w: World, bucket: string, key: string)
    requires Inv(w) && CheckedId(w, bucket, key).Ok?
    ensures ProperId(CheckedId(w, bucket, key).value) && CheckedId(w, bucket, key).value.bucket in w.state.buckets
  {
    assert Holds(w, BucketsClause);
  }

  // A new payload, then a new object that refers to it or holds its bytes itself.
  lemma PayloadInv(w: World, id: ObjectId, body: Bytes)
    requires Inv(w) && ProperId(id)
    ensures Inv(StorePayload(w, id, body))
    ensures Opens(StorePayload(w, id, body).payloads, id, PayloadRefFor(Hint(id), body), |body|, BodyTag(OfBody(body)))
  {
    Unpack(w);
    StorePayloadKeeps(w, id, body);
    Pack(StorePayload(w, id, body));
  }

  lemma StoreInv(w: World, o: Object, now: nat)
    requires Inv(w) && StorableIn(w, o)
    ensures Inv(StoreObject(w, o, now)) && ObjectIdOf(o) in StoreObject(w, o, now).state.objects
  {
    Unpack(w);
    StoreObjectKeeps(w, o, now);
    Pack(StoreObject(w, o, now));
  }

  lemma ProtectionInv(w: World, s: State)
    requires Inv(w)
    requires s == w.state.(retention := s.retention, holds := s.holds)
    requires s.retention.Keys <= w.state.objects.Keys && s.holds.Keys <= w.state.objects.Keys
    ensures Inv(w.(state := s))
  {
    Unpack(w);
    ProtectionKeeps(w, s.retention, s.holds);
    Pack(w.(state := s));
  }

  lemma UploadsInv(w: World, uploads: map<string, Upload>)
    requires Inv(w)
    requires forall u | u in uploads ::
      ProperId(ObjectId(uploads[u].bucket, uploads[u].key)) && uploads[u].bucket in w.state.buckets && uploads[u].contentType != ""
    ensures Inv(w.(uploads := uploads))
  {
    Unpack(w);
    Pack(w.(uploads := uploads));
  }

  lemma RemoveInv(w: World, id: ObjectId, env: Env)
    requires Inv(w) && ProperId(id)
    ensures Inv(RemoveObject(w, id, env).0)
    ensures RemoveObject(w, id, env).0.state.buckets == w.state.buckets
  {
    assert DropObject(w.state, id).buckets == w.state.buckets;
    assert DropObject(RecordMarker(w.state, id, env.now), id).buckets == w.state.buckets;
    hide Inv, DropObject, RecordMarker, Blocked;
    if id in w.state.objects && Blocked(w.state, id, env.now) {
    } else if id.bucket in w.state.versioning {
      MarkedInv(w, id, env.now);
    } else {
      PlainInv(w, id, if id in w.state.objects then {w.state.objects[id].ref} - {NoRef} else {});
    }
  }

  lemma MarkedInv(w: World, id: ObjectId, now: nat)
    requires Inv(w) && ProperId(id) && id.bucket in w.state.versioning
    ensures Inv(w.(state := DropObject(RecordMarker(w.state, id, now), id)))
  {
    Unpack(w);
    MarkedRemovalKeeps(w, id, now);
    Pack(w.(state := DropObject(RecordMarker(w.state, id, now), id)));
  }

  lemma PlainInv(w: World, id: ObjectId, dead: set<PayloadRef>)
    requires Inv(w) && ProperId(id) && id.bucket !in w.state.versioning
    requires dead == if id in w.state.objects then {w.state.objects[id].ref} - {NoRef} else {}
    ensures Inv(w.(state := DropObject(w.state, id), payloads := w.payloads - dead))
  {
    Unpack(w);
    PlainRemovalKeeps(w, id);
    Pack(w.(state := DropObject(w.state, id), payloads := w.payloads - dead));
  }

  // Requests that only touch buckets, settings, ACLs or tags.
  lemma SettingsInv(w: World, t: State)
    requires Inv(w)
    requires t.objects == w.state.objects && t.history == w.state.history
    requires t.retention == w.state.retention && t.holds == w.state.holds
    requires w.state.buckets.Keys <= t.buckets.Keys && w.state.versioning.Keys <= t.versioning.Keys
    requires BucketsProper(t) && SettingsPlaced(t)
    requires t.acls.Keys <= t.objects.Keys && t.taggings.Keys <= t.objects.Keys
    ensures Inv(w.(state := t))
  {
    Unpack(w);
    SettingsKeep(w, t);
    Pack(w.(state := t));
  }

  lemma SettingsKeep(w: World, t: State)
    requires Sound(w)
    requires t.objects == w.state.objects && t.history == w.state.history
    requires t.retention == w.state.retention && t.holds == w.state.holds
    requires w.state.buckets.Keys <= t.buckets.Keys && w.state.versioning.Keys <= t.versioning.Keys
    requires BucketsProper(t) && SettingsPlaced(t)
    requires t.acls.Keys <= t.objects.Keys && t.taggings.Keys <= t.objects.Keys
    ensures Sound(w.(state := t))
  {
    assert ObjectsPlaced(t) && HistoryPlaced(t) && UploadsPlaced(w.(state := t));
    assert forall id :: Agrees(t, id) <==> Agrees(w.state, id);
  }

  // ---------- requests ----------

  // New protection for one object that is live.
  lemma ReprotectInv(w: World, id: ObjectId, s: State)
    requires Inv(w) && id in w.state.objects
    requires s == w.state.(retention := s.retention, holds := s.holds)
    requires s.retention.Keys <= w.state.retention.Keys + {id} && s.holds.Keys <= w.state.holds.Keys + {id}
    ensures Inv(w.(state := s))
  {
    assert Holds(w, GovernanceClause);
    ProtectionInv(w, s);
  }

  // A stored payload with an object made for it.
  lemma FreshInv(w: World, id: ObjectId, body: Bytes, contentType: string,
                 metadata: map<string, string>, headers: map<string, string>, now: nat)
    requires Inv(w) && ProperId(id) && id.bucket in w.state.buckets && contentType != ""
    ensures Inv(StoreFresh(w, id, body, contentType, metadata, headers, now))
    ensures id in StoreFresh(w, id, body, contentType, metadata, headers, now).state.objects
  {
    PayloadInv(w, id, body);
    StoreInv(StorePayload(w, id, body), FreshObject(id, body, contentType, metadata, headers), now);
  }

  lemma PutToInv(w: World, id: ObjectId, body: Bytes, contentType: string,
                 metadata: map<string, string>, headers: map<string, string>, env: Env)
    requires Inv(w) && ProperId(id) && id.bucket in w.state.buckets && contentType != ""
    ensures Inv(PutTo(w, id, body, contentType, metadata, headers, env))
  {
    FreshInv(w, id, body, contentType, metadata, headers, env.now);
    var w1 := StoreFresh(w, id, body, contentType, metadata, headers, env.now);
    ReprotectedInv(w1, id, env.until);
  }

  lemma PutObjectKeeps(w: World, bucket: string, key: string, body: Bytes, contentType: string,
                       metadata: map<string, string>, headers: map<string, string>, env: Env)
    requires Inv(w)
    ensures Inv(PutObject(w, bucket, key, body, contentType, metadata, headers, env).0)
  {
    if CheckedId(w, bucket, key).Ok? {
      KnownId(w, bucket, key);
      PutToInv(w, CheckedId(w, bucket, key).value, body, TypeOr(contentType), metadata, headers, env);
    }
  }

  lemma CopyToInv(w: World, id: ObjectId, from: ObjectId, body: Bytes, contentType: string,
                  metadata: map<string, string>, headers: map<string, string>, env: Env)
    requires Inv(w) && ProperId(id) && id.bucket in w.state.buckets && contentType != ""
    ensures Inv(CopyTo(w, id, from, body, contentType, metadata, headers, env))
  {
    hide ProperId, StoreFresh;
    FreshInv(w, id, body, contentType, metadata, headers, env.now);
    var w1 := StoreFresh(w, id, body, contentType, metadata, headers, env.now);
    var s := CopyProtection(ClearProtection(w1.state, id), id, from);
    ReprotectInv(w1, id, ApplyDefaultRetention(s, id, env.until));
  }

  lemma CopyObjectKeeps(w: World, bucket: string, key: string, sourceBucket: string, sourceKey: string,
                        directive: string, metadata: map<string, string>, env: Env)
    requires Inv(w)
    ensures Inv(CopyObject(w, bucket, key, sourceBucket, sourceKey, directive, metadata, env).0)
  {
    hide TrimSpace, CheckedId, SourceBytes, CopyTo, Blocked, Inv, FreshObject, Hint;
    var to, from := CheckedId(w, bucket, key), CheckedId(w, sourceBucket, sourceKey);
    if to.Ok? && from.Ok? && from.value in w.state.objects && SourceBytes(w, w.state.objects[from.value]).Some? {
      var source := w.state.objects[from.value];
      KnownId(w, bucket, key);
      KnownObject(w, from.value);
      CopyToInv(w, to.value, from.value, SourceBytes(w, source).value, source.contentType,
                ResolvedMetadata(source.metadata, directive, metadata), source.headers, env);
    }
  }

  lemma CompleteToInv(w: World, u: string, env: Env)
    requires Inv(w) && u in w.uploads
    ensures Inv(CompleteTo(w, u, env))
  {
    var o := Completed(w.uploads[u]);
    assert StorableIn(w, o) by {
      assert Holds(w, UploadsClause);
    }
    StoreInv(w, o, env.now);
    ReprotectedInv(StoreObject(w, o, env.now), ObjectIdOf(o), env.until);
    var w2 := CompleteTo(w, u, env.(saved := false));
    FewerUploadsInv(w2, u);
  }

  lemma ReprotectedInv(w: World, id: ObjectId, until: nat)
    requires Inv(w) && id in w.state.objects
    ensures Inv(w.(state := Reprotected(w.state, id, until)))
  {
    ReprotectInv(w, id, Reprotected(w.state, id, until));
  }

  lemma FewerUploadsInv(w: World, u: string)
    requires Inv(w)
    ensures Inv(w.(uploads := w.uploads - {u}))
  {
    assert Holds(w, UploadsClause);
    UploadsInv(w, w.uploads - {u});
  }

  lemma CompleteUploadKeeps(w: World, uploadId: string, env: Env)
    requires Inv(w)
    ensures Inv(CompleteUpload(w, uploadId, env).0)
  {
    if FindUpload(w, uploadId).Ok? {
      CompleteToInv(w, FindUpload(w, uploadId).value, env);
    }
  }

  lemma {:induction false} RemoveEachKeeps(w: World, bucket: string, keys: seq<string>, quiet: bool, env: Env)
    requires Inv(w) && bucket in w.state.buckets
    ensures Inv(RemoveEach(w, bucket, keys, quiet, env).0)
    decreases |keys|
  {
    if |keys| > 0 {
      var key := TrimSpace(keys[0]);
      if key == "" {
        RemoveEachKeeps(w, bucket, keys[1..], quiet, NextSave(env));
      } else {
        assert Holds(w, BucketsClause);
        RemoveInv(w, ObjectId(bucket, key), env);
        RemoveEachKeeps(RemoveObject(w, ObjectId(bucket, key), env).0, bucket, keys[1..], quiet, NextSave(env));
      }
    }
  }

  lemma DeleteBucketKeeps(w: World, name: string, env: Env)
    requires Inv(w)
    ensures Inv(DeleteBucket(w, name, env).0)
  {
    if RequireBucket(w, name).Ok? && BucketEmpty(w.state, RequireBucket(w, name).value) {
      Unpack(w);
      DropBucketKeeps(w, RequireBucket(w, name).value);
      Pack(DeleteBucket(w, name, env).0);
    }
  }

  lemma DropBucketKeeps(w: World, n: string)
    requires Sound(w) && BucketEmpty(w.state, n)
    ensures Sound(w.(state := DropBucket(w.state, n),
                     uploads := map u | u in w.uploads && w.uploads[u].bucket != n :: w.uploads[u]))
  {
    var t := DropBucket(w.state, n);
    DropBucketPlaces(w.state, n);
    assert t.objects == w.state.objects && t.history == w.state.history && t.buckets == w.state.buckets - {n};
    hide DropBucket, ObjectsPlaced, HistoryPlaced, SettingsPlaced, GovernancePlaced, BucketsProper, ProperId, VersionsAgree, Opens,
      BucketEmpty;
    SameAgreement(w.state, t);
  }

  lemma SameAgreement(s: State, t: State)
    requires VersionsAgree(s) && t.objects == s.objects && t.history == s.history
    ensures VersionsAgree(t)
  {
    assert forall id :: Agrees(t, id) <==> Agrees(s, id);
  }

  lemma DropBucketPlaces(s: State, n: string)
    requires BucketsProper(s) && ObjectsPlaced(s) && HistoryPlaced(s) && SettingsPlaced(s) && GovernancePlaced(s)
    requires BucketEmpty(s, n)
    ensures var t := DropBucket(s, n);
      BucketsProper(t) && ObjectsPlaced(t) && HistoryPlaced(t) && SettingsPlaced(t) && GovernancePlaced(t)
  {
    var t := DropBucket(s, n);
    assert HistoryPlaced(t) by {
      assert forall i | 0 <= i < |s.history| :: s.history[i].bucket != n;
    }
  }

  lemma CreateBucketKeeps(w: World, name: string, region: string, env: Env)
    requires Inv(w)
    ensures Inv(CreateBucket(w, name, region, env).0)
  {
    var n := TrimSpace(name);
    if n != "" && ValidBucketName(n) && n !in w.state.buckets {
      ValidNameProper(n);
      var bucket := CreateBucket(w, name, region, env).0.state.buckets[n];
      NewBucketInv(w, n, bucket);
    }
  }

  lemma NewBucketInv(w: World, n: string, bucket: Bucket)
    requires Inv(w) && n != "" && Trimmed(n) && '/' !in n && bucket.region != ""
    ensures Inv(w.(state := w.state.(buckets := w.state.buckets[n := bucket])))
  {
    assert Holds(w, BucketsClause) && Holds(w, SettingsClause) && Holds(w, GovernanceClause);
    SettingsInv(w, w.state.(buckets := w.state.buckets[n := bucket]));
  }

  lemma PutBucketVersioningKeeps(w: World, bucket: string, status: string, env: Env)
    requires Inv(w)
    ensures Inv(PutBucketVersioning(w, bucket, status, env).0)
  {
    hide TrimSpace;
    assert Holds(w, BucketsClause) && Holds(w, SettingsClause) && Holds(w, GovernanceClause);
    SettingsInv(w, PutBucketVersioning(w, bucket, status, env).0.state);
  }

  lemma PutBucketConfigKeeps(w: World, kind: ConfigKind, bucket: string, body: Bytes, env: Env)
    requires Inv(w)
    ensures Inv(PutBucketConfig(w, kind, bucket, body, env).0)
  {
    hide TrimSpace;
    assert Holds(w, BucketsClause) && Holds(w, SettingsClause) && Holds(w, GovernanceClause);
    SettingsInv(w, PutBucketConfig(w, kind, bucket, body, env).0.state);
  }

  lemma DeleteBucketConfigKeeps(w: World, kind: ConfigKind, bucket: string, env: Env)
    requires Inv(w)
    ensures Inv(DeleteBucketConfig(w, kind, bucket, env).0)
  {
    hide TrimSpace, RequireBucket;
    assert Holds(w, BucketsClause) && Holds(w, SettingsClause) && Holds(w, GovernanceClause);
    SettingsInv(w, DeleteBucketConfig(w, kind, bucket, env).0.state);
  }

  lemma PutObjectLockConfigurationKeeps(w: World, bucket: string, lock: Option<LockConfig>, env: Env)
    requires Inv(w)
    ensures Inv(PutObjectLockConfiguration(w, bucket, lock, env).0)
  {
    hide TrimSpace, RequireBucket;
    assert Holds(w, BucketsClause) && Holds(w, SettingsClause) && Holds(w, GovernanceClause);
    SettingsInv(w, PutObjectLockConfiguration(w, bucket, lock, env).0.state);
  }

  lemma PutObjectAclKeeps(w: World, bucket: string, key: string, body: Bytes, env: Env)
    requires Inv(w)
    ensures Inv(PutObjectAcl(w, bucket, key, body, env).0)
  {
    assert Holds(w, BucketsClause) && Holds(w, SettingsClause) && Holds(w, GovernanceClause);
    SettingsInv(w, PutObjectAcl(w, bucket, key, body, env).0.state);
  }

  lemma PutObjectTaggingKeeps(w: World, bucket: string, key: string, body: Bytes, env: Env)
    requires Inv(w)
    ensures Inv(PutObjectTagging(w, bucket, key, body, env).0)
  {
    assert Holds(w, BucketsClause) && Holds(w, SettingsClause) && Holds(w, GovernanceClause);
    SettingsInv(w, PutObjectTagging(w, bucket, key, body, env).0.state);
  }

  lemma DeleteObjectTaggingKeeps(w: World, bucket: string, key: string, env: Env)
    requires Inv(w)
    ensures Inv(DeleteObjectTagging(w, bucket, key, env).0)
  {
    assert Holds(w, BucketsClause) && Holds(w, SettingsClause) && Holds(w, GovernanceClause);
    SettingsInv(w, DeleteObjectTagging(w, bucket, key, env).0.state);
  }

  lemma PutRetentionKeeps(w: World, bucket: string, key: string, parsed: Option<Retention>, env: Env)
    requires Inv(w)
    ensures Inv(PutRetention(w, bucket, key, parsed, env).0)
  {
    assert Holds(w, GovernanceClause);
    hide TrimSpace, RequireBucket, Inv;
    ProtectionInv(w, PutRetention(w, bucket, key, parsed, env).0.state);
  }

  lemma PutLegalHoldKeeps(w: World, bucket: string, key: string, parsed: Option<Hold>, env: Env)
    requires Inv(w)
    ensures Inv(PutLegalHold(w, bucket, key, parsed, env).0)
  {
    assert Holds(w, GovernanceClause);
    hide TrimSpace, RequireBucket, Inv;
    ProtectionInv(w, PutLegalHold(w, bucket, key, parsed, env).0.state);
  }

  lemma CreateUploadKeeps(w: World, uploadId: string, bucket: string, key: string, contentType: string,
                          metadata: map<string, string>, headers: map<string, string>)
    requires Inv(w)
    ensures Inv(CreateUpload(w, uploadId, bucket, key, contentType, metadata, headers).0)
  {
    hide TrimSpace, CheckedId, Inv, ProperId;
    if CheckedId(w, bucket, key).Ok? {
      KnownId(w, bucket, key);
      var id := CheckedId(w, bucket, key).value;
      NewUploadInv(w, uploadId, Upload(id.bucket, id.key, TypeOr(contentType), metadata, headers, []));
    }
  }

  lemma NewUploadInv(w: World, u: string, upload: Upload)
    requires Inv(w)
    requires ProperId(ObjectId(upload.bucket, upload.key)) && upload.bucket in w.state.buckets && upload.contentType != ""
    ensures Inv(w.(uploads := w.uploads[u := upload]))
  {
    assert Holds(w, UploadsClause);
    hide Inv, ProperId;
    UploadsInv(w, w.uploads[u := upload]);
  }

  lemma UploadPartKeeps(w: World, uploadId: string, number: int, body: Bytes)
    requires Inv(w)
    ensures Inv(UploadPart(w, uploadId, number, body).0)
  {
    assert Holds(w, UploadsClause);
    hide TrimSpace, UpsertPart, Inv, ProperId;
    UploadsInv(w, UploadPart(w, uploadId, number, body).0.uploads);
  }

  lemma AbortUploadKeeps(w: World, uploadId: string)
    requires Inv(w)
    ensures Inv(AbortUpload(w, uploadId).0)
  {
    assert Holds(w, UploadsClause);
    hide TrimSpace, Inv, ProperId;
    UploadsInv(w, AbortUpload(w, uploadId).0.uploads);
  }

  lemma StepKeeps(w: World, op: Op, env: Env)
    requires Inv(w)
    ensures Inv(Step(w, op, env))
  {
    hide Inv, TrimSpace, PutRetention, PutLegalHold, CreateUpload, UploadPart, AbortUpload, PutObject, CopyObject, DeleteBucket,
      CreateBucket, CompleteUpload, PutBucketVersioning, PutBucketConfig, DeleteBucketConfig, PutObjectLockConfiguration,
      PutObjectAcl, PutObjectTagging, DeleteObjectTagging, RemoveEach, RemoveObject;
    match op
    case OpDeleteBucket(name) => DeleteBucketKeeps(w, name, env);
    case OpPutObject(bucket, key, body, contentType, metadata, headers) =>
      PutObjectKeeps(w, bucket, key, body, contentType, metadata, headers, env);
    case OpCopyObject(bucket, key, sourceBucket, sourceKey, directive, metadata) =>
      CopyObjectKeeps(w, bucket, key, sourceBucket, sourceKey, directive, metadata, env);
    case OpDeleteObject(bucket, key) =>
      if CheckedId(w, bucket, key).Ok? {
        KnownId(w, bucket, key);
        RemoveInv(w, CheckedId(w, bucket, key).value, env);
      }
    case OpDeleteObjects(bucket, keys, quiet) =>
      if RequireBucket(w, bucket).Ok? {
        RemoveEachKeeps(w, RequireBucket(w, bucket).value, keys, quiet, env);
      }
    case OpCompleteUpload(uploadId) => CompleteUploadKeeps(w, uploadId, env);
    case OpPutRetention(bucket, key, retention) => PutRetentionKeeps(w, bucket, key, retention, env);
    case OpPutLegalHold(bucket, key, hold) => PutLegalHoldKeeps(w, bucket, key, hold, env);
    case OpCreateUpload(uploadId, bucket, key, contentType, metadata, headers) =>
      CreateUploadKeeps(w, uploadId, bucket, key, contentType, metadata, headers);
    case OpUploadPart(uploadId, number, body) => UploadPartKeeps(w, uploadId, number, body);
    case OpAbortUpload(uploadId) => AbortUploadKeeps(w, uploadId);
    case OpPutObjectAcl(bucket, key, body) => PutObjectAclKeeps(w, bucket, key, body, env);
    case OpPutObjectTagging(bucket, key, body) => PutObjectTaggingKeeps(w, bucket, key, body, env);
    case OpDeleteObjectTagging(bucket, key) => DeleteObjectTaggingKeeps(w, bucket, key, env);
    case OpCreateBucket(name, region) => CreateBucketKeeps(w, name, region, env);
    case OpPutBucketVersioning(bucket, status) => PutBucketVersioningKeeps(w, bucket, status, env);
    case OpPutBucketConfig(kind, bucket, body) => PutBucketConfigKeeps(w, kind, bucket, body, env);
    case OpDeleteBucketConfig(kind, bucket) => DeleteBucketConfigKeeps(w, kind, bucket, env);
    case OpPutObjectLockConfiguration(bucket, lock) => PutObjectLockConfigurationKeeps(w, bucket, lock, env);
  }

  lemma {:induction false} RunJoins(w: World, a: seq<Request>, b: seq<Request>)
    ensures Run(w, a + b) == Run(Run(w, a), b)
    decreases |a|
  {
    if |a| == 0 {
      assert a + b == b;
    } else {
      assert (a + b)[1..] == a[1..] + b;
      hide Step;
      RunJoins(Step(w, a[0].op, a[0].env), a[1..], b);
    }
  }

  lemma RunOne(w: World, request: Request)
    ensures Run(w, [request]) == Step(w, request.op, request.env)
  {
    hide Step;
    assert [request][1..] == [];
  }

  lemma {:induction false} RunKeeps(w: World, requests: seq<Request>)
    requires Inv(w)
    ensures Inv(Run(w, requests))
    decreases |requests|
  {
    if |requests| > 0 {
      StepKeeps(w, requests[0].op, requests[0].env);
      RunKeeps(Step(w, requests[0].op, requests[0].env), requests[1..]);
    }
  }

  lemma BeginningsHold(created: nat)
    ensures Inv(EMPTY) && Inv(Initial(created))
  {
    assert forall id :: Agrees(EMPTY.state, id);
    Pack(EMPTY);
    InitialSound(created);
    Pack(Initial(created));
  }

  lemma InitialSound(created: nat)
    ensures Sound(Initial(created))
  {
    var w := Initial(created);
    assert ProperId(BOOTSTRAP);
    assert forall id :: Agrees(w.state, id);
    assert forall id | id in w.state.objects :: id == BOOTSTRAP && w.state.objects[id].ref == NoRef;
  }

  // A service begins with nothing, or, where it has no repository, with the bootstrap object.
  ghost predicate Beginning(w: World) {
    w == EMPTY || exists created :: w == Initial(created)
  }

  // Every state that requests lead to, in any order and with any outcome of saving.
  lemma ReachableInv(start: World, requests: seq<Request>)
    requires Beginning(start)
    ensures Inv(Run(start, requests))
  {
    hide Run, Inv;
    if start == EMPTY {
      BeginningsHold(0);
    } else {
      var created :| start == Initial(created);
      BeginningsHold(created);
    }
    RunKeeps(start, requests);
  }
}
