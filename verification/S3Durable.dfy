/** What outlives restarts, what clients read after them, and the runs in which a restart fails or changes something. */
module S3Durable {
  import opened Wrappers
  import opened Strings
  import opened S3Model
  import opened S3Invariants
  import opened S3ObjectLock
  import S3Effects
  import opened S3Repository
  import opened S3Alike
  import opened S3Restart
  import opened S3Machine
  import opened S3Answers
  import S3Domain
  import S3Versions

  // ---------- what clients read ----------

  // What clients read of a world: objects, the keys of a bucket with what their pages show, and versions.
  ghost predicate ReadsAs(w: World, v: World) {
    && (forall bucket, key :: Shown(GetObject(v, bucket, key)) == Shown(GetObject(w, bucket, key)))
    && (forall bucket :: S3Domain.KeysIn(v.state.objects, bucket) == S3Domain.KeysIn(w.state.objects, bucket))
    && (forall id | id in w.state.objects ::
          id in v.state.objects
          && v.state.objects[id].(body := [], ref := NoRef) == w.state.objects[id].(body := [], ref := NoRef))
    && (forall a, b, bucket | Lists(a, w.state.objects) && Lists(b, v.state.objects) ::
          ShownRecords(v.payloads, S3Versions.ListVersions(v.state.history, b, bucket))
          == ShownRecords(w.payloads, S3Versions.ListVersions(w.state.history, a, bucket)))
  }

  lemma LikeReads(w: World, v: World)
    requires Inv(w) && Like(w, v)
    ensures ReadsAs(w, v)
  {
    hide *;
    forall bucket, key ensures Shown(GetObject(v, bucket, key)) == Shown(GetObject(w, bucket, key)) {
      GetAlike(w, v, bucket, key);
    }
    forall bucket ensures S3Domain.KeysIn(v.state.objects, bucket) == S3Domain.KeysIn(w.state.objects, bucket) {
      PagesAlike(w, v, bucket);
    }
    PagesAlike(w, v, "");
    forall a, b, bucket | Lists(a, w.state.objects) && Lists(b, v.state.objects)
      ensures ShownRecords(v.payloads, S3Versions.ListVersions(v.state.history, b, bucket))
           == ShownRecords(w.payloads, S3Versions.ListVersions(w.state.history, a, bucket))
    {
      VersionsListedAlike(w, v, a, b, bucket);
    }
    ReadsParts(w, v);
  }

  lemma ReadsParts(w: World, v: World)
    requires forall bucket, key :: Shown(GetObject(v, bucket, key)) == Shown(GetObject(w, bucket, key))
    requires forall bucket :: S3Domain.KeysIn(v.state.objects, bucket) == S3Domain.KeysIn(w.state.objects, bucket)
    requires forall id | id in w.state.objects ::
      id in v.state.objects && v.state.objects[id].(body := [], ref := NoRef) == w.state.objects[id].(body := [], ref := NoRef)
    requires forall a, b, bucket | Lists(a, w.state.objects) && Lists(b, v.state.objects) ::
      ShownRecords(v.payloads, S3Versions.ListVersions(v.state.history, b, bucket))
      == ShownRecords(w.payloads, S3Versions.ListVersions(w.state.history, a, bucket))
    ensures ReadsAs(w, v)
  {
    hide GetObject, S3Domain.KeysIn, S3Versions.ListVersions, Lists, ShownRecord;
  }

  // From the first start on, over every run with restarts, clients read what they would read from a service that goes back
  // to its last accepted save at each restart, or, if nothing is unsaved then, from one that never stops.
  lemma ReachableAnswers(events: seq<Event>, losses: bool)
    requires Clocked(events) && RestartsWell(START, BLANK, losses, events) && RunWith(START, events).Some?
    ensures ReadsAs(LedgerWith(BLANK, losses, events).world, RunWith(START, events).value.world)
  {
    hide *;
    StartMatches();
    RunMatches(START, BLANK, losses, events);
    MatchesParts(RunWith(START, events).value, LedgerWith(BLANK, losses, events));
    SaneParts(LedgerWith(BLANK, losses, events).world);
    LikeReads(LedgerWith(BLANK, losses, events).world, RunWith(START, events).value.world);
  }

  // ---------- a restart, seen from outside ----------

  // What can be told of a world from outside: settings, what each object reads as, what a copy of it is made of, and the
  // versions.
  ghost predicate SameAnswers(w: World, v: World) {
    && SameElse(w, v) && v.state.objects.Keys == w.state.objects.Keys
    && (forall id | id in w.state.objects :: AnsweredTheSame(w, v, id))
    && multiset(Bares(v.state.history)) == multiset(Bares(w.state.history))
  }

  ghost predicate AnsweredTheSame(w: World, v: World, id: ObjectId)
    requires id in w.state.objects && id in v.state.objects
  {
    && Answer(v.payloads, v.state.objects[id]) == Answer(w.payloads, w.state.objects[id])
    && SourceBytes(v, v.state.objects[id]) == SourceBytes(w, w.state.objects[id])
  }

  lemma LikeAnswers(w: World, v: World)
    requires Inv(w) && Like(w, v)
    ensures SameAnswers(w, v)
  {
    hide Inv, Answer;
    forall id | id in w.state.objects ensures id in v.state.objects && AnsweredTheSame(w, v, id) {
      AnswersAlike(w, v, id);
      SameFields(w, v, id);
    }
  }

  // a world that was loaded has its references in order, but for the one of the bootstrap object
  lemma LoadedTidy(m: Machine, r: Ledger, id: ObjectId)
    requires Matches(m, r) && Restart(m).Some? && id in Restart(m).value.world.state.objects
    ensures var v := Restart(m).value.world;
      var p := v.state.objects[id];
      && p.ref.Ref? && p.ref.hint == Hint(id) && Addressed(v.payloads) && p.contentType != ""
      && (if id == BOOTSTRAP then p.body == BootstrapBody()
          else p.ref in v.payloads && p.body == v.payloads[p.ref])
  {
    hide *;
    MatchesParts(m, r);
    SaneParts(r.saved);
    FileClean(r.saved);
    RestartIs(m);
    LoadsIff(m.file, m.world.payloads);
    LoadedFrom(m.file, m.world.payloads);
    LoadedKeys(m.world.payloads, m.file);
    LoadedObjectsAt(m.world.payloads, m.file, id);
    ObjectLoadsIff(m.file, m.world.payloads, id);
    FileKeys(r.saved);
    ObjectHasBytes(r.saved, id);
    OnFileRef(r.saved.state.objects[id], SourceBytes(r.saved, r.saved.state.objects[id]));
    FileObjectBare(r.saved, id);
    FileObject(r.saved, id);
    if id == BOOTSTRAP {
      BootstrapLoads(m.file, m.world.payloads);
    } else {
      LoadedBytes(m.world.payloads, m.file.objects[id]);
    }
  }

  lemma OnFileRef(o: Object, bytes: Option<Bytes>)
    ensures ObjectIdOf(o) == BOOTSTRAP || bytes.Some? ==> OnFile(o, bytes).ref.Ref? && OnFile(o, bytes).ref.hint == Hint(ObjectIdOf(o))
  {
    hide Hint, BootstrapBody, FallbackDate;
  }

  lemma LoadedBytes(payloads: map<PayloadRef, Bytes>, p: Object)
    requires p.body == [] && p.ref != NoRef && ObjectIdOf(p) != BOOTSTRAP && LoadedObject(payloads, p).Some?
    ensures p.ref in payloads && LoadedObject(payloads, p).value.body == payloads[p.ref]
  {
    hide BootstrapBody, FallbackDate;
  }

  // what the two have in common leaves nothing that is different
  lemma AnswersKeep(w: World, v: World, id: ObjectId)
    requires Inv(w) && id in w.state.objects && id in v.state.objects && AnsweredTheSame(w, v, id)
    requires var p := v.state.objects[id];
      && p.ref.Ref? && p.ref.hint == Hint(id) && Addressed(v.payloads)
      && (if id == BOOTSTRAP then p.body == BootstrapBody() else p.ref in v.payloads && p.body == v.payloads[p.ref])
    ensures Kept(w, v, id)
  {
    assert Holds(w, ObjectPayloadsClause);
    assert |BootstrapBody()| == 18;
    hide Inv, BootstrapBody, Hint;
  }

  lemma LoadedVersionsTidy(m: Machine, r: Ledger)
    requires Matches(m, r) && Restart(m).Some?
    ensures VersionsKept(r.saved, Restart(m).value.world)
  {
    hide *;
    MatchesParts(m, r);
    SaneParts(r.saved);
    FileClean(r.saved);
    RestartIs(m);
    LoadsIff(m.file, m.world.payloads);
    LoadedFrom(m.file, m.world.payloads);
    VersionsLoaded(r.saved, Restart(m).value.world);
  }

  lemma VersionsToo(w: World, w': World, v: World)
    requires VersionsKept(w', v) && multiset(Bares(v.state.history)) == multiset(Bares(w.state.history))
    ensures VersionsKept(w, v)
  {
    hide Tidy, Bares;
  }

  lemma AnswersLike(m: Machine, r: Ledger, w: World)
    requires Matches(m, r) && Restart(m).Some? && Inv(w) && SameAnswers(w, Restart(m).value.world)
    ensures Like(w, Restart(m).value.world)
  {
    hide *;
    var v := Restart(m).value.world;
    LoadedVersionsTidy(m, r);
    SameParts(w, v);
    VersionsToo(w, r.saved, v);
    forall id | id in w.state.objects ensures id in v.state.objects && Kept(w, v, id) {
      LoadedTidy(m, r, id);
      AnswersKeep(w, v, id);
    }
    LikeWhole(w, v);
  }

  lemma SameParts(w: World, v: World)
    requires SameAnswers(w, v)
    ensures SameElse(w, v) && v.state.objects.Keys == w.state.objects.Keys
    ensures forall id | id in w.state.objects :: id in v.state.objects && AnsweredTheSame(w, v, id)
    ensures multiset(Bares(v.state.history)) == multiset(Bares(w.state.history))
  {
    hide SameElse, AnsweredTheSame;
  }

  lemma LikeWhole(w: World, v: World)
    requires SameElse(w, v) && VersionsKept(w, v) && v.state.objects.Keys == w.state.objects.Keys
    requires forall id | id in w.state.objects :: id in v.state.objects && Kept(w, v, id)
    ensures Like(w, v)
  {
    hide SameElse, VersionsKept, Kept;
  }

  // A service answers after a restart as before it, but for pending uploads, exactly if saving before it would have written
  // what the file held, and the bootstrap object had its first bytes.
  lemma RestartAnswersIff(m: Machine, r: Ledger)
    requires Matches(m, r) && Restart(m).Some?
    ensures SameAnswers(Forgotten(r).world, Restart(m).value.world)
      <==> m.file == ToSave(m.world.state) && Intact(r.world, m.world.payloads)
  {
    hide *;
    MatchesParts(m, r);
    RestartUnseenIff(m, r);
    LedgersAre(r);
    NoUploads(r.world);
    var w, v := Forgotten(r).world, Restart(m).value.world;
    SaneParts(w);
    if Like(w, v) {
      LikeAnswers(w, v);
    }
    if SameAnswers(w, v) {
      AnswersLike(m, r, w);
    }
  }

  // ---------- object lock over restarts ----------

  ghost predicate RetainedIn(w: World, r: Ledger, id: ObjectId) {
    Inv(r.world) && Inv(r.saved) && Retained(w, r.world, id) && Retained(w, r.saved, id)
  }

  ghost predicate Before(requests: seq<Request>, until: nat) {
    forall i | 0 <= i < |requests| :: requests[i].env.now < until
  }

  lemma BookRetains(w: World, r: Ledger, request: Request, id: ObjectId)
    requires RetainedIn(w, r, id) && request.env.now < w.state.retention[id].until
    ensures RetainedIn(w, Book(r, request), id)
  {
    hide Inv, Step, ToSave, Validated, Asks, SameEntry;
    BookIs(r, request);
    var answered := Answered(r.world, request.op, request.env);
    RetainedStep(r.world, request.op, answered, id);
    StepKeeps(r.world, request.op, answered);
    RetainedTwice(w, r.world, Step(r.world, request.op, answered), id);
  }

  lemma RetainedTwice(w: World, w1: World, w2: World, id: ObjectId)
    requires Retained(w, w1, id) && Retained(w1, w2, id)
    ensures Retained(w, w2, id)
  {
  }

  lemma {:induction false} BookAllRetains(w: World, r: Ledger, requests: seq<Request>, id: ObjectId)
    requires RetainedIn(w, r, id) && id in w.state.retention && Before(requests, w.state.retention[id].until)
    ensures RetainedIn(w, BookAll(r, requests), id)
    decreases |requests|
  {
    hide RetainedIn, Book;
    if |requests| > 0 {
      assert forall i | 0 <= i < |requests| - 1 :: requests[1..][i] == requests[i + 1];
      RetainsParts(w, r, id);
      BookRetains(w, r, requests[0], id);
      BookAllRetains(w, Book(r, requests[0]), requests[1..], id);
    }
  }

  lemma RetainsParts(w: World, r: Ledger, id: ObjectId)
    requires RetainedIn(w, r, id)
    ensures id in w.state.retention
  {
    hide Inv;
  }

  lemma SinglesBefore(request: Request, until: nat)
    requires request.env.now < until
    ensures Before(Singles(request), until)
  {
    if request.op.OpDeleteObjects? {
      DeletesAreSingle(request.op.bucket, request.op.keys, request.env);
    }
  }

  lemma RestartRetains(w: World, r: Ledger, id: ObjectId)
    requires RetainedIn(w, r, id)
    ensures RetainedIn(w, RolledBack(r), id) && RetainedIn(w, Forgotten(r), id)
  {
    hide Inv;
    UploadsInv(r.world, map[]);
    UploadsInv(r.saved, map[]);
  }

  lemma {:induction false} LedgerRetains(w: World, r: Ledger, losses: bool, events: seq<Event>, id: ObjectId)
    requires RetainedIn(w, r, id) && id in w.state.retention
    requires forall i | 0 <= i < |events| && events[i].Requested? :: events[i].request.env.now < w.state.retention[id].until
    ensures RetainedIn(w, LedgerWith(r, losses, events), id)
    decreases |events|
  {
    hide RetainedIn, BookAll, Singles, RolledBack, Forgotten;
    if |events| > 0 {
      var more := events[1..];
      assert forall i | 0 <= i < |more| :: more[i] == events[i + 1];
      match events[0]
      case Requested(request, _) =>
        SinglesBefore(request, w.state.retention[id].until);
        BookAllRetains(w, r, Singles(request), id);
        LedgerRetains(w, BookAll(r, Singles(request)), losses, more, id);
      case Restarts =>
        RestartRetains(w, r, id);
        LedgerRetains(w, if losses then RolledBack(r) else Forgotten(r), losses, more, id);
    }
  }

  // A retention that has been saved holds over every run with restarts: before the date the object answers as it did, and
  // the date is not moved back nor compliance mode relaxed.
  lemma RetainedOverRestarts(m: Machine, r: Ledger, losses: bool, events: seq<Event>, id: ObjectId)
    requires Matches(m, r) && Clocked(events) && RestartsWell(m, r, losses, events) && RunWith(m, events).Some?
    requires id in r.saved.state.objects && id in r.saved.state.retention && Retained(r.saved, r.world, id)
    requires forall i | 0 <= i < |events| && events[i].Requested? :: events[i].request.env.now < r.saved.state.retention[id].until
    ensures var w, v := r.saved, RunWith(m, events).value.world;
      && id in v.state.objects && Answer(v.payloads, v.state.objects[id]) == Answer(w.payloads, w.state.objects[id])
      && id in v.state.retention && NotWeaker(w.state.retention[id], v.state.retention[id])
  {
    hide *;
    var r', v := LedgerWith(r, losses, events), RunWith(m, events).value.world;
    MatchesParts(m, r);
    SaneParts(r.world);
    SaneParts(r.saved);
    RetainedAtFirst(r, id);
    LedgerRetains(r.saved, r, losses, events, id);
    RunMatches(m, r, losses, events);
    MatchesParts(RunWith(m, events).value, r');
    SaneParts(r'.world);
    RetainedAnswer(r.saved, r', id);
    LikeKeys(r'.world, v);
    AnswersAlike(r'.world, v, id);
    LikeRetention(r'.world, v);
  }

  lemma RetainedAtFirst(r: Ledger, id: ObjectId)
    requires Inv(r.saved) && Inv(r.world) && Retained(r.saved, r.world, id)
    ensures RetainedIn(r.saved, r, id)
  {
    hide Inv;
  }

  lemma RetainedAnswer(w: World, r: Ledger, id: ObjectId)
    requires Inv(w) && RetainedIn(w, r, id)
    ensures var w' := r.world;
      && id in w'.state.objects && id in w'.state.retention
      && Answer(w'.payloads, w'.state.objects[id]) == Answer(w.payloads, w.state.objects[id])
      && NotWeaker(w.state.retention[id], w'.state.retention[id])
  {
    assert Holds(w, ObjectPayloadsClause);
    hide Inv;
  }

  lemma LikeRetention(w: World, v: World)
    requires Like(w, v)
    ensures v.state.retention == w.state.retention && v.state.buckets == w.state.buckets
  {
    hide ObjectsKept, VersionsKept;
  }

  // ---------- versions over restarts ----------

  ghost predicate HistoryIn(w: World, r: Ledger) {
    Inv(r.world) && Inv(r.saved) && w.state.history <= r.world.state.history && w.state.history <= r.saved.state.history
  }

  lemma BookHistory(w: World, r: Ledger, request: Request)
    requires HistoryIn(w, r)
    ensures HistoryIn(w, Book(r, request))
  {
    hide Inv, Step, ToSave, Validated, Asks;
    BookIs(r, request);
    var answered := Answered(r.world, request.op, request.env);
    StepKeeps(r.world, request.op, answered);
    S3Effects.StepHistory(r.world, request.op, answered);
  }

  lemma {:induction false} BookAllHistory(w: World, r: Ledger, requests: seq<Request>)
    requires HistoryIn(w, r)
    ensures HistoryIn(w, BookAll(r, requests))
    decreases |requests|
  {
    hide HistoryIn, Book;
    if |requests| > 0 {
      BookHistory(w, r, requests[0]);
      BookAllHistory(w, Book(r, requests[0]), requests[1..]);
    }
  }

  lemma RestartHistory(w: World, r: Ledger)
    requires HistoryIn(w, r)
    ensures HistoryIn(w, RolledBack(r)) && HistoryIn(w, Forgotten(r))
  {
    hide Inv;
    UploadsInv(r.world, map[]);
    UploadsInv(r.saved, map[]);
  }

  lemma {:induction false} LedgerHistory(w: World, r: Ledger, losses: bool, events: seq<Event>)
    requires HistoryIn(w, r)
    ensures HistoryIn(w, LedgerWith(r, losses, events))
    decreases |events|
  {
    hide HistoryIn, BookAll, Singles, RolledBack, Forgotten;
    if |events| > 0 {
      var more := events[1..];
      match events[0]
      case Requested(request, _) =>
        BookAllHistory(w, r, Singles(request));
        LedgerHistory(w, BookAll(r, Singles(request)), losses, more);
      case Restarts =>
        RestartHistory(w, r);
        LedgerHistory(w, if losses then RolledBack(r) else Forgotten(r), losses, more);
    }
  }

  // A version that has been saved stays what it is over every run with restarts, with its bucket and its bytes.
  lemma VersionsOverRestarts(m: Machine, r: Ledger, losses: bool, events: seq<Event>, i: nat) returns (k: nat)
    requires Matches(m, r) && Clocked(events) && RestartsWell(m, r, losses, events) && RunWith(m, events).Some?
    requires i < |r.saved.state.history|
    ensures var w, v, x := r.saved, RunWith(m, events).value.world, r.saved.state.history[i];
      && k < |v.state.history| && Bare(v.state.history[k]) == Bare(x)
      && x.bucket in v.state.buckets
      && (x.ref != NoRef ==> x.ref in w.payloads && x.ref in v.payloads && v.payloads[x.ref] == w.payloads[x.ref])
  {
    hide *;
    var w, r', v := r.saved, LedgerWith(r, losses, events), RunWith(m, events).value.world;
    MatchesParts(m, r);
    SaneParts(r.world);
    SaneParts(w);
    HistoryAtFirst(r);
    LedgerHistory(w, r, losses, events);
    RunMatches(m, r, losses, events);
    MatchesParts(RunWith(m, events).value, r');
    HistoryPlace(w, r', i);
    LikeVersions(r'.world, v);
    LikeRetention(r'.world, v);
    k := CounterpartBack(r'.world, v, i);
    SameRef(w.state.history[i], v.state.history[k]);
    RecordOpens(w, i);
    VersionBytesSame(w, r'.world, v, i, k);
  }

  lemma HistoryAtFirst(r: Ledger)
    requires Inv(r.world) && Inv(r.saved) && r.saved.state.history <= r.world.state.history
    ensures HistoryIn(r.saved, r)
  {
    hide Inv;
  }

  lemma HistoryPlace(w: World, r: Ledger, i: nat)
    requires HistoryIn(w, r) && i < |w.state.history|
    ensures i < |r.world.state.history| && r.world.state.history[i] == w.state.history[i]
    ensures w.state.history[i].bucket in r.world.state.buckets
  {
    assert Holds(r.world, HistoryClause) && Holds(r.world, SettingsClause);
    hide Inv;
  }

  lemma VersionBytesSame(w: World, w': World, v: World, i: nat, k: nat)
    requires VersionsKept(w', v) && i < |w.state.history| && k < |v.state.history|
    requires var x, y := w.state.history[i], v.state.history[k];
      Bare(x) == Bare(y) && (x.ref != NoRef ==> Opens(w.payloads, RecordIdOf(x), x.ref, x.size, x.etag))
    ensures var x := w.state.history[i];
      x.ref != NoRef ==> x.ref in w.payloads && x.ref in v.payloads && v.payloads[x.ref] == w.payloads[x.ref]
  {
    hide Hint, Bares;
  }

  // ---------- a state that can never be saved again ----------

  // A version without its bytes is never removed: no request makes the state one that can be saved.
  lemma SpoiledForever(w: World, requests: seq<Request>)
    requires !Met(w.state, VersionBytes)
    ensures !Met(Run(w, requests).state, VersionBytes) && !Saveable(Run(w, requests).state)
  {
    S3Effects.HistoryGrows(w, requests);
    var s, t := w.state, Run(w, requests).state;
    hide Run;
    var i :| 0 <= i < |s.history| && !s.history[i].marker && s.history[i].ref == NoRef;
    assert t.history[i] == s.history[i];
    SaveableMeets(t);
  }

  ghost predicate Spoiled(r: Ledger) {
    !Met(r.world.state, VersionBytes)
  }

  lemma SpoiledStep(m: Machine, r: Ledger, request: Request, stored: set<PayloadRef>)
    requires Matches(m, r) && Spoiled(r) && request.env.now > 0 && !request.op.OpDeleteObjects?
    ensures Spoiled(Book(r, request)) && ServeOne(m, request, stored).file == m.file
    ensures Book(r, request).saved == r.saved
    ensures !Saves(r.world, request.op, request.env) && !Saves(m.world, request.op, request.env)
  {
    hide *;
    var op, env := request.op, request.env;
    MatchesParts(m, r);
    SaneParts(r.world);
    SpoiledMeans(r);
    StepSpoils(r.world, op, env);
    StepSpoils(r.world, op, Answered(r.world, op, env));
    StepKeeps(r.world, op, env);
    SaveAccepts(Step(r.world, op, env));
    AnsweredMeans(r.world, op, env);
    BookIs(r, request);
    SpoiledMeans(Book(r, request));
    SavesIs(r.world, op, env);
    ServedLike(r.world, m, request, stored);
  }

  lemma SpoiledMeans(r: Ledger)
    ensures Spoiled(r) <==> !Met(r.world.state, VersionBytes)
  {
    hide Met;
  }

  lemma AnsweredMeans(w: World, op: Op, env: Env)
    ensures Answered(w, op, env).saved ==> Validated(ToSave(Step(w, op, env).state))
  {
    hide Step, ToSave, Validated;
  }

  lemma StepSpoils(w: World, op: Op, env: Env)
    requires !Met(w.state, VersionBytes)
    ensures !Met(Step(w, op, env).state, VersionBytes) && !Saveable(Step(w, op, env).state)
  {
    hide Met, Saveable, Step;
    RunOne(w, Request(op, env));
    SpoiledForever(w, [Request(op, env)]);
  }

  lemma {:induction false} SpoiledSteps(m: Machine, r: Ledger, requests: seq<Request>, stored: set<PayloadRef>)
    requires Matches(m, r) && Spoiled(r) && ClockedSingles(requests)
    ensures Spoiled(BookAll(r, requests)) && BookAll(r, requests).saved == r.saved && ServeAll(m, requests, stored).file == m.file
    decreases |requests|
  {
    hide Matches, Spoiled, ServeOne, Book;
    if |requests| > 0 {
      assert forall i | 0 <= i < |requests| - 1 :: requests[1..][i] == requests[i + 1];
      SpoiledStep(m, r, requests[0], stored);
      BookMatches(m, r, requests[0], stored);
      SpoiledSteps(ServeOne(m, requests[0], stored), Book(r, requests[0]), requests[1..], stored);
    }
  }

  // Whatever is asked of a service with such a state, its file stays as it is, so that the next restart, if it succeeds,
  // undoes all of it.
  lemma {:induction false} NeverSavedAgain(m: Machine, r: Ledger, events: seq<Event>)
    requires Matches(m, r) && Spoiled(r) && Clocked(events) && forall i | 0 <= i < |events| :: events[i].Requested?
    ensures RunWith(m, events).Some? && RunWith(m, events).value.file == m.file
    ensures Matches(RunWith(m, events).value, LedgerWith(r, true, events)) && LedgerWith(r, true, events).saved == r.saved
    decreases |events|
  {
    hide Matches, Spoiled, ServeAll, BookAll, Singles, ClockedSingles;
    if |events| > 0 {
      var more, request, stored := events[1..], events[0].request, events[0].stored;
      assert forall i | 0 <= i < |more| :: more[i] == events[i + 1];
      SinglesClocked(request);
      SpoiledSteps(m, r, Singles(request), stored);
      BookAllMatches(m, r, Singles(request), stored);
      NeverSavedAgain(ServeAll(m, Singles(request), stored), BookAll(r, Singles(request)), more);
    }
  }
}
