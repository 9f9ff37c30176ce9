/** Multipart uploads: whatever the order of the part uploads and however often parts are sent again,
    the object is made of the last body sent for each number, in ascending order of the numbers. */
module S3Multipart {
  import opened Wrappers
  import opened Strings
  import opened S3Model
  import StableSort

  // ---------- the simple form: the last body for each number ----------

  function LastWrites(calls: seq<Part>): map<int, Bytes> {
    if |calls| == 0 then map[]
    else LastWrites(calls[..|calls| - 1])[calls[|calls| - 1].number := calls[|calls| - 1].body]
  }

  ghost function Some<T>(s: set<T>): (x: T)
    requires s != {}
    ensures x in s
  {
    var x :| x in s;
    x
  }

  ghost function Least(numbers: set<int>): (n: int)
    requires numbers != {}
    ensures n in numbers && forall k | k in numbers :: n <= k
  {
    var x := Some(numbers);
    assert numbers == {x} + (numbers - {x});
    if numbers == {x} then x
    else
      var rest := Least(numbers - {x});
      if rest < x then rest else x
  }

  // the parts of a map in ascending order of their numbers
  ghost function PartsOf(m: map<int, Bytes>): seq<Part>
    decreases |m|
  {
    if |m| == 0 then []
    else
      assert |m.Keys| == |m|;
      var n := Least(m.Keys);
      assert m - {n} == map k | k in m && k != n :: m[k];
      assert (m - {n}).Keys == m.Keys - {n};
      assert |(m - {n}).Keys| < |m.Keys|;
      [Part(n, m[n])] + PartsOf(m - {n})
  }

  // ---------- the stored parts ----------

  // the parts stored after these calls on a new upload
  function Uploaded(calls: seq<Part>): seq<Part> {
    if |calls| == 0 then [] else UpsertPart(Uploaded(calls[..|calls| - 1]), calls[|calls| - 1])
  }

  ghost predicate UniqueNumbers(parts: seq<Part>) {
    forall i, j | 0 <= i < j < |parts| :: parts[i].number != parts[j].number
  }

  // the parts are exactly the entries of the map
  ghost predicate Represents(parts: seq<Part>, m: map<int, Bytes>) {
    && UniqueNumbers(parts)
    && (forall p :: p in parts <==> p.number in m && m[p.number] == p.body)
  }

  lemma UpsertRepresents(parts: seq<Part>, part: Part, m: map<int, Bytes>)
    requires Represents(parts, m)
    ensures Represents(UpsertPart(parts, part), m[part.number := part.body])
  {
    var r, m' := UpsertPart(parts, part), m[part.number := part.body];
    forall p | p in r ensures p.number in m' && m'[p.number] == p.body {
      var i :| 0 <= i < |r| && r[i] == p;
      assert i < |parts| ==> parts[i] in parts;
    }
    forall p: Part | p.number in m' && m'[p.number] == p.body ensures p in r {
      if p.number != part.number {
        assert p in parts;
        var i :| 0 <= i < |parts| && parts[i] == p;
        assert r[i] == p;
      } else if i :| 0 <= i < |parts| && parts[i].number == part.number {
        assert r[i] == part;
      } else {
        assert r[|parts|] == part;
      }
    }
  }

  lemma {:induction false} UploadedRepresents(calls: seq<Part>)
    ensures Represents(Uploaded(calls), LastWrites(calls))
  {
    if |calls| > 0 {
      var n := |calls| - 1;
      UploadedRepresents(calls[..n]);
      UpsertRepresents(Uploaded(calls[..n]), calls[n], LastWrites(calls[..n]));
    }
  }

  // ---------- sorting ----------

  ghost predicate AscendingNumbers(parts: seq<Part>) {
    forall i, j | 0 <= i < j < |parts| :: parts[i].number < parts[j].number
  }

  lemma SortedRepresents(parts: seq<Part>, m: map<int, Bytes>)
    requires Represents(parts, m)
    ensures AscendingNumbers(SortedParts(parts)) && Represents(SortedParts(parts), m)
  {
    forall x, y | x in parts && y in parts && x != y ensures x.number != y.number {
      assert m[x.number] == x.body && m[y.number] == y.body;
    }
    forall p ensures multiset(parts)[p] <= 1 {
      AtMostOnce(parts, p);
    }
    StableSort.SortsStrictly(PartBefore, parts);
    hide StableSort.Sort;
    var r := SortedParts(parts);
    forall i, j | 0 <= i < j < |r| ensures r[i].number < r[j].number {
      assert PartBefore(r[i], r[j]);
    }
  }

  lemma {:induction false} AtMostOnce(parts: seq<Part>, p: Part)
    requires UniqueNumbers(parts)
    ensures multiset(parts)[p] <= 1
  {
    if |parts| > 0 {
      assert parts == [parts[0]] + parts[1..];
      AtMostOnce(parts[1..], p);
      if p == parts[0] {
        assert p !in parts[1..];
      }
    }
  }

  // An ascending representation is the canonical one.
  lemma {:induction false} AscendingIsPartsOf(parts: seq<Part>, m: map<int, Bytes>)
    requires AscendingNumbers(parts) && Represents(parts, m)
    ensures parts == PartsOf(m)
    decreases |parts|
  {
    if |parts| == 0 {
      assert forall k | k in m :: Part(k, m[k]) in parts;
      assert m == map[];
    } else {
      FirstIsLeast(parts, m);
      AscendingIsPartsOf(parts[1..], m - {parts[0].number});
      assert parts == [parts[0]] + parts[1..];
    }
  }

  lemma FirstIsLeast(parts: seq<Part>, m: map<int, Bytes>)
    requires AscendingNumbers(parts) && Represents(parts, m) && |parts| > 0
    ensures |m| > 0 && parts[0] == Part(Least(m.Keys), m[Least(m.Keys)])
    ensures Represents(parts[1..], m - {parts[0].number})
  {
    assert parts[0] in parts;
    var n := Least(m.Keys);
    assert Part(n, m[n]) in parts;
    var rest := parts[1..];
    assert parts == [parts[0]] + rest;
    forall p: Part ensures p in rest <==> p.number in m - {n} && (m - {n})[p.number] == p.body {
      assert p in parts <==> p == parts[0] || p in rest;
    }
  }

  lemma SortedIsPartsOf(calls: seq<Part>)
    ensures SortedParts(Uploaded(calls)) == PartsOf(LastWrites(calls))
  {
    UploadedRepresents(calls);
    SortedRepresents(Uploaded(calls), LastWrites(calls));
    AscendingIsPartsOf(SortedParts(Uploaded(calls)), LastWrites(calls));
  }

  // ---------- the completed object ----------

  // The completed body and tag are those of the last body for each number, numbers ascending.
  lemma CompletedFromLastWrites(upload: Upload, calls: seq<Part>)
    requires upload.parts == Uploaded(calls)
    ensures Completed(upload).body == Assembled(PartsOf(LastWrites(calls)))
    ensures Completed(upload).size == |Completed(upload).body|
    ensures Completed(upload).etag == MultipartTag(OfDigests(PartDigests(PartsOf(LastWrites(calls)))), |LastWrites(calls)|)
  {
    SortedIsPartsOf(calls);
    PartsOfSize(LastWrites(calls));
  }

  lemma {:induction false} PartsOfSize(m: map<int, Bytes>)
    ensures |PartsOf(m)| == |m|
    decreases |m|
  {
    if |m| > 0 {
      var n := Least(m.Keys);
      assert (m - {n}).Keys == m.Keys - {n};
      PartsOfSize(m - {n});
    }
  }

  // The order of the calls and repeated uploads do not matter.
  lemma SameLastWritesSameObject(upload: Upload, calls: seq<Part>, calls': seq<Part>)
    requires LastWrites(calls) == LastWrites(calls')
    ensures Completed(upload.(parts := Uploaded(calls))) == Completed(upload.(parts := Uploaded(calls')))
  {
    SortedIsPartsOf(calls);
    SortedIsPartsOf(calls');
  }

  function Bodies(parts: seq<Part>): (bodies: seq<Bytes>)
    ensures |bodies| == |parts|
    ensures forall i | 0 <= i < |parts| :: bodies[i] == parts[i].body
  {
    seq(|parts|, i requires 0 <= i < |parts| => parts[i].body)
  }

  // Two completed uploads have the same tag exactly if they were made of the same bodies in the same order, whatever their
  // part numbers; and then they have the same bytes.
  lemma TagsTellBodies(a: Upload, b: Upload, calls: seq<Part>, calls': seq<Part>)
    requires a.parts == Uploaded(calls) && b.parts == Uploaded(calls')
    ensures Completed(a).etag == Completed(b).etag
      <==> Bodies(PartsOf(LastWrites(calls))) == Bodies(PartsOf(LastWrites(calls')))
    ensures Completed(a).etag == Completed(b).etag ==> Completed(a).body == Completed(b).body && Completed(a).size == Completed(b).size
  {
    var m, m' := LastWrites(calls), LastWrites(calls');
    CompletedFromLastWrites(a, calls);
    CompletedFromLastWrites(b, calls');
    PartsOfSize(m);
    PartsOfSize(m');
    hide Completed, PartsOf, LastWrites, Uploaded;
    var p, q := PartsOf(m), PartsOf(m');
    if Bodies(p) == Bodies(q) {
      assert |p| == |Bodies(p)| == |Bodies(q)| == |q|;
      forall i | 0 <= i < |p| ensures PartDigests(p)[i] == PartDigests(q)[i] {
        assert Bodies(p)[i] == Bodies(q)[i];
      }
      assert PartDigests(p) == PartDigests(q);
    }
    if PartDigests(p) == PartDigests(q) {
      SameDigests(p, q);
      assert |p| == |PartDigests(p)| == |PartDigests(q)| == |q|;
      forall i | 0 <= i < |p| ensures Bodies(p)[i] == Bodies(q)[i] {
        assert PartDigests(p)[i] == PartDigests(q)[i];
      }
      assert Bodies(p) == Bodies(q);
    }
  }

  lemma {:induction false} SameDigests(a: seq<Part>, b: seq<Part>)
    requires PartDigests(a) == PartDigests(b)
    ensures Assembled(a) == Assembled(b)
  {
    assert |a| == |PartDigests(a)| == |PartDigests(b)| == |b|;
    if |a| > 0 {
      assert PartDigests(a)[0] == PartDigests(b)[0];
      assert PartDigests(a[1..]) == PartDigests(a)[1..] == PartDigests(b)[1..] == PartDigests(b[1..]);
      SameDigests(a[1..], b[1..]);
    }
  }

  // ---------- uploads over runs ----------

  // the parts that requests send to an upload
  function PartsSent(u: string, requests: seq<Request>): seq<Part> {
    if |requests| == 0 then [] else Sent(u, requests[0].op) + PartsSent(u, requests[1..])
  }

  function Sent(u: string, op: Op): (parts: seq<Part>)
    ensures |parts| <= 1
  {
    if op.OpUploadPart? && TrimSpace(op.uploadId) == u && op.number >= 1 then [Part(op.number, op.body)] else []
  }

  ghost predicate NeverCreates(u: string, requests: seq<Request>) {
    forall i | 0 <= i < |requests| :: requests[i].op.OpCreateUpload? ==> requests[i].op.uploadId != u
  }

  predicate UploadRequest(op: Op) {
    op.OpCreateUpload? || op.OpUploadPart? || op.OpCompleteUpload? || op.OpAbortUpload?
  }

  // One request adds its part, ends the upload or leaves it alone.
  lemma UploadStep(w: World, u: string, request: Request)
    requires u != "" && (request.op.OpCreateUpload? ==> request.op.uploadId != u)
    ensures var w', sent := Step(w, request.op, request.env), Sent(u, request.op);
      u in w'.uploads ==>
        && u in w.uploads
        && w'.uploads[u] == if sent == [] then w.uploads[u]
                            else w.uploads[u].(parts := UpsertPart(w.uploads[u].parts, sent[0]))
  {
    if UploadRequest(request.op) {
      hide TrimSpace, CheckedId, Completed, Normalized, Blocked, UpsertPart, Reprotected, StoreObject;
    } else {
      hide Step;
      OtherUploads(w, request.op, request.env);
    }
  }

  lemma OtherUploads(w: World, op: Op, env: Env)
    requires !UploadRequest(op)
    ensures forall u | u in Step(w, op, env).uploads :: u in w.uploads && Step(w, op, env).uploads[u] == w.uploads[u]
  {
    hide TrimSpace, CheckedId, RequireBucket, RequireObject, PutTo, CopyObject, FreshObject, Normalized, Blocked, BucketEmpty,
      RemoveObject, RemoveEach, DropBucket, ValidBucketName, Reduces;
    match op
    case OpDeleteObject(bucket, key) =>
      if CheckedId(w, bucket, key).Ok? {
        RemoveUploads(w, CheckedId(w, bucket, key).value, env);
      }
    case OpDeleteObjects(bucket, keys, quiet) =>
      if RequireBucket(w, bucket).Ok? {
        RemoveEachUploads(w, RequireBucket(w, bucket).value, keys, quiet, env);
      }
    case OpPutObject(bucket, key, body, contentType, metadata, headers) =>
      if CheckedId(w, bucket, key).Ok? {
        var id := CheckedId(w, bucket, key).value;
        StoreUploads(w, id, id, body, TypeOr(contentType), metadata, headers, env);
      }
    case OpCopyObject(bucket, key, sourceBucket, sourceKey, directive, metadata) =>
      CopyUploads(w, bucket, key, sourceBucket, sourceKey, directive, metadata, env);
    case _ =>
  }

  lemma RemoveUploads(w: World, id: ObjectId, env: Env)
    ensures RemoveObject(w, id, env).0.uploads == w.uploads
  {
    hide Blocked, NextSequence;
  }

  lemma {:induction false} RemoveEachUploads(w: World, bucket: string, keys: seq<string>, quiet: bool, env: Env)
    ensures RemoveEach(w, bucket, keys, quiet, env).0.uploads == w.uploads
    decreases |keys|
  {
    hide TrimSpace, RemoveObject;
    if |keys| > 0 {
      var key := TrimSpace(keys[0]);
      if key == "" {
        RemoveEachUploads(w, bucket, keys[1..], quiet, NextSave(env));
      } else {
        RemoveUploads(w, ObjectId(bucket, key), env);
        RemoveEachUploads(RemoveObject(w, ObjectId(bucket, key), env).0, bucket, keys[1..], quiet, NextSave(env));
      }
    }
  }

  lemma StoreUploads(w: World, id: ObjectId, from: ObjectId, body: Bytes, contentType: string,
                     metadata: map<string, string>, headers: map<string, string>, env: Env)
    ensures PutTo(w, id, body, contentType, metadata, headers, env).uploads == w.uploads
    ensures CopyTo(w, id, from, body, contentType, metadata, headers, env).uploads == w.uploads
  {
    hide Reprotected, ApplyDefaultRetention, CopyProtection, ClearProtection, FreshObject, Upsert, RecordVersion;
  }

  lemma CopyUploads(w: World, bucket: string, key: string, sourceBucket: string, sourceKey: string,
                    directive: string, metadata: map<string, string>, env: Env)
    ensures CopyObject(w, bucket, key, sourceBucket, sourceKey, directive, metadata, env).0.uploads == w.uploads
  {
    hide TrimSpace, CheckedId, CopyTo, SourceBytes, FreshObject, Normalized, Blocked;
    var to, from := CheckedId(w, bucket, key), CheckedId(w, sourceBucket, sourceKey);
    if to.Ok? && from.Ok? && from.value in w.state.objects && SourceBytes(w, w.state.objects[from.value]).Some? {
      var source := w.state.objects[from.value];
      StoreUploads(w, to.value, from.value, SourceBytes(w, source).value, source.contentType,
                   ResolvedMetadata(source.metadata, directive, metadata), source.headers, env);
    }
  }

  // However other requests come between, a pending upload holds the parts sent to it since it began.
  lemma {:induction false} PartsOverRuns(w: World, u: string, calls: seq<Part>, requests: seq<Request>)
    requires NeverCreates(u, requests) && u != ""
    requires u in w.uploads ==> w.uploads[u].parts == Uploaded(calls)
    ensures u in Run(w, requests).uploads ==>
      && u in w.uploads
      && Run(w, requests).uploads[u] == w.uploads[u].(parts := Uploaded(calls + PartsSent(u, requests)))
    decreases |requests|
  {
    if |requests| == 0 {
      assert calls + [] == calls;
    } else {
      var next, more := requests[0], requests[1..];
      var w1, sent := Step(w, next.op, next.env), Sent(u, next.op);
      assert NeverCreates(u, more) by {
        assert forall i | 0 <= i < |more| :: more[i] == requests[i + 1];
      }
      assert PartsSent(u, requests) == sent + PartsSent(u, more);
      UploadStep(w, u, next);
      UploadedMore(calls, sent);
      hide Step, UpsertPart, Uploaded, PartsSent, Sent, NeverCreates;
      PartsOverRuns(w1, u, calls + sent, more);
      JoinsAssociate(calls, sent, PartsSent(u, more));
    }
  }

  lemma JoinsAssociate<T>(a: seq<T>, b: seq<T>, c: seq<T>)
    ensures a + b + c == a + (b + c)
  {
  }

  lemma UploadedMore(calls: seq<Part>, sent: seq<Part>)
    requires |sent| <= 1
    ensures Uploaded(calls + sent) == if sent == [] then Uploaded(calls) else UpsertPart(Uploaded(calls), sent[0])
  {
    if sent == [] {
      assert calls + sent == calls;
    } else {
      assert (calls + sent)[..|calls|] == calls;
    }
  }
}
