/** The S3 state object: slices of buckets, objects and versioning settings that are searched and changed in place,
    the version history, and maps of governance settings. */
module S3Domain {
  import opened Wrappers
  import opened Strings
  import opened KeyedSeq
  import opened KeyedListing
  import opened KeyOrder
  import S3Listing
  import S3Versions
  import StableSort
  import opened S3Model

  datatype Setting = Setting(bucket: string, status: Status)

  function BucketName(b: Bucket): string { b.name }
  function SettingName(s: Setting): string { s.bucket }

  ghost function StatusMap(settings: seq<Setting>): map<string, Status>
    requires Unique(SettingName, settings)
  {
    var m := ToMap(SettingName, settings);
    map b | b in m :: m[b].status
  }

  lemma SettingReplaced(settings: seq<Setting>, i: nat, s: Setting)
    requires i < |settings| && Unique(SettingName, settings) && s.bucket == settings[i].bucket
    ensures Unique(SettingName, settings[i := s])
    ensures StatusMap(settings[i := s]) == StatusMap(settings)[s.bucket := s.status]
  {
    ReplaceAt(SettingName, settings, i, s);
    Found(SettingName, settings, i);
  }

  lemma SettingAppended(settings: seq<Setting>, s: Setting)
    requires Unique(SettingName, settings) && Absent(SettingName, settings, s.bucket)
    ensures Unique(SettingName, settings + [s])
    ensures StatusMap(settings + [s]) == StatusMap(settings)[s.bucket := s.status]
  {
    Append(SettingName, settings, s);
    AbsentFromMap(SettingName, settings, s.bucket);
  }

  lemma SettingRemoved(settings: seq<Setting>, i: nat)
    requires i < |settings| && Unique(SettingName, settings)
    ensures Unique(SettingName, settings[..i] + settings[i + 1..])
    ensures StatusMap(settings[..i] + settings[i + 1..]) == StatusMap(settings) - {settings[i].bucket}
  {
    RemoveAt(SettingName, settings, i);
    Found(SettingName, settings, i);
  }

  // ---------- listings ----------

  function ObjectBucket(o: Object): string { o.bucket }
  function ObjectKey(o: Object): string { o.key }

  // State.ListObjects
  function ListObjects(objects: seq<Object>, bucket: string): seq<Object> {
    Listing(ObjectBucket, ObjectKey, objects, bucket)
  }

  // the keys of a bucket, in ascending order
  ghost function KeysIn(objects: map<ObjectId, Object>, bucket: string): seq<string> {
    SortedKeys(set id | id in objects && id.bucket == bucket :: id.key)
  }

  // The listing of a bucket goes through its keys in ascending order.
  lemma ListingOfBucket(objects: seq<Object>, bucket: string)
    requires Unique(ObjectIdOf, objects)
    ensures var listed, m := ListObjects(objects, bucket), ToMap(ObjectIdOf, objects);
      && Keys(ObjectKey, listed) == KeysIn(m, bucket)
      && Ascending(KeysIn(m, bucket))
      && forall i | 0 <= i < |listed| ::
           ObjectId(bucket, listed[i].key) in m && m[ObjectId(bucket, listed[i].key)] == listed[i]
  {
    var listed := ListObjects(objects, bucket);
    assert Distinct(ObjectBucket, ObjectKey, objects) by {
      forall i, j | 0 <= i < j < |objects|
        ensures ObjectBucket(objects[i]) != ObjectBucket(objects[j]) || ObjectKey(objects[i]) != ObjectKey(objects[j])
      {
        assert ObjectIdOf(objects[i]) != ObjectIdOf(objects[j]);
      }
    }
    ListingAscends(ObjectBucket, ObjectKey, objects, bucket);
    SameKeys(objects, bucket, listed);
    forall i | 0 <= i < |listed|
      ensures ObjectId(bucket, listed[i].key) in ToMap(ObjectIdOf, objects)
      ensures ToMap(ObjectIdOf, objects)[ObjectId(bucket, listed[i].key)] == listed[i]
    {
      assert listed[i] in listed;
      assert ObjectIdOf(listed[i]) == ObjectId(bucket, listed[i].key);
    }
  }

  lemma SameKeys(objects: seq<Object>, bucket: string, listed: seq<Object>)
    requires Unique(ObjectIdOf, objects) && Ascending(Keys(ObjectKey, listed))
    requires forall x :: x in listed <==> x in objects && x.bucket == bucket
    ensures Keys(ObjectKey, listed) == KeysIn(ToMap(ObjectIdOf, objects), bucket)
  {
    var m := ToMap(ObjectIdOf, objects);
    var names := set id | id in m && id.bucket == bucket :: id.key;
    forall k ensures k in Keys(ObjectKey, listed) <==> k in names {
      if k in Keys(ObjectKey, listed) {
        var i :| 0 <= i < |listed| && Keys(ObjectKey, listed)[i] == k;
        assert listed[i] in objects;
        assert ObjectIdOf(listed[i]) in m && ObjectIdOf(listed[i]).key == k;
      }
      if k in names {
        var id :| id in m && id.bucket == bucket && id.key == k;
        var x := m[id];
        assert x in listed;
        var i :| 0 <= i < |listed| && listed[i] == x;
        assert Keys(ObjectKey, listed)[i] == k;
      }
    }
    SortedKeysAscend(names);
    AscendingUnique(Keys(ObjectKey, listed), SortedKeys(names));
  }

  // ---------- pages ----------

  // indexOfDelimiter
  method IndexOfDelimiter(value: string, delimiter: string) returns (index: int)
    ensures index == match S3Listing.FirstIndex(value, delimiter) { case None => -1 case Some(i) => i }
  {
    if delimiter == "" || |delimiter| > |value| {
      return -1;
    }
    for i := 0 to |value| - |delimiter| + 1
      invariant forall j | 0 <= j < i :: !S3Listing.OccursAt(value, delimiter, j)
    {
      if value[i..i + |delimiter|] == delimiter {
        assert S3Listing.OccursAt(value, delimiter, i);
        return i;
      }
    }
    index := -1;
  }

  // what the listing loop has done when it has used up the first i keys
  ghost predicate Listed(group: S3Listing.Grouper, keys: seq<string>, i: nat, done: seq<S3Listing.Entry>)
    requires i <= |keys|
  {
    && S3Listing.Entries(group, keys) == done + S3Listing.Entries(group, keys[i..])
    && S3Listing.Used(done) == i
  }

  // no key from i on starts with a prefix that was rolled up
  ghost predicate Passed(keys: seq<string>, i: nat, seen: set<string>)
    requires i <= |keys|
  {
    forall p, j | p in seen && i <= j < |keys| :: !(p <= keys[j])
  }

  lemma EntriesHead(group: S3Listing.Grouper, keys: seq<string>)
    requires |keys| > 0
    ensures var e := S3Listing.FirstEntry(group, keys);
      S3Listing.Entries(group, keys) == [e] + S3Listing.Entries(group, keys[e.Span()..])
  {
  }

  lemma EntryAppended(done: seq<S3Listing.Entry>, e: S3Listing.Entry)
    ensures S3Listing.Leaves(done + [e]) == S3Listing.Leaves(done) + (if e.Leaf? then [e.key] else [])
    ensures S3Listing.Prefixes(done + [e]) == S3Listing.Prefixes(done) + (if e.Rolled? then [e.prefix] else [])
    ensures S3Listing.Used(done + [e]) == S3Listing.Used(done) + e.Span()
  {
    S3Listing.Concatenated(done, [e]);
    assert [e][1..] == [];
  }

  lemma ListedEntry(group: S3Listing.Grouper, keys: seq<string>, i: nat, done: seq<S3Listing.Entry>)
    requires i < |keys| && Listed(group, keys, i, done)
    ensures var e := S3Listing.FirstEntry(group, keys[i..]);
      i + e.Span() <= |keys| && Listed(group, keys, i + e.Span(), done + [e])
  {
    hide S3Listing.Entries, S3Listing.FirstEntry, S3Listing.Used;
    var e := S3Listing.FirstEntry(group, keys[i..]);
    EntriesHead(group, keys[i..]);
    EntryAppended(done, e);
    assert keys[i..][e.Span()..] == keys[i + e.Span()..];
    var rest := S3Listing.Entries(group, keys[i + e.Span()..]);
    assert done + ([e] + rest) == done + [e] + rest;
  }

  // the length of the run of keys that start with p is the number that were passed over
  lemma {:induction false} LeadLengthIs(keys: seq<string>, p: string, n: nat)
    requires n <= |keys| && (forall j | 0 <= j < n :: p <= keys[j]) && (n < |keys| ==> !(p <= keys[n]))
    ensures S3Listing.LeadLength(keys, p) == n
  {
    if n > 0 {
      LeadLengthIs(keys[1..], p, n - 1);
    }
  }

  // Past a run of keys with a common prefix no key has that prefix.
  lemma RunPassed(keys: seq<string>, i: nat, n: nat, seen: set<string>, p: string)
    requires Ascending(keys) && i < n <= |keys| && Passed(keys, i, seen)
    requires p <= keys[i] && (n < |keys| ==> !(p <= keys[n]))
    ensures Passed(keys, n, seen + {p})
  {
    forall j | n <= j < |keys| ensures !(p <= keys[j]) {
      if p <= keys[j] {
        PrefixContiguous(p, keys[i], keys[n], keys[j]);
      }
    }
  }

  // The page that ends with these entries.
  lemma PageFrom(o: S3Listing.Options, keys: seq<string>, i: nat, done: seq<S3Listing.Entry>)
    requires var sel := S3Listing.Selected(o, keys);
      i <= |sel| && Listed(S3Listing.Grouping(o), sel, i, done)
    requires |done| <= S3Listing.MaxKeys(o.maxKeys)
    requires i < |S3Listing.Selected(o, keys)| ==> |done| == S3Listing.MaxKeys(o.maxKeys)
    ensures var sel := S3Listing.Selected(o, keys);
      S3Listing.PageOf(o, keys) == S3Listing.Page(S3Listing.Leaves(done), S3Listing.Prefixes(done), i < |sel|,
                                                  if i > 0 then sel[i - 1] else "")
  {
    var sel := S3Listing.Selected(o, keys);
    assert S3Listing.PageEntries(o, keys) == done;
  }

  // the marker after the first i keys
  function MarkerAt(keys: seq<string>, i: nat): string
    requires i <= |keys|
  {
    if i > 0 then keys[i - 1] else ""
  }

  // the keys of a listing with the prefix that come after the marker
  method SelectKeys(o: S3Listing.Options, listed: seq<Object>) returns (keys: seq<string>)
    ensures keys == S3Listing.Selected(o, Keys(ObjectKey, listed))
  {
    keys := [];
    for i := |listed| downto 0
      invariant keys == S3Listing.Selected(o, Keys(ObjectKey, listed[i..]))
    {
      var key := listed[i].key;
      assert Keys(ObjectKey, listed[i..])[1..] == Keys(ObjectKey, listed[i + 1..]);
      if o.prefix <= key && Less(o.startAfter, key) {
        keys := [key] + keys;
      }
    }
    assert listed[0..] == listed;
  }

  // the inner loop of ListObjectPage: past the keys that start with the prefix
  method SkipRun(keys: seq<string>, start: nat, prefix: string) returns (i: nat, marker: string)
    requires start < |keys|
    ensures start < i <= |keys| && marker == keys[i - 1]
    ensures forall j | start < j < i :: prefix <= keys[j]
    ensures i < |keys| ==> !(prefix <= keys[i])
  {
    i, marker := start + 1, keys[start];
    while i < |keys| && prefix <= keys[i]
      invariant start < i <= |keys| && marker == keys[i - 1]
      invariant forall j | start < j < i :: prefix <= keys[j]
    {
      marker := keys[i];
      i := i + 1;
    }
  }

  // the variables of the listing loop
  datatype Rolling = Rolling(
    leaves: seq<string>, prefixes: seq<string>, marker: string, count: nat, i: nat, seen: set<string>)

  // what they hold when these entries are done
  ghost predicate Reached(group: S3Listing.Grouper, keys: seq<string>, r: Rolling, done: seq<S3Listing.Entry>) {
    && r.i <= |keys| && Listed(group, keys, r.i, done) && Passed(keys, r.i, r.seen)
    && r.count == |done|
    && r.leaves == S3Listing.Leaves(done) && r.prefixes == S3Listing.Prefixes(done)
    && r.marker == MarkerAt(keys, r.i)
  }

  lemma ReachedStart(group: S3Listing.Grouper, keys: seq<string>)
    ensures Reached(group, keys, Rolling([], [], "", 0, 0, {}), [])
  {
    assert keys[0..] == keys && [] + S3Listing.Entries(group, keys) == S3Listing.Entries(group, keys);
  }

  // one more key
  lemma ReachedKey(group: S3Listing.Grouper, keys: seq<string>, r: Rolling, done: seq<S3Listing.Entry>, key: string)
    requires Reached(group, keys, r, done) && r.i < |keys| && keys[r.i] == key && group(key).None?
    ensures Reached(group, keys, Rolling(r.leaves + [key], r.prefixes, key, r.count + 1, r.i + 1, r.seen),
                    done + [S3Listing.Leaf(key)])
  {
    hide S3Listing.Entries, S3Listing.Leaves, S3Listing.Prefixes, S3Listing.Used, Listed;
    assert keys[r.i..][0] == key;
    ListedEntry(group, keys, r.i, done);
    EntryAppended(done, S3Listing.Leaf(key));
  }

  // a common prefix is met once
  lemma ReachedUnseen(group: S3Listing.Grouper, keys: seq<string>, r: Rolling, done: seq<S3Listing.Entry>, prefix: string)
    requires Reached(group, keys, r, done) && r.i < |keys| && prefix <= keys[r.i]
    ensures prefix !in r.seen
  {
  }

  // one more common prefix, past all keys that start with it
  lemma ReachedGroup(group: S3Listing.Grouper, keys: seq<string>, r: Rolling, done: seq<S3Listing.Entry>, prefix: string, end: nat)
    requires Reached(group, keys, r, done) && Ascending(keys) && r.i < end <= |keys|
    requires group(keys[r.i]) == Some(prefix) && prefix <= keys[r.i]
    requires (forall j | r.i < j < end :: prefix <= keys[j]) && (end < |keys| ==> !(prefix <= keys[end]))
    ensures Reached(group, keys, Rolling(r.leaves, r.prefixes + [prefix], keys[end - 1], r.count + 1, end, r.seen + {prefix}),
                    done + [S3Listing.Rolled(prefix, end - r.i)])
  {
    hide S3Listing.Entries, S3Listing.Leaves, S3Listing.Prefixes, S3Listing.Used, Listed, S3Listing.FirstEntry, Passed, Less;
    RunEnds(group, keys, r.i, end, prefix);
    ListedEntry(group, keys, r.i, done);
    EntryAppended(done, S3Listing.Rolled(prefix, end - r.i));
    RunPassed(keys, r.i, end, r.seen, prefix);
  }

  // the outer loop of ListObjectPage
  method RollUp(o: S3Listing.Options, all: seq<string>, keys: seq<string>) returns (page: S3Listing.Page)
    requires Ascending(all) && keys == S3Listing.Selected(o, all)
    ensures page == S3Listing.PageOf(o, all)
  {
    hide Reached, S3Listing.Selected, S3Listing.Grouping, S3Listing.PageOf, Ascending, S3Listing.FirstIndex, MarkerAt;
    var max := S3Listing.MaxKeys(o.maxKeys);
    var leaves: seq<string> := [];
    var prefixes: seq<string> := [];
    var truncated, marker, count, i := false, "", 0, 0;
    var seen: set<string> := {};
    ghost var group := S3Listing.Grouping(o);
    ghost var done: seq<S3Listing.Entry> := [];
    ReachedStart(group, keys);
    while i < |keys|
      invariant i <= |keys| && count <= max && !truncated
      invariant Reached(group, keys, Rolling(leaves, prefixes, marker, count, i, seen), done)
    {
      var key := keys[i];
      KeySelected(o, all, i);
      var index := IndexOfDelimiter(key[|o.prefix|..], o.delimiter);
      GroupAt(o, key, index);
      if index >= 0 {
        var prefix := o.prefix + key[|o.prefix|..][..index + |o.delimiter|];
        ghost var before := Rolling(leaves, prefixes, marker, count, i, seen);
        ReachedUnseen(group, keys, before, done, prefix);
        if prefix !in seen {
          if count >= max {
            truncated := true;
            break;
          }
          seen := seen + {prefix};
          prefixes := prefixes + [prefix];
          count := count + 1;
        }
        i, marker := SkipRun(keys, i, prefix);
        ReachedGroup(group, keys, before, done, prefix, i);
        done := done + [S3Listing.Rolled(prefix, i - before.i)];
      } else {
        if count >= max {
          truncated := true;
          break;
        }
        ReachedKey(group, keys, Rolling(leaves, prefixes, marker, count, i, seen), done, key);
        leaves := leaves + [key];
        marker := key;
        count := count + 1;
        done := done + [S3Listing.Leaf(key)];
        i := i + 1;
      }
    }
    page := S3Listing.Page(leaves, prefixes, truncated, marker);
    PageReached(o, all, Rolling(leaves, prefixes, marker, count, i, seen), done);
  }

  lemma KeySelected(o: S3Listing.Options, all: seq<string>, i: nat)
    requires Ascending(all) && i < |S3Listing.Selected(o, all)|
    ensures o.prefix <= S3Listing.Selected(o, all)[i] && Ascending(S3Listing.Selected(o, all))
  {
    S3Listing.SelectedKeys(o, all);
    assert S3Listing.Selected(o, all)[i] in S3Listing.Selected(o, all);
  }

  lemma PageReached(o: S3Listing.Options, all: seq<string>, r: Rolling, done: seq<S3Listing.Entry>)
    requires Reached(S3Listing.Grouping(o), S3Listing.Selected(o, all), r, done)
    requires r.i <= |S3Listing.Selected(o, all)| && r.count <= S3Listing.MaxKeys(o.maxKeys)
    requires r.i < |S3Listing.Selected(o, all)| ==> r.count == S3Listing.MaxKeys(o.maxKeys)
    ensures S3Listing.PageOf(o, all) ==
      S3Listing.Page(r.leaves, r.prefixes, r.i < |S3Listing.Selected(o, all)|, r.marker)
  {
    PageFrom(o, all, r.i, done);
  }

  lemma GroupAt(o: S3Listing.Options, key: string, index: int)
    requires o.prefix <= key
    requires index == match S3Listing.FirstIndex(key[|o.prefix|..], o.delimiter) { case None => -1 case Some(i) => i }
    ensures index >= 0 ==> index + |o.delimiter| <= |key[|o.prefix|..]|
    ensures S3Listing.Grouping(o)(key) ==
      if index < 0 then None else Some(o.prefix + key[|o.prefix|..][..index + |o.delimiter|])
    ensures index >= 0 ==> o.prefix + key[|o.prefix|..][..index + |o.delimiter|] <= key
  {
    if index >= 0 {
      S3Listing.GroupIsPrefix(o.prefix, o.delimiter, key);
    }
  }

  lemma RunEnds(group: S3Listing.Grouper, keys: seq<string>, start: nat, i: nat, p: string)
    requires start < i <= |keys| && group(keys[start]) == Some(p)
    requires (forall j | start < j < i :: p <= keys[j]) && (i < |keys| ==> !(p <= keys[i]))
    ensures S3Listing.FirstEntry(group, keys[start..]) == S3Listing.Rolled(p, i - start)
    ensures S3Listing.Rolled(p, i - start).Span() == i - start
  {
    LeadLengthIs(keys[start..][1..], p, i - start - 1);
  }

  // ---------- the object ----------

  class State {
    var buckets: seq<Bucket>
    var objects: seq<Object>
    var versioning: seq<Setting>
    var history: seq<VersionRecord>
    var configs: map<ConfigId, Bytes>
    var locks: map<string, LockConfig>
    var acls: map<ObjectId, Bytes>
    var taggings: map<ObjectId, Bytes>
    var retention: map<ObjectId, Retention>
    var holds: map<ObjectId, Hold>

    // the state as a value
    ghost var value: S3Model.State

    ghost predicate Valid()
      reads this
    {
      && Unique(BucketName, buckets) && Unique(ObjectIdOf, objects) && Unique(SettingName, versioning)
      && value == S3Model.State(ToMap(BucketName, buckets), ToMap(ObjectIdOf, objects), StatusMap(versioning), history,
                                configs, locks, acls, taggings, retention, holds)
    }

    constructor ()
      ensures Valid() && value == S3Model.EMPTY.state
    {
      buckets, objects, versioning, history := [], [], [], [];
      configs, locks, acls, taggings, retention, holds := map[], map[], map[], map[], map[], map[];
      value := S3Model.EMPTY.state;
    }

    // ---------- lookups ----------

    method HasBucket(name: string) returns (found: bool)
      requires Valid()
      ensures found <==> name in value.buckets
    {
      for i := 0 to |buckets|
        invariant forall j | 0 <= j < i :: buckets[j].name != name
      {
        if buckets[i].name == name {
          Found(BucketName, buckets, i);
          return true;
        }
      }
      AbsentFromMap(BucketName, buckets, name);
      found := false;
    }

    method FindBucket(name: string) returns (found: Option<Bucket>)
      requires Valid()
      ensures found == if name in value.buckets then Some(value.buckets[name]) else None
    {
      for i := 0 to |buckets|
        invariant forall j | 0 <= j < i :: buckets[j].name != name
      {
        if buckets[i].name == name {
          Found(BucketName, buckets, i);
          return Some(buckets[i]);
        }
      }
      AbsentFromMap(BucketName, buckets, name);
      found := None;
    }

    method FindObject(id: ObjectId) returns (found: Option<Object>)
      requires Valid()
      ensures found == if id in value.objects then Some(value.objects[id]) else None
    {
      for i := 0 to |objects|
        invariant forall j | 0 <= j < i :: ObjectIdOf(objects[j]) != id
      {
        if objects[i].bucket == id.bucket && objects[i].key == id.key {
          Found(ObjectIdOf, objects, i);
          return Some(objects[i]);
        }
      }
      AbsentFromMap(ObjectIdOf, objects, id);
      found := None;
    }

    method VersioningStatus(bucket: string) returns (status: Option<Status>)
      requires Valid()
      ensures status == if bucket in value.versioning then Some(value.versioning[bucket]) else None
    {
      for i := 0 to |versioning|
        invariant forall j | 0 <= j < i :: versioning[j].bucket != bucket
      {
        if versioning[i].bucket == bucket {
          Found(SettingName, versioning, i);
          return Some(versioning[i].status);
        }
      }
      AbsentFromMap(SettingName, versioning, bucket);
      status := None;
    }

    // ---------- buckets ----------

    // A bucket that exists keeps its creation time, and its region unless another one is given.
    method UpsertBucket(bucket: Bucket, now: nat) returns (upserted: Bucket)
      requires Valid()
      modifies this
      ensures Valid() && bucket.name in value.buckets && upserted == value.buckets[bucket.name]
      ensures var created := bucket.(createdAt := if bucket.createdAt == 0 then now else bucket.createdAt);
        value == old(value).(buckets := old(value).buckets[bucket.name :=
          if bucket.name !in old(value).buckets then created
          else
            var found := old(value).buckets[bucket.name];
            Bucket(bucket.name, if bucket.region != "" then bucket.region else found.region,
                   if found.createdAt == 0 then created.createdAt else found.createdAt)])
    {
      hide StatusMap, ToMap;
      var created := bucket.(createdAt := if bucket.createdAt == 0 then now else bucket.createdAt);
      for i := 0 to |buckets|
        invariant buckets == old(buckets)
        invariant forall j | 0 <= j < i :: buckets[j].name != bucket.name
      {
        if buckets[i].name == bucket.name {
          var found := buckets[i];
          var merged := found;
          if bucket.region != "" {
            merged := merged.(region := bucket.region);
          }
          if found.createdAt == 0 {
            merged := merged.(createdAt := created.createdAt);
          }
          Found(BucketName, buckets, i);
          ReplaceAt(BucketName, buckets, i, merged);
          buckets := buckets[i := merged];
          value := value.(buckets := ToMap(BucketName, buckets));
          return merged;
        }
      }
      AbsentFromMap(BucketName, buckets, bucket.name);
      Append(BucketName, buckets, created);
      buckets := buckets + [created];
      value := value.(buckets := ToMap(BucketName, buckets));
      upserted := created;
    }

    method HasObjects(bucket: string) returns (some: bool)
      requires Valid()
      ensures some <==> exists id :: id in value.objects && id.bucket == bucket
    {
      for i := 0 to |objects|
        invariant forall j | 0 <= j < i :: objects[j].bucket != bucket
      {
        if objects[i].bucket == bucket {
          Found(ObjectIdOf, objects, i);
          assert ObjectIdOf(objects[i]) in value.objects;
          return true;
        }
      }
      forall id | id in value.objects ensures id.bucket != bucket {
        assert value.objects[id] in objects;
      }
      some := false;
    }

    method HasHistory(bucket: string) returns (some: bool)
      ensures some <==> exists i :: 0 <= i < |history| && history[i].bucket == bucket
    {
      for i := 0 to |history|
        invariant forall j | 0 <= j < i :: history[j].bucket != bucket
      {
        if history[i].bucket == bucket {
          return true;
        }
      }
      some := false;
    }

    method DeleteBucket(name: string) returns (deleted: bool)
      requires Valid()
      modifies this
      ensures Valid()
      ensures deleted <==> name in old(value).buckets && BucketEmpty(old(value), name)
      ensures value == if deleted then DropBucket(old(value), name) else old(value)
    {
      hide StatusMap, ToMap, OutsideBucket, ConfigsOutside;
      var occupied := HasObjects(name);
      if occupied {
        return false;
      }
      var recorded := HasHistory(name);
      if recorded {
        return false;
      }
      for i := 0 to |buckets|
        invariant Valid() && value == old(value) && buckets == old(buckets)
        invariant forall j | 0 <= j < i :: buckets[j].name != name
      {
        if buckets[i].name == name {
          Found(BucketName, buckets, i);
          RemoveAt(BucketName, buckets, i);
          buckets := buckets[..i] + buckets[i + 1..];
          value := value.(buckets := ToMap(BucketName, buckets));
          RemoveBucketVersioning(name);
          RemoveBucketGovernance(name);
          return true;
        }
      }
      AbsentFromMap(BucketName, buckets, name);
      deleted := false;
    }

    method RemoveBucketVersioning(bucket: string)
      requires Valid()
      modifies this
      ensures Valid() && value == old(value).(versioning := old(value).versioning - {bucket})
    {
      for i := 0 to |versioning|
        invariant Valid() && value == old(value) && versioning == old(versioning)
        invariant forall j | 0 <= j < i :: versioning[j].bucket != bucket
      {
        if versioning[i].bucket == bucket {
          SettingRemoved(versioning, i);
          versioning := versioning[..i] + versioning[i + 1..];
          value := value.(versioning := StatusMap(versioning));
          return;
        }
      }
      AbsentFromMap(SettingName, versioning, bucket);
      assert value.versioning - {bucket} == value.versioning;
    }

    method RemoveBucketGovernance(bucket: string)
      requires Valid()
      modifies this
      ensures Valid()
      ensures value == old(value).(
        configs := ConfigsOutside(old(value).configs, bucket),
        locks := old(value).locks - {bucket},
        acls := OutsideBucket(old(value).acls, bucket), taggings := OutsideBucket(old(value).taggings, bucket),
        retention := OutsideBucket(old(value).retention, bucket), holds := OutsideBucket(old(value).holds, bucket))
    {
      hide ToMap, StatusMap, OutsideBucket, ConfigsOutside;
      configs := ConfigsOutside(configs, bucket);
      locks := locks - {bucket};
      acls := OutsideBucket(acls, bucket);
      taggings := OutsideBucket(taggings, bucket);
      retention := OutsideBucket(retention, bucket);
      holds := OutsideBucket(holds, bucket);
      value := value.(configs := configs, locks := locks, acls := acls, taggings := taggings, retention := retention, holds := holds);
    }

    // ---------- objects ----------

    // fills in what the caller left out
    method Complete(o: Object, now: nat) returns (stored: Object)
      ensures stored == Normalized(o, now) && ObjectIdOf(stored) == ObjectIdOf(o)
    {
      stored := o;
      if stored.size == 0 {
        stored := stored.(size := |stored.body|);
      }
      if stored.etag == NoTag {
        stored := stored.(etag := BodyTag(OfBody(stored.body)));
      }
      if stored.lastModified == 0 {
        stored := stored.(lastModified := now);
      }
    }

    method UpsertObject(o: Object, now: nat) returns (stored: Object)
      requires Valid()
      modifies this
      ensures Valid() && value == Upsert(old(value), o, now) && stored == Normalized(o, now)
    {
      hide StatusMap, ToMap, Normalized;
      stored := Complete(o, now);
      for i := 0 to |objects|
        invariant Valid() && value == old(value) && objects == old(objects)
        invariant forall j | 0 <= j < i :: ObjectIdOf(objects[j]) != ObjectIdOf(stored)
      {
        if objects[i].bucket == stored.bucket && objects[i].key == stored.key {
          ReplaceAt(ObjectIdOf, objects, i, stored);
          objects := objects[i := stored];
          value := value.(objects := ToMap(ObjectIdOf, objects));
          return;
        }
      }
      Append(ObjectIdOf, objects, stored);
      objects := objects + [stored];
      value := value.(objects := ToMap(ObjectIdOf, objects));
    }

    // The protection, ACL and tags of the key go even if there is no object.
    method DeleteObject(id: ObjectId) returns (deleted: bool)
      requires Valid()
      modifies this
      ensures Valid() && value == DropObject(old(value), id) && (deleted <==> id in old(value).objects)
    {
      deleted := RemoveObject(id);
      retention, holds, acls, taggings := retention - {id}, holds - {id}, acls - {id}, taggings - {id};
      value := value.(retention := retention, holds := holds, acls := acls, taggings := taggings);
    }

    method RemoveObject(id: ObjectId) returns (deleted: bool)
      requires Valid()
      modifies this
      ensures Valid() && value == old(value).(objects := old(value).objects - {id}) && (deleted <==> id in old(value).objects)
    {
      hide StatusMap, ToMap;
      for i := 0 to |objects|
        invariant Valid() && value == old(value) && objects == old(objects)
        invariant forall j | 0 <= j < i :: ObjectIdOf(objects[j]) != id
      {
        if objects[i].bucket == id.bucket && objects[i].key == id.key {
          Found(ObjectIdOf, objects, i);
          RemoveAt(ObjectIdOf, objects, i);
          objects := objects[..i] + objects[i + 1..];
          value := value.(objects := ToMap(ObjectIdOf, objects));
          return true;
        }
      }
      AbsentFromMap(ObjectIdOf, objects, id);
      assert value.objects - {id} == value.objects;
      deleted := false;
    }

    // ---------- versions ----------

    method SetBucketVersioning(bucket: string, status: Status)
      requires Valid()
      modifies this
      ensures Valid() && value == old(value).(versioning := old(value).versioning[bucket := status])
    {
      for i := 0 to |versioning|
        invariant Valid() && value == old(value) && versioning == old(versioning)
        invariant forall j | 0 <= j < i :: versioning[j].bucket != bucket
      {
        if versioning[i].bucket == bucket {
          SettingReplaced(versioning, i, Setting(bucket, status));
          versioning := versioning[i := Setting(bucket, status)];
          value := value.(versioning := StatusMap(versioning));
          return;
        }
      }
      SettingAppended(versioning, Setting(bucket, status));
      versioning := versioning + [Setting(bucket, status)];
      value := value.(versioning := StatusMap(versioning));
    }

    method NextVersionSequence() returns (n: nat)
      ensures n == NextSequence(history)
    {
      var max := 0;
      for i := 0 to |history|
        invariant max == MaxSequence(history[..i])
      {
        assert history[..i + 1][..i] == history[..i];
        if history[i].sequence > max {
          max := history[i].sequence;
        }
      }
      assert history[..|history|] == history;
      n := max + 1;
    }

    method RecordObjectVersion(o: Object)
      requires Valid()
      modifies this
      ensures Valid() && value == RecordVersion(old(value), o)
    {
      var sequence := NextVersionSequence();
      history := history + [RecordOf(o, sequence)];
      value := value.(history := history);
    }

    method RecordDeleteMarker(id: ObjectId, now: nat)
      requires Valid()
      modifies this
      ensures Valid() && value == RecordMarker(old(value), id, now)
    {
      var sequence := NextVersionSequence();
      var marker := VersionRecord(id.bucket, id.key, sequence, true, [], NoRef, 0, "", NoTag, now, map[], map[]);
      history := history + [marker];
      value := value.(history := history);
    }

    // The records of the bucket, then a null version for each object without records, sorted.
    method ListObjectVersions(bucket: string) returns (listed: seq<VersionRecord>)
      ensures listed == S3Versions.ListVersions(history, objects, bucket)
    {
      var records: seq<VersionRecord> := [];
      for i := 0 to |history|
        invariant records == S3Versions.BucketRecords(history[..i], bucket)
      {
        assert history[..i + 1][..i] == history[..i];
        if history[i].bucket == bucket {
          records := records + [history[i]];
        }
      }
      assert history[..|history|] == history;
      var nulls := NullVersions(bucket, records);
      listed := StableSort.Sort(S3Versions.VersionBefore, records + nulls);
    }

    method NullVersions(bucket: string, records: seq<VersionRecord>) returns (nulls: seq<VersionRecord>)
      ensures nulls == S3Versions.NullRecords(objects, records, bucket)
    {
      var seen := set r | r in records :: r.key;
      nulls := [];
      for i := 0 to |objects|
        invariant nulls == S3Versions.NullRecords(objects[..i], records, bucket)
      {
        assert objects[..i + 1][..i] == objects[..i];
        SeenHasRecord(records, objects[i].key);
        if objects[i].bucket == bucket && objects[i].key !in seen {
          nulls := nulls + [S3Versions.NullRecord(objects[i])];
        }
      }
      assert objects[..|objects|] == objects;
    }

    static lemma SeenHasRecord(records: seq<VersionRecord>, key: string)
      ensures key in (set r | r in records :: r.key) <==> S3Versions.HasRecord(records, key)
    {
      if S3Versions.HasRecord(records, key) {
        var i :| 0 <= i < |records| && records[i].key == key;
        assert records[i] in records;
      }
    }

    // ---------- protection ----------

    method SetRetention(id: ObjectId, r: Retention)
      requires Valid()
      modifies this
      ensures Valid() && value == old(value).(retention := old(value).retention[id := r])
    {
      retention := retention[id := r];
      value := value.(retention := retention);
    }

    method DeleteRetention(id: ObjectId)
      requires Valid()
      modifies this
      ensures Valid() && value == old(value).(retention := old(value).retention - {id})
    {
      retention := retention - {id};
      value := value.(retention := retention);
    }

    method SetHold(id: ObjectId, hold: Hold)
      requires Valid()
      modifies this
      ensures Valid() && value == old(value).(holds := old(value).holds[id := hold])
    {
      holds := holds[id := hold];
      value := value.(holds := holds);
    }

    method DeleteHold(id: ObjectId)
      requires Valid()
      modifies this
      ensures Valid() && value == old(value).(holds := old(value).holds - {id})
    {
      holds := holds - {id};
      value := value.(holds := holds);
    }

    method SetLock(bucket: string, lock: LockConfig)
      requires Valid()
      modifies this
      ensures Valid() && value == old(value).(locks := old(value).locks[bucket := lock])
    {
      locks := locks[bucket := lock];
      value := value.(locks := locks);
    }

    // ---------- listing ----------

    // One page of the keys of a bucket, and the objects of its leaves.
    method ListObjectPage(bucket: string, o: S3Listing.Options) returns (page: S3Listing.Page, contents: seq<Object>)
      requires Valid()
      ensures Ascending(KeysIn(value.objects, bucket)) && page == S3Listing.PageOf(o, KeysIn(value.objects, bucket))
      ensures |contents| == |page.leaves|
      ensures forall i | 0 <= i < |contents| ::
        ObjectId(bucket, page.leaves[i]) in value.objects && contents[i] == value.objects[ObjectId(bucket, page.leaves[i])]
    {
      hide KeysIn, S3Listing.PageOf, S3Listing.Selected, Less, Ascending, StatusMap, Listing, ToMap;
      var listed := ListSection(ObjectBucket, ObjectKey, objects, bucket);
      ListingOfBucket(objects, bucket);
      var keys := SelectKeys(o, listed);
      page := RollUp(o, Keys(ObjectKey, listed), keys);
      contents := [];
      LeavesListed(o, Keys(ObjectKey, listed));
      for i := 0 to |page.leaves|
        invariant |contents| == i
        invariant forall j | 0 <= j < i ::
          ObjectId(bucket, page.leaves[j]) in value.objects && contents[j] == value.objects[ObjectId(bucket, page.leaves[j])]
      {
        assert page.leaves[i] in page.leaves;
        LeafObject(listed, page.leaves[i]);
        var found := FindObject(ObjectId(bucket, page.leaves[i]));
        contents := contents + [found.value];
      }
    }
  }

  lemma LeafObject(listed: seq<Object>, key: string)
    requires key in Keys(ObjectKey, listed)
    ensures exists i :: 0 <= i < |listed| && listed[i].key == key
  {
    var i :| 0 <= i < |listed| && Keys(ObjectKey, listed)[i] == key;
    assert listed[i].key == key;
  }

  // the leaves of a page are keys of the bucket
  lemma LeavesListed(o: S3Listing.Options, keys: seq<string>)
    requires Ascending(keys)
    ensures forall k | k in S3Listing.PageOf(o, keys).leaves :: k in keys
  {
    hide S3Listing.Entries, S3Listing.Leaves, S3Listing.Prefixes, S3Listing.Grouping, Ascending;
    var sel := S3Listing.Selected(o, keys);
    S3Listing.SelectedKeys(o, keys);
    S3Listing.GroupingByPrefix(o);
    S3Listing.EntriesAreListing(S3Listing.Grouping(o), sel);
    var es, some := S3Listing.Entries(S3Listing.Grouping(o), sel), S3Listing.PageEntries(o, keys);
    S3Listing.Concatenated(some, es[|some|..]);
    assert es == some + es[|some|..];
    forall k | k in S3Listing.Leaves(some) ensures k in keys {
      assert k in S3Listing.Leaves(es);
    }
  }
}
