/** Listing with prefix, delimiter and resume marker, on the ascending keys of one bucket:
    what one page holds, and what a client sees that follows the markers to the end. */
module S3Listing {
  import opened Wrappers
  import opened Strings
  import opened KeyOrder

  datatype Options = Options(prefix: string, delimiter: string, maxKeys: int, startAfter: string)

  type Grouper = string -> Option<string>

  // One entry of a listing: a key, or a common prefix with the number of keys rolled up into it.
  datatype Entry = Leaf(key: string) | Rolled(prefix: string, keyCount: nat) {
    function Span(): nat {
      if Leaf? then 1 else keyCount
    }
  }

  function MaxKeys(n: int): (r: nat)
    ensures r >= 1
  {
    if n <= 0 then 1000 else n
  }

  // ---------- common prefixes ----------

  predicate OccursAt(value: string, delimiter: string, i: int) {
    0 <= i <= |value| - |delimiter| && value[i..i + |delimiter|] == delimiter
  }

  lemma OccursShifted(value: string, delimiter: string)
    requires value != ""
    ensures forall i | i > 0 :: OccursAt(value, delimiter, i) <==> OccursAt(value[1..], delimiter, i - 1)
  {
    forall i | i > 0 ensures OccursAt(value, delimiter, i) <==> OccursAt(value[1..], delimiter, i - 1) {
      if i <= |value| - |delimiter| {
        assert value[i..i + |delimiter|] == value[1..][i - 1..i - 1 + |delimiter|];
      }
    }
  }

  function FirstIndex(value: string, delimiter: string): (r: Option<nat>)
    ensures r.Some? ==> delimiter != "" && OccursAt(value, delimiter, r.value)
    ensures r.Some? ==> forall i | 0 <= i < r.value :: !OccursAt(value, delimiter, i)
    ensures r.None? && delimiter != "" ==> forall i :: !OccursAt(value, delimiter, i)
  {
    if delimiter == "" || |delimiter| > |value| then None
    else if delimiter <= value then Some(0)
    else
      OccursShifted(value, delimiter);
      match FirstIndex(value[1..], delimiter)
      case None => assert forall i :: OccursAt(value, delimiter, i) ==> i > 0; None
      case Some(i) => Some(i + 1)
  }

  // the common prefix a key is rolled up into, if any
  function Group(prefix: string, delimiter: string, key: string): (r: Option<string>) {
    if !(prefix <= key) then None else
    var suffix := key[|prefix|..];
    match FirstIndex(suffix, delimiter)
    case None => None
    case Some(i) => Some(prefix + suffix[..i + |delimiter|])
  }

  function GroupingBy(prefix: string, delimiter: string): Grouper {
    key => Group(prefix, delimiter, key)
  }

  function Grouping(o: Options): Grouper {
    GroupingBy(o.prefix, o.delimiter)
  }

  // What paging needs of a grouping: a group is exactly the set of keys that start with its common prefix.
  ghost predicate ByPrefix(group: Grouper) {
    forall key, other | group(key).Some? ::
      && group(key).value <= key
      && (group(other) == group(key) <==> group(key).value <= other)
  }

  lemma GroupingByPrefix(o: Options)
    ensures ByPrefix(Grouping(o))
  {
    var p, d := o.prefix, o.delimiter;
    forall key, other | Group(p, d, key).Some?
      ensures Group(p, d, key).value <= key
      ensures Group(p, d, other) == Group(p, d, key) <==> Group(p, d, key).value <= other
    {
      GroupIsPrefix(p, d, key);
      if Group(p, d, other).Some? {
        GroupIsPrefix(p, d, other);
      }
      if Group(p, d, key).value <= other {
        SameGroup(p, d, key, other);
      }
    }
  }

  lemma SameGroup(prefix: string, d: string, key: string, other: string)
    requires Group(prefix, d, key).Some? && Group(prefix, d, key).value <= other
    ensures Group(prefix, d, other) == Group(prefix, d, key)
  {
    hide FirstIndex;
    var n, p := |prefix|, Group(prefix, d, key).value;
    var i := FirstIndex(key[n..], d).value;
    var j := n + i + |d|;
    assert p[..n] == prefix && p[n..] == key[n..][..i + |d|];
    assert other[..j] == p && other[n..][..i + |d|] == p[n..];
    SameFirstIndex(key[n..], other[n..], d, i);
  }

  lemma GroupIsPrefix(prefix: string, d: string, key: string)
    requires Group(prefix, d, key).Some?
    ensures Group(prefix, d, key).value <= key && prefix <= Group(prefix, d, key).value
  {
    assert key == prefix + key[|prefix|..];
  }

  lemma FirstIndexIs(value: string, d: string, i: nat)
    requires d != "" && OccursAt(value, d, i) && forall j | 0 <= j < i :: !OccursAt(value, d, j)
    ensures FirstIndex(value, d) == Some(i)
  {
    hide OccursAt, FirstIndex;
    var r := FirstIndex(value, d);
    assert r.Some? && OccursAt(value, d, r.value);
  }

  lemma SameFirstIndex(a: string, b: string, d: string, i: nat)
    requires FirstIndex(a, d) == Some(i)
    requires i + |d| <= |b| && a[..i + |d|] == b[..i + |d|]
    ensures FirstIndex(b, d) == Some(i)
  {
    hide FirstIndex;
    OccursAgree(a, b, d, i + |d|);
    hide OccursAt;
    FirstIndexIs(b, d, i);
  }

  lemma OccursAgree(a: string, b: string, d: string, n: nat)
    requires n <= |a| && n <= |b| && a[..n] == b[..n]
    ensures forall j | 0 <= j <= n - |d| :: OccursAt(a, d, j) <==> OccursAt(b, d, j)
  {
    var p := a[..n];
    forall j | 0 <= j <= n - |d| ensures OccursAt(a, d, j) <==> OccursAt(b, d, j) {
      assert a[j..j + |d|] == p[j..j + |d|] == b[j..j + |d|];
    }
  }

  // ---------- one page ----------

  function LeadLength(keys: seq<string>, p: string): (n: nat)
    ensures n <= |keys|
    ensures forall i | 0 <= i < n :: p <= keys[i]
    ensures n < |keys| ==> !(p <= keys[n])
  {
    if |keys| > 0 && p <= keys[0] then 1 + LeadLength(keys[1..], p) else 0
  }

  function FirstEntry(group: Grouper, keys: seq<string>): (e: Entry)
    requires |keys| > 0
    ensures 1 <= e.Span() <= |keys|
  {
    match group(keys[0])
    case None => Leaf(keys[0])
    case Some(p) => Rolled(p, 1 + LeadLength(keys[1..], p))
  }

  function Entries(group: Grouper, keys: seq<string>): (es: seq<Entry>)
    ensures |es| <= |keys|
    ensures |es| == 0 <==> |keys| == 0
    decreases |keys|
  {
    if |keys| == 0 then []
    else [FirstEntry(group, keys)] + Entries(group, keys[FirstEntry(group, keys).Span()..])
  }

  function LeafOf(e: Entry): seq<string> {
    if e.Leaf? then [e.key] else []
  }

  function PrefixOf(e: Entry): seq<string> {
    if e.Rolled? then [e.prefix] else []
  }

  function Leaves(es: seq<Entry>): seq<string> {
    if |es| == 0 then [] else LeafOf(es[0]) + Leaves(es[1..])
  }

  function Prefixes(es: seq<Entry>): seq<string> {
    if |es| == 0 then [] else PrefixOf(es[0]) + Prefixes(es[1..])
  }

  // The number of keys that entries stand for.
  function Used(es: seq<Entry>): nat {
    if |es| == 0 then 0 else es[0].Span() + Used(es[1..])
  }

  lemma {:induction false} LeavesConcatenated(es: seq<Entry>, fs: seq<Entry>)
    ensures Leaves(es + fs) == Leaves(es) + Leaves(fs)
  {
    hide LeafOf;
    if |es| == 0 {
      assert es + fs == fs;
    } else {
      assert (es + fs)[1..] == es[1..] + fs;
      LeavesConcatenated(es[1..], fs);
    }
  }

  lemma {:induction false} PrefixesConcatenated(es: seq<Entry>, fs: seq<Entry>)
    ensures Prefixes(es + fs) == Prefixes(es) + Prefixes(fs)
  {
    hide PrefixOf;
    if |es| == 0 {
      assert es + fs == fs;
    } else {
      assert (es + fs)[1..] == es[1..] + fs;
      PrefixesConcatenated(es[1..], fs);
    }
  }

  lemma {:induction false} UsedConcatenated(es: seq<Entry>, fs: seq<Entry>)
    ensures Used(es + fs) == Used(es) + Used(fs)
  {
    if |es| == 0 {
      assert es + fs == fs;
    } else {
      assert (es + fs)[1..] == es[1..] + fs;
      UsedConcatenated(es[1..], fs);
    }
  }

  lemma Concatenated(es: seq<Entry>, fs: seq<Entry>)
    ensures Leaves(es + fs) == Leaves(es) + Leaves(fs)
    ensures Prefixes(es + fs) == Prefixes(es) + Prefixes(fs)
    ensures Used(es + fs) == Used(es) + Used(fs)
  {
    LeavesConcatenated(es, fs);
    PrefixesConcatenated(es, fs);
    UsedConcatenated(es, fs);
  }

  lemma {:induction false} EntryKinds(es: seq<Entry>)
    ensures |Leaves(es)| + |Prefixes(es)| == |es|
  {
    if |es| > 0 {
      EntryKinds(es[1..]);
    }
  }

  // What is left of the keys after the first b entries has the remaining entries.
  lemma {:induction false} EntriesRest(group: Grouper, keys: seq<string>, b: nat)
    requires b <= |Entries(group, keys)|
    ensures Used(Entries(group, keys)[..b]) <= |keys|
    ensures Entries(group, keys[Used(Entries(group, keys)[..b])..]) == Entries(group, keys)[b..]
  {
    var es := Entries(group, keys);
    if b == 0 {
      assert keys[0..] == keys && es[0..] == es;
    } else {
      var n := es[0].Span();
      var tail := keys[n..];
      assert es == [es[0]] + Entries(group, tail);
      hide Entries;
      EntriesRest(group, tail, b - 1);
      AfterFirst(keys, es, n, tail, Entries(group, tail), b);
    }
  }

  lemma UsedStep(es: seq<Entry>, b: nat)
    requires 0 < b <= |es|
    ensures Used(es[..b]) == es[0].Span() + Used(es[1..][..b - 1])
  {
    assert es[..b][1..] == es[1..][..b - 1];
  }

  lemma AfterFirst(keys: seq<string>, es: seq<Entry>, n: nat, tail: seq<string>, rest: seq<Entry>, b: nat)
    requires 0 < b <= |es| && es == [es[0]] + rest && es[0].Span() == n
    requires n <= |keys| && tail == keys[n..] && Used(rest[..b - 1]) <= |tail|
    ensures Used(es[..b]) == n + Used(rest[..b - 1])
    ensures es[b..] == rest[b - 1..]
    ensures keys[Used(es[..b])..] == tail[Used(rest[..b - 1])..]
  {
    UsedStep(es, b);
    DropTwice(keys, n, Used(rest[..b - 1]));
  }

  lemma DropTwice<T>(xs: seq<T>, m: nat, n: nat)
    requires m + n <= |xs|
    ensures xs[m..][n..] == xs[m + n..]
  {
  }

  // ---------- the unbounded listing ----------

  // Every key once, as a leaf or under its one common prefix, both in ascending order.
  ghost predicate IsListing(group: Grouper, keys: seq<string>, leaves: seq<string>, prefixes: seq<string>)
  {
    && Ascending(leaves) && Ascending(prefixes)
    && (forall k :: k in leaves <==> k in keys && group(k).None?)
    && (forall p :: p in prefixes <==> exists k :: k in keys && group(k) == Some(p))
  }

  lemma {:induction false} EntriesAreListing(group: Grouper, keys: seq<string>)
    requires ByPrefix(group)
    requires Ascending(keys)
    ensures IsListing(group, keys, Leaves(Entries(group, keys)), Prefixes(Entries(group, keys)))
    decreases |keys|
  {
    if |keys| > 0 {
      var e := FirstEntry(group, keys);
      var tail := keys[e.Span()..];
      var rest := Entries(group, tail);
      EntriesAreListing(group, tail);
      assert Entries(group, keys)[1..] == rest;
      if e.Leaf? {
        LeafFirst(group, keys, Leaves(rest), Prefixes(rest));
      } else {
        GroupFirst(group, keys, e.prefix, Leaves(rest), Prefixes(rest));
      }
    }
  }

  lemma LeafFirst(group: Grouper, keys: seq<string>, leaves: seq<string>, prefixes: seq<string>)
    requires Ascending(keys) && |keys| > 0 && group(keys[0]).None?
    requires Ascending(keys[1..]) && IsListing(group, keys[1..], leaves, prefixes)
    ensures IsListing(group, keys, [keys[0]] + leaves, prefixes)
  {
    var head := keys[0];
    forall i | 0 <= i < |leaves| ensures Less(head, leaves[i]) {
      assert leaves[i] in leaves;
      var j :| 1 <= j < |keys| && keys[j] == leaves[i];
    }
    assert keys == [head] + keys[1..];
  }

  lemma GroupFirst(group: Grouper, keys: seq<string>, p: string, leaves: seq<string>, prefixes: seq<string>)
    requires ByPrefix(group)
    requires Ascending(keys) && |keys| > 0 && group(keys[0]) == Some(p)
    requires IsListing(group, keys[FirstEntry(group, keys).Span()..], leaves, prefixes)
    ensures IsListing(group, keys, leaves, [p] + prefixes)
  {
    var n := FirstEntry(group, keys).Span();
    GroupSplits(group, keys, p, n);
    GroupFirstOrder(group, keys, p, n, prefixes);
    GroupFirstMembers(group, keys, p, n, leaves, prefixes);
  }

  lemma GroupFirstOrder(group: Grouper, keys: seq<string>, p: string, n: nat, prefixes: seq<string>)
    requires ByPrefix(group) && n <= |keys| && |keys| > 0 && group(keys[0]) == Some(p)
    requires forall i | n <= i < |keys| :: Beyond(p, keys[i])
    requires forall q :: q in prefixes ==> exists k :: k in keys[n..] && group(k) == Some(q)
    ensures forall i | 0 <= i < |prefixes| :: Less(p, prefixes[i])
  {
    forall i | 0 <= i < |prefixes| ensures Less(p, prefixes[i]) {
      assert prefixes[i] in prefixes;
      var k :| k in keys[n..] && group(k) == Some(prefixes[i]);
      var j :| 0 <= j < |keys[n..]| && keys[n..][j] == k;
      assert keys[n + j] == k;
      LaterGroup(group, keys[0], p, k, prefixes[i]);
    }
  }

  lemma GroupFirstMembers(group: Grouper, keys: seq<string>, p: string, n: nat, leaves: seq<string>, prefixes: seq<string>)
    requires 0 < n <= |keys| && forall i | 0 <= i < n :: group(keys[i]) == Some(p)
    requires forall k :: k in leaves <==> k in keys[n..] && group(k).None?
    requires forall q :: q in prefixes <==> exists k :: k in keys[n..] && group(k) == Some(q)
    ensures forall k :: k in leaves <==> k in keys && group(k).None?
    ensures forall q :: q in [p] + prefixes <==> exists k :: k in keys && group(k) == Some(q)
  {
    assert keys == keys[..n] + keys[n..];
    forall q ensures q in [p] + prefixes <==> exists k :: k in keys && group(k) == Some(q) {
      if q == p {
        assert keys[0] in keys;
      } else {
        forall k ensures k in keys && group(k) == Some(q) <==> k in keys[n..] && group(k) == Some(q) {
        }
      }
    }
  }

  // The keys of the first group are exactly the first n ones.
  lemma GroupSplits(group: Grouper, keys: seq<string>, p: string, n: nat)
    requires ByPrefix(group)
    requires Ascending(keys) && |keys| > 0 && group(keys[0]) == Some(p) && n == FirstEntry(group, keys).Span()
    ensures forall i | 0 <= i < n :: group(keys[i]) == Some(p)
    ensures forall i | n <= i < |keys| :: group(keys[i]) != Some(p) && Beyond(p, keys[i])
  {
    var head := keys[0];
    forall i | 0 <= i < n ensures group(keys[i]) == Some(p) {
      assert group(keys[i]) == group(head);
    }
    forall i | n <= i < |keys| ensures group(keys[i]) != Some(p) && Beyond(p, keys[i]) {
      if p <= keys[i] {
        PrefixContiguous(p, head, keys[n], keys[i]);
      }
      PrefixSeparates(p, head, keys[i]);
    }
  }

  // k comes after all strings that start with p
  ghost predicate Beyond(p: string, k: string) {
    !(p <= k) && forall c | p <= c :: Less(c, k)
  }

  // A group met after p has a larger common prefix.
  lemma LaterGroup(group: Grouper, head: string, p: string, k: string, q: string)
    requires ByPrefix(group) && group(head) == Some(p)
    requires group(k) == Some(q) && Beyond(p, k)
    ensures Less(p, q)
  {
    assert q <= p ==> q <= head && group(head) == group(k);
    LessConnected(p, q);
    if Less(q, p) {
      PrefixSeparates(q, q, p);
      assert Less(p, k);
      LessAsymmetric(p, k);
    }
  }

  // ---------- pages ----------

  datatype Page = Page(leaves: seq<string>, prefixes: seq<string>, truncated: bool, marker: string)

  // the keys with the prefix that come after the marker
  function Selected(o: Options, keys: seq<string>): seq<string> {
    if |keys| == 0 then []
    else if o.prefix <= keys[0] && Less(o.startAfter, keys[0]) then [keys[0]] + Selected(o, keys[1..])
    else Selected(o, keys[1..])
  }

  lemma {:induction false} SelectedKeys(o: Options, keys: seq<string>)
    ensures forall k :: k in Selected(o, keys) <==> k in keys && o.prefix <= k && Less(o.startAfter, k)
    ensures Ascending(keys) ==> Ascending(Selected(o, keys))
  {
    if |keys| > 0 {
      SelectedKeys(o, keys[1..]);
      assert keys == [keys[0]] + keys[1..];
      forall i | 0 <= i < |Selected(o, keys[1..])|
        ensures Ascending(keys) ==> Less(keys[0], Selected(o, keys[1..])[i])
      {
        assert Selected(o, keys[1..])[i] in keys[1..];
      }
    }
  }

  function PageEntries(o: Options, keys: seq<string>): seq<Entry> {
    var es := Entries(Grouping(o), Selected(o, keys));
    es[..if |es| <= MaxKeys(o.maxKeys) then |es| else MaxKeys(o.maxKeys)]
  }

  function PageOf(o: Options, keys: seq<string>): Page {
    var sel, es := Selected(o, keys), PageEntries(o, keys);
    Page(Leaves(es), Prefixes(es), Used(es) < |sel|, if 0 < Used(es) <= |sel| then sel[Used(es) - 1] else "")
  }

  // What the next request, which resumes after the page's marker, selects.
  lemma Resumed(o: Options, keys: seq<string>)
    requires Ascending(keys)
    ensures var page, sel, used := PageOf(o, keys), Selected(o, keys), Used(PageEntries(o, keys));
      && used <= |sel|
      && (used > 0 <==> |sel| > 0)
      && (used > 0 ==> Selected(o.(startAfter := page.marker), keys) == sel[used..])
      && Entries(Grouping(o), sel) == PageEntries(o, keys) + Entries(Grouping(o), sel[used..])
  {
    hide Entries, FirstEntry, Used, Selected, Leaves, Prefixes;
    var sel, used := Selected(o, keys), Used(PageEntries(o, keys));
    PageCut(Grouping(o), sel, |PageEntries(o, keys)|);
    if used > 0 {
      AfterMarker(o, keys, used);
    }
  }

  lemma PageCut(group: Grouper, sel: seq<string>, b: nat)
    requires b <= |Entries(group, sel)|
    requires b == 0 ==> |sel| == 0
    ensures var es := Entries(group, sel);
      && Used(es[..b]) <= |sel|
      && (Used(es[..b]) > 0 <==> |sel| > 0)
      && es == es[..b] + Entries(group, sel[Used(es[..b])..])
  {
    var es := Entries(group, sel);
    EntriesRest(group, sel, b);
    if b > 0 {
      UsedStep(es, b);
      assert es[0] == FirstEntry(group, sel);
    }
    assert es == es[..b] + es[b..];
  }

  lemma AfterMarker(o: Options, keys: seq<string>, used: nat)
    requires Ascending(keys) && 0 < used <= |Selected(o, keys)|
    ensures var sel := Selected(o, keys);
      Selected(o.(startAfter := sel[used - 1]), keys) == sel[used..]
  {
    var sel := Selected(o, keys);
    var next := o.(startAfter := sel[used - 1]);
    SelectedKeys(o, keys);
    SelectedKeys(next, keys);
    forall k ensures k in Selected(next, keys) <==> k in sel[used..] {
      assert sel[used - 1] in sel;
      if k in Selected(next, keys) {
        LessTransitive(o.startAfter, sel[used - 1], k);
        var i :| 0 <= i < |sel| && sel[i] == k;
        if i < used {
          LessIrreflexive(k);
          assert i < used - 1 ==> Less(k, sel[used - 1]);
          if i < used - 1 { LessAsymmetric(k, sel[used - 1]); }
        }
      }
    }
    AscendingUnique(Selected(next, keys), sel[used..]);
  }

  // A page is truncated exactly if a matching key lies beyond its marker, and never exceeds its budget.
  lemma PageLimits(o: Options, keys: seq<string>)
    requires Ascending(keys)
    ensures var page := PageOf(o, keys);
      var next := o.(startAfter := if page.marker == "" then o.startAfter else page.marker);
      && (page.truncated <==> exists k :: k in keys && o.prefix <= k && Less(next.startAfter, k))
      && |page.leaves| + |page.prefixes| <= MaxKeys(o.maxKeys)
  {
    hide Entries, FirstEntry, Used, Selected, Leaves, Prefixes, Ascending, Grouping;
    var page, sel, used := PageOf(o, keys), Selected(o, keys), Used(PageEntries(o, keys));
    var next := o.(startAfter := if page.marker == "" then o.startAfter else page.marker);
    Resumed(o, keys);
    EntryKinds(PageEntries(o, keys));
    SelectedKeys(o, keys);
    SelectedKeys(next, keys);
    if used > 0 {
      assert sel[used - 1] in sel;
      assert page.marker != "";
    }
    assert page.truncated <==> |Selected(next, keys)| > 0;
    assert |Selected(next, keys)| > 0 ==> Selected(next, keys)[0] in Selected(next, keys);
  }

  // ---------- following the markers ----------

  // The pages a client sees that resumes after each marker until a page is not truncated.
  function Follow(o: Options, keys: seq<string>): (pages: seq<Page>)
    requires Ascending(keys)
    ensures |pages| > 0
    decreases |Selected(o, keys)|
  {
    Resumed(o, keys);
    var page := PageOf(o, keys);
    if page.truncated then [page] + Follow(o.(startAfter := page.marker), keys) else [page]
  }

  function AllLeaves(pages: seq<Page>): seq<string> {
    if |pages| == 0 then [] else pages[0].leaves + AllLeaves(pages[1..])
  }

  function AllPrefixes(pages: seq<Page>): seq<string> {
    if |pages| == 0 then [] else pages[0].prefixes + AllPrefixes(pages[1..])
  }

  lemma {:induction false} FollowJoins(o: Options, keys: seq<string>)
    requires Ascending(keys)
    ensures var es := Entries(Grouping(o), Selected(o, keys));
      && AllLeaves(Follow(o, keys)) == Leaves(es)
      && AllPrefixes(Follow(o, keys)) == Prefixes(es)
    decreases |Selected(o, keys)|
  {
    Resumed(o, keys);
    var page, es := PageOf(o, keys), PageEntries(o, keys);
    var sel := Selected(o, keys);
    Concatenated(es, Entries(Grouping(o), sel[Used(es)..]));
    if page.truncated {
      var next := o.(startAfter := page.marker);
      FollowJoins(next, keys);
      assert Follow(o, keys)[1..] == Follow(next, keys);
    } else {
      assert Follow(o, keys)[1..] == [];
    }
  }

  // Page by page, the client gets the single unbounded listing.
  lemma FollowIsListing(o: Options, keys: seq<string>)
    requires Ascending(keys)
    ensures IsListing(Grouping(o), Selected(o, keys), AllLeaves(Follow(o, keys)), AllPrefixes(Follow(o, keys)))
  {
    FollowJoins(o, keys);
    GroupingByPrefix(o);
    SelectedKeys(o, keys);
    EntriesAreListing(Grouping(o), Selected(o, keys));
  }

  // The listing is determined by the keys: there is only one.
  lemma ListingUnique(group: Grouper, keys: seq<string>, ls: seq<string>, ps: seq<string>, ls': seq<string>, ps': seq<string>)
    requires IsListing(group, keys, ls, ps) && IsListing(group, keys, ls', ps')
    ensures ls == ls' && ps == ps'
  {
    AscendingUnique(ls, ls');
    AscendingUnique(ps, ps');
  }

  // ---------- ListObjects, version 1 and version 2 ----------

  datatype V1Request = V1Request(prefix: string, delimiter: string, marker: string, maxKeys: int)
  datatype V1Result = V1Result(leaves: seq<string>, prefixes: seq<string>, truncated: bool, nextMarker: string)

  function V1Options(r: V1Request): Options {
    Options(TrimSpace(r.prefix), TrimSpace(r.delimiter), r.maxKeys, TrimSpace(r.marker))
  }

  function ListV1(r: V1Request, keys: seq<string>): V1Result {
    var page := PageOf(V1Options(r), keys);
    V1Result(page.leaves, page.prefixes, page.truncated,
             if page.truncated && V1Options(r).delimiter != "" then page.marker else "")
  }

  // A version 1 client resumes after the last key it was given when the answer names no marker.
  function V1Resume(r: V1Result): string {
    if r.nextMarker == "" && |r.leaves| > 0 then r.leaves[|r.leaves| - 1] else r.nextMarker
  }

  // A continuation token as the decoder sees it: blank, the Base64 form of a key, or text that is not Base64.
  datatype Token = NoToken | Base64(key: string) | Verbatim(text: string)

  datatype V2Request = V2Request(prefix: string, delimiter: string, token: Token, startAfter: string, maxKeys: int)
  datatype V2Result =
    V2Result(leaves: seq<string>, prefixes: seq<string>, keyCount: nat, truncated: bool, nextToken: Token)

  function V2Options(r: V2Request): Options {
    var start := match r.token
      case NoToken => TrimSpace(r.startAfter)
      case Base64(key) => key
      case Verbatim(text) => text;
    Options(TrimSpace(r.prefix), TrimSpace(r.delimiter), r.maxKeys, start)
  }

  function ListV2(r: V2Request, keys: seq<string>): V2Result {
    var page := PageOf(V2Options(r), keys);
    V2Result(page.leaves, page.prefixes, |page.leaves| + |page.prefixes|, page.truncated,
             if page.truncated && page.marker != "" then Base64(page.marker) else NoToken)
  }

  ghost predicate AllTrimmed(keys: seq<string>) {
    forall i | 0 <= i < |keys| :: Trimmed(keys[i])
  }

  lemma {:induction false} NoDelimiterNoGroups(o: Options, keys: seq<string>)
    requires o.delimiter == ""
    ensures forall i | 0 <= i < |Entries(Grouping(o), keys)| :: Entries(Grouping(o), keys)[i].Leaf?
    decreases |keys|
  {
    if |keys| > 0 {
      assert Group(o.prefix, o.delimiter, keys[0]).None?;
      NoDelimiterNoGroups(o, keys[1..]);
    }
  }

  lemma {:induction false} LastLeaf(group: Grouper, keys: seq<string>, b: nat)
    requires var es := Entries(group, keys); 0 < b <= |es| && forall i | 0 <= i < |es| :: es[i].Leaf?
    ensures var done := Entries(group, keys)[..b];
      && Used(done) == b <= |keys|
      && |Leaves(done)| == b && Leaves(done)[b - 1] == keys[b - 1]
    decreases |keys|
  {
    var es := Entries(group, keys);
    assert es[0] == Leaf(keys[0]);
    assert es[1..] == Entries(group, keys[1..]);
    if b > 1 {
      LastLeaf(group, keys[1..], b - 1);
    }
    assert es[..b][1..] == es[1..][..b - 1];
  }

  // The key a version 1 client resumes after is the page's own marker, with or without a delimiter.
  lemma ResumeV1(r: V1Request, keys: seq<string>)
    requires Ascending(keys) && AllTrimmed(keys) && ListV1(r, keys).truncated
    ensures V1Options(r.(marker := V1Resume(ListV1(r, keys))))
         == V1Options(r).(startAfter := PageOf(V1Options(r), keys).marker)
  {
    var o := V1Options(r);
    Resumed(o, keys);
    SelectedKeys(o, keys);
    var es := PageEntries(o, keys);
    var marker := Selected(o, keys)[Used(es) - 1];
    assert marker in Selected(o, keys);
    assert marker != "" && Trimmed(marker);
    if o.delimiter == "" {
      NoDelimiterNoGroups(o, Selected(o, keys));
      LastLeaf(Grouping(o), Selected(o, keys), |es|);
      assert es == Entries(Grouping(o), Selected(o, keys))[..|es|];
    }
  }

  lemma ResumeV2(r: V2Request, keys: seq<string>)
    requires Ascending(keys) && ListV2(r, keys).truncated
    ensures V2Options(r.(token := ListV2(r, keys).nextToken))
         == V2Options(r).(startAfter := PageOf(V2Options(r), keys).marker)
  {
    var o := V2Options(r);
    Resumed(o, keys);
    SelectedKeys(o, keys);
    assert Selected(o, keys)[Used(PageEntries(o, keys)) - 1] in Selected(o, keys);
  }

  // The answers a client collects that asks again until an answer is not truncated.
  function FollowV1(r: V1Request, keys: seq<string>): (results: seq<V1Result>)
    requires Ascending(keys) && AllTrimmed(keys)
    decreases |Selected(V1Options(r), keys)|
  {
    Resumed(V1Options(r), keys);
    var result := ListV1(r, keys);
    if result.truncated then
      ResumeV1(r, keys);
      [result] + FollowV1(r.(marker := V1Resume(result)), keys)
    else [result]
  }

  function FollowV2(r: V2Request, keys: seq<string>): (results: seq<V2Result>)
    requires Ascending(keys)
    decreases |Selected(V2Options(r), keys)|
  {
    Resumed(V2Options(r), keys);
    var result := ListV2(r, keys);
    if result.truncated then
      ResumeV2(r, keys);
      [result] + FollowV2(r.(token := result.nextToken), keys)
    else [result]
  }

  function V1Leaves(rs: seq<V1Result>): seq<string> {
    if |rs| == 0 then [] else rs[0].leaves + V1Leaves(rs[1..])
  }
  function V1Prefixes(rs: seq<V1Result>): seq<string> {
    if |rs| == 0 then [] else rs[0].prefixes + V1Prefixes(rs[1..])
  }
  function V2Leaves(rs: seq<V2Result>): seq<string> {
    if |rs| == 0 then [] else rs[0].leaves + V2Leaves(rs[1..])
  }
  function V2Prefixes(rs: seq<V2Result>): seq<string> {
    if |rs| == 0 then [] else rs[0].prefixes + V2Prefixes(rs[1..])
  }

  lemma {:induction false} V1FollowsPages(r: V1Request, keys: seq<string>)
    requires Ascending(keys) && AllTrimmed(keys)
    ensures V1Leaves(FollowV1(r, keys)) == AllLeaves(Follow(V1Options(r), keys))
    ensures V1Prefixes(FollowV1(r, keys)) == AllPrefixes(Follow(V1Options(r), keys))
    decreases |Selected(V1Options(r), keys)|
  {
    Resumed(V1Options(r), keys);
    var result, all, pages := ListV1(r, keys), FollowV1(r, keys), Follow(V1Options(r), keys);
    if result.truncated {
      ResumeV1(r, keys);
      var next := r.(marker := V1Resume(result));
      V1FollowsPages(next, keys);
      assert all[1..] == FollowV1(next, keys);
      assert pages[1..] == Follow(V1Options(next), keys);
    }
  }

  lemma {:induction false} V2FollowsPages(r: V2Request, keys: seq<string>)
    requires Ascending(keys)
    ensures V2Leaves(FollowV2(r, keys)) == AllLeaves(Follow(V2Options(r), keys))
    ensures V2Prefixes(FollowV2(r, keys)) == AllPrefixes(Follow(V2Options(r), keys))
    decreases |Selected(V2Options(r), keys)|
  {
    Resumed(V2Options(r), keys);
    var result, all, pages := ListV2(r, keys), FollowV2(r, keys), Follow(V2Options(r), keys);
    if result.truncated {
      ResumeV2(r, keys);
      var next := r.(token := result.nextToken);
      V2FollowsPages(next, keys);
      assert all[1..] == FollowV2(next, keys);
      assert pages[1..] == Follow(V2Options(next), keys);
    }
  }

  // Both clients see every matching key exactly once, as a key or under one common prefix that never repeats.
  lemma ClientsSeeListing(v1: V1Request, v2: V2Request, keys: seq<string>)
    requires Ascending(keys) && AllTrimmed(keys)
    ensures var o, results := V1Options(v1), FollowV1(v1, keys);
      IsListing(Grouping(o), Selected(o, keys), V1Leaves(results), V1Prefixes(results))
    ensures var o, results := V2Options(v2), FollowV2(v2, keys);
      IsListing(Grouping(o), Selected(o, keys), V2Leaves(results), V2Prefixes(results))
  {
    V1FollowsPages(v1, keys);
    V2FollowsPages(v2, keys);
    FollowIsListing(V1Options(v1), keys);
    FollowIsListing(V2Options(v2), keys);
  }
}
