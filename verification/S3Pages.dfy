/** What the two list requests answer, on the fields of the request: which keys and which common prefixes one page
    shows, and which ones a client sees that follows the pages to the end. */
module S3Pages {
  import opened Wrappers
  import opened Strings
  import opened KeyOrder
  import opened S3Listing

  // A key that starts with the prefix and lies behind the start and not behind the end.
  ghost predicate Asked(prefix: string, start: string, end: Option<string>, key: string) {
    prefix <= key && Less(start, key) && (end.Some? ==> AtMost(key, end.value))
  }

  // Behind the prefix the key holds no delimiter; a blank delimiter is in no key.
  ghost predicate Plain(prefix: string, delimiter: string, key: string) {
    delimiter == "" || forall i | |prefix| <= i :: !OccursAt(key, delimiter, i)
  }

  // The key up to and with its first delimiter behind the prefix.
  ghost predicate CutAt(prefix: string, delimiter: string, key: string, cut: string) {
    && delimiter != "" && cut <= key && |prefix| <= |cut| - |delimiter|
    && OccursAt(key, delimiter, |cut| - |delimiter|)
    && forall i | |prefix| <= i < |cut| - |delimiter| :: !OccursAt(key, delimiter, i)
  }

  ghost predicate Direct(prefix: string, delimiter: string, start: string, end: Option<string>, key: string) {
    Asked(prefix, start, end, key) && Plain(prefix, delimiter, key)
  }

  ghost predicate Cut(prefix: string, delimiter: string, start: string, end: Option<string>, keys: seq<string>, cut: string) {
    exists key :: key in keys && Asked(prefix, start, end, key) && CutAt(prefix, delimiter, key, cut)
  }

  // Exactly the keys that are asked for: the plain ones themselves, and of the others each cut once.
  ghost predicate Shows(prefix: string, delimiter: string, start: string, end: Option<string>, keys: seq<string>,
                        leaves: seq<string>, prefixes: seq<string>)
  {
    && Ascending(leaves) && Ascending(prefixes)
    && (forall key :: key in leaves <==> key in keys && Direct(prefix, delimiter, start, end, key))
    && (forall cut :: cut in prefixes <==> Cut(prefix, delimiter, start, end, keys, cut))
  }

  // ---------- the grouping, on the key ----------

  lemma OccursBehind(key: string, d: string, n: nat, i: nat)
    requires n <= |key|
    ensures OccursAt(key[n..], d, i) <==> OccursAt(key, d, n + i)
  {
    if n + i + |d| <= |key| {
      assert key[n..][i..i + |d|] == key[n + i..n + i + |d|];
    }
  }

  lemma AllBehind(key: string, d: string, n: nat, m: nat)
    requires n <= |key| && (forall i | 0 <= i < m :: !OccursAt(key[n..], d, i))
    ensures forall i | n <= i < n + m :: !OccursAt(key, d, i)
  {
    forall i | n <= i < n + m ensures !OccursAt(key, d, i) {
      OccursBehind(key, d, n, i - n);
    }
  }

  lemma PlainIs(prefix: string, d: string, key: string)
    requires prefix <= key && Group(prefix, d, key).None?
    ensures Plain(prefix, d, key)
    ensures forall cut :: !CutAt(prefix, d, key, cut)
  {
    hide FirstIndex, OccursAt;
    if d != "" {
      forall i | |prefix| <= i ensures !OccursAt(key, d, i) {
        OccursBehind(key, d, |prefix|, i - |prefix|);
      }
    }
  }

  lemma CutIs(prefix: string, d: string, key: string)
    requires prefix <= key && Group(prefix, d, key).Some?
    ensures !Plain(prefix, d, key)
    ensures forall cut :: CutAt(prefix, d, key, cut) <==> cut == Group(prefix, d, key).value
  {
    hide FirstIndex, OccursAt;
    var n, g := |prefix|, Group(prefix, d, key).value;
    var i := FirstIndex(key[n..], d).value;
    FirstFits(key[n..], d);
    GroupIsPrefix(prefix, d, key);
    OccursBehind(key, d, n, i);
    AllBehind(key, d, n, i);
    assert |g| - |d| == n + i;
    forall cut ensures CutAt(prefix, d, key, cut) <==> cut == g {
      if CutAt(prefix, d, key, cut) {
        assert |cut| == |g|;
        assert cut == key[..|cut|] && g == key[..|g|];
      }
    }
  }

  lemma FirstFits(value: string, d: string)
    requires FirstIndex(value, d).Some?
    ensures d != "" && FirstIndex(value, d).value + |d| <= |value|
  {
    hide FirstIndex;
  }

  lemma ListingShows(o: Options, sub: seq<string>, end: Option<string>, keys: seq<string>, leaves: seq<string>, prefixes: seq<string>)
    requires IsListing(Grouping(o), sub, leaves, prefixes)
    requires forall k :: k in sub <==> k in keys && Asked(o.prefix, o.startAfter, end, k)
    ensures Shows(o.prefix, o.delimiter, o.startAfter, end, keys, leaves, prefixes)
  {
    hide Group, Ascending, Plain, CutAt;
    var p, d := o.prefix, o.delimiter;
    forall k | k in sub
      ensures Grouping(o)(k).None? <==> Plain(p, d, k)
      ensures forall cut :: Grouping(o)(k) == Some(cut) <==> CutAt(p, d, k, cut)
    {
      if Group(p, d, k).None? { PlainIs(p, d, k); } else { CutIs(p, d, k); }
    }
  }

  // ---------- one page ----------

  lemma {:induction false} LeadLengthTaken(keys: seq<string>, p: string, n: nat)
    requires LeadLength(keys, p) <= n <= |keys|
    ensures LeadLength(keys[..n], p) == LeadLength(keys, p)
  {
    if |keys| > 0 && p <= keys[0] {
      assert keys[..n][1..] == keys[1..][..n - 1];
      LeadLengthTaken(keys[1..], p, n - 1);
    }
  }

  lemma FirstEntryTaken(group: Grouper, keys: seq<string>, n: nat)
    requires |keys| > 0 && FirstEntry(group, keys).Span() <= n <= |keys|
    ensures FirstEntry(group, keys[..n]) == FirstEntry(group, keys)
  {
    if group(keys[0]).Some? {
      assert keys[..n][1..] == keys[1..][..n - 1];
      LeadLengthTaken(keys[1..], group(keys[0]).value, n - 1);
    }
  }

  lemma EntriesFrom(group: Grouper, keys: seq<string>)
    requires |keys| > 0
    ensures var e := FirstEntry(group, keys);
      Entries(group, keys) == [e] + Entries(group, keys[e.Span()..]) && Entries(group, []) == []
  {
    hide FirstEntry;
  }

  lemma NoneUsed(group: Grouper)
    ensures Used([]) == 0 && Entries(group, []) == []
  {
  }

  // The first entries are those of the keys that they use up.
  lemma {:induction false} EntriesTaken(group: Grouper, keys: seq<string>, b: nat)
    requires b <= |Entries(group, keys)| && Used(Entries(group, keys)[..b]) <= |keys|
    ensures Entries(group, keys[..Used(Entries(group, keys)[..b])]) == Entries(group, keys)[..b]
    decreases b
  {
    hide *;
    var es := Entries(group, keys);
    var used := Used(es[..b]);
    if b == 0 {
      NoneUsed(group);
      assert es[..0] == [] && keys[..0] == [];
    } else {
      EntriesFrom(group, keys);
      var n := es[0].Span();
      var tail := keys[n..];
      assert es[1..] == Entries(group, tail);
      UsedStep(es, b);
      FirstEntryTaken(group, keys, used);
      EntriesFrom(group, keys[..used]);
      assert keys[..used][n..] == tail[..used - n];
      EntriesTaken(group, tail, b - 1);
      assert es[..b] == [es[0]] + es[1..][..b - 1];
    }
  }

  lemma AskedOf(prefix: string, start: string, key: string)
    ensures Asked(prefix, start, None, key) <==> prefix <= key && Less(start, key)
  {
  }

  // A page that is not the last one is full and shows what lies up to its marker; the last one shows all the rest.
  lemma PageShows(o: Options, keys: seq<string>)
    requires Ascending(keys)
    ensures var page := PageOf(o, keys);
      && Shows(o.prefix, o.delimiter, o.startAfter, if page.truncated then Some(page.marker) else None, keys, page.leaves, page.prefixes)
      && |page.leaves| + |page.prefixes| <= MaxKeys(o.maxKeys)
      && (page.truncated ==>
            && |page.leaves| + |page.prefixes| == MaxKeys(o.maxKeys) && page.marker in keys
            && exists key :: key in keys && Asked(o.prefix, page.marker, None, key))
  {
    hide *;
    var page, sel, used := PageOf(o, keys), Selected(o, keys), Used(PageEntries(o, keys));
    var end := if page.truncated then Some(page.marker) else None;
    Resumed(o, keys);
    PageIs(o, keys);
    SelectedKeys(o, keys);
    PageCutShort(o, keys);
    UpToMarker(o, keys, used);
    GroupingByPrefix(o);
    EntriesAreListing(Grouping(o), sel[..used]);
    ListingShows(o, sel[..used], end, keys, page.leaves, page.prefixes);
    EntryKinds(PageEntries(o, keys));
    if page.truncated {
      var next := o.(startAfter := page.marker);
      SelectedKeys(next, keys);
      assert sel[used] == sel[used..][0] && sel[used] in sel[used..];
      AskedOf(o.prefix, page.marker, sel[used]);
    }
  }

  lemma PageIs(o: Options, keys: seq<string>)
    requires Used(PageEntries(o, keys)) <= |Selected(o, keys)|
    requires Used(PageEntries(o, keys)) > 0 <==> |Selected(o, keys)| > 0
    ensures var page, sel, es := PageOf(o, keys), Selected(o, keys), PageEntries(o, keys);
      && page.leaves == Leaves(es) && page.prefixes == Prefixes(es)
      && (page.truncated <==> Used(es) < |sel|)
      && (|sel| > 0 ==> page.marker == sel[Used(es) - 1])
      && |es| <= MaxKeys(o.maxKeys)
  {
    hide Entries, Used, Selected, Leaves, Prefixes;
  }

  lemma NoneLeft(group: Grouper, rest: seq<string>, all: seq<Entry>, es: seq<Entry>)
    requires all == es && all == es + Entries(group, rest)
    ensures rest == []
  {
    assert |all| == |es| + |Entries(group, rest)|;
  }

  // The page's entries are those of the keys it uses up, and there are as many as allowed if keys are left.
  lemma PageCutShort(o: Options, keys: seq<string>)
    requires Ascending(keys)
    ensures var sel, es := Selected(o, keys), PageEntries(o, keys);
      && Used(es) <= |sel| && Entries(Grouping(o), sel[..Used(es)]) == es
      && (Used(es) < |sel| ==> |es| == MaxKeys(o.maxKeys))
  {
    hide Entries, Used, Selected, Grouping;
    var group, sel := Grouping(o), Selected(o, keys);
    var all, es := Entries(group, sel), PageEntries(o, keys);
    Resumed(o, keys);
    assert es == all[..|es|];
    EntriesTaken(group, sel, |es|);
    if |es| < MaxKeys(o.maxKeys) {
      assert all == es && all == all + Entries(group, sel[Used(es)..]);
      NoneLeft(group, sel[Used(es)..], all, es);
    }
  }

  lemma UpToMarker(o: Options, keys: seq<string>, used: nat)
    requires Ascending(keys) && Ascending(Selected(o, keys)) && used <= |Selected(o, keys)|
    requires used == 0 <==> |Selected(o, keys)| == 0
    ensures var sel := Selected(o, keys);
      var end := if used < |sel| then Some(sel[used - 1]) else None;
      && Ascending(sel[..used])
      && (forall k :: k in sel[..used] <==> k in keys && Asked(o.prefix, o.startAfter, end, k))
      && (used > 0 ==> sel[used - 1] in keys)
  {
    hide Selected, Less;
    var sel := Selected(o, keys);
    var end := if used < |sel| then Some(sel[used - 1]) else None;
    SelectedKeys(o, keys);
    forall k ensures k in sel[..used] <==> k in keys && Asked(o.prefix, o.startAfter, end, k) {
      if k in sel && k !in sel[..used] {
        var i :| used <= i < |sel| && sel[i] == k;
        LessAsymmetric(sel[used - 1], k);
      }
    }
    if used > 0 {
      assert sel[used - 1] in sel;
    }
  }

  // ---------- version 1 ----------

  // the entries of a page: at most as many as the request allows, 1000 if it does not say
  ghost predicate Fits(maxKeys: int, truncated: bool, count: nat) {
    var most := if maxKeys > 0 then maxKeys else 1000;
    if truncated then count == most else count <= most
  }

  lemma BudgetFits(maxKeys: int, truncated: bool, count: nat)
    requires count <= MaxKeys(maxKeys) && (truncated ==> count == MaxKeys(maxKeys))
    ensures Fits(maxKeys, truncated, count)
  {
  }

  // A page of version 1 goes up to the key its client resumes after, which it names if there is a delimiter.
  lemma V1Answer(r: V1Request, keys: seq<string>)
    requires Ascending(keys) && AllTrimmed(keys)
    ensures var a := ListV1(r, keys);
      && Shows(TrimSpace(r.prefix), TrimSpace(r.delimiter), TrimSpace(r.marker),
               if a.truncated then Some(V1Resume(a)) else None, keys, a.leaves, a.prefixes)
      && Fits(r.maxKeys, a.truncated, |a.leaves| + |a.prefixes|)
      && (a.truncated ==> exists key :: key in keys && Asked(TrimSpace(r.prefix), V1Resume(a), None, key))
      && (a.nextMarker != "" <==> a.truncated && TrimSpace(r.delimiter) != "")
  {
    hide *;
    var a, o := ListV1(r, keys), V1Options(r);
    V1Is(r, keys);
    PageShows(o, keys);
    BudgetFits(r.maxKeys, a.truncated, |a.leaves| + |a.prefixes|);
    if a.truncated {
      ResumeV1(r, keys);
      TrimmedKey(keys, PageOf(o, keys).marker);
      V1ResumesAtKey(r, keys);
      var key :| key in keys && Asked(o.prefix, PageOf(o, keys).marker, None, key);
      KeyNotBlank(o, keys);
    }
  }

  lemma V1Is(r: V1Request, keys: seq<string>)
    ensures var a, o, page := ListV1(r, keys), V1Options(r), PageOf(V1Options(r), keys);
      && o == Options(TrimSpace(r.prefix), TrimSpace(r.delimiter), r.maxKeys, TrimSpace(r.marker))
      && a == V1Result(page.leaves, page.prefixes, page.truncated,
                       if page.truncated && TrimSpace(r.delimiter) != "" then page.marker else "")
  {
    hide TrimSpace, PageOf;
  }

  lemma TrimmedKey(keys: seq<string>, k: string)
    requires AllTrimmed(keys) && k in keys
    ensures Trimmed(k) && TrimSpace(k) == k
  {
    hide TrimSpace;
    var i :| 0 <= i < |keys| && keys[i] == k;
  }

  lemma LaterNotBlank(a: string, b: string)
    requires Less(a, b)
    ensures b != ""
  {
  }

  lemma KeyNotBlank(o: Options, keys: seq<string>)
    requires Ascending(keys) && PageOf(o, keys).truncated
    ensures PageOf(o, keys).marker != ""
  {
    hide *;
    Resumed(o, keys);
    SelectedKeys(o, keys);
    PageIs(o, keys);
    var sel := Selected(o, keys);
    assert sel[Used(PageEntries(o, keys)) - 1] in sel;
    LaterNotBlank(o.startAfter, sel[Used(PageEntries(o, keys)) - 1]);
  }

  lemma LeavesAreKeys(o: Options, end: Option<string>, keys: seq<string>, leaves: seq<string>, prefixes: seq<string>)
    requires Shows(o.prefix, o.delimiter, o.startAfter, end, keys, leaves, prefixes)
    ensures forall key | key in leaves :: key in keys
  {
    hide Direct, Cut, Ascending;
  }

  // The key that is resumed after is the marker of the page, as it stands.
  lemma V1ResumesAtKey(r: V1Request, keys: seq<string>)
    requires Ascending(keys) && AllTrimmed(keys) && ListV1(r, keys).truncated
    requires PageOf(V1Options(r), keys).marker in keys
    ensures V1Resume(ListV1(r, keys)) == PageOf(V1Options(r), keys).marker
  {
    hide *;
    var a, o, page := ListV1(r, keys), V1Options(r), PageOf(V1Options(r), keys);
    V1Is(r, keys);
    PageShows(o, keys);
    ResumeV1(r, keys);
    V1Is(r.(marker := V1Resume(a)), keys);
    KeyNotBlank(o, keys);
    TrimmedKey(keys, page.marker);
    V1ResumeIs(a);
    if V1Resume(a) in a.leaves {
      LeavesAreKeys(o, if page.truncated then Some(page.marker) else None, keys, page.leaves, page.prefixes);
      TrimmedKey(keys, V1Resume(a));
    } else if V1Resume(a) == "" {
      BlankTrimmed();
    }
  }

  lemma BlankTrimmed()
    ensures TrimSpace("") == ""
  {
  }

  lemma V1ResumeIs(a: V1Result)
    ensures V1Resume(a) in a.leaves || V1Resume(a) == a.nextMarker
  {
  }

  // All pages but the last are full, and together they show every key that is asked for.
  lemma V1Complete(r: V1Request, keys: seq<string>)
    requires Ascending(keys) && AllTrimmed(keys)
    ensures var all := FollowV1(r, keys);
      && Shows(TrimSpace(r.prefix), TrimSpace(r.delimiter), TrimSpace(r.marker), None, keys, V1Leaves(all), V1Prefixes(all))
      && |all| > 0 && all[0] == ListV1(r, keys)
      && forall i | 0 <= i < |all| ::
           (all[i].truncated <==> i < |all| - 1) && Fits(r.maxKeys, all[i].truncated, |all[i].leaves| + |all[i].prefixes|)
  {
    hide *;
    var all, o := FollowV1(r, keys), V1Options(r);
    ClientsSeeListing(r, V2Request("", "", NoToken, "", 0), keys);
    AllShown(o, keys, V1Leaves(all), V1Prefixes(all));
    V1Is(r, keys);
    V1Filled(r, keys);
  }

  lemma AllShown(o: Options, keys: seq<string>, leaves: seq<string>, prefixes: seq<string>)
    requires IsListing(Grouping(o), Selected(o, keys), leaves, prefixes)
    ensures Shows(o.prefix, o.delimiter, o.startAfter, None, keys, leaves, prefixes)
  {
    hide Grouping, IsListing, Selected, Shows;
    SelectedKeys(o, keys);
    ListingShows(o, Selected(o, keys), None, keys, leaves, prefixes);
  }

  lemma V1Next(r: V1Request, keys: seq<string>)
    requires Ascending(keys) && AllTrimmed(keys)
    ensures var a := ListV1(r, keys);
      FollowV1(r, keys) == [a] + if a.truncated then FollowV1(r.(marker := V1Resume(a)), keys) else []
  {
    hide TrimSpace, PageOf, Selected, V1Resume;
  }

  lemma {:induction false} V1Filled(r: V1Request, keys: seq<string>)
    requires Ascending(keys) && AllTrimmed(keys)
    ensures var all := FollowV1(r, keys);
      && |all| > 0 && all[0] == ListV1(r, keys)
      && forall i | 0 <= i < |all| ::
           (all[i].truncated <==> i < |all| - 1) && Fits(r.maxKeys, all[i].truncated, |all[i].leaves| + |all[i].prefixes|)
    decreases |Selected(V1Options(r), keys)|
  {
    hide *;
    var a, all := ListV1(r, keys), FollowV1(r, keys);
    V1Next(r, keys);
    V1Answer(r, keys);
    if a.truncated {
      var next := r.(marker := V1Resume(a));
      ResumeV1(r, keys);
      V1Shrinks(r, keys);
      V1Filled(next, keys);
      var rest := FollowV1(next, keys);
      assert all == [a] + rest;
      assert forall i | 0 < i < |all| :: all[i] == rest[i - 1];
    }
  }

  lemma V1Shrinks(r: V1Request, keys: seq<string>)
    requires Ascending(keys) && AllTrimmed(keys) && ListV1(r, keys).truncated
    ensures |Selected(V1Options(r.(marker := V1Resume(ListV1(r, keys)))), keys)| < |Selected(V1Options(r), keys)|
  {
    hide TrimSpace, Entries, Used, Selected, Leaves, Prefixes, Grouping, AllTrimmed, Ascending;
    Resumed(V1Options(r), keys);
    ResumeV1(r, keys);
  }

  // ---------- version 2 ----------

  // The start of a page of version 2: the key in the token, or the trimmed key of a request without one.
  ghost predicate Starts(r: V2Request, start: string) {
    match r.token
    case NoToken => start == TrimSpace(r.startAfter)
    case Base64(key) => start == key
    case Verbatim(text) => start == text
  }

  // A page of version 2 goes up to the key in the token that it hands out, which it does exactly if more is to come.
  lemma V2Answer(r: V2Request, start: string, keys: seq<string>)
    requires Ascending(keys) && Starts(r, start)
    ensures var a := ListV2(r, keys);
      && (a.nextToken == NoToken <==> !a.truncated)
      && (a.truncated ==> a.nextToken.Base64? && exists key :: key in keys && Asked(TrimSpace(r.prefix), a.nextToken.key, None, key))
      && Shows(TrimSpace(r.prefix), TrimSpace(r.delimiter), start,
               if a.truncated then Some(a.nextToken.key) else None, keys, a.leaves, a.prefixes)
      && Fits(r.maxKeys, a.truncated, a.keyCount) && a.keyCount == |a.leaves| + |a.prefixes|
  {
    hide *;
    var a, o := ListV2(r, keys), V2Options(r);
    V2Is(r, start, keys);
    PageShows(o, keys);
    BudgetFits(r.maxKeys, a.truncated, a.keyCount);
    if a.truncated {
      KeyNotBlank(o, keys);
    }
  }

  lemma V2Is(r: V2Request, start: string, keys: seq<string>)
    requires Starts(r, start)
    ensures var a, o, page := ListV2(r, keys), V2Options(r), PageOf(V2Options(r), keys);
      && o == Options(TrimSpace(r.prefix), TrimSpace(r.delimiter), r.maxKeys, start)
      && a == V2Result(page.leaves, page.prefixes, |page.leaves| + |page.prefixes|, page.truncated,
                       if page.truncated && page.marker != "" then Base64(page.marker) else NoToken)
  {
    hide TrimSpace, PageOf;
  }

  lemma V2Complete(r: V2Request, start: string, keys: seq<string>)
    requires Ascending(keys) && AllTrimmed(keys) && Starts(r, start)
    ensures var all := FollowV2(r, keys);
      && Shows(TrimSpace(r.prefix), TrimSpace(r.delimiter), start, None, keys, V2Leaves(all), V2Prefixes(all))
      && |all| > 0 && all[0] == ListV2(r, keys)
      && forall i | 0 <= i < |all| :: (all[i].truncated <==> i < |all| - 1) && Fits(r.maxKeys, all[i].truncated, all[i].keyCount)
  {
    hide *;
    var all, o := FollowV2(r, keys), V2Options(r);
    ClientsSeeListing(V1Request("", "", "", 0), r, keys);
    AllShown(o, keys, V2Leaves(all), V2Prefixes(all));
    V2Is(r, start, keys);
    V2Filled(r, start, keys);
  }

  lemma V2Next(r: V2Request, keys: seq<string>)
    requires Ascending(keys)
    ensures var a := ListV2(r, keys);
      FollowV2(r, keys) == [a] + if a.truncated then FollowV2(r.(token := a.nextToken), keys) else []
  {
    hide TrimSpace, PageOf, Selected;
  }

  lemma TokenStarts(r: V2Request, key: string)
    requires r.token == Base64(key)
    ensures Starts(r, key)
  {
  }

  lemma {:induction false} V2Filled(r: V2Request, start: string, keys: seq<string>)
    requires Ascending(keys) && Starts(r, start)
    ensures var all := FollowV2(r, keys);
      && |all| > 0 && all[0] == ListV2(r, keys)
      && forall i | 0 <= i < |all| :: (all[i].truncated <==> i < |all| - 1) && Fits(r.maxKeys, all[i].truncated, all[i].keyCount)
    decreases |Selected(V2Options(r), keys)|
  {
    hide *;
    var a, all := ListV2(r, keys), FollowV2(r, keys);
    V2Next(r, keys);
    V2Answer(r, start, keys);
    if a.truncated {
      var next := r.(token := a.nextToken);
      V2Shrinks(r, keys);
      TokenStarts(next, a.nextToken.key);
      V2Filled(next, a.nextToken.key, keys);
      var rest := FollowV2(next, keys);
      assert all == [a] + rest;
      assert forall i | 0 < i < |all| :: all[i] == rest[i - 1];
    }
  }

  lemma V2Shrinks(r: V2Request, keys: seq<string>)
    requires Ascending(keys) && ListV2(r, keys).truncated
    ensures |Selected(V2Options(r.(token := ListV2(r, keys).nextToken)), keys)| < |Selected(V2Options(r), keys)|
  {
    hide TrimSpace, Entries, Used, Selected, Leaves, Prefixes, Grouping, Ascending;
    Resumed(V2Options(r), keys);
    ResumeV2(r, keys);
  }
}
