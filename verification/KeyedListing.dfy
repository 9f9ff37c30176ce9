/** Listing the elements of one place (a bucket, a table) in the order of their keys. */
module KeyedListing {
  import opened Strings
  import opened KeyOrder
  import StableSort

  // different elements differ in place or key
  ghost predicate Distinct<V>(place: V -> string, key: V -> string, xs: seq<V>) {
    forall i, j | 0 <= i < j < |xs| :: place(xs[i]) != place(xs[j]) || key(xs[i]) != key(xs[j])
  }

  function Before<V>(key: V -> string): (V, V) -> bool {
    (a, b) => Less(key(a), key(b))
  }

  function Section<V>(place: V -> string, xs: seq<V>, p: string): seq<V> {
    if |xs| == 0 then []
    else Section(place, xs[..|xs| - 1], p) + (if place(xs[|xs| - 1]) == p then [xs[|xs| - 1]] else [])
  }

  function Listing<V>(place: V -> string, key: V -> string, xs: seq<V>, p: string): seq<V> {
    StableSort.Sort(Before(key), Section(place, xs, p))
  }

  // collects the elements of the place, then sorts them
  method ListSection<V>(place: V -> string, key: V -> string, xs: seq<V>, p: string) returns (listed: seq<V>)
    ensures listed == Listing(place, key, xs, p)
  {
    var some: seq<V> := [];
    for i := 0 to |xs|
      invariant some == Section(place, xs[..i], p)
    {
      assert xs[..i + 1][..i] == xs[..i];
      if place(xs[i]) == p {
        some := some + [xs[i]];
      }
    }
    assert xs[..|xs|] == xs;
    listed := StableSort.Sort(Before(key), some);
  }

  function Keys<V>(key: V -> string, xs: seq<V>): (keys: seq<string>)
    ensures |keys| == |xs|
    ensures forall i | 0 <= i < |xs| :: keys[i] == key(xs[i])
  {
    seq(|xs|, i requires 0 <= i < |xs| => key(xs[i]))
  }

  // ---------- multiplicities ----------

  lemma {:induction false} OnceAtMost<V>(place: V -> string, key: V -> string, xs: seq<V>, x: V)
    requires Distinct(place, key, xs)
    ensures multiset(xs)[x] <= 1
  {
    if |xs| > 0 {
      var n := |xs| - 1;
      assert xs == xs[..n] + [xs[n]];
      OnceAtMost(place, key, xs[..n], x);
      forall i | 0 <= i < n ensures xs[..n][i] != xs[n] {
        assert place(xs[i]) != place(xs[n]) || key(xs[i]) != key(xs[n]);
      }
    }
  }

  lemma {:induction false} SectionCount<V>(place: V -> string, xs: seq<V>, p: string, x: V)
    ensures multiset(Section(place, xs, p))[x] == if place(x) == p then multiset(xs)[x] else 0
  {
    if |xs| > 0 {
      var n := |xs| - 1;
      SectionCount(place, xs[..n], p, x);
      assert xs == xs[..n] + [xs[n]];
    }
  }

  lemma SectionMembers<V(!new)>(place: V -> string, xs: seq<V>, p: string)
    ensures forall x :: x in Section(place, xs, p) <==> x in xs && place(x) == p
  {
    forall x ensures x in Section(place, xs, p) <==> x in xs && place(x) == p {
      SectionCount(place, xs, p, x);
      assert x in Section(place, xs, p) <==> x in multiset(Section(place, xs, p));
      assert x in xs <==> x in multiset(xs);
    }
  }

  // ---------- the listing ----------

  lemma SectionTotal<V(!new)>(place: V -> string, key: V -> string, xs: seq<V>, p: string)
    requires Distinct(place, key, xs)
    ensures StableSort.StrictTotalOn(Before(key), Section(place, xs, p))
  {
    var some, before := Section(place, xs, p), Before(key);
    SectionMembers(place, xs, p);
    forall x, y, z | x in some && y in some && z in some
      ensures before(x, y) ==> !before(y, x)
      ensures before(x, z) ==> before(x, y) || before(y, z)
      ensures x != y ==> before(x, y) || before(y, x)
    {
      LessIsTotal(key(x), key(y), key(z));
      var i :| 0 <= i < |xs| && xs[i] == x;
      var j :| 0 <= j < |xs| && xs[j] == y;
      if i < j {
        assert place(xs[i]) != place(xs[j]) || key(xs[i]) != key(xs[j]);
      } else if j < i {
        assert place(xs[j]) != place(xs[i]) || key(xs[j]) != key(xs[i]);
      }
    }
  }

  // A listing goes through the elements of its place in strictly ascending order of their keys.
  lemma ListingAscends<V(!new)>(place: V -> string, key: V -> string, xs: seq<V>, p: string)
    requires Distinct(place, key, xs)
    ensures var listed := Listing(place, key, xs, p);
      && Ascending(Keys(key, listed))
      && forall x :: x in listed <==> x in xs && place(x) == p
  {
    var some, listed := Section(place, xs, p), Listing(place, key, xs, p);
    SectionMembers(place, xs, p);
    SectionTotal(place, key, xs, p);
    forall x ensures multiset(some)[x] <= 1 {
      OnceAtMost(place, key, xs, x);
      SectionCount(place, xs, p, x);
    }
    hide Section;
    StableSort.SortsStrictly(Before(key), some);
    forall i, j | 0 <= i < j < |listed| ensures Less(key(listed[i]), key(listed[j])) {
      assert Before(key)(listed[i], listed[j]);
    }
  }

  // Permuted elements have the same listings.
  lemma SameListings<V(!new)>(place: V -> string, key: V -> string, a: seq<V>, b: seq<V>, p: string)
    requires Distinct(place, key, a) && multiset(a) == multiset(b)
    ensures Listing(place, key, a, p) == Listing(place, key, b, p)
  {
    var x, y, before := Section(place, a, p), Section(place, b, p), Before(key);
    forall v ensures multiset(x)[v] == multiset(y)[v] {
      SectionCount(place, a, p, v);
      SectionCount(place, b, p, v);
    }
    SectionTotal(place, key, a, p);
    StableSort.SameElements(x, y);
    assert StableSort.StrictTotalOn(before, y);
    StableSort.SortSorts(before, x);
    StableSort.SortSorts(before, y);
    StableSort.SameElements(StableSort.Sort(before, x), x);
    assert StableSort.StrictTotalOn(before, StableSort.Sort(before, x));
    StableSort.SortedUnique(before, StableSort.Sort(before, x), StableSort.Sort(before, y));
  }
}
