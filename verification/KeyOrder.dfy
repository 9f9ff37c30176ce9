/** Ascending sequences of keys: there is one for every set of keys, and sorting the keys in any order gives it. */
module KeyOrder {
  import opened Strings
  import StableSort

  ghost predicate Ascending(keys: seq<string>) {
    forall i, j | 0 <= i < j < |keys| :: Less(keys[i], keys[j])
  }

  lemma {:induction false} AscendingUnique(a: seq<string>, b: seq<string>)
    requires Ascending(a) && Ascending(b)
    requires forall k :: k in a <==> k in b
    ensures a == b
  {
    if |a| > 0 && |b| > 0 {
      FirstsAgree(a, b);
      forall k ensures k in a[1..] <==> k in b[1..] {
        LessIrreflexive(a[0]);
        assert k in a <==> k == a[0] || k in a[1..];
        assert k in b <==> k == b[0] || k in b[1..];
      }
      AscendingUnique(a[1..], b[1..]);
      assert a == [a[0]] + a[1..] && b == [b[0]] + b[1..];
    } else {
      SomeMember(a);
      SomeMember(b);
    }
  }

  lemma SomeMember(a: seq<string>)
    ensures |a| > 0 ==> exists k :: k in a
  {
    if |a| > 0 {
      assert a[0] in a;
    }
  }

  lemma FirstsAgree(a: seq<string>, b: seq<string>)
    requires Ascending(a) && Ascending(b) && |a| > 0 && |b| > 0
    requires forall k :: k in a <==> k in b
    ensures a[0] == b[0]
  {
    assert a[0] in b && b[0] in a;
    if a[0] != b[0] {
      assert Less(a[0], b[0]) && Less(b[0], a[0]);
      LessAsymmetric(a[0], b[0]);
    }
  }

  lemma {:induction false} HasLeast(keys: set<string>) returns (k: string)
    requires keys != {}
    ensures k in keys && forall other | other in keys :: AtMost(k, other)
  {
    k :| k in keys;
    if keys != {k} {
      var l := HasLeast(keys - {k});
      LessConnected(k, l);
      if Less(l, k) {
        k := l;
      } else {
        forall other | other in keys ensures AtMost(k, other) {
          assert other == k || other in keys - {k};
          if other != k && l != other {
            assert AtMost(l, other);
            LessTransitive(k, l, other);
          }
        }
      }
    }
  }

  ghost predicate IsLeast(keys: set<string>, k: string) {
    k in keys && forall other | other in keys :: AtMost(k, other)
  }

  lemma LeastExists(keys: set<string>)
    requires keys != {}
    ensures exists k :: IsLeast(keys, k)
  {
    var k := HasLeast(keys);
    assert IsLeast(keys, k);
  }

  ghost function Least(keys: set<string>): (k: string)
    requires keys != {}
    ensures IsLeast(keys, k)
  {
    LeastExists(keys);
    var k :| IsLeast(keys, k);
    k
  }

  ghost function SortedKeys(keys: set<string>): (r: seq<string>)
    ensures forall k :: k in r <==> k in keys
    ensures |r| == |keys|
    decreases |keys|
  {
    if |keys| == 0 then []
    else [Least(keys)] + SortedKeys(keys - {Least(keys)})
  }

  lemma {:induction false} SortedKeysAscend(keys: set<string>)
    ensures Ascending(SortedKeys(keys))
    decreases |keys|
  {
    if |keys| > 0 {
      var k, rest := Least(keys), SortedKeys(keys - {Least(keys)});
      SortedKeysAscend(keys - {k});
      forall i | 0 <= i < |rest| ensures Less(k, rest[i]) {
        assert rest[i] in rest;
        assert AtMost(k, rest[i]);
      }
    }
  }

  lemma LessIsTotal(a: string, b: string, c: string)
    ensures Less(a, b) ==> !Less(b, a)
    ensures Less(a, c) ==> Less(a, b) || Less(b, c)
    ensures a == b || Less(a, b) || Less(b, a)
  {
    LessConnected(a, b);
    if Less(a, b) {
      LessAsymmetric(a, b);
    }
    if Less(b, a) && Less(a, c) {
      LessTransitive(b, a, c);
    }
  }

  lemma LessTotalOn(keys: seq<string>)
    ensures StableSort.StrictTotalOn(Less, keys)
  {
    hide Less;
    forall x, y, z
      ensures Less(x, y) ==> !Less(y, x)
      ensures Less(x, z) ==> Less(x, y) || Less(y, z)
      ensures x != y ==> Less(x, y) || Less(y, x)
    {
      LessIsTotal(x, y, z);
    }
  }

  // Sorting the keys in whatever order they come gives the same sequence.
  lemma SortIsSortedKeys(keys: set<string>, collected: seq<string>)
    requires forall k :: k in collected <==> k in keys
    requires |collected| == |keys|
    ensures StableSort.Sort(Less, collected) == SortedKeys(keys)
  {
    hide Less, SortedKeys, StableSort.Sort, StableSort.StrictTotalOn;
    EachOnce(collected, keys);
    LessTotalOn(collected);
    StableSort.SortsStrictly(Less, collected);
    SortedKeysAscend(keys);
    AscendingUnique(StableSort.Sort(Less, collected), SortedKeys(keys));
  }

  // A sequence with as many elements as its set has each element once.
  lemma {:induction false} EachOnce(xs: seq<string>, s: set<string>)
    requires forall x :: x in xs <==> x in s
    requires |xs| == |s|
    ensures multiset(xs) == multiset(s)
  {
    if |xs| > 0 {
      var n := |xs| - 1;
      assert xs == xs[..n] + [xs[n]];
      var before := set x | x in xs[..n];
      SetSmaller(xs[..n]);
      var last := xs[n];
      assert s == before + {last};
      assert |before| == n by {
        assert last in before ==> s == before;
      }
      assert before == s - {last};
      EachOnce(xs[..n], before);
    } else {
      assert s == {};
    }
  }

  lemma {:induction false} SetSmaller(xs: seq<string>)
    ensures |set x | x in xs| <= |xs|
  {
    if |xs| > 0 {
      var n := |xs| - 1;
      SetSmaller(xs[..n]);
      var before := set x | x in xs[..n];
      assert xs == xs[..n] + [xs[n]];
      assert (set x | x in xs) == before + {xs[n]};
    }
  }
}
