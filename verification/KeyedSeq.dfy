/** Go slices that are searched by key: the map they stand for, and what replacing, appending
    and cutting out one element does to that map. */
module KeyedSeq {

  ghost predicate Unique<K, V>(key: V -> K, xs: seq<V>) {
    forall i, j | 0 <= i < j < |xs| :: key(xs[i]) != key(xs[j])
  }

  // the element with that key
  ghost function At<K(!new), V(!new)>(key: V -> K, xs: seq<V>, k: K): (x: V)
    requires exists i :: 0 <= i < |xs| && key(xs[i]) == k
    ensures x in xs && key(x) == k
  {
    var i :| 0 <= i < |xs| && key(xs[i]) == k;
    xs[i]
  }

  ghost function ToMap<K(!new), V(!new)>(key: V -> K, xs: seq<V>): (m: map<K, V>)
    requires Unique(key, xs)
    ensures forall x | x in xs :: key(x) in m && m[key(x)] == x
    ensures forall k | k in m :: m[k] in xs && key(m[k]) == k
  {
    var keys := set i | 0 <= i < |xs| :: key(xs[i]);
    map k | k in keys :: At(key, xs, k)
  }

  ghost predicate Absent<K, V>(key: V -> K, xs: seq<V>, k: K) {
    forall i | 0 <= i < |xs| :: key(xs[i]) != k
  }

  lemma AbsentFromMap<K(!new), V(!new)>(key: V -> K, xs: seq<V>, k: K)
    requires Unique(key, xs)
    ensures Absent(key, xs, k) <==> k !in ToMap(key, xs)
  {
    if k !in ToMap(key, xs) {
      forall i | 0 <= i < |xs| ensures key(xs[i]) != k {
        assert xs[i] in xs;
      }
    }
  }

  lemma ReplaceAt<K(!new), V(!new)>(key: V -> K, xs: seq<V>, i: nat, x: V)
    requires i < |xs| && Unique(key, xs) && key(x) == key(xs[i])
    ensures Unique(key, xs[i := x])
    ensures ToMap(key, xs[i := x]) == ToMap(key, xs)[key(x) := x]
  {
    var ys := xs[i := x];
    var m, n := ToMap(key, ys), ToMap(key, xs)[key(x) := x];
    assert ys[i] == x;
    forall y | y in ys ensures key(y) in n && n[key(y)] == y {
      var j :| 0 <= j < |ys| && ys[j] == y;
      assert j == i || xs[j] == y;
    }
    forall k | k in n ensures k in m {
      if k != key(x) {
        var j :| 0 <= j < |xs| && xs[j] == ToMap(key, xs)[k];
        assert ys[j] == xs[j];
      }
    }
  }

  lemma Append<K(!new), V(!new)>(key: V -> K, xs: seq<V>, x: V)
    requires Unique(key, xs) && Absent(key, xs, key(x))
    ensures Unique(key, xs + [x])
    ensures ToMap(key, xs + [x]) == ToMap(key, xs)[key(x) := x]
  {
    hide ToMap, At;
    AbsentFromMap(key, xs, key(x));
    var m, n := ToMap(key, xs + [x]), ToMap(key, xs)[key(x) := x];
    forall k | k in n ensures k in m && m[k] == n[k] {
      assert n[k] in xs + [x];
    }
  }

  lemma RemoveAt<K(!new), V(!new)>(key: V -> K, xs: seq<V>, i: nat)
    requires i < |xs| && Unique(key, xs)
    ensures Unique(key, xs[..i] + xs[i + 1..])
    ensures Absent(key, xs[..i] + xs[i + 1..], key(xs[i]))
    ensures ToMap(key, xs[..i] + xs[i + 1..]) == ToMap(key, xs) - {key(xs[i])}
  {
    var ys := xs[..i] + xs[i + 1..];
    forall j | 0 <= j < |ys| ensures ys[j] == xs[if j < i then j else j + 1] {
    }
    assert Unique(key, ys) && Absent(key, ys, key(xs[i]));
    forall x | x in xs ensures x in ys <==> x != xs[i] {
      var j :| 0 <= j < |xs| && xs[j] == x;
      if j != i {
        assert ys[if j < i then j else j - 1] == x;
      }
    }
    SubMap(key, xs, ys, xs[i]);
  }

  // The map of the elements but one.
  lemma SubMap<K(!new), V(!new)>(key: V -> K, xs: seq<V>, ys: seq<V>, out: V)
    requires Unique(key, xs) && Unique(key, ys) && out in xs && Absent(key, ys, key(out))
    requires forall x | x in xs :: x in ys <==> x != out
    requires forall y | y in ys :: y in xs
    ensures ToMap(key, ys) == ToMap(key, xs) - {key(out)}
  {
    hide ToMap, At, Unique;
    var m, n := ToMap(key, ys), ToMap(key, xs) - {key(out)};
    forall k | k in n ensures k in m && m[k] == n[k] {
      assert n[k] in ys;
    }
    forall k | k in m ensures k in n {
      assert m[k] in xs;
      AbsentFromMap(key, ys, key(out));
    }
  }

  // A position at or after which the key was not met before is the map's element.
  lemma Found<K(!new), V(!new)>(key: V -> K, xs: seq<V>, i: nat)
    requires i < |xs| && Unique(key, xs)
    ensures key(xs[i]) in ToMap(key, xs) && ToMap(key, xs)[key(xs[i])] == xs[i]
  {
    assert xs[i] in xs;
  }
}
