/** sort.SliceStable: insertion of one element after another, each moving left past the elements it is
    less than. For a strict weak order this is the stable sort, and for a strict total order on
    the elements the sorted permutation is unique. */
module StableSort {

  ghost predicate StrictWeakOn<T(!new)>(less: (T, T) -> bool, xs: seq<T>) {
    && (forall x, y | x in xs && y in xs :: less(x, y) ==> !less(y, x))
    && (forall x, y, z | x in xs && y in xs && z in xs :: less(x, z) ==> less(x, y) || less(y, z))
  }

  // ... and different elements are never tied
  ghost predicate StrictTotalOn<T(!new)>(less: (T, T) -> bool, xs: seq<T>) {
    && StrictWeakOn(less, xs)
    && (forall x, y | x in xs && y in xs :: x != y ==> less(x, y) || less(y, x))
  }

  ghost predicate SortedBy<T>(less: (T, T) -> bool, xs: seq<T>) {
    forall i, j | 0 <= i < j < |xs| :: !less(xs[j], xs[i])
  }

  function InsertLast<T>(less: (T, T) -> bool, xs: seq<T>, x: T): (r: seq<T>)
    ensures multiset(r) == multiset(xs) + multiset{x}
    ensures |r| == |xs| + 1
  {
    if xs != [] && less(x, xs[|xs| - 1]) then
      assert xs == xs[..|xs| - 1] + [xs[|xs| - 1]];
      InsertLast(less, xs[..|xs| - 1], x) + [xs[|xs| - 1]]
    else
      xs + [x]
  }

  function Sort<T>(less: (T, T) -> bool, xs: seq<T>): (r: seq<T>)
    ensures multiset(r) == multiset(xs)
    ensures |r| == |xs|
  {
    if xs == [] then []
    else
      assert xs == xs[..|xs| - 1] + [xs[|xs| - 1]];
      InsertLast(less, Sort(less, xs[..|xs| - 1]), xs[|xs| - 1])
  }

  lemma SameElements<T>(xs: seq<T>, ys: seq<T>)
    requires multiset(xs) == multiset(ys)
    ensures |xs| == |ys|
    ensures forall x :: x in xs <==> x in ys
  {
    assert |multiset(xs)| == |xs| && |multiset(ys)| == |ys|;
    forall x ensures x in xs <==> x in ys {
      assert x in xs <==> x in multiset(xs);
      assert x in ys <==> x in multiset(ys);
    }
  }

  ghost predicate NoRepeats<T>(xs: seq<T>) {
    forall i, j | 0 <= i < j < |xs| :: xs[i] != xs[j]
  }

  lemma Twice<T>(xs: seq<T>, i: nat, j: nat)
    requires i < j < |xs| && xs[i] == xs[j]
    ensures multiset(xs)[xs[i]] >= 2
  {
    assert xs == xs[..j] + [xs[j]] + xs[j + 1..];
    assert xs[..j][i] == xs[i];
  }

  lemma CountedOnce<T(!new)>(xs: seq<T>)
    requires forall x :: multiset(xs)[x] <= 1
    ensures NoRepeats(xs)
  {
    forall i, j | 0 <= i < j < |xs| ensures xs[i] != xs[j] {
      if xs[i] == xs[j] {
        Twice(xs, i, j);
      }
    }
  }

  lemma {:induction false} OccursOnce<T(!new)>(xs: seq<T>, x: T)
    requires NoRepeats(xs)
    ensures multiset(xs)[x] <= 1
  {
    if |xs| > 0 {
      assert xs == [xs[0]] + xs[1..];
      OccursOnce(xs[1..], x);
      if x == xs[0] {
        assert x !in xs[1..];
      }
    }
  }

  ghost predicate Ascends<T>(less: (T, T) -> bool, xs: seq<T>) {
    forall i, j | 0 <= i < j < |xs| :: less(xs[i], xs[j])
  }

  ghost predicate Asymmetric<T(!new)>(less: (T, T) -> bool) {
    forall x, y :: less(x, y) ==> !less(y, x)
  }

  // Two strictly ascending sequences with the same elements are the same.
  lemma {:induction false} AscendingUnique<T(!new)>(less: (T, T) -> bool, xs: seq<T>, ys: seq<T>)
    requires Ascends(less, xs) && Ascends(less, ys) && Asymmetric(less)
    requires forall x :: x in xs <==> x in ys
    ensures xs == ys
  {
    assert xs == [] || xs[0] in xs;
    assert ys == [] || ys[0] in ys;
    if xs != [] {
      var i :| 0 <= i < |ys| && ys[i] == xs[0];
      var j :| 0 <= j < |xs| && xs[j] == ys[0];
      assert xs[0] == ys[0];
      assert xs == [xs[0]] + xs[1..] && ys == [ys[0]] + ys[1..];
      forall x ensures x in xs[1..] <==> x in ys[1..] {
        assert x in xs <==> x == xs[0] || x in xs[1..];
        assert x in ys <==> x == ys[0] || x in ys[1..];
      }
      AscendingUnique(less, xs[1..], ys[1..]);
    }
  }

  // The sorted permutation of elements of which there is one each goes strictly upwards.
  lemma SortsStrictly<T(!new)>(less: (T, T) -> bool, xs: seq<T>)
    requires StrictTotalOn(less, xs) && forall x :: multiset(xs)[x] <= 1
    ensures forall i, j | 0 <= i < j < |xs| :: less(Sort(less, xs)[i], Sort(less, xs)[j])
    ensures forall x :: x in Sort(less, xs) <==> x in xs
  {
    hide *;
    var r := Sort(less, xs);
    TotalIsWeak(less, xs);
    SortSorts(less, xs);
    SameElements(r, xs);
    CountedOnce(r);
    StrictlyUpwards(less, xs, r);
  }

  lemma TotalIsWeak<T(!new)>(less: (T, T) -> bool, xs: seq<T>)
    requires StrictTotalOn(less, xs)
    ensures StrictWeakOn(less, xs)
  {
    hide StrictWeakOn;
  }

  lemma StrictlyUpwards<T(!new)>(less: (T, T) -> bool, xs: seq<T>, r: seq<T>)
    requires StrictTotalOn(less, xs) && SortedBy(less, r) && NoRepeats(r)
    requires forall x | x in r :: x in xs
    ensures forall i, j | 0 <= i < j < |r| :: less(r[i], r[j])
  {
    hide StrictWeakOn;
    forall i, j | 0 <= i < j < |r| ensures less(r[i], r[j]) {
      assert r[i] in xs && r[j] in xs && r[i] != r[j];
    }
  }

  lemma WeakOnPart<T(!new)>(less: (T, T) -> bool, xs: seq<T>, ys: seq<T>)
    requires StrictWeakOn(less, xs) && forall y | y in ys :: y in xs
    ensures StrictWeakOn(less, ys)
  {
  }

  // x stays behind the last element, or moves in front of it
  lemma LastStays<T(!new)>(less: (T, T) -> bool, xs: seq<T>, x: T, r: seq<T>)
    requires StrictWeakOn(less, xs + [x]) && xs != []
    requires SortedBy(less, xs) && SortedBy(less, r) && less(x, xs[|xs| - 1])
    requires multiset(r) == multiset(xs[..|xs| - 1] + [x])
    ensures SortedBy(less, r + [xs[|xs| - 1]])
  {
    var n := |xs| - 1;
    SameElements(r, xs[..n] + [x]);
    forall y | y in r ensures !less(xs[n], y) {
      assert y in xs[..n] + [x];
      assert x in xs + [x] && xs[n] in xs + [x];
    }
  }

  lemma {:induction false} InsertSorts<T(!new)>(less: (T, T) -> bool, xs: seq<T>, x: T)
    requires SortedBy(less, xs)
    requires StrictWeakOn(less, xs + [x])
    ensures SortedBy(less, InsertLast(less, xs, x))
  {
    var n := |xs|;
    if xs != [] && less(x, xs[n - 1]) {
      hide StrictWeakOn;
      WeakOnPart(less, xs + [x], xs[..n - 1] + [x]);
      InsertSorts(less, xs[..n - 1], x);
      LastStays(less, xs, x, InsertLast(less, xs[..n - 1], x));
    } else if xs != [] {
      forall i | 0 <= i < n ensures !less(x, xs[i]) {
        assert xs[i] in xs + [x] && x in xs + [x] && xs[n - 1] in xs + [x];
      }
    }
  }

  lemma {:induction false} SortSorts<T(!new)>(less: (T, T) -> bool, xs: seq<T>)
    requires StrictWeakOn(less, xs)
    ensures SortedBy(less, Sort(less, xs))
  {
    hide StrictWeakOn, SortedBy;
    if xs != [] {
      var init, last := xs[..|xs| - 1], xs[|xs| - 1];
      WeakOnPart(less, xs, init);
      SortSorts(less, init);
      SameElements(Sort(less, init), init);
      WeakOnPart(less, xs, Sort(less, init) + [last]);
      InsertSorts(less, Sort(less, init), last);
    } else {
      NothingSorted(less);
    }
  }

  lemma NothingSorted<T>(less: (T, T) -> bool)
    ensures SortedBy(less, [])
  {
  }

  lemma HeadsAgree<T(!new)>(less: (T, T) -> bool, xs: seq<T>, ys: seq<T>)
    requires multiset(xs) == multiset(ys) && xs != [] && ys != []
    requires StrictTotalOn(less, xs)
    requires SortedBy(less, xs) && SortedBy(less, ys)
    ensures xs[0] == ys[0]
  {
    SameElements(xs, ys);
    var x, y := xs[0], ys[0];
    assert x in ys && y in xs;
    var i :| 0 <= i < |ys| && ys[i] == x;
    var j :| 0 <= j < |xs| && xs[j] == y;
    assert i == 0 || !less(x, y);
    assert j == 0 || !less(y, x);
  }

  lemma TailsPermuted<T>(xs: seq<T>, ys: seq<T>)
    requires multiset(xs) == multiset(ys) && xs != [] && ys != [] && xs[0] == ys[0]
    ensures multiset(xs[1..]) == multiset(ys[1..])
  {
    assert xs == [xs[0]] + xs[1..] && ys == [ys[0]] + ys[1..];
    assert multiset(xs[1..]) == multiset(xs) - multiset{xs[0]};
    assert multiset(ys[1..]) == multiset(ys) - multiset{ys[0]};
  }

  lemma TailSorted<T(!new)>(less: (T, T) -> bool, xs: seq<T>)
    requires xs != []
    ensures StrictTotalOn(less, xs) ==> StrictTotalOn(less, xs[1..])
    ensures SortedBy(less, xs) ==> SortedBy(less, xs[1..])
  {
    assert forall z | z in xs[1..] :: z in xs;
  }

  // Two sorted arrangements of the same elements are the same sequence.
  lemma {:induction false} SortedUnique<T(!new)>(less: (T, T) -> bool, xs: seq<T>, ys: seq<T>)
    requires multiset(xs) == multiset(ys)
    requires StrictTotalOn(less, xs)
    requires SortedBy(less, xs) && SortedBy(less, ys)
    ensures xs == ys
  {
    hide StrictTotalOn, SortedBy;
    SameElements(xs, ys);
    if xs != [] {
      HeadsAgree(less, xs, ys);
      TailsPermuted(xs, ys);
      TailSorted(less, xs);
      TailSorted(less, ys);
      SortedUnique(less, xs[1..], ys[1..]);
      assert xs == [xs[0]] + xs[1..] && ys == [ys[0]] + ys[1..];
    }
  }

  function Reversed<T>(xs: seq<T>): (r: seq<T>)
    ensures |r| == |xs|
    ensures forall i | 0 <= i < |xs| :: r[i] == xs[|xs| - 1 - i]
  {
    seq(|xs|, i requires 0 <= i < |xs| => xs[|xs| - 1 - i])
  }

  lemma {:induction false} ReversedMultiset<T>(xs: seq<T>)
    ensures multiset(Reversed(xs)) == multiset(xs)
  {
    if xs != [] {
      assert xs == [xs[0]] + xs[1..];
      assert Reversed(xs) == Reversed(xs[1..]) + [xs[0]];
      ReversedMultiset(xs[1..]);
    }
  }

  lemma OppositeWeak<T(!new)>(less: (T, T) -> bool, more: (T, T) -> bool, xs: seq<T>)
    requires StrictTotalOn(less, xs)
    requires forall x, y | x in xs && y in xs :: more(x, y) == less(y, x)
    ensures StrictWeakOn(more, xs)
  {
  }

  lemma ReversedSorted<T(!new)>(less: (T, T) -> bool, more: (T, T) -> bool, xs: seq<T>)
    requires forall x, y | x in xs && y in xs :: more(x, y) == less(y, x)
    requires SortedBy(more, xs)
    ensures SortedBy(less, Reversed(xs))
  {
    var r := Reversed(xs);
    forall i, j | 0 <= i < j < |r| ensures !less(r[j], r[i]) {
      assert r[i] in xs && r[j] in xs;
    }
  }

  // Sorting with the opposite order gives the exact reversal.
  lemma OppositeReverses<T(!new)>(less: (T, T) -> bool, more: (T, T) -> bool, xs: seq<T>)
    requires StrictTotalOn(less, xs)
    requires forall x, y | x in xs && y in xs :: more(x, y) == less(y, x)
    ensures Sort(more, xs) == Reversed(Sort(less, xs))
  {
    var f, b := Sort(less, xs), Sort(more, xs);
    OppositeWeak(less, more, xs);
    SameElements(f, xs);
    SameElements(b, xs);
    assert StrictTotalOn(less, f);
    hide StrictTotalOn, SortedBy, Sort;
    SortSorts(less, xs);
    SortSorts(more, xs);
    ReversedSorted(less, more, b);
    ReversedMultiset(b);
    SortedUnique(less, f, Reversed(b));
    assert b == Reversed(f);
  }
}
