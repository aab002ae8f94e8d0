/** Facts about finite sets and about lists without repetition. */
module Sets {
  /** Visiting a set in an arbitrary order, as Go does when it ranges over a map. */
  method Pick<T(==)>(xs: set<T>) returns (x: T, rest: set<T>)
    requires xs != {}
    ensures x in xs && rest == xs - {x}
  {
    x :| x in xs;
    rest := xs - {x};
  }

  lemma SubsetSize<T>(a: set<T>, b: set<T>)
    requires a <= b
    ensures |a| <= |b|
  {
    assert b == a + (b - a);
  }

  lemma StrictSubsetSize<T>(a: set<T>, b: set<T>, x: T)
    requires a <= b && x in b && x !in a
    ensures |a| + 1 <= |b|
  {
    SubsetSize(a + {x}, b);
  }

  lemma Member<T>(xs: set<T>) returns (x: T)
    requires |xs| > 0
    ensures x in xs && |xs| == |xs - {x}| + 1
  {
    x :| x in xs;
  }

  lemma SizeWithout<T>(xs: set<T>, x: T)
    ensures |xs - {x}| == |xs| - (if x in xs then 1 else 0)
  {
    if x !in xs { assert xs - {x} == xs; }
  }

  lemma OnlyMember<T>(xs: set<T>, x: T)
    requires |xs| == 1 && x in xs
    ensures xs == {x}
  {
    if y :| y in xs && y != x { StrictSubsetSize({x}, xs, y); }
  }

  lemma SizeAfter<T>(xs: set<T>, done: set<T>, ys: set<T>)
    requires forall x :: x in ys <==> x in xs && x !in done
    requires forall x :: x in done ==> x in xs
    ensures |ys| + |done| == |xs|
  {
    assert ys == xs - done && xs == ys + done;
  }

  /** At most `n` numbers lie below `n`. */
  lemma {:induction false} BelowSize(xs: set<int>, n: nat)
    requires forall x :: x in xs ==> 0 <= x < n
    ensures |xs| <= n
  {
    if n == 0 {
      if |xs| > 0 {
        var x := Member(xs);
        assert false;
      }
    } else {
      BelowSize(xs - {n - 1}, n - 1);
      SizeWithout(xs, n - 1);
    }
  }

  ghost predicate NoDup<T>(xs: seq<T>) {
    forall i, j :: 0 <= i < j < |xs| ==> xs[i] != xs[j]
  }

  /** The list holds the elements of the set, once each. */
  ghost predicate Lists<T>(xs: seq<T>, ys: set<T>) {
    && NoDup(xs)
    && (forall i :: 0 <= i < |xs| ==> xs[i] in ys)
    && (forall y :: y in ys ==> y in xs)
  }

  lemma {:induction false} ListSize<T>(xs: seq<T>, ys: set<T>)
    requires Lists(xs, ys)
    ensures |xs| == |ys|
  {
    if xs == [] {
      assert ys == {};
    } else {
      var k := |xs| - 1;
      ListDrop(xs, ys, k);
      assert xs[..k] + xs[k + 1..] == xs[..k];
      ListSize(xs[..k], ys - {xs[k]});
    }
  }

  lemma ListAppend<T>(xs: seq<T>, ys: set<T>, x: T)
    requires Lists(xs, ys) && x !in ys
    ensures Lists(xs + [x], ys + {x})
  {
  }

  lemma ListDrop<T>(xs: seq<T>, ys: set<T>, k: nat)
    requires Lists(xs, ys) && k < |xs|
    ensures Lists(xs[..k] + xs[k + 1..], ys - {xs[k]})
  {
    var r := xs[..k] + xs[k + 1..];
    assert forall j :: 0 <= j < |r| ==> r[j] == xs[if j < k then j else j + 1];
    forall y | y in ys - {xs[k]} ensures y in r {
      var i :| 0 <= i < |xs| && xs[i] == y;
      assert r[if i < k then i else i - 1] == y;
    }
  }

  lemma ListShuffle<T>(xs: seq<T>, zs: seq<T>, ys: set<T>)
    requires Lists(xs, ys) && multiset(xs) == multiset(zs)
    ensures Lists(zs, ys)
  {
    ShuffleKeepsNoDup(xs, zs);
    forall i | 0 <= i < |zs| ensures zs[i] in ys { assert zs[i] in multiset(xs); }
    forall y | y in ys ensures y in zs { assert y in multiset(xs); }
  }

  lemma {:induction false} NoDupCounts<T>(xs: seq<T>, x: T)
    requires NoDup(xs)
    ensures multiset(xs)[x] <= 1
  {
    if xs != [] {
      var n := |xs| - 1;
      assert xs == xs[..n] + [xs[n]];
      NoDupCounts(xs[..n], x);
      if x == xs[n] { assert x !in xs[..n]; }
    }
  }

  lemma ShuffleKeepsNoDup<T>(xs: seq<T>, ys: seq<T>)
    requires NoDup(xs) && multiset(xs) == multiset(ys)
    ensures NoDup(ys) && |ys| == |xs|
  {
    assert |multiset(xs)| == |xs| && |multiset(ys)| == |ys|;
    forall i, j | 0 <= i < j < |ys| ensures ys[i] != ys[j] {
      if ys[i] == ys[j] {
        assert ys == ys[..j] + [ys[j]] + ys[j + 1..];
        assert ys[i] in ys[..j];
        assert multiset(ys)[ys[j]] >= 2;
        NoDupCounts(xs, ys[j]);
        assert false;
      }
    }
  }
}
