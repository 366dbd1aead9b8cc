/** Facts about sets, sequences and multisets that several parts share. */
module Collections {
  lemma SubsetSize<T>(a: set<T>, b: set<T>)
    requires a <= b
    ensures |a| <= |b|
  {
    assert |b| == |a| + |b - a| by {
      assert b == a + (b - a);
    }
  }

  /** The last element of `xs` sits somewhere in its permutation `ys`; without it the rest still match. */
  lemma Matched<T>(xs: seq<T>, ys: seq<T>) returns (i: nat)
    requires xs != [] && multiset(xs) == multiset(ys)
    ensures i < |ys| && ys[i] == xs[|xs| - 1]
    ensures multiset(xs[..|xs| - 1]) == multiset(ys[..i] + ys[i + 1..])
  {
    var n := |xs| - 1;
    assert xs[n] in multiset(ys);
    i :| 0 <= i < |ys| && ys[i] == xs[n];
    assert xs == xs[..n] + [xs[n]];
    assert ys == ys[..i] + [xs[n]] + ys[i + 1..];
    assert multiset(ys) == multiset(ys[..i] + ys[i + 1..]) + multiset{xs[n]};
    assert multiset(xs) == multiset(xs[..n]) + multiset{xs[n]};
    var a, b := multiset(xs[..n]), multiset(ys[..i] + ys[i + 1..]);
    assert a == a + multiset{xs[n]} - multiset{xs[n]};
    assert b == b + multiset{xs[n]} - multiset{xs[n]};
  }

  lemma SameMembers<T>(xs: seq<T>, ys: seq<T>)
    requires multiset(xs) == multiset(ys)
    ensures forall x :: x in xs <==> x in ys
    ensures |xs| == |ys|
  {
    forall x ensures x in xs <==> x in ys {
      assert x in multiset(xs) <==> x in multiset(ys);
    }
    assert |multiset(xs)| == |multiset(ys)|;
  }

  // ---------------------------------------------------------------- each element replaced by a list

  function Chunks<X, T>(f: X -> seq<T>, items: seq<X>): seq<T> {
    if items == [] then [] else
      var n := |items| - 1;
      Chunks(f, items[..n]) + f(items[n])
  }

  lemma {:induction false} ChunksWithout<X, T>(f: X -> seq<T>, items: seq<X>, i: nat)
    requires i < |items|
    ensures multiset(Chunks(f, items)) == multiset(Chunks(f, items[..i] + items[i + 1..])) + multiset(f(items[i]))
  {
    var n := |items| - 1;
    var front, last := items[..n], items[n];
    assert items == front + [last];
    if i == n {
      assert items[..i] + items[i + 1..] == front;
    } else {
      var before, after := front[..i], front[i + 1..];
      ChunksWithout(f, front, i);
      assert items[..i] == before;
      assert items[i + 1..] == after + [last];
      assert items[..i] + items[i + 1..] == before + after + [last];
      ChunksSnoc(f, before + after, last);
    }
  }

  lemma ChunksSnoc<X, T>(f: X -> seq<T>, items: seq<X>, x: X)
    ensures Chunks(f, items + [x]) == Chunks(f, items) + f(x)
  {
    assert (items + [x])[..|items|] == items;
  }

  lemma {:induction false} ChunksPermuted<X, T>(f: X -> seq<T>, xs: seq<X>, ys: seq<X>)
    requires multiset(xs) == multiset(ys)
    ensures multiset(Chunks(f, xs)) == multiset(Chunks(f, ys))
    decreases |xs|
  {
    if xs == [] {
      assert |multiset(xs)| == |multiset(ys)|;
    } else {
      var n := |xs| - 1;
      var i := Matched(xs, ys);
      ChunksPermuted(f, xs[..n], ys[..i] + ys[i + 1..]);
      ChunksWithout(f, ys, i);
      assert xs == xs[..n] + [xs[n]];
    }
  }
}
