/** Python's `sorted` on strings: code-point order, and the sorted listing of a finite set of strings. */
module Sorting {

  /** `a <= b` as Python compares strings. */
  predicate Le(a: string, b: string) {
    a == [] || (b != [] && (a[0] < b[0] || (a[0] == b[0] && Le(a[1..], b[1..]))))
  }

  /** At the first difference `a` has the smaller character. */
  ghost predicate DiffersBelow(a: string, b: string) {
    exists i :: 0 <= i < |a| && i < |b| && a[..i] == b[..i] && (a[i] as int) < (b[i] as int)
  }

  lemma DiffersLater(a: string, b: string)
    requires a != [] && b != [] && a[0] == b[0]
    ensures DiffersBelow(a, b) <==> DiffersBelow(a[1..], b[1..])
  {
    if i :| 0 <= i < |a[1..]| && i < |b[1..]| && a[1..][..i] == b[1..][..i] && (a[1..][i] as int) < (b[1..][i] as int) {
      assert a[..i + 1] == [a[0]] + a[1..][..i] && b[..i + 1] == [b[0]] + b[1..][..i];
      assert a[i + 1] == a[1..][i] && b[i + 1] == b[1..][i];
    }
    if i :| 0 <= i < |a| && i < |b| && a[..i] == b[..i] && (a[i] as int) < (b[i] as int) {
      assert i > 0;
      assert a[1..][..i - 1] == a[..i][1..] && b[1..][..i - 1] == b[..i][1..];
      assert a[1..][i - 1] == a[i] && b[1..][i - 1] == b[i];
    }
  }

  lemma DiffersFirst(a: string, b: string)
    requires a != [] && b != [] && a[0] != b[0]
    ensures DiffersBelow(a, b) <==> (a[0] as int) < (b[0] as int)
  {
    assert a[..0] == b[..0];
    assert forall i | 0 < i <= |a| && i <= |b| :: a[..i][0] == a[0] && b[..i][0] == b[0];
  }

  /** The order of texts by code point: a prefix comes first, otherwise the smaller character at the first difference. */
  lemma {:induction false} LeMeans(a: string, b: string)
    ensures Le(a, b) <==> a <= b || DiffersBelow(a, b)
  {
    hide DiffersBelow;
    if a == [] {
      assert a <= b;
    } else if b == [] {
      NoDifference(a);
    } else if a[0] == b[0] {
      assert a == [a[0]] + a[1..] && b == [b[0]] + b[1..];
      LeMeans(a[1..], b[1..]);
      DiffersLater(a, b);
    } else {
      DiffersFirst(a, b);
    }
  }

  lemma NoDifference(a: string)
    ensures !DiffersBelow(a, [])
  {
  }

  lemma {:induction false} LeRefl(a: string)
    ensures Le(a, a)
  {
    if a != [] {
      LeRefl(a[1..]);
    }
  }

  lemma {:induction false} LeAntisym(a: string, b: string)
    requires Le(a, b) && Le(b, a)
    ensures a == b
  {
    if a == [] || b == [] {
    } else {
      LeAntisym(a[1..], b[1..]);
      assert a == [a[0]] + a[1..] && b == [b[0]] + b[1..];
    }
  }

  lemma {:induction false} LeTrans(a: string, b: string, c: string)
    requires Le(a, b) && Le(b, c)
    ensures Le(a, c)
  {
    if a != [] && b != [] && c != [] && a[0] == b[0] && b[0] == c[0] {
      LeTrans(a[1..], b[1..], c[1..]);
    }
  }

  lemma {:induction false} LeTotal(a: string, b: string)
    ensures Le(a, b) || Le(b, a)
  {
    if a != [] && b != [] && a[0] == b[0] {
      LeTotal(a[1..], b[1..]);
    }
  }

  predicate IsLeast(m: string, s: set<string>) {
    m in s && forall k | k in s :: Le(m, k)
  }

  lemma {:induction false} LeastExists(s: set<string>)
    requires s != {}
    ensures exists m :: IsLeast(m, s)
    decreases |s|
  {
    var x :| x in s;
    if s == {x} {
      LeRefl(x);
      assert IsLeast(x, s);
    } else {
      var rest := s - {x};
      assert rest != {};
      LeastExists(rest);
      var m :| IsLeast(m, rest);
      LeTotal(x, m);
      LeRefl(x);
      if Le(m, x) {
        assert IsLeast(m, s);
      } else {
        forall k | k in s ensures Le(x, k) {
          if k != x {
            LeTrans(x, m, k);
          }
        }
        assert IsLeast(x, s);
      }
    }
  }

  lemma LeastUnique(s: set<string>, m: string, n: string)
    requires IsLeast(m, s) && IsLeast(n, s)
    ensures m == n
  {
    LeAntisym(m, n);
  }

  function Least(s: set<string>): (m: string)
    requires s != {}
    ensures IsLeast(m, s)
  {
    LeastExists(s);
    assert forall m, n | IsLeast(m, s) && IsLeast(n, s) :: m == n by {
      forall m, n | IsLeast(m, s) && IsLeast(n, s) ensures m == n {
        LeastUnique(s, m, n);
      }
    }
    var m :| IsLeast(m, s);
    m
  }

  /** `sorted(s)` of a set of strings. */
  function Sorted(s: set<string>): (r: seq<string>)
    ensures forall k :: k in r <==> k in s
    ensures |r| == |s|
    decreases |s|
  {
    if s == {} then [] else
      var m := Least(s);
      var rest := s - {m};
      assert s == rest + {m};
      [m] + Sorted(rest)
  }

  predicate StrictlyAscending(r: seq<string>) {
    r == [] || ((forall k | k in r[1..] :: k != r[0] && Le(r[0], k)) && StrictlyAscending(r[1..]))
  }

  lemma {:induction false} SortedAscending(s: set<string>)
    ensures StrictlyAscending(Sorted(s))
    decreases |s|
  {
    hide Le;
    if s != {} {
      var rest := s - {Least(s)};
      SortedAscending(rest);
      assert Sorted(s)[1..] == Sorted(rest);
    }
  }

  lemma {:induction false} AscendingDistinct(r: seq<string>, i: nat, j: nat)
    requires StrictlyAscending(r) && i < j < |r|
    ensures r[i] != r[j]
  {
    hide Le;
    assert r[1..][j - 1] == r[j] && r[j] in r[1..];
    if i > 0 {
      assert r[i] == r[1..][i - 1];
      AscendingDistinct(r[1..], i - 1, j - 1);
    }
  }

  /** The sorted listing is the only strictly ascending listing of a set. */
  lemma {:induction false} SortedUnique(s: set<string>, r: seq<string>)
    requires StrictlyAscending(r) && (forall k :: k in r <==> k in s)
    ensures r == Sorted(s)
    decreases |r|
  {
    if r != [] {
      assert r == [r[0]] + r[1..];
      assert r[0] in r;
      LeRefl(r[0]);
      assert IsLeast(r[0], s);
      LeastUnique(s, r[0], Least(s));
      hide Le, IsLeast;
      var rest := s - {r[0]};
      assert forall k :: k in r[1..] <==> k in rest;
      SortedUnique(rest, r[1..]);
    }
  }

  // ---------------------------------------------------------------- sorted lists

  function Insert(x: string, r: seq<string>): (s: seq<string>)
    ensures multiset(s) == multiset(r) + multiset{x}
  {
    if r == [] then [x]
    else if Le(x, r[0]) then [x] + r
    else
      assert r == [r[0]] + r[1..];
      [r[0]] + Insert(x, r[1..])
  }

  /** `sorted(xs)` of a list of strings, repetitions kept. */
  function SortList(xs: seq<string>): (s: seq<string>)
    ensures multiset(s) == multiset(xs)
  {
    if xs == [] then [] else
      assert xs == [xs[0]] + xs[1..];
      Insert(xs[0], SortList(xs[1..]))
  }

  predicate Ascending(r: seq<string>) {
    r == [] || ((forall k | k in r[1..] :: Le(r[0], k)) && Ascending(r[1..]))
  }

  lemma {:induction false} InsertAscending(x: string, r: seq<string>)
    requires Ascending(r)
    ensures Ascending(Insert(x, r))
  {
    if r != [] {
      if Le(x, r[0]) {
        assert ([x] + r)[1..] == r;
        forall k | k in r ensures Le(x, k) {
          if k != r[0] {
            assert k in r[1..];
            LeTrans(x, r[0], k);
          }
        }
      } else {
        LeTotal(x, r[0]);
        var tail := Insert(x, r[1..]);
        InsertAscending(x, r[1..]);
        assert ([r[0]] + tail)[1..] == tail;
        forall k | k in tail ensures Le(r[0], k) {
          assert k in multiset(tail);
          assert k in multiset(r[1..]) + multiset{x};
        }
      }
    }
  }

  lemma {:induction false} SortListAscending(xs: seq<string>)
    ensures Ascending(SortList(xs))
  {
    hide Le;
    if xs != [] {
      SortListAscending(xs[1..]);
      InsertAscending(xs[0], SortList(xs[1..]));
    }
  }

  lemma AscendingLeast(r: seq<string>, k: string)
    requires Ascending(r) && k in r
    ensures Le(r[0], k)
  {
    hide Le;
    assert r == [r[0]] + r[1..];
    if k == r[0] {
      LeRefl(k);
    }
  }

  lemma WithoutFirst(a: seq<string>)
    requires a != []
    ensures multiset(a[1..]) == multiset(a) - multiset{a[0]}
  {
    assert a == [a[0]] + a[1..];
  }

  lemma {:induction false} AscendingUnique(a: seq<string>, b: seq<string>)
    requires Ascending(a) && Ascending(b) && multiset(a) == multiset(b)
    ensures a == b
  {
    hide Le;
    if a == [] || b == [] {
      assert |multiset(a)| == |multiset(b)|;
    } else {
      assert a[0] in multiset(b) && b[0] in multiset(a);
      AscendingLeast(a, b[0]);
      AscendingLeast(b, a[0]);
      LeAntisym(a[0], b[0]);
      WithoutFirst(a);
      WithoutFirst(b);
      AscendingUnique(a[1..], b[1..]);
      assert a == [a[0]] + a[1..] && b == [b[0]] + b[1..];
    }
  }

  /** Sorting forgets the order of a list and nothing else. */
  lemma SortListEqual(xs: seq<string>, ys: seq<string>)
    ensures SortList(xs) == SortList(ys) <==> multiset(xs) == multiset(ys)
  {
    SortListAscending(xs);
    SortListAscending(ys);
    hide Ascending, Le;
    if multiset(xs) == multiset(ys) {
      AscendingUnique(SortList(xs), SortList(ys));
    }
  }
}
