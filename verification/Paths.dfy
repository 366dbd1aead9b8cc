/** Field paths: keys joined by `.`, array positions written `[*]` or `[*i]`. */
module Paths {
  import opened Decimals

  function Join(parent: string, key: string): string {
    if parent == "" then key else parent + "." + key
  }

  /** The one path shared by all items of an array (`_array_path`). */
  function ItemPath(parent: string): string {
    parent + "[*]"
  }

  /** The path of the i-th item of a canonical array. */
  function IndexPath(parent: string, i: nat): string {
    parent + "[*" + Decimal(i) + "]"
  }

  /** The path a value itself is filed under; the root has no path of its own. */
  function Own(prefix: string): (p: string)
    ensures p != ""
  {
    if prefix == "" then "[root]" else prefix
  }

  /** Non-empty and free of the two characters that separate path steps. */
  predicate CleanKey(key: string) {
    key != "" && '.' !in key && '[' !in key
  }

  predicate Separator(c: char) {
    c == '.' || c == '['
  }

  /** `q` is `p` or lies below it. */
  predicate Under(p: string, q: string) {
    p <= q && (|p| < |q| ==> Separator(q[|p|]))
  }

  lemma UnderTrans(p: string, q: string, r: string)
    requires Under(p, q) && Under(q, r)
    ensures Under(p, r)
  {
    if |p| < |q| {
      assert r[|p|] == q[|p|];
    }
  }

  lemma StepUnder(p: string, key: string, i: nat)
    requires p != ""
    ensures Under(p, Join(p, key)) && Under(p, ItemPath(p)) && Under(p, IndexPath(p, i))
  {
    assert Join(p, key)[|p|] == '.';
    assert ItemPath(p)[|p|] == '[';
    var s := "[*" + Decimal(i) + "]";
    assert IndexPath(p, i) == p + s;
    assert IndexPath(p, i)[|p|] == s[0];
  }

  /** A path below both of two members of one object makes them one member. */
  lemma JoinDisjoint(p: string, k1: string, k2: string, q: string)
    requires CleanKey(k1) && CleanKey(k2)
    requires Under(Join(p, k1), q) && Under(Join(p, k2), q)
    ensures k1 == k2
  {
    var n := if p == "" then 0 else |p| + 1;
    var a, b := Join(p, k1), Join(p, k2);
    assert a[n..] == k1 && b[n..] == k2;
    if |k1| < |k2| {
      ShorterStops(k1, k2, a, b, q, n);
    } else if |k2| < |k1| {
      ShorterStops(k2, k1, b, a, q, n);
    } else {
      assert a == q[..|a|] == b;
    }
  }

  lemma ShorterStops(k1: string, k2: string, a: string, b: string, q: string, n: nat)
    requires |k1| < |k2| && n <= |a| && n <= |b| && a[n..] == k1 && b[n..] == k2
    requires Under(a, q) && Under(b, q)
    ensures '.' in k2 || '[' in k2
  {
    assert q[|a|] == b[|a|] == b[n..][|k1|] == k2[|k1|];
    assert k2[|k1|] in k2;
  }

  /** The digits of a position stand in every path below it, closed by a bracket. */
  lemma DigitsShow(p: string, i: nat, q: string)
    requires Under(IndexPath(p, i), q)
    ensures var s, n := Decimal(i), |p| + 2;
            n + |s| < |q| && q[n + |s|] == ']' && forall k | 0 <= k < |s| :: q[n + k] == s[k] && IsDigit(s[k])
  {
    hide Decimal, IsDigit;
    var s, a := Decimal(i), IndexPath(p, i);
    var n := |p| + 2;
    assert a == (p + "[*") + s + "]";
    forall k | 0 <= k < |s| ensures q[n + k] == s[k] && IsDigit(s[k]) {
      assert q[n + k] == a[n + k] && s[k] in s;
    }
    assert q[n + |s|] == a[n + |s|];
  }

  lemma DigitsEnd(s: string, t: string, q: string, n: nat)
    requires n + |s| < |q| && q[n + |s|] == ']' && forall k | 0 <= k < |s| :: q[n + k] == s[k] && IsDigit(s[k])
    requires n + |t| < |q| && q[n + |t|] == ']' && forall k | 0 <= k < |t| :: q[n + k] == t[k] && IsDigit(t[k])
    ensures s == t
  {
    if |s| < |t| {
      DigitThere(t, q, n, |s|);
    }
    if |t| < |s| {
      DigitThere(s, q, n, |t|);
    }
    assert forall k | 0 <= k < |s| :: s[k] == q[n + k] == t[k];
  }

  lemma DigitThere(t: string, q: string, n: nat, k: nat)
    requires n + |t| < |q| && k < |t| && forall i | 0 <= i < |t| :: q[n + i] == t[i] && IsDigit(t[i])
    ensures q[n + k] != ']'
  {
    assert q[n + k] == t[k];
  }

  /** A path below both of two positions of one array makes them one position. */
  lemma IndexDisjoint(p: string, i: nat, j: nat, q: string)
    requires Under(IndexPath(p, i), q) && Under(IndexPath(p, j), q)
    ensures i == j
  {
    hide Decimal;
    var s, t := Decimal(i), Decimal(j);
    DigitsShow(p, i, q);
    DigitsShow(p, j, q);
    DigitsEnd(s, t, q, |p| + 2);
    DecimalInjective(i, j);
  }

  /** What lies below a member or a position is never the container's own path. */
  lemma OwnIsOutside(p: string, key: string, i: nat, q: string)
    ensures CleanKey(key) && Under(Join(p, key), q) ==> q != Own(p)
    ensures Under(IndexPath(p, i), q) ==> q != Own(p)
  {
    if p == "" {
      if CleanKey(key) && Under(key, q) {
        assert q[0] == key[0] && key[0] in key;
      }
      if Under(IndexPath(p, i), q) {
        assert IndexPath(p, i) == "[*" + (Decimal(i) + "]");
        assert q[1] == IndexPath(p, i)[1] == '*';
      }
    }
  }
}
