/** What the diffs of two schemas hold: sides, change types, enum values, and their order. */
module DiffContents {
  import opened Options
  import opened Sorting
  import opened SchemaInference
  import opened SchemaDiff

  // ---------------------------------------------------------------- the indexed lists

  /** The node of a path is the last one listed with it. */
  ghost predicate LastListed(nodes: seq<SchemaNode>, p: string, n: SchemaNode) {
    exists i :: 0 <= i < |nodes| && nodes[i] == n && n.path == p && forall j | i < j < |nodes| :: nodes[j].path != p
  }

  lemma {:induction false} IndexedLast(nodes: seq<SchemaNode>, p: string)
    ensures p in Index(nodes) <==> exists i :: 0 <= i < |nodes| && nodes[i].path == p
    ensures p in Index(nodes) ==> LastListed(nodes, p, Index(nodes)[p])
  {
    if nodes != [] {
      var k := |nodes| - 1;
      IndexedLast(nodes[..k], p);
      if nodes[k].path == p {
        assert LastListed(nodes, p, nodes[k]);
      } else if p in Index(nodes[..k]) {
        var i :| 0 <= i < k && nodes[..k][i] == Index(nodes[..k])[p] && forall j | i < j < k :: nodes[..k][j].path != p;
        assert nodes[i] == Index(nodes)[p];
        forall j | i < j < |nodes| ensures nodes[j].path != p {
          assert j < k ==> nodes[j] == nodes[..k][j];
        }
      }
    }
  }

  // ---------------------------------------------------------------- one diff

  /** The type and example a diff gives for one side. */
  ghost predicate SidesTold(o: ByPath, n: ByPath, d: Diff) {
    var p := d.path;
    && d.oldType == (if p in o then Some(o[p].type_) else None)
    && d.newType == (if p in n then Some(n[p].type_) else None)
    && d.oldValue == (if p in o && p in n then o[p].example else None)
    && d.newValue == (if p in o && p in n then n[p].example else None)
  }

  predicate BothListed(a: SchemaNode, b: SchemaNode) {
    a.type_ == b.type_ && a.nullable == b.nullable && a.enumValues.Some? && b.enumValues.Some?
  }

  /** Some value of `a` is not among those of `b`. */
  predicate Beyond(a: SchemaNode, b: SchemaNode) {
    a.enumValues.Some? && b.enumValues.Some? && exists x :: x in a.enumValues.value && x !in b.enumValues.value
  }

  /** When each change type is given, for a path on both sides. */
  ghost predicate ChangeTold(a: SchemaNode, b: SchemaNode, ct: string) {
    && (ct == "int_to_number" <==> a.type_ == TInteger && b.type_ == TNumber)
    && (ct == "number_to_int" <==> a.type_ == TNumber && b.type_ == TInteger)
    && (ct == "type_changed" <==> a.type_ != b.type_ && {a.type_, b.type_} != {TInteger, TNumber})
    && (ct == "nullable_added" <==> a.type_ == b.type_ && !a.nullable && b.nullable)
    && (ct == "nullable_removed" <==> a.type_ == b.type_ && a.nullable && !b.nullable)
    && (ct == "enum_expanded" <==> BothListed(a, b) && Beyond(b, a) && !Beyond(a, b))
    && (ct == "enum_narrowed" <==> BothListed(a, b) && Beyond(a, b) && !Beyond(b, a))
    && (ct == "enum_changed" <==> BothListed(a, b) && Beyond(a, b) && Beyond(b, a))
    && (ct == "array_item_type_changed" <==>
        a.type_ == TArray && b.type_ == TArray && a.nullable == b.nullable && a.arrayItemType != b.arrayItemType
        && !Beyond(a, b) && !Beyond(b, a))
    && ct != "added_field" && ct != "removed_field" && ct != "nested_object_removed"
  }

  ghost predicate TypeTold(o: ByPath, n: ByPath, d: Diff) {
    var p := d.path;
    if p in o && p in n then ChangeTold(o[p], n[p], d.changeType)
    else if p in n then d.changeType == "added_field"
    else p in o && d.changeType == if o[p].type_ == TObject then "nested_object_removed" else "removed_field"
  }

  /** The values listed are exactly those of one side that the other has not, in order. */
  ghost predicate Listed(values: seq<string>, from: SchemaNode, other: SchemaNode) {
    && StrictlyAscending(values)
    && forall x :: x in values <==>
         from.enumValues.Some? && x in from.enumValues.value && !(other.enumValues.Some? && x in other.enumValues.value)
  }

  ghost predicate ValuesTold(o: ByPath, n: ByPath, d: Diff) {
    var p := d.path;
    && (if d.changeType == "enum_expanded" || d.changeType == "enum_changed"
        then p in o && p in n && Listed(d.gained, n[p], o[p]) else d.gained == [])
    && (if d.changeType == "enum_narrowed" || d.changeType == "enum_changed"
        then p in o && p in n && Listed(d.lost, o[p], n[p]) else d.lost == [])
  }

  lemma EnumSetIs(a: SchemaNode, x: string)
    ensures x in EnumSet(a) <==> a.enumValues.Some? && x in a.enumValues.value
  {
  }

  lemma BeyondIs(a: SchemaNode, b: SchemaNode)
    requires a.enumValues.Some? && b.enumValues.Some?
    ensures Beyond(a, b) <==> !(EnumSet(a) <= EnumSet(b))
  {
    forall x ensures (x in EnumSet(a) <==> x in a.enumValues.value) && (x in EnumSet(b) <==> x in b.enumValues.value) {
      EnumSetIs(a, x);
      EnumSetIs(b, x);
    }
    hide EnumSet;
  }

  lemma PickTold(a: SchemaNode, b: SchemaNode)
    ensures match PickChangeType(a, b) case Some(ct) => ChangeTold(a, b, ct) case None => true
  {
    hide EnumSet, Beyond;
    if a.enumValues.Some? && b.enumValues.Some? {
      BeyondIs(a, b);
      BeyondIs(b, a);
    } else {
      BeyondListed(a, b);
    }
  }

  lemma BeyondListed(a: SchemaNode, b: SchemaNode)
    requires a.enumValues == None || b.enumValues == None
    ensures !Beyond(a, b) && !Beyond(b, a)
  {
  }

  lemma ListedDifference(from: SchemaNode, other: SchemaNode)
    ensures Listed(Sorted(EnumSet(from) - EnumSet(other)), from, other)
  {
    hide Sorted, StrictlyAscending, EnumSet;
    SortedAscending(EnumSet(from) - EnumSet(other));
    forall x
      ensures x in EnumSet(from) - EnumSet(other) <==>
              from.enumValues.Some? && x in from.enumValues.value && !(other.enumValues.Some? && x in other.enumValues.value)
    {
      EnumSetIs(from, x);
      EnumSetIs(other, x);
    }
  }

  lemma ChangedTold(o: ByPath, n: ByPath, p: string)
    requires p in o && p in n
    ensures match ChangedDiff(p, o[p], n[p])
            case Found(d) => d.path == p && SidesTold(o, n, d) && TypeTold(o, n, d) && ValuesTold(o, n, d)
            case _ => true
  {
    hide Sorted, EnumSet, PickChangeType, ChangeTold, Listed, Classify;
    PickTold(o[p], n[p]);
    ListedDifference(n[p], o[p]);
    ListedDifference(o[p], n[p]);
  }

  lemma PathTold(o: ByPath, n: ByPath, p: string)
    ensures match PathDiff(o, n, p)
            case Found(d) => d.path == p && SidesTold(o, n, d) && TypeTold(o, n, d) && ValuesTold(o, n, d)
            case _ => true
  {
    hide ChangedDiff, ChangeTold, Listed, Classify;
    if p in o && p in n {
      hide SidesTold, TypeTold, ValuesTold;
      ChangedTold(o, n, p);
    }
  }

  /** Every diff tells the two sides as they are, why it is there, and exactly the enum values that came or went. */
  lemma DiffsTold(old_: seq<SchemaNode>, new_: seq<SchemaNode>)
    ensures DiffSchemas(old_, new_).Some?
    ensures var o, n := Index(old_), Index(new_);
            forall d | d in DiffSchemas(old_, new_).value :: SidesTold(o, n, d) && TypeTold(o, n, d) && ValuesTold(o, n, d)
  {
    hide Index, PathDiff, DiffSchemas, SidesTold, TypeTold, ValuesTold, Classify;
    DiffIsPathwise(old_, new_);
    forall d | d in DiffSchemas(old_, new_).value
      ensures SidesTold(Index(old_), Index(new_), d)
      ensures TypeTold(Index(old_), Index(new_), d) && ValuesTold(Index(old_), Index(new_), d)
    {
      PathTold(Index(old_), Index(new_), d.path);
    }
  }

  // ---------------------------------------------------------------- the order of the diffs

  /** Lost paths come first, then new ones, then the others. */
  function Group(o: ByPath, n: ByPath, p: string): nat {
    if p !in n then 0 else if p !in o then 1 else 2
  }

  ghost predicate Earlier(o: ByPath, n: ByPath, p: string, q: string) {
    Group(o, n, p) < Group(o, n, q) || (Group(o, n, p) == Group(o, n, q) && Le(p, q))
  }

  ghost predicate InOrder(o: ByPath, n: ByPath, ps: seq<string>) {
    forall i, j | 0 <= i < j < |ps| :: Earlier(o, n, ps[i], ps[j])
  }

  lemma {:induction false} AscendingLe(r: seq<string>, i: nat, j: nat)
    requires StrictlyAscending(r) && i < j < |r|
    ensures Le(r[i], r[j])
  {
    hide Le;
    assert r[1..][j - 1] == r[j] && r[j] in r[1..];
    if i > 0 {
      assert r[i] == r[1..][i - 1];
      AscendingLe(r[1..], i - 1, j - 1);
    }
  }

  lemma GroupInOrder(o: ByPath, n: ByPath, s: set<string>, g: nat)
    requires forall p | p in s :: Group(o, n, p) == g
    ensures InOrder(o, n, Sorted(s)) && forall p | p in Sorted(s) :: Group(o, n, p) == g
  {
    SortedAscending(s);
    hide Sorted, StrictlyAscending, Le, Group;
    var r := Sorted(s);
    forall i, j | 0 <= i < j < |r| ensures Earlier(o, n, r[i], r[j]) {
      assert r[i] in r && r[j] in r;
      AscendingLe(r, i, j);
    }
  }

  ghost predicate AllEarlier(o: ByPath, n: ByPath, a: seq<string>, b: seq<string>) {
    forall p, q | p in a && q in b :: Earlier(o, n, p, q)
  }

  lemma GroupsEarlier(o: ByPath, n: ByPath, a: seq<string>, b: seq<string>, g: nat)
    requires (forall p | p in a :: Group(o, n, p) < g) && forall q | q in b :: Group(o, n, q) == g
    ensures AllEarlier(o, n, a, b)
  {
    hide Le, Group;
  }

  lemma GroupsJoin(o: ByPath, n: ByPath, a: seq<string>, b: seq<string>, g: nat)
    requires (forall p | p in a :: Group(o, n, p) < g) && forall q | q in b :: Group(o, n, q) == g
    ensures forall p | p in a + b :: Group(o, n, p) < g + 1
  {
    hide Group;
  }

  lemma InOrderConcat(o: ByPath, n: ByPath, a: seq<string>, b: seq<string>)
    requires InOrder(o, n, a) && InOrder(o, n, b) && AllEarlier(o, n, a, b)
    ensures InOrder(o, n, a + b)
  {
    hide Earlier;
    var r := a + b;
    forall i, j | 0 <= i < j < |r| ensures Earlier(o, n, r[i], r[j]) {
      if j >= |a| {
        assert r[j] in b;
        if i < |a| {
          assert r[i] in a;
        }
      }
    }
  }

  lemma GroupsAre(o: ByPath, n: ByPath)
    ensures forall p | p in o.Keys - n.Keys :: Group(o, n, p) == 0
    ensures forall p | p in n.Keys - o.Keys :: Group(o, n, p) == 1
    ensures forall p | p in o.Keys * n.Keys :: Group(o, n, p) == 2
  {
  }

  lemma OrderIsInOrder(o: ByPath, n: ByPath)
    ensures InOrder(o, n, DiffOrder(o, n))
  {
    hide Sorted, Group, InOrder, Earlier, AllEarlier;
    GroupsAre(o, n);
    var a, b, c := o.Keys - n.Keys, n.Keys - o.Keys, o.Keys * n.Keys;
    GroupInOrder(o, n, a, 0);
    GroupInOrder(o, n, b, 1);
    GroupInOrder(o, n, c, 2);
    GroupsEarlier(o, n, Sorted(a), Sorted(b), 1);
    GroupsJoin(o, n, Sorted(a), Sorted(b), 1);
    InOrderConcat(o, n, Sorted(a), Sorted(b));
    GroupsEarlier(o, n, Sorted(a) + Sorted(b), Sorted(c), 2);
    InOrderConcat(o, n, Sorted(a) + Sorted(b), Sorted(c));
  }

  function PathList(ds: seq<Diff>): (ps: seq<string>)
    ensures |ps| == |ds| && forall i | 0 <= i < |ds| :: ps[i] == ds[i].path
  {
    seq(|ds|, i requires 0 <= i < |ds| => ds[i].path)
  }

  lemma {:induction false} CollectedInOrder(o: ByPath, n: ByPath, paths: seq<string>)
    requires InOrder(o, n, paths)
    ensures match Collect(o, n, paths)
            case Some(ds) => InOrder(o, n, PathList(ds)) && forall d | d in ds :: d.path in paths
            case None => true
  {
    hide PathDiff, Earlier, PathList;
    if paths == [] {
      assert |PathList([])| == 0;
    } else {
      var k := |paths| - 1;
      assert paths == paths[..k] + [paths[k]];
      CollectedInOrder(o, n, paths[..k]);
      if Collect(o, n, paths[..k]).Some? && PathDiff(o, n, paths[k]).Found? {
        var front, d := Collect(o, n, paths[..k]).value, PathDiff(o, n, paths[k]).diff;
        NeverUnknown(o, n, paths[k]);
        assert d.path == paths[k];
        forall i, j | 0 <= i < j < |front + [d]| ensures Earlier(o, n, PathList(front + [d])[i], PathList(front + [d])[j]) {
          assert PathList(front + [d])[i] == PathList(front)[i];
          if j < |front| {
            assert PathList(front + [d])[j] == PathList(front)[j];
          } else {
            assert front[i] in front;
            var m :| 0 <= m < k && paths[..k][m] == front[i].path;
            assert Earlier(o, n, paths[m], paths[k]);
          }
        }
      }
    }
  }

  /** The diffs stand in order: lost paths, new paths, changed paths, each by code point. */
  lemma DiffsInOrder(old_: seq<SchemaNode>, new_: seq<SchemaNode>)
    ensures DiffSchemas(old_, new_).Some? && InOrder(Index(old_), Index(new_), PathList(DiffSchemas(old_, new_).value))
  {
    hide Index, InOrder, DiffOrder, Collect, PathList, Classify, PathDiff;
    DiffIsPathwise(old_, new_);
    OrderIsInOrder(Index(old_), Index(new_));
    CollectedInOrder(Index(old_), Index(new_), DiffOrder(Index(old_), Index(new_)));
  }
}
