/** What the verdicts mean for canonical schemas, and how they compose along a chain of versions. */
module CompatibilityChain {
  import opened Options
  import opened Sorting
  import opened JsonValues
  import opened Paths
  import opened Classifier

  // ---------------------------------------------------------------- canonical leaves

  /** No object, at any depth, has a key called `type`. */
  predicate NoTypeKey(payload: Json) {
    match payload
    case Obj(fields) => "type" !in Keys(fields) && forall f | f in fields :: NoTypeKey(f.value)
    case Arr(items) => forall x | x in items :: NoTypeKey(x)
    case _ => true
  }

  /** The node a type name stands for; only `null` is nullable. */
  function NodeOf(typeName: string): Json {
    Leaf(typeName, typeName == "null")
  }

  /** The type name a leaf holds. */
  function NameOf(node: Json): string {
    match Lookup(node, "type") case Some(Str(t)) => t case _ => ""
  }

  ghost predicate CanonicalNode(node: Json) {
    node == NodeOf(NameOf(node))
  }

  /** A type name is shown as it is. */
  lemma NodeType(show: Show, t: string)
    ensures TypeOf(show, NodeOf(t)) == t
  {
    var fs := NodeOf(t).fields;
    assert fs[0] == Field("type", Str(t)) && fs[1] == Field("nullable", Bool(t == "null"));
    GetIs(fs, 0);
    assert Keys(fs) == {"type", "nullable"};
  }

  lemma NodeReads(t: string)
    ensures NameOf(NodeOf(t)) == t && NullableOf(NodeOf(t)) == Some(t == "null")
    ensures Lookup(NodeOf(t), "required") == None && EnumOf(NodeOf(t)) == None
    ensures CanonicalNode(NodeOf(t)) && NodeOf(t).Obj?
  {
    var fs := NodeOf(t).fields;
    assert fs[0] == Field("type", Str(t)) && fs[1] == Field("nullable", Bool(t == "null"));
    GetIs(fs, 0);
    GetIs(fs, 1);
    assert Keys(fs) == {"type", "nullable"};
  }

  ghost predicate CanonicalFlat(flat: map<string, Json>) {
    forall p | p in flat :: CanonicalNode(flat[p])
  }

  /** The flattened canonical form of a payload: what the registry compares. */
  function Surface(payload: Json): map<string, Json> {
    Flatten(Canonicalize(payload), "")
  }

  lemma ScalarCanonical(payload: Json)
    requires payload.IsScalar()
    ensures NameOf(Canonicalize(payload)) != "array"
    ensures CanonicalNode(Canonicalize(payload)) && HasKey(Canonicalize(payload), "type")
  {
    var t := match payload
      case Null => "null" case Bool(_) => "boolean" case Int(_) => "integer" case Float(_) => "number" case _ => "string";
    assert Canonicalize(payload) == NodeOf(t);
    NodeReads(t);
    assert NodeOf(t).fields[0].key == "type";
  }

  /** Sorting and canonicalizing an object neither adds keys nor mixes up values. */
  lemma CanonicalFieldsComeFrom(fields: seq<Field>, i: nat) returns (j: nat)
    requires i < |ByKey(CanonicalizeValues(fields))|
    ensures j < |fields| && fields[j] in fields
    ensures ByKey(CanonicalizeValues(fields))[i] == Field(fields[j].key, Canonicalize(fields[j].value))
  {
    var vs := CanonicalizeValues(fields);
    var f := ByKey(vs)[i];
    assert Field(f.key, Get(vs, f.key)) in vs;
    j :| 0 <= j < |vs| && vs[j] == f;
  }

  /** Objects of canonical schemas, with canonical nodes at the leaves. */
  ghost predicate CanonicalSchema(s: Json) {
    match s
    case Obj(fields) =>
      if "type" in Keys(fields) then CanonicalNode(s) else forall f | f in fields :: CanonicalSchema(f.value)
    case Arr(items) => forall x | x in items :: CanonicalSchema(x)
    case _ => false
  }

  lemma {:induction false} CanonicalizeIsCanonical(payload: Json)
    requires NoTypeKey(payload)
    ensures CanonicalSchema(Canonicalize(payload))
    decreases payload, 1
  {
    hide CanonicalNode, NodeOf;
    match payload
    case Obj(fields) => CanonicalFields(payload, fields);
    case Arr(items) =>
      forall i | 0 <= i < |items| ensures CanonicalSchema(Canonicalize(items[i])) {
        assert items[i] in items;
        CanonicalizeIsCanonical(items[i]);
      }
    case _ =>
      ScalarCanonical(payload);
  }

  lemma {:induction false} CanonicalFields(payload: Json, fields: seq<Field>)
    requires payload == Obj(fields) && NoTypeKey(payload)
    ensures CanonicalSchema(Obj(ByKey(CanonicalizeValues(fields))))
    decreases payload, 0
  {
    hide CanonicalNode, NodeOf, Canonicalize, CanonicalizeValues, Get, Sorted;
    var r := ByKey(CanonicalizeValues(fields));
    forall i | 0 <= i < |r| ensures r[i].key != "type" && CanonicalSchema(r[i].value) {
      var j := CanonicalFieldsComeFrom(fields, i);
      CanonicalizeIsCanonical(fields[j].value);
    }
  }

  lemma {:induction false} FlattenCanonical(s: Json, prefix: string)
    requires CanonicalSchema(s)
    ensures CanonicalFlat(Flatten(s, prefix))
  {
    match s
    case Obj(fields) =>
      hide CanonicalNode;
      if "type" !in Keys(fields) {
        FlattenCanonicalFields(fields, prefix);
      }
    case Arr(items) =>
      NodeReads("array");
      assert ARRAY_MARKER == NodeOf("array");
      hide CanonicalNode;
      FlattenCanonicalItems(items, prefix);
  }

  lemma {:induction false} FlattenCanonicalFields(fields: seq<Field>, prefix: string)
    requires forall f | f in fields :: CanonicalSchema(f.value)
    ensures CanonicalFlat(FlattenFields(fields, prefix))
  {
    hide CanonicalNode;
    if fields != [] {
      var n := |fields| - 1;
      FlattenCanonicalFields(fields[..n], prefix);
      assert fields[n] in fields;
      FlattenCanonical(fields[n].value, Join(prefix, fields[n].key));
    }
  }

  lemma {:induction false} FlattenCanonicalItems(items: seq<Json>, prefix: string)
    requires forall x | x in items :: CanonicalSchema(x)
    ensures CanonicalFlat(FlattenItems(items, prefix))
  {
    hide CanonicalNode;
    if items != [] {
      var n := |items| - 1;
      FlattenCanonicalItems(items[..n], prefix);
      FlattenCanonical(items[n], IndexPath(prefix, n));
    }
  }

  lemma SurfaceCanonical(payload: Json)
    requires NoTypeKey(payload)
    ensures CanonicalFlat(Surface(payload))
  {
    CanonicalizeIsCanonical(payload);
    FlattenCanonical(Canonicalize(payload), "");
  }

  // ---------------------------------------------------------------- what a rank bound says

  ghost predicate WithinRank(show: Show, o: map<string, Json>, n: map<string, Json>, r: nat) {
    forall p | p in o.Keys + n.Keys && At(o, p) != At(n, p) ::
      Rank(Classify(show, At(o, p), At(n, p)).classification) <= r
  }

  lemma {:induction false} SummaryBound(diffs: seq<DiffItem>, r: nat)
    ensures Rank(Summarize(diffs)) <= r <==> forall d | d in diffs :: Rank(d.classification) <= r
  {
    if diffs != [] {
      var n := |diffs| - 1;
      SummaryBound(diffs[..n], r);
      assert diffs == diffs[..n] + [diffs[n]];
    }
  }

  lemma {:induction false} DiffPathsItems(show: Show, paths: seq<string>, o: map<string, Json>, n: map<string, Json>, d: DiffItem)
    ensures d in DiffPaths(show, paths, o, n) <==>
            exists p :: p in paths && At(o, p) != At(n, p) && d == Item(show, p, At(o, p), At(n, p))
  {
    hide Item, At;
    if paths != [] {
      var k := |paths| - 1;
      DiffPathsItems(show, paths[..k], o, n, d);
      assert paths == paths[..k] + [paths[k]];
    }
  }

  lemma SummaryOfPaths(show: Show, paths: seq<string>, o: map<string, Json>, n: map<string, Json>, r: nat)
    ensures Rank(Summarize(DiffPaths(show, paths, o, n))) <= r <==>
            forall p | p in paths && At(o, p) != At(n, p) :: Rank(Item(show, p, At(o, p), At(n, p)).classification) <= r
  {
    hide Item, At, Summarize, DiffPaths;
    var diffs := DiffPaths(show, paths, o, n);
    SummaryBound(diffs, r);
    forall p | p in paths && At(o, p) != At(n, p) ensures Item(show, p, At(o, p), At(n, p)) in diffs {
      DiffPathsItems(show, paths, o, n, Item(show, p, At(o, p), At(n, p)));
    }
    forall d | d in diffs
      ensures exists p :: p in paths && At(o, p) != At(n, p) && d == Item(show, p, At(o, p), At(n, p))
    {
      DiffPathsItems(show, paths, o, n, d);
    }
  }

  /** The summary stays within a rank exactly when every differing path does. */
  lemma SummaryWithin(show: Show, a: Json, b: Json, r: nat)
    ensures Rank(Summarize(DiffAndClassify(show, a, b))) <= r <==> WithinRank(show, Flatten(a, ""), Flatten(b, ""), r)
  {
    hide At, Classify, Sorted, Flatten, Summarize, DiffPaths, TypeOf, NullableOf;
    var o, n := Flatten(a, ""), Flatten(b, "");
    SummaryOfPaths(show, Sorted(o.Keys + n.Keys), o, n, r);
    assert forall p :: p in Sorted(o.Keys + n.Keys) <==> p in o.Keys + n.Keys;
  }

  predicate Widened(o: Json, n: Json) {
    o == NodeOf("integer") && n == NodeOf("number")
  }

  lemma PathRank(show: Show, o: Option<Json>, n: Option<Json>)
    requires o != n && (o.Some? ==> CanonicalNode(o.value)) && (n.Some? ==> CanonicalNode(n.value))
    ensures Rank(Classify(show, o, n).classification) ==
            if o.None? then 0 else if n.Some? && Widened(o.value, n.value) then 3 else 4
  {
    hide NodeOf, NameOf, TypeOf, NullableOf, EnumOf, Lookup;
    NodeReads("integer");
    NodeReads("number");
    if o.Some? {
      NodeReads(NameOf(o.value));
      NodeType(show, NameOf(o.value));
    }
    if n.Some? {
      NodeReads(NameOf(n.value));
      NodeType(show, NameOf(n.value));
    }
  }

  /** Every path of `o` is still there, unchanged. */
  ghost predicate Unchanged(o: map<string, Json>, n: map<string, Json>) {
    forall p | p in o :: p in n && n[p] == o[p]
  }

  /** Every path of `o` is still there with the same type, or an integer widened to a number. */
  ghost predicate Widens(o: map<string, Json>, n: map<string, Json>) {
    forall p | p in o :: p in n && (n[p] == o[p] || Widened(o[p], n[p]))
  }

  /** Among canonical surfaces, ranks below RISKY mean nothing was lost or changed, RISKY that integers may have widened. */
  lemma RankAt(show: Show, o: map<string, Json>, n: map<string, Json>, p: string)
    requires CanonicalFlat(o) && CanonicalFlat(n) && p in o.Keys + n.Keys && At(o, p) != At(n, p)
    ensures Rank(Classify(show, At(o, p), At(n, p)).classification) ==
            if p !in o then 0 else if p in n && Widened(o[p], n[p]) then 3 else 4
  {
    hide Classify, CanonicalNode, Widened, Rank;
    PathRank(show, At(o, p), At(n, p));
  }

  lemma RankMeaning(show: Show, o: map<string, Json>, n: map<string, Json>, r: nat)
    requires CanonicalFlat(o) && CanonicalFlat(n)
    ensures WithinRank(show, o, n, r) <==> (r >= 4 || (r == 3 && Widens(o, n)) || (r < 3 && Unchanged(o, n)))
  {
    hide Classify, CanonicalFlat, Widened, Rank;
    forall p | p in o.Keys + n.Keys && At(o, p) != At(n, p)
      ensures Rank(Classify(show, At(o, p), At(n, p)).classification) ==
              if p !in o then 0 else if p in n && Widened(o[p], n[p]) then 3 else 4
    {
      RankAt(show, o, n, p);
    }
    if WithinRank(show, o, n, r) && r < 4 {
      forall p | p in o ensures p in n && (n[p] == o[p] || (r == 3 && Widened(o[p], n[p]))) {
        assert p in o.Keys + n.Keys;
      }
    }
  }

  lemma WithinCompose(show: Show, a: map<string, Json>, b: map<string, Json>, c: map<string, Json>, r: nat)
    requires CanonicalFlat(a) && CanonicalFlat(b) && CanonicalFlat(c)
    requires WithinRank(show, a, b, r) && WithinRank(show, b, c, r)
    ensures WithinRank(show, a, c, r)
  {
    hide WithinRank, CanonicalFlat, CanonicalNode, NodeOf, TypeOf, NullableOf, EnumOf, Lookup;
    RankMeaning(show, a, b, r);
    RankMeaning(show, b, c, r);
    RankMeaning(show, a, c, r);
    NodeReads("integer");
    NodeReads("number");
    if r == 3 {
      forall p | p in a ensures p in c && (c[p] == a[p] || Widened(a[p], c[p])) {
        assert p in b && p in c;
      }
    }
  }

  // ---------------------------------------------------------------- the chain

  function VerdictBetween(show: Show, old_: Json, new_: Json): Compatibility {
    Summarize(DiffAndClassify(show, Canonicalize(old_), Canonicalize(new_)))
  }

  lemma VerdictWithin(show: Show, old_: Json, new_: Json, r: nat)
    ensures Rank(VerdictBetween(show, old_, new_)) <= r <==> WithinRank(show, Surface(old_), Surface(new_), r)
  {
    SummaryWithin(show, Canonicalize(old_), Canonicalize(new_), r);
  }

  /** The worst of the ranks stored for versions i+1 .. j, each against its predecessor. */
  function WorstStep(show: Show, payloads: seq<Json>, i: nat, j: nat): nat
    requires i < j < |payloads|
    decreases j
  {
    var last := Rank(VerdictBetween(show, payloads[j - 1], payloads[j]));
    if j == i + 1 then last else
      var before := WorstStep(show, payloads, i, j - 1);
      if last > before then last else before
  }

  lemma VerdictsCompose(show: Show, a: Json, b: Json, c: Json, r: nat)
    requires NoTypeKey(a) && NoTypeKey(b) && NoTypeKey(c)
    requires Rank(VerdictBetween(show, a, b)) <= r && Rank(VerdictBetween(show, b, c)) <= r
    ensures Rank(VerdictBetween(show, a, c)) <= r
  {
    VerdictWithin(show, a, b, r);
    VerdictWithin(show, b, c, r);
    VerdictWithin(show, a, c, r);
    SurfaceCanonical(a);
    SurfaceCanonical(b);
    SurfaceCanonical(c);
    WithinCompose(show, Surface(a), Surface(b), Surface(c), r);
  }

  /** Local verdicts bound the end-to-end one. */
  lemma {:induction false} ChainBound(show: Show, payloads: seq<Json>, i: nat, j: nat)
    requires i < j < |payloads| && forall x | x in payloads :: NoTypeKey(x)
    ensures Rank(VerdictBetween(show, payloads[i], payloads[j])) <= WorstStep(show, payloads, i, j)
    decreases j
  {
    hide VerdictBetween, NoTypeKey;
    if j > i + 1 {
      ChainBound(show, payloads, i, j - 1);
      VerdictsCompose(show, payloads[i], payloads[j - 1], payloads[j], WorstStep(show, payloads, i, j));
    }
  }

  lemma VerdictRank(show: Show, old_: Json, new_: Json, r: nat)
    requires NoTypeKey(old_) && NoTypeKey(new_)
    ensures Rank(VerdictBetween(show, old_, new_)) <= r <==>
            (r >= 4 || (r == 3 && Widens(Surface(old_), Surface(new_))) || (r < 3 && Unchanged(Surface(old_), Surface(new_))))
  {
    hide VerdictBetween, WithinRank, CanonicalFlat, Unchanged, Widens, Surface, NoTypeKey, Rank;
    SurfaceCanonical(old_);
    SurfaceCanonical(new_);
    VerdictWithin(show, old_, new_, r);
    RankMeaning(show, Surface(old_), Surface(new_), r);
  }

  /** For canonical payloads the verdict is SAFE, RISKY or BREAKING, and each by its meaning. */
  lemma VerdictMeaning(show: Show, old_: Json, new_: Json)
    requires NoTypeKey(old_) && NoTypeKey(new_)
    ensures VerdictBetween(show, old_, new_) ==
            if Unchanged(Surface(old_), Surface(new_)) then SAFE
            else if Widens(Surface(old_), Surface(new_)) then RISKY
            else BREAKING
  {
    hide VerdictBetween, Unchanged, Widens, Surface, NoTypeKey;
    VerdictRank(show, old_, new_, 0);
    VerdictRank(show, old_, new_, 2);
    VerdictRank(show, old_, new_, 3);
  }

  /** A chain of SAFE steps only adds paths: all that version i offers, version j offers unchanged. */
  lemma SafeChainOnlyGrows(show: Show, payloads: seq<Json>, i: nat, j: nat)
    requires i < j < |payloads| && forall x | x in payloads :: NoTypeKey(x)
    requires WorstStep(show, payloads, i, j) == 0
    ensures Unchanged(Surface(payloads[i]), Surface(payloads[j]))
  {
    hide VerdictBetween, NoTypeKey;
    ChainBound(show, payloads, i, j);
    VerdictMeaning(show, payloads[i], payloads[j]);
  }
}
