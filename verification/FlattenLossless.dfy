/** What flattening keeps of a schema, and so what an empty diff means: all but objects without a leaf. */
module FlattenLossless {
  import opened Sorting
  import opened JsonValues
  import opened Paths
  import opened Classifier
  import opened CompatibilityChain

  /** Payloads whose paths can be told apart: clean keys, none of them `type`. */
  ghost predicate Clean(payload: Json) {
    match payload
    case Obj(fields) =>
      Distinct(fields) && forall f | f in fields :: CleanKey(f.key) && f.key != "type" && Clean(f.value)
    case Arr(items) => forall x | x in items :: Clean(x)
    case _ => true
  }

  predicate IsLeaf(s: Json) {
    s.Obj? && "type" in Keys(s.fields)
  }

  /** The canonical schemas of clean payloads. */
  ghost predicate CleanSchema(s: Json) {
    match s
    case Obj(fields) =>
      if "type" in Keys(fields) then CanonicalNode(s) && NameOf(s) != "array" else Distinct(fields) && CleanMembers(fields)
    case Arr(items) => CleanItems(items)
    case _ => false
  }

  ghost predicate CleanMembers(fields: seq<Field>) {
    forall f | f in fields :: CleanKey(f.key) && CleanSchema(f.value)
  }

  ghost predicate CleanItems(items: seq<Json>) {
    forall x | x in items :: CleanSchema(x)
  }

  lemma CanonicalizeKeepsDistinct(fields: seq<Field>)
    requires Distinct(fields)
    ensures Distinct(ByKey(CanonicalizeValues(fields)))
  {
    RewrittenLookup(fields, CanonicalizeValues(fields));
  }

  lemma {:induction false} CanonicalizeClean(payload: Json)
    requires Clean(payload)
    ensures CleanSchema(Canonicalize(payload))
    decreases payload, 1
  {
    hide CanonicalNode, NameOf, CleanMembers, ByKey, CanonicalizeValues;
    match payload
    case Obj(fields) =>
      CanonicalizeKeepsDistinct(fields);
      CanonicalizeCleanMembers(fields);
    case Arr(items) =>
      forall i | 0 <= i < |items| ensures CleanSchema(Canonicalize(items[i])) {
        assert items[i] in items;
        CanonicalizeClean(items[i]);
      }
    case _ =>
      ScalarIsClean(payload);
  }

  lemma ScalarIsClean(payload: Json)
    requires payload.IsScalar()
    ensures CleanSchema(Canonicalize(payload))
  {
    hide CanonicalNode, NameOf, Canonicalize, CleanMembers;
    ScalarCanonical(payload);
  }

  lemma {:induction false} CanonicalizeCleanMembers(fields: seq<Field>)
    requires Clean(Obj(fields))
    ensures var r := ByKey(CanonicalizeValues(fields)); CleanMembers(r) && "type" !in Keys(r)
    decreases Obj(fields), 0
  {
    hide CleanKey, ByKey, CleanSchema, Canonicalize;
    var r := ByKey(CanonicalizeValues(fields));
    forall i | 0 <= i < |r| ensures CleanKey(r[i].key) && r[i].key != "type" && CleanSchema(r[i].value) {
      var j := CanonicalFieldsComeFrom(fields, i);
      CanonicalizeClean(fields[j].value);
    }
  }

  // ---------------------------------------------------------------- where a part of the schema ends up

  /** Everything flattened from a prefix is filed below it. */
  lemma {:induction false} FlattenUnder(s: Json, prefix: string, q: string)
    requires prefix != "" && q in Flatten(s, prefix)
    ensures Under(prefix, q)
  {
    match s
    case Obj(fields) =>
      if "type" !in Keys(fields) {
        FlattenFieldsUnder(fields, prefix, q);
      }
    case Arr(items) =>
      if q != prefix {
        FlattenItemsUnder(items, prefix, q);
      }
    case _ =>
  }

  lemma {:induction false} FlattenFieldsUnder(fields: seq<Field>, prefix: string, q: string)
    requires prefix != "" && q in FlattenFields(fields, prefix)
    ensures Under(prefix, q)
  {
    var n := |fields| - 1;
    var last := fields[n];
    if q in Flatten(last.value, Join(prefix, last.key)) {
      FlattenUnder(last.value, Join(prefix, last.key), q);
      StepUnder(prefix, last.key, 0);
      UnderTrans(prefix, Join(prefix, last.key), q);
    } else {
      FlattenFieldsUnder(fields[..n], prefix, q);
    }
  }

  lemma {:induction false} FlattenItemsUnder(items: seq<Json>, prefix: string, q: string)
    requires prefix != "" && q in FlattenItems(items, prefix)
    ensures Under(prefix, q)
  {
    var n := |items| - 1;
    if q in Flatten(items[n], IndexPath(prefix, n)) {
      FlattenUnder(items[n], IndexPath(prefix, n), q);
      StepUnder(prefix, "", n);
      UnderTrans(prefix, IndexPath(prefix, n), q);
    } else {
      FlattenItemsUnder(items[..n], prefix, q);
    }
  }

  /** What member `f` contributes to the flattening of its object. */
  function MemberFlat(f: Field, prefix: string): map<string, Json> {
    Flatten(f.value, Join(prefix, f.key))
  }

  function ItemFlat(items: seq<Json>, i: nat, prefix: string): map<string, Json>
    requires i < |items|
  {
    Flatten(items[i], IndexPath(prefix, i))
  }

  lemma MemberUnder(f: Field, prefix: string, q: string)
    requires CleanKey(f.key) && q in MemberFlat(f, prefix)
    ensures Under(Join(prefix, f.key), q) && q != Own(prefix)
  {
    FlattenUnder(f.value, Join(prefix, f.key), q);
    OwnIsOutside(prefix, f.key, 0, q);
  }

  lemma ItemUnder(items: seq<Json>, i: nat, prefix: string, q: string)
    requires i < |items| && q in ItemFlat(items, i, prefix)
    ensures Under(IndexPath(prefix, i), q) && q != Own(prefix)
  {
    FlattenUnder(items[i], IndexPath(prefix, i), q);
    OwnIsOutside(prefix, "", i, q);
  }

  /** The members of an object never overwrite each other. */
  lemma {:induction false} FieldsFlat(fields: seq<Field>, prefix: string, q: string)
    requires Distinct(fields) && forall f | f in fields :: CleanKey(f.key)
    ensures q in FlattenFields(fields, prefix) <==> exists f :: f in fields && q in MemberFlat(f, prefix)
    ensures forall f | f in fields && q in MemberFlat(f, prefix) :: FlattenFields(fields, prefix)[q] == MemberFlat(f, prefix)[q]
  {
    hide CleanKey, Join, Under;
    if fields != [] {
      var n := |fields| - 1;
      var last := fields[n];
      FieldsFlat(fields[..n], prefix, q);
      assert fields == fields[..n] + [last];
      assert FlattenFields(fields, prefix) == FlattenFields(fields[..n], prefix) + MemberFlat(last, prefix);
      forall f | f in fields[..n] && q in MemberFlat(f, prefix) ensures q !in MemberFlat(last, prefix) {
        if q in MemberFlat(last, prefix) {
          MemberUnder(f, prefix, q);
          MemberUnder(last, prefix, q);
          JoinDisjoint(prefix, f.key, last.key, q);
        }
      }
    }
  }

  lemma {:induction false} ItemsFlat(items: seq<Json>, prefix: string, q: string)
    ensures q in FlattenItems(items, prefix) <==> exists i :: 0 <= i < |items| && q in ItemFlat(items, i, prefix)
    ensures forall i | 0 <= i < |items| && q in ItemFlat(items, i, prefix) ::
      FlattenItems(items, prefix)[q] == ItemFlat(items, i, prefix)[q]
  {
    hide Under, IndexPath;
    if items != [] {
      var n := |items| - 1;
      var front := items[..n];
      ItemsFlat(front, prefix, q);
      assert FlattenItems(items, prefix) == FlattenItems(front, prefix) + ItemFlat(items, n, prefix);
      forall i | 0 <= i < n ensures ItemFlat(front, i, prefix) == ItemFlat(items, i, prefix) {
      }
      forall i | 0 <= i < n && q in ItemFlat(items, i, prefix) ensures q !in ItemFlat(items, n, prefix) {
        if q in ItemFlat(items, n, prefix) {
          ItemUnder(items, i, prefix, q);
          ItemUnder(items, n, prefix, q);
          IndexDisjoint(prefix, i, n, q);
        }
      }
    }
  }

  // ---------------------------------------------------------------- what leaves a trace

  /** Whether anything of a schema shows: an array or a leaf does, an object if one of its members does. */
  ghost predicate Traced(s: Json) {
    match s
    case Obj(fields) => "type" in Keys(fields) || exists f :: f in fields && Traced(f.value)
    case Arr(_) => true
    case _ => false
  }

  lemma {:induction false} TracedPath(s: Json, prefix: string) returns (q: string)
    requires CleanSchema(s) && Traced(s)
    ensures q in Flatten(s, prefix)
  {
    hide CleanKey, CanonicalNode, NameOf, Join;
    q := Own(prefix);
    if s.Obj? && "type" !in Keys(s.fields) {
      var f :| f in s.fields && Traced(f.value);
      q := TracedPath(f.value, Join(prefix, f.key));
      assert q in MemberFlat(f, prefix);
      FieldsFlat(s.fields, prefix, q);
    }
  }

  lemma {:induction false} PathTraced(s: Json, prefix: string, q: string)
    requires CleanSchema(s) && q in Flatten(s, prefix)
    ensures Traced(s)
  {
    hide CleanKey, CanonicalNode, NameOf, Join;
    if s.Obj? && "type" !in Keys(s.fields) {
      FieldsFlat(s.fields, prefix, q);
      var f :| f in s.fields && q in MemberFlat(f, prefix);
      PathTraced(f.value, Join(prefix, f.key), q);
    }
  }

  // ---------------------------------------------------------------- the same but for what leaves no trace

  ghost predicate ItemTraced(items: seq<Json>, i: nat) {
    i < |items| && Traced(items[i])
  }

  ghost predicate MemberTraced(fields: seq<Field>, k: string) {
    k in Keys(fields) && Traced(Get(fields, k))
  }

  /** Equal schemas, untraced members and items aside. */
  ghost predicate SameTrace(s: Json, t: Json) {
    match s
    case Arr(xs) =>
      t.Arr? && forall i: nat :: ItemTraced(xs, i) == ItemTraced(t.items, i)
                                 && (ItemTraced(xs, i) && ItemTraced(t.items, i) ==> SameTrace(xs[i], t.items[i]))
    case Obj(fs) =>
      if "type" in Keys(fs) then s == t else
        t.Obj? && !IsLeaf(t)
        && (forall k :: MemberTraced(fs, k) == MemberTraced(t.fields, k))
        && forall k | k in Keys(fs) && MemberTraced(fs, k) && MemberTraced(t.fields, k) ::
             SameTrace(Get(fs, k), Get(t.fields, k))
    case _ => s == t
  }

  lemma OwnPath(s: Json, prefix: string)
    requires CleanSchema(s)
    ensures Own(prefix) in Flatten(s, prefix) <==> s.Arr? || IsLeaf(s)
    ensures s.Arr? ==> Flatten(s, prefix)[Own(prefix)] == ARRAY_MARKER
    ensures IsLeaf(s) ==> Flatten(s, prefix)[Own(prefix)] == s && s != ARRAY_MARKER
  {
    match s
    case Obj(fields) =>
      if "type" in Keys(fields) {
        NodeReads("array");
      } else {
        FieldsFlat(fields, prefix, Own(prefix));
        forall f | f in fields ensures Own(prefix) !in MemberFlat(f, prefix) {
          if Own(prefix) in MemberFlat(f, prefix) {
            MemberUnder(f, prefix, Own(prefix));
          }
        }
      }
    case Arr(items) =>
      ItemsFlat(items, prefix, Own(prefix));
      forall i | 0 <= i < |items| ensures Own(prefix) !in ItemFlat(items, i, prefix) {
        if Own(prefix) in ItemFlat(items, i, prefix) {
          ItemUnder(items, i, prefix, Own(prefix));
        }
      }
  }

  lemma SameAt(a: map<string, Json>, b: map<string, Json>)
    requires forall q :: At(a, q) == At(b, q)
    ensures a == b
  {
    forall q ensures q in a <==> q in b {
      assert At(a, q) == At(b, q);
    }
    forall q | q in a ensures a[q] == b[q] {
      assert At(a, q) == At(b, q);
    }
  }

  // ---------------------------------------------------------------- equal paths come from the same trace

  /** Position `i` contributes the same paths on both sides. */
  lemma ItemCarriesOver(xs: seq<Json>, ys: seq<Json>, prefix: string, i: nat, q: string)
    requires Flatten(Arr(xs), prefix) == Flatten(Arr(ys), prefix)
    requires i < |xs| && q in ItemFlat(xs, i, prefix)
    ensures i < |ys| && q in ItemFlat(ys, i, prefix) && ItemFlat(ys, i, prefix)[q] == ItemFlat(xs, i, prefix)[q]
  {
    ItemUnder(xs, i, prefix, q);
    ItemsFlat(xs, prefix, q);
    ItemsFlat(ys, prefix, q);
    var j :| 0 <= j < |ys| && q in ItemFlat(ys, j, prefix);
    ItemUnder(ys, j, prefix, q);
    IndexDisjoint(prefix, i, j, q);
  }

  lemma ItemTraceCarries(xs: seq<Json>, ys: seq<Json>, prefix: string, i: nat)
    requires CleanItems(xs) && CleanItems(ys) && Flatten(Arr(xs), prefix) == Flatten(Arr(ys), prefix)
    requires ItemTraced(xs, i)
    ensures ItemTraced(ys, i)
  {
    hide Flatten, Traced, CleanSchema, IndexPath;
    assert xs[i] in xs;
    var q := TracedPath(xs[i], IndexPath(prefix, i));
    ItemCarriesOver(xs, ys, prefix, i, q);
    assert ys[i] in ys;
    PathTraced(ys[i], IndexPath(prefix, i), q);
  }

  lemma ItemFlatSame(xs: seq<Json>, ys: seq<Json>, prefix: string, i: nat)
    requires Flatten(Arr(xs), prefix) == Flatten(Arr(ys), prefix) && i < |xs| && i < |ys|
    ensures ItemFlat(xs, i, prefix) == ItemFlat(ys, i, prefix)
  {
    hide Flatten, ItemFlat;
    var a, b := ItemFlat(xs, i, prefix), ItemFlat(ys, i, prefix);
    forall q ensures At(a, q) == At(b, q) {
      if q in a {
        ItemCarriesOver(xs, ys, prefix, i, q);
      }
      if q in b {
        ItemCarriesOver(ys, xs, prefix, i, q);
      }
    }
    SameAt(a, b);
  }

  ghost predicate MembersOf(fields: seq<Field>) {
    Distinct(fields) && CleanMembers(fields)
  }

  lemma FlattenObject(fields: seq<Field>, prefix: string)
    requires "type" !in Keys(fields)
    ensures Flatten(Obj(fields), prefix) == FlattenFields(fields, prefix)
  {
  }

  /** Member `f` has a namesake on the other side contributing the same paths. */
  lemma MemberCarriesOver(fs: seq<Field>, gs: seq<Field>, prefix: string, f: Field, q: string) returns (g: Field)
    requires MembersOf(fs) && MembersOf(gs) && FlattenFields(fs, prefix) == FlattenFields(gs, prefix)
    requires f in fs && q in MemberFlat(f, prefix)
    ensures g in gs && g.key == f.key && q in MemberFlat(g, prefix) && MemberFlat(g, prefix)[q] == MemberFlat(f, prefix)[q]
  {
    hide CleanSchema, Flatten, CleanKey, Under, Join;
    FieldsFlat(fs, prefix, q);
    FieldsFlat(gs, prefix, q);
    g :| g in gs && q in MemberFlat(g, prefix);
    MemberUnder(f, prefix, q);
    MemberUnder(g, prefix, q);
    JoinDisjoint(prefix, f.key, g.key, q);
  }

  /** The member with key `k`. */
  lemma MemberWith(fields: seq<Field>, g: Field)
    requires Distinct(fields) && g in fields
    ensures g.key in Keys(fields) && Get(fields, g.key) == g.value
  {
    var i :| 0 <= i < |fields| && fields[i] == g;
    GetIs(fields, i);
  }

  lemma MemberTraceCarries(fs: seq<Field>, gs: seq<Field>, prefix: string, k: string)
    requires MembersOf(fs) && MembersOf(gs) && FlattenFields(fs, prefix) == FlattenFields(gs, prefix)
    requires MemberTraced(fs, k)
    ensures MemberTraced(gs, k)
  {
    hide Flatten, FlattenFields, Traced, CleanSchema, Join, Get, Keys;
    var f := Field(k, Get(fs, k));
    assert f in fs;
    var q := TracedPath(f.value, Join(prefix, k));
    assert q in MemberFlat(f, prefix);
    var g := MemberCarriesOver(fs, gs, prefix, f, q);
    PathTraced(g.value, Join(prefix, k), q);
    MemberWith(gs, g);
  }

  lemma MemberFlatSame(fs: seq<Field>, gs: seq<Field>, prefix: string, f: Field, g: Field)
    requires MembersOf(fs) && MembersOf(gs) && FlattenFields(fs, prefix) == FlattenFields(gs, prefix)
    requires f in fs && g in gs && f.key == g.key
    ensures MemberFlat(f, prefix) == MemberFlat(g, prefix)
  {
    hide FlattenFields, MemberFlat, CleanMembers, Get;
    var a, b := MemberFlat(f, prefix), MemberFlat(g, prefix);
    MemberWith(fs, f);
    MemberWith(gs, g);
    forall q ensures At(a, q) == At(b, q) {
      if q in a {
        var h := MemberCarriesOver(fs, gs, prefix, f, q);
        MemberWith(gs, h);
      }
      if q in b {
        var h := MemberCarriesOver(gs, fs, prefix, g, q);
        MemberWith(fs, h);
      }
    }
    SameAt(a, b);
  }

  /** Schemas with equal flattenings are equal but for what leaves no trace. */
  lemma {:induction false} FlatTellsTrace(s: Json, t: Json, prefix: string)
    requires CleanSchema(s) && CleanSchema(t) && Flatten(s, prefix) == Flatten(t, prefix)
    ensures SameTrace(s, t)
    decreases s, 1
  {
    hide CleanMembers, CleanItems, FlattenFields, FlattenItems, ItemTraced, MemberTraced, CanonicalNode, NameOf;
    OwnPath(s, prefix);
    OwnPath(t, prefix);
    if s.Arr? {
      ItemsTellTrace(s.items, t.items, prefix);
    } else if !IsLeaf(s) {
      FlattenObject(s.fields, prefix);
      FlattenObject(t.fields, prefix);
      MembersTellTrace(s.fields, t.fields, prefix);
    }
  }

  lemma {:induction false} ItemsTellTrace(xs: seq<Json>, ys: seq<Json>, prefix: string)
    requires CleanItems(xs) && CleanItems(ys) && Flatten(Arr(xs), prefix) == Flatten(Arr(ys), prefix)
    ensures forall i: nat :: ItemTraced(xs, i) == ItemTraced(ys, i)
                             && (ItemTraced(xs, i) && ItemTraced(ys, i) ==> SameTrace(xs[i], ys[i]))
    decreases Arr(xs), 0
  {
    hide Flatten, Traced, CleanSchema, SameTrace;
    forall i: nat
      ensures ItemTraced(xs, i) == ItemTraced(ys, i)
              && (ItemTraced(xs, i) && ItemTraced(ys, i) ==> SameTrace(xs[i], ys[i]))
    {
      if ItemTraced(xs, i) {
        ItemTraceCarries(xs, ys, prefix, i);
        ItemFlatSame(xs, ys, prefix, i);
        assert xs[i] in xs && ys[i] in ys;
        FlatTellsTrace(xs[i], ys[i], IndexPath(prefix, i));
      } else if ItemTraced(ys, i) {
        ItemTraceCarries(ys, xs, prefix, i);
      }
    }
  }

  lemma {:induction false} MembersTellTrace(fs: seq<Field>, gs: seq<Field>, prefix: string)
    requires MembersOf(fs) && MembersOf(gs) && FlattenFields(fs, prefix) == FlattenFields(gs, prefix)
    ensures forall k :: MemberTraced(fs, k) == MemberTraced(gs, k)
    ensures forall k | k in Keys(fs) && MemberTraced(fs, k) && MemberTraced(gs, k) :: SameTrace(Get(fs, k), Get(gs, k))
    decreases Obj(fs), 0
  {
    hide Flatten, FlattenFields, Traced, CleanSchema, SameTrace, Get, Keys, Join;
    forall k ensures MemberTraced(fs, k) == MemberTraced(gs, k) {
      if MemberTraced(fs, k) {
        MemberTraceCarries(fs, gs, prefix, k);
      } else if MemberTraced(gs, k) {
        MemberTraceCarries(gs, fs, prefix, k);
      }
    }
    forall k | k in Keys(fs) && MemberTraced(fs, k) && MemberTraced(gs, k) ensures SameTrace(Get(fs, k), Get(gs, k)) {
      var f, g := Field(k, Get(fs, k)), Field(k, Get(gs, k));
      assert f in fs && g in gs;
      MemberFlatSame(fs, gs, prefix, f, g);
      FlatTellsTrace(f.value, g.value, Join(prefix, k));
    }
  }

  // ---------------------------------------------------------------- the same trace leaves equal paths

  ghost predicate FlatWithin(a: map<string, Json>, b: map<string, Json>) {
    forall q | q in a :: q in b && b[q] == a[q]
  }

  lemma WithinBoth(a: map<string, Json>, b: map<string, Json>)
    requires FlatWithin(a, b) && FlatWithin(b, a)
    ensures a == b
  {
  }

  lemma {:induction false} TraceFixesFlat(s: Json, t: Json, prefix: string)
    requires CleanSchema(s) && CleanSchema(t) && SameTrace(s, t)
    ensures Flatten(s, prefix) == Flatten(t, prefix)
    decreases s, 1
  {
    hide CleanMembers, CleanItems, FlattenFields, FlattenItems, ItemTraced, MemberTraced, CanonicalNode, NameOf;
    match s
    case Arr(xs) =>
      ItemsFixFlat(xs, t.items, prefix);
    case Obj(fs) =>
      if "type" !in Keys(fs) {
        FlattenObject(fs, prefix);
        FlattenObject(t.fields, prefix);
        MembersFixFlat(fs, t.fields, prefix);
      }
    case _ =>
  }

  lemma {:induction false} ItemsFixFlat(xs: seq<Json>, ys: seq<Json>, prefix: string)
    requires CleanItems(xs) && CleanItems(ys) && SameTrace(Arr(xs), Arr(ys))
    ensures FlattenItems(xs, prefix) == FlattenItems(ys, prefix)
    decreases Arr(xs), 0
  {
    hide Flatten, FlattenItems, Traced, CleanSchema, IndexPath;
    forall i: nat | i < |xs| && i < |ys| ensures ItemFlat(xs, i, prefix) == ItemFlat(ys, i, prefix) {
      assert xs[i] in xs && ys[i] in ys;
      if ItemTraced(xs, i) {
        assert ItemTraced(ys, i);
        TraceFixesFlat(xs[i], ys[i], IndexPath(prefix, i));
      } else {
        assert !ItemTraced(ys, i);
        NoTraceNoPath(xs[i], IndexPath(prefix, i));
        NoTraceNoPath(ys[i], IndexPath(prefix, i));
      }
    }
    ItemsWithin(xs, ys, prefix);
    ItemsWithin(ys, xs, prefix);
    WithinBoth(FlattenItems(xs, prefix), FlattenItems(ys, prefix));
  }

  lemma NoTraceNoPath(s: Json, prefix: string)
    requires CleanSchema(s) && !Traced(s)
    ensures Flatten(s, prefix) == map[]
  {
    hide Traced, CleanSchema, Flatten;
    forall q ensures q !in Flatten(s, prefix) {
      if q in Flatten(s, prefix) {
        PathTraced(s, prefix, q);
      }
    }
  }

  lemma ItemsWithin(xs: seq<Json>, ys: seq<Json>, prefix: string)
    requires CleanItems(xs)
    requires forall i: nat :: ItemTraced(xs, i) ==> ItemTraced(ys, i)
    requires forall i: nat | i < |xs| && i < |ys| :: ItemFlat(xs, i, prefix) == ItemFlat(ys, i, prefix)
    ensures FlatWithin(FlattenItems(xs, prefix), FlattenItems(ys, prefix))
  {
    hide Flatten, FlattenItems, Traced, CleanSchema, IndexPath;
    forall q | q in FlattenItems(xs, prefix)
      ensures q in FlattenItems(ys, prefix) && FlattenItems(ys, prefix)[q] == FlattenItems(xs, prefix)[q]
    {
      ItemsFlat(xs, prefix, q);
      ItemsFlat(ys, prefix, q);
      var i :| 0 <= i < |xs| && q in ItemFlat(xs, i, prefix);
      assert xs[i] in xs;
      PathTraced(xs[i], IndexPath(prefix, i), q);
      assert ItemTraced(xs, i);
      assert q in ItemFlat(ys, i, prefix);
    }
  }

  lemma {:induction false} MembersFixFlat(fs: seq<Field>, gs: seq<Field>, prefix: string)
    requires MembersOf(fs) && MembersOf(gs)
    requires forall k :: MemberTraced(fs, k) == MemberTraced(gs, k)
    requires forall k | k in Keys(fs) && MemberTraced(fs, k) && MemberTraced(gs, k) :: SameTrace(Get(fs, k), Get(gs, k))
    ensures FlattenFields(fs, prefix) == FlattenFields(gs, prefix)
    decreases Obj(fs), 0
  {
    hide Flatten, FlattenFields, Traced, CleanSchema, SameTrace, Get, Keys, Join;
    forall k | k in Keys(fs) && MemberTraced(fs, k) && MemberTraced(gs, k)
      ensures MemberFlat(Field(k, Get(fs, k)), prefix) == MemberFlat(Field(k, Get(gs, k)), prefix)
    {
      var f, g := Field(k, Get(fs, k)), Field(k, Get(gs, k));
      assert f in fs && g in gs;
      TraceFixesFlat(f.value, g.value, Join(prefix, k));
    }
    MembersWithin(fs, gs, prefix);
    MembersWithin(gs, fs, prefix);
    WithinBoth(FlattenFields(fs, prefix), FlattenFields(gs, prefix));
  }

  lemma MembersWithin(fs: seq<Field>, gs: seq<Field>, prefix: string)
    requires MembersOf(fs) && MembersOf(gs)
    requires forall k :: MemberTraced(fs, k) ==> MemberTraced(gs, k)
    requires forall k | k in Keys(fs) && MemberTraced(fs, k) && MemberTraced(gs, k) ::
      MemberFlat(Field(k, Get(fs, k)), prefix) == MemberFlat(Field(k, Get(gs, k)), prefix)
    ensures FlatWithin(FlattenFields(fs, prefix), FlattenFields(gs, prefix))
  {
    hide Flatten, FlattenFields, Traced, CleanSchema, Get, Keys, Join, CleanKey;
    forall q | q in FlattenFields(fs, prefix)
      ensures q in FlattenFields(gs, prefix) && FlattenFields(gs, prefix)[q] == FlattenFields(fs, prefix)[q]
    {
      FieldsFlat(fs, prefix, q);
      FieldsFlat(gs, prefix, q);
      var f :| f in fs && q in MemberFlat(f, prefix);
      PathTraced(f.value, Join(prefix, f.key), q);
      MemberWith(fs, f);
      assert f == Field(f.key, Get(fs, f.key));
      assert MemberTraced(fs, f.key) && MemberTraced(gs, f.key);
      var g := Field(f.key, Get(gs, f.key));
      assert g in gs && MemberFlat(g, prefix) == MemberFlat(f, prefix);
    }
  }

  // ---------------------------------------------------------------- the diff

  lemma DiffEmptyIffFlat(show: Show, s: Json, t: Json)
    ensures DiffAndClassify(show, s, t) == [] <==> Flatten(s, "") == Flatten(t, "")
  {
    hide Item, Flatten, DiffPaths, Sorted;
    var o, n := Flatten(s, ""), Flatten(t, "");
    var paths := Sorted(o.Keys + n.Keys);
    if DiffAndClassify(show, s, t) == [] {
      forall q ensures At(o, q) == At(n, q) {
        DiffPathsItems(show, paths, o, n, Item(show, q, At(o, q), At(n, q)));
      }
      SameAt(o, n);
    } else {
      var d := DiffAndClassify(show, s, t)[0];
      DiffPathsItems(show, paths, o, n, d);
    }
  }

  /**
    * For payloads with clean keys the diff is empty exactly when the canonical schemas are equal but for
    * objects, members and items that hold no leaf and no array.
    */
  lemma DiffEmptyIffSameTrace(show: Show, a: Json, b: Json)
    requires Clean(a) && Clean(b)
    ensures DiffAndClassify(show, Canonicalize(a), Canonicalize(b)) == [] <==> SameTrace(Canonicalize(a), Canonicalize(b))
  {
    hide Flatten, DiffAndClassify, Canonicalize, SameTrace, CleanSchema, Clean;
    var s, t := Canonicalize(a), Canonicalize(b);
    CanonicalizeClean(a);
    CanonicalizeClean(b);
    DiffEmptyIffFlat(show, s, t);
    if Flatten(s, "") == Flatten(t, "") {
      FlatTellsTrace(s, t, "");
    }
    if SameTrace(s, t) {
      TraceFixesFlat(s, t, "");
    }
  }

  // ---------------------------------------------------------------- without empty objects

  /** No object, at any depth, is empty. */
  ghost predicate NoEmpty(payload: Json) {
    match payload
    case Obj(fields) => fields != [] && forall f | f in fields :: NoEmpty(f.value)
    case Arr(items) => forall x | x in items :: NoEmpty(x)
    case _ => true
  }

  /** Clean payloads without empty objects. */
  ghost predicate Plain(payload: Json) {
    Clean(payload) && NoEmpty(payload)
  }

  /** Canonical schemas with every object listed in key order and none of them empty. */
  ghost predicate Full(s: Json) {
    match s
    case Obj(fields) => "type" in Keys(fields) || (fields != [] && fields == ByKey(fields) && FullFields(fields))
    case Arr(items) => forall x | x in items :: Full(x)
    case _ => false
  }

  ghost predicate FullFields(fields: seq<Field>) {
    forall f | f in fields :: Full(f.value)
  }

  lemma CanonicalizeListsKeys(fields: seq<Field>)
    requires Distinct(fields) && fields != []
    ensures var r := ByKey(CanonicalizeValues(fields)); r != [] && r == ByKey(r)
  {
    var vs := CanonicalizeValues(fields);
    RewrittenLookup(fields, vs);
    ByKeyIdempotent(vs);
    assert vs[0].key in Keys(vs);
  }

  lemma ScalarIsFull(payload: Json)
    requires payload.IsScalar()
    ensures Full(Canonicalize(payload))
  {
    hide CanonicalNode, Canonicalize, FullFields;
    ScalarCanonical(payload);
  }

  lemma {:induction false} CanonicalizeFull(payload: Json)
    requires Plain(payload)
    ensures Full(Canonicalize(payload))
    decreases payload, 1
  {
    hide FullFields, ByKey, CanonicalizeValues, CleanKey;
    match payload
    case Obj(fields) =>
      CanonicalizeListsKeys(fields);
      CanonicalizeFullFields(fields);
    case Arr(items) =>
      forall i | 0 <= i < |items| ensures Full(Canonicalize(items[i])) {
        assert items[i] in items;
        CanonicalizeFull(items[i]);
      }
    case _ =>
      ScalarIsFull(payload);
  }

  lemma PlainMember(fields: seq<Field>, f: Field)
    requires Plain(Obj(fields)) && f in fields
    ensures Plain(f.value)
  {
    hide CleanKey;
  }

  lemma {:induction false} CanonicalizeFullFields(fields: seq<Field>)
    requires Plain(Obj(fields))
    ensures FullFields(ByKey(CanonicalizeValues(fields)))
    decreases Obj(fields), 0
  {
    hide ByKey, Full, Canonicalize, Clean, NoEmpty;
    var r := ByKey(CanonicalizeValues(fields));
    forall i | 0 <= i < |r| ensures Full(r[i].value) {
      var j := CanonicalFieldsComeFrom(fields, i);
      PlainMember(fields, fields[j]);
      CanonicalizeFull(fields[j].value);
    }
  }

  lemma {:induction false} FullIsTraced(s: Json)
    requires Full(s)
    ensures Traced(s)
  {
    hide ByKey;
    if s.Obj? && "type" !in Keys(s.fields) {
      assert s.fields[0] in s.fields;
      FullIsTraced(s.fields[0].value);
    }
  }

  lemma KeysAligned(fs: seq<Field>, gs: seq<Field>)
    requires fs == ByKey(fs) && gs == ByKey(gs) && Keys(fs) == Keys(gs)
    ensures |fs| == |gs| && forall i | 0 <= i < |fs| :: fs[i].key == gs[i].key
  {
  }

  lemma FullKeys(fs: seq<Field>, gs: seq<Field>)
    requires FullFields(fs) && FullFields(gs) && forall k :: MemberTraced(fs, k) == MemberTraced(gs, k)
    ensures Keys(fs) == Keys(gs)
    ensures forall k | k in Keys(fs) :: MemberTraced(fs, k) && MemberTraced(gs, k)
  {
    hide Full, Traced, Get;
    forall k | k in Keys(fs) || k in Keys(gs) ensures MemberTraced(fs, k) && MemberTraced(gs, k) {
      if k in Keys(fs) {
        assert Field(k, Get(fs, k)) in fs;
        FullIsTraced(Get(fs, k));
      } else {
        assert Field(k, Get(gs, k)) in gs;
        FullIsTraced(Get(gs, k));
      }
    }
  }

  /** Where everything leaves a trace, the same trace means the same schema. */
  lemma {:induction false} FullTraceEqual(s: Json, t: Json)
    requires Full(s) && Full(t) && SameTrace(s, t)
    ensures s == t
    decreases s, 1
  {
    hide FullFields, ItemTraced, MemberTraced, ByKey;
    match s
    case Arr(xs) => FullItemsEqual(xs, t.items);
    case Obj(fs) =>
      if "type" !in Keys(fs) {
        FullMembersEqual(fs, t.fields);
      }
    case _ =>
  }

  lemma {:induction false} FullItemsEqual(xs: seq<Json>, ys: seq<Json>)
    requires Full(Arr(xs)) && Full(Arr(ys)) && SameTrace(Arr(xs), Arr(ys))
    ensures xs == ys
    decreases Arr(xs), 0
  {
    hide Traced;
    forall i: nat ensures (i < |xs| ==> ItemTraced(xs, i)) && (i < |ys| ==> ItemTraced(ys, i)) {
      if i < |xs| {
        assert xs[i] in xs;
        FullIsTraced(xs[i]);
      }
      if i < |ys| {
        assert ys[i] in ys;
        FullIsTraced(ys[i]);
      }
    }
    assert ItemTraced(xs, |ys|) == ItemTraced(ys, |ys|) && ItemTraced(xs, |xs|) == ItemTraced(ys, |xs|);
    forall i | 0 <= i < |xs| ensures xs[i] == ys[i] {
      assert ItemTraced(xs, i) && ItemTraced(ys, i);
      assert xs[i] in xs && ys[i] in ys;
      FullTraceEqual(xs[i], ys[i]);
    }
  }

  lemma {:induction false} FullMembersEqual(fs: seq<Field>, gs: seq<Field>)
    requires FullFields(fs) && FullFields(gs) && fs == ByKey(fs) && gs == ByKey(gs)
    requires forall k :: MemberTraced(fs, k) == MemberTraced(gs, k)
    requires forall k | k in Keys(fs) && MemberTraced(fs, k) && MemberTraced(gs, k) :: SameTrace(Get(fs, k), Get(gs, k))
    ensures fs == gs
    decreases Obj(fs), 0
  {
    hide ByKey, Full, Traced, SameTrace, Get;
    FullKeys(fs, gs);
    KeysAligned(fs, gs);
    ListedValues(fs);
    ListedValues(gs);
    forall i | 0 <= i < |fs| ensures fs[i] == gs[i] {
      assert fs[i] in fs && gs[i] in gs;
      assert fs[i].key in Keys(fs);
      FullTraceEqual(fs[i].value, gs[i].value);
    }
  }

  lemma ListedValues(fields: seq<Field>)
    requires fields == ByKey(fields)
    ensures forall i | 0 <= i < |fields| :: fields[i].key in Keys(fields) && Get(fields, fields[i].key) == fields[i].value
  {
    hide Get, Sorted;
  }

  /** For clean payloads without empty objects the diff is empty exactly when the canonical schemas are equal. */
  lemma DiffEmptyIffEqual(show: Show, a: Json, b: Json)
    requires Plain(a) && Plain(b)
    ensures DiffAndClassify(show, Canonicalize(a), Canonicalize(b)) == [] <==> Canonicalize(a) == Canonicalize(b)
  {
    hide Flatten, DiffAndClassify, Canonicalize, SameTrace, Full, Clean, NoEmpty;
    var s, t := Canonicalize(a), Canonicalize(b);
    DiffEmptyIffSameTrace(show, a, b);
    CanonicalizeFull(a);
    CanonicalizeFull(b);
    DiffEmptyIffFlat(show, s, t);
    if SameTrace(s, t) {
      FullTraceEqual(s, t);
    }
  }

  /** An empty object leaves no trace: the key disappears and no difference is reported. */
  lemma EmptyObjectLost(show: Show)
    ensures var a, b := Obj([Field("k", Obj([]))]), Obj([]);
            Canonicalize(a) != Canonicalize(b) && DiffAndClassify(show, Canonicalize(a), Canonicalize(b)) == []
  {
    var fs := [Field("k", Obj([]))];
    assert Keys(fs) == {"k"};
    var vs := CanonicalizeValues(fs);
    assert vs == fs by {
      EmptyIsCanonical();
    }
    var r := ByKey(vs);
    assert r == [Field("k", Obj([]))] by {
      assert |r| == 1 && r[0].key == "k" && r[0].value == Get(vs, "k");
    }
    EmptyIsCanonical();
    assert Join("", "k") == "k" && Flatten(Obj([]), "k") == map[];
    assert r[..0] == [];
    assert FlattenFields(r, "") == map[];
    assert Flatten(Obj(r), "") == map[] == Flatten(Obj([]), "");
  }

  lemma EmptyIsCanonical()
    ensures Canonicalize(Obj([])) == Obj([]) && Keys([]) == {} && Sorted({}) == []
  {
    assert ByKey([]) == [];
  }
}
