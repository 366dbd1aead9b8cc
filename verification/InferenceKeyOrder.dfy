/** The order of object keys, at any depth, does not reach the inferred schema. */
module InferenceKeyOrder {
  import opened JsonValues
  import opened Paths
  import opened SchemaInference

  /** Every key, at every depth, is non-empty and free of `.` and `[`. */
  ghost predicate CleanKeys(j: Json) {
    match j
    case Arr(items) => forall x | x in items :: CleanKeys(x)
    case Obj(fields) => forall f | f in fields :: CleanKey(f.key) && CleanKeys(f.value)
    case _ => true
  }

  // ---------------------------------------------------------------- events stay below their path

  lemma OpsOne(e: Event, p: string)
    ensures OpsAt([e], p) == if e.path == p then [e.op] else []
  {
    assert [e][..0] == [];
  }

  lemma {:induction false} EmitOutside(path: string, value: Json, p: string)
    requires path != "" && !Under(path, p)
    ensures OpsAt(EmitEvents(path, value), p) == []
    decreases value, 1
  {
    hide Under;
    assert path != p by {
      UnderSelf(path);
    }
    match value
    case Obj(_) =>
      WalkOutside(value, path, p);
      OpsOne(Event(path, Ensure(TObject)), p);
      OpsConcat([Event(path, Ensure(TObject))], WalkEvents(value, path), p);
    case Arr(_) =>
      WalkOutside(value, path, p);
    case _ =>
      OpsOne(Event(path, Observe(value)), p);
  }

  lemma UnderSelf(path: string)
    ensures Under(path, path)
  {
  }

  lemma NotUnderStep(parent: string, key: string, p: string)
    requires parent != "" && !Under(parent, p)
    ensures !Under(Join(parent, key), p) && !Under(ItemPath(parent), p) && p != parent
  {
    StepUnder(parent, key, 0);
    if Under(Join(parent, key), p) {
      UnderTrans(parent, Join(parent, key), p);
    }
    if Under(ItemPath(parent), p) {
      UnderTrans(parent, ItemPath(parent), p);
    }
  }

  lemma {:induction false} WalkOutside(data: Json, parent: string, p: string)
    requires parent != "" && !Under(parent, p)
    ensures OpsAt(WalkEvents(data, parent), p) == []
    decreases data, 0
  {
    NotUnderStep(parent, "", p);
    hide Under, ItemPath;
    match data
    case Obj(fields) =>
      OpsOne(Event(parent, Ensure(TObject)), p);
      OpsConcat([Event(parent, Ensure(TObject))], FieldEvents(fields, parent), p);
      FieldsOutside(fields, parent, p);
    case Arr(items) =>
      var path := ItemPath(parent);
      var ensure := Event(parent, Ensure(TArray));
      OpsOne(ensure, p);
      if items == [] {
        OpsOne(Event(parent, SetItemType(TUnknown)), p);
        OpsConcat([ensure], [Event(parent, SetItemType(TUnknown))], p);
      } else if AllObjects(items) {
        var kind := Event(parent, SetItemType(TObject));
        OpsOne(kind, p);
        RowsOutside(items, path, p);
        OptionalOutside(KeysSeen(items), items, path, p);
        OpsFour([ensure], [kind], RowEvents(items, path), OptionalEvents(items, path), p);
      } else {
        var kind := Event(parent, SetItemType(ItemType(items)));
        OpsOne(kind, p);
        ItemsOutside(items, path, p);
        OpsConcat(ItemEvents(items, path), [kind], p);
        OpsConcat([ensure], ItemEvents(items, path) + [kind], p);
      }
    case _ =>
      OpsOne(Event(parent, Observe(data)), p);
  }

  lemma OpsFour(a: seq<Event>, b: seq<Event>, c: seq<Event>, d: seq<Event>, p: string)
    ensures OpsAt(a + (b + c + d), p) == OpsAt(a, p) + (OpsAt(b, p) + OpsAt(c, p) + OpsAt(d, p))
  {
    OpsConcat(a, b + c + d, p);
    OpsConcat(b + c, d, p);
    OpsConcat(b, c, p);
  }

  lemma {:induction false} FieldsOutside(fields: seq<Field>, parent: string, p: string)
    requires parent != "" && !Under(parent, p)
    ensures OpsAt(FieldEvents(fields, parent), p) == []
    decreases fields, 0
  {
    if fields != [] {
      var n := |fields| - 1;
      FieldsOutside(fields[..n], parent, p);
      NotUnderStep(parent, fields[n].key, p);
      EmitOutside(Join(parent, fields[n].key), fields[n].value, p);
      OpsConcat(FieldEvents(fields[..n], parent), EmitEvents(Join(parent, fields[n].key), fields[n].value), p);
    }
  }

  lemma {:induction false} RowsOutside(items: seq<Json>, path: string, p: string)
    requires AllObjects(items) && path != "" && !Under(path, p)
    ensures OpsAt(RowEvents(items, path), p) == []
    decreases items, 0
  {
    hide Under;
    if items != [] {
      var n := |items| - 1;
      RowsOutside(items[..n], path, p);
      FieldsOutside(items[n].fields, path, p);
      OpsConcat(RowEvents(items[..n], path), FieldEvents(items[n].fields, path), p);
    }
  }

  lemma {:induction false} ItemsOutside(items: seq<Json>, path: string, p: string)
    requires path != "" && !Under(path, p)
    ensures OpsAt(ItemEvents(items, path), p) == []
    decreases items, 0
  {
    hide Under;
    if items != [] {
      var n := |items| - 1;
      ItemsOutside(items[..n], path, p);
      EmitOutside(path, items[n], p);
      OpsConcat(ItemEvents(items[..n], path), EmitEvents(path, items[n]), p);
    }
  }

  lemma {:induction false} OptionalOutside(keys: seq<string>, items: seq<Json>, path: string, p: string)
    requires path != "" && !Under(path, p)
    ensures OpsAt(OptionalOf(keys, items, path), p) == []
  {
    if keys != [] {
      var n := |keys| - 1;
      OptionalOutside(keys[..n], items, path, p);
      NotUnderStep(path, keys[n], p);
      UnderSelf(Join(path, keys[n]));
      var e := Event(Join(path, keys[n]), MarkOptional);
      OpsOne(e, p);
      OpsConcat(OptionalOf(keys[..n], items, path), if CountKey(items, keys[n]) < |items| then [e] else [], p);
    }
  }

  // ---------------------------------------------------------------- one member per path

  ghost predicate CleanFields(fields: seq<Field>) {
    Distinct(fields) && forall f | f in fields :: CleanKey(f.key)
  }

  /** At a path below member `i`, an object's events are those of member `i`. */
  lemma {:induction false} FieldsAt(fields: seq<Field>, parent: string, p: string, i: nat)
    requires CleanFields(fields) && i < |fields| && Under(Join(parent, fields[i].key), p)
    ensures OpsAt(FieldEvents(fields, parent), p) == OpsAt(EmitEvents(Join(parent, fields[i].key), fields[i].value), p)
  {
    hide Under, Join, CleanKey, EmitEvents;
    var n := |fields| - 1;
    var last := EmitEvents(Join(parent, fields[n].key), fields[n].value);
    OpsConcat(FieldEvents(fields[..n], parent), last, p);
    assert fields[n] in fields && fields[i] in fields;
    CleanJoin(parent, fields[n].key);
    if i == n {
      FieldsNowhere(fields[..n], parent, p, fields[n].key);
    } else {
      if Under(Join(parent, fields[n].key), p) {
        JoinDisjoint(parent, fields[i].key, fields[n].key, p);
      }
      EmitOutside(Join(parent, fields[n].key), fields[n].value, p);
      FieldsAt(fields[..n], parent, p, i);
    }
  }

  /** A path below some other member's place gets nothing from these members. */
  lemma {:induction false} FieldsNowhere(fields: seq<Field>, parent: string, p: string, k: string)
    requires CleanFields(fields) && k !in Keys(fields) && CleanKey(k) && Under(Join(parent, k), p)
    ensures OpsAt(FieldEvents(fields, parent), p) == []
  {
    forall f | f in fields ensures !Under(Join(parent, f.key), p) {
      if Under(Join(parent, f.key), p) {
        JoinDisjoint(parent, k, f.key, p);
      }
    }
    FieldsNone(fields, parent, p);
  }

  lemma {:induction false} FieldsNone(fields: seq<Field>, parent: string, p: string)
    requires CleanFields(fields) && forall f | f in fields :: !Under(Join(parent, f.key), p)
    ensures OpsAt(FieldEvents(fields, parent), p) == []
  {
    hide Under, CleanKey;
    if fields != [] {
      var n := |fields| - 1;
      FieldsNone(fields[..n], parent, p);
      assert fields[n] in fields;
      CleanJoin(parent, fields[n].key);
      EmitOutside(Join(parent, fields[n].key), fields[n].value, p);
      OpsConcat(FieldEvents(fields[..n], parent), EmitEvents(Join(parent, fields[n].key), fields[n].value), p);
    }
  }

  lemma CleanJoin(parent: string, key: string)
    requires CleanKey(key)
    ensures Join(parent, key) != ""
  {
  }

  // ---------------------------------------------------------------- keys counted over an array

  lemma {:induction false} AddKeysHas(seen: seq<string>, fields: seq<Field>, k: string)
    ensures k in AddKeys(seen, fields) <==> k in seen || k in Keys(fields)
    ensures Once(seen) ==> Once(AddKeys(seen, fields))
  {
    if fields != [] {
      var n := |fields| - 1;
      AddKeysHas(seen, fields[..n], k);
      AddKeysHas(seen, fields[..n], fields[n].key);
      assert Keys(fields) == Keys(fields[..n]) + {fields[n].key};
    }
  }

  ghost predicate Once(keys: seq<string>) {
    forall i, j | 0 <= i < j < |keys| :: keys[i] != keys[j]
  }

  lemma {:induction false} KeysSeenCounted(items: seq<Json>, k: string)
    requires AllObjects(items)
    ensures k in KeysSeen(items) <==> CountKey(items, k) > 0
    ensures Once(KeysSeen(items))
  {
    if items != [] {
      var n := |items| - 1;
      KeysSeenCounted(items[..n], k);
      AddKeysHas(KeysSeen(items[..n]), items[n].fields, k);
    }
  }

  /** Some key of the array is missing from some object, and `p` is its path. */
  ghost predicate OptionalHere(items: seq<Json>, path: string, p: string) {
    exists k :: 0 < CountKey(items, k) < |items| && Join(path, k) == p
  }

  lemma JoinInjective(path: string, j: string, k: string)
    requires path != "" && Join(path, j) == Join(path, k)
    ensures j == k
  {
    assert Join(path, j)[|path| + 1..] == j && Join(path, k)[|path| + 1..] == k;
  }

  predicate Misses(items: seq<Json>, path: string, k: string, p: string) {
    CountKey(items, k) < |items| && Join(path, k) == p
  }

  ghost predicate OneMisses(keys: seq<string>, items: seq<Json>, path: string, p: string) {
    exists k :: k in keys && Misses(items, path, k, p)
  }

  lemma OneMissesSnoc(keys: seq<string>, k: string, items: seq<Json>, path: string, p: string)
    ensures OneMisses(keys + [k], items, path, p) <==> OneMisses(keys, items, path, p) || Misses(items, path, k, p)
  {
    hide Misses;
    if OneMisses(keys, items, path, p) {
      var j :| j in keys && Misses(items, path, j, p);
      assert j in keys + [k];
    }
    assert k in keys + [k];
  }

  /** Keys listed once have one path each. */
  lemma MissesOnce(keys: seq<string>, k: string, items: seq<Json>, path: string, p: string)
    requires path != "" && k !in keys && Misses(items, path, k, p)
    ensures !OneMisses(keys, items, path, p)
  {
    hide CountKey, Join;
    if OneMisses(keys, items, path, p) {
      var j :| j in keys && Misses(items, path, j, p);
      JoinInjective(path, j, k);
    }
  }

  lemma OnceSnoc(keys: seq<string>)
    requires Once(keys) && keys != []
    ensures var n := |keys| - 1; Once(keys[..n]) && keys[n] !in keys[..n] && keys == keys[..n] + [keys[n]]
  {
  }

  lemma OptionalOfOps(keys: seq<string>, k: string, items: seq<Json>, path: string, p: string)
    ensures OpsAt(OptionalOf(keys + [k], items, path), p) ==
            OpsAt(OptionalOf(keys, items, path), p) + if Misses(items, path, k, p) then [MarkOptional] else []
  {
    hide CountKey, Join, OpsAt;
    assert (keys + [k])[..|keys|] == keys;
    var e := Event(Join(path, k), MarkOptional);
    var last := if CountKey(items, k) < |items| then [e] else [];
    OpsOne(e, p);
    OpsNone(p);
    OpsConcat(OptionalOf(keys, items, path), last, p);
  }

  lemma OpsNone(p: string)
    ensures OpsAt([], p) == []
  {
  }

  lemma {:induction false} OptionalOfAt(keys: seq<string>, items: seq<Json>, path: string, p: string)
    requires path != "" && Once(keys)
    ensures OpsAt(OptionalOf(keys, items, path), p) == if OneMisses(keys, items, path, p) then [MarkOptional] else []
  {
    hide OneMisses, Misses, Once, OpsAt, OptionalOf;
    if keys == [] {
      NoKeys(items, path, p);
    } else {
      OnceSnoc(keys);
      var n := |keys| - 1;
      OptionalOfAt(keys[..n], items, path, p);
      OptionalOfOps(keys[..n], keys[n], items, path, p);
      OneMissesSnoc(keys[..n], keys[n], items, path, p);
      if Misses(items, path, keys[n], p) {
        MissesOnce(keys[..n], keys[n], items, path, p);
      }
    }
  }

  lemma NoKeys(items: seq<Json>, path: string, p: string)
    ensures OpsAt(OptionalOf([], items, path), p) == [] && !OneMisses([], items, path, p)
  {
  }

  lemma OptionalAt(items: seq<Json>, path: string, p: string)
    requires AllObjects(items) && path != ""
    ensures OpsAt(OptionalEvents(items, path), p) == if OptionalHere(items, path, p) then [MarkOptional] else []
  {
    KeysSeenCounted(items, "");
    OptionalOfAt(KeysSeen(items), items, path, p);
    forall k ensures k in KeysSeen(items) <==> CountKey(items, k) > 0 {
      KeysSeenCounted(items, k);
    }
    hide CountKey, KeysSeen, Join, Once;
  }

  // ---------------------------------------------------------------- reordering keys

  ghost predicate AllReordered(xs: seq<Json>, ys: seq<Json>) {
    |ys| == |xs| && forall i | 0 <= i < |xs| :: Reordered(xs[i], ys[i])
  }

  lemma SameLook(x: Json, y: Json, k: string)
    requires Reordered(x, y)
    ensures HasField(x, k) == HasField(y, k) && x.Obj? == y.Obj? && x.Null? == y.Null? && ScalarType(x) == ScalarType(y)
  {
  }

  lemma {:induction false} SameCounts(xs: seq<Json>, ys: seq<Json>, k: string)
    requires AllReordered(xs, ys)
    ensures CountKey(xs, k) == CountKey(ys, k) && NonNullTypes(xs) == NonNullTypes(ys)
  {
    hide Reordered, HasField, ScalarType;
    if xs != [] {
      var n := |xs| - 1;
      SameCounts(xs[..n], ys[..n], k);
      SameLook(xs[n], ys[n], k);
    }
  }

  lemma SameObjects(xs: seq<Json>, ys: seq<Json>)
    requires AllReordered(xs, ys)
    ensures AllObjects(xs) == AllObjects(ys)
  {
    forall i | 0 <= i < |xs| ensures xs[i].Obj? == ys[i].Obj? {
      SameLook(xs[i], ys[i], "");
    }
  }

  lemma {:induction false} EmitReordered(path: string, a: Json, b: Json, p: string)
    requires path != "" && Reordered(a, b) && CleanKeys(a)
    ensures OpsAt(EmitEvents(path, a), p) == OpsAt(EmitEvents(path, b), p)
    decreases a, 1
  {
    if a.Obj? || a.Arr? {
      WalkReordered(a, b, path, p);
      var e := Event(path, Ensure(TObject));
      hide CleanKeys, Reordered;
      OpsConcat([e], WalkEvents(a, path), p);
      OpsConcat([e], WalkEvents(b, path), p);
    }
  }

  lemma {:induction false} WalkReordered(a: Json, b: Json, parent: string, p: string)
    requires Reordered(a, b) && CleanKeys(a)
    ensures OpsAt(WalkEvents(a, parent), p) == OpsAt(WalkEvents(b, parent), p)
    decreases a, 0
  {
    match a
    case Obj(fs) =>
      FieldsReordered(fs, b.fields, parent, p);
      var e := if parent != "" then [Event(parent, Ensure(TObject))] else [];
      hide CleanKeys, Reordered;
      OpsConcat(e, FieldEvents(fs, parent), p);
      OpsConcat(e, FieldEvents(b.fields, parent), p);
    case Arr(xs) =>
      ArrayReordered(xs, b.items, parent, p);
    case _ =>
  }

  lemma {:induction false} ArrayReordered(xs: seq<Json>, ys: seq<Json>, parent: string, p: string)
    requires AllReordered(xs, ys) && forall x | x in xs :: CleanKeys(x)
    ensures OpsAt(WalkEvents(Arr(xs), parent), p) == OpsAt(WalkEvents(Arr(ys), parent), p)
    decreases xs, 1
  {
    SameCounts(xs, ys, "");
    SameObjects(xs, ys);
    if xs != [] {
      if AllObjects(xs) {
        RowsReordered(xs, ys, ItemPath(parent), p);
        OptionalReordered(xs, ys, ItemPath(parent), p);
        hide CleanKeys, AllReordered;
        ObjectArrayOps(xs, parent, p);
        ObjectArrayOps(ys, parent, p);
      } else {
        ItemsReordered(xs, ys, ItemPath(parent), p);
        hide CleanKeys, AllReordered;
        MixedArrayOps(xs, parent, p);
        MixedArrayOps(ys, parent, p);
      }
    }
  }

  lemma OptionalReordered(xs: seq<Json>, ys: seq<Json>, path: string, p: string)
    requires AllReordered(xs, ys) && AllObjects(xs) && AllObjects(ys) && path != ""
    ensures OpsAt(OptionalEvents(xs, path), p) == OpsAt(OptionalEvents(ys, path), p)
  {
    OptionalAt(xs, path, p);
    OptionalAt(ys, path, p);
    forall k ensures CountKey(xs, k) == CountKey(ys, k) {
      SameCounts(xs, ys, k);
    }
    hide AllReordered, CountKey, OptionalEvents;
  }

  function ArrayOwn(parent: string): string {
    if parent != "" then parent else "[*]"
  }

  function OpHere(path: string, op: Op, p: string): seq<Op> {
    if path == p then [op] else []
  }

  /** The operations an array of objects files under a path, part by part. */
  lemma ObjectArrayOps(items: seq<Json>, parent: string, p: string)
    requires items != [] && AllObjects(items)
    ensures OpsAt(WalkEvents(Arr(items), parent), p) ==
            OpHere(ArrayOwn(parent), Ensure(TArray), p)
            + (OpHere(ArrayOwn(parent), SetItemType(TObject), p)
               + OpsAt(RowEvents(items, ItemPath(parent)), p) + OpsAt(OptionalEvents(items, ItemPath(parent)), p))
  {
    var ensure, kind := Event(ArrayOwn(parent), Ensure(TArray)), Event(ArrayOwn(parent), SetItemType(TObject));
    OpsFour([ensure], [kind], RowEvents(items, ItemPath(parent)), OptionalEvents(items, ItemPath(parent)), p);
    OpsOne(ensure, p);
    OpsOne(kind, p);
  }

  lemma MixedArrayOps(items: seq<Json>, parent: string, p: string)
    requires items != [] && !AllObjects(items)
    ensures OpsAt(WalkEvents(Arr(items), parent), p) ==
            OpHere(ArrayOwn(parent), Ensure(TArray), p)
            + (OpsAt(ItemEvents(items, ItemPath(parent)), p)
               + OpHere(ArrayOwn(parent), SetItemType(ItemType(items)), p))
  {
    var ensure, kind := Event(ArrayOwn(parent), Ensure(TArray)), Event(ArrayOwn(parent), SetItemType(ItemType(items)));
    OpsConcat(ItemEvents(items, ItemPath(parent)), [kind], p);
    OpsConcat([ensure], ItemEvents(items, ItemPath(parent)) + [kind], p);
    OpsOne(ensure, p);
    OpsOne(kind, p);
  }

  lemma {:induction false} FieldsReordered(fs: seq<Field>, gs: seq<Field>, parent: string, p: string)
    requires Reordered(Obj(fs), Obj(gs)) && forall f | f in fs :: CleanKey(f.key) && CleanKeys(f.value)
    ensures OpsAt(FieldEvents(fs, parent), p) == OpsAt(FieldEvents(gs, parent), p)
    decreases fs, 0
  {
    forall g | g in gs ensures CleanKey(g.key) {
      var j :| 0 <= j < |gs| && gs[j] == g;
      assert g.key in Keys(fs);
      var i :| 0 <= i < |fs| && fs[i].key == g.key;
      assert fs[i] in fs;
    }
    hide CleanKey, Under, Join;
    if i :| 0 <= i < |fs| && Under(Join(parent, fs[i].key), p) {
      var k := fs[i].key;
      assert fs[i] in fs && k in Keys(gs);
      var j :| 0 <= j < |gs| && gs[j].key == k;
      GetIs(fs, i);
      GetIs(gs, j);
      assert Reordered(fs[i].value, gs[j].value);
      FieldsAt(fs, parent, p, i);
      FieldsAt(gs, parent, p, j);
      CleanJoin(parent, k);
      EmitReordered(Join(parent, k), fs[i].value, gs[j].value, p);
    } else {
      forall g | g in gs ensures !Under(Join(parent, g.key), p) {
        assert g.key in Keys(fs);
      }
      FieldsNone(fs, parent, p);
      FieldsNone(gs, parent, p);
    }
  }

  lemma {:induction false} RowsReordered(xs: seq<Json>, ys: seq<Json>, path: string, p: string)
    requires AllReordered(xs, ys) && (forall x | x in xs :: CleanKeys(x)) && AllObjects(xs) && AllObjects(ys)
    ensures OpsAt(RowEvents(xs, path), p) == OpsAt(RowEvents(ys, path), p)
    decreases xs, 0
  {
    if xs != [] {
      var n := |xs| - 1;
      RowsReordered(xs[..n], ys[..n], path, p);
      assert Reordered(xs[n], ys[n]) && CleanKeys(xs[n]);
      FieldsReordered(xs[n].fields, ys[n].fields, path, p);
      hide CleanKeys, AllReordered;
      OpsConcat(RowEvents(xs[..n], path), FieldEvents(xs[n].fields, path), p);
      OpsConcat(RowEvents(ys[..n], path), FieldEvents(ys[n].fields, path), p);
    }
  }

  lemma {:induction false} ItemsReordered(xs: seq<Json>, ys: seq<Json>, path: string, p: string)
    requires AllReordered(xs, ys) && (forall x | x in xs :: CleanKeys(x)) && path != ""
    ensures OpsAt(ItemEvents(xs, path), p) == OpsAt(ItemEvents(ys, path), p)
    decreases xs, 0
  {
    if xs != [] {
      var n := |xs| - 1;
      ItemsReordered(xs[..n], ys[..n], path, p);
      assert Reordered(xs[n], ys[n]) && CleanKeys(xs[n]);
      EmitReordered(path, xs[n], ys[n], p);
      hide CleanKeys, AllReordered;
      OpsConcat(ItemEvents(xs[..n], path), EmitEvents(path, xs[n]), p);
      OpsConcat(ItemEvents(ys[..n], path), EmitEvents(path, ys[n]), p);
    }
  }

  // ---------------------------------------------------------------- the theorem

  /** Reordering keys at any depth changes no node, not even an example value. */
  lemma KeyOrderIrrelevant(a: Json, b: Json)
    requires Reordered(a, b) && CleanKeys(a)
    ensures InferSchema(a) == InferSchema(b)
  {
    forall p ensures OpsAt(WalkEvents(a, ""), p) == OpsAt(WalkEvents(b, ""), p) {
      WalkReordered(a, b, "", p);
    }
    SameOpsSameStates(WalkEvents(a, ""), WalkEvents(b, ""));
  }

  /** So inference on the key-sorted body of the normalizer and on the body as received agree. */
  lemma SortingKeysIrrelevant(body: Json)
    requires WellFormed(body) && CleanKeys(body)
    ensures InferSchema(SortKeys(body)) == InferSchema(body)
  {
    SortKeysReorders(body);
    KeyOrderIrrelevant(body, SortKeys(body));
  }
}
