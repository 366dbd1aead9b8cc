/** When the order of array items reaches the inferred schema, and when it does not. */
module InferenceArrayOrder {
  import opened Options
  import opened Collections
  import opened JsonValues
  import opened Paths
  import opened SchemaInference
  import opened InferenceSummary
  import opened InferenceKeyOrder
  import opened InferenceItemOrder

  /** A scalar, or an object of scalars. */
  ghost predicate FlatItem(x: Json) {
    x.IsScalar() || (x.Obj? && forall f | f in x.fields :: f.value.IsScalar())
  }

  ghost predicate FlatItems(items: seq<Json>) {
    forall x | x in items :: FlatItem(x)
  }

  function Itself(x: Json): seq<Json> {
    if x.IsScalar() then [x] else []
  }

  function ScalarsOf(items: seq<Json>): seq<Json> {
    Chunks(Itself, items)
  }

  /** Only scalars, only objects, or scalars of at least two types other than `null`. */
  ghost predicate OrderFree(items: seq<Json>) {
    Scalars(items) || AllObjects(items) || |NonNullTypes(ScalarsOf(items))| >= 2
  }

  // ---------------------------------------------------------------- the operations of flat items, path by path

  lemma {:induction false} FlatFieldsOps(fields: seq<Field>, path: string, p: string)
    requires forall f | f in fields :: f.value.IsScalar()
    ensures ScalarOps(OpsAt(FieldEvents(fields, path), p))
  {
    if fields != [] {
      var n := |fields| - 1;
      FlatFieldsOps(fields[..n], path, p);
      assert fields[n] in fields;
      var e := Event(Join(path, fields[n].key), Observe(fields[n].value));
      OpsConcat(FieldEvents(fields[..n], path), [e], p);
      OpsOne(e, p);
    }
  }

  /** A flat item: a scalar is observed at its path, an object ensured there twice; elsewhere only scalars are observed. */
  lemma FlatItemOps(x: Json, path: string, p: string)
    requires FlatItem(x) && path != ""
    ensures var ops := OpsAt(EmitEvents(path, x), p);
            if p != path then ScalarOps(ops)
            else ops == if x.Obj? then [Ensure(TObject), Ensure(TObject)] else [Observe(x)]
  {
    if x.Obj? {
      var e := Event(path, Ensure(TObject));
      OpsOne(e, p);
      OpsConcat([e], FieldEvents(x.fields, path), p);
      OpsConcat([e], [e] + FieldEvents(x.fields, path), p);
      OwnFields(x.fields, path);
      FlatFieldsOps(x.fields, path, p);
      hide FieldEvents;
    } else {
      OpsOne(Event(path, Observe(x)), p);
    }
  }

  lemma {:induction false} ItemsElsewhere(items: seq<Json>, path: string, p: string, f: Json -> seq<Op>)
    requires FlatItems(items) && path != "" && p != path
    requires forall x :: f(x) == OpsAt(EmitEvents(path, x), p)
    ensures OpsAt(ItemEvents(items, path), p) == Chunks(f, items) && ScalarOps(Chunks(f, items))
  {
    hide EmitEvents, FlatItem;
    if items != [] {
      var n := |items| - 1;
      ItemsElsewhere(items[..n], path, p, f);
      assert items[n] in items;
      FlatItemOps(items[n], path, p);
      OpsConcat(ItemEvents(items[..n], path), EmitEvents(path, items[n]), p);
    }
  }

  lemma {:induction false} RowChunks(items: seq<Json>, path: string, p: string, f: Json -> seq<Op>)
    requires FlatItems(items) && AllObjects(items)
    requires forall x: Json | x.Obj? :: f(x) == OpsAt(FieldEvents(x.fields, path), p)
    ensures OpsAt(RowEvents(items, path), p) == Chunks(f, items) && ScalarOps(Chunks(f, items))
  {
    if items != [] {
      var n := |items| - 1;
      RowChunks(items[..n], path, p, f);
      assert items[n] in items;
      FlatFieldsOps(items[n].fields, path, p);
      hide FieldEvents;
      OpsConcat(RowEvents(items[..n], path), FieldEvents(items[n].fields, path), p);
    }
  }

  lemma RowsPermuted(xs: seq<Json>, ys: seq<Json>, path: string, p: string)
    requires multiset(xs) == multiset(ys) && FlatItems(xs) && FlatItems(ys) && AllObjects(xs) && AllObjects(ys)
    ensures multiset(OpsAt(RowEvents(xs, path), p)) == multiset(OpsAt(RowEvents(ys, path), p))
    ensures ScalarOps(OpsAt(RowEvents(ys, path), p))
  {
    var f := (x: Json) => OpsAt(FieldEvents(if x.Obj? then x.fields else [], path), p);
    RowChunks(xs, path, p, f);
    RowChunks(ys, path, p, f);
    ChunksPermuted(f, xs, ys);
  }

  lemma ItemsPermutedElsewhere(xs: seq<Json>, ys: seq<Json>, path: string, p: string)
    requires multiset(xs) == multiset(ys) && FlatItems(xs) && FlatItems(ys) && path != "" && p != path
    ensures multiset(OpsAt(ItemEvents(xs, path), p)) == multiset(OpsAt(ItemEvents(ys, path), p))
    ensures ScalarOps(OpsAt(ItemEvents(ys, path), p))
  {
    var f := (x: Json) => OpsAt(EmitEvents(path, x), p);
    ItemsElsewhere(xs, path, p, f);
    ItemsElsewhere(ys, path, p, f);
    ChunksPermuted(f, xs, ys);
  }

  // ---------------------------------------------------------------- the one path the items share

  /** Only an object that comes first on a new path leaves a trace there: the type it starts with. */
  ghost function Started(s: Option<NodeState>, items: seq<Json>): Option<NodeState> {
    if s == None && items != [] && items[0].Obj? then Some(Fresh(TObject)) else s
  }

  lemma FoldObject(s: Option<NodeState>, a: seq<Op>)
    ensures var t := Fold(s, a);
            Fold(s, a + [Ensure(TObject), Ensure(TObject)]) == if t.Some? then t else Some(Fresh(TObject))
  {
    FoldTwo(s, a, Ensure(TObject), Ensure(TObject));
  }

  lemma ObservationsSnoc(values: seq<Json>, v: Json)
    ensures Observations(values + [v]) == Observations(values) + [Observe(v)]
  {
    assert (values + [v])[..|values|] == values;
  }

  lemma ScalarsSnoc(items: seq<Json>, x: Json)
    ensures ScalarsOf(items + [x]) == if x.IsScalar() then ScalarsOf(items) + [x] else ScalarsOf(items)
  {
    assert (items + [x])[..|items|] == items;
  }

  lemma LastItemOps(front: seq<Json>, x: Json, path: string, p: string)
    ensures OpsAt(ItemEvents(front + [x], path), p) == OpsAt(ItemEvents(front, path), p) + OpsAt(EmitEvents(path, x), p)
  {
    hide OpsAt, EmitEvents;
    assert (front + [x])[..|front|] == front;
    OpsConcat(ItemEvents(front, path), EmitEvents(path, x), p);
  }

  /** At the path of the items, flat items act as their scalars do. */
  lemma {:induction false} ItemsHere(s: Option<NodeState>, items: seq<Json>, path: string)
    requires FlatItems(items) && path != ""
    ensures Fold(s, OpsAt(ItemEvents(items, path), path)) == Fold(Started(s, items), Observations(ScalarsOf(items)))
    ensures items != [] ==> Fold(s, OpsAt(ItemEvents(items, path), path)).Some?
  {
    hide Apply, Fold, EmitEvents, ItemEvents, OpsAt, Observations, ScalarsOf, FlatItem;
    NoScalars();
    NoItems(path);
    FoldNone(s);
    if items != [] {
      var n := |items| - 1;
      var front, x := items[..n], items[n];
      assert items == front + [x] && x in items;
      ItemsHere(s, front, path);
      FlatItemOps(x, path, path);
      FlatKinds(x);
      LastItemOps(front, x, path, path);
      ScalarsSnoc(front, x);
      LastItemHere(s, front, x, OpsAt(ItemEvents(front, path), path), ScalarsOf(front));
    }
  }

  lemma NoItems(path: string)
    ensures OpsAt(ItemEvents([], path), path) == []
  {
  }

  lemma LastItemHere(s: Option<NodeState>, front: seq<Json>, x: Json, before: seq<Op>, values: seq<Json>)
    requires Fold(s, before) == Fold(Started(s, front), Observations(values))
    requires if front == [] then before == [] && values == [] else Fold(s, before).Some?
    ensures x.Obj? ==> var t := Fold(s, before + [Ensure(TObject), Ensure(TObject)]);
                       t.Some? && t == Fold(Started(s, front + [x]), Observations(values))
    ensures !x.Obj? ==> var t := Fold(s, before + [Observe(x)]);
                        t.Some? && t == Fold(Started(s, front + [x]), Observations(values + [x]))
  {
    hide Apply, Fold, Observations;
    NoScalars();
    FoldNone(s);
    FoldNone(Started(s, [x]));
    assert front == [] ==> front + [x] == [x];
    assert front != [] ==> Started(s, front + [x]) == Started(s, front);
    if x.Obj? {
      FoldObject(s, before);
    } else {
      ObservationsSnoc(values, x);
      FoldSnoc(s, before, Observe(x));
      FoldSnoc(Started(s, front), Observations(values), Observe(x));
      ApplyObserves(Fold(s, before), x);
    }
  }

  lemma NoScalars()
    ensures ScalarsOf([]) == [] && Observations([]) == []
  {
  }

  lemma FoldNone(s: Option<NodeState>)
    ensures Fold(s, []) == s
  {
  }

  lemma FlatKinds(x: Json)
    requires FlatItem(x)
    ensures x.Obj? <==> !x.IsScalar()
  {
  }

  lemma ApplyObserves(s: Option<NodeState>, v: Json)
    ensures Apply(s, Observe(v)).Some?
  {
  }

  /** `b` saw an object before what `a` saw: it has no scalar type of its own any more. */
  ghost predicate ObjectBefore(a: NodeState, b: NodeState) {
    (a.type_ == TNull ==> a.nullable) && b == a.(type_ := if a.type_ == TNull then TObject else TMixed)
  }

  lemma RetypeAfterObject(a: NodeState, b: NodeState, t: JsonType)
    requires ObjectBefore(a, b) && t != TNull && t != TObject && t != TMixed
    ensures ObjectBefore(WithType(a, t), WithType(b, t)) && WithType(b, t).type_ == TMixed && WithType(a, t).type_ != TNull
  {
  }

  lemma ExampleAfterObject(a: NodeState, b: NodeState, v: Json)
    requires ObjectBefore(a, b)
    ensures ObjectBefore(WithExample(a, v), WithExample(b, v))
  {
  }

  lemma StringAfterObject(a: NodeState, b: NodeState, v: string)
    requires ObjectBefore(a, b)
    ensures ObjectBefore(WithString(a, v), WithString(b, v))
  {
  }

  lemma ObserveAfterObject(a: NodeState, b: NodeState, v: Json)
    requires ObjectBefore(a, b) && v.IsScalar()
    ensures ObjectBefore(ObserveScalar(a, v), ObserveScalar(b, v))
  {
    hide WithType, WithExample, WithString;
    if !v.Null? {
      hide ObjectBefore;
      var t := ScalarType(v);
      RetypeAfterObject(a, b, t);
      ExampleAfterObject(WithType(a, t), WithType(b, t), v);
      if v.Str? {
        StringAfterObject(WithExample(WithType(a, t), v), WithExample(WithType(b, t), v), v.s);
      }
    }
  }

  lemma FirstAfterObject(v: Json)
    requires v.IsScalar()
    ensures ObjectBefore(ObserveScalar(Fresh(ScalarType(v)), v), ObserveScalar(Fresh(TObject), v))
  {
    NullHasNullType(v);
    if !v.Null? {
      assert ScalarType(v) != TObject && ScalarType(v) != TMixed;
    }
  }

  lemma {:induction false} ObjectFirst(values: seq<Json>)
    requires Scalars(values) && values != []
    ensures var a, b := Fold(None, Observations(values)), Fold(Some(Fresh(TObject)), Observations(values));
            a.Some? && b.Some? && ObjectBefore(a.value, b.value)
  {
    hide ObserveScalar, ObjectBefore;
    var n := |values| - 1;
    var front, v := values[..n], values[n];
    assert v in values && values == front + [v];
    ObservationsSnoc(front, v);
    FoldSnoc(None, Observations(front), Observe(v));
    FoldSnoc(Some(Fresh(TObject)), Observations(front), Observe(v));
    if n == 0 {
      FirstAfterObject(v);
      assert Observations(front) == [] && Fold(None, Observations(front)) == None;
    } else {
      ObjectFirst(front);
      ObserveAfterObject(Fold(None, Observations(front)).value, Fold(Some(Fresh(TObject)), Observations(front)).value, v);
    }
  }

  /** The type a new item path ends with. */
  ghost function EndType(items: seq<Json>): JsonType {
    var t := ItemType(ScalarsOf(items));
    if items != [] && items[0].Obj? then if t == TNull then TObject else TMixed else t
  }

  lemma {:induction false} ScalarsAreScalars(items: seq<Json>)
    ensures Scalars(ScalarsOf(items))
  {
    if items != [] {
      var n := |items| - 1;
      ScalarsAreScalars(items[..n]);
      assert items == items[..n] + [items[n]];
      ScalarsSnoc(items[..n], items[n]);
    }
  }

  lemma {:induction false} ScalarsIn(items: seq<Json>, x: Json)
    ensures x in ScalarsOf(items) <==> x in items && x.IsScalar()
  {
    if items != [] {
      var n := |items| - 1;
      ScalarsIn(items[..n], x);
      assert items == items[..n] + [items[n]];
      ScalarsSnoc(items[..n], items[n]);
    }
  }

  lemma EndTypeIs(items: seq<Json>, path: string)
    requires FlatItems(items) && path != "" && items != [] && !AllObjects(items)
    ensures var s := Fold(None, OpsAt(ItemEvents(items, path), path)); s.Some? && s.value.type_ == EndType(items)
  {
    hide ItemType, ItemEvents, Observations, ScalarsOf;
    var values := ScalarsOf(items);
    var x :| x in items && !x.Obj?;
    assert FlatItem(x);
    ScalarsIn(items, x);
    ScalarsAreScalars(items);
    ItemsHere(None, items, path);
    FoldIsSummary(values);
    ObjectFirst(values);
    hide Fold;
  }

  // ---------------------------------------------------------------- permuted arrays

  lemma {:induction false} CountChunks(items: seq<Json>, k: string, f: Json -> seq<Op>)
    requires forall x: Json :: f(x) == if HasField(x, k) then [MarkOptional] else []
    ensures |Chunks(f, items)| == CountKey(items, k)
  {
    hide HasField;
    if items != [] {
      CountChunks(items[..|items| - 1], k, f);
    }
  }

  lemma CountPermuted(xs: seq<Json>, ys: seq<Json>, k: string)
    requires multiset(xs) == multiset(ys)
    ensures CountKey(xs, k) == CountKey(ys, k)
  {
    var f := (x: Json) => if HasField(x, k) then [MarkOptional] else [];
    CountChunks(xs, k, f);
    CountChunks(ys, k, f);
    ChunksPermuted(f, xs, ys);
    SameMembers(Chunks(f, xs), Chunks(f, ys));
  }

  lemma SameOptional(xs: seq<Json>, ys: seq<Json>, path: string, p: string)
    requires |xs| == |ys| && AllObjects(xs) && AllObjects(ys) && path != ""
    requires forall k :: CountKey(xs, k) == CountKey(ys, k)
    ensures OpsAt(OptionalEvents(xs, path), p) == OpsAt(OptionalEvents(ys, path), p)
  {
    OptionalAt(xs, path, p);
    OptionalAt(ys, path, p);
    hide CountKey, OptionalEvents, AllObjects;
  }

  lemma TypesPermuted(xs: seq<Json>, ys: seq<Json>)
    requires multiset(xs) == multiset(ys)
    ensures NonNullTypes(xs) == NonNullTypes(ys) && ItemType(xs) == ItemType(ys)
  {
    SameMembers(xs, ys);
    forall t ensures t in NonNullTypes(xs) <==> t in NonNullTypes(ys) {
      TypesSeen(xs, t);
      TypesSeen(ys, t);
    }
    assert NonNullTypes(xs) == NonNullTypes(ys);
  }

  function Seen(v: Json): seq<Op> {
    [Observe(v)]
  }

  lemma {:induction false} ObservationsAreChunks(values: seq<Json>)
    ensures Observations(values) == Chunks(Seen, values)
  {
    if values != [] {
      ObservationsAreChunks(values[..|values| - 1]);
    }
  }

  lemma {:induction false} ObservationsScalar(values: seq<Json>)
    requires Scalars(values)
    ensures ScalarOps(Observations(values))
  {
    if values != [] {
      var n := |values| - 1;
      assert values[n] in values;
      ObservationsScalar(values[..n]);
    }
  }

  /** Seen from any one state, the scalars of permuted items leave the same structure. */
  lemma ScalarsPermuted(s: Option<NodeState>, xs: seq<Json>, ys: seq<Json>)
    requires multiset(xs) == multiset(ys)
    ensures multiset(ScalarsOf(xs)) == multiset(ScalarsOf(ys))
    ensures Same(Fold(s, Observations(ScalarsOf(xs))), Fold(s, Observations(ScalarsOf(ys))))
  {
    var vs, ws := ScalarsOf(xs), ScalarsOf(ys);
    ChunksPermuted(Itself, xs, ys);
    ObservationsAreChunks(vs);
    ObservationsAreChunks(ws);
    ChunksPermuted(Seen, vs, ws);
    ScalarsAreScalars(ys);
    ObservationsScalar(ws);
    PermutedSame(s, Observations(vs), Observations(ws));
  }

  /** Two scalar types end mixed, whether an object came first or not. */
  lemma TwoTypesEndMixed(values: seq<Json>)
    requires Scalars(values) && |NonNullTypes(values)| >= 2
    ensures Fold(None, Observations(values)) == Fold(Some(Fresh(TObject)), Observations(values))
  {
    assert values != [];
    FoldIsSummary(values);
    ObjectFirst(values);
    hide NonNullTypes, Observations, Fold, StringsSeen, FirstExample;
  }

  lemma SameItemsHere(s: Option<NodeState>, xs: seq<Json>, ys: seq<Json>, path: string)
    requires multiset(xs) == multiset(ys) && FlatItems(xs) && FlatItems(ys) && path != ""
    requires s.Some? || Scalars(xs) || |NonNullTypes(ScalarsOf(xs))| >= 2
    ensures Same(Fold(s, OpsAt(ItemEvents(xs, path), path)), Fold(s, OpsAt(ItemEvents(ys, path), path)))
  {
    hide Fold, Observations, ScalarsOf, ItemEvents, OpsAt, NonNullTypes, Structure, FlatItem;
    ItemsHere(s, xs, path);
    ItemsHere(s, ys, path);
    ScalarsPermuted(Started(s, xs), xs, ys);
    if Started(s, xs) != Started(s, ys) {
      SameMembers(xs, ys);
      assert xs[0] in xs && ys[0] in ys;
      ScalarsAreScalars(ys);
      TypesPermuted(ScalarsOf(xs), ScalarsOf(ys));
      TwoTypesEndMixed(ScalarsOf(ys));
    }
  }

  lemma AroundSame(s: Option<NodeState>, a: seq<Op>, xs: seq<Op>, ys: seq<Op>, b: seq<Op>)
    requires Same(Fold(Fold(s, a), xs), Fold(Fold(s, a), ys))
    ensures Same(Fold(s, a + (xs + b)), Fold(s, a + (ys + b)))
  {
    FoldConcat(s, a, xs + b);
    FoldConcat(s, a, ys + b);
    FoldConcat(Fold(s, a), xs, b);
    FoldConcat(Fold(s, a), ys, b);
    FoldSame(Fold(Fold(s, a), xs), Fold(Fold(s, a), ys), b);
  }

  lemma RowPartsPermuted(xs: seq<Json>, ys: seq<Json>, path: string, p: string)
    requires multiset(xs) == multiset(ys) && path != ""
    requires FlatItems(xs) && FlatItems(ys) && AllObjects(xs) && AllObjects(ys)
    ensures multiset(OpsAt(RowEvents(xs, path), p)) == multiset(OpsAt(RowEvents(ys, path), p))
    ensures ScalarOps(OpsAt(RowEvents(ys, path), p))
    ensures OpsAt(OptionalEvents(xs, path), p) == OpsAt(OptionalEvents(ys, path), p)
  {
    hide AllObjects, FlatItems, RowEvents, OptionalEvents, CountKey, OpsAt;
    RowsPermuted(xs, ys, path, p);
    SameMembers(xs, ys);
    forall k ensures CountKey(xs, k) == CountKey(ys, k) {
      CountPermuted(xs, ys, k);
    }
    SameOptional(xs, ys, path, p);
  }

  lemma RowsPermutedAt(s: Option<NodeState>, xs: seq<Json>, ys: seq<Json>, parent: string, p: string)
    requires multiset(xs) == multiset(ys) && xs != [] && ys != []
    requires FlatItems(xs) && FlatItems(ys) && AllObjects(xs) && AllObjects(ys)
    ensures Same(Fold(s, OpsAt(WalkEvents(Arr(xs), parent), p)), Fold(s, OpsAt(WalkEvents(Arr(ys), parent), p)))
  {
    hide Fold, ItemPath, ArrayOwn, OpHere, Same, AllObjects, FlatItems, WalkEvents, RowEvents, OptionalEvents, OpsAt;
    var path := ItemPath(parent);
    ItemPathNonEmpty(parent);
    ObjectArrayOps(xs, parent, p);
    ObjectArrayOps(ys, parent, p);
    RowPartsPermuted(xs, ys, path, p);
    var a, k := OpHere(ArrayOwn(parent), Ensure(TArray), p), OpHere(ArrayOwn(parent), SetItemType(TObject), p);
    var o := OpsAt(OptionalEvents(xs, path), p);
    var rx, ry := OpsAt(RowEvents(xs, path), p), OpsAt(RowEvents(ys, path), p);
    PermutedSame(Fold(s, a + k), rx, ry);
    AroundSame(s, a + k, rx, ry, o);
    assert a + (k + rx + o) == a + k + (rx + o);
    assert a + (k + ry + o) == a + k + (ry + o);
  }

  lemma RootItemPath(parent: string)
    ensures ArrayOwn(parent) == ItemPath(parent) <==> parent == ""
  {
  }

  lemma EnsureFirst(s: Option<NodeState>)
    ensures Fold(s, [Ensure(TArray)]).Some?
  {
    FoldSnoc(s, [], Ensure(TArray));
    assert [] + [Ensure(TArray)] == [Ensure(TArray)];
  }

  /** At the path of its items a root array has an accumulator before the first of them, its own. */
  ghost predicate OrderHidden(s: Option<NodeState>, items: seq<Json>, parent: string, p: string) {
    p == ItemPath(parent) ==> OrderFree(items) || parent == "" || s.Some?
  }

  lemma MixedPermutedAt(s: Option<NodeState>, xs: seq<Json>, ys: seq<Json>, parent: string, p: string)
    requires multiset(xs) == multiset(ys) && xs != [] && ys != []
    requires FlatItems(xs) && FlatItems(ys) && !AllObjects(xs) && !AllObjects(ys) && OrderHidden(s, xs, parent, p)
    ensures Same(Fold(s, OpsAt(WalkEvents(Arr(xs), parent), p)), Fold(s, OpsAt(WalkEvents(Arr(ys), parent), p)))
  {
    hide Fold, Structure, ItemPath, ArrayOwn, AllObjects, FlatItems, Scalars, ScalarsOf, WalkEvents, ItemEvents, ItemType;
    var path := ItemPath(parent);
    ItemPathNonEmpty(parent);
    RootItemPath(parent);
    MixedArrayOps(xs, parent, p);
    MixedArrayOps(ys, parent, p);
    TypesPermuted(xs, ys);
    var a, k := OpHere(ArrayOwn(parent), Ensure(TArray), p), OpHere(ArrayOwn(parent), SetItemType(ItemType(xs)), p);
    var ix, iy := OpsAt(ItemEvents(xs, path), p), OpsAt(ItemEvents(ys, path), p);
    EnsureFirst(s);
    FoldNone(s);
    if p == path {
      SameItemsHere(Fold(s, a), xs, ys, path);
    } else {
      ItemsPermutedElsewhere(xs, ys, path, p);
      PermutedSame(Fold(s, a), ix, iy);
    }
    AroundSame(s, a, ix, iy, k);
  }

  lemma FlatPermuted(xs: seq<Json>, ys: seq<Json>)
    requires multiset(xs) == multiset(ys)
    ensures FlatItems(xs) <==> FlatItems(ys)
    ensures AllObjects(xs) <==> AllObjects(ys)
    ensures xs == [] <==> ys == []
  {
    hide FlatItem;
    SameMembers(xs, ys);
  }

  /** From any accumulator of any path, permuted flat items leave the same structure, unless it is the item path itself. */
  lemma ArrayPermutedAt(s: Option<NodeState>, xs: seq<Json>, ys: seq<Json>, parent: string, p: string)
    requires multiset(xs) == multiset(ys) && FlatItems(xs) && OrderHidden(s, xs, parent, p)
    ensures Same(Fold(s, OpsAt(WalkEvents(Arr(xs), parent), p)), Fold(s, OpsAt(WalkEvents(Arr(ys), parent), p)))
  {
    hide Fold, WalkEvents, FlatItems, AllObjects, OrderHidden;
    FlatPermuted(xs, ys);
    if xs != [] {
      if AllObjects(xs) {
        RowsPermutedAt(s, xs, ys, parent, p);
      } else {
        MixedPermutedAt(s, xs, ys, parent, p);
      }
    }
  }

  // ---------------------------------------------------------------- exactly when the order shows

  ghost predicate SameStates(x: States, y: States) {
    forall p :: Same(StateAt(x, p), StateAt(y, p))
  }

  /** Walking the items in any other order leaves the same structure at every path. */
  ghost predicate AnyOrder(m: States, items: seq<Json>, parent: string) {
    forall others | multiset(others) == multiset(items) ::
      SameStates(Run(m, WalkEvents(Arr(items), parent)), Run(m, WalkEvents(Arr(others), parent)))
  }

  lemma ArrayPermuted(m: States, xs: seq<Json>, ys: seq<Json>, parent: string)
    requires multiset(xs) == multiset(ys) && FlatItems(xs)
    requires OrderFree(xs) || parent == "" || ItemPath(parent) in m
    ensures SameStates(Run(m, WalkEvents(Arr(xs), parent)), Run(m, WalkEvents(Arr(ys), parent)))
  {
    hide FlatItems, OrderFree, Run, WalkEvents, Structure;
    forall p ensures Same(StateAt(Run(m, WalkEvents(Arr(xs), parent)), p), StateAt(Run(m, WalkEvents(Arr(ys), parent)), p)) {
      RunAt(m, WalkEvents(Arr(xs), parent), p);
      RunAt(m, WalkEvents(Arr(ys), parent), p);
      ArrayPermutedAt(StateAt(m, p), xs, ys, parent, p);
    }
  }

  lemma Moved(items: seq<Json>, i: nat) returns (others: seq<Json>)
    requires i < |items|
    ensures multiset(others) == multiset(items) && others != [] && others[0] == items[i]
  {
    others := [items[i]] + items[..i] + items[i + 1..];
    assert items == items[..i] + [items[i]] + items[i + 1..];
  }

  /** Items that are neither all scalars nor all objects can be put in an order that starts with the other kind. */
  lemma OtherFirst(items: seq<Json>) returns (others: seq<Json>)
    requires FlatItems(items) && !Scalars(items) && !AllObjects(items)
    ensures multiset(others) == multiset(items) && items != [] && others != []
    ensures items[0].Obj? != others[0].Obj?
  {
    var x :| x in items && !x.IsScalar();
    var y :| y in items && !y.Obj?;
    assert FlatItem(x) && FlatItem(y);
    var i :| 0 <= i < |items| && items[i] == if items[0].Obj? then y else x;
    others := Moved(items, i);
  }

  lemma TypeAtItems(m: States, items: seq<Json>, parent: string)
    requires FlatItems(items) && items != [] && !AllObjects(items) && parent != "" && ItemPath(parent) !in m
    ensures var s := StateAt(Run(m, WalkEvents(Arr(items), parent)), ItemPath(parent));
            s.Some? && s.value.type_ == EndType(items)
  {
    hide FlatItems, AllObjects, Run, WalkEvents, ItemEvents, ItemPath, ArrayOwn, EndType, Fold, ItemType;
    var path := ItemPath(parent);
    RootItemPath(parent);
    ItemPathNonEmpty(parent);
    RunAt(m, WalkEvents(Arr(items), parent), path);
    MixedArrayOps(items, parent, path);
    var ops := OpsAt(ItemEvents(items, path), path);
    assert [] + (ops + []) == ops;
    EndTypeIs(items, path);
  }

  /** With at most one scalar type, an object first and a scalar first end with different types. */
  lemma FirstKindShows(xs: seq<Json>, ys: seq<Json>)
    requires multiset(xs) == multiset(ys) && FlatItems(xs) && !OrderFree(xs) && xs != [] && ys != []
    requires xs[0].Obj? != ys[0].Obj?
    ensures EndType(xs) != EndType(ys)
  {
    ScalarsPermuted(None, xs, ys);
    TypesPermuted(ScalarsOf(xs), ScalarsOf(ys));
    ScalarsAreScalars(xs);
    NotMixed(ScalarsOf(xs));
    hide ItemType, ScalarsOf, NonNullTypes, Scalars, AllObjects;
  }

  lemma NotMixed(values: seq<Json>)
    requires Scalars(values) && |NonNullTypes(values)| < 2
    ensures ItemType(values) != TMixed && ItemType(values) != TObject
  {
    var ts := NonNullTypes(values);
    TypesSeen(values, TMixed);
    TypesSeen(values, TObject);
    if |ts| == 0 {
      assert ts == {};
    } else {
      assert |ts| == 1 && TheOnly(ts) in ts;
    }
  }

  lemma OrderShows(m: States, xs: seq<Json>, parent: string) returns (ys: seq<Json>)
    requires FlatItems(xs) && !OrderFree(xs) && parent != "" && ItemPath(parent) !in m
    ensures multiset(ys) == multiset(xs) && ItemPath(parent) != ""
    ensures var s, t := StateAt(Run(m, WalkEvents(Arr(xs), parent)), ItemPath(parent)),
                        StateAt(Run(m, WalkEvents(Arr(ys), parent)), ItemPath(parent));
            s.Some? && t.Some? && s.value.type_ != t.value.type_
  {
    ys := OtherFirst(xs);
    FlatPermuted(xs, ys);
    FirstKindShows(xs, ys);
    hide Run, WalkEvents, EndType, FlatItems, AllObjects;
    TypeAtItems(m, xs, parent);
    TypeAtItems(m, ys, parent);
  }

  /**
    * For scalars and flat objects, exactly when the order of the items leaves the schema alone: the items are all
    * scalars, all objects, or show two scalar types; or their path was known before, as it is at the root.
    */
  lemma ArrayOrderExact(m: States, xs: seq<Json>, parent: string)
    requires FlatItems(xs)
    ensures AnyOrder(m, xs, parent) <==> OrderFree(xs) || parent == "" || ItemPath(parent) in m
  {
    hide FlatItems, OrderFree, Run, WalkEvents;
    if OrderFree(xs) || parent == "" || ItemPath(parent) in m {
      forall ys | multiset(ys) == multiset(xs)
        ensures SameStates(Run(m, WalkEvents(Arr(xs), parent)), Run(m, WalkEvents(Arr(ys), parent)))
      {
        ArrayPermuted(m, xs, ys, parent);
      }
    } else {
      var ys := OrderShows(m, xs, parent);
      var x, y := Run(m, WalkEvents(Arr(xs), parent)), Run(m, WalkEvents(Arr(ys), parent));
      assert !Same(StateAt(x, ItemPath(parent)), StateAt(y, ItemPath(parent)));
    }
  }

  // ---------------------------------------------------------------- the hash of a document

  function Holding(k: string, items: seq<Json>): Json {
    Obj([Field(k, Arr(items))])
  }

  lemma HoldingEvents(k: string, items: seq<Json>)
    ensures WalkEvents(Holding(k, items), "") == WalkEvents(Arr(items), k)
  {
    var f := Field(k, Arr(items));
    assert [f][..0] == [];
    assert FieldEvents([f], "") == EmitEvents(Join("", k), Arr(items));
  }

  /** The schema hash of an array of scalars and flat objects that is the whole document ignores the order of its items. */
  lemma RootOrderIrrelevant(xs: seq<Json>, ys: seq<Json>)
    requires multiset(xs) == multiset(ys) && FlatItems(xs)
    ensures HashInput(InferSchema(Arr(xs))) == HashInput(InferSchema(Arr(ys)))
  {
    hide FlatItems, OrderFree, Run, WalkEvents, FinalNodes, HashInput;
    ArrayPermuted(map[], xs, ys, "");
    SameStatesSameHash(Run(map[], WalkEvents(Arr(xs), "")), Run(map[], WalkEvents(Arr(ys), "")));
  }

  /** Held by a member of the document, it does so exactly for the arrays above. */
  lemma MemberOrderExact(k: string, xs: seq<Json>)
    requires FlatItems(xs)
    ensures (forall ys | multiset(ys) == multiset(xs) ::
               HashInput(InferSchema(Holding(k, xs))) == HashInput(InferSchema(Holding(k, ys))))
            <==> k == "" || OrderFree(xs)
  {
    hide FlatItems, OrderFree, Run, WalkEvents, FinalNodes, HashInput, Holding;
    HoldingEvents(k, xs);
    if k == "" || OrderFree(xs) {
      forall ys | multiset(ys) == multiset(xs)
        ensures HashInput(InferSchema(Holding(k, xs))) == HashInput(InferSchema(Holding(k, ys)))
      {
        HoldingEvents(k, ys);
        ArrayPermuted(map[], xs, ys, k);
        SameStatesSameHash(Run(map[], WalkEvents(Arr(xs), k)), Run(map[], WalkEvents(Arr(ys), k)));
      }
    } else {
      var ys := OrderShows(map[], xs, k);
      HoldingEvents(k, ys);
      var x, y := Run(map[], WalkEvents(Arr(xs), k)), Run(map[], WalkEvents(Arr(ys), k));
      if HashInput(FinalNodes(x)) == HashInput(FinalNodes(y)) {
        HashTellsTypes(x, y, ItemPath(k));
      }
    }
  }

  /** Two orders of one list that start with different kinds, while the list shows at most one scalar type. */
  lemma HeldOrderShows(k: string, xs: seq<Json>, ys: seq<Json>)
    requires k != "" && multiset(xs) == multiset(ys) && FlatItems(xs) && !OrderFree(xs) && xs != [] && ys != []
    requires xs[0].Obj? != ys[0].Obj?
    ensures HashInput(InferSchema(Holding(k, xs))) != HashInput(InferSchema(Holding(k, ys)))
  {
    FirstKindShows(xs, ys);
    FlatPermuted(xs, ys);
    hide Run, WalkEvents, EndType, FlatItems, AllObjects, FinalNodes, HashInput, Holding;
    HoldingEvents(k, xs);
    HoldingEvents(k, ys);
    TypeAtItems(map[], xs, k);
    TypeAtItems(map[], ys, k);
    var x, y := Run(map[], WalkEvents(Arr(xs), k)), Run(map[], WalkEvents(Arr(ys), k));
    if HashInput(FinalNodes(x)) == HashInput(FinalNodes(y)) {
      HashTellsTypes(x, y, ItemPath(k));
    }
  }

  lemma OneAndObject()
    ensures var xs := [Int(1), Obj([])]; FlatItems(xs) && !OrderFree(xs)
  {
    var xs := [Int(1), Obj([])];
    assert [Int(1)] + [Obj([])] == xs && [] + [Int(1)] == [Int(1)];
    NoScalars();
    ScalarsSnoc([Int(1)], Obj([]));
    ScalarsSnoc([], Int(1));
    OneType(Int(1));
    assert xs[0] in xs && xs[1] in xs;
    hide ScalarsOf, NonNullTypes;
  }

  /** The smallest such pair: `{"k": [1, {}]}` and `{"k": [{}, 1]}` have different schema hashes. */
  lemma MixedItemsDependOnOrder(k: string)
    requires k != ""
    ensures HashInput(InferSchema(Holding(k, [Int(1), Obj([])]))) != HashInput(InferSchema(Holding(k, [Obj([]), Int(1)])))
  {
    hide FlatItems, OrderFree, HashInput, InferSchema, Holding;
    OneAndObject();
    HeldOrderShows(k, [Int(1), Obj([])], [Obj([]), Int(1)]);
  }

  lemma OneType(v: Json)
    ensures |NonNullTypes([v])| < 2
  {
    assert [v][..0] == [];
    assert NonNullTypes([v]) <= {ScalarType(v)};
    SubsetSize(NonNullTypes([v]), {ScalarType(v)});
  }
}
