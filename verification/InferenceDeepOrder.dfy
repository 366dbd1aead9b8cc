/** Which arrays may be permuted at any depth of a document without reaching its schema hash. */
module InferenceDeepOrder {
  import opened Options
  import opened Collections
  import opened JsonValues
  import opened Paths
  import opened SchemaInference
  import opened InferenceKeyOrder
  import opened InferenceItemOrder
  import opened InferenceArrayOrder

  // ---------------------------------------------------------------- operations that change nothing but the example

  /** Operations that leave the same structure from every accumulator. */
  ghost predicate OpsSame(a: seq<Op>, b: seq<Op>) {
    forall s :: Same(Fold(s, a), Fold(s, b))
  }

  lemma OpsSameConcat(a: seq<Op>, b: seq<Op>, c: seq<Op>, d: seq<Op>)
    requires OpsSame(a, b) && OpsSame(c, d)
    ensures OpsSame(a + c, b + d)
  {
    hide Fold, Structure;
    forall s ensures Same(Fold(s, a + c), Fold(s, b + d)) {
      FoldConcat(s, a, c);
      FoldConcat(s, b, d);
      FoldSame(Fold(s, a), Fold(s, b), c);
      assert Same(Fold(Fold(s, b), c), Fold(Fold(s, b), d));
    }
  }

  lemma OpsSameRefl(a: seq<Op>)
    ensures OpsSame(a, a)
  {
  }

  lemma OpsSameAround(a: seq<Op>, xs: seq<Op>, ys: seq<Op>, b: seq<Op>)
    requires OpsSame(xs, ys)
    ensures OpsSame(a + xs + b, a + ys + b)
  {
    OpsSameRefl(a);
    OpsSameRefl(b);
    hide OpsSame;
    OpsSameConcat(a, a, xs, ys);
    OpsSameConcat(a + xs, a + ys, b, b);
  }

  lemma OpsSameTrans(a: seq<Op>, b: seq<Op>, c: seq<Op>)
    requires OpsSame(a, b) && OpsSame(b, c)
    ensures OpsSame(a, c)
  {
    hide Fold, Structure;
    forall s ensures Same(Fold(s, a), Fold(s, c)) {
      assert Same(Fold(s, a), Fold(s, b)) && Same(Fold(s, b), Fold(s, c));
    }
  }

  /** Either may come first. */
  ghost predicate OpsCommute(a: seq<Op>, b: seq<Op>) {
    OpsSame(a + b, b + a)
  }

  lemma CommuteSym(a: seq<Op>, b: seq<Op>)
    requires OpsCommute(a, b)
    ensures OpsCommute(b, a)
  {
    hide Fold, Structure;
    forall s ensures Same(Fold(s, b + a), Fold(s, a + b)) {
      assert Same(Fold(s, a + b), Fold(s, b + a));
    }
  }

  lemma CommuteNone(a: seq<Op>)
    ensures OpsCommute(a, []) && OpsCommute([], a) && OpsCommute(a, a)
  {
    assert a + [] == a == [] + a;
    OpsSameRefl(a);
    OpsSameRefl(a + a);
  }

  lemma CommuteConcat(a: seq<Op>, b: seq<Op>, c: seq<Op>)
    requires OpsCommute(a, b) && OpsCommute(a, c)
    ensures OpsCommute(a, b + c)
  {
    hide OpsSame;
    OpsSameAround([], a + b, b + a, c);
    OpsSameAround(b, a + c, c + a, []);
    assert [] + (a + b) + c == a + (b + c) && [] + (b + a) + c == b + a + c;
    assert b + (a + c) + [] == b + a + c && b + (c + a) + [] == b + c + a;
    OpsSameTrans(a + (b + c), b + a + c, b + c + a);
  }

  lemma {:induction false} CommuteChunks(a: seq<Op>, f: Json -> seq<Op>, items: seq<Json>)
    requires forall x | x in items :: OpsCommute(a, f(x))
    ensures OpsCommute(a, Chunks(f, items))
  {
    hide OpsCommute;
    if items == [] {
      CommuteNone(a);
    } else {
      var n := |items| - 1;
      assert items == items[..n] + [items[n]];
      CommuteChunks(a, f, items[..n]);
      CommuteConcat(a, Chunks(f, items[..n]), f(items[n]));
    }
  }

  lemma {:induction false} ChunksCommute(f: Json -> seq<Op>, xs: seq<Json>, ys: seq<Json>)
    requires forall x, y | x in xs && y in ys :: OpsCommute(f(x), f(y))
    ensures OpsCommute(Chunks(f, xs), Chunks(f, ys))
  {
    hide OpsCommute;
    forall x | x in xs ensures OpsCommute(Chunks(f, ys), f(x)) {
      CommuteChunks(f(x), f, ys);
      CommuteSym(f(x), Chunks(f, ys));
    }
    CommuteChunks(Chunks(f, ys), f, xs);
    CommuteSym(Chunks(f, ys), Chunks(f, xs));
  }

  lemma {:induction false} ChunksConcat(f: Json -> seq<Op>, xs: seq<Json>, ys: seq<Json>)
    ensures Chunks(f, xs + ys) == Chunks(f, xs) + Chunks(f, ys)
  {
    if ys == [] {
      assert xs + ys == xs;
    } else {
      var n := |ys| - 1;
      assert (xs + ys)[..|xs + ys| - 1] == xs + ys[..n];
      ChunksConcat(f, xs, ys[..n]);
    }
  }

  lemma ChunksAround(f: Json -> seq<Op>, before: seq<Json>, x: Json, after: seq<Json>)
    ensures Chunks(f, before + ([x] + after)) == Chunks(f, before) + (f(x) + Chunks(f, after))
  {
    ChunksConcat(f, before, [x] + after);
    ChunksConcat(f, [x], after);
    assert [x][..0] == [];
    assert Chunks(f, [x]) == [] + f(x) == f(x);
    hide Chunks;
  }

  lemma SwapLast(a: seq<Op>, x: seq<Op>, b: seq<Op>)
    requires OpsCommute(x, b)
    ensures OpsSame(a + (x + b), a + b + x)
  {
    hide OpsSame;
    OpsSameAround(a, x + b, b + x, []);
    assert a + (x + b) + [] == a + (x + b);
    assert a + (b + x) + [] == a + b + x;
  }

  /** One chunk may be moved to the end past those it commutes with. */
  lemma ChunkToEnd(f: Json -> seq<Op>, items: seq<Json>, i: nat)
    requires i < |items| && forall x, y | x in items && y in items :: OpsCommute(f(x), f(y))
    ensures OpsSame(Chunks(f, items), Chunks(f, items[..i] + items[i + 1..]) + f(items[i]))
  {
    hide OpsSame, OpsCommute, Chunks;
    var before, x, after := items[..i], items[i], items[i + 1..];
    assert items == before + ([x] + after);
    CommuteChunks(f(x), f, after);
    ChunksAround(f, before, x, after);
    ChunksConcat(f, before, after);
    SwapLast(Chunks(f, before), f(x), Chunks(f, after));
  }

  /** Chunks that commute pairwise may come in any order. */
  lemma {:induction false} CommutingChunks(f: Json -> seq<Op>, xs: seq<Json>, ys: seq<Json>)
    requires multiset(xs) == multiset(ys)
    requires forall x, y | x in ys && y in ys :: OpsCommute(f(x), f(y))
    ensures OpsSame(Chunks(f, xs), Chunks(f, ys))
    decreases |xs|
  {
    hide OpsSame, OpsCommute;
    SameMembers(xs, ys);
    if xs == [] {
      OpsSameRefl([]);
    } else {
      var n := |xs| - 1;
      var i := Matched(xs, ys);
      var rest := ys[..i] + ys[i + 1..];
      assert forall x | x in rest :: x in ys;
      CommutingChunks(f, xs[..n], rest);
      ChunkToEnd(f, ys, i);
      OpsSameRefl(f(xs[n]));
      OpsSameConcat(Chunks(f, xs[..n]), Chunks(f, rest), f(xs[n]), f(xs[n]));
      OpsSameSym(Chunks(f, ys), Chunks(f, rest) + f(xs[n]));
      OpsSameTrans(Chunks(f, xs), Chunks(f, rest) + f(xs[n]), Chunks(f, ys));
    }
  }

  lemma OpsSameSym(a: seq<Op>, b: seq<Op>)
    requires OpsSame(a, b)
    ensures OpsSame(b, a)
  {
    hide Fold, Structure;
    forall s ensures Same(Fold(s, b), Fold(s, a)) {
      assert Same(Fold(s, a), Fold(s, b));
    }
  }

  // ---------------------------------------------------------------- values that never mix kinds at a path

  /** Equal, both scalars, objects kindred in every key they share, or arrays of one item type kindred item by item. */
  ghost predicate Kindred(x: Json, y: Json) {
    || x == y
    || (x.IsScalar() && y.IsScalar())
    || (x.Obj? && y.Obj? && forall i, j | 0 <= i < |x.fields| && 0 <= j < |y.fields| && x.fields[i].key == y.fields[j].key ::
          Kindred(x.fields[i].value, y.fields[j].value))
    || (x.Arr? && y.Arr? && !AllObjects(x.items) && !AllObjects(y.items) && ItemType(x.items) == ItemType(y.items)
        && forall i, j | 0 <= i < |x.items| && 0 <= j < |y.items| :: Kindred(x.items[i], y.items[j]))
  }

  /** Its paths can be told apart. */
  ghost predicate Tidy(x: Json) {
    CleanKeys(x) && WellFormed(x)
  }

  ghost predicate KindredItems(items: seq<Json>) {
    (forall x | x in items :: Tidy(x)) && forall x, y | x in items && y in items :: Kindred(x, y)
  }

  lemma TidyFields(fields: seq<Field>)
    requires Tidy(Obj(fields))
    ensures CleanFields(fields) && forall f | f in fields :: Tidy(f.value)
  {
  }

  lemma TidyItems(items: seq<Json>)
    requires Tidy(Arr(items))
    ensures forall x | x in items :: Tidy(x)
  {
  }

  lemma ScalarsCommute(x: Json, y: Json, path: string, p: string)
    requires x.IsScalar() && y.IsScalar()
    ensures OpsCommute(OpsAt(EmitEvents(path, x), p), OpsAt(EmitEvents(path, y), p))
  {
    OpsOne(Event(path, Observe(x)), p);
    OpsOne(Event(path, Observe(y)), p);
    if path == p {
      ObservedCommute(x, y);
    } else {
      CommuteNone([]);
    }
  }

  lemma ObservedCommute(x: Json, y: Json)
    requires x.IsScalar() && y.IsScalar()
    ensures OpsCommute([Observe(x)], [Observe(y)])
  {
    hide Fold, Apply, Structure;
    forall s ensures Same(Fold(s, [Observe(x)] + [Observe(y)]), Fold(s, [Observe(y)] + [Observe(x)])) {
      ObservationsCommute(s, x, y);
      FoldTwo(s, [], Observe(x), Observe(y));
      FoldTwo(s, [], Observe(y), Observe(x));
      FoldNone(s);
      assert [] + [Observe(x), Observe(y)] == [Observe(x)] + [Observe(y)];
      assert [] + [Observe(y), Observe(x)] == [Observe(y)] + [Observe(x)];
    }
  }

  /** What an object files at a path below its own: nothing, or what one member does. */
  lemma MemberAbove(fields: seq<Field>, path: string, p: string) returns (i: int)
    requires CleanFields(fields)
    ensures -1 <= i < |fields|
    ensures i >= 0 ==> Under(Join(path, fields[i].key), p)
                       && OpsAt(FieldEvents(fields, path), p) == OpsAt(EmitEvents(Join(path, fields[i].key), fields[i].value), p)
    ensures i < 0 ==> OpsAt(FieldEvents(fields, path), p) == []
  {
    hide Under, OpsAt, FieldEvents, EmitEvents, Join, CleanFields;
    if j :| 0 <= j < |fields| && Under(Join(path, fields[j].key), p) {
      FieldsAt(fields, path, p, j);
      i := j;
    } else {
      forall f | f in fields ensures !Under(Join(path, f.key), p) {
      }
      FieldsNone(fields, path, p);
      i := -1;
    }
  }

  lemma ObjectOps(fields: seq<Field>, path: string, p: string)
    requires path != ""
    ensures OpsAt(EmitEvents(path, Obj(fields)), p) ==
            if p == path then [Ensure(TObject), Ensure(TObject)] else OpsAt(FieldEvents(fields, path), p)
  {
    hide FieldEvents, OpsAt;
    if p == path {
      ObjectOwn(fields, path);
    } else {
      var e := Event(path, Ensure(TObject));
      assert EmitEvents(path, Obj(fields)) == [e] + ([e] + FieldEvents(fields, path));
      OpsOne(e, p);
      OpsConcat([e], FieldEvents(fields, path), p);
      OpsConcat([e], [e] + FieldEvents(fields, path), p);
      var ops := OpsAt(FieldEvents(fields, path), p);
      assert [] + ([] + ops) == ops;
    }
  }

  ghost predicate KindredMembers(fs: seq<Field>, gs: seq<Field>) {
    forall i, j | 0 <= i < |fs| && 0 <= j < |gs| && fs[i].key == gs[j].key :: Kindred(fs[i].value, gs[j].value)
  }

  /** Kindred objects: the members they share are kindred, and other members share no path. */
  lemma {:induction false} FieldsCommute(fs: seq<Field>, gs: seq<Field>, path: string, p: string)
    requires Tidy(Obj(fs)) && Tidy(Obj(gs)) && KindredMembers(fs, gs)
    ensures OpsCommute(OpsAt(FieldEvents(fs, path), p), OpsAt(FieldEvents(gs, path), p))
    decreases fs, 0
  {
    hide OpsCommute, Under, OpsAt, FieldEvents, EmitEvents, Tidy, CleanFields, Kindred;
    TidyFields(fs);
    TidyFields(gs);
    var i := MemberAbove(fs, path, p);
    var j := MemberAbove(gs, path, p);
    if i < 0 || j < 0 {
      CommuteNone(OpsAt(FieldEvents(fs, path), p));
      CommuteNone(OpsAt(FieldEvents(gs, path), p));
    } else {
      assert fs[i] in fs && gs[j] in gs;
      CleanMember(fs, fs[i]);
      CleanMember(gs, gs[j]);
      JoinDisjoint(path, fs[i].key, gs[j].key, p);
      CleanJoin(path, fs[i].key);
      KindredCommute(fs[i].value, gs[j].value, Join(path, fs[i].key), p);
    }
  }

  lemma CleanMember(fields: seq<Field>, f: Field)
    requires CleanFields(fields) && f in fields
    ensures CleanKey(f.key)
  {
  }

  lemma {:induction false} ItemOpsAreChunks(items: seq<Json>, path: string, p: string, f: Json -> seq<Op>)
    requires forall x :: f(x) == OpsAt(EmitEvents(path, x), p)
    ensures OpsAt(ItemEvents(items, path), p) == Chunks(f, items)
  {
    hide EmitEvents;
    if items != [] {
      var n := |items| - 1;
      ItemOpsAreChunks(items[..n], path, p, f);
      OpsConcat(ItemEvents(items[..n], path), EmitEvents(path, items[n]), p);
    }
  }

  lemma ArrayOps(items: seq<Json>, path: string, p: string)
    requires path != "" && items != [] && !AllObjects(items)
    ensures OpsAt(EmitEvents(path, Arr(items)), p) ==
            if p == path then [Ensure(TArray), SetItemType(ItemType(items))] else OpsAt(ItemEvents(items, ItemPath(path)), p)
  {
    hide WalkEvents, ItemEvents, OpsAt, ItemType, AllObjects;
    ArrayEmits(path, items);
    if p == path {
      OwnArrayOps(items, path);
    } else {
      MixedArrayOps(items, path, p);
      OpElsewhere(path, Ensure(TArray), p);
      OpElsewhere(path, SetItemType(ItemType(items)), p);
      var ops := OpsAt(ItemEvents(items, ItemPath(path)), p);
      assert [] + (ops + []) == ops;
    }
  }

  /** Kindred values may be emitted at one path in either order. */
  lemma {:induction false} KindredCommute(x: Json, y: Json, path: string, p: string)
    requires Tidy(x) && Tidy(y) && Kindred(x, y) && path != ""
    ensures OpsCommute(OpsAt(EmitEvents(path, x), p), OpsAt(EmitEvents(path, y), p))
    decreases x, 1
  {
    hide OpsCommute, OpsAt, EmitEvents, ItemType, Tidy;
    if x == y {
      CommuteNone(OpsAt(EmitEvents(path, x), p));
    } else if x.IsScalar() && y.IsScalar() {
      ScalarsCommute(x, y, path, p);
    } else if x.Obj? && y.Obj? {
      ObjectOps(x.fields, path, p);
      ObjectOps(y.fields, path, p);
      if p == path {
        CommuteNone([Ensure(TObject), Ensure(TObject)]);
      } else {
        FieldsCommute(x.fields, y.fields, path, p);
      }
    } else {
      assert x.items != [] && y.items != [];
      ArrayOps(x.items, path, p);
      ArrayOps(y.items, path, p);
      if p == path {
        CommuteNone([Ensure(TArray), SetItemType(ItemType(x.items))]);
      } else {
        ItemsCommute(x, y, ItemPath(path), p);
      }
    }
  }

  lemma {:induction false} ItemsCommute(x: Json, y: Json, path: string, p: string)
    requires x.Arr? && y.Arr? && Tidy(x) && Tidy(y) && path != ""
    requires forall i, j | 0 <= i < |x.items| && 0 <= j < |y.items| :: Kindred(x.items[i], y.items[j])
    ensures OpsCommute(OpsAt(ItemEvents(x.items, path), p), OpsAt(ItemEvents(y.items, path), p))
    decreases x, 0
  {
    hide OpsCommute, OpsAt, EmitEvents, ItemEvents, Tidy, Kindred;
    TidyItems(x.items);
    TidyItems(y.items);
    var f := (z: Json) => OpsAt(EmitEvents(path, z), p);
    ItemOpsAreChunks(x.items, path, p, f);
    ItemOpsAreChunks(y.items, path, p, f);
    forall a, b | a in x.items && b in y.items ensures OpsCommute(f(a), f(b)) {
      KindredCommute(a, b, path, p);
    }
    ChunksCommute(f, x.items, y.items);
  }

  // ---------------------------------------------------------------- arrays of kindred items

  lemma KindredPermuted(xs: seq<Json>, ys: seq<Json>)
    requires multiset(xs) == multiset(ys) && KindredItems(xs)
    ensures KindredItems(ys)
  {
    hide Kindred, Tidy;
    SameMembers(xs, ys);
  }

  lemma {:induction false} RowOpsAreChunks(items: seq<Json>, path: string, p: string, f: Json -> seq<Op>)
    requires AllObjects(items) && forall x: Json | x.Obj? :: f(x) == OpsAt(FieldEvents(x.fields, path), p)
    ensures OpsAt(RowEvents(items, path), p) == Chunks(f, items)
  {
    hide FieldEvents;
    if items != [] {
      var n := |items| - 1;
      RowOpsAreChunks(items[..n], path, p, f);
      assert items[n] in items;
      OpsConcat(RowEvents(items[..n], path), FieldEvents(items[n].fields, path), p);
    }
  }

  lemma RowsCommute(x: Json, y: Json, path: string, p: string)
    requires x.Obj? && y.Obj? && Tidy(x) && Tidy(y) && Kindred(x, y)
    ensures OpsCommute(OpsAt(FieldEvents(x.fields, path), p), OpsAt(FieldEvents(y.fields, path), p))
  {
    hide OpsCommute, OpsAt, FieldEvents, Tidy;
    if x == y {
      CommuteNone(OpsAt(FieldEvents(x.fields, path), p));
    } else {
      FieldsCommute(x.fields, y.fields, path, p);
    }
  }

  lemma KindredRows(xs: seq<Json>, ys: seq<Json>, path: string, p: string)
    requires multiset(xs) == multiset(ys) && KindredItems(ys) && AllObjects(xs) && AllObjects(ys)
    ensures OpsSame(OpsAt(RowEvents(xs, path), p), OpsAt(RowEvents(ys, path), p))
  {
    hide OpsCommute, OpsSame, OpsAt, FieldEvents, RowEvents, Tidy, Kindred;
    var f := (x: Json) => OpsAt(FieldEvents(if x.Obj? then x.fields else [], path), p);
    RowOpsAreChunks(xs, path, p, f);
    RowOpsAreChunks(ys, path, p, f);
    forall x, y | x in ys && y in ys ensures OpsCommute(f(x), f(y)) {
      RowsCommute(x, y, path, p);
    }
    CommutingChunks(f, xs, ys);
  }

  lemma KindredElements(xs: seq<Json>, ys: seq<Json>, path: string, p: string)
    requires multiset(xs) == multiset(ys) && KindredItems(ys) && path != ""
    ensures OpsSame(OpsAt(ItemEvents(xs, path), p), OpsAt(ItemEvents(ys, path), p))
  {
    hide OpsCommute, OpsSame, OpsAt, EmitEvents, ItemEvents, Tidy, Kindred;
    var f := (x: Json) => OpsAt(EmitEvents(path, x), p);
    ItemOpsAreChunks(xs, path, p, f);
    ItemOpsAreChunks(ys, path, p, f);
    forall x, y | x in ys && y in ys ensures OpsCommute(f(x), f(y)) {
      KindredCommute(x, y, path, p);
    }
    CommutingChunks(f, xs, ys);
  }

  /** Kindred items may be walked in any order, wherever their array sits: nothing but examples changes. */
  lemma KindredArray(xs: seq<Json>, ys: seq<Json>, parent: string, p: string)
    requires multiset(xs) == multiset(ys) && KindredItems(xs)
    ensures OpsSame(OpsAt(WalkEvents(Arr(xs), parent), p), OpsAt(WalkEvents(Arr(ys), parent), p))
  {
    hide OpsSame, KindredItems, OpsAt, WalkEvents, AllObjects, FlatItems;
    KindredPermuted(xs, ys);
    FlatPermuted(xs, ys);
    ItemPathNonEmpty(parent);
    if xs == [] {
      OpsSameRefl(OpsAt(WalkEvents(Arr(xs), parent), p));
    } else if AllObjects(xs) {
      KindredRows(xs, ys, ItemPath(parent), p);
      SameMembers(xs, ys);
      forall k ensures CountKey(xs, k) == CountKey(ys, k) {
        CountPermuted(xs, ys, k);
      }
      ObjectArraySame(xs, ys, parent, p);
    } else {
      KindredElements(xs, ys, ItemPath(parent), p);
      TypesPermuted(xs, ys);
      MixedArraySame(xs, ys, parent, p);
    }
  }

  lemma ObjectArraySame(xs: seq<Json>, ys: seq<Json>, parent: string, p: string)
    requires |xs| == |ys| && xs != [] && AllObjects(xs) && AllObjects(ys) && forall k :: CountKey(xs, k) == CountKey(ys, k)
    requires OpsSame(OpsAt(RowEvents(xs, ItemPath(parent)), p), OpsAt(RowEvents(ys, ItemPath(parent)), p))
    ensures OpsSame(OpsAt(WalkEvents(Arr(xs), parent), p), OpsAt(WalkEvents(Arr(ys), parent), p))
  {
    hide OpsSame, OpsAt, AllObjects, WalkEvents, RowEvents, OptionalEvents, CountKey, ItemPath, ArrayOwn, OpHere;
    var path := ItemPath(parent);
    ItemPathNonEmpty(parent);
    ObjectArrayOps(xs, parent, p);
    ObjectArrayOps(ys, parent, p);
    SameOptional(xs, ys, path, p);
    var a, k := OpHere(ArrayOwn(parent), Ensure(TArray), p), OpHere(ArrayOwn(parent), SetItemType(TObject), p);
    var o := OpsAt(OptionalEvents(xs, path), p);
    var rx, ry := OpsAt(RowEvents(xs, path), p), OpsAt(RowEvents(ys, path), p);
    OpsSameAround(a + k, rx, ry, o);
    assert a + (k + rx + o) == a + k + rx + o;
    assert a + (k + ry + o) == a + k + ry + o;
  }

  lemma MixedArraySame(xs: seq<Json>, ys: seq<Json>, parent: string, p: string)
    requires xs != [] && ys != [] && !AllObjects(xs) && !AllObjects(ys) && ItemType(xs) == ItemType(ys)
    requires OpsSame(OpsAt(ItemEvents(xs, ItemPath(parent)), p), OpsAt(ItemEvents(ys, ItemPath(parent)), p))
    ensures OpsSame(OpsAt(WalkEvents(Arr(xs), parent), p), OpsAt(WalkEvents(Arr(ys), parent), p))
  {
    hide OpsSame, OpsAt, AllObjects, WalkEvents, ItemEvents, ItemPath, ArrayOwn, OpHere, ItemType;
    MixedArrayOps(xs, parent, p);
    MixedArrayOps(ys, parent, p);
    var a, k := OpHere(ArrayOwn(parent), Ensure(TArray), p), OpHere(ArrayOwn(parent), SetItemType(ItemType(xs)), p);
    var ix, iy := OpsAt(ItemEvents(xs, ItemPath(parent)), p), OpsAt(ItemEvents(ys, ItemPath(parent)), p);
    OpsSameAround(a, ix, iy, k);
    assert a + (ix + k) == a + ix + k;
    assert a + (iy + k) == a + iy + k;
  }

  // ---------------------------------------------------------------- at any depth

  /** `b` is `a` with some of its arrays permuted, at any depth: order-free ones of flat items, or kindred ones. */
  ghost predicate Shuffled(a: Json, b: Json) {
    match a
    case Arr(xs) =>
      b.Arr? && (AllShuffled(xs, b.items)
                 || (multiset(b.items) == multiset(xs) && ((FlatItems(xs) && OrderFree(xs)) || KindredItems(xs))))
    case Obj(fs) =>
      b.Obj? && MembersShuffled(fs, b.fields)
    case _ => a == b
  }

  ghost predicate AllShuffled(xs: seq<Json>, ys: seq<Json>) {
    |ys| == |xs| && forall i | 0 <= i < |xs| :: Shuffled(xs[i], ys[i])
  }

  ghost predicate MembersShuffled(fs: seq<Field>, gs: seq<Field>) {
    |gs| == |fs| && forall i | 0 <= i < |fs| :: gs[i].key == fs[i].key && Shuffled(fs[i].value, gs[i].value)
  }

  lemma ShuffledLook(x: Json, y: Json, k: string)
    requires Shuffled(x, y)
    ensures HasField(x, k) == HasField(y, k) && x.Obj? == y.Obj? && x.Null? == y.Null? && ScalarType(x) == ScalarType(y)
  {
    if x.Obj? {
      var fs, gs := x.fields, y.fields;
      assert forall i | 0 <= i < |fs| :: gs[i].key == fs[i].key;
    }
  }

  lemma {:induction false} ShuffledCounts(xs: seq<Json>, ys: seq<Json>, k: string)
    requires AllShuffled(xs, ys)
    ensures CountKey(xs, k) == CountKey(ys, k) && NonNullTypes(xs) == NonNullTypes(ys)
  {
    hide Shuffled, HasField, ScalarType;
    if xs != [] {
      var n := |xs| - 1;
      ShuffledCounts(xs[..n], ys[..n], k);
      ShuffledLook(xs[n], ys[n], k);
    }
  }

  lemma ShuffledKinds(xs: seq<Json>, ys: seq<Json>)
    requires AllShuffled(xs, ys)
    ensures AllObjects(xs) == AllObjects(ys)
  {
    forall i | 0 <= i < |xs| ensures xs[i].Obj? == ys[i].Obj? {
      ShuffledLook(xs[i], ys[i], "");
    }
  }

  lemma {:induction false} EmitShuffled(path: string, a: Json, b: Json, p: string)
    requires Shuffled(a, b)
    ensures OpsSame(OpsAt(EmitEvents(path, a), p), OpsAt(EmitEvents(path, b), p))
    decreases a, 1
  {
    if a.Obj? || a.Arr? {
      WalkShuffled(a, b, path, p);
      var e := Event(path, Ensure(TObject));
      hide Shuffled, OpsSame;
      OpsConcat([e], WalkEvents(a, path), p);
      OpsConcat([e], WalkEvents(b, path), p);
      OpsSameRefl(OpsAt([e], p));
      OpsSameConcat(OpsAt([e], p), OpsAt([e], p), OpsAt(WalkEvents(a, path), p), OpsAt(WalkEvents(b, path), p));
    }
  }

  lemma {:induction false} WalkShuffled(a: Json, b: Json, parent: string, p: string)
    requires Shuffled(a, b)
    ensures OpsSame(OpsAt(WalkEvents(a, parent), p), OpsAt(WalkEvents(b, parent), p))
    decreases a, 0
  {
    hide OpsSame, FlatItems, OrderFree, KindredItems;
    match a
    case Obj(fs) =>
      FieldsShuffled(fs, b.fields, parent, p);
      var e := if parent != "" then [Event(parent, Ensure(TObject))] else [];
      OpsConcat(e, FieldEvents(fs, parent), p);
      OpsConcat(e, FieldEvents(b.fields, parent), p);
      OpsSameRefl(OpsAt(e, p));
      OpsSameConcat(OpsAt(e, p), OpsAt(e, p), OpsAt(FieldEvents(fs, parent), p), OpsAt(FieldEvents(b.fields, parent), p));
    case Arr(xs) =>
      if AllShuffled(xs, b.items) {
        ArrayShuffled(xs, b.items, parent, p);
      } else if KindredItems(xs) {
        KindredArray(xs, b.items, parent, p);
      } else {
        OrderFreeOps(xs, b.items, parent, p);
      }
    case _ =>
      OpsSameRefl(OpsAt(WalkEvents(a, parent), p));
  }

  lemma OrderFreeOps(xs: seq<Json>, ys: seq<Json>, parent: string, p: string)
    requires multiset(xs) == multiset(ys) && FlatItems(xs) && OrderFree(xs)
    ensures OpsSame(OpsAt(WalkEvents(Arr(xs), parent), p), OpsAt(WalkEvents(Arr(ys), parent), p))
  {
    hide FlatItems, OrderFree, WalkEvents, Fold, Structure;
    forall s ensures Same(Fold(s, OpsAt(WalkEvents(Arr(xs), parent), p)), Fold(s, OpsAt(WalkEvents(Arr(ys), parent), p))) {
      ArrayPermutedAt(s, xs, ys, parent, p);
    }
  }

  lemma {:induction false} ArrayShuffled(xs: seq<Json>, ys: seq<Json>, parent: string, p: string)
    requires AllShuffled(xs, ys)
    ensures OpsSame(OpsAt(WalkEvents(Arr(xs), parent), p), OpsAt(WalkEvents(Arr(ys), parent), p))
    decreases xs, 1
  {
    hide OpsSame;
    ShuffledKinds(xs, ys);
    if xs == [] {
      assert ys == [];
      OpsSameRefl(OpsAt(WalkEvents(Arr(xs), parent), p));
    } else if AllObjects(xs) {
      RowsShuffled(xs, ys, ItemPath(parent), p);
      forall k ensures CountKey(xs, k) == CountKey(ys, k) {
        ShuffledCounts(xs, ys, k);
      }
      ObjectArraySame(xs, ys, parent, p);
    } else {
      ItemsShuffled(xs, ys, ItemPath(parent), p);
      ShuffledCounts(xs, ys, "");
      MixedArraySame(xs, ys, parent, p);
    }
  }

  lemma {:induction false} FieldsShuffled(fs: seq<Field>, gs: seq<Field>, parent: string, p: string)
    requires MembersShuffled(fs, gs)
    ensures OpsSame(OpsAt(FieldEvents(fs, parent), p), OpsAt(FieldEvents(gs, parent), p))
    decreases fs, 0
  {
    hide OpsSame;
    if fs == [] {
      assert gs == [];
      OpsSameRefl(OpsAt(FieldEvents(fs, parent), p));
    } else {
      var n := |fs| - 1;
      FieldsShuffled(fs[..n], gs[..n], parent, p);
      assert gs[n].key == fs[n].key && Shuffled(fs[n].value, gs[n].value);
      var path := Join(parent, fs[n].key);
      EmitShuffled(path, fs[n].value, gs[n].value, p);
      hide Shuffled, MembersShuffled, EmitEvents;
      OpsConcat(FieldEvents(fs[..n], parent), EmitEvents(path, fs[n].value), p);
      OpsConcat(FieldEvents(gs[..n], parent), EmitEvents(path, gs[n].value), p);
      OpsSameConcat(OpsAt(FieldEvents(fs[..n], parent), p), OpsAt(FieldEvents(gs[..n], parent), p),
                    OpsAt(EmitEvents(path, fs[n].value), p), OpsAt(EmitEvents(path, gs[n].value), p));
    }
  }

  lemma {:induction false} RowsShuffled(xs: seq<Json>, ys: seq<Json>, path: string, p: string)
    requires AllShuffled(xs, ys) && AllObjects(xs) && AllObjects(ys)
    ensures OpsSame(OpsAt(RowEvents(xs, path), p), OpsAt(RowEvents(ys, path), p))
    decreases xs, 0
  {
    hide OpsSame;
    if xs == [] {
      OpsSameRefl(OpsAt(RowEvents(xs, path), p));
    } else {
      var n := |xs| - 1;
      RowsShuffled(xs[..n], ys[..n], path, p);
      assert Shuffled(xs[n], ys[n]) && xs[n] in xs && ys[n] in ys;
      var fs, gs := xs[n].fields, ys[n].fields;
      FieldsShuffled(fs, gs, path, p);
      hide Shuffled, AllShuffled, FieldEvents;
      OpsConcat(RowEvents(xs[..n], path), FieldEvents(fs, path), p);
      OpsConcat(RowEvents(ys[..n], path), FieldEvents(gs, path), p);
      OpsSameConcat(OpsAt(RowEvents(xs[..n], path), p), OpsAt(RowEvents(ys[..n], path), p),
                    OpsAt(FieldEvents(fs, path), p), OpsAt(FieldEvents(gs, path), p));
    }
  }

  lemma {:induction false} ItemsShuffled(xs: seq<Json>, ys: seq<Json>, path: string, p: string)
    requires AllShuffled(xs, ys)
    ensures OpsSame(OpsAt(ItemEvents(xs, path), p), OpsAt(ItemEvents(ys, path), p))
    decreases xs, 0
  {
    hide OpsSame;
    if xs == [] {
      OpsSameRefl(OpsAt(ItemEvents(xs, path), p));
    } else {
      var n := |xs| - 1;
      ItemsShuffled(xs[..n], ys[..n], path, p);
      assert Shuffled(xs[n], ys[n]);
      EmitShuffled(path, xs[n], ys[n], p);
      hide Shuffled, AllShuffled, EmitEvents;
      OpsConcat(ItemEvents(xs[..n], path), EmitEvents(path, xs[n]), p);
      OpsConcat(ItemEvents(ys[..n], path), EmitEvents(path, ys[n]), p);
      OpsSameConcat(OpsAt(ItemEvents(xs[..n], path), p), OpsAt(ItemEvents(ys[..n], path), p),
                    OpsAt(EmitEvents(path, xs[n]), p), OpsAt(EmitEvents(path, ys[n]), p));
    }
  }

  /** Permuting order-free arrays of flat items, or arrays of kindred items, anywhere in a document does not reach its schema hash. */
  lemma ItemOrderIrrelevant(a: Json, b: Json)
    requires Shuffled(a, b)
    ensures HashInput(InferSchema(a)) == HashInput(InferSchema(b))
  {
    hide Shuffled, Run, WalkEvents, FinalNodes, HashInput, Fold, Structure;
    var x, y := Run(map[], WalkEvents(a, "")), Run(map[], WalkEvents(b, ""));
    forall p ensures Same(StateAt(x, p), StateAt(y, p)) {
      RunAt(map[], WalkEvents(a, ""), p);
      RunAt(map[], WalkEvents(b, ""), p);
      WalkShuffled(a, b, "", p);
      assert Same(Fold(None, OpsAt(WalkEvents(a, ""), p)), Fold(None, OpsAt(WalkEvents(b, ""), p)));
    }
    SameStatesSameHash(x, y);
  }
}
