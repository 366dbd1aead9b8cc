/** The order of the items of an array of scalars, or of flat objects, does not reach the schema hash. */
module InferenceItemOrder {
  import opened Options
  import opened Collections
  import opened Sorting
  import opened JsonValues
  import opened Paths
  import opened SchemaInference
  import opened InferenceKeyOrder

  // ---------------------------------------------------------------- the hashed projection

  datatype Projection = Projection(
    path: string, type_: JsonType, required: bool, nullable: bool, arrayItemType: Option<JsonType>,
    enumValues: Option<seq<string>>)

  /** `_structural_projection`: everything but the example. */
  function Project(n: SchemaNode): Projection {
    Projection(n.path, n.type_, n.required, n.nullable, n.arrayItemType, n.enumValues)
  }

  function PathsOf(nodes: seq<SchemaNode>): (ps: set<string>)
    ensures forall p :: p in ps <==> exists i :: 0 <= i < |nodes| && nodes[i].path == p
  {
    set i | 0 <= i < |nodes| :: nodes[i].path
  }

  function NodeAt(nodes: seq<SchemaNode>, p: string): (n: SchemaNode)
    requires p in PathsOf(nodes)
    ensures n in nodes && n.path == p
  {
    if nodes[0].path == p then nodes[0] else
      assert p in PathsOf(nodes[1..]) by {
        var i :| 0 <= i < |nodes| && nodes[i].path == p;
        assert nodes[1..][i - 1].path == p;
      }
      NodeAt(nodes[1..], p)
  }

  /** What `stable_schema_hash` digests: the projections sorted by path, for a list with one node per path. */
  function HashInput(nodes: seq<SchemaNode>): seq<Projection> {
    var ps := Sorted(PathsOf(nodes));
    seq(|ps|, i requires 0 <= i < |ps| => assert ps[i] in ps; Project(NodeAt(nodes, ps[i])))
  }

  ghost predicate OneNodePerPath(nodes: seq<SchemaNode>) {
    forall m, n | m in nodes && n in nodes && m.path == n.path :: m == n
  }

  /** The hash does not depend on the order of the node list. */
  lemma HashOrderIndependent(a: seq<SchemaNode>, b: seq<SchemaNode>)
    requires OneNodePerPath(a) && multiset(a) == multiset(b)
    ensures HashInput(a) == HashInput(b)
  {
    forall n ensures n in a <==> n in b {
      assert n in multiset(a) <==> n in multiset(b);
    }
    forall p ensures p in PathsOf(a) <==> p in PathsOf(b) {
      if p in PathsOf(a) {
        assert NodeAt(a, p) in b;
      }
      if p in PathsOf(b) {
        assert NodeAt(b, p) in a;
      }
    }
    assert PathsOf(a) == PathsOf(b);
    forall p | p in PathsOf(a) ensures NodeAt(a, p) == NodeAt(b, p) {
    }
  }

  // ---------------------------------------------------------------- equal up to the example

  function Structure(s: Option<NodeState>): Option<NodeState> {
    if s.Some? then Some(s.value.(example := None)) else None
  }

  ghost predicate Same(s: Option<NodeState>, t: Option<NodeState>) {
    Structure(s) == Structure(t)
  }

  /** Observing a scalar touches the type and the enum separately, and neither looks at the example. */
  function Retyped(s: NodeState, v: Json): NodeState {
    if v.Null? then s.(nullable := true) else WithType(s, ScalarType(v))
  }

  function Relisted(s: NodeState, v: Json): NodeState {
    if v.Str? then WithString(s, v.s) else s
  }

  lemma TypeIgnoresExample(s: NodeState, t: JsonType, e: Option<Json>)
    ensures WithType(s.(example := e), t) == WithType(s, t).(example := e)
  {
  }

  lemma EnumIgnoresExample(s: NodeState, v: string, e: Option<Json>)
    ensures WithString(s.(example := e), v) == WithString(s, v).(example := e)
  {
  }

  lemma ObserveParts(s: NodeState, v: Json)
    ensures ObserveScalar(s, v).(example := None) == Relisted(Retyped(s.(example := None), v), v)
  {
    if !v.Null? {
      var s1 := WithType(s, ScalarType(v));
      TypeIgnoresExample(s, ScalarType(v), None);
      assert WithExample(s1, v).(example := None) == s1.(example := None);
      if v.Str? {
        EnumIgnoresExample(WithExample(s1, v), v.s, None);
      }
      hide WithType, WithString, WithExample;
    }
  }

  lemma ApplySame(s: Option<NodeState>, t: Option<NodeState>, op: Op)
    requires Same(s, t)
    ensures Same(Apply(s, op), Apply(t, op))
  {
    hide ObserveScalar, Relisted, Retyped;
    if op.Observe? && s.Some? {
      ObserveParts(s.value, op.v);
      ObserveParts(t.value, op.v);
    }
  }

  lemma {:induction false} FoldSame(s: Option<NodeState>, t: Option<NodeState>, ops: seq<Op>)
    requires Same(s, t)
    ensures Same(Fold(s, ops), Fold(t, ops))
  {
    hide Apply;
    if ops != [] {
      var n := |ops| - 1;
      FoldSame(s, t, ops[..n]);
      ApplySame(Fold(s, ops[..n]), Fold(t, ops[..n]), ops[n]);
    }
  }

  // ---------------------------------------------------------------- observations commute

  lemma StringsCommute(s: NodeState, v: string, w: string)
    ensures WithString(WithString(s, v), w) == WithString(WithString(s, w), v)
  {
    SubsetSize(s.enumValues + {v}, s.enumValues + {v} + {w});
    SubsetSize(s.enumValues + {w}, s.enumValues + {v} + {w});
    assert s.enumValues + {v} + {w} == s.enumValues + {w} + {v};
  }

  lemma TypesCommute(s: NodeState, t: JsonType, u: JsonType)
    requires t != TNull && u != TNull
    ensures WithType(WithType(s, t), u) == WithType(WithType(s, u), t)
  {
    WithTypeParts(s, t);
    WithTypeParts(s, u);
    WithTypeParts(WithType(s, t), u);
    WithTypeParts(WithType(s, u), t);
    hide WithType;
  }

  function JoinTypes(a: JsonType, t: JsonType): JsonType {
    if a == TNull || a == t then t else TMixed
  }

  lemma WithTypeParts(s: NodeState, t: JsonType)
    ensures WithType(s, t) == s.(type_ := JoinTypes(s.type_, t), nullable := s.nullable || s.type_ == TNull)
  {
  }

  lemma NullCommutes(s: NodeState, t: JsonType)
    ensures WithType(s.(nullable := true), t) == WithType(s, t).(nullable := true)
  {
  }

  lemma RetypingCommutes(s: NodeState, v: Json, w: Json)
    requires v.IsScalar() && w.IsScalar()
    ensures Retyped(Retyped(s, v), w) == Retyped(Retyped(s, w), v)
  {
    NullHasNullType(v);
    NullHasNullType(w);
    hide ScalarType, WithType;
    if !v.Null? && !w.Null? {
      TypesCommute(s, ScalarType(v), ScalarType(w));
    } else if !v.Null? {
      NullCommutes(s, ScalarType(v));
    } else if !w.Null? {
      NullCommutes(s, ScalarType(w));
    }
  }

  lemma NullHasNullType(v: Json)
    ensures ScalarType(v) == TNull <==> v.Null?
  {
  }

  /** On a path not seen before the first of two scalars only chooses how the accumulator starts. */
  lemma RetypingStarts(v: Json, w: Json)
    requires v.IsScalar() && w.IsScalar()
    ensures Retyped(Retyped(Fresh(ScalarType(v)), v), w) == Retyped(Retyped(Fresh(ScalarType(w)), w), v)
  {
    NullHasNullType(v);
    NullHasNullType(w);
    hide ScalarType;
  }

  lemma ListingKeepsType(s: NodeState, v: string, t: JsonType, nullable: bool)
    ensures WithString(s.(type_ := t, nullable := nullable), v) == WithString(s, v).(type_ := t, nullable := nullable)
  {
  }

  lemma PartsIndependent(s: NodeState, v: Json, w: Json)
    ensures Retyped(Relisted(s, v), w) == Relisted(Retyped(s, w), v)
  {
    if v.Str? {
      WithTypeParts(s, ScalarType(w));
      WithTypeParts(WithString(s, v.s), ScalarType(w));
      ListingKeepsType(s, v.s, JoinTypes(s.type_, ScalarType(w)), s.nullable || s.type_ == TNull);
      ListingKeepsType(s, v.s, s.type_, true);
      ListingKeepsType(s, v.s, s.type_, s.nullable);
    }
    hide WithType, WithString, ScalarType;
  }

  lemma ListingsCommute(s: NodeState, v: Json, w: Json)
    ensures Relisted(Relisted(s, v), w) == Relisted(Relisted(s, w), v)
  {
    if v.Str? && w.Str? {
      StringsCommute(s, v.s, w.s);
    }
  }

  function StartOf(s: Option<NodeState>, v: Json): NodeState {
    if s.Some? then s.value.(example := None) else Fresh(ScalarType(v))
  }

  lemma TwoObservations(s: Option<NodeState>, v: Json, w: Json)
    ensures Structure(Apply(Apply(s, Observe(v)), Observe(w))) ==
            Some(Relisted(Relisted(Retyped(Retyped(StartOf(s, v), v), w), v), w))
  {
    hide Relisted, Retyped, ObserveScalar, ScalarType;
    var start := if s.Some? then s.value else Fresh(ScalarType(v));
    ObserveParts(start, v);
    ObserveParts(ObserveScalar(start, v), w);
    PartsIndependent(Retyped(StartOf(s, v), v), v, w);
  }

  lemma ObservationsCommute(s: Option<NodeState>, v: Json, w: Json)
    requires v.IsScalar() && w.IsScalar()
    ensures Same(Apply(Apply(s, Observe(v)), Observe(w)), Apply(Apply(s, Observe(w)), Observe(v)))
  {
    hide Relisted, Retyped, Apply;
    TwoObservations(s, v, w);
    TwoObservations(s, w, v);
    if s.Some? {
      RetypingCommutes(StartOf(s, v), v, w);
    } else {
      RetypingStarts(v, w);
    }
    ListingsCommute(Retyped(Retyped(StartOf(s, v), v), w), v, w);
  }

  ghost predicate ScalarOps(ops: seq<Op>) {
    forall op | op in ops :: op.Observe? && op.v.IsScalar()
  }

  lemma SwapSame(s: Option<NodeState>, a: seq<Op>, x: Op, y: Op, b: seq<Op>)
    requires ScalarOps([x, y])
    ensures Same(Fold(s, a + [x, y] + b), Fold(s, a + [y, x] + b))
  {
    assert x in [x, y] && y in [x, y];
    FoldTwo(s, a, x, y);
    FoldTwo(s, a, y, x);
    ObservationsCommute(Fold(s, a), x.v, y.v);
    FoldConcat(s, a + [x, y], b);
    FoldConcat(s, a + [y, x], b);
    FoldSame(Fold(s, a + [x, y]), Fold(s, a + [y, x]), b);
  }

  lemma FoldTwo(s: Option<NodeState>, a: seq<Op>, x: Op, y: Op)
    ensures Fold(s, a + [x, y]) == Apply(Apply(Fold(s, a), x), y)
  {
    hide Apply;
    assert (a + [x, y])[..|a| + 1] == a + [x] && (a + [x])[..|a|] == a;
  }

  lemma {:induction false} MoveToEnd(s: Option<NodeState>, ops: seq<Op>, i: nat)
    requires ScalarOps(ops) && i < |ops|
    ensures Same(Fold(s, ops), Fold(s, ops[..i] + ops[i + 1..] + [ops[i]]))
    decreases |ops| - i
  {
    hide Fold;
    if i == |ops| - 1 {
      assert ops == ops[..i] + ops[i + 1..] + [ops[i]];
    } else {
      var x, y := ops[i], ops[i + 1];
      var swapped := ops[..i] + [y, x] + ops[i + 2..];
      assert ops == ops[..i] + [x, y] + ops[i + 2..];
      SwapSame(s, ops[..i], x, y, ops[i + 2..]);
      forall op | op in swapped ensures op in ops {
      }
      MoveToEnd(s, swapped, i + 1);
      assert swapped[..i + 1] + swapped[i + 2..] + [swapped[i + 1]] == ops[..i] + ops[i + 1..] + [ops[i]];
    }
  }

  /** Scalars observed in any other order leave the same structure. */
  lemma {:induction false} PermutedSame(s: Option<NodeState>, xs: seq<Op>, ys: seq<Op>)
    requires multiset(xs) == multiset(ys) && ScalarOps(ys)
    ensures Same(Fold(s, xs), Fold(s, ys))
    decreases |xs|
  {
    if xs == [] {
      assert |multiset(xs)| == |multiset(ys)|;
    } else {
      var n := |xs| - 1;
      var i := Matched(xs, ys);
      var rest := ys[..i] + ys[i + 1..];
      MoveToEnd(s, ys, i);
      assert ScalarOps(rest);
      PermutedSame(s, xs[..n], rest);
      FoldSnoc(s, xs[..n], xs[n]);
      FoldSnoc(s, rest, xs[n]);
      assert xs == xs[..n] + [xs[n]];
      hide Apply, Fold, ScalarOps;
      ApplySame(Fold(s, xs[..n]), Fold(s, rest), xs[n]);
    }
  }

  lemma FoldSnoc(s: Option<NodeState>, ops: seq<Op>, op: Op)
    ensures Fold(s, ops + [op]) == Apply(Fold(s, ops), op)
  {
    hide Apply;
    assert (ops + [op])[..|ops|] == ops;
  }

  // ---------------------------------------------------------------- the hash of the final nodes

  lemma SameFinal(p: string, s: NodeState, t: NodeState)
    requires Same(Some(s), Some(t))
    ensures Project(Finalize(p, s)) == Project(Finalize(p, t))
  {
  }

  lemma SameStatesSameHash(x: States, y: States)
    requires forall p :: Same(StateAt(x, p), StateAt(y, p))
    ensures HashInput(FinalNodes(x)) == HashInput(FinalNodes(y))
  {
    forall p ensures p in x <==> p in y {
      assert Same(StateAt(x, p), StateAt(y, p));
    }
    assert x.Keys == y.Keys;
    FinalPaths(x);
    FinalPaths(y);
    hide FinalNodes, Finalize, NodeAt, HashInput, Project;
    forall p | p in x ensures Project(NodeAt(FinalNodes(x), p)) == Project(NodeAt(FinalNodes(y), p)) {
      assert Same(StateAt(x, p), StateAt(y, p));
      SameFinal(p, x[p], y[p]);
    }
    SameProjections(FinalNodes(x), FinalNodes(y));
  }

  lemma SameProjections(a: seq<SchemaNode>, b: seq<SchemaNode>)
    requires PathsOf(a) == PathsOf(b)
    requires forall p | p in PathsOf(a) :: Project(NodeAt(a, p)) == Project(NodeAt(b, p))
    ensures HashInput(a) == HashInput(b)
  {
    hide Project, NodeAt;
    var ps := Sorted(PathsOf(a));
    hide Sorted;
    forall i | 0 <= i < |ps| ensures HashInput(a)[i] == HashInput(b)[i] {
      assert ps[i] in ps;
    }
  }

  lemma FinalPaths(m: States)
    ensures PathsOf(FinalNodes(m)) == m.Keys
    ensures forall p | p in m :: NodeAt(FinalNodes(m), p) == Finalize(p, m[p])
  {
    var nodes, ps := FinalNodes(m), Sorted(m.Keys);
    hide Sorted, NodeAt;
    forall p ensures p in PathsOf(nodes) <==> p in m {
      if p in m {
        var i :| 0 <= i < |ps| && ps[i] == p;
        assert nodes[i].path == p;
      }
      if p in PathsOf(nodes) {
        var i :| 0 <= i < |nodes| && nodes[i].path == p;
        assert ps[i] == p && ps[i] in ps;
      }
    }
    forall p | p in m ensures NodeAt(nodes, p) == Finalize(p, m[p]) {
      var n := NodeAt(nodes, p);
      var i :| 0 <= i < |nodes| && nodes[i] == n;
      assert ps[i] == p;
    }
  }

  lemma HashPaths(nodes: seq<SchemaNode>, i: nat)
    requires i < |Sorted(PathsOf(nodes))|
    ensures |HashInput(nodes)| == |Sorted(PathsOf(nodes))|
    ensures Sorted(PathsOf(nodes))[i] in PathsOf(nodes)
    ensures HashInput(nodes)[i] == Project(NodeAt(nodes, Sorted(PathsOf(nodes))[i]))
    ensures HashInput(nodes)[i].path == Sorted(PathsOf(nodes))[i]
  {
    hide Sorted, NodeAt;
    assert Sorted(PathsOf(nodes))[i] in Sorted(PathsOf(nodes));
  }

  lemma HashLength(nodes: seq<SchemaNode>)
    ensures |HashInput(nodes)| == |Sorted(PathsOf(nodes))|
  {
    hide Sorted, NodeAt;
  }

  /** Equal hash inputs have the same paths and the same projection at each. */
  lemma HashFixesProjections(a: seq<SchemaNode>, b: seq<SchemaNode>, p: string)
    requires HashInput(a) == HashInput(b) && p in PathsOf(a)
    ensures p in PathsOf(b) && Project(NodeAt(a, p)) == Project(NodeAt(b, p))
  {
    hide Sorted, NodeAt, HashInput, PathsOf, Project;
    HashLength(a);
    HashLength(b);
    var ps := Sorted(PathsOf(a));
    assert p in ps;
    var i :| 0 <= i < |ps| && ps[i] == p;
    HashPaths(a, i);
    HashPaths(b, i);
  }

  /** All that two nodes have, but for the example. */
  predicate SameButExample(m: SchemaNode, n: SchemaNode) {
    && m.path == n.path && m.type_ == n.type_ && m.required == n.required && m.nullable == n.nullable
    && m.arrayItemType == n.arrayItemType && m.enumValues == n.enumValues
  }

  /** Each node of `a` is in `b`, apart from its example. */
  ghost predicate Covered(a: seq<SchemaNode>, b: seq<SchemaNode>) {
    forall m | m in a :: exists n :: n in b && SameButExample(m, n)
  }

  lemma ProjectTells(m: SchemaNode, n: SchemaNode)
    ensures Project(m) == Project(n) <==> SameButExample(m, n)
    ensures SameButExample(m, n) ==> m.path == n.path
  {
  }

  lemma NodeListed(nodes: seq<SchemaNode>, n: SchemaNode)
    requires OneNodePerPath(nodes) && n in nodes
    ensures n.path in PathsOf(nodes) && NodeAt(nodes, n.path) == n
  {
    hide NodeAt;
    var i :| 0 <= i < |nodes| && nodes[i] == n;
  }

  lemma HashCovers(a: seq<SchemaNode>, b: seq<SchemaNode>)
    requires OneNodePerPath(a) && HashInput(a) == HashInput(b)
    ensures Covered(a, b)
  {
    hide HashInput, NodeAt, Project, SameButExample, PathsOf, OneNodePerPath;
    forall m | m in a ensures exists n :: n in b && SameButExample(m, n) {
      NodeListed(a, m);
      HashFixesProjections(a, b, m.path);
      ProjectTells(m, NodeAt(b, m.path));
    }
  }

  lemma CoveredAt(a: seq<SchemaNode>, b: seq<SchemaNode>, p: string)
    requires OneNodePerPath(b) && Covered(a, b) && p in PathsOf(a)
    ensures p in PathsOf(b) && Project(NodeAt(a, p)) == Project(NodeAt(b, p))
  {
    hide HashInput, NodeAt, Project, SameButExample, PathsOf, OneNodePerPath;
    var m := NodeAt(a, p);
    assert m in a;
    var n :| n in b && SameButExample(m, n);
    ProjectTells(m, n);
    NodeListed(b, n);
  }

  /** With one node per path, hash inputs are equal exactly when the nodes are, apart from their examples. */
  lemma HashInputMeans(a: seq<SchemaNode>, b: seq<SchemaNode>)
    requires OneNodePerPath(a) && OneNodePerPath(b)
    ensures HashInput(a) == HashInput(b) <==> Covered(a, b) && Covered(b, a)
  {
    hide HashInput, NodeAt, Project, Covered, PathsOf, OneNodePerPath;
    if HashInput(a) == HashInput(b) {
      HashCovers(a, b);
      HashCovers(b, a);
    }
    if Covered(a, b) && Covered(b, a) {
      forall p | p in PathsOf(a) ensures p in PathsOf(b) && Project(NodeAt(a, p)) == Project(NodeAt(b, p)) {
        CoveredAt(a, b, p);
      }
      forall p | p in PathsOf(b) ensures p in PathsOf(a) {
        CoveredAt(b, a, p);
      }
      assert PathsOf(a) == PathsOf(b);
      SameProjections(a, b);
    }
  }

  lemma HashTellsTypes(x: States, y: States, p: string)
    requires HashInput(FinalNodes(x)) == HashInput(FinalNodes(y)) && p in x
    ensures p in y && x[p].type_ == y[p].type_
  {
    hide FinalNodes, NodeAt, HashInput, PathsOf;
    FinalPaths(x);
    FinalPaths(y);
    HashFixesProjections(FinalNodes(x), FinalNodes(y), p);
  }

  lemma ItemPathNonEmpty(parent: string)
    ensures ItemPath(parent) != ""
  {
  }

  // ---------------------------------------------------------------- required fields

  ghost predicate NoMark(ops: seq<Op>) {
    forall op | op in ops :: !op.MarkOptional?
  }

  ghost predicate Creates(ops: seq<Op>) {
    ops != [] && (ops[0].Ensure? || ops[0].Observe?)
  }

  lemma ObjectOwn(fields: seq<Field>, path: string)
    requires path != ""
    ensures OpsAt(EmitEvents(path, Obj(fields)), path) == [Ensure(TObject), Ensure(TObject)]
  {
    hide FieldEvents, OpsAt;
    OwnFields(fields, path);
    var e := Event(path, Ensure(TObject));
    assert EmitEvents(path, Obj(fields)) == [e] + ([e] + FieldEvents(fields, path));
    OpsOne(e, path);
    OpsConcat([e], FieldEvents(fields, path), path);
    OpsConcat([e], [e] + FieldEvents(fields, path), path);
  }

  lemma ScalarOwn(value: Json, path: string)
    requires value.IsScalar()
    ensures OpsAt(EmitEvents(path, value), path) == [Observe(value)]
  {
    OpsOne(Event(path, Observe(value)), path);
  }

  /** A value announces itself at its own path and never marks itself optional. */
  lemma EmitOwn(path: string, value: Json)
    requires path != ""
    ensures NoMark(OpsAt(EmitEvents(path, value), path)) && Creates(OpsAt(EmitEvents(path, value), path))
  {
    hide OpsAt, EmitEvents;
    match value
    case Obj(fields) =>
      ObjectOwn(fields, path);
    case Arr(items) =>
      OwnArray(items, path);
      assert EmitEvents(path, value) == WalkEvents(value, path) by { ArrayEmits(path, items); }
    case _ =>
      ScalarOwn(value, path);
  }

  lemma ArrayEmits(path: string, items: seq<Json>)
    ensures EmitEvents(path, Arr(items)) == WalkEvents(Arr(items), path)
  {
    hide WalkEvents;
  }

  lemma EmptyOwn(path: string)
    requires path != ""
    ensures OpsAt(WalkEvents(Arr([]), path), path) == [Ensure(TArray), SetItemType(TUnknown)]
  {
    hide OpsAt;
    var ensure, kind := Event(path, Ensure(TArray)), Event(path, SetItemType(TUnknown));
    assert WalkEvents(Arr([]), path) == [ensure] + [kind];
    OpsOne(ensure, path);
    OpsOne(kind, path);
    OpsConcat([ensure], [kind], path);
  }

  lemma OwnArray(items: seq<Json>, path: string)
    requires path != ""
    ensures var ops := OpsAt(WalkEvents(Arr(items), path), path); NoMark(ops) && Creates(ops)
  {
    hide OpsAt, WalkEvents;
    if items == [] {
      EmptyOwn(path);
    } else {
      OwnArrayOps(items, path);
    }
  }

  lemma OwnArrayOps(items: seq<Json>, path: string)
    requires path != "" && items != []
    ensures OpsAt(WalkEvents(Arr(items), path), path) ==
            [Ensure(TArray), SetItemType(if AllObjects(items) then TObject else ItemType(items))]
  {
    BelowIsOutside(path, "");
    ItemPathNonEmpty(path);
    hide WalkEvents, RowEvents, ItemEvents, ItemPath, Under, ItemType;
    var below := ItemPath(path);
    if AllObjects(items) {
      RowsOutside(items, below, path);
      OptionalOutside(KeysSeen(items), items, below, path);
      ObjectArrayOps(items, path, path);
    } else {
      ItemsOutside(items, below, path);
      MixedArrayOps(items, path, path);
    }
  }

  lemma BelowIsOutside(path: string, key: string)
    requires path != ""
    ensures !Under(Join(path, key), path) && !Under(ItemPath(path), path)
  {
  }

  lemma {:induction false} OwnFields(fields: seq<Field>, path: string)
    requires path != ""
    ensures OpsAt(FieldEvents(fields, path), path) == []
  {
    if fields != [] {
      var n := |fields| - 1;
      OwnFields(fields[..n], path);
      BelowIsOutside(path, fields[n].key);
      EmitOutside(Join(path, fields[n].key), fields[n].value, path);
      OpsConcat(FieldEvents(fields[..n], path), EmitEvents(Join(path, fields[n].key), fields[n].value), path);
    }
  }

  /** The part of one object's events that lands on the path of key `k`. */
  lemma RowMentions(fields: seq<Field>, path: string, k: string)
    requires CleanFields(fields) && path != "" && CleanKey(k)
    ensures var ops := OpsAt(FieldEvents(fields, path), Join(path, k));
            if k in Keys(fields) then NoMark(ops) && Creates(ops) else ops == []
  {
    hide CleanKey, NoMark, Creates, CleanFields, Under, FieldEvents;
    var q := Join(path, k);
    UnderSelf(q);
    if k in Keys(fields) {
      var i :| 0 <= i < |fields| && fields[i].key == k;
      FieldsAt(fields, path, q, i);
      CleanJoin(path, k);
      EmitOwn(q, fields[i].value);
    } else {
      FieldsNowhere(fields, path, q, k);
    }
  }

  lemma {:induction false} RowsMention(items: seq<Json>, path: string, k: string)
    requires AllObjects(items) && path != "" && CleanKey(k)
    requires forall x | x in items :: CleanFields(x.fields)
    ensures var ops := OpsAt(RowEvents(items, path), Join(path, k));
            NoMark(ops) && (CountKey(items, k) > 0 ==> Creates(ops)) && (CountKey(items, k) == 0 ==> ops == [])
  {
    hide CleanKey, CleanFields, Join, FieldEvents;
    if items != [] {
      var n := |items| - 1;
      RowsMention(items[..n], path, k);
      assert items[n] in items;
      OpsConcat(RowEvents(items[..n], path), FieldEvents(items[n].fields, path), Join(path, k));
      RowMentions(items[n].fields, path, k);
    }
  }

  lemma {:induction false} CreatedRequired(ops: seq<Op>)
    requires NoMark(ops) && Creates(ops)
    ensures Fold(None, ops).Some? && Fold(None, ops).value.required
  {
    var n := |ops| - 1;
    assert ops[n] in ops;
    if n == 0 {
      assert Fold(None, ops[..0]) == None;
    } else {
      assert forall op | op in ops[..n] :: op in ops;
      CreatedRequired(ops[..n]);
    }
  }

  lemma {:induction false} CountAll(items: seq<Json>, k: string)
    ensures CountKey(items, k) <= |items|
    ensures CountKey(items, k) == |items| <==> forall x | x in items :: HasField(x, k)
  {
    hide HasField;
    if items != [] {
      var n := |items| - 1;
      CountAll(items[..n], k);
      assert items == items[..n] + [items[n]];
    }
  }

  lemma OptionalForKey(items: seq<Json>, path: string, k: string)
    requires path != "" && CountKey(items, k) > 0
    ensures OptionalHere(items, path, Join(path, k)) <==> CountKey(items, k) < |items|
  {
    hide CountKey, Join;
    if OptionalHere(items, path, Join(path, k)) {
      var j :| 0 < CountKey(items, j) < |items| && Join(path, j) == Join(path, k);
      JoinInjective(path, j, k);
    }
  }

  lemma OwnIsNotMember(parent: string, k: string)
    ensures ArrayOwn(parent) != Join(ItemPath(parent), k)
  {
  }

  lemma OpElsewhere(path: string, op: Op, p: string)
    requires path != p
    ensures OpHere(path, op, p) == []
  {
  }

  lemma MemberOps(items: seq<Json>, parent: string, k: string)
    requires AllObjects(items) && items != [] && CountKey(items, k) > 0
    ensures var q := Join(ItemPath(parent), k);
            OpsAt(WalkEvents(Arr(items), parent), q) ==
            OpsAt(RowEvents(items, ItemPath(parent)), q) + if CountKey(items, k) < |items| then [MarkOptional] else []
  {
    hide OpsAt, OpHere, WalkEvents, RowEvents, OptionalEvents, CountKey, Join, ItemPath, AllObjects, OptionalHere, ArrayOwn;
    var path, q := ItemPath(parent), Join(ItemPath(parent), k);
    OwnIsNotMember(parent, k);
    OpElsewhere(ArrayOwn(parent), Ensure(TArray), q);
    OpElsewhere(ArrayOwn(parent), SetItemType(TObject), q);
    ItemPathNonEmpty(parent);
    OptionalAt(items, path, q);
    OptionalForKey(items, path, k);
    ObjectArrayOps(items, parent, q);
    var rows, marks := OpsAt(RowEvents(items, path), q), OpsAt(OptionalEvents(items, path), q);
    assert [] + ([] + rows + marks) == rows + marks;
  }

  /** On a path not visited before, `p[*].k` is required exactly when every object has key `k`. */
  lemma RequiredIffEverywhere(m: States, items: seq<Json>, parent: string, k: string)
    requires AllObjects(items) && CleanKey(k) && Join(ItemPath(parent), k) !in m
    requires forall x | x in items :: CleanFields(x.fields)
    requires exists x :: x in items && HasField(x, k)
    ensures var q := Join(ItemPath(parent), k);
            var m' := Run(m, WalkEvents(Arr(items), parent));
            q in m' && (m'[q].required <==> forall x | x in items :: HasField(x, k))
  {
    var x :| x in items && HasField(x, k);
    CountSome(items, x, k);
    CountAll(items, k);
    ItemPathNonEmpty(parent);
    RowsMention(items, ItemPath(parent), k);
    MemberOps(items, parent, k);
    var q := Join(ItemPath(parent), k);
    RunAt(m, WalkEvents(Arr(items), parent), q);
    var rows := OpsAt(RowEvents(items, ItemPath(parent)), q);
    CreatedRequired(rows);
    FoldSnoc(None, rows, MarkOptional);
    assert rows + [] == rows;
    hide Run, WalkEvents, RowEvents, CountKey, HasField, Join, ItemPath, AllObjects, CleanKey, CleanFields, Fold, OpsAt;
  }

  lemma {:induction false} CountSome(items: seq<Json>, x: Json, k: string)
    requires x in items && HasField(x, k)
    ensures CountKey(items, k) > 0
  {
    var n := |items| - 1;
    if items[n] != x {
      assert items == items[..n] + [items[n]];
      CountSome(items[..n], x, k);
    }
  }
}
