/** What a JSON document shows at each path, and that the inference walk records exactly that. */
module DocumentSights {
  import opened Options
  import opened JsonValues
  import opened Paths
  import opened SchemaInference
  import opened InferenceKeyOrder

  /**
    * What is seen at one path: the values that stand there, in document order; the arrays among them in the order in
    * which their item type is settled; and whether some array shows the path to be optional.
    */
  datatype Sight = Sight(values: seq<Json>, arrays: seq<Json>, optional: bool)

  function Both(a: Sight, b: Sight): Sight {
    Sight(a.values + b.values, a.arrays + b.arrays, a.optional || b.optional)
  }

  /** What is seen at `p` when `value` stands at `path`. Items share one path; all-object arrays show only members. */
  ghost function LookAt(value: Json, path: string, p: string): Sight
    decreases value, 1
  {
    match value
    case Obj(fields) =>
      Both(Sight(if p == path then [value] else [], [], false), LookInMembers(fields, path, p))
    case Arr(items) =>
      var here := if p == (if path == "" then "[*]" else path) then [value] else [];
      if forall x | x in items :: x.Obj? then
        Both(Sight(here, here, false), LookInRows(items, path + "[*]", p))
      else
        Both(Sight(here, [], false), Both(LookInItems(items, path + "[*]", p), Sight([], here, false)))
    case _ => Sight(if p == path then [value] else [], [], false)
  }

  ghost function LookInMembers(fields: seq<Field>, path: string, p: string): Sight
    decreases fields, 0
  {
    if fields == [] then Sight([], [], false) else
      var n := |fields| - 1;
      Both(LookInMembers(fields[..n], path, p),
           LookAt(fields[n].value, if path == "" then fields[n].key else path + "." + fields[n].key, p))
  }

  /** The members of all rows, and whether `p` is the path of a key that some row has and another lacks. */
  ghost function LookInRows(rows: seq<Json>, path: string, p: string): Sight
    requires forall x | x in rows :: x.Obj?
    decreases rows, 1
  {
    Both(LookInEachRow(rows, path, p), Sight([], [], SomeLack(rows, path, p)))
  }

  ghost predicate SomeLack(rows: seq<Json>, path: string, p: string)
    requires forall x | x in rows :: x.Obj?
  {
    exists k :: p == path + "." + k && (exists x :: x in rows && k in Keys(x.fields))
                && (exists x :: x in rows && k !in Keys(x.fields))
  }

  ghost function LookInEachRow(rows: seq<Json>, path: string, p: string): Sight
    requires forall x | x in rows :: x.Obj?
    decreases rows, 0
  {
    if rows == [] then Sight([], [], false) else
      var n := |rows| - 1;
      Both(LookInEachRow(rows[..n], path, p), LookInMembers(rows[n].fields, path, p))
  }

  ghost function LookInItems(items: seq<Json>, path: string, p: string): Sight
    decreases items, 0
  {
    if items == [] then Sight([], [], false) else
      var n := |items| - 1;
      Both(LookInItems(items[..n], path, p), LookAt(items[n], path, p))
  }

  /** The whole document: a root object has no path, a root array is at `[*]` and a root scalar at `[root]`. */
  ghost function LookInDocument(data: Json, p: string): Sight {
    match data
    case Obj(fields) => LookInMembers(fields, "", p)
    case Arr(_) => LookAt(data, "", p)
    case _ => LookAt(data, "[root]", p)
  }

  // ---------------------------------------------------------------- an accumulator after a sight

  function Touch(s: NodeState, v: Json): NodeState {
    if v.IsScalar() then ObserveScalar(s, v) else s
  }

  function Seen(s: NodeState, values: seq<Json>): NodeState {
    if values == [] then s else Touch(Seen(s, values[..|values| - 1]), values[|values| - 1])
  }

  function KindOf(v: Json): JsonType {
    match v
    case Arr(items) => if items == [] then TUnknown else if AllObjects(items) then TObject else ItemType(items)
    case _ => TUnknown
  }

  function LastKind(before: Option<JsonType>, arrays: seq<Json>): Option<JsonType> {
    if arrays == [] then before else Some(KindOf(arrays[|arrays| - 1]))
  }

  function After(s: NodeState, g: Sight): NodeState {
    Seen(s, g.values).(required := s.required && !g.optional, arrayItemType := LastKind(s.arrayItemType, g.arrays))
  }

  lemma PartsKeep(s: NodeState, v: Json, w: string, r: bool, t: Option<JsonType>)
    ensures var s' := s.(required := r, arrayItemType := t);
            && WithType(s', ScalarType(v)) == WithType(s, ScalarType(v)).(required := r, arrayItemType := t)
            && WithExample(s', v) == WithExample(s, v).(required := r, arrayItemType := t)
            && WithString(s', w) == WithString(s, w).(required := r, arrayItemType := t)
  {
    hide Truncated, ScalarType;
  }

  lemma TouchCommutes(s: NodeState, v: Json, r: bool, t: Option<JsonType>)
    ensures Touch(s.(required := r, arrayItemType := t), v) == Touch(s, v).(required := r, arrayItemType := t)
  {
    hide ScalarType, WithType, WithExample, WithString;
    if v.IsScalar() && !v.Null? {
      PartsKeep(s, v, "", r, t);
      PartsKeep(WithType(s, ScalarType(v)), v, "", r, t);
      if v.Str? {
        PartsKeep(WithExample(WithType(s, ScalarType(v)), v), v, v.s, r, t);
      }
    }
  }

  lemma TouchKeeps(s: NodeState, v: Json, r: bool, t: Option<JsonType>)
    ensures Touch(s.(required := r, arrayItemType := t), v) == Touch(s, v).(required := r, arrayItemType := t)
    ensures Touch(s, v).required == s.required && Touch(s, v).arrayItemType == s.arrayItemType
  {
    hide Touch;
    TouchCommutes(s, v, r, t);
    TouchCommutes(s, v, s.required, s.arrayItemType);
    assert s.(required := s.required, arrayItemType := s.arrayItemType) == s;
  }

  lemma {:induction false} SeenKeeps(s: NodeState, values: seq<Json>, r: bool, t: Option<JsonType>)
    ensures Seen(s.(required := r, arrayItemType := t), values) == Seen(s, values).(required := r, arrayItemType := t)
    ensures Seen(s, values).required == s.required && Seen(s, values).arrayItemType == s.arrayItemType
  {
    hide Touch;
    if values != [] {
      var n := |values| - 1;
      SeenKeeps(s, values[..n], r, t);
      TouchKeeps(Seen(s, values[..n]), values[n], r, t);
    }
  }

  lemma {:induction false} SeenConcat(s: NodeState, a: seq<Json>, b: seq<Json>)
    ensures Seen(s, a + b) == Seen(Seen(s, a), b)
  {
    hide Touch;
    if b == [] {
      assert a + b == a;
    } else {
      var n := |b| - 1;
      SeenConcat(s, a, b[..n]);
      assert (a + b)[..|a + b| - 1] == a + b[..n];
    }
  }

  lemma AfterBoth(s: NodeState, g: Sight, h: Sight)
    ensures After(After(s, g), h) == After(s, Both(g, h))
  {
    hide Seen, KindOf;
    SeenKeeps(Seen(s, g.values), h.values, s.required && !g.optional, LastKind(s.arrayItemType, g.arrays));
    SeenConcat(s, g.values, h.values);
  }

  // ---------------------------------------------------------------- operations that record a sight

  function FirstOp(v: Json): Op {
    match v
    case Obj(_) => Ensure(TObject)
    case Arr(_) => Ensure(TArray)
    case _ => Observe(v)
  }

  ghost predicate Headed(ops: seq<Op>, values: seq<Json>) {
    (ops == [] <==> values == []) && (ops != [] ==> ops[0] == FirstOp(values[0]))
  }

  ghost predicate Within(ops: seq<Op>, g: Sight) {
    forall s: NodeState :: Fold(Some(s), ops) == Some(After(s, g))
  }

  /** The operations start a fresh accumulator as the first value does and leave the sight in it. */
  ghost predicate Told(ops: seq<Op>, g: Sight) {
    Headed(ops, g.values) && Within(ops, g)
  }

  lemma BothWithin(a: seq<Op>, b: seq<Op>, g: Sight, h: Sight)
    requires Within(a, g) && Within(b, h)
    ensures Within(a + b, Both(g, h))
  {
    hide Fold, After, Both;
    forall s: NodeState ensures Fold(Some(s), a + b) == Some(After(s, Both(g, h))) {
      FoldConcat(Some(s), a, b);
      AfterBoth(s, g, h);
    }
  }

  lemma BothHeaded(a: seq<Op>, b: seq<Op>, g: Sight, h: Sight)
    requires Headed(a, g.values) && (a != [] || Headed(b, h.values))
    ensures Headed(a + b, Both(g, h).values)
  {
  }

  lemma BothTold(a: seq<Op>, b: seq<Op>, g: Sight, h: Sight)
    requires Told(a, g) && Told(b, h)
    ensures Told(a + b, Both(g, h))
  {
    hide Within, Headed, Both;
    BothHeaded(a, b, g, h);
    BothWithin(a, b, g, h);
  }

  lemma NothingTold()
    ensures Told([], Sight([], [], false))
  {
  }

  lemma FoldOne(s: NodeState, op: Op)
    ensures Fold(Some(s), [op]) == Apply(Some(s), op)
  {
    assert [op][..0] == [];
  }

  lemma SeenOne(s: NodeState, v: Json)
    ensures Seen(s, [v]) == Touch(s, v)
  {
    assert [v][..0] == [];
  }

  /** A value is recorded by its first operation. */
  lemma FirstTold(v: Json)
    ensures Told([FirstOp(v)], Sight([v], [], false))
  {
    hide ObserveScalar;
    forall s: NodeState ensures Fold(Some(s), [FirstOp(v)]) == Some(After(s, Sight([v], [], false))) {
      FoldOne(s, FirstOp(v));
      SeenOne(s, v);
      TouchKeeps(s, v, s.required, s.arrayItemType);
    }
  }

  lemma MarkWithin()
    ensures Within([MarkOptional], Sight([], [], true))
  {
    forall s: NodeState ensures Fold(Some(s), [MarkOptional]) == Some(After(s, Sight([], [], true))) {
      FoldOne(s, MarkOptional);
    }
  }

  lemma KindWithin(v: Json)
    ensures Within([SetItemType(KindOf(v))], Sight([], [v], false))
  {
    hide KindOf;
    forall s: NodeState ensures Fold(Some(s), [SetItemType(KindOf(v))]) == Some(After(s, Sight([], [v], false))) {
      FoldOne(s, SetItemType(KindOf(v)));
    }
  }

  lemma AgainTold(v: Json)
    requires v.Obj?
    ensures Told([Ensure(TObject), Ensure(TObject)], Sight([v], [], false))
  {
    FirstTold(v);
    hide After;
    var op := Ensure(TObject);
    forall s: NodeState ensures Fold(Some(s), [op, op]) == Some(After(s, Sight([v], [], false))) {
      FoldConcat(Some(s), [op], [op]);
      assert [op] + [op] == [op, op];
      FoldOne(s, op);
      FoldOne(After(s, Sight([v], [], false)), op);
    }
  }

  // ---------------------------------------------------------------- the walk records what is seen

  lemma ObjectHere(v: Json, path: string, p: string)
    requires v.Obj?
    ensures Told(OpHere(path, Ensure(TObject), p) + if path != "" then OpHere(path, Ensure(TObject), p) else [],
                 Sight(if p == path then [v] else [], [], false))
  {
    hide Told;
    FirstTold(v);
    AgainTold(v);
    NothingTold();
    var op := Ensure(TObject);
    assert [op] + [op] == [op, op] && [op] + [] == [op] && OpHere(path, op, p) == if path == p then [op] else [];
    assert FirstOp(v) == op && (path != p ==> [] + [] == OpHere(path, op, p));
  }

  lemma ObjectOps(fields: seq<Field>, path: string, p: string)
    ensures OpsAt(EmitEvents(path, Obj(fields)), p) ==
            OpHere(path, Ensure(TObject), p) + (if path != "" then OpHere(path, Ensure(TObject), p) else [])
            + OpsAt(FieldEvents(fields, path), p)
  {
    hide FieldEvents;
    var e := Event(path, Ensure(TObject));
    var again := if path != "" then [e] else [];
    OpsOne(e, p);
    OpsConcat(again, FieldEvents(fields, path), p);
    OpsConcat([e], again + FieldEvents(fields, path), p);
  }

  lemma {:induction false} EmitTold(value: Json, path: string, p: string)
    ensures Told(OpsAt(EmitEvents(path, value), p), LookAt(value, path, p))
    decreases value, 1
  {
    hide Told, OpsAt, LookInMembers, WalkEvents, FieldEvents;
    match value
    case Obj(fields) =>
      ObjectOps(fields, path, p);
      ObjectHere(value, path, p);
      MembersTold(fields, path, p);
      BothTold(OpHere(path, Ensure(TObject), p) + (if path != "" then OpHere(path, Ensure(TObject), p) else []),
               OpsAt(FieldEvents(fields, path), p),
               Sight(if p == path then [value] else [], [], false), LookInMembers(fields, path, p));
    case Arr(items) =>
      ArrayTold(items, path, p);
    case _ =>
      OpsOne(Event(path, Observe(value)), p);
      FirstTold(value);
      NothingTold();
  }

  lemma {:induction false} MembersTold(fields: seq<Field>, path: string, p: string)
    ensures Told(OpsAt(FieldEvents(fields, path), p), LookInMembers(fields, path, p))
    decreases fields, 0
  {
    hide Told, EmitEvents, LookAt;
    if fields == [] {
      NothingTold();
    } else {
      var n := |fields| - 1;
      MembersTold(fields[..n], path, p);
      EmitTold(fields[n].value, Join(path, fields[n].key), p);
      OpsConcat(FieldEvents(fields[..n], path), EmitEvents(Join(path, fields[n].key), fields[n].value), p);
      BothTold(OpsAt(FieldEvents(fields[..n], path), p), OpsAt(EmitEvents(Join(path, fields[n].key), fields[n].value), p),
               LookInMembers(fields[..n], path, p), LookAt(fields[n].value, Join(path, fields[n].key), p));
    }
  }

  lemma {:induction false} EachRowTold(rows: seq<Json>, path: string, p: string)
    requires AllObjects(rows)
    ensures Told(OpsAt(RowEvents(rows, path), p), LookInEachRow(rows, path, p))
    decreases rows, 0
  {
    hide Told, FieldEvents, LookInMembers;
    if rows == [] {
      NothingTold();
    } else {
      var n := |rows| - 1;
      EachRowTold(rows[..n], path, p);
      MembersTold(rows[n].fields, path, p);
      OpsConcat(RowEvents(rows[..n], path), FieldEvents(rows[n].fields, path), p);
      BothTold(OpsAt(RowEvents(rows[..n], path), p), OpsAt(FieldEvents(rows[n].fields, path), p),
               LookInEachRow(rows[..n], path, p), LookInMembers(rows[n].fields, path, p));
    }
  }

  lemma {:induction false} ItemsTold(items: seq<Json>, path: string, p: string)
    ensures Told(OpsAt(ItemEvents(items, path), p), LookInItems(items, path, p))
    decreases items, 0
  {
    hide Told, EmitEvents, LookAt;
    if items == [] {
      NothingTold();
    } else {
      var n := |items| - 1;
      ItemsTold(items[..n], path, p);
      EmitTold(items[n], path, p);
      OpsConcat(ItemEvents(items[..n], path), EmitEvents(path, items[n]), p);
      BothTold(OpsAt(ItemEvents(items[..n], path), p), OpsAt(EmitEvents(path, items[n]), p),
               LookInItems(items[..n], path, p), LookAt(items[n], path, p));
    }
  }

  // ---------------------------------------------------------------- optional keys

  lemma {:induction false} KeyCounted(rows: seq<Json>, k: string)
    requires AllObjects(rows)
    ensures CountKey(rows, k) <= |rows|
    ensures CountKey(rows, k) > 0 <==> exists x :: x in rows && k in Keys(x.fields)
    ensures CountKey(rows, k) < |rows| <==> exists x :: x in rows && k !in Keys(x.fields)
  {
    hide Keys;
    if rows != [] {
      var n := |rows| - 1;
      KeyCounted(rows[..n], k);
      assert rows == rows[..n] + [rows[n]];
      assert rows[n].Obj?;
    }
  }

  lemma LackIsOptional(rows: seq<Json>, path: string, p: string)
    requires AllObjects(rows) && path != ""
    ensures SomeLack(rows, path, p) <==> OptionalHere(rows, path, p)
  {
    hide CountKey, Keys;
    forall k
      ensures 0 < CountKey(rows, k) < |rows| <==>
              (exists x :: x in rows && k in Keys(x.fields)) && (exists x :: x in rows && k !in Keys(x.fields))
      ensures Join(path, k) == path + "." + k
    {
      KeyCounted(rows, k);
    }
  }

  lemma SomethingStands(value: Json, path: string)
    requires path != ""
    ensures LookAt(value, path, path).values != []
  {
    hide LookInMembers, LookInRows, LookInItems;
  }

  lemma {:induction false} MemberStands(fields: seq<Field>, path: string, k: string)
    requires path != "" && k in Keys(fields)
    ensures LookInMembers(fields, path, path + "." + k).values != []
  {
    hide LookAt;
    var n := |fields| - 1;
    if fields[n].key == k {
      SomethingStands(fields[n].value, path + "." + k);
    } else {
      MemberStands(fields[..n], path, k);
    }
  }

  lemma {:induction false} RowStands(rows: seq<Json>, path: string, k: string, x: Json)
    requires AllObjects(rows) && path != "" && x in rows && k in Keys(x.fields)
    ensures LookInEachRow(rows, path, path + "." + k).values != []
  {
    hide LookInMembers, Keys;
    var n := |rows| - 1;
    if rows[n] == x {
      MemberStands(x.fields, path, k);
    } else {
      assert rows == rows[..n] + [rows[n]];
      RowStands(rows[..n], path, k, x);
    }
  }

  lemma LackStands(rows: seq<Json>, path: string, p: string)
    requires AllObjects(rows) && path != "" && SomeLack(rows, path, p)
    ensures LookInEachRow(rows, path, p).values != []
  {
    hide LookInEachRow, Keys;
    var k :| p == path + "." + k && (exists x :: x in rows && k in Keys(x.fields));
    var x :| x in rows && k in Keys(x.fields);
    RowStands(rows, path, k, x);
  }

  lemma {:induction false} RowsTold(rows: seq<Json>, path: string, p: string)
    requires AllObjects(rows) && path != ""
    ensures Told(OpsAt(RowEvents(rows, path), p) + OpsAt(OptionalEvents(rows, path), p), LookInRows(rows, path, p))
    decreases rows, 1
  {
    hide OpsAt, RowEvents, OptionalEvents, LookInEachRow, SomeLack, Within, OptionalHere;
    EachRowTold(rows, path, p);
    OptionalAt(rows, path, p);
    LackIsOptional(rows, path, p);
    var ops, marks := OpsAt(RowEvents(rows, path), p), OpsAt(OptionalEvents(rows, path), p);
    var g, h := LookInEachRow(rows, path, p), Sight([], [], SomeLack(rows, path, p));
    if SomeLack(rows, path, p) {
      LackStands(rows, path, p);
      MarkWithin();
    } else {
      NothingTold();
    }
    BothHeaded(ops, marks, g, h);
    BothWithin(ops, marks, g, h);
  }

  // ---------------------------------------------------------------- arrays

  lemma OwnArrayTold(v: Json, path: string, p: string)
    requires v.Arr?
    ensures var here := if p == (if path == "" then "[*]" else path) then [v] else [];
            && Told(OpHere(ArrayOwn(path), Ensure(TArray), p), Sight(here, [], false))
            && Within(OpHere(ArrayOwn(path), SetItemType(KindOf(v)), p), Sight([], here, false))
  {
    hide Within, KindOf, Headed;
    FirstTold(v);
    KindWithin(v);
    NothingTold();
  }

  /** An array of objects, or an empty one: its item type is settled first. */
  lemma ArrayHeadTold(v: Json, path: string, p: string)
    requires v.Arr?
    ensures var here := if p == (if path == "" then "[*]" else path) then [v] else [];
            Told(OpHere(ArrayOwn(path), Ensure(TArray), p) + OpHere(ArrayOwn(path), SetItemType(KindOf(v)), p),
                 Sight(here, here, false))
  {
    hide Within, KindOf;
    var here := if p == (if path == "" then "[*]" else path) then [v] else [];
    OwnArrayTold(v, path, p);
    var a, b := OpHere(ArrayOwn(path), Ensure(TArray), p), OpHere(ArrayOwn(path), SetItemType(KindOf(v)), p);
    var g, h := Sight(here, [], false), Sight([], here, false);
    BothHeaded(a, b, g, h);
    BothWithin(a, b, g, h);
    assert Both(g, h) == Sight(here, here, false);
  }

  lemma {:induction false} ObjectArrayTold(items: seq<Json>, path: string, p: string)
    requires AllObjects(items) && items != []
    ensures Told(OpsAt(WalkEvents(Arr(items), path), p), LookAt(Arr(items), path, p))
    decreases items, 2
  {
    hide Told, OpsAt, WalkEvents, RowEvents, OptionalEvents, LookInRows;
    var v := Arr(items);
    var here := if p == (if path == "" then "[*]" else path) then [v] else [];
    var a, b := OpHere(ArrayOwn(path), Ensure(TArray), p), OpHere(ArrayOwn(path), SetItemType(TObject), p);
    var c, d := OpsAt(RowEvents(items, ItemPath(path)), p), OpsAt(OptionalEvents(items, ItemPath(path)), p);
    ObjectArrayOps(items, path, p);
    ArrayHeadTold(v, path, p);
    RowsTold(items, ItemPath(path), p);
    BothTold(a + b, c + d, Sight(here, here, false), LookInRows(items, path + "[*]", p));
    assert a + (b + c + d) == (a + b) + (c + d);
  }

  lemma {:induction false} MixedArrayTold(items: seq<Json>, path: string, p: string)
    requires !AllObjects(items)
    ensures Told(OpsAt(WalkEvents(Arr(items), path), p), LookAt(Arr(items), path, p))
    decreases items, 2
  {
    hide Within, OpsAt, WalkEvents, ItemEvents, LookInItems, ItemType;
    var v := Arr(items);
    var here := if p == (if path == "" then "[*]" else path) then [v] else [];
    var a, b := OpHere(ArrayOwn(path), Ensure(TArray), p), OpHere(ArrayOwn(path), SetItemType(KindOf(v)), p);
    var c := OpsAt(ItemEvents(items, ItemPath(path)), p);
    var g, h, k := Sight(here, [], false), LookInItems(items, path + "[*]", p), Sight([], here, false);
    MixedArrayOps(items, path, p);
    OwnArrayTold(v, path, p);
    ItemsTold(items, ItemPath(path), p);
    BothWithin(c, b, h, k);
    BothWithin(a, c + b, g, Both(h, k));
    if a == [] {
      assert b == [] && c + b == c && Both(h, k).values == h.values;
    }
    BothHeaded(a, c + b, g, Both(h, k));
  }

  lemma EmptyArrayLook(path: string, p: string)
    ensures var here := if p == (if path == "" then "[*]" else path) then [Arr([])] else [];
            LookAt(Arr([]), path, p) == Sight(here, here, false)
  {
    assert !SomeLack([], path + "[*]", p);
    assert LookInRows([], path + "[*]", p) == Sight([], [], false);
  }

  lemma EmptyArrayOps(path: string, p: string)
    ensures OpsAt(WalkEvents(Arr([]), path), p) ==
            OpHere(ArrayOwn(path), Ensure(TArray), p) + OpHere(ArrayOwn(path), SetItemType(TUnknown), p)
  {
    hide OpsAt;
    var e, f := Event(ArrayOwn(path), Ensure(TArray)), Event(ArrayOwn(path), SetItemType(TUnknown));
    OpsConcat([e], [f], p);
    OpsOne(e, p);
    OpsOne(f, p);
  }

  lemma EmptyArrayTold(path: string, p: string)
    ensures Told(OpsAt(WalkEvents(Arr([]), path), p), LookAt(Arr([]), path, p))
  {
    hide Told, OpsAt, WalkEvents, LookAt;
    ArrayHeadTold(Arr([]), path, p);
    EmptyArrayOps(path, p);
    EmptyArrayLook(path, p);
  }

  lemma {:induction false} ArrayTold(items: seq<Json>, path: string, p: string)
    ensures Told(OpsAt(WalkEvents(Arr(items), path), p), LookAt(Arr(items), path, p))
    decreases items, 3
  {
    hide Told, OpsAt, WalkEvents, LookAt;
    if items == [] {
      EmptyArrayTold(path, p);
    } else if AllObjects(items) {
      ObjectArrayTold(items, path, p);
    } else {
      MixedArrayTold(items, path, p);
    }
  }

  lemma DocumentTold(data: Json, p: string)
    ensures Told(OpsAt(WalkEvents(data, ""), p), LookInDocument(data, p))
  {
    hide Told, OpsAt, EmitEvents, FieldEvents, LookInMembers;
    match data
    case Obj(fields) =>
      MembersTold(fields, "", p);
      assert WalkEvents(data, "") == FieldEvents(fields, "");
    case Arr(items) =>
      hide WalkEvents, LookAt;
      ArrayTold(items, "", p);
    case _ =>
      OpsOne(Event("[root]", Observe(data)), p);
      FirstTold(data);
      NothingTold();
  }
}
