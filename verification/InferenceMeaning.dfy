/** What every node of an inferred schema says, field by field, in terms of the values of the document. */
module InferenceMeaning {
  import opened Options
  import opened Sorting
  import opened JsonValues
  import opened SchemaInference
  import opened InferenceSummary
  import opened DocumentSights

  // ---------------------------------------------------------------- what the fields of a node mean

  ghost predicate OnlyKind(values: seq<Json>, t: JsonType) {
    forall v | v in values ::
      v.Null? || match t
                 case TBoolean => v.Bool?
                 case TInteger => v.Int?
                 case TNumber => v.Float?
                 case TString => v.Str?
                 case TUnknown => v.Arr? || v.Obj?
                 case _ => false
  }

  predicate SameKind(v: Json, w: Json) {
    && (v.Bool? <==> w.Bool?) && (v.Int? <==> w.Int?) && (v.Float? <==> w.Float?) && (v.Str? <==> w.Str?)
    && (v.Null? <==> w.Null?)
  }

  /** `t` names the one kind of the values that are not null, `mixed` stands for two kinds and `null` for none. */
  ghost predicate KindsNamed(values: seq<Json>, t: JsonType) {
    match t
    case TNull => forall v | v in values :: v.Null?
    case TMixed => exists v, w :: v in values && w in values && !v.Null? && !w.Null? && !SameKind(v, w)
    case _ => (exists v :: v in values && !v.Null?) && OnlyKind(values, t)
  }

  /** The values of a sight that are neither objects nor arrays. */
  function ScalarsOf(values: seq<Json>): (r: seq<Json>)
    ensures forall v :: v in r <==> v in values && !v.Obj? && !v.Arr?
  {
    if values == [] then [] else
      var n := |values| - 1;
      assert values == values[..n] + [values[n]];
      ScalarsOf(values[..n]) + if values[n].IsScalar() then [values[n]] else []
  }

  /** Only scalars: their kinds. Behind a first object or array any scalar but null makes the type `mixed`. */
  ghost predicate TypeMeans(values: seq<Json>, t: JsonType)
    requires values != []
  {
    var plain := forall v | v in values :: v.Null? || v.Obj? || v.Arr?;
    if values[0].Obj? then t == if plain then TObject else TMixed
    else if values[0].Arr? then t == if plain then TArray else TMixed
    else KindsNamed(ScalarsOf(values), t)
  }

  /** The item type is that of the array settled last. */
  ghost predicate ItemTypeMeans(arrays: seq<Json>, t: Option<JsonType>) {
    if arrays == [] then t == None else
      match arrays[|arrays| - 1]
      case Arr(items) =>
        t.Some? && if items == [] then t.value == TUnknown
                   else if forall x | x in items :: x.Obj? then t.value == TObject
                   else KindsNamed(items, t.value)
      case _ => false
  }

  /** Between one and ten distinct strings are listed, in ascending order. */
  ghost predicate EnumMeans(values: seq<Json>, listed: Option<seq<string>>) {
    var strings := set v | v in values && v.Str? :: v.s;
    && (listed.Some? <==> 1 <= |strings| <= 10)
    && (listed.Some? ==> StrictlyAscending(listed.value) && forall s :: s in listed.value <==> s in strings)
  }

  /** The first scalar that is not null, a string cut to 200 characters. */
  ghost predicate ExampleMeans(values: seq<Json>, example: Option<Json>) {
    match example
    case None => forall v | v in values :: v.Null? || v.Obj? || v.Arr?
    case Some(x) =>
      exists i :: 0 <= i < |values| && !values[i].Null? && !values[i].Obj? && !values[i].Arr?
                  && (forall v | v in values[..i] :: v.Null? || v.Obj? || v.Arr?)
                  && x == if values[i].Str? && |values[i].s| > 200 then Str(values[i].s[..200]) else values[i]
  }

  ghost predicate NodeMeans(g: Sight, n: SchemaNode) {
    && g.values != []
    && TypeMeans(g.values, n.type_)
    && (n.required <==> !g.optional)
    && (n.nullable <==> Null in g.values)
    && ItemTypeMeans(g.arrays, n.arrayItemType)
    && EnumMeans(g.values, n.enumValues)
    && ExampleMeans(g.values, n.example)
  }

  // ---------------------------------------------------------------- kinds

  predicate Container(v: Json) {
    v.Obj? || v.Arr?
  }

  lemma TypeOfKind(v: Json, w: Json)
    requires !v.Null? && !w.Null?
    ensures ScalarType(v) == ScalarType(w) <==> SameKind(v, w)
    ensures ScalarType(v) !in {TNull, TMixed, TObject, TArray}
  {
  }

  lemma TypeNames(values: seq<Json>, t: JsonType)
    requires t != TNull && t != TMixed
    ensures OnlyKind(values, t) <==> forall v | v in values && !v.Null? :: ScalarType(v) == t
  {
  }

  /** The joined type names the kinds of the values. */
  lemma ItemTypeNames(values: seq<Json>)
    ensures KindsNamed(values, ItemType(values))
  {
    var ts := NonNullTypes(values);
    forall v | v in values && !v.Null? ensures ScalarType(v) in ts {
      TypesSeen(values, ScalarType(v));
    }
    forall u | u in ts ensures exists v :: v in values && !v.Null? && ScalarType(v) == u {
      TypesSeen(values, u);
    }
    hide NonNullTypes, ScalarType, OnlyKind, SameKind;
    if |ts| == 1 {
      var t := TheOnly(ts);
      assert t in ts && ts == {t};
      var v :| v in values && !v.Null? && ScalarType(v) == t;
      TypeOfKind(v, v);
      TypeNames(values, t);
    } else if ts != {} {
      TwoKinds(values, ts);
    }
  }

  lemma TwoKinds(values: seq<Json>, ts: set<JsonType>)
    requires |ts| > 1 && forall u | u in ts :: exists v :: v in values && !v.Null? && ScalarType(v) == u
    ensures exists v, w :: v in values && w in values && !v.Null? && !w.Null? && !SameKind(v, w)
  {
    hide ScalarType, SameKind;
    var t :| t in ts;
    var rest := ts - {t};
    assert |rest| > 0;
    var u :| u in rest;
    var v :| v in values && !v.Null? && ScalarType(v) == t;
    var w :| w in values && !w.Null? && ScalarType(w) == u;
    TypeOfKind(v, w);
  }

  // ---------------------------------------------------------------- the accumulator as a summary

  lemma SeenLast(s: NodeState, values: seq<Json>)
    requires values != []
    ensures var n := |values| - 1;
            && Seen(s, values) == Touch(Seen(s, values[..n]), values[n])
            && ScalarsOf(values) == if values[n].IsScalar() then ScalarsOf(values[..n]) + [values[n]] else ScalarsOf(values[..n])
  {
  }

  /** A path first met with a scalar holds the summary of its scalars. */
  lemma {:induction false} SeenFromScalar(values: seq<Json>)
    requires values != [] && values[0].IsScalar()
    ensures ScalarsOf(values) != []
    ensures Seen(Fresh(ScalarType(values[0])), values) == SummaryState(ScalarsOf(values))
  {
    hide SummaryState, ObserveScalar, ScalarsOf, Seen;
    var n := |values| - 1;
    var s := Fresh(ScalarType(values[0]));
    SeenLast(s, values);
    if n == 0 {
      assert values[..0] == [] && values == [values[0]];
      SeenNone(s);
      FirstObservation(values[0]);
      assert ScalarsOf(values) == [values[0]];
      ObservedFirst(values[0]);
    } else {
      SeenFromScalar(values[..n]);
      if values[n].IsScalar() {
        ObserveOnSummary(ScalarsOf(values[..n]), values[n]);
      }
    }
  }

  lemma ObservedFirst(v: Json)
    ensures Apply(None, Observe(v)) == Some(ObserveScalar(Fresh(ScalarType(v)), v))
  {
  }

  lemma SeenNone(s: NodeState)
    ensures Seen(s, []) == s && ScalarsOf([]) == []
  {
  }

  ghost function Behind(t: JsonType, scalars: seq<Json>): NodeState {
    SummaryState(scalars).(type_ := if forall v | v in scalars :: v.Null? then t else TMixed)
  }

  lemma BehindNone(t: JsonType)
    ensures Behind(t, []) == Fresh(t)
  {
    NothingSummed();
  }

  lemma BehindNull(t: JsonType, scalars: seq<Json>)
    ensures ObserveScalar(Behind(t, scalars), Null) == Behind(t, scalars + [Null])
  {
    hide SummaryState;
    NullOnSummary(scalars);
    assert (scalars + [Null])[..|scalars|] == scalars;
  }

  lemma BehindType(t: JsonType, scalars: seq<Json>, v: Json)
    requires (t == TObject || t == TArray) && v.IsScalar() && !v.Null?
    ensures WithType(Behind(t, scalars), ScalarType(v)) == Behind(t, scalars).(type_ := TMixed)
    ensures Behind(t, scalars + [v]).type_ == TMixed
  {
    hide SummaryState;
    assert v in scalars + [v];
    TypeOfKind(v, v);
  }

  lemma BehindValue(t: JsonType, scalars: seq<Json>, v: Json)
    requires (t == TObject || t == TArray) && v.IsScalar() && !v.Null?
    ensures ObserveScalar(Behind(t, scalars), v) == Behind(t, scalars + [v])
  {
    hide ItemType, StringsSeen, FirstExample, NullSeen, WithType, WithExample, WithString, ScalarType;
    var s := Behind(t, scalars).(type_ := TMixed);
    BehindType(t, scalars, v);
    NullsJoin(scalars, v);
    FirstExampleJoins(scalars, s, v);
    StringJoins(scalars, v);
    if v.Str? {
      StringOnSummary(scalars, WithExample(s, v), v.s);
    }
  }

  /** A path first met with an object or array keeps that type until a scalar other than null comes. */
  lemma {:induction false} SeenFromContainer(t: JsonType, values: seq<Json>)
    requires t == TObject || t == TArray
    ensures Seen(Fresh(t), values) == Behind(t, ScalarsOf(values))
  {
    hide Behind, ObserveScalar, ScalarsOf, Seen;
    if values == [] {
      BehindNone(t);
      SeenNone(Fresh(t));
    } else {
      var n := |values| - 1;
      SeenLast(Fresh(t), values);
      SeenFromContainer(t, values[..n]);
      if values[n].IsScalar() {
        if values[n].Null? {
          BehindNull(t, ScalarsOf(values[..n]));
        } else {
          BehindValue(t, ScalarsOf(values[..n]), values[n]);
        }
      }
    }
  }

  function StartType(v: Json): JsonType {
    if v.Obj? then TObject else if v.Arr? then TArray else ScalarType(v)
  }

  /** What a sight leaves in a fresh accumulator. */
  lemma SeenState(values: seq<Json>)
    requires values != []
    ensures var s := Seen(Fresh(StartType(values[0])), values);
            && TypeMeans(values, s.type_)
            && s == SummaryState(ScalarsOf(values)).(type_ := s.type_)
  {
    hide SummaryState, Seen, KindsNamed, ScalarType;
    var v := values[0];
    if v.IsScalar() {
      SeenFromScalar(values);
      ItemTypeNames(ScalarsOf(values));
      SummaryType(ScalarsOf(values));
    } else {
      SeenFromContainer(StartType(v), values);
    }
  }

  lemma SummaryType(scalars: seq<Json>)
    ensures SummaryState(scalars).type_ == ItemType(scalars)
  {
  }

  // ---------------------------------------------------------------- the fields of the summary

  lemma StringsAre(values: seq<Json>)
    ensures StringsSeen(ScalarsOf(values)) == set v | v in values && v.Str? :: v.s
  {
    var ss := ScalarsOf(values);
    var strings := set v | v in values && v.Str? :: v.s;
    hide ScalarsOf;
    forall s | s in strings ensures s in StringsSeen(ss) {
      assert Str(s) in ss;
      var i :| 0 <= i < |ss| && ss[i] == Str(s);
    }
    forall s | s in StringsSeen(ss) ensures s in strings {
      var i :| 0 <= i < |ss| && ss[i].Str? && ss[i].s == s;
      assert ss[i] in ss;
    }
  }

  lemma EnumIs(path: string, values: seq<Json>, s: NodeState)
    requires s == SummaryState(ScalarsOf(values)).(type_ := s.type_, required := s.required, arrayItemType := s.arrayItemType)
    ensures EnumMeans(values, Finalize(path, s).enumValues)
  {
    hide ScalarsOf, ItemType, FirstExample, StringsSeen, StrictlyAscending, Sorted;
    StringsAre(values);
    var strings := StringsSeen(ScalarsOf(values));
    assert strings == {} <==> |strings| == 0;
    if 1 <= |strings| <= 10 {
      SortedAscending(strings);
    }
  }

  lemma {:induction false} ExampleIs(values: seq<Json>)
    ensures ExampleMeans(values, FirstExample(ScalarsOf(values)))
  {
    hide ScalarsOf, FirstExample, ExampleMeans, Truncated;
    if values == [] {
      NoExample();
    } else {
      var n := |values| - 1;
      ExampleIs(values[..n]);
      SeenLast(Fresh(TNull), values);
      if values[n].IsScalar() {
        FirstExampleSnoc(ScalarsOf(values[..n]), values[n]);
      }
      ExampleStep(values, FirstExample(ScalarsOf(values[..n])));
    }
  }

  lemma NoExample()
    ensures ExampleMeans([], FirstExample(ScalarsOf([])))
  {
  }

  lemma FirstExampleSnoc(scalars: seq<Json>, v: Json)
    ensures FirstExample(scalars + [v]) ==
            if FirstExample(scalars).Some? then FirstExample(scalars) else if v.Null? then None else Some(Truncated(v))
  {
    assert (scalars + [v])[..|scalars|] == scalars;
  }

  lemma ExampleStep(values: seq<Json>, before: Option<Json>)
    requires values != [] && ExampleMeans(values[..|values| - 1], before)
    ensures var v := values[|values| - 1];
            ExampleMeans(values, if before.Some? || v.Null? || Container(v) then before else Some(Truncated(v)))
  {
    var n := |values| - 1;
    var v := values[n];
    assert values == values[..n] + [v];
    if before.Some? {
      var i :| 0 <= i < n && !values[..n][i].Null? && !Container(values[..n][i])
               && (forall w | w in values[..n][..i] :: w.Null? || w.Obj? || w.Arr?)
               && before.value == if values[..n][i].Str? && |values[..n][i].s| > 200 then Str(values[..n][i].s[..200])
                                  else values[..n][i];
      assert values[..n][..i] == values[..i] && values[..n][i] == values[i];
    }
  }

  lemma NullIs(values: seq<Json>)
    ensures NullSeen(ScalarsOf(values)) <==> Null in values
  {
  }

  lemma ItemTypeIs(v: Json, arrays: seq<Json>)
    requires arrays != [] && arrays[|arrays| - 1] == v && v.Arr?
    ensures ItemTypeMeans(arrays, Some(KindOf(v)))
  {
    hide KindsNamed, ItemType;
    ItemTypeNames(v.items);
  }

  // ---------------------------------------------------------------- the final nodes

  lemma StartsFresh(ops: seq<Op>, v: Json)
    requires ops != [] && ops[0] == FirstOp(v)
    ensures Fold(None, ops) == Fold(Some(Fresh(StartType(v))), ops)
  {
    hide Apply, ScalarType;
    var rest := ops[1..];
    assert ops == [ops[0]] + rest;
    FoldConcat(None, [ops[0]], rest);
    FoldConcat(Some(Fresh(StartType(v))), [ops[0]], rest);
    FoldOne(Fresh(StartType(v)), ops[0]);
    assert [ops[0]][..0] == [];
    FirstSame(v);
  }

  lemma FirstSame(v: Json)
    ensures Apply(None, FirstOp(v)) == Apply(Some(Fresh(StartType(v))), FirstOp(v))
  {
  }

  /** The accumulator of a path after the whole walk. */
  lemma FinalState(data: Json, p: string)
    ensures var g := LookInDocument(data, p);
            StateAt(Run(map[], WalkEvents(data, "")), p) ==
            if g.values == [] then None else Some(After(Fresh(StartType(g.values[0])), g))
  {
    hide LookInDocument, WalkEvents, Run, After, Fold, StartType, FirstOp;
    var ops := OpsAt(WalkEvents(data, ""), p);
    var g := LookInDocument(data, p);
    hide OpsAt;
    RunAt(map[], WalkEvents(data, ""), p);
    DocumentTold(data, p);
    FoldNothing();
    if g.values != [] {
      StartsFresh(ops, g.values[0]);
    }
  }

  lemma FoldNothing()
    ensures Fold(None, []) == None
  {
  }

  /** Every array in a sight is one. */
  lemma {:induction false} ArraysAreArrays(value: Json, path: string, p: string)
    ensures forall v | v in LookAt(value, path, p).arrays :: v.Arr?
    decreases value, 1
  {
    match value
    case Obj(fields) => MembersArrays(fields, path, p);
    case Arr(items) =>
      if forall x | x in items :: x.Obj? {
        RowsArrays(items, path + "[*]", p);
      } else {
        ItemsArrays(items, path + "[*]", p);
      }
    case _ =>
  }

  lemma {:induction false} MembersArrays(fields: seq<Field>, path: string, p: string)
    ensures forall v | v in LookInMembers(fields, path, p).arrays :: v.Arr?
    decreases fields, 0
  {
    hide LookAt;
    if fields != [] {
      var n := |fields| - 1;
      MembersArrays(fields[..n], path, p);
      ArraysAreArrays(fields[n].value, if path == "" then fields[n].key else path + "." + fields[n].key, p);
    }
  }

  lemma {:induction false} RowsArrays(rows: seq<Json>, path: string, p: string)
    requires forall x | x in rows :: x.Obj?
    ensures forall v | v in LookInEachRow(rows, path, p).arrays :: v.Arr?
    decreases rows, 0
  {
    hide LookInMembers;
    if rows != [] {
      var n := |rows| - 1;
      RowsArrays(rows[..n], path, p);
      MembersArrays(rows[n].fields, path, p);
    }
  }

  lemma {:induction false} ItemsArrays(items: seq<Json>, path: string, p: string)
    ensures forall v | v in LookInItems(items, path, p).arrays :: v.Arr?
    decreases items, 0
  {
    hide LookAt;
    if items != [] {
      var n := |items| - 1;
      ItemsArrays(items[..n], path, p);
      ArraysAreArrays(items[n], path, p);
    }
  }

  lemma DocumentArrays(data: Json, p: string)
    ensures forall v | v in LookInDocument(data, p).arrays :: v.Arr?
  {
    hide LookAt, LookInMembers;
    match data
    case Obj(fields) => MembersArrays(fields, "", p);
    case Arr(_) => ArraysAreArrays(data, "", p);
    case _ => ArraysAreArrays(data, "[root]", p);
  }

  lemma FinalNodeMeans(g: Sight, path: string)
    requires g.values != [] && forall v | v in g.arrays :: v.Arr?
    ensures NodeMeans(g, Finalize(path, After(Fresh(StartType(g.values[0])), g)))
  {
    hide Seen, SummaryState, TypeMeans, ItemTypeMeans, EnumMeans, ExampleMeans, ScalarsOf, KindOf, StartType;
    var start := Fresh(StartType(g.values[0]));
    var s := After(start, g);
    SeenState(g.values);
    SeenKeeps(start, g.values, true, None);
    SummaryFields(ScalarsOf(g.values));
    NullIs(g.values);
    ExampleIs(g.values);
    EnumIs(path, g.values, s);
    if g.arrays == [] {
      NoItemType();
    } else {
      var v := g.arrays[|g.arrays| - 1];
      assert v in g.arrays;
      ItemTypeIs(v, g.arrays);
    }
  }

  lemma NoItemType()
    ensures ItemTypeMeans([], None)
  {
  }

  lemma SummaryFields(scalars: seq<Json>)
    ensures var s := SummaryState(scalars); s.nullable == NullSeen(scalars) && s.example == FirstExample(scalars)
  {
  }

  /**
    * Every node of an inferred schema means what the document shows at its path: the type the kinds of the values,
    * `nullable` a null, `required` that no row lacks the key, the item type the kinds of the items, the enum the
    * distinct strings and the example the first scalar.
    */
  lemma EveryNodeMeans(data: Json, i: nat)
    requires i < |InferSchema(data)|
    ensures var n := InferSchema(data)[i]; NodeMeans(LookInDocument(data, n.path), n)
  {
    hide Run, WalkEvents, LookInDocument, NodeMeans, After, Finalize, StartType;
    var m := Run(map[], WalkEvents(data, ""));
    var p := Sorted(m.Keys)[i];
    assert p in Sorted(m.Keys);
    FinalState(data, p);
    DocumentArrays(data, p);
    var g := LookInDocument(data, p);
    FinalNodeMeans(g, p);
    FinalPath(p, m[p]);
  }

  lemma FinalPath(p: string, s: NodeState)
    ensures Finalize(p, s).path == p
  {
  }

  lemma NodePaths(m: States)
    ensures |FinalNodes(m)| == |Sorted(m.Keys)|
    ensures forall i | 0 <= i < |FinalNodes(m)| :: FinalNodes(m)[i].path == Sorted(m.Keys)[i]
  {
    hide Sorted;
    var ps := Sorted(m.Keys);
    forall i | 0 <= i < |ps| ensures FinalNodes(m)[i].path == ps[i] {
      assert ps[i] in ps;
    }
  }

  /** There is a node for exactly the paths at which something stands. */
  lemma EveryPathHasNode(data: Json, p: string)
    ensures (exists i :: 0 <= i < |InferSchema(data)| && InferSchema(data)[i].path == p) <==> LookInDocument(data, p).values != []
  {
    hide Run, WalkEvents, LookInDocument, After, FinalNodes, StartType, Sorted;
    var m := Run(map[], WalkEvents(data, ""));
    NodePaths(m);
    FinalState(data, p);
    var ps := Sorted(m.Keys);
    if p in m {
      assert p in ps;
      var i :| 0 <= i < |ps| && ps[i] == p;
      assert InferSchema(data)[i].path == p;
    }
    if i :| 0 <= i < |InferSchema(data)| && InferSchema(data)[i].path == p {
      assert ps[i] in ps;
    }
  }

  /** The nodes stand in ascending order of their paths, so no path has two. */
  lemma NodesAscend(data: Json, i: nat, j: nat)
    requires i < j < |InferSchema(data)|
    ensures InferSchema(data)[i].path != InferSchema(data)[j].path && Le(InferSchema(data)[i].path, InferSchema(data)[j].path)
  {
    hide Run, WalkEvents, FinalNodes, Sorted;
    var m := Run(map[], WalkEvents(data, ""));
    NodePaths(m);
    SortedAscending(m.Keys);
    AscendingOrder(Sorted(m.Keys), i, j);
  }

  lemma {:induction false} AscendingOrder(r: seq<string>, i: nat, j: nat)
    requires StrictlyAscending(r) && i < j < |r|
    ensures r[i] != r[j] && Le(r[i], r[j])
  {
    hide Le;
    assert r[1..][j - 1] == r[j] && r[j] in r[1..];
    if i > 0 {
      assert r[i] == r[1..][i - 1];
      AscendingOrder(r[1..], i - 1, j - 1);
    }
  }

  /** The types of a path at which only scalars stand. */
  lemma ScalarTypes(data: Json, i: nat)
    requires i < |InferSchema(data)|
    requires forall v | v in LookInDocument(data, InferSchema(data)[i].path).values :: v.IsScalar()
    ensures var n := InferSchema(data)[i];
            var values := LookInDocument(data, n.path).values;
            && (n.type_ == TNull <==> forall v | v in values :: v.Null?)
            && (n.type_ == TBoolean <==> (exists v :: v in values && v.Bool?) && forall v | v in values :: v.Null? || v.Bool?)
            && (n.type_ == TInteger <==> (exists v :: v in values && v.Int?) && forall v | v in values :: v.Null? || v.Int?)
            && (n.type_ == TNumber <==> (exists v :: v in values && v.Float?) && forall v | v in values :: v.Null? || v.Float?)
            && (n.type_ == TString <==> (exists v :: v in values && v.Str?) && forall v | v in values :: v.Null? || v.Str?)
            && n.type_ in {TNull, TBoolean, TInteger, TNumber, TString, TMixed}
  {
    hide InferSchema, LookInDocument, ScalarsOf, ItemTypeMeans, EnumMeans, ExampleMeans;
    EveryNodeMeans(data, i);
    var n := InferSchema(data)[i];
    var values := LookInDocument(data, n.path).values;
    assert values[0] in values;
    KindsExact(ScalarsOf(values), n.type_);
    hide KindsNamed;
  }

  lemma KindsExact(values: seq<Json>, t: JsonType)
    requires KindsNamed(values, t) && forall v | v in values :: v.IsScalar()
    ensures t == TNull <==> forall v | v in values :: v.Null?
    ensures t == TBoolean <==> (exists v :: v in values && v.Bool?) && forall v | v in values :: v.Null? || v.Bool?
    ensures t == TInteger <==> (exists v :: v in values && v.Int?) && forall v | v in values :: v.Null? || v.Int?
    ensures t == TNumber <==> (exists v :: v in values && v.Float?) && forall v | v in values :: v.Null? || v.Float?
    ensures t == TString <==> (exists v :: v in values && v.Str?) && forall v | v in values :: v.Null? || v.Str?
    ensures t in {TNull, TBoolean, TInteger, TNumber, TString, TMixed}
  {
  }
}
