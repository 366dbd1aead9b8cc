/** Inference of a schema from observed JSON: a walk that updates one accumulator per path. */
module SchemaInference {
  import opened Options
  import opened Sorting
  import opened JsonValues
  import opened Paths

  datatype JsonType =
    | TObject | TArray | TString | TInteger | TNumber | TBoolean | TNull | TMixed | TUnknown

  const ENUM_THRESHOLD := 10
  const EXAMPLE_MAX_LEN := 200

  /** The mutable accumulator of one path. */
  datatype NodeState = NodeState(
    type_: JsonType, required: bool, nullable: bool, arrayItemType: Option<JsonType>,
    example: Option<Json>, enumValues: set<string>, enumDisabled: bool, isStringLeaf: bool)

  datatype SchemaNode = SchemaNode(
    path: string, type_: JsonType, required: bool, nullable: bool, arrayItemType: Option<JsonType>,
    enumValues: Option<seq<string>>, example: Option<Json>)

  function Fresh(t: JsonType): NodeState {
    NodeState(t, true, false, None, None, {}, false, false)
  }

  function ScalarType(v: Json): JsonType {
    match v
    case Null => TNull
    case Bool(_) => TBoolean
    case Int(_) => TInteger
    case Float(_) => TNumber
    case Str(_) => TString
    case _ => TUnknown
  }

  function Truncated(v: Json): Json {
    if v.Str? && |v.s| > EXAMPLE_MAX_LEN then Str(v.s[..EXAMPLE_MAX_LEN]) else v
  }

  // ---------------------------------------------------------------- what the walk does to one path

  datatype Op =
    | Ensure(t: JsonType)
    | SetItemType(t: JsonType)
    | Observe(v: Json)
    | MarkOptional

  datatype Event = Event(path: string, op: Op)

  function WithType(s: NodeState, t: JsonType): NodeState {
    if s.type_ == TNull then s.(type_ := t, nullable := true)
    else if s.type_ != t then s.(type_ := TMixed)
    else s
  }

  function WithExample(s: NodeState, v: Json): NodeState {
    if s.example == None then s.(example := Some(Truncated(v))) else s
  }

  function WithString(s: NodeState, v: string): NodeState {
    var leaf := s.(isStringLeaf := true);
    if s.enumDisabled then leaf
    else if |s.enumValues + {v}| > ENUM_THRESHOLD then leaf.(enumDisabled := true, enumValues := {})
    else leaf.(enumValues := s.enumValues + {v})
  }

  /** `_emit_value` of a scalar on the accumulator of its path. */
  function ObserveScalar(s: NodeState, v: Json): NodeState {
    if v.Null? then s.(nullable := true) else
      var s1 := WithExample(WithType(s, ScalarType(v)), v);
      if v.Str? then WithString(s1, v.s) else s1
  }

  function Apply(s: Option<NodeState>, op: Op): Option<NodeState> {
    match op
    case Ensure(t) => if s.Some? then s else Some(Fresh(t))
    case SetItemType(t) => if s.Some? then Some(s.value.(arrayItemType := Some(t))) else None
    case Observe(v) => Some(ObserveScalar(if s.Some? then s.value else Fresh(ScalarType(v)), v))
    case MarkOptional => if s.Some? then Some(s.value.(required := false)) else None
  }

  type States = map<string, NodeState>

  function StateAt(m: States, p: string): Option<NodeState> {
    if p in m then Some(m[p]) else None
  }

  function ApplyEvent(m: States, e: Event): States {
    match Apply(StateAt(m, e.path), e.op)
    case Some(s) => m[e.path := s]
    case None => m
  }

  function Run(m: States, es: seq<Event>): States {
    if es == [] then m else ApplyEvent(Run(m, es[..|es| - 1]), es[|es| - 1])
  }

  // ---------------------------------------------------------------- the events of a walk

  function WalkEvents(data: Json, parent: string): seq<Event>
    decreases data, 0
  {
    match data
    case Obj(fields) =>
      (if parent != "" then [Event(parent, Ensure(TObject))] else []) + FieldEvents(fields, parent)
    case Arr(items) =>
      var path := if parent != "" then parent else "[*]";
      [Event(path, Ensure(TArray))]
      + if items == [] then [Event(path, SetItemType(TUnknown))]
        else if AllObjects(items) then
          [Event(path, SetItemType(TObject))] + RowEvents(items, ItemPath(parent)) + OptionalEvents(items, ItemPath(parent))
        else ItemEvents(items, ItemPath(parent)) + [Event(path, SetItemType(ItemType(items)))]
    case _ => [Event(Own(parent), Observe(data))]
  }

  function EmitEvents(path: string, value: Json): seq<Event>
    decreases value, 1
  {
    match value
    case Obj(_) => [Event(path, Ensure(TObject))] + WalkEvents(value, path)
    case Arr(_) => WalkEvents(value, path)
    case _ => [Event(path, Observe(value))]
  }

  function FieldEvents(fields: seq<Field>, parent: string): seq<Event>
    decreases fields, 0
  {
    if fields == [] then [] else
      var n := |fields| - 1;
      FieldEvents(fields[..n], parent) + EmitEvents(Join(parent, fields[n].key), fields[n].value)
  }

  predicate AllObjects(items: seq<Json>) {
    forall x | x in items :: x.Obj?
  }

  /** The fields of every object of an array, filed under the one item path. */
  function RowEvents(items: seq<Json>, path: string): seq<Event>
    requires AllObjects(items)
    decreases items, 0
  {
    if items == [] then [] else
      var n := |items| - 1;
      RowEvents(items[..n], path) + FieldEvents(items[n].fields, path)
  }

  function ItemEvents(items: seq<Json>, path: string): seq<Event>
    decreases items, 0
  {
    if items == [] then [] else
      var n := |items| - 1;
      ItemEvents(items[..n], path) + EmitEvents(path, items[n])
  }

  function NonNullTypes(items: seq<Json>): set<JsonType> {
    if items == [] then {} else
      var n := |items| - 1;
      NonNullTypes(items[..n]) + if items[n].Null? then {} else {ScalarType(items[n])}
  }

  function TheOnly(ts: set<JsonType>): JsonType
    requires |ts| == 1
  {
    assert exists t :: ts == {t} by {
      var t :| t in ts;
      assert |ts - {t}| == 0;
      assert ts == {t};
    }
    var t :| ts == {t};
    t
  }

  function ItemType(items: seq<Json>): JsonType {
    var ts := NonNullTypes(items);
    if |ts| == 1 then TheOnly(ts) else if ts != {} then TMixed else TNull
  }

  /** The keys of a list of objects in the order they are first seen. */
  function KeysSeen(items: seq<Json>): seq<string>
    requires AllObjects(items)
  {
    if items == [] then [] else
      var n := |items| - 1;
      AddKeys(KeysSeen(items[..n]), items[n].fields)
  }

  function AddKeys(seen: seq<string>, fields: seq<Field>): seq<string> {
    if fields == [] then seen else
      var n := |fields| - 1;
      var before := AddKeys(seen, fields[..n]);
      if fields[n].key in before then before else before + [fields[n].key]
  }

  predicate HasField(item: Json, k: string) {
    item.Obj? && k in Keys(item.fields)
  }

  /** In how many of the objects a key occurs. */
  function CountKey(items: seq<Json>, k: string): nat {
    if items == [] then 0 else
      var n := |items| - 1;
      CountKey(items[..n], k) + if HasField(items[n], k) then 1 else 0
  }

  function CountIn(counts: map<string, nat>, k: string): nat {
    if k in counts then counts[k] else 0
  }

  function OptionalOf(keys: seq<string>, items: seq<Json>, path: string): seq<Event> {
    if keys == [] then [] else
      var n := |keys| - 1;
      OptionalOf(keys[..n], items, path)
      + if CountKey(items, keys[n]) < |items| then [Event(Join(path, keys[n]), MarkOptional)] else []
  }

  lemma OptionalStep(keys: seq<string>, i: nat, items: seq<Json>, path: string)
    requires i < |keys|
    ensures OptionalOf(keys[..i + 1], items, path) ==
            if CountKey(items, keys[i]) < |items|
            then OptionalOf(keys[..i], items, path) + [Event(Join(path, keys[i]), MarkOptional)]
            else OptionalOf(keys[..i], items, path)
  {
    assert keys[..i + 1][..i] == keys[..i];
  }

  function OptionalEvents(items: seq<Json>, path: string): seq<Event>
    requires AllObjects(items)
  {
    OptionalOf(KeysSeen(items), items, path)
  }

  // ---------------------------------------------------------------- the result

  function Finalize(path: string, s: NodeState): SchemaNode {
    SchemaNode(path, s.type_, s.required, s.nullable, s.arrayItemType,
               if s.isStringLeaf && !s.enumDisabled && s.enumValues != {} then Some(Sorted(s.enumValues)) else None,
               s.example)
  }

  function FinalNodes(m: States): seq<SchemaNode> {
    var ps := Sorted(m.Keys);
    seq(|ps|, i requires 0 <= i < |ps| => assert ps[i] in ps; Finalize(ps[i], m[ps[i]]))
  }

  function InferSchema(data: Json): seq<SchemaNode> {
    FinalNodes(Run(map[], WalkEvents(data, "")))
  }

  // ---------------------------------------------------------------- runs, path by path

  function OpsAt(es: seq<Event>, p: string): seq<Op> {
    if es == [] then [] else
      var n := |es| - 1;
      OpsAt(es[..n], p) + if es[n].path == p then [es[n].op] else []
  }

  function Fold(s: Option<NodeState>, ops: seq<Op>): Option<NodeState> {
    if ops == [] then s else Apply(Fold(s, ops[..|ops| - 1]), ops[|ops| - 1])
  }

  lemma {:induction false} RunConcat(m: States, a: seq<Event>, b: seq<Event>)
    ensures Run(m, a + b) == Run(Run(m, a), b)
  {
    hide ApplyEvent;
    if b == [] {
      assert a + b == a;
    } else {
      var n := |b| - 1;
      RunConcat(m, a, b[..n]);
      assert (a + b)[..|a + b| - 1] == a + b[..n];
    }
  }

  lemma {:induction false} OpsConcat(a: seq<Event>, b: seq<Event>, p: string)
    ensures OpsAt(a + b, p) == OpsAt(a, p) + OpsAt(b, p)
  {
    if b == [] {
      assert a + b == a;
    } else {
      var n := |b| - 1;
      OpsConcat(a, b[..n], p);
      assert (a + b)[..|a + b| - 1] == a + b[..n];
    }
  }

  lemma {:induction false} FoldConcat(s: Option<NodeState>, a: seq<Op>, b: seq<Op>)
    ensures Fold(s, a + b) == Fold(Fold(s, a), b)
  {
    hide Apply;
    if b == [] {
      assert a + b == a;
    } else {
      var n := |b| - 1;
      FoldConcat(s, a, b[..n]);
      assert (a + b)[..|a + b| - 1] == a + b[..n];
    }
  }

  /** A path's accumulator depends only on the operations filed under that path, in their order. */
  lemma {:induction false} RunAt(m: States, es: seq<Event>, p: string)
    ensures StateAt(Run(m, es), p) == Fold(StateAt(m, p), OpsAt(es, p))
  {
    if es != [] {
      var n := |es| - 1;
      RunAt(m, es[..n], p);
      hide Apply, ApplyEvent;
      if es[n].path == p {
        var ops := OpsAt(es, p);
        assert ops == OpsAt(es[..n], p) + [es[n].op];
        assert ops[..|ops| - 1] == OpsAt(es[..n], p);
      } else {
        assert OpsAt(es, p) == OpsAt(es[..n], p);
      }
    }
  }

  /** Equal operations at every path give equal accumulators. */
  lemma SameOpsSameStates(a: seq<Event>, b: seq<Event>)
    requires forall p :: OpsAt(a, p) == OpsAt(b, p)
    ensures Run(map[], a) == Run(map[], b)
  {
    hide Run, Fold, OpsAt;
    var x, y := Run(map[], a), Run(map[], b);
    forall p ensures StateAt(x, p) == StateAt(y, p) {
      RunAt(map[], a, p);
      RunAt(map[], b, p);
    }
    assert forall p :: p in x <==> p in y by {
      forall p ensures p in x <==> p in y {
        assert StateAt(x, p) == StateAt(y, p);
      }
    }
    forall p | p in x ensures x[p] == y[p] {
      assert StateAt(x, p) == StateAt(y, p);
    }
  }

  // ---------------------------------------------------------------- the walk as the program performs it

  class Inferrer {
    var states: States

    constructor ()
      ensures states == map[]
    {
      states := map[];
    }

    method EnsureNode(path: string, t: JsonType)
      modifies this
      ensures states == ApplyEvent(old(states), Event(path, Ensure(t)))
      ensures path in states
    {
      if path !in states {
        states := states[path := Fresh(t)];
      }
      assert states == old(states)[path := states[path]];
    }

    method SetArrayItemType(path: string, t: JsonType)
      requires path in states
      modifies this
      ensures states == ApplyEvent(old(states), Event(path, SetItemType(t)))
    {
      states := states[path := states[path].(arrayItemType := Some(t))];
    }

    method EmitScalar(path: string, value: Json)
      modifies this
      ensures states == ApplyEvent(old(states), Event(path, Observe(value)))
    {
      EnsureNode(path, ScalarType(value));
      var state := states[path];
      if value.Null? {
        state := state.(nullable := true);
      } else {
        state := Typed(state, value);
        if value.Str? {
          state := Listed(state, value.s);
        }
      }
      assert state == ObserveScalar(states[path], value);
      hide ObserveScalar;
      states := states[path := state];
    }

    static method Typed(entry: NodeState, value: Json) returns (state: NodeState)
      ensures state == WithExample(WithType(entry, ScalarType(value)), value)
    {
      var t := ScalarType(value);
      state := entry;
      if state.type_ == TNull {
        state := state.(type_ := t, nullable := true);
      } else if state.type_ != t {
        state := state.(type_ := TMixed);
      }
      if state.example == None {
        state := state.(example := Some(Truncated(value)));
      }
    }

    static method Listed(entry: NodeState, value: string) returns (state: NodeState)
      ensures state == WithString(entry, value)
    {
      state := entry.(isStringLeaf := true);
      if !state.enumDisabled {
        state := state.(enumValues := state.enumValues + {value});
        if |state.enumValues| > ENUM_THRESHOLD {
          state := state.(enumDisabled := true, enumValues := {});
        }
      }
    }

    method EmitValue(path: string, value: Json)
      requires WellFormed(value)
      modifies this
      ensures states == Run(old(states), EmitEvents(path, value))
      decreases value, 1
    {
      match value {
        case Obj(_) =>
          EnsureNode(path, TObject);
          Walk(value, path);
          RunConcat(old(states), [Event(path, Ensure(TObject))], WalkEvents(value, path));
        case Arr(_) =>
          Walk(value, path);
        case _ =>
          EmitScalar(path, value);
      }
    }

    method EmitFields(fields: seq<Field>, parent: string)
      requires forall f | f in fields :: WellFormed(f.value)
      modifies this
      ensures states == Run(old(states), FieldEvents(fields, parent))
      decreases fields, 0
    {
      for i := 0 to |fields|
        invariant states == Run(old(states), FieldEvents(fields[..i], parent))
      {
        assert fields[i] in fields;
        EmitValue(Join(parent, fields[i].key), fields[i].value);
        assert fields[..i + 1][..i] == fields[..i];
        RunConcat(old(states), FieldEvents(fields[..i], parent),
                  EmitEvents(Join(parent, fields[i].key), fields[i].value));
      }
      assert fields[..|fields|] == fields;
    }

    method EmitRows(items: seq<Json>, path: string)
      requires AllObjects(items) && forall x | x in items :: WellFormed(x)
      modifies this
      ensures states == Run(old(states), RowEvents(items, path))
      decreases items, 0
    {
      for i := 0 to |items|
        invariant states == Run(old(states), RowEvents(items[..i], path))
      {
        assert items[i] in items;
        EmitFields(items[i].fields, path);
        assert items[..i + 1][..i] == items[..i];
        RunConcat(old(states), RowEvents(items[..i], path), FieldEvents(items[i].fields, path));
      }
      assert items[..|items|] == items;
    }

    /** Counts the keys of one more object; `seen` lists the keys of `counts` in first-seen order. */
    static method CountItemKeys(fields: seq<Field>, seen0: seq<string>, counts0: map<string, nat>)
      returns (seen: seq<string>, counts: map<string, nat>)
      requires Distinct(fields) && forall k :: k in counts0 <==> k in seen0
      ensures seen == AddKeys(seen0, fields)
      ensures forall k :: k in counts <==> k in seen
      ensures forall k :: CountIn(counts, k) == CountIn(counts0, k) + if k in Keys(fields) then 1 else 0
    {
      seen, counts := seen0, counts0;
      for j := 0 to |fields|
        invariant seen == AddKeys(seen0, fields[..j])
        invariant forall k :: k in counts <==> k in seen
        invariant forall k :: CountIn(counts, k) == CountIn(counts0, k) + if k in Keys(fields[..j]) then 1 else 0
      {
        var k := fields[j].key;
        assert fields[..j + 1][..j] == fields[..j];
        assert Keys(fields[..j + 1]) == Keys(fields[..j]) + {k};
        assert k !in Keys(fields[..j]);
        if k !in counts {
          seen := seen + [k];
        }
        counts := counts[k := CountIn(counts, k) + 1];
      }
      assert fields[..|fields|] == fields;
    }

    /** `keys_seen`: the keys in first-seen order, with their counts. */
    static method CountKeys(items: seq<Json>) returns (seen: seq<string>, counts: map<string, nat>)
      requires AllObjects(items) && forall x | x in items :: WellFormed(x)
      ensures seen == KeysSeen(items)
      ensures forall k :: k in counts <==> k in seen
      ensures forall k :: CountIn(counts, k) == CountKey(items, k)
    {
      hide AddKeys;
      seen, counts := [], map[];
      for i := 0 to |items|
        invariant seen == KeysSeen(items[..i])
        invariant forall k :: k in counts <==> k in seen
        invariant forall k :: CountIn(counts, k) == CountKey(items[..i], k)
      {
        assert items[i] in items && items[..i + 1][..i] == items[..i];
        seen, counts := CountItemKeys(items[i].fields, seen, counts);
      }
      assert items[..|items|] == items;
    }

    method MarkNode(path: string)
      modifies this
      ensures states == ApplyEvent(old(states), Event(path, MarkOptional))
    {
      if path in states {
        states := states[path := states[path].(required := false)];
      }
    }

    method MarkOptionalKeys(seen: seq<string>, counts: map<string, nat>, items: seq<Json>, path: string)
      requires forall k :: CountIn(counts, k) == CountKey(items, k)
      modifies this
      ensures states == Run(old(states), OptionalOf(seen, items, path))
    {
      for i := 0 to |seen|
        invariant states == Run(old(states), OptionalOf(seen[..i], items, path))
      {
        OptionalStep(seen, i, items, path);
        hide Join, CountKey, CountIn, ApplyEvent, OptionalOf, Run;
        if CountIn(counts, seen[i]) < |items| {
          var e := Event(Join(path, seen[i]), MarkOptional);
          RunConcat(old(states), OptionalOf(seen[..i], items, path), [e]);
          MarkNode(Join(path, seen[i]));
        }
      }
      assert seen[..|seen|] == seen;
    }

    method EmitItems(items: seq<Json>, path: string) returns (types: set<JsonType>)
      requires forall x | x in items :: WellFormed(x)
      modifies this
      ensures states == Run(old(states), ItemEvents(items, path))
      ensures types == NonNullTypes(items)
      decreases items, 0
    {
      types := {};
      for i := 0 to |items|
        invariant states == Run(old(states), ItemEvents(items[..i], path))
        invariant types == NonNullTypes(items[..i])
      {
        assert items[i] in items && items[..i + 1][..i] == items[..i];
        var t := ScalarType(items[i]);
        if t != TNull {
          types := types + {t};
        }
        assert types == NonNullTypes(items[..i + 1]);
        hide ScalarType, NonNullTypes, WellFormed;
        EmitValue(path, items[i]);
        RunConcat(old(states), ItemEvents(items[..i], path), EmitEvents(path, items[i]));
      }
      assert items[..|items|] == items;
    }

    method Walk(data: Json, parent: string)
      requires WellFormed(data)
      modifies this
      ensures states == Run(old(states), WalkEvents(data, parent))
      decreases data, 0
    {
      match data {
        case Obj(fields) =>
          if parent != "" {
            EnsureNode(parent, TObject);
          }
          RunConcat(old(states), if parent != "" then [Event(parent, Ensure(TObject))] else [], FieldEvents(fields, parent));
          EmitFields(fields, parent);
        case Arr(items) =>
          WalkArray(items, parent);
        case _ =>
          EmitScalar(Own(parent), data);
      }
    }

    method WalkArray(items: seq<Json>, parent: string)
      requires forall x | x in items :: WellFormed(x)
      modifies this
      ensures states == Run(old(states), WalkEvents(Arr(items), parent))
      decreases items, 1
    {
      var path := if parent != "" then parent else "[*]";
      var ensure := Event(path, Ensure(TArray));
      EnsureNode(path, TArray);
      ghost var entered := states;
      if items == [] {
        RunConcat(old(states), [ensure], [Event(path, SetItemType(TUnknown))]);
        SetArrayItemType(path, TUnknown);
      } else if AllObjects(items) {
        var rows := RowEvents(items, ItemPath(parent));
        var kind := Event(path, SetItemType(TObject));
        SetArrayItemType(path, TObject);
        var seen, counts := CountKeys(items);
        EmitRows(items, ItemPath(parent));
        MarkOptionalKeys(seen, counts, items, ItemPath(parent));
        RunFour(old(states), [ensure], [kind], rows, OptionalEvents(items, ItemPath(parent)));
      } else {
        var events := ItemEvents(items, ItemPath(parent));
        var types := EmitItems(items, ItemPath(parent));
        var kind := if |types| == 1 then TheOnly(types) else if types != {} then TMixed else TNull;
        RunKeeps(entered, events, path);
        RunConcat(entered, events, [Event(path, SetItemType(kind))]);
        RunConcat(old(states), [ensure], events + [Event(path, SetItemType(kind))]);
        SetArrayItemType(path, kind);
      }
    }
  }

  lemma RunFour(m: States, a: seq<Event>, b: seq<Event>, c: seq<Event>, d: seq<Event>)
    ensures Run(m, a + (b + c + d)) == Run(Run(Run(Run(m, a), b), c), d)
  {
    RunConcat(m, a, b + c + d);
    RunConcat(Run(m, a), b + c, d);
    RunConcat(Run(m, a), b, c);
  }

  /** No event forgets a path. */
  lemma {:induction false} RunKeeps(m: States, es: seq<Event>, p: string)
    requires p in m
    ensures p in Run(m, es)
  {
    if es != [] {
      RunKeeps(m, es[..|es| - 1], p);
    }
  }

  /** `infer_schema`. */
  method Infer(data: Json) returns (nodes: seq<SchemaNode>)
    requires WellFormed(data)
    ensures nodes == InferSchema(data)
  {
    var inferrer := new Inferrer();
    inferrer.Walk(data, "");
    nodes := FinalNodes(inferrer.states);
  }
}
