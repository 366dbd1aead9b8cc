/** Canonical schemas, their flattening into paths, and the compatibility verdict of a change. */
module Classifier {
  import opened Options
  import opened Sorting
  import opened JsonValues
  import opened Decimals
  import opened Paths

  // ---------------------------------------------------------------- canonical schemas

  function Leaf(typeName: string, nullable: bool): Json {
    Obj([Field("type", Str(typeName)), Field("nullable", Bool(nullable))])
  }

  /** `canonicalize`: scalars become typed leaves, objects are sorted by key. */
  function Canonicalize(payload: Json): Json {
    match payload
    case Obj(fields) => Obj(ByKey(CanonicalizeValues(fields)))
    case Arr(items) => Arr(CanonicalizeItems(items))
    case Null => Leaf("null", true)
    case Bool(_) => Leaf("boolean", false)
    case Int(_) => Leaf("integer", false)
    case Float(_) => Leaf("number", false)
    case Str(_) => Leaf("string", false)
  }

  function CanonicalizeValues(fields: seq<Field>): (r: seq<Field>)
    ensures |r| == |fields|
    ensures forall i | 0 <= i < |fields| :: r[i] == Field(fields[i].key, Canonicalize(fields[i].value))
  {
    if fields == [] then [] else
      [Field(fields[0].key, Canonicalize(fields[0].value))] + CanonicalizeValues(fields[1..])
  }

  function CanonicalizeItems(items: seq<Json>): (r: seq<Json>)
    ensures |r| == |items|
    ensures forall i | 0 <= i < |items| :: r[i] == Canonicalize(items[i])
  {
    if items == [] then [] else [Canonicalize(items[0])] + CanonicalizeItems(items[1..])
  }

  // ---------------------------------------------------------------- flattening

  const ARRAY_MARKER := Leaf("array", false)
  const UNKNOWN_MARKER := Leaf("unknown", true)

  /** `_flatten`: a schema as a map from path to typed node; a later path overwrites an equal earlier one. */
  function Flatten(schema: Json, prefix: string): map<string, Json> {
    match schema
    case Obj(fields) =>
      if "type" in Keys(fields) then map[Own(prefix) := schema] else FlattenFields(fields, prefix)
    case Arr(items) => map[Own(prefix) := ARRAY_MARKER] + FlattenItems(items, prefix)
    case _ => map[Own(prefix) := UNKNOWN_MARKER]
  }

  function FlattenFields(fields: seq<Field>, prefix: string): map<string, Json> {
    if fields == [] then map[] else
      var last := fields[|fields| - 1];
      FlattenFields(fields[..|fields| - 1], prefix) + Flatten(last.value, Join(prefix, last.key))
  }

  function FlattenItems(items: seq<Json>, prefix: string): map<string, Json> {
    if items == [] then map[] else
      var n := |items| - 1;
      FlattenItems(items[..n], prefix) + Flatten(items[n], IndexPath(prefix, n))
  }

  /** The same flattening with the dictionary filled by loops. */
  method FlattenSchema(schema: Json, prefix: string) returns (flat: map<string, Json>)
    ensures flat == Flatten(schema, prefix)
    decreases schema
  {
    hide Join, IndexPath, Own, Keys;
    flat := map[];
    match schema {
      case Obj(fields) =>
        if "type" in Keys(fields) {
          flat := flat[Own(prefix) := schema];
          return;
        }
        for i := 0 to |fields|
          invariant flat == FlattenFields(fields[..i], prefix)
        {
          var part := FlattenSchema(fields[i].value, Join(prefix, fields[i].key));
          flat := flat + part;
          assert fields[..i + 1][..i] == fields[..i];
        }
        assert fields[..|fields|] == fields;
      case Arr(items) =>
        flat := flat[Own(prefix) := ARRAY_MARKER];
        for i := 0 to |items|
          invariant flat == map[Own(prefix) := ARRAY_MARKER] + FlattenItems(items[..i], prefix)
        {
          var part := FlattenSchema(items[i], IndexPath(prefix, i));
          flat := flat + part;
          assert items[..i + 1][..i] == items[..i];
        }
        assert items[..|items|] == items;
      case _ =>
        flat := flat[Own(prefix) := UNKNOWN_MARKER];
    }
  }

  // ---------------------------------------------------------------- classification

  datatype Compatibility = SAFE | BACKWARD_COMPATIBLE | FORWARD_COMPATIBLE | RISKY | BREAKING

  function Rank(c: Compatibility): nat {
    match c
    case SAFE => 0
    case BACKWARD_COMPATIBLE => 1
    case FORWARD_COMPATIBLE => 2
    case RISKY => 3
    case BREAKING => 4
  }

  datatype Verdict = Verdict(classification: Compatibility, reason: string)

  predicate HasKey(node: Json, k: string) {
    node.Obj? && k in Keys(node.fields)
  }

  function Lookup(node: Json, k: string): Option<Json> {
    if HasKey(node, k) then Some(Get(node.fields, k)) else None
  }

  /** Python's `bool` of a JSON value. */
  predicate Truthy(j: Json) {
    match j
    case Null => false
    case Bool(b) => b
    case Int(n) => n != 0
    case Float(repr) => repr != "0.0" && repr != "-0.0"
    case Str(s) => s != ""
    case Arr(items) => items != []
    case Obj(fields) => fields != []
  }

  /** Python's `str` of an object or array. */
  type Show = Json -> string

  /** Python's `str` of a `type` entry. */
  function TypeText(show: Show, j: Json): string {
    match j
    case Null => "None"
    case Bool(b) => if b then "True" else "False"
    case Int(n) => if n < 0 then "-" + Decimal(-n) else Decimal(n)
    case Float(repr) => repr
    case Str(s) => s
    case _ => show(j)
  }

  function TypeOf(show: Show, node: Json): string {
    match node
    case Obj(fields) => if "type" in Keys(fields) then TypeText(show, Get(fields, "type")) else "object"
    case Arr(_) => "array"
    case _ => "unknown"
  }

  function NullableOf(node: Json): Option<bool> {
    match Lookup(node, "nullable")
    case Some(v) => Some(Truthy(v))
    case None => None
  }

  function EnumOf(node: Json): Option<set<Json>> {
    match Lookup(node, "enum")
    case Some(Arr(items)) => Some(set i | 0 <= i < |items| :: items[i])
    case _ => None
  }

  function ClassifyAdded(new_: Json): Verdict {
    var required := match Lookup(new_, "required") case Some(v) => Truthy(v) case None => false;
    if required then Verdict(FORWARD_COMPATIBLE, "added required field")
    else Verdict(SAFE, "added optional field")
  }

  function ClassifyRemoved(old_: Json): Verdict {
    var required := if old_.Obj? then
                      match Lookup(old_, "required") case Some(v) => Truthy(v) case None => true
                    else false;
    if required then Verdict(BREAKING, "removed required field")
    else Verdict(RISKY, "removed optional field")
  }

  function ClassifyRetyped(oldType: string, newType: string): Verdict {
    if oldType == "integer" && newType == "number" then Verdict(RISKY, "int->float widening")
    else if oldType == "number" && newType == "integer" then Verdict(BREAKING, "float->int narrowing")
    else if oldType == "string" && newType in {"integer", "number"} then Verdict(BREAKING, "string->number")
    else Verdict(BREAKING, "type changed " + oldType + "->" + newType)
  }

  function ClassifyChanged(show: Show, old_: Json, new_: Json): Verdict {
    if TypeOf(show, old_) != TypeOf(show, new_) then ClassifyRetyped(TypeOf(show, old_), TypeOf(show, new_))
    else if NullableOf(old_) == Some(false) && NullableOf(new_) == Some(true) then
      Verdict(BACKWARD_COMPATIBLE, "required field becomes nullable")
    else if NullableOf(old_) == Some(true) && NullableOf(new_) == Some(false) then
      Verdict(BREAKING, "nullable field becomes required")
    else match (EnumOf(old_), EnumOf(new_))
      case (Some(o), Some(n)) =>
        if o < n then Verdict(FORWARD_COMPATIBLE, "enum expansion")
        else if n < o then Verdict(BREAKING, "enum contraction")
        else Verdict(SAFE, "no compatibility risk")
      case _ => Verdict(SAFE, "no compatibility risk")
  }

  function Classify(show: Show, old_: Option<Json>, new_: Option<Json>): Verdict {
    match (old_, new_)
    case (None, Some(n)) => ClassifyAdded(n)
    case (Some(o), None) => ClassifyRemoved(o)
    case (Some(o), Some(n)) => ClassifyChanged(show, o, n)
    case (None, None) => Verdict(SAFE, "no compatibility risk")
  }

  datatype DiffItem = DiffItem(
    path: string,
    oldType: Option<string>, newType: Option<string>,
    oldNullable: Option<bool>, newNullable: Option<bool>,
    classification: Compatibility, reason: string)

  function At(flat: map<string, Json>, path: string): Option<Json> {
    if path in flat then Some(flat[path]) else None
  }

  function Item(show: Show, path: string, old_: Option<Json>, new_: Option<Json>): DiffItem {
    var v := Classify(show, old_, new_);
    DiffItem(path,
             if old_.Some? then Some(TypeOf(show, old_.value)) else None,
             if new_.Some? then Some(TypeOf(show, new_.value)) else None,
             if old_.Some? then NullableOf(old_.value) else None,
             if new_.Some? then NullableOf(new_.value) else None,
             v.classification, v.reason)
  }

  function DiffPaths(show: Show, paths: seq<string>, oldFlat: map<string, Json>, newFlat: map<string, Json>): seq<DiffItem> {
    if paths == [] then [] else
      var p := paths[|paths| - 1];
      DiffPaths(show, paths[..|paths| - 1], oldFlat, newFlat)
      + if At(oldFlat, p) == At(newFlat, p) then [] else [Item(show, p, At(oldFlat, p), At(newFlat, p))]
  }

  function DiffAndClassify(show: Show, oldSchema: Json, newSchema: Json): seq<DiffItem> {
    var o, n := Flatten(oldSchema, ""), Flatten(newSchema, "");
    DiffPaths(show, Sorted(o.Keys + n.Keys), o, n)
  }

  /** `max` by rank, `SAFE` when there is no difference. */
  function Summarize(diffs: seq<DiffItem>): Compatibility {
    if diffs == [] then SAFE else
      var best := Summarize(diffs[..|diffs| - 1]);
      var last := diffs[|diffs| - 1].classification;
      if Rank(last) > Rank(best) then last else best
  }

  /** `diff_and_classify` as the loop over sorted paths that appends to a list. */
  method DiffSchemas(show: Show, oldSchema: Json, newSchema: Json) returns (diffs: seq<DiffItem>)
    ensures diffs == DiffAndClassify(show, oldSchema, newSchema)
  {
    hide Item, At, Flatten, Sorted;
    var oldFlat := FlattenSchema(oldSchema, "");
    var newFlat := FlattenSchema(newSchema, "");
    var paths := Sorted(oldFlat.Keys + newFlat.Keys);
    diffs := [];
    for i := 0 to |paths|
      invariant diffs == DiffPaths(show, paths[..i], oldFlat, newFlat)
    {
      var p := paths[i];
      assert paths[..i + 1][..i] == paths[..i];
      if At(oldFlat, p) != At(newFlat, p) {
        diffs := diffs + [Item(show, p, At(oldFlat, p), At(newFlat, p))];
      }
    }
    assert paths[..|paths|] == paths;
  }
}
