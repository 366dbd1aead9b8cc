/** The structural string behind the contract fingerprint: the printer, part by part, and what it is meant to capture. */
module StructuralString {
  import opened Options
  import opened Sorting
  import opened JsonValues

  // ---------------------------------------------------------------- printing

  function PrimitiveType(v: Json): string {
    match v
    case Null => "null"
    case Bool(_) => "bool"
    case Int(_) => "int"
    case Float(_) => "float"
    case Str(_) => "string"
    case _ => "unknown"
  }

  /** `extract_structural_type`: a dictionary, a list of strings, or a type name. */
  function Extract(v: Json): Json
    decreases v, 1
  {
    match v
    case Obj(fields) => Obj(ByKey(ExtractValues(fields)))
    case Arr(items) => if items == [] then Arr([Str("empty_array")]) else Arr(Texts(Parts(items)))
    case _ => Str(PrimitiveType(v))
  }

  function ExtractValues(fields: seq<Field>): (r: seq<Field>)
    ensures |r| == |fields|
    ensures forall i | 0 <= i < |fields| :: r[i] == Field(fields[i].key, Extract(fields[i].value))
    decreases fields, 0
  {
    if fields == [] then [] else
      [Field(fields[0].key, Extract(fields[0].value))] + ExtractValues(fields[1..])
  }

  /** The sorted primitive types of an array, then its sorted nested structures. */
  function Parts(items: seq<Json>): seq<string>
    decreases items, 1
  {
    Sorted(InnerTypes(items)) + SortList(Structures(items))
  }

  function InnerTypes(items: seq<Json>): set<string> {
    if items == [] then {} else
      var n := |items| - 1;
      InnerTypes(items[..n]) + if items[n].IsScalar() then {PrimitiveType(items[n])} else {}
  }

  function Structures(items: seq<Json>): seq<string>
    decreases items, 0
  {
    if items == [] then [] else
      var n := |items| - 1;
      Structures(items[..n]) + if items[n].IsScalar() then [] else [Text(items[n])]
  }

  /** The printed structure of a value. */
  function Text(v: Json): string
    decreases v, 2
  {
    Serialize(Extract(v))
  }

  function Glue(sep: string, parts: seq<string>): string {
    if parts == [] then "" else if |parts| == 1 then parts[0] else parts[0] + sep + Glue(sep, parts[1..])
  }

  /** `serialize_ast_to_string`. */
  function Serialize(structure: Json): string {
    match structure
    case Str(s) => s
    case Obj(fields) => "object{" + Glue(";", MemberTexts(ByKey(SerializeValues(fields)))) + "}"
    case Arr(items) => "array[" + Glue(",", SerializeItems(items)) + "]"
    case _ => "unknown"
  }

  function SerializeValues(fields: seq<Field>): (r: seq<Field>)
    ensures |r| == |fields|
    ensures forall i | 0 <= i < |fields| :: r[i] == Field(fields[i].key, Str(Serialize(fields[i].value)))
  {
    if fields == [] then [] else
      [Field(fields[0].key, Str(Serialize(fields[0].value)))] + SerializeValues(fields[1..])
  }

  function SerializeItems(items: seq<Json>): (r: seq<string>)
    ensures |r| == |items|
    ensures forall i | 0 <= i < |items| :: r[i] == Serialize(items[i])
  {
    if items == [] then [] else [Serialize(items[0])] + SerializeItems(items[1..])
  }

  /** `key:text` for each member. */
  function MemberTexts(fields: seq<Field>): (r: seq<string>)
    ensures |r| == |fields|
    ensures forall i | 0 <= i < |fields| ::
      r[i] == fields[i].key + ":" + if fields[i].value.Str? then fields[i].value.s else "unknown"
  {
    seq(|fields|, i requires 0 <= i < |fields| =>
      fields[i].key + ":" + if fields[i].value.Str? then fields[i].value.s else "unknown")
  }

  function RootText(fields: seq<Field>): string {
    if fields == [] then "" else
      fields[0].key + ":" + Text(fields[0].value) + ";" + RootText(fields[1..])
  }

  /** `structural_string`; anything but an object at the root is a `TypeError`. */
  function StructuralString(payload: Json): Option<string> {
    if payload.Obj? then Some(RootText(ByKey(payload.fields))) else None
  }

  lemma ExtractIsName(v: Json)
    ensures Extract(v).Str? <==> v.IsScalar()
    ensures v.IsScalar() ==> Extract(v) == Str(PrimitiveType(v))
  {
  }

  lemma PartsStep(items: seq<Json>, i: nat)
    requires i < |items|
    ensures InnerTypes(items[..i + 1]) ==
            if items[i].IsScalar() then InnerTypes(items[..i]) + {PrimitiveType(items[i])} else InnerTypes(items[..i])
    ensures Structures(items[..i + 1]) ==
            if items[i].IsScalar() then Structures(items[..i]) else Structures(items[..i]) + [Serialize(Extract(items[i]))]
  {
    hide Extract, Serialize, PrimitiveType;
    assert items[..i + 1][..i] == items[..i];
  }

  lemma ExtractArrayIs(items: seq<Json>)
    requires items != []
    ensures Extract(Arr(items)) == Arr(Texts(Parts(items)))
    ensures InnerTypes(items[..0]) == {} && Structures(items[..0]) == []
  {
    hide Parts;
  }

  /** `extract_structural_type` of an array with its local set and list. */
  method ExtractArray(items: seq<Json>) returns (result: seq<string>)
    requires items != []
    ensures Extract(Arr(items)) == Arr(Texts(result))
  {
    hide Extract, Serialize, PrimitiveType, InnerTypes, Structures, Sorted, SortList, Texts;
    var innerTypes: set<string> := {};
    var structures: seq<string> := [];
    ExtractArrayIs(items);
    for i := 0 to |items|
      invariant innerTypes == InnerTypes(items[..i]) && structures == Structures(items[..i])
    {
      ExtractIsName(items[i]);
      PartsStep(items, i);
      var resolved := Extract(items[i]);
      if resolved.Str? {
        innerTypes := innerTypes + {resolved.s};
      } else {
        structures := structures + [Serialize(resolved)];
      }
    }
    assert items[..|items|] == items;
    result := Sorted(innerTypes);
    if structures != [] {
      result := result + SortList(structures);
    }
    assert result == Parts(items);
  }

  // ---------------------------------------------------------------- shapes

  /** What the string is meant to capture: key sets, and per array its primitive types and nested shapes. */
  datatype Shape =
    | Prim(kind: Kind)
    | Members(members: map<string, Shape>)
    | Elements(kinds: set<Kind>, nested: multiset<Shape>)

  /** The five kinds of JSON scalars, told apart as Python does: a boolean is not an integer, a float not an integer. */
  datatype Kind = NullKind | BoolKind | IntKind | FloatKind | StringKind | NoKind

  function KindOf(v: Json): Kind {
    match v
    case Null => NullKind
    case Bool(_) => BoolKind
    case Int(_) => IntKind
    case Float(_) => FloatKind
    case Str(_) => StringKind
    case _ => NoKind
  }

  function Kinds(items: seq<Json>): set<Kind> {
    set i | 0 <= i < |items| && items[i].IsScalar() :: KindOf(items[i])
  }

  function ShapeOf(v: Json): Shape {
    match v
    case Obj(fields) => Members(map k | k in Keys(fields) :: ShapeOf(Get(fields, k)))
    case Arr(items) => Elements(Kinds(items), NestedShapes(items))
    case _ => Prim(KindOf(v))
  }

  function NestedShapes(items: seq<Json>): multiset<Shape> {
    if items == [] then multiset{} else
      var n := |items| - 1;
      NestedShapes(items[..n]) + if items[n].IsScalar() then multiset{} else multiset{ShapeOf(items[n])}
  }

  predicate Delimiter(c: char) {
    c in {':', ';', ',', '{', '}', '[', ']'}
  }

  predicate PlainText(s: string) {
    forall c | c in s :: !Delimiter(c)
  }

  // ---------------------------------------------------------------- texts, part by part

  /** The `key:text` parts of an object, in key order. */
  function ObjectParts(fields: seq<Field>): (r: seq<string>)
    ensures |r| == |Keys(fields)|
  {
    var ks := Sorted(Keys(fields));
    seq(|ks|, i requires 0 <= i < |ks| => assert ks[i] in ks; ks[i] + ":" + Text(Get(fields, ks[i])))
  }

  lemma ObjectPartAt(fields: seq<Field>, i: nat)
    requires i < |Keys(fields)|
    ensures var k := Sorted(Keys(fields))[i];
            k in Keys(fields) && ObjectParts(fields)[i] == k + ":" + Text(Get(fields, k))
  {
    hide Text, Get, Sorted;
    assert Sorted(Keys(fields))[i] in Sorted(Keys(fields));
  }

  /** The members as the printer lists them: key and printed value, in key order. */
  function Printed(fields: seq<Field>): seq<Field> {
    ByKey(SerializeValues(ByKey(ExtractValues(fields))))
  }

  lemma MemberAt(fields: seq<Field>, i: nat)
    requires Distinct(fields) && i < |Keys(fields)|
    ensures var k := Sorted(Keys(fields))[i];
            k in Keys(fields) && i < |Printed(fields)| && Printed(fields)[i] == Field(k, Str(Text(Get(fields, k))))
  {
    hide Extract, Serialize, Get, Sorted, ByKey, ExtractValues, SerializeValues, Keys;
    var vs := ExtractValues(fields);
    var r := ByKey(vs);
    var j := RewrittenAt(fields, vs, i);
    var ts := SerializeValues(r);
    SameKeys(fields, vs, r);
    var m := RewrittenAt(r, ts, i);
  }

  lemma SameKeys(fields: seq<Field>, vs: seq<Field>, r: seq<Field>)
    requires Keys(vs) == Keys(fields) && r == ByKey(vs)
    ensures Keys(r) == Keys(fields) && |r| == |Keys(fields)|
  {
    ByKeyIsLookup(vs);
  }

  lemma PrintedCount(fields: seq<Field>)
    requires Distinct(fields)
    ensures |Printed(fields)| == |Keys(fields)|
  {
    hide Extract, Serialize, Get, Sorted, Keys;
    var vs := ExtractValues(fields);
    RewrittenLookup(fields, vs);
    var r := ByKey(vs);
    RewrittenLookup(r, SerializeValues(r));
  }

  lemma TextOfObject(fields: seq<Field>)
    ensures Text(Obj(fields)) == "object{" + Glue(";", MemberTexts(Printed(fields))) + "}"
  {
    hide Glue, MemberTexts, SerializeValues, ByKey, ExtractValues;
    assert Extract(Obj(fields)) == Obj(ByKey(ExtractValues(fields)));
  }

  lemma PartAt(fields: seq<Field>, i: nat)
    requires Distinct(fields) && i < |Keys(fields)|
    ensures |Printed(fields)| == |Keys(fields)| && MemberTexts(Printed(fields))[i] == ObjectParts(fields)[i]
  {
    hide Printed, Text, Keys, Get, Sorted, ObjectParts, MemberTexts;
    PrintedCount(fields);
    MemberAt(fields, i);
    ObjectPartAt(fields, i);
  }

  lemma SameParts(fields: seq<Field>)
    requires Distinct(fields)
    ensures MemberTexts(Printed(fields)) == ObjectParts(fields)
  {
    PrintedCount(fields);
    hide Printed, Keys, ObjectParts, MemberTexts;
    forall i | 0 <= i < |Keys(fields)| ensures MemberTexts(Printed(fields))[i] == ObjectParts(fields)[i] {
      PartAt(fields, i);
    }
  }

  lemma ObjectText(fields: seq<Field>)
    requires Distinct(fields)
    ensures Text(Obj(fields)) == "object{" + Glue(";", ObjectParts(fields)) + "}"
  {
    hide Printed, Text, Glue, ObjectParts, MemberTexts, Distinct;
    TextOfObject(fields);
    SameParts(fields);
  }

  function ArrayParts(items: seq<Json>): seq<string> {
    if items == [] then ["empty_array"] else Parts(items)
  }

  lemma ArrayText(items: seq<Json>)
    ensures Text(Arr(items)) == "array[" + Glue(",", ArrayParts(items)) + "]"
  {
    hide Parts, Glue;
    assert Texts(["empty_array"]) == [Str("empty_array")];
    StringsBack(ArrayParts(items));
    assert Extract(Arr(items)) == Arr(Texts(ArrayParts(items)));
    hide Extract, ArrayParts;
  }

  lemma StringsBack(parts: seq<string>)
    ensures SerializeItems(Texts(parts)) == parts
  {
    assert forall i | 0 <= i < |parts| :: Serialize(Texts(parts)[i]) == parts[i];
  }

  const TYPE_NAMES := {"null", "bool", "int", "float", "string", "empty_array"}

  lemma TypeNamesPlain(name: string)
    requires name in TYPE_NAMES
    ensures PlainText(name) && name != ""
  {
  }

  lemma PrimitiveIsName(v: Json)
    requires v.IsScalar()
    ensures PrimitiveType(v) in TYPE_NAMES && PrimitiveType(v) != "empty_array"
  {
  }

  lemma {:induction false} InnerTypesAre(items: seq<Json>, t: string)
    ensures t in InnerTypes(items) <==> exists x :: x in items && x.IsScalar() && PrimitiveType(x) == t
  {
    hide PrimitiveType;
    if items != [] {
      var n := |items| - 1;
      InnerTypesAre(items[..n], t);
      assert items == items[..n] + [items[n]];
    }
  }

  lemma {:induction false} StructuresAre(items: seq<Json>, t: string)
    ensures t in Structures(items) <==> exists x :: x in items && !x.IsScalar() && Text(x) == t
  {
    hide Text;
    if items != [] {
      var n := |items| - 1;
      StructuresAre(items[..n], t);
      assert items == items[..n] + [items[n]];
    }
  }

  /** The parts of an array: type names, and the texts of nested items. */
  lemma ArrayPartIs(items: seq<Json>, t: string)
    requires t in ArrayParts(items)
    ensures t in TYPE_NAMES || exists x :: x in items && !x.IsScalar() && Text(x) == t
  {
    hide Text, Sorted, SortList, InnerTypes, Structures, PrimitiveType;
    if items != [] {
      if t in Sorted(InnerTypes(items)) {
        InnerTypesAre(items, t);
        var x :| x in items && x.IsScalar() && PrimitiveType(x) == t;
        PrimitiveIsName(x);
      } else {
        assert t in multiset(SortList(Structures(items)));
        assert t in Structures(items);
        StructuresAre(items, t);
      }
    }
  }

  lemma ScalarTextIs(v: Json)
    requires v.IsScalar()
    ensures Text(v) == PrimitiveType(v)
  {
    ExtractIsName(v);
    hide Extract, PrimitiveType;
  }
}
