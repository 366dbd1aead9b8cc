/** What the structural string says: a reading of a printed text as the description of a shape, name by name. */
module StructuralDescription {
  import opened Sorting
  import opened JsonValues
  import opened Printer = StructuralString
  import opened StructuralReading
  import opened StructuralUniqueness

  // ---------------------------------------------------------------- descriptions

  /** `sep` between any two neighbours. */
  function JoinedBy(sep: string, parts: seq<string>): string {
    if parts == [] then "" else if |parts| == 1 then parts[0] else
      var n := |parts| - 1;
      JoinedBy(sep, parts[..n]) + sep + parts[n]
  }

  /** `;` after each part. */
  function EndedBySemicolons(parts: seq<string>): string {
    if parts == [] then "" else EndedBySemicolons(parts[..|parts| - 1]) + parts[|parts| - 1] + ";"
  }

  function WithKeys(ks: seq<string>, texts: seq<string>): (r: seq<string>)
    requires |ks| == |texts|
  {
    seq(|ks|, i requires 0 <= i < |ks| => ks[i] + ":" + texts[i])
  }

  predicate NamesKind(name: string, k: Kind) {
    match k
    case NullKind => name == "null"
    case BoolKind => name == "bool"
    case IntKind => name == "int"
    case FloatKind => name == "float"
    case StringKind => name == "string"
    case NoKind => false
  }

  /** All names of the kinds in order, then all texts in order. */
  ghost predicate Lists(parts: seq<string>, kinds: set<Kind>, texts: seq<string>) {
    exists names: seq<string>, sorted: seq<string> ::
      && StrictlyAscending(names) && (forall s :: s in names <==> exists k :: k in kinds && NamesKind(s, k))
      && Ascending(sorted) && multiset(sorted) == multiset(texts)
      && parts == names + sorted
  }

  /** `texts` describe the members `ks`, one each. */
  ghost predicate DescribesMembers(ks: seq<string>, texts: seq<string>, shape: Shape)
    decreases shape, 0
  {
    match shape
    case Members(members) =>
      && StrictlyAscending(ks) && (forall k :: k in ks <==> k in members) && |texts| == |ks|
      && forall i | 0 <= i < |ks| :: ks[i] in members && Describes(texts[i], members[ks[i]])
    case _ => false
  }

  ghost predicate Describes(text: string, shape: Shape)
    decreases shape, 1
  {
    match shape
    case Prim(k) => NamesKind(text, k)
    case Members(_) =>
      exists ks: seq<string>, texts: seq<string> ::
        DescribesMembers(ks, texts, shape) && |texts| == |ks| && text == "object{" + JoinedBy(";", WithKeys(ks, texts)) + "}"
    case Elements(kinds, nested) =>
      if kinds == {} && nested == multiset{} then text == "array[empty_array]" else
        exists shapes: seq<Shape>, texts: seq<string>, parts: seq<string> ::
          && multiset(shapes) == nested && |texts| == |shapes|
          && (forall i | 0 <= i < |shapes| :: shapes[i] in nested && Describes(texts[i], shapes[i]))
          && Lists(parts, kinds, texts) && text == "array[" + JoinedBy(",", parts) + "]"
  }

  /** The string of a whole payload: every member with its key, each followed by a semicolon. */
  ghost predicate DescribesPayload(text: string, shape: Shape) {
    exists ks: seq<string>, texts: seq<string> ::
      DescribesMembers(ks, texts, shape) && |texts| == |ks| && text == EndedBySemicolons(WithKeys(ks, texts))
  }

  // ---------------------------------------------------------------- joined parts

  lemma {:induction false} GlueSnoc(sep: string, parts: seq<string>)
    requires |parts| > 1
    ensures Glue(sep, parts) == Glue(sep, parts[..|parts| - 1]) + sep + parts[|parts| - 1]
  {
    var n := |parts| - 1;
    if n > 1 {
      var rest := parts[1..];
      GlueSnoc(sep, rest);
      assert parts[..n][1..] == rest[..n - 1] && rest[n - 1] == parts[n];
      Regroup(parts[0] + sep, Glue(sep, rest[..n - 1]), sep, parts[n]);
    }
  }

  lemma Regroup(a: string, b: string, c: string, d: string)
    ensures a + (b + c + d) == a + b + c + d
  {
  }

  lemma {:induction false} GlueIsJoined(sep: string, parts: seq<string>)
    ensures Glue(sep, parts) == JoinedBy(sep, parts)
  {
    if |parts| > 1 {
      GlueSnoc(sep, parts);
      GlueIsJoined(sep, parts[..|parts| - 1]);
    }
  }

  lemma {:induction false} TerminatedIsEnded(parts: seq<string>)
    ensures Terminated(parts) == EndedBySemicolons(parts)
  {
    if parts != [] {
      TerminatedLast(parts);
      TerminatedIsEnded(parts[..|parts| - 1]);
    }
  }

  // ---------------------------------------------------------------- the printer describes the shape

  /** The five scalar texts. */
  lemma ScalarTexts(v: Json)
    ensures v.Null? ==> Text(v) == "null"
    ensures v.Bool? ==> Text(v) == "bool"
    ensures v.Int? ==> Text(v) == "int"
    ensures v.Float? ==> Text(v) == "float"
    ensures v.Str? ==> Text(v) == "string"
    ensures v.IsScalar() ==> NamesKind(Text(v), KindOf(v)) && Text(v) == PrimitiveType(v)
  {
    if v.IsScalar() {
      ScalarTextIs(v);
    }
    hide Text;
  }

  lemma OneName(s: string, r: string, k: Kind)
    requires NamesKind(s, k) && NamesKind(r, k)
    ensures s == r
  {
  }

  /** The type names collected from an array name its kinds. */
  lemma CollectedNames(items: seq<Json>, s: string)
    ensures s in InnerTypes(items) <==> exists k :: k in Kinds(items) && NamesKind(s, k)
  {
    hide PrimitiveType, KindOf, NamesKind, InnerTypes, Text;
    InnerTypesAre(items, s);
    if s in InnerTypes(items) {
      var x :| x in items && x.IsScalar() && PrimitiveType(x) == s;
      ScalarTexts(x);
      assert KindOf(x) in Kinds(items);
    }
    if k :| k in Kinds(items) && NamesKind(s, k) {
      var i :| 0 <= i < |items| && items[i].IsScalar() && KindOf(items[i]) == k;
      ScalarTexts(items[i]);
      OneName(s, PrimitiveType(items[i]), k);
    }
  }

  lemma PartsList(items: seq<Json>)
    ensures Lists(Parts(items), Kinds(items), Structures(items))
  {
    hide InnerTypes, Structures, Sorted, SortList, Kinds, StrictlyAscending, Ascending, NamesKind;
    var names, sorted := Sorted(InnerTypes(items)), SortList(Structures(items));
    SortedAscending(InnerTypes(items));
    SortListAscending(Structures(items));
    forall s ensures s in names <==> exists k :: k in Kinds(items) && NamesKind(s, k) {
      CollectedNames(items, s);
    }
  }

  function TextsAt(fields: seq<Field>): (r: seq<string>)
    ensures |r| == |Keys(fields)|
  {
    var ks := Sorted(Keys(fields));
    seq(|ks|, i requires 0 <= i < |ks| => assert ks[i] in ks; Text(Get(fields, ks[i])))
  }

  lemma TextAt(fields: seq<Field>, i: nat)
    requires i < |Keys(fields)|
    ensures var k := Sorted(Keys(fields))[i]; k in Keys(fields) && TextsAt(fields)[i] == Text(Get(fields, k))
  {
    hide Text, Get, Sorted;
    assert Sorted(Keys(fields))[i] in Sorted(Keys(fields));
  }

  lemma PartsWithKeys(fields: seq<Field>)
    ensures ObjectParts(fields) == WithKeys(Sorted(Keys(fields)), TextsAt(fields))
  {
    hide Text, Get, Sorted, TextsAt, ObjectParts;
    forall i | 0 <= i < |Keys(fields)| ensures ObjectParts(fields)[i] == Sorted(Keys(fields))[i] + ":" + TextsAt(fields)[i] {
      ObjectPartAt(fields, i);
      TextAt(fields, i);
    }
  }

  lemma ShapeIs(fields: seq<Field>)
    ensures ShapeOf(Obj(fields)).Members? && ShapeOf(Obj(fields)).members.Keys == Keys(fields)
    ensures forall k | k in Keys(fields) :: ShapeOf(Obj(fields)).members[k] == ShapeOf(Get(fields, k))
  {
  }

  lemma {:induction false} MembersDescribed(fields: seq<Field>)
    requires WellFormed(Obj(fields))
    ensures DescribesMembers(Sorted(Keys(fields)), TextsAt(fields), ShapeOf(Obj(fields)))
    decreases Obj(fields), 0
  {
    hide Text, Get, Sorted, TextsAt, ShapeOf, Describes, StrictlyAscending, Keys, Distinct;
    ShapeIs(fields);
    SortedAscending(Keys(fields));
    var ks, m := Sorted(Keys(fields)), ShapeOf(Obj(fields)).members;
    forall i | 0 <= i < |ks| ensures ks[i] in m && Describes(TextsAt(fields)[i], m[ks[i]]) {
      TextAt(fields, i);
      var v := Get(fields, ks[i]);
      assert Field(ks[i], v) in fields;
      TextDescribes(v);
    }
  }

  lemma {:induction false} ElementsDescribed(items: seq<Json>)
    requires WellFormed(Arr(items)) && items != []
    ensures Describes(Text(Arr(items)), ShapeOf(Arr(items)))
    decreases Arr(items), 0
  {
    hide Text, ShapeOf, Parts, NestedShapes, Structures, Nested, Kinds, Lists, Image, JoinedBy, Glue;
    var text, shape := (x: Json) => Text(x), (x: Json) => ShapeOf(x);
    NestedTexts(items, text);
    NestedImages(items, shape);
    PartsList(items);
    ArrayText(items);
    GlueIsJoined(",", Parts(items));
    var nested := Nested(items);
    var shapes, texts := Image(shape, nested), Image(text, nested);
    forall i | 0 <= i < |shapes| ensures shapes[i] in multiset(shapes) && Describes(texts[i], shapes[i]) {
      NestedIn(items, nested[i]);
      TextDescribes(nested[i]);
    }
    ElementsIntro(items, shapes, texts);
  }

  lemma ShapeOfArray(items: seq<Json>)
    ensures ShapeOf(Arr(items)) == Elements(Kinds(items), NestedShapes(items))
    ensures items != [] ==> Kinds(items) != {} || NestedShapes(items) != multiset{}
  {
    hide Kinds, NestedShapes, KindOf;
    if items != [] {
      SomeElement(items);
    }
  }

  lemma SomeElement(items: seq<Json>)
    requires items != []
    ensures Kinds(items) != {} || NestedShapes(items) != multiset{}
  {
    hide ShapeOf, KindOf;
    var n := |items| - 1;
    if items[n].IsScalar() {
      assert KindOf(items[n]) in Kinds(items);
    } else {
      assert ShapeOf(items[n]) in NestedShapes(items);
    }
  }

  lemma ElementsIntro(items: seq<Json>, shapes: seq<Shape>, texts: seq<string>)
    requires items != [] && |texts| == |shapes| && multiset(shapes) == NestedShapes(items)
    requires forall i | 0 <= i < |shapes| :: shapes[i] in multiset(shapes) && Describes(texts[i], shapes[i])
    requires Lists(Parts(items), Kinds(items), texts) && Text(Arr(items)) == "array[" + JoinedBy(",", Parts(items)) + "]"
    ensures Describes(Text(Arr(items)), ShapeOf(Arr(items)))
  {
    hide Text, ShapeOf, Parts, NestedShapes, Kinds, Lists, JoinedBy, DescribesMembers, NamesKind;
    ShapeOfArray(items);
  }

  lemma EmptyDescribed()
    ensures Describes(Text(Arr([])), ShapeOf(Arr([])))
  {
    hide Text;
    ArrayText([]);
    assert Glue(",", ["empty_array"]) == "empty_array";
  }

  /** Every printed text describes the shape of the value, in the names of the printer's five kinds. */
  lemma {:induction false} TextDescribes(v: Json)
    requires WellFormed(v)
    ensures Describes(Text(v), ShapeOf(v))
    decreases v, 1
  {
    hide Text, ShapeOf, KindOf;
    match v
    case Obj(fields) =>
      hide DescribesMembers, JoinedBy, WithKeys, TextsAt, Sorted, Keys, Glue, ObjectParts, WellFormed, Lists, NamesKind;
      MembersDescribed(fields);
      ObjectIsText(fields);
      ShapeIs(fields);
    case Arr(items) =>
      hide Describes, WellFormed;
      if items == [] {
        EmptyDescribed();
      } else {
        ElementsDescribed(items);
      }
    case _ =>
      ScalarTexts(v);
      PrimShape(v);
  }

  lemma PrimShape(v: Json)
    requires v.IsScalar()
    ensures ShapeOf(v) == Prim(KindOf(v))
  {
  }

  lemma ObjectIsText(fields: seq<Field>)
    requires WellFormed(Obj(fields))
    ensures Text(Obj(fields)) == "object{" + JoinedBy(";", WithKeys(Sorted(Keys(fields)), TextsAt(fields))) + "}"
  {
    hide Text, Glue, JoinedBy, WithKeys, ObjectParts, TextsAt, Sorted, Keys, Distinct;
    ObjectText(fields);
    PartsWithKeys(fields);
    GlueIsJoined(";", ObjectParts(fields));
  }

  /** The structural string describes the payload; whatever is no object has none. */
  lemma StringDescribes(payload: Json)
    requires WellFormed(payload)
    ensures match StructuralString(payload)
            case Some(text) => payload.Obj? && DescribesPayload(text, ShapeOf(payload))
            case None => !payload.Obj?
  {
    hide Text, RootText, Terminated, ObjectParts, ShapeOf, DescribesMembers, EndedBySemicolons, WithKeys, TextsAt,
      Sorted, Keys, WellFormed, ByKey;
    if payload.Obj? {
      var fields := payload.fields;
      MembersDescribed(fields);
      RootIsParts(fields);
      PartsWithKeys(fields);
      TerminatedIsEnded(ObjectParts(fields));
    }
  }
}
