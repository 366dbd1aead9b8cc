/** Which delimiters may occur in keys before two shapes share a structural string. */
module StructuralCollisions {
  import opened Options
  import opened Sorting
  import opened JsonValues
  import opened Printer = StructuralString
  import opened StructuralReading
  import opened StructuralUniqueness

  /** Of the characters the printer uses, the keys hold only those in `ds`, at every depth. */
  ghost predicate KeysWithin(ds: set<char>, v: Json) {
    match v
    case Obj(fields) => Distinct(fields) && forall f | f in fields :: KeyWithin(ds, f.key) && KeysWithin(ds, f.value)
    case Arr(items) => forall x | x in items :: KeysWithin(ds, x)
    case _ => true
  }

  predicate KeyWithin(ds: set<char>, k: string) {
    forall c | c in k && Delimiter(c) :: c in ds
  }

  /** The structural string tells any two shapes apart, as long as keys hold no other delimiters than these. */
  ghost predicate Injective(ds: set<char>) {
    forall payload: Json, other: Json | payload.Obj? && other.Obj? && KeysWithin(ds, payload) && KeysWithin(ds, other) ::
      StructuralString(payload) == StructuralString(other) <==> ShapeOf(payload) == ShapeOf(other)
  }

  /** No colon and nothing that closes or separates a member; or nothing that separates or opens one. */
  predicate Harmless(ds: set<char>) {
    (':' !in ds && '}' !in ds) || (':' !in ds && ';' !in ds && ',' !in ds) || (';' !in ds && '{' !in ds)
  }

  function SafeSide(ds: set<char>): Direction {
    if ':' in ds || ('}' in ds && (';' in ds || ',' in ds)) then Backward else Forward
  }

  lemma WithinIsReadable(ds: set<char>, k: string)
    requires Harmless(ds) && KeyWithin(ds, k)
    ensures ReadableKey(SafeSide(ds), k)
  {
    assert Delimiter(':') && Delimiter(';') && Delimiter(',') && Delimiter('{') && Delimiter('}');
    if k != "" {
      assert k[0] in k;
    }
  }

  lemma {:induction false} WithinIsLegible(ds: set<char>, v: Json)
    requires Harmless(ds) && KeysWithin(ds, v)
    ensures Legible(SafeSide(ds), v)
  {
    hide KeyWithin, ReadableKey, Harmless, SafeSide;
    match v
    case Obj(fields) =>
      forall f | f in fields ensures ReadableKey(SafeSide(ds), f.key) && Legible(SafeSide(ds), f.value) {
        WithinIsReadable(ds, f.key);
        WithinIsLegible(ds, f.value);
      }
    case Arr(items) =>
      forall x | x in items ensures Legible(SafeSide(ds), x) {
        WithinIsLegible(ds, x);
      }
    case _ =>
  }

  // ---------------------------------------------------------------- texts of small objects

  lemma OneKey(f: Field)
    ensures ByKey([f]) == [f] && Keys([f]) == {f.key}
  {
    var fs := [f];
    assert Keys(fs) == {f.key} by {
      assert fs[0].key == f.key;
    }
    hide Le, Keys;
    SortedUnique({f.key}, [f.key]);
    hide Sorted;
    GetIs(fs, 0);
    assert ByKey(fs)[0] == fs[0];
  }

  lemma Ascends(a: string, b: string)
    requires a != [] && b != [] && a[0] < b[0]
    ensures StrictlyAscending([a, b])
  {
    assert [a, b][1..] == [b];
    assert StrictlyAscending([b]);
  }

  lemma TwoKeySet(f: Field, g: Field)
    ensures Keys([f, g]) == {f.key, g.key}
  {
    var fs := [f, g];
    assert fs[0] == f && fs[1] == g;
  }

  ghost predicate Before(f: Field, g: Field) {
    f.key != "" && g.key != "" && f.key[0] < g.key[0]
  }

  lemma TwoKeys(f: Field, g: Field)
    requires Before(f, g)
    ensures ByKey([f, g]) == [f, g]
  {
    var fs := [f, g];
    TwoKeySet(f, g);
    Ascends(f.key, g.key);
    hide Le, StrictlyAscending, Get, Keys;
    SortedUnique({f.key, g.key}, [f.key, g.key]);
    hide Sorted;
    GetIs(fs, 0);
    GetIs(fs, 1);
    assert ByKey(fs)[0] == fs[0] && ByKey(fs)[1] == fs[1];
  }

  function MemberText(f: Field): string {
    f.key + ":" + Text(f.value)
  }

  lemma RootOne(f: Field)
    ensures StructuralString(Obj([f])) == Some(MemberText(f) + ";")
  {
    OneKey(f);
    hide Text, ByKey, Keys;
    assert RootText([f]) == MemberText(f) + ";" + RootText([f][1..]);
    assert RootText([]) == "" && MemberText(f) + ";" + "" == MemberText(f) + ";";
  }

  lemma RootTwo(f: Field, g: Field)
    requires Before(f, g)
    ensures StructuralString(Obj([f, g])) == Some(MemberText(f) + ";" + (MemberText(g) + ";"))
  {
    TwoKeys(f, g);
    hide Text, ByKey, Before;
    assert RootText([f, g]) == MemberText(f) + ";" + RootText([f, g][1..]);
    assert [f, g][1..] == [g] && [g][1..] == [];
    assert RootText([g]) == MemberText(g) + ";" + RootText([]);
    assert RootText([]) == "" && MemberText(g) + ";" + "" == MemberText(g) + ";";
  }

  lemma EmptyText()
    ensures Text(Obj([])) == "object{}"
  {
    ObjectText([]);
    assert Keys([]) == {};
    hide Text;
  }

  lemma FewParts(f: Field, g: Field)
    ensures RootParts([f]) == [MemberText(f)] && RootParts([f, g]) == [MemberText(f), MemberText(g)]
  {
    hide Text;
  }

  lemma FewGlued(sep: string, p: string, q: string)
    ensures Glue(sep, [p]) == p && Glue(sep, [p, q]) == p + sep + q
  {
    assert [p, q][1..] == [q];
  }

  lemma OneText(f: Field)
    ensures Text(Obj([f])) == "object{" + MemberText(f) + "}"
  {
    hide Text, ByKey, Keys, ObjectParts, Glue, RootParts, MemberText;
    OneKey(f);
    ObjectText([f]);
    PartsByKey([f]);
    FewParts(f, f);
    FewGlued(";", MemberText(f), "");
  }

  lemma TwoText(f: Field, g: Field)
    requires Before(f, g)
    ensures Text(Obj([f, g])) == "object{" + (MemberText(f) + ";" + MemberText(g)) + "}"
  {
    hide Text, ByKey, Keys, ObjectParts, Glue, RootParts, MemberText;
    TwoKeys(f, g);
    PartsByKey([f, g]);
    ObjectText([f, g]);
    FewParts(f, g);
    FewGlued(";", MemberText(f), MemberText(g));
  }

  lemma OtherKeys(fs: seq<Field>, gs: seq<Field>)
    requires Keys(fs) != Keys(gs)
    ensures ShapeOf(Obj(fs)) != ShapeOf(Obj(gs))
  {
    hide ShapeOf, Keys;
    ShapeMembers(fs, gs);
  }

  lemma OtherValue(k: string, v: Json, w: Json)
    requires ShapeOf(v) != ShapeOf(w)
    ensures ShapeOf(Obj([Field(k, v)])) != ShapeOf(Obj([Field(k, w)]))
  {
    hide ShapeOf;
    OneKey(Field(k, v));
    OneKey(Field(k, w));
    var fs, gs := [Field(k, v)], [Field(k, w)];
    GetIs(fs, 0);
    GetIs(gs, 0);
    hide Keys, Get, ByKey;
    ShapeMembers(fs, gs);
  }

  // ---------------------------------------------------------------- four ways to collide

  /** A colon and a semicolon: one key spells out two members. */
  lemma SemicolonCollides(a: string, b: string, v: Json)
    requires a != "" && b != "" && a[0] < b[0]
    ensures var payload, other := Obj([Field(a + ":" + Text(v) + ";" + b, v)]), Obj([Field(a, v), Field(b, v)]);
            StructuralString(payload) == StructuralString(other) && ShapeOf(payload) != ShapeOf(other)
  {
    hide Text, ShapeOf;
    var f, g, h := Field(a + ":" + Text(v) + ";" + b, v), Field(a, v), Field(b, v);
    RootOne(f);
    RootTwo(g, h);
    assert |f.key| > |a|;
    OneKey(f);
    TwoKeySet(g, h);
    hide Keys, ByKey, StructuralString;
    OtherKeys([f], [g, h]);
    SameSemicolon(a, b, Text(v));
  }

  lemma SameSemicolon(a: string, b: string, t: string)
    ensures (a + ":" + t + ";" + b) + ":" + t + ";" == (a + ":" + t) + ";" + ((b + ":" + t) + ";")
  {
  }

  /** A colon and an opening brace: the first brace opens in a key on one side, after it on the other. */
  lemma BraceCollides(a: string, b: string, c: string, d: string, z: string, v: Json, w: Json)
    requires a != "" && b != "" && c != "" && a[0] < c[0] && b[0] < c[0]
    ensures var payload := Obj([Field(a, Obj([Field(b + ":object{" + z, v)])), Field(c, Obj([Field(d, w)]))]);
            var other := Obj([Field(a, Obj([Field(b, Obj([Field(z, v)])), Field(c + ":object{" + d, w)]))]);
            StructuralString(payload) == StructuralString(other) && ShapeOf(payload) != ShapeOf(other)
  {
    hide Text, ShapeOf;
    var bz, dw := Field(b + ":object{" + z, v), Field(d, w);
    var f, g := Field(a, Obj([bz])), Field(c, Obj([dw]));
    var zv, cd := Field(z, v), Field(c + ":object{" + d, w);
    var inner := Field(b, Obj([zv]));
    var h := Field(a, Obj([inner, cd]));
    assert cd.key[0] == c[0];
    RootTwo(f, g);
    RootOne(h);
    OneText(bz);
    OneText(dw);
    OneText(zv);
    TwoText(inner, cd);
    OneKey(h);
    TwoKeySet(f, g);
    hide Keys, ByKey, StructuralString;
    OtherKeys([f, g], [h]);
    SameBraces(a, b, c, d, z, Text(v), Text(w));
  }

  lemma SameBraces(a: string, b: string, c: string, d: string, z: string, t: string, u: string)
    ensures var first := a + ":" + ("object{" + ((b + ":object{" + z) + ":" + t) + "}");
            var second := c + ":" + ("object{" + (d + ":" + u) + "}");
            var inner := b + ":" + ("object{" + (z + ":" + t) + "}");
            var whole := a + ":" + ("object{" + (inner + ";" + ((c + ":object{" + d) + ":" + u)) + "}");
            first + ";" + (second + ";") == whole + ";"
  {
    assert ":object{" == ":" + "object{";
  }

  /** A closing brace and a semicolon: a key closes the empty object before it. */
  lemma ClosingCollides(a: string, b: string, k: string, v: Json)
    requires a != "" && b != "" && a[0] < b[0] && k != "" && '}' < k[0]
    ensures var payload := Obj([Field(a, Obj([])), Field(b, Obj([Field("};" + k, v)]))]);
            var other := Obj([Field(a, Obj([Field("};" + b, Obj([])), Field(k, v)]))]);
            StructuralString(payload) == StructuralString(other) && ShapeOf(payload) != ShapeOf(other)
  {
    hide Text, ShapeOf;
    var e := Obj([]);
    var kv := Field("};" + k, v);
    var f, g := Field(a, e), Field(b, Obj([kv]));
    var be, kw := Field("};" + b, e), Field(k, v);
    var h := Field(a, Obj([be, kw]));
    assert be.key[0] == '}';
    RootTwo(f, g);
    RootOne(h);
    EmptyText();
    OneText(kv);
    TwoText(be, kw);
    OneKey(h);
    TwoKeySet(f, g);
    hide Keys, ByKey, StructuralString;
    OtherKeys([f, g], [h]);
    SameClosing(a, b, k, Text(v));
  }

  lemma SameClosing(a: string, b: string, k: string, t: string)
    ensures (a + ":" + "object{}") + ";" + ((b + ":" + ("object{" + (("};" + k) + ":" + t) + "}")) + ";")
            == (a + ":" + ("object{" + ((("};" + b) + ":" + "object{}") + ";" + (k + ":" + t)) + "}")) + ";"
  {
    assert "object{" + "};" == "object{}" + ";";
  }

  lemma {:induction false} LePrefix(p: string, a: string, b: string)
    requires Le(a, b)
    ensures Le(p + a, p + b)
  {
    if p == "" {
      assert p + a == a && p + b == b;
    } else {
      LePrefix(p[1..], a, b);
      assert (p + a)[1..] == p[1..] + a && (p + b)[1..] == p[1..] + b;
    }
  }

  lemma FewSorted(p: string, q: string)
    ensures SortList([p]) == [p]
    ensures Le(p, q) ==> SortList([p, q]) == [p, q]
  {
    hide Le;
    assert [p][1..] == [] && [p, q][1..] == [q] && [q][1..] == [];
    assert SortList([p]) == Insert(p, []) && SortList([q]) == Insert(q, []);
    assert SortList([p, q]) == Insert(p, [q]);
  }

  lemma FewStructures(x: Json, y: Json)
    requires !x.IsScalar() && !y.IsScalar()
    ensures Structures([x]) == [Text(x)] && InnerTypes([x]) == {}
    ensures Structures([x, y]) == [Text(x), Text(y)] && InnerTypes([x, y]) == {}
  {
    hide Text;
    assert [x, y][..1] == [x] && [x][..0] == [];
  }

  lemma FewNestedShapes(x: Json, y: Json)
    requires !x.IsScalar() && !y.IsScalar()
    ensures NestedShapes([x]) == multiset{ShapeOf(x)}
    ensures NestedShapes([x, y]) == multiset{ShapeOf(x)} + multiset{ShapeOf(y)}
  {
    hide ShapeOf;
    assert [x, y][..1] == [x] && [x][..0] == [];
    assert NestedShapes([]) == multiset{};
    assert NestedShapes([x]) == NestedShapes([x][..0]) + multiset{ShapeOf(x)};
  }

  lemma FewShapes(x: Json, y: Json, z: Json)
    requires !x.IsScalar() && !y.IsScalar() && !z.IsScalar()
    ensures ShapeOf(Arr([x, y])) != ShapeOf(Arr([z]))
  {
    FewNestedShapes(x, y);
    FewNestedShapes(z, z);
    hide NestedShapes, Kinds;
    assert |NestedShapes([x, y])| == 2 && |NestedShapes([z])| == 1;
  }

  lemma OnlyNested(items: seq<Json>)
    requires items != [] && InnerTypes(items) == {}
    ensures ArrayParts(items) == SortList(Structures(items))
  {
    hide InnerTypes, Structures, SortList;
    assert Sorted({}) == [];
  }

  lemma OneNested(x: Json)
    requires !x.IsScalar()
    ensures Text(Arr([x])) == "array[" + Text(x) + "]"
  {
    hide Text, SortList, Glue, Structures, InnerTypes;
    hide ArrayParts;
    ArrayText([x]);
    FewStructures(x, x);
    OnlyNested([x]);
    FewSorted(Text(x), Text(x));
    FewGlued(",", Text(x), "");
  }

  lemma TwoNested(x: Json, y: Json)
    requires !x.IsScalar() && !y.IsScalar() && Le(Text(x), Text(y))
    ensures Text(Arr([x, y])) == "array[" + (Text(x) + "," + Text(y)) + "]"
  {
    hide Text, Le, SortList, Glue, Structures, InnerTypes;
    hide ArrayParts;
    ArrayText([x, y]);
    FewStructures(x, y);
    OnlyNested([x, y]);
    FewSorted(Text(x), Text(y));
    FewGlued(",", Text(x), Text(y));
  }

  lemma EmptyBefore(k: string, rest: string)
    requires k != "" && '}' < k[0]
    ensures Le("object{}", "object{" + (k + rest) + "}")
  {
    assert Le("}", k + rest + "}");
    LePrefix("object{", "}", k + rest + "}");
    assert "object{" + "}" == "object{}";
    assert "object{" + (k + rest + "}") == "object{" + (k + rest) + "}";
  }

  /** Both braces and a comma: a key closes an empty item and opens the next. */
  lemma CommaCollides(a: string, k: string, v: Json)
    requires k != "" && '}' < k[0]
    ensures var payload := Obj([Field(a, Arr([Obj([]), Obj([Field(k, v)])]))]);
            var other := Obj([Field(a, Arr([Obj([Field("},object{" + k, v)])]))]);
            StructuralString(payload) == StructuralString(other) && ShapeOf(payload) != ShapeOf(other)
  {
    hide Text, ShapeOf, Le, StructuralString;
    var e, x, y := Obj([]), Obj([Field(k, v)]), Obj([Field("},object{" + k, v)]);
    EmptyText();
    OneText(Field(k, v));
    OneText(Field("},object{" + k, v));
    assert k + ":" + Text(v) == k + (":" + Text(v));
    EmptyBefore(k, ":" + Text(v));
    TwoNested(e, x);
    OneNested(y);
    RootOne(Field(a, Arr([e, x])));
    RootOne(Field(a, Arr([y])));
    FewShapes(e, x, y);
    OtherValue(a, Arr([e, x]), Arr([y]));
    SameComma(k, Text(v));
  }

  lemma SameComma(k: string, t: string)
    ensures "object{" + (("},object{" + k) + ":" + t) + "}" == "object{}" + "," + ("object{" + (k + ":" + t) + "}")
  {
    assert "object{" + "},object{" == "object{}" + "," + "object{";
  }

  // ---------------------------------------------------------------- exactly the harmless sets

  lemma HarmlessIsInjective(ds: set<char>)
    requires Harmless(ds)
    ensures Injective(ds)
  {
    hide Harmless, KeysWithin, Legible, StructuralString, ShapeOf;
    forall payload: Json, other: Json | payload.Obj? && other.Obj? && KeysWithin(ds, payload) && KeysWithin(ds, other)
      ensures StructuralString(payload) == StructuralString(other) <==> ShapeOf(payload) == ShapeOf(other)
    {
      WithinIsLegible(ds, payload);
      WithinIsLegible(ds, other);
      UniqueReadability(SafeSide(ds), payload, other);
    }
  }

  lemma Collide(ds: set<char>, payload: Json, other: Json)
    requires payload.Obj? && other.Obj? && KeysWithin(ds, payload) && KeysWithin(ds, other)
    requires StructuralString(payload) == StructuralString(other) && ShapeOf(payload) != ShapeOf(other)
    ensures !Injective(ds)
  {
    hide KeysWithin, StructuralString, ShapeOf;
  }

  lemma OneWithin(ds: set<char>, f: Field)
    requires KeyWithin(ds, f.key) && KeysWithin(ds, f.value)
    ensures KeysWithin(ds, Obj([f]))
  {
  }

  lemma TwoWithin(ds: set<char>, f: Field, g: Field)
    requires f.key != g.key && KeyWithin(ds, f.key) && KeyWithin(ds, g.key) && KeysWithin(ds, f.value) && KeysWithin(ds, g.value)
    ensures KeysWithin(ds, Obj([f, g]))
  {
  }

  lemma ItemsWithin(ds: set<char>, items: seq<Json>)
    requires forall x | x in items :: KeysWithin(ds, x)
    ensures KeysWithin(ds, Arr(items))
  {
  }

  lemma BaseWithin(ds: set<char>)
    ensures KeysWithin(ds, Null) && KeysWithin(ds, Obj([]))
  {
  }

  lemma SemicolonHarms(ds: set<char>)
    requires ':' in ds && ';' in ds
    ensures !Injective(ds)
  {
    hide Text, StructuralString, ShapeOf, Injective, KeysWithin;
    BaseWithin(ds);
    SemicolonCollides("a", "b", Null);
    ScalarTextIs(Null);
    var f, g, h := Field("a" + ":" + Text(Null) + ";" + "b", Null), Field("a", Null), Field("b", Null);
    OneWithin(ds, f);
    TwoWithin(ds, g, h);
    Collide(ds, Obj([f]), Obj([g, h]));
  }

  lemma LettersPlain()
    ensures PlainText("a") && PlainText("b") && PlainText("c") && PlainText("d") && PlainText("z") && PlainText("~")
  {
  }

  lemma BraceKeys(ds: set<char>)
    requires ':' in ds && '{' in ds
    ensures KeyWithin(ds, "b" + ":object{" + "z") && KeyWithin(ds, "c" + ":object{" + "d")
    ensures forall k | k in {"a", "b", "c", "d", "z"} :: KeyWithin(ds, k)
  {
    LettersPlain();
  }

  lemma CommaKeys(ds: set<char>)
    requires '}' in ds && '{' in ds && ',' in ds
    ensures KeyWithin(ds, "},object{" + "~") && KeyWithin(ds, "~") && KeyWithin(ds, "a")
  {
    LettersPlain();
  }

  lemma BraceHarms(ds: set<char>)
    requires ':' in ds && '{' in ds
    ensures !Injective(ds)
  {
    hide Text, StructuralString, ShapeOf, Injective, KeysWithin, KeyWithin;
    BraceKeys(ds);
    BaseWithin(ds);
    BraceCollides("a", "b", "c", "d", "z", Null, Null);
    var bz, dw := Field("b" + ":object{" + "z", Null), Field("d", Null);
    var f, g := Field("a", Obj([bz])), Field("c", Obj([dw]));
    var zv, cd := Field("z", Null), Field("c" + ":object{" + "d", Null);
    var inner := Field("b", Obj([zv]));
    var h := Field("a", Obj([inner, cd]));
    OneWithin(ds, bz);
    OneWithin(ds, dw);
    TwoWithin(ds, f, g);
    OneWithin(ds, zv);
    assert inner.key[0] == 'b' && cd.key[0] == 'c';
    TwoWithin(ds, inner, cd);
    OneWithin(ds, h);
    Collide(ds, Obj([f, g]), Obj([h]));
  }

  lemma ClosingHarms(ds: set<char>)
    requires '}' in ds && ';' in ds
    ensures !Injective(ds)
  {
    hide Text, StructuralString, ShapeOf, Injective, KeysWithin;
    BaseWithin(ds);
    ClosingCollides("a", "b", "~", Null);
    var e := Obj([]);
    var kv := Field("};" + "~", Null);
    var f, g := Field("a", e), Field("b", Obj([kv]));
    var be, kw := Field("};" + "b", e), Field("~", Null);
    var h := Field("a", Obj([be, kw]));
    OneWithin(ds, kv);
    TwoWithin(ds, f, g);
    assert be.key[0] == '}' && kw.key[0] == '~';
    TwoWithin(ds, be, kw);
    OneWithin(ds, h);
    Collide(ds, Obj([f, g]), Obj([h]));
  }

  lemma CommaHarms(ds: set<char>)
    requires '}' in ds && '{' in ds && ',' in ds
    ensures !Injective(ds)
  {
    hide Text, StructuralString, ShapeOf, Injective, KeysWithin, KeyWithin;
    CommaKeys(ds);
    BaseWithin(ds);
    CommaCollides("a", "~", Null);
    var e, kv, kw := Obj([]), Field("~", Null), Field("},object{" + "~", Null);
    var f, g := Field("a", Arr([e, Obj([kv])])), Field("a", Arr([Obj([kw])]));
    OneWithin(ds, kv);
    OneWithin(ds, kw);
    ItemsWithin(ds, [e, Obj([kv])]);
    ItemsWithin(ds, [Obj([kw])]);
    OneWithin(ds, f);
    OneWithin(ds, g);
    Collide(ds, Obj([f]), Obj([g]));
  }

  /** Exactly the harmless sets of delimiters, allowed in keys, leave the structural string injective on shapes. */
  lemma InjectiveIffHarmless(ds: set<char>)
    ensures Injective(ds) <==> Harmless(ds)
  {
    hide Injective;
    if Harmless(ds) {
      HarmlessIsInjective(ds);
    } else if ':' in ds {
      if ';' in ds {
        SemicolonHarms(ds);
      } else {
        BraceHarms(ds);
      }
    } else if ';' in ds {
      ClosingHarms(ds);
    } else {
      CommaHarms(ds);
    }
  }
}
