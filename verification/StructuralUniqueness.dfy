/** The structural string determines exactly the shape of a payload, while its keys can be read from one end. */
module StructuralUniqueness {
  import opened Collections
  import opened Sorting
  import opened JsonValues
  import opened Printer = StructuralString
  import opened StructuralReading

  // ---------------------------------------------------------------- members

  ghost predicate SameTexts(fs: seq<Field>, gs: seq<Field>) {
    Keys(fs) == Keys(gs) && forall k | k in Keys(fs) :: Text(Get(fs, k)) == Text(Get(gs, k))
  }

  ghost predicate SameShapes(fs: seq<Field>, gs: seq<Field>) {
    Keys(fs) == Keys(gs) && forall k | k in Keys(fs) :: ShapeOf(Get(fs, k)) == ShapeOf(Get(gs, k))
  }

  ghost predicate PartSplits(fs: seq<Field>, gs: seq<Field>, i: nat)
    requires i < |Keys(fs)| && |Keys(gs)| == |Keys(fs)|
  {
    var k := Sorted(Keys(fs))[i];
    k == Sorted(Keys(gs))[i] && k in Keys(fs) && k in Keys(gs) && Text(Get(fs, k)) == Text(Get(gs, k))
  }

  lemma SplitPart(dir: Direction, fs: seq<Field>, gs: seq<Field>, i: nat)
    requires Legible(dir, Obj(fs)) && Legible(dir, Obj(gs)) && i < |Keys(fs)| && ObjectParts(fs) == ObjectParts(gs)
    ensures |Keys(gs)| == |Keys(fs)| && PartSplits(fs, gs, i)
  {
    assert |ObjectParts(fs)| == |ObjectParts(gs)|;
    hide Text, ObjectParts, ReadableKey, Sorted, Apart, Get, Keys;
    var f := KeyOf(fs, i);
    var g := KeyOf(gs, i);
    TextsApart(dir, f.value, g.value);
    MemberApart(dir, f.key, Text(f.value), g.key, Text(g.value));
    FieldIsKey(fs, f);
    FieldIsKey(gs, g);
  }

  lemma FieldIsKey(fields: seq<Field>, f: Field)
    requires f in fields
    ensures f.key in Keys(fields)
  {
  }

  /** Equal part lists come from equal key sets with equal texts. */
  lemma PartsGiveKeys(dir: Direction, fs: seq<Field>, gs: seq<Field>)
    requires Legible(dir, Obj(fs)) && Legible(dir, Obj(gs)) && ObjectParts(fs) == ObjectParts(gs)
    ensures Keys(fs) == Keys(gs)
  {
    assert |ObjectParts(fs)| == |ObjectParts(gs)|;
    hide Text, ObjectParts, Sorted, Legible, Get, Keys;
    var ks, js := Sorted(Keys(fs)), Sorted(Keys(gs));
    forall i | 0 <= i < |ks| ensures ks[i] == js[i] {
      SplitPart(dir, fs, gs, i);
    }
    assert ks == js;
  }

  lemma PartsGiveText(dir: Direction, fs: seq<Field>, gs: seq<Field>, k: string)
    requires Legible(dir, Obj(fs)) && Legible(dir, Obj(gs)) && ObjectParts(fs) == ObjectParts(gs) && k in Keys(fs)
    ensures k in Keys(gs) && Text(Get(fs, k)) == Text(Get(gs, k))
  {
    hide Text, ObjectParts, Sorted, Legible, Get, Keys;
    var ks := Sorted(Keys(fs));
    assert k in ks;
    var i :| 0 <= i < |ks| && ks[i] == k;
    SplitPart(dir, fs, gs, i);
  }

  lemma PartsGiveMembers(dir: Direction, fs: seq<Field>, gs: seq<Field>)
    requires Legible(dir, Obj(fs)) && Legible(dir, Obj(gs)) && ObjectParts(fs) == ObjectParts(gs)
    ensures SameTexts(fs, gs)
  {
    hide Text, ObjectParts, Legible, Get, Keys;
    PartsGiveKeys(dir, fs, gs);
    forall k | k in Keys(fs) ensures Text(Get(fs, k)) == Text(Get(gs, k)) {
      PartsGiveText(dir, fs, gs, k);
    }
  }

  lemma MembersGiveParts(fs: seq<Field>, gs: seq<Field>)
    requires SameTexts(fs, gs)
    ensures ObjectParts(fs) == ObjectParts(gs)
  {
    assert |ObjectParts(fs)| == |ObjectParts(gs)|;
    hide Text, ObjectParts, Sorted, Get;
    forall i | 0 <= i < |Keys(fs)| ensures ObjectParts(fs)[i] == ObjectParts(gs)[i] {
      ObjectPartAt(fs, i);
      ObjectPartAt(gs, i);
    }
  }

  lemma ShapeMembers(fs: seq<Field>, gs: seq<Field>)
    ensures ShapeOf(Obj(fs)) == ShapeOf(Obj(gs)) <==> SameShapes(fs, gs)
  {
    hide Get, Keys;
    var a, b := ShapeOf(Obj(fs)).members, ShapeOf(Obj(gs)).members;
    assert a.Keys == Keys(fs) && b.Keys == Keys(gs);
    if a == b {
      forall k | k in Keys(fs) ensures ShapeOf(Get(fs, k)) == ShapeOf(Get(gs, k)) {
        assert a[k] == b[k];
      }
    }
  }

  // ---------------------------------------------------------------- elements

  function Nested(items: seq<Json>): seq<Json> {
    if items == [] then [] else
      var n := |items| - 1;
      Nested(items[..n]) + if items[n].IsScalar() then [] else [items[n]]
  }

  function Image<X>(f: Json -> X, xs: seq<Json>): (r: seq<X>)
    ensures |r| == |xs| && forall i | 0 <= i < |xs| :: r[i] == f(xs[i])
  {
    seq(|xs|, i requires 0 <= i < |xs| => f(xs[i]))
  }

  lemma {:induction false} NestedIn(items: seq<Json>, x: Json)
    ensures x in Nested(items) <==> x in items && !x.IsScalar()
  {
    if items != [] {
      var n := |items| - 1;
      NestedIn(items[..n], x);
      assert items == items[..n] + [items[n]];
    }
  }

  lemma ImageSnoc<X>(f: Json -> X, xs: seq<Json>, x: Json)
    ensures Image(f, xs + [x]) == Image(f, xs) + [f(x)]
  {
  }

  lemma {:induction false} NestedTexts(items: seq<Json>, text: Json -> string)
    requires forall x :: text(x) == Text(x)
    ensures Structures(items) == Image(text, Nested(items))
  {
    hide Text, Image;
    if items != [] {
      var n := |items| - 1;
      NestedTexts(items[..n], text);
      ImageSnoc(text, Nested(items[..n]), items[n]);
    }
  }

  lemma {:induction false} NestedImages(items: seq<Json>, shape: Json -> Shape)
    requires forall x :: shape(x) == ShapeOf(x)
    ensures NestedShapes(items) == multiset(Image(shape, Nested(items)))
  {
    hide ShapeOf, Image;
    if items != [] {
      var n := |items| - 1;
      NestedImages(items[..n], shape);
      if !items[n].IsScalar() {
        var front := Image(shape, Nested(items[..n]));
        ImageSnoc(shape, Nested(items[..n]), items[n]);
        assert multiset(front + [ShapeOf(items[n])]) == multiset(front) + multiset{ShapeOf(items[n])};
      } else {
        assert Nested(items) == Nested(items[..n]);
      }
    } else {
      assert Image(shape, []) == [];
    }
  }

  /** If `f` tells items apart at least as well as `g`, equal images under `f` are equal under `g`. */
  lemma {:induction false} ImageTransfer<X, Y>(xs: seq<Json>, ys: seq<Json>, f: Json -> X, g: Json -> Y)
    requires multiset(Image(f, xs)) == multiset(Image(f, ys))
    requires forall x, y | x in xs && y in ys && f(x) == f(y) :: g(x) == g(y)
    ensures multiset(Image(g, xs)) == multiset(Image(g, ys))
  {
    if xs == [] {
      assert |multiset(Image(f, xs))| == |multiset(Image(f, ys))|;
    } else {
      var n := |xs| - 1;
      var i := Partner(xs, ys, f);
      var rest := ys[..i] + ys[i + 1..];
      ImageTransfer(xs[..n], rest, f, g);
      ImageWithout(xs, n, g);
      ImageWithout(ys, i, g);
      assert xs[..n] + xs[n + 1..] == xs[..n];
      assert xs[n] in xs && ys[i] in ys;
    }
  }

  lemma ImageWithout<X>(xs: seq<Json>, i: nat, f: Json -> X)
    requires i < |xs|
    ensures multiset(Image(f, xs)) == multiset(Image(f, xs[..i] + xs[i + 1..])) + multiset{f(xs[i])}
  {
    var a, b := xs[..i], xs[i + 1..];
    assert Image(f, a + b) == Image(f, a) + Image(f, b);
    assert Image(f, xs) == Image(f, a) + [f(xs[i])] + Image(f, b);
  }

  lemma Partner<X>(xs: seq<Json>, ys: seq<Json>, f: Json -> X) returns (i: nat)
    requires xs != [] && multiset(Image(f, xs)) == multiset(Image(f, ys))
    ensures i < |ys| && f(ys[i]) == f(xs[|xs| - 1])
    ensures multiset(Image(f, xs[..|xs| - 1])) == multiset(Image(f, ys[..i] + ys[i + 1..]))
  {
    var as_, bs := Image(f, xs), Image(f, ys);
    i := Matched(as_, bs);
    assert as_[..|xs| - 1] == Image(f, xs[..|xs| - 1]);
    assert bs[..i] + bs[i + 1..] == Image(f, ys[..i] + ys[i + 1..]);
  }

  lemma TextsToShapes(xs: seq<Json>, ys: seq<Json>)
    requires forall x, y | x in xs && y in ys && Text(x) == Text(y) :: ShapeOf(x) == ShapeOf(y)
    requires multiset(Structures(xs)) == multiset(Structures(ys))
    ensures NestedShapes(xs) == NestedShapes(ys)
  {
    hide Text, ShapeOf, Structures, NestedShapes, Nested, Image;
    var text, shape := (x: Json) => Text(x), (x: Json) => ShapeOf(x);
    NestedTexts(xs, text);
    NestedTexts(ys, text);
    NestedImages(xs, shape);
    NestedImages(ys, shape);
    forall x, y | x in Nested(xs) && y in Nested(ys) && text(x) == text(y) ensures shape(x) == shape(y) {
      NestedIn(xs, x);
      NestedIn(ys, y);
    }
    ImageTransfer(Nested(xs), Nested(ys), text, shape);
  }

  lemma ShapesToTexts(xs: seq<Json>, ys: seq<Json>)
    requires forall x, y | x in xs && y in ys && ShapeOf(x) == ShapeOf(y) :: Text(x) == Text(y)
    requires NestedShapes(xs) == NestedShapes(ys)
    ensures multiset(Structures(xs)) == multiset(Structures(ys))
  {
    hide Text, ShapeOf, Structures, NestedShapes, Nested, Image;
    var text, shape := (x: Json) => Text(x), (x: Json) => ShapeOf(x);
    NestedTexts(xs, text);
    NestedTexts(ys, text);
    NestedImages(xs, shape);
    NestedImages(ys, shape);
    forall x, y | x in Nested(xs) && y in Nested(ys) && shape(x) == shape(y) ensures text(x) == text(y) {
      NestedIn(xs, x);
      NestedIn(ys, y);
    }
    ImageTransfer(Nested(xs), Nested(ys), shape, text);
  }

  lemma NamesArePlain(items: seq<Json>, t: string)
    requires t in Sorted(InnerTypes(items))
    ensures PlainText(t) && t != "empty_array"
  {
    hide Sorted, InnerTypes, PrimitiveType, PlainText;
    InnerTypesAre(items, t);
    var x :| x in items && x.IsScalar() && PrimitiveType(x) == t;
    PrimitiveIsName(x);
    TypeNamesPlain(t);
  }

  lemma NestedAreNotPlain(dir: Direction, items: seq<Json>, t: string)
    requires Legible(dir, Arr(items)) && t in SortList(Structures(items))
    ensures !PlainText(t)
  {
    hide SortList, Structures, Text, PlainText;
    assert t in multiset(SortList(Structures(items)));
    assert t in Structures(items);
    StructuresAre(items, t);
    var x :| x in items && !x.IsScalar() && Text(x) == t;
    TextLooks(dir, x);
  }

  lemma PlainLonger(a: seq<string>, b: seq<string>, c: seq<string>, d: seq<string>)
    requires |a| < |c| && (forall t | t in c :: PlainText(t)) && forall t | t in b :: !PlainText(t)
    ensures a + b != c + d
  {
    hide PlainText;
    var s, r := a + b, c + d;
    assert r[|a|] == c[|a|] && c[|a|] in c;
    if b != [] {
      assert s[|a|] == b[0] && b[0] in b;
    }
  }

  /** Plain texts before texts that are not plain: the list says where the one kind ends. */
  lemma PlainSplit(a: seq<string>, b: seq<string>, c: seq<string>, d: seq<string>)
    requires forall t | t in a || t in c :: PlainText(t)
    requires forall t | t in b || t in d :: !PlainText(t)
    requires a + b == c + d
    ensures a == c && b == d
  {
    hide PlainText;
    if |a| < |c| {
      PlainLonger(a, b, c, d);
    }
    if |c| < |a| {
      PlainLonger(c, d, a, b);
    }
    var s := a + b;
    assert a == s[..|a|] && c == s[..|a|];
    assert b == s[|a|..] && d == s[|a|..];
  }

  ghost predicate SameElements(xs: seq<Json>, ys: seq<Json>) {
    InnerTypes(xs) == InnerTypes(ys) && multiset(Structures(xs)) == multiset(Structures(ys))
  }

  lemma PartsGiveElements(dir: Direction, xs: seq<Json>, ys: seq<Json>)
    requires Legible(dir, Arr(xs)) && Legible(dir, Arr(ys)) && Parts(xs) == Parts(ys)
    ensures SameElements(xs, ys)
  {
    hide Sorted, SortList, InnerTypes, Structures, PlainText, Legible;
    var a, b := Sorted(InnerTypes(xs)), SortList(Structures(xs));
    var c, d := Sorted(InnerTypes(ys)), SortList(Structures(ys));
    forall t | t in a || t in c ensures PlainText(t) {
      if t in a { NamesArePlain(xs, t); } else { NamesArePlain(ys, t); }
    }
    forall t | t in b || t in d ensures !PlainText(t) {
      if t in b { NestedAreNotPlain(dir, xs, t); } else { NestedAreNotPlain(dir, ys, t); }
    }
    PlainSplit(a, b, c, d);
    SortListEqual(Structures(xs), Structures(ys));
    assert InnerTypes(xs) == InnerTypes(ys) by {
      assert forall k :: k in InnerTypes(xs) <==> k in a;
      assert forall k :: k in InnerTypes(ys) <==> k in c;
    }
  }

  lemma ElementsGiveParts(xs: seq<Json>, ys: seq<Json>)
    requires SameElements(xs, ys)
    ensures Parts(xs) == Parts(ys)
  {
    hide Sorted, SortList, InnerTypes, Structures;
    SortListEqual(Structures(xs), Structures(ys));
  }

  lemma HasElements(items: seq<Json>)
    requires items != []
    ensures !SameElements(items, []) && !SameElements([], items)
  {
    hide Text, PrimitiveType;
    EmptyElements();
    var n := |items| - 1;
    assert InnerTypes(items) != {} || Structures(items) != [];
    if Structures(items) != [] {
      var t := Structures(items)[0];
      assert t in multiset(Structures(items));
    }
  }

  lemma EmptyElements()
    ensures InnerTypes([]) == {} && Structures([]) == []
  {
  }

  /** An array with items never prints like the empty one. */
  lemma EmptyApart(dir: Direction, items: seq<Json>)
    requires items != [] && Legible(dir, Arr(items))
    ensures Parts(items) != ["empty_array"]
  {
    hide Sorted, SortList, PlainText, Legible, InnerTypes, Structures;
    var t := "empty_array";
    TypeNamesPlain(t);
    if t in Sorted(InnerTypes(items)) {
      NamesArePlain(items, t);
    } else if t in SortList(Structures(items)) {
      NestedAreNotPlain(dir, items, t);
    } else {
      assert t in [t] && t !in Parts(items);
    }
  }

  lemma ArrayPartsGiveElements(dir: Direction, xs: seq<Json>, ys: seq<Json>)
    requires Legible(dir, Arr(xs)) && Legible(dir, Arr(ys)) && ArrayParts(xs) == ArrayParts(ys)
    ensures SameElements(xs, ys)
  {
    hide Parts, Legible, SameElements;
    if xs != [] {
      EmptyApart(dir, xs);
    }
    if ys != [] {
      EmptyApart(dir, ys);
    }
    if xs != [] && ys != [] {
      PartsGiveElements(dir, xs, ys);
    } else {
      assert xs == ys;
      SameElementsRefl(xs);
    }
  }

  lemma SameElementsRefl(xs: seq<Json>)
    ensures SameElements(xs, xs)
  {
  }

  lemma ElementsGiveArrayParts(xs: seq<Json>, ys: seq<Json>)
    requires SameElements(xs, ys)
    ensures ArrayParts(xs) == ArrayParts(ys)
  {
    hide Parts, SameElements;
    if xs != [] && ys != [] {
      ElementsGiveParts(xs, ys);
    } else if xs != [] {
      HasElements(xs);
    } else if ys != [] {
      HasElements(ys);
    }
  }

  lemma NamesTellKinds(v: Json, w: Json)
    requires v.IsScalar() && w.IsScalar()
    ensures PrimitiveType(v) == PrimitiveType(w) <==> KindOf(v) == KindOf(w)
  {
  }

  /** The printed type names of an array tell its kinds of scalars. */
  lemma KindsIncluded(xs: seq<Json>, ys: seq<Json>)
    ensures InnerTypes(xs) <= InnerTypes(ys) <==> Kinds(xs) <= Kinds(ys)
  {
    hide PrimitiveType, KindOf, InnerTypes;
    if InnerTypes(xs) <= InnerTypes(ys) {
      forall k | k in Kinds(xs) ensures k in Kinds(ys) {
        var i :| 0 <= i < |xs| && xs[i].IsScalar() && KindOf(xs[i]) == k;
        InnerTypesAre(xs, PrimitiveType(xs[i]));
        InnerTypesAre(ys, PrimitiveType(xs[i]));
        var y :| y in ys && y.IsScalar() && PrimitiveType(y) == PrimitiveType(xs[i]);
        NamesTellKinds(xs[i], y);
      }
    }
    if Kinds(xs) <= Kinds(ys) {
      forall t | t in InnerTypes(xs) ensures t in InnerTypes(ys) {
        InnerTypesAre(xs, t);
        var x :| x in xs && x.IsScalar() && PrimitiveType(x) == t;
        assert KindOf(x) in Kinds(xs);
        var j :| 0 <= j < |ys| && ys[j].IsScalar() && KindOf(ys[j]) == KindOf(x);
        NamesTellKinds(x, ys[j]);
        InnerTypesAre(ys, t);
      }
    }
  }

  lemma SameKinds(xs: seq<Json>, ys: seq<Json>)
    ensures InnerTypes(xs) == InnerTypes(ys) <==> Kinds(xs) == Kinds(ys)
  {
    hide InnerTypes, Kinds;
    KindsIncluded(xs, ys);
    KindsIncluded(ys, xs);
  }

  // ---------------------------------------------------------------- the text fixes the shape

  lemma KindFromText(dir: Direction, v: Json, w: Json)
    requires Legible(dir, v) && Legible(dir, w) && Text(v) == Text(w)
    ensures v.Obj? == w.Obj? && v.Arr? == w.Arr?
  {
    hide Text, Legible, PlainText, TextEnd;
    TextLooks(dir, v);
    TextLooks(dir, w);
  }

  /** Two values whose keys can be read from one end print alike only if they have the same shape. */
  lemma {:induction false} TextFixesShape(dir: Direction, v: Json, w: Json)
    requires Legible(dir, v) && Legible(dir, w) && Text(v) == Text(w)
    ensures ShapeOf(v) == ShapeOf(w)
    decreases v, 1
  {
    hide Text, Legible, ShapeOf;
    KindFromText(dir, v, w);
    if v.Obj? {
      ObjectReadsBack(dir, v.fields, w.fields);
      PartsGiveMembers(dir, v.fields, w.fields);
      MembersFixShape(dir, v, w);
    } else if v.Arr? {
      ArrayReadsBack(dir, v.items, w.items);
      ArrayPartsGiveElements(dir, v.items, w.items);
      ElementsFixShape(dir, v, w);
    } else {
      ScalarShape(v, w);
    }
  }

  lemma ScalarShape(v: Json, w: Json)
    requires v.IsScalar() && w.IsScalar()
    ensures Text(v) == Text(w) <==> ShapeOf(v) == ShapeOf(w)
  {
    hide Text, PrimitiveType, KindOf;
    ScalarTextIs(v);
    ScalarTextIs(w);
    NamesTellKinds(v, w);
  }

  lemma {:induction false} MembersFixShape(dir: Direction, v: Json, w: Json)
    requires v.Obj? && w.Obj? && Legible(dir, v) && Legible(dir, w) && SameTexts(v.fields, w.fields)
    ensures ShapeOf(v) == ShapeOf(w)
    decreases v, 0
  {
    hide Text, ShapeOf, Get, Keys, ReadableKey, Distinct;
    var fs, gs := v.fields, w.fields;
    ShapeMembers(fs, gs);
    forall k | k in Keys(fs) ensures ShapeOf(Get(fs, k)) == ShapeOf(Get(gs, k)) {
      assert Field(k, Get(fs, k)) in fs && Field(k, Get(gs, k)) in gs;
      TextFixesShape(dir, Get(fs, k), Get(gs, k));
    }
  }

  lemma {:induction false} ElementsFixShape(dir: Direction, v: Json, w: Json)
    requires v.Arr? && w.Arr? && Legible(dir, v) && Legible(dir, w) && SameElements(v.items, w.items)
    ensures ShapeOf(v) == ShapeOf(w)
    decreases v, 0
  {
    hide Text, InnerTypes, Structures, NestedShapes, Kinds;
    var xs, ys := v.items, w.items;
    forall x, y | x in xs && y in ys && Text(x) == Text(y) ensures ShapeOf(x) == ShapeOf(y) {
      TextFixesShape(dir, x, y);
    }
    TextsToShapes(xs, ys);
    SameKinds(xs, ys);
  }

  // ---------------------------------------------------------------- the shape fixes the text

  /** Values of one shape print alike, whatever their keys. */
  lemma {:induction false} ShapeFixesText(v: Json, w: Json)
    requires WellFormed(v) && WellFormed(w) && ShapeOf(v) == ShapeOf(w)
    ensures Text(v) == Text(w)
    decreases v, 1
  {
    hide Text, Glue, ObjectParts, ArrayParts, KindOf;
    if v.Obj? && w.Obj? {
      ShapeFixesMembers(v, w);
      MembersGiveParts(v.fields, w.fields);
      ObjectText(v.fields);
      ObjectText(w.fields);
    } else if v.Arr? && w.Arr? {
      ShapeFixesElements(v, w);
      ElementsGiveArrayParts(v.items, w.items);
      ArrayText(v.items);
      ArrayText(w.items);
    } else {
      ScalarShape(v, w);
    }
  }

  lemma {:induction false} ShapeFixesMembers(v: Json, w: Json)
    requires v.Obj? && w.Obj? && WellFormed(v) && WellFormed(w) && ShapeOf(v) == ShapeOf(w)
    ensures SameTexts(v.fields, w.fields)
    decreases v, 0
  {
    hide Text, ShapeOf, Get, Keys, Distinct;
    var fs, gs := v.fields, w.fields;
    ShapeMembers(fs, gs);
    forall k | k in Keys(fs) ensures Text(Get(fs, k)) == Text(Get(gs, k)) {
      assert Field(k, Get(fs, k)) in fs && Field(k, Get(gs, k)) in gs;
      ShapeFixesText(Get(fs, k), Get(gs, k));
    }
  }

  lemma {:induction false} ShapeFixesElements(v: Json, w: Json)
    requires v.Arr? && w.Arr? && WellFormed(v) && WellFormed(w) && ShapeOf(v) == ShapeOf(w)
    ensures SameElements(v.items, w.items)
    decreases v, 0
  {
    hide Text, InnerTypes, Structures, NestedShapes, Kinds;
    var xs, ys := v.items, w.items;
    forall x, y | x in xs && y in ys && ShapeOf(x) == ShapeOf(y) ensures Text(x) == Text(y) {
      ShapeFixesText(x, y);
    }
    ShapesToTexts(xs, ys);
    SameKinds(xs, ys);
  }

  // ---------------------------------------------------------------- the root

  function RootParts(fields: seq<Field>): (r: seq<string>)
    ensures |r| == |fields| && forall i | 0 <= i < |fields| :: r[i] == fields[i].key + ":" + Text(fields[i].value)
  {
    seq(|fields|, i requires 0 <= i < |fields| => fields[i].key + ":" + Text(fields[i].value))
  }

  lemma {:induction false} RootTerminated(fields: seq<Field>)
    ensures RootText(fields) == Terminated(RootParts(fields))
  {
    hide Text;
    if fields != [] {
      RootTerminated(fields[1..]);
      var p, t := RootParts(fields), Text(fields[0].value);
      assert p[1..] == RootParts(fields[1..]);
      assert p[0] == fields[0].key + ":" + t;
    }
  }

  lemma PartsByKey(fields: seq<Field>)
    ensures ObjectParts(fields) == RootParts(ByKey(fields))
  {
    assert |ObjectParts(fields)| == |ByKey(fields)|;
    hide Text, Get, Sorted, ObjectParts, ByKey;
    var r := ByKey(fields);
    forall i | 0 <= i < |r| ensures RootParts(r)[i] == ObjectParts(fields)[i] {
      ObjectPartAt(fields, i);
    }
  }

  lemma RootIsParts(fields: seq<Field>)
    ensures RootText(ByKey(fields)) == Terminated(ObjectParts(fields))
  {
    RootTerminated(ByKey(fields));
    PartsByKey(fields);
    hide Text, ObjectParts, RootText, Terminated, ByKey;
  }

  /**
    * Unique readability: while all keys can be read from one end, two payloads have the same structural string
    * exactly when they have the same shape.
    */
  lemma UniqueReadability(dir: Direction, payload: Json, other: Json)
    requires payload.Obj? && other.Obj? && Legible(dir, payload) && Legible(dir, other)
    ensures StructuralString(payload) == StructuralString(other) <==> ShapeOf(payload) == ShapeOf(other)
  {
    hide Text, ShapeOf, RootText, Terminated, ObjectParts, Legible, AllApart, SameTexts;
    var fs, gs := payload.fields, other.fields;
    RootIsParts(fs);
    RootIsParts(gs);
    if Terminated(ObjectParts(fs)) == Terminated(ObjectParts(gs)) {
      MembersApart(dir, payload, other);
      TerminatedReadsBack(dir, ObjectParts(fs), ObjectParts(gs));
      PartsGiveMembers(dir, fs, gs);
      MembersFixShape(dir, payload, other);
    }
    if ShapeOf(payload) == ShapeOf(other) {
      LegibleIsWellFormed(dir, payload);
      LegibleIsWellFormed(dir, other);
      SameShapeSameString(payload, other);
    }
  }

  /** Payloads of one shape have one structural string, whatever their keys. */
  lemma SameShapeSameString(payload: Json, other: Json)
    requires payload.Obj? && other.Obj? && WellFormed(payload) && WellFormed(other) && ShapeOf(payload) == ShapeOf(other)
    ensures StructuralString(payload) == StructuralString(other) && StructuralString(payload).Some?
  {
    hide Text, ShapeOf, RootText, Terminated, ObjectParts, WellFormed, SameTexts;
    RootIsParts(payload.fields);
    RootIsParts(other.fields);
    ShapeFixesMembers(payload, other);
    MembersGiveParts(payload.fields, other.fields);
  }

  lemma {:induction false} LegibleIsWellFormed(dir: Direction, v: Json)
    requires Legible(dir, v)
    ensures WellFormed(v)
  {
    match v
    case Obj(fields) =>
      forall f | f in fields ensures WellFormed(f.value) {
        LegibleIsWellFormed(dir, f.value);
      }
    case Arr(items) =>
      forall x | x in items ensures WellFormed(x) {
        LegibleIsWellFormed(dir, x);
      }
    case _ =>
  }
}
