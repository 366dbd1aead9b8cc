/** The registry's schemas and verdicts read off the payloads themselves: which kind of value stands at which path. */
module PayloadKinds {
  import opened JsonValues
  import opened Decimals
  import opened Paths
  import opened Classifier
  import opened CompatibilityChain
  import opened FlattenLossless

  // ---------------------------------------------------------------- values at paths

  /** Walking `payload` from `prefix`, the value `v` stands at path `p`. Objects have no path of their own, arrays do. */
  ghost predicate Stands(payload: Json, prefix: string, p: string, v: Json) {
    match payload
    case Obj(fields) =>
      exists f | f in fields :: Stands(f.value, if prefix == "" then f.key else prefix + "." + f.key, p, v)
    case Arr(items) =>
      (p == (if prefix == "" then "[root]" else prefix) && v == payload)
      || exists i | 0 <= i < |items| :: Stands(items[i], prefix + "[*" + Decimal(i) + "]", p, v)
    case _ => p == (if prefix == "" then "[root]" else prefix) && v == payload
  }

  /** The leaf `{"type": .., "nullable": ..}` that says of what kind `v` is. */
  ghost predicate Tells(node: Json, v: Json) {
    exists t: string, nullable: bool :: node == Obj([Field("type", Str(t)), Field("nullable", Bool(nullable))]) && Names(t, v)
                                        && (nullable <==> v.Null?)
  }

  predicate Names(t: string, v: Json) {
    && (t == "null" <==> v.Null?) && (t == "boolean" <==> v.Bool?) && (t == "integer" <==> v.Int?)
    && (t == "number" <==> v.Float?) && (t == "string" <==> v.Str?) && (t == "array" <==> v.Arr?) && !v.Obj?
  }

  // ---------------------------------------------------------------- members and items of a flattening

  lemma {:induction false} FieldsFlatFrom(fields: seq<Field>, prefix: string, p: string) returns (i: nat)
    requires p in FlattenFields(fields, prefix)
    ensures i < |fields|
    ensures var part := Flatten(fields[i].value, Join(prefix, fields[i].key));
            p in part && part[p] == FlattenFields(fields, prefix)[p]
  {
    hide Flatten, Join;
    var n := |fields| - 1;
    if p in Flatten(fields[n].value, Join(prefix, fields[n].key)) {
      i := n;
    } else {
      i := FieldsFlatFrom(fields[..n], prefix, p);
    }
  }

  lemma {:induction false} FieldsFlatHave(fields: seq<Field>, prefix: string, p: string, i: nat)
    requires i < |fields| && p in Flatten(fields[i].value, Join(prefix, fields[i].key))
    ensures p in FlattenFields(fields, prefix)
  {
    hide Flatten, Join;
    var n := |fields| - 1;
    if i < n {
      FieldsFlatHave(fields[..n], prefix, p, i);
    }
  }

  lemma {:induction false} ItemsFlatFrom(items: seq<Json>, prefix: string, p: string) returns (i: nat)
    requires p in FlattenItems(items, prefix)
    ensures i < |items|
    ensures var part := Flatten(items[i], IndexPath(prefix, i)); p in part && part[p] == FlattenItems(items, prefix)[p]
  {
    hide Flatten, IndexPath;
    var n := |items| - 1;
    if p in Flatten(items[n], IndexPath(prefix, n)) {
      i := n;
    } else {
      i := ItemsFlatFrom(items[..n], prefix, p);
    }
  }

  lemma {:induction false} ItemsFlatHave(items: seq<Json>, prefix: string, p: string, i: nat)
    requires i < |items| && p in Flatten(items[i], IndexPath(prefix, i))
    ensures p in FlattenItems(items, prefix)
  {
    hide Flatten, IndexPath;
    var n := |items| - 1;
    if i < n {
      ItemsFlatHave(items[..n], prefix, p, i);
    }
  }

  /** A member of a payload is found in its canonical form. */
  lemma MemberCanonical(fields: seq<Field>, j: nat) returns (i: nat)
    requires Distinct(fields) && j < |fields|
    ensures var r := ByKey(CanonicalizeValues(fields));
            i < |r| && r[i] == Field(fields[j].key, Canonicalize(fields[j].value))
  {
    var vs := CanonicalizeValues(fields);
    RewrittenLookup(fields, vs);
    hide ByKey, Canonicalize, CanonicalizeValues, Distinct;
    var r := ByKey(vs);
    var k := fields[j].key;
    assert k in Keys(r);
    assert Field(k, Get(r, k)) in r;
    i :| 0 <= i < |r| && r[i] == Field(k, Get(r, k));
  }

  lemma NoTypeAdded(fields: seq<Field>)
    requires "type" !in Keys(fields)
    ensures "type" !in Keys(ByKey(CanonicalizeValues(fields)))
  {
    hide Canonicalize, ByKey, CanonicalizeValues;
    var r := ByKey(CanonicalizeValues(fields));
    forall i | 0 <= i < |r| ensures r[i].key != "type" {
      var j := CanonicalFieldsComeFrom(fields, i);
    }
  }

  lemma JoinedPath(prefix: string, key: string)
    ensures Join(prefix, key) == if prefix == "" then key else prefix + "." + key
  {
  }

  lemma IndexedPath(prefix: string, i: nat)
    ensures IndexPath(prefix, i) == prefix + "[*" + Decimal(i) + "]"
  {
  }

  lemma ScalarTells(v: Json)
    requires v.IsScalar()
    ensures Tells(Canonicalize(v), v) && Canonicalize(v).Obj? && "type" in Keys(Canonicalize(v).fields)
  {
    var t := if v.Null? then "null" else if v.Bool? then "boolean" else if v.Int? then "integer"
             else if v.Float? then "number" else "string";
    var fs := [Field("type", Str(t)), Field("nullable", Bool(v.Null?))];
    assert Names(t, v);
    assert Canonicalize(v) == Obj(fs);
    assert fs[0].key == "type";
  }

  lemma ArrayTells(v: Json)
    requires v.Arr?
    ensures Tells(ARRAY_MARKER, v)
  {
    assert Names("array", v);
    assert ARRAY_MARKER == Obj([Field("type", Str("array")), Field("nullable", Bool(false))]);
  }

  lemma OwnPathIs(prefix: string)
    ensures Own(prefix) == if prefix == "" then "[root]" else prefix
  {
  }

  // ---------------------------------------------------------------- the schema tells the kinds

  lemma MemberHasNode(fields: seq<Field>, j: nat, prefix: string, p: string)
    requires Distinct(fields) && "type" !in Keys(fields) && j < |fields|
    requires p in Flatten(Canonicalize(fields[j].value), Join(prefix, fields[j].key))
    ensures p in Flatten(Canonicalize(Obj(fields)), prefix)
  {
    hide CanonicalizeValues, ByKey, Join, Distinct, FlattenFields;
    var i := MemberCanonical(fields, j);
    NoTypeAdded(fields);
    FieldsFlatHave(ByKey(CanonicalizeValues(fields)), prefix, p, i);
  }

  lemma ItemHasNode(items: seq<Json>, i: nat, prefix: string, p: string)
    requires i < |items| && p in Flatten(Canonicalize(items[i]), IndexPath(prefix, i))
    ensures p in Flatten(Canonicalize(Arr(items)), prefix)
  {
    hide IndexPath, FlattenItems;
    ItemsFlatHave(CanonicalizeItems(items), prefix, p, i);
  }

  /** A value that is no object has a node at its own path. */
  lemma OwnNode(payload: Json, prefix: string)
    requires !payload.Obj?
    ensures (if prefix == "" then "[root]" else prefix) in Flatten(Canonicalize(payload), prefix)
  {
    hide FlattenItems, CanonicalizeItems, Tells, Names;
    if payload.IsScalar() {
      ScalarTells(payload);
    }
  }

  /** What stands at a path has a node there. */
  lemma {:induction false} StandingHasNode(payload: Json, prefix: string, p: string, v: Json)
    requires NoTypeKey(payload) && WellFormed(payload) && Stands(payload, prefix, p, v)
    ensures p in Flatten(Canonicalize(payload), prefix)
  {
    hide Flatten, Canonicalize, Join, IndexPath;
    match payload
    case Obj(fields) =>
      var f :| f in fields && Stands(f.value, if prefix == "" then f.key else prefix + "." + f.key, p, v);
      var j :| 0 <= j < |fields| && fields[j] == f;
      JoinedPath(prefix, f.key);
      StandingHasNode(f.value, Join(prefix, f.key), p, v);
      MemberHasNode(fields, j, prefix, p);
    case Arr(items) =>
      if i :| 0 <= i < |items| && Stands(items[i], prefix + "[*" + Decimal(i) + "]", p, v) {
        assert items[i] in items;
        IndexedPath(prefix, i);
        StandingHasNode(items[i], IndexPath(prefix, i), p, v);
        ItemHasNode(items, i, prefix, p);
      } else {
        OwnNode(payload, prefix);
      }
    case _ =>
      OwnNode(payload, prefix);
  }

  /** Every node says of what kind a value standing at its path is. */
  lemma {:induction false} NodeTells(payload: Json, prefix: string, p: string) returns (v: Json)
    requires NoTypeKey(payload) && p in Flatten(Canonicalize(payload), prefix)
    ensures Stands(payload, prefix, p, v) && Tells(Flatten(Canonicalize(payload), prefix)[p], v)
  {
    hide CanonicalizeValues, ByKey, Join, IndexPath, Own, FlattenFields, FlattenItems, Tells;
    OwnPathIs(prefix);
    match payload
    case Obj(fields) =>
      NoTypeAdded(fields);
      var r := ByKey(CanonicalizeValues(fields));
      var i := FieldsFlatFrom(r, prefix, p);
      var j := CanonicalFieldsComeFrom(fields, i);
      JoinedPath(prefix, fields[j].key);
      v := NodeTells(fields[j].value, Join(prefix, fields[j].key), p);
    case Arr(items) =>
      if p in FlattenItems(CanonicalizeItems(items), prefix) {
        var i := ItemsFlatFrom(CanonicalizeItems(items), prefix, p);
        assert items[i] in items;
        IndexedPath(prefix, i);
        v := NodeTells(items[i], IndexPath(prefix, i), p);
      } else {
        v := payload;
        ArrayTells(payload);
      }
    case _ =>
      v := payload;
      ScalarTells(payload);
  }

  lemma {:induction false} StandsUnder(payload: Json, prefix: string, p: string, v: Json)
    requires prefix != "" && Stands(payload, prefix, p, v)
    ensures Under(prefix, p)
  {
    hide Under, Join, IndexPath;
    match payload
    case Obj(fields) =>
      var f :| f in fields && Stands(f.value, prefix + "." + f.key, p, v);
      JoinedPath(prefix, f.key);
      NonEmptyStep(prefix, f.key, 0);
      StandsUnder(f.value, prefix + "." + f.key, p, v);
      UnderTrans(prefix, Join(prefix, f.key), p);
    case Arr(items) =>
      if i :| 0 <= i < |items| && Stands(items[i], prefix + "[*" + Decimal(i) + "]", p, v) {
        IndexedPath(prefix, i);
        NonEmptyStep(prefix, "", i);
        StandsUnder(items[i], prefix + "[*" + Decimal(i) + "]", p, v);
        UnderTrans(prefix, IndexPath(prefix, i), p);
      } else {
        UnderItself(prefix);
      }
    case _ =>
      UnderItself(prefix);
  }

  lemma UnderItself(p: string)
    ensures Under(p, p)
  {
  }

  lemma NonEmptyStep(prefix: string, key: string, i: nat)
    requires prefix != ""
    ensures Under(prefix, Join(prefix, key)) && Under(prefix, IndexPath(prefix, i))
    ensures Join(prefix, key) != "" && IndexPath(prefix, i) != ""
  {
    StepUnder(prefix, key, i);
  }

  lemma StandsBelowMember(f: Field, prefix: string, p: string, v: Json)
    requires CleanKey(f.key) && Stands(f.value, if prefix == "" then f.key else prefix + "." + f.key, p, v)
    ensures Under(Join(prefix, f.key), p)
  {
    hide Under, Stands;
    JoinedPath(prefix, f.key);
    StandsUnder(f.value, Join(prefix, f.key), p, v);
  }

  lemma StandsBelowItem(items: seq<Json>, i: nat, prefix: string, p: string, v: Json)
    requires i < |items| && Stands(items[i], prefix + "[*" + Decimal(i) + "]", p, v)
    ensures Under(IndexPath(prefix, i), p)
  {
    hide Under, Stands;
    IndexedPath(prefix, i);
    assert IndexPath(prefix, i) != "";
    StandsUnder(items[i], IndexPath(prefix, i), p, v);
  }

  /** With clean keys only one value stands at a path. */
  lemma {:induction false} OneStands(payload: Json, prefix: string, p: string, v: Json, w: Json)
    requires Clean(payload) && Stands(payload, prefix, p, v) && Stands(payload, prefix, p, w)
    ensures v == w
  {
    hide Under, Join, IndexPath, CleanKey;
    match payload
    case Obj(fields) =>
      var f :| f in fields && Stands(f.value, if prefix == "" then f.key else prefix + "." + f.key, p, v);
      var g :| g in fields && Stands(g.value, if prefix == "" then g.key else prefix + "." + g.key, p, w);
      SameMember(fields, f, g, prefix, p, v, w);
      OneStands(f.value, if prefix == "" then f.key else prefix + "." + f.key, p, v, w);
    case Arr(items) =>
      OneItem(items, prefix, p, v);
      OneItem(items, prefix, p, w);
      if i :| 0 <= i < |items| && Stands(items[i], prefix + "[*" + Decimal(i) + "]", p, v) {
        var j :| 0 <= j < |items| && Stands(items[j], prefix + "[*" + Decimal(j) + "]", p, w);
        SameItem(items, i, j, prefix, p, v, w);
        assert items[i] in items;
        OneStands(items[i], prefix + "[*" + Decimal(i) + "]", p, v, w);
      }
    case _ =>
  }

  lemma SameMember(fields: seq<Field>, f: Field, g: Field, prefix: string, p: string, v: Json, w: Json)
    requires Distinct(fields) && f in fields && g in fields && CleanKey(f.key) && CleanKey(g.key)
    requires Stands(f.value, if prefix == "" then f.key else prefix + "." + f.key, p, v)
    requires Stands(g.value, if prefix == "" then g.key else prefix + "." + g.key, p, w)
    ensures f == g
  {
    hide Under, Join, CleanKey, Stands, Distinct;
    StandsBelowMember(f, prefix, p, v);
    StandsBelowMember(g, prefix, p, w);
    JoinDisjoint(prefix, f.key, g.key, p);
    OneField(fields, f, g);
  }

  lemma SameItem(items: seq<Json>, i: nat, j: nat, prefix: string, p: string, v: Json, w: Json)
    requires i < |items| && Stands(items[i], prefix + "[*" + Decimal(i) + "]", p, v)
    requires j < |items| && Stands(items[j], prefix + "[*" + Decimal(j) + "]", p, w)
    ensures i == j
  {
    hide Under, IndexPath, Stands;
    StandsBelowItem(items, i, prefix, p, v);
    StandsBelowItem(items, j, prefix, p, w);
    IndexDisjoint(prefix, i, j, p);
  }

  lemma OneField(fields: seq<Field>, f: Field, g: Field)
    requires Distinct(fields) && f in fields && g in fields && f.key == g.key
    ensures f == g
  {
  }

  /** An array's own path is not below its items. */
  lemma OneItem(items: seq<Json>, prefix: string, p: string, v: Json)
    requires Stands(Arr(items), prefix, p, v)
    ensures (exists i :: 0 <= i < |items| && Stands(items[i], prefix + "[*" + Decimal(i) + "]", p, v)) <==> p != Own(prefix)
  {
    hide IndexPath, Under, Own;
    OwnPathIs(prefix);
    if i :| 0 <= i < |items| && Stands(items[i], prefix + "[*" + Decimal(i) + "]", p, v) {
      StandsBelowItem(items, i, prefix, p, v);
      OwnIsOutside(prefix, "", i, p);
    }
  }

  lemma {:induction false} CleanIsPlain(payload: Json)
    requires Clean(payload)
    ensures NoTypeKey(payload) && WellFormed(payload)
  {
    match payload
    case Obj(fields) =>
      forall f | f in fields ensures NoTypeKey(f.value) && WellFormed(f.value) && f.key != "type" {
        CleanIsPlain(f.value);
      }
    case Arr(items) =>
      forall x | x in items ensures NoTypeKey(x) && WellFormed(x) {
        CleanIsPlain(x);
      }
    case _ =>
  }

  /**
    * The schema the registry compares, for payloads with clean keys: a path is in it exactly when a value stands
    * there, and its node says of what kind that value is.
    */
  lemma SurfaceMeaning(payload: Json, p: string)
    requires Clean(payload)
    ensures p in Surface(payload) <==> exists v :: Stands(payload, "", p, v)
    ensures forall v | Stands(payload, "", p, v) :: p in Surface(payload) && Tells(Surface(payload)[p], v)
  {
    hide Stands, Tells, Clean, NoTypeKey, WellFormed, Flatten, Canonicalize;
    CleanIsPlain(payload);
    forall v | Stands(payload, "", p, v) ensures p in Surface(payload) {
      StandingHasNode(payload, "", p, v);
    }
    if p in Surface(payload) {
      var w := NodeTells(payload, "", p);
      forall v | Stands(payload, "", p, v) ensures v == w {
        OneStands(payload, "", p, v, w);
      }
    }
  }

  // ---------------------------------------------------------------- the verdict read off the payloads

  predicate SameKind(v: Json, w: Json) {
    && (v.Null? <==> w.Null?) && (v.Bool? <==> w.Bool?) && (v.Int? <==> w.Int?) && (v.Float? <==> w.Float?)
    && (v.Str? <==> w.Str?) && (v.Arr? <==> w.Arr?) && (v.Obj? <==> w.Obj?)
  }

  /** Every value of the old payload meets one of its kind in the new one. */
  ghost predicate KindsKept(old_: Json, new_: Json) {
    forall p, v | Stands(old_, "", p, v) :: exists w :: Stands(new_, "", p, w) && SameKind(v, w)
  }

  /** Or an integer meets a float. */
  ghost predicate KindsWidened(old_: Json, new_: Json) {
    forall p, v | Stands(old_, "", p, v) :: exists w :: Stands(new_, "", p, w) && (SameKind(v, w) || (v.Int? && w.Float?))
  }

  lemma TellsKind(a: Json, v: Json, b: Json, w: Json)
    requires Tells(a, v) && Tells(b, w)
    ensures a == b <==> SameKind(v, w)
    ensures Widened(a, b) <==> v.Int? && w.Float?
  {
    var t, m :| a == Obj([Field("type", Str(t)), Field("nullable", Bool(m))]) && Names(t, v) && (m <==> v.Null?);
    var u, n :| b == Obj([Field("type", Str(u)), Field("nullable", Bool(n))]) && Names(u, w) && (n <==> w.Null?);
    NamesTell(t, v, u, w);
    LeafFields(t, m, u, n);
    LeafFields(t, m, "integer", false);
    LeafFields(u, n, "number", false);
    assert NodeOf("integer") == Obj([Field("type", Str("integer")), Field("nullable", Bool(false))]);
    assert NodeOf("number") == Obj([Field("type", Str("number")), Field("nullable", Bool(false))]);
    hide Names;
  }

  lemma NamesTell(t: string, v: Json, u: string, w: Json)
    requires Names(t, v) && Names(u, w)
    ensures t == u <==> SameKind(v, w)
    ensures v.Int? ==> t == "integer" && !v.Null?
    ensures w.Float? ==> u == "number" && !w.Null?
    ensures t == "integer" ==> v.Int?
    ensures u == "number" ==> w.Float?
    ensures SameKind(v, w) ==> (v.Null? <==> w.Null?)
  {
  }

  lemma LeafFields(t: string, m: bool, u: string, n: bool)
    ensures Obj([Field("type", Str(t)), Field("nullable", Bool(m))]) == Obj([Field("type", Str(u)), Field("nullable", Bool(n))])
            <==> t == u && m == n
  {
    var a, b := [Field("type", Str(t)), Field("nullable", Bool(m))], [Field("type", Str(u)), Field("nullable", Bool(n))];
    assert a[0] == Field("type", Str(t)) && b[0] == Field("type", Str(u));
    assert a[1] == Field("nullable", Bool(m)) && b[1] == Field("nullable", Bool(n));
  }

  lemma StandsAt(payload: Json, p: string) returns (v: Json)
    requires Clean(payload) && p in Surface(payload)
    ensures Stands(payload, "", p, v) && Tells(Surface(payload)[p], v)
  {
    hide Stands, Tells, Clean, Surface;
    SurfaceMeaning(payload, p);
    v :| Stands(payload, "", p, v);
  }

  lemma PathKept(old_: Json, new_: Json, p: string, v: Json)
    requires Clean(old_) && Clean(new_) && Stands(old_, "", p, v)
    ensures var o, n := Surface(old_), Surface(new_);
            && p in o
            && ((p in n && n[p] == o[p]) <==> exists w :: Stands(new_, "", p, w) && SameKind(v, w))
            && ((p in n && Widened(o[p], n[p])) <==> exists w :: Stands(new_, "", p, w) && v.Int? && w.Float?)
  {
    hide Stands, Tells, Clean, Surface, SameKind, Widened;
    var o, n := Surface(old_), Surface(new_);
    SurfaceMeaning(old_, p);
    SurfaceMeaning(new_, p);
    forall w | Stands(new_, "", p, w)
      ensures p in n && (n[p] == o[p] <==> SameKind(v, w)) && (Widened(o[p], n[p]) <==> v.Int? && w.Float?)
    {
      TellsKind(o[p], v, n[p], w);
    }
  }

  lemma KeptSurface(old_: Json, new_: Json)
    requires Clean(old_) && Clean(new_)
    ensures Unchanged(Surface(old_), Surface(new_)) <==> KindsKept(old_, new_)
  {
    hide Stands, Clean, Surface, SameKind, Widened, Tells;
    var o, n := Surface(old_), Surface(new_);
    forall p, v | Stands(old_, "", p, v)
      ensures p in o && ((p in n && n[p] == o[p]) <==> exists w :: Stands(new_, "", p, w) && SameKind(v, w))
    {
      PathKept(old_, new_, p, v);
    }
    forall p | p in o ensures exists v :: Stands(old_, "", p, v) {
      var v := StandsAt(old_, p);
    }
  }

  lemma PathWidens(old_: Json, new_: Json, p: string, v: Json)
    requires Clean(old_) && Clean(new_) && Stands(old_, "", p, v)
    ensures var o, n := Surface(old_), Surface(new_);
            p in o && ((p in n && (n[p] == o[p] || Widened(o[p], n[p])))
                       <==> exists w :: Stands(new_, "", p, w) && (SameKind(v, w) || (v.Int? && w.Float?)))
  {
    hide Stands, Clean, Surface, SameKind, Widened;
    PathKept(old_, new_, p, v);
  }

  lemma WidenedSurface(old_: Json, new_: Json)
    requires Clean(old_) && Clean(new_)
    ensures Widens(Surface(old_), Surface(new_)) <==> KindsWidened(old_, new_)
  {
    hide Stands, Clean, Surface, SameKind, Widened, Tells;
    var o, n := Surface(old_), Surface(new_);
    forall p, v | Stands(old_, "", p, v)
      ensures p in o && ((p in n && (n[p] == o[p] || Widened(o[p], n[p])))
                         <==> exists w :: Stands(new_, "", p, w) && (SameKind(v, w) || (v.Int? && w.Float?)))
    {
      PathWidens(old_, new_, p, v);
    }
    forall p | p in o ensures exists v :: Stands(old_, "", p, v) {
      var v := StandsAt(old_, p);
    }
  }

  /**
    * The verdict between two payloads with clean keys, read off them: SAFE when every value keeps its kind, RISKY
    * when otherwise only integers met floats, BREAKING when a value is gone or met another kind.
    */
  lemma VerdictOnPayloads(show: Show, old_: Json, new_: Json)
    requires Clean(old_) && Clean(new_)
    ensures VerdictBetween(show, old_, new_) ==
            if KindsKept(old_, new_) then SAFE else if KindsWidened(old_, new_) then RISKY else BREAKING
  {
    hide Clean, NoTypeKey, VerdictBetween, KindsKept, KindsWidened, Surface, Unchanged, Widens;
    CleanIsPlain(old_);
    CleanIsPlain(new_);
    KeptSurface(old_, new_);
    WidenedSurface(old_, new_);
    VerdictMeaning(show, old_, new_);
  }
}
