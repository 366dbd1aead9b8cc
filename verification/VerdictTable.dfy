/** The classifier read as a table: what a hand-written schema has at a path, the verdict of each change, and the summary. */
module VerdictTable {
  import opened Options
  import opened Sorting
  import opened JsonValues
  import opened Decimals
  import opened Paths
  import opened Classifier
  import opened CompatibilityChain
  import opened PayloadKinds

  // ---------------------------------------------------------------- the nodes of a schema

  /** Walking `schema` from `prefix`, `node` is the typed node of path `p`. */
  ghost predicate Typed(schema: Json, prefix: string, p: string, node: Json) {
    match schema
    case Obj(fields) =>
      if exists f :: f in fields && f.key == "type" then p == (if prefix == "" then "[root]" else prefix) && node == schema
      else exists f | f in fields :: Typed(f.value, if prefix == "" then f.key else prefix + "." + f.key, p, node)
    case Arr(items) =>
      || (p == (if prefix == "" then "[root]" else prefix)
          && node == Obj([Field("type", Str("array")), Field("nullable", Bool(false))]))
      || exists i | 0 <= i < |items| :: Typed(items[i], prefix + "[*" + Decimal(i) + "]", p, node)
    case _ =>
      p == (if prefix == "" then "[root]" else prefix)
      && node == Obj([Field("type", Str("unknown")), Field("nullable", Bool(true))])
  }

  lemma TypeKey(fields: seq<Field>)
    ensures "type" in Keys(fields) <==> exists f :: f in fields && f.key == "type"
  {
    if i :| 0 <= i < |fields| && fields[i].key == "type" {
      assert fields[i] in fields;
    }
  }

  lemma Markers()
    ensures ARRAY_MARKER == Obj([Field("type", Str("array")), Field("nullable", Bool(false))])
    ensures UNKNOWN_MARKER == Obj([Field("type", Str("unknown")), Field("nullable", Bool(true))])
  {
  }

  /** Every flattened node is typed at its path. */
  lemma {:induction false} FlatIsTyped(schema: Json, prefix: string, p: string)
    requires p in Flatten(schema, prefix)
    ensures Typed(schema, prefix, p, Flatten(schema, prefix)[p])
  {
    hide Join, IndexPath, Own, FlattenFields, FlattenItems, Keys, ARRAY_MARKER, UNKNOWN_MARKER;
    OwnPathIs(prefix);
    Markers();
    match schema
    case Obj(fields) =>
      TypeKey(fields);
      if "type" !in Keys(fields) {
        var i := FieldsFlatFrom(fields, prefix, p);
        JoinedPath(prefix, fields[i].key);
        assert fields[i] in fields;
        FlatIsTyped(fields[i].value, Join(prefix, fields[i].key), p);
      }
    case Arr(items) =>
      if p in FlattenItems(items, prefix) {
        var i := ItemsFlatFrom(items, prefix, p);
        IndexedPath(prefix, i);
        FlatIsTyped(items[i], IndexPath(prefix, i), p);
      }
    case _ =>
  }

  /** Every path with a typed node is in the flattening. */
  lemma {:induction false} TypedIsFlat(schema: Json, prefix: string, p: string, node: Json)
    requires Typed(schema, prefix, p, node)
    ensures p in Flatten(schema, prefix)
  {
    hide Join, IndexPath, Own, FlattenFields, FlattenItems, Keys;
    OwnPathIs(prefix);
    match schema
    case Obj(fields) =>
      TypeKey(fields);
      if "type" !in Keys(fields) {
        var f :| f in fields && Typed(f.value, if prefix == "" then f.key else prefix + "." + f.key, p, node);
        var i :| 0 <= i < |fields| && fields[i] == f;
        JoinedPath(prefix, f.key);
        TypedIsFlat(f.value, Join(prefix, f.key), p, node);
        FieldsFlatHave(fields, prefix, p, i);
      }
    case Arr(items) =>
      if i :| 0 <= i < |items| && Typed(items[i], prefix + "[*" + Decimal(i) + "]", p, node) {
        IndexedPath(prefix, i);
        TypedIsFlat(items[i], IndexPath(prefix, i), p, node);
        ItemsFlatHave(items, prefix, p, i);
      }
    case _ =>
  }

  // ---------------------------------------------------------------- entries of a node

  /** The JSON values Python takes for false. */
  lemma TruthyMeans(j: Json)
    ensures !Truthy(j) <==> j in {Null, Bool(false), Int(0), Float("0.0"), Float("-0.0"), Str(""), Arr([]), Obj([])}
  {
  }

  predicate Falsy(j: Json) {
    j in {Null, Bool(false), Int(0), Float("0.0"), Float("-0.0"), Str(""), Arr([]), Obj([])}
  }

  /** The node has entry `k`, and it is true or false as `b` says. */
  ghost predicate Says(node: Json, k: string, b: bool) {
    node.Obj? && exists f :: f in node.fields && f.key == k && (b <==> !Falsy(f.value))
  }

  /** The node's `enum` entry lists exactly the values `s`. */
  ghost predicate Enumerates(node: Json, s: set<Json>) {
    node.Obj? && exists f :: f in node.fields && f.key == "enum" && f.value.Arr? && s == set x | x in f.value.items
  }

  /** `str` of an entry; an object or array is printed by `show`. */
  predicate PrintsAs(show: Show, v: Json, t: string) {
    match v
    case Null => t == "None"
    case Bool(b) => t == if b then "True" else "False"
    case Int(n) => t == if n < 0 then "-" + Decimal(-n) else Decimal(n)
    case Float(repr) => t == repr
    case Str(s) => t == s
    case _ => t == show(v)
  }

  /** The `type` entry as text, or what stands for it. */
  ghost predicate NamesType(show: Show, node: Json, t: string) {
    match node
    case Obj(fields) =>
      if exists f :: f in fields && f.key == "type" then exists f :: f in fields && f.key == "type" && PrintsAs(show, f.value, t)
      else t == "object"
    case Arr(_) => t == "array"
    case _ => t == "unknown"
  }

  lemma KeyEntry(fields: seq<Field>, k: string)
    ensures k in Keys(fields) <==> exists f :: f in fields && f.key == k
  {
    if i :| 0 <= i < |fields| && fields[i].key == k {
      assert fields[i] in fields;
    }
  }

  lemma OneEntry(fields: seq<Field>, f: Field)
    requires Distinct(fields) && f in fields
    ensures f.key in Keys(fields) && Get(fields, f.key) == f.value
  {
    var i :| 0 <= i < |fields| && fields[i] == f;
    GetIs(fields, i);
  }

  ghost predicate Entries(node: Json) {
    node.Obj? ==> Distinct(node.fields)
  }

  lemma TextPrints(show: Show, v: Json, t: string)
    ensures PrintsAs(show, v, t) <==> t == TypeText(show, v)
  {
  }

  lemma TypeIsNamed(show: Show, node: Json)
    requires Entries(node)
    ensures NamesType(show, node, TypeOf(show, node))
  {
    hide Get, Distinct, Keys, PrintsAs, TypeText;
    if node.Obj? {
      KeyEntry(node.fields, "type");
      if "type" in Keys(node.fields) {
        var v := Get(node.fields, "type");
        assert Field("type", v) in node.fields;
        TextPrints(show, v, TypeText(show, v));
      }
    }
  }

  lemma EntryRead(node: Json, k: string, b: bool)
    requires Entries(node)
    ensures Says(node, k, b) <==> HasKey(node, k) && Truthy(Get(node.fields, k)) == b
  {
    hide Distinct, Keys, Get, Truthy, Falsy;
    if node.Obj? {
      KeyEntry(node.fields, k);
      if f :| f in node.fields && f.key == k && (b <==> !Falsy(f.value)) {
        OneEntry(node.fields, f);
        FalsyIs(f.value);
      }
      if HasKey(node, k) {
        var f := Field(k, Get(node.fields, k));
        assert f in node.fields;
        FalsyIs(f.value);
      }
    }
  }

  lemma FalsyIs(j: Json)
    ensures Falsy(j) <==> !Truthy(j)
  {
  }

  lemma NullableRead(node: Json, b: bool)
    requires Entries(node)
    ensures NullableOf(node) == Some(b) <==> Says(node, "nullable", b)
  {
    hide Says, Get, Truthy, Keys;
    EntryRead(node, "nullable", b);
  }

  lemma EnumRead(node: Json, s: set<Json>)
    requires Entries(node)
    ensures EnumOf(node) == Some(s) <==> Enumerates(node, s)
  {
    hide Distinct, Get, Keys;
    if node.Obj? {
      KeyEntry(node.fields, "enum");
      if f :| f in node.fields && f.key == "enum" && f.value.Arr? && s == set x | x in f.value.items {
        OneEntry(node.fields, f);
        SetOfItems(f.value.items);
      }
      if HasKey(node, "enum") {
        var v := Get(node.fields, "enum");
        assert Field("enum", v) in node.fields;
        if v.Arr? {
          SetOfItems(v.items);
        }
      }
    }
  }

  lemma SetOfItems(items: seq<Json>)
    ensures (set i | 0 <= i < |items| :: items[i]) == set x | x in items
  {
  }

  // ---------------------------------------------------------------- the table

  ghost predicate Retyped(show: Show, o: Json, n: Json) {
    exists s, t :: NamesType(show, o, s) && NamesType(show, n, t) && s != t
  }

  ghost predicate Loosened(o: Json, n: Json) {
    Says(o, "nullable", false) && Says(n, "nullable", true)
  }

  ghost predicate EnumGrows(o: Json, n: Json) {
    exists s, t :: Enumerates(o, s) && Enumerates(n, t) && s < t
  }

  /** Each verdict, with the reason that goes with it. */
  ghost predicate ChangeVerdict(show: Show, o: Json, n: Json, v: Verdict) {
    if Retyped(show, o, n) then
      exists s, t :: NamesType(show, o, s) && NamesType(show, n, t) && v ==
        if s == "integer" && t == "number" then Verdict(RISKY, "int->float widening")
        else if s == "number" && t == "integer" then Verdict(BREAKING, "float->int narrowing")
        else if s == "string" && (t == "integer" || t == "number") then Verdict(BREAKING, "string->number")
        else Verdict(BREAKING, "type changed " + s + "->" + t)
    else if Loosened(o, n) then v == Verdict(BACKWARD_COMPATIBLE, "required field becomes nullable")
    else if Loosened(n, o) then v == Verdict(BREAKING, "nullable field becomes required")
    else if EnumGrows(o, n) then v == Verdict(FORWARD_COMPATIBLE, "enum expansion")
    else if EnumGrows(n, o) then v == Verdict(BREAKING, "enum contraction")
    else v == Verdict(SAFE, "no compatibility risk")
  }

  /** A new path needs `required` to be true to matter; an old one counts as required unless it says otherwise. */
  ghost predicate TableVerdict(show: Show, old_: Option<Json>, new_: Option<Json>, v: Verdict) {
    match (old_, new_)
    case (None, Some(n)) =>
      v == if Says(n, "required", true) then Verdict(FORWARD_COMPATIBLE, "added required field")
           else Verdict(SAFE, "added optional field")
    case (Some(o), None) =>
      v == if o.Obj? && !Says(o, "required", false) then Verdict(BREAKING, "removed required field")
           else Verdict(RISKY, "removed optional field")
    case (Some(o), Some(n)) => ChangeVerdict(show, o, n, v)
    case (None, None) => true
  }

  lemma OneTypeName(show: Show, node: Json, s: string, t: string)
    requires Entries(node) && NamesType(show, node, s) && NamesType(show, node, t)
    ensures s == t
  {
    hide Distinct, PrintsAs, TypeText, Get, Keys;
    if node.Obj? && exists f :: f in node.fields && f.key == "type" {
      var f :| f in node.fields && f.key == "type" && PrintsAs(show, f.value, s);
      var g :| g in node.fields && g.key == "type" && PrintsAs(show, g.value, t);
      OneEntry(node.fields, f);
      OneEntry(node.fields, g);
      TextPrints(show, f.value, s);
      TextPrints(show, f.value, t);
    }
  }

  lemma RetypedRead(show: Show, o: Json, n: Json)
    requires Entries(o) && Entries(n)
    ensures Retyped(show, o, n) <==> TypeOf(show, o) != TypeOf(show, n)
  {
    hide NamesType, Entries;
    TypeIsNamed(show, o);
    TypeIsNamed(show, n);
    if s, t :| NamesType(show, o, s) && NamesType(show, n, t) && s != t {
      OneTypeName(show, o, s, TypeOf(show, o));
      OneTypeName(show, n, t, TypeOf(show, n));
    }
  }

  lemma EnumsRead(o: Json, n: Json)
    requires Entries(o) && Entries(n)
    ensures EnumGrows(o, n) <==> EnumOf(o).Some? && EnumOf(n).Some? && EnumOf(o).value < EnumOf(n).value
  {
    hide Enumerates, EnumOf, Entries;
    if s, t :| Enumerates(o, s) && Enumerates(n, t) && s < t {
      EnumRead(o, s);
      EnumRead(n, t);
    }
    if EnumOf(o).Some? && EnumOf(n).Some? {
      EnumRead(o, EnumOf(o).value);
      EnumRead(n, EnumOf(n).value);
    }
  }

  lemma RetypedFollows(show: Show, o: Json, n: Json)
    requires Entries(o) && Entries(n) && TypeOf(show, o) != TypeOf(show, n)
    ensures ChangeVerdict(show, o, n, ClassifyChanged(show, o, n))
  {
    hide NamesType, Enumerates, Entries, Says, TypeOf, Loosened, EnumGrows;
    RetypedRead(show, o, n);
    TypeIsNamed(show, o);
    TypeIsNamed(show, n);
  }

  lemma EntriesFollow(show: Show, o: Json, n: Json)
    requires Entries(o) && Entries(n) && TypeOf(show, o) == TypeOf(show, n)
    ensures ChangeVerdict(show, o, n, ClassifyChanged(show, o, n))
  {
    hide NamesType, Enumerates, EnumOf, Entries, Says, NullableOf, TypeOf, Retyped, EnumGrows;
    RetypedRead(show, o, n);
    NullableRead(o, true);
    NullableRead(o, false);
    NullableRead(n, true);
    NullableRead(n, false);
    EnumsRead(o, n);
    EnumsRead(n, o);
  }

  lemma ChangedFollowsTable(show: Show, o: Json, n: Json)
    requires Entries(o) && Entries(n)
    ensures ChangeVerdict(show, o, n, ClassifyChanged(show, o, n))
  {
    hide ChangeVerdict, ClassifyChanged, Entries, TypeOf;
    if TypeOf(show, o) != TypeOf(show, n) {
      RetypedFollows(show, o, n);
    } else {
      EntriesFollow(show, o, n);
    }
  }

  /** The classifier follows the table. */
  lemma ClassifyFollowsTable(show: Show, old_: Option<Json>, new_: Option<Json>)
    requires (old_.Some? ==> Entries(old_.value)) && (new_.Some? ==> Entries(new_.value))
    ensures TableVerdict(show, old_, new_, Classify(show, old_, new_))
  {
    hide ChangeVerdict, ClassifyChanged, Says, Truthy, Entries, Get, Keys;
    if old_.Some? && new_.Some? {
      ChangedFollowsTable(show, old_.value, new_.value);
    } else if new_.Some? {
      EntryRead(new_.value, "required", true);
    } else if old_.Some? {
      EntryRead(old_.value, "required", false);
    }
  }

  /** One entry of a diff: its path, each side's type and `nullable` from the node of that side, and the table's verdict. */
  ghost predicate ItemTold(show: Show, old_: Option<Json>, new_: Option<Json>, d: DiffItem) {
    && old_ != new_
    && (d.oldType.Some? <==> old_.Some?) && (d.newType.Some? <==> new_.Some?)
    && (old_.Some? ==> NamesType(show, old_.value, d.oldType.value))
    && (new_.Some? ==> NamesType(show, new_.value, d.newType.value))
    && (forall b :: d.oldNullable == Some(b) <==> old_.Some? && Says(old_.value, "nullable", b))
    && (forall b :: d.newNullable == Some(b) <==> new_.Some? && Says(new_.value, "nullable", b))
    && TableVerdict(show, old_, new_, Verdict(d.classification, d.reason))
  }

  lemma ItemIsTold(show: Show, p: string, old_: Option<Json>, new_: Option<Json>)
    requires old_ != new_ && (old_.Some? ==> Entries(old_.value)) && (new_.Some? ==> Entries(new_.value))
    ensures ItemTold(show, old_, new_, Item(show, p, old_, new_))
  {
    hide NamesType, Says, TableVerdict, Classify, TypeOf, NullableOf, Entries;
    ClassifyFollowsTable(show, old_, new_);
    if old_.Some? {
      TypeIsNamed(show, old_.value);
      forall b ensures NullableOf(old_.value) == Some(b) <==> Says(old_.value, "nullable", b) {
        NullableRead(old_.value, b);
      }
    }
    if new_.Some? {
      TypeIsNamed(show, new_.value);
      forall b ensures NullableOf(new_.value) == Some(b) <==> Says(new_.value, "nullable", b) {
        NullableRead(new_.value, b);
      }
    }
  }

  lemma {:induction false} NodesHaveEntries(schema: Json, prefix: string, p: string, node: Json)
    requires WellFormed(schema) && Typed(schema, prefix, p, node)
    ensures Entries(node)
  {
    match schema
    case Obj(fields) =>
      if !exists f :: f in fields && f.key == "type" {
        var f :| f in fields && Typed(f.value, if prefix == "" then f.key else prefix + "." + f.key, p, node);
        NodesHaveEntries(f.value, if prefix == "" then f.key else prefix + "." + f.key, p, node);
      }
    case Arr(items) =>
      if i :| 0 <= i < |items| && Typed(items[i], prefix + "[*" + Decimal(i) + "]", p, node) {
        assert items[i] in items;
        NodesHaveEntries(items[i], prefix + "[*" + Decimal(i) + "]", p, node);
      }
    case _ =>
  }

  lemma FlatHasEntries(schema: Json, p: string)
    requires WellFormed(schema) && p in Flatten(schema, "")
    ensures Entries(Flatten(schema, "")[p])
  {
    hide Entries, Typed, WellFormed, Flatten;
    FlatIsTyped(schema, "", p);
    NodesHaveEntries(schema, "", p, Flatten(schema, "")[p]);
  }

  /** Every entry of every diff follows the table; and there is one for exactly the paths whose nodes differ. */
  lemma DiffFollowsTable(show: Show, oldSchema: Json, newSchema: Json)
    requires WellFormed(oldSchema) && WellFormed(newSchema)
    ensures var o, n := Flatten(oldSchema, ""), Flatten(newSchema, "");
            forall d | d in DiffAndClassify(show, oldSchema, newSchema) :: ItemTold(show, At(o, d.path), At(n, d.path), d)
    ensures var o, n := Flatten(oldSchema, ""), Flatten(newSchema, "");
            forall p :: At(o, p) != At(n, p) <==> exists d :: d in DiffAndClassify(show, oldSchema, newSchema) && d.path == p
  {
    hide WellFormed, Flatten, ItemTold, Entries, Sorted, DiffPaths, Item;
    var o, n := Flatten(oldSchema, ""), Flatten(newSchema, "");
    var ps := Sorted(o.Keys + n.Keys);
    forall d ensures d in DiffAndClassify(show, oldSchema, newSchema) <==>
                     exists p :: p in ps && At(o, p) != At(n, p) && d == Item(show, p, At(o, p), At(n, p))
    {
      DiffPathsItems(show, ps, o, n, d);
    }
    forall d | d in DiffAndClassify(show, oldSchema, newSchema) ensures ItemTold(show, At(o, d.path), At(n, d.path), d) {
      var p :| p in ps && At(o, p) != At(n, p) && d == Item(show, p, At(o, p), At(n, p));
      SidesHaveEntries(oldSchema, p);
      SidesHaveEntries(newSchema, p);
      ItemIsTold(show, p, At(o, p), At(n, p));
      ItemPathIs(show, p, At(o, p), At(n, p));
    }
    forall p ensures At(o, p) != At(n, p) <==> exists d :: d in DiffAndClassify(show, oldSchema, newSchema) && d.path == p {
      if At(o, p) != At(n, p) {
        assert p in ps;
        ItemPathIs(show, p, At(o, p), At(n, p));
      }
      if d :| d in DiffAndClassify(show, oldSchema, newSchema) && d.path == p {
        var q :| q in ps && At(o, q) != At(n, q) && d == Item(show, q, At(o, q), At(n, q));
        ItemPathIs(show, q, At(o, q), At(n, q));
      }
    }
  }

  lemma SidesHaveEntries(schema: Json, p: string)
    requires WellFormed(schema)
    ensures var side := At(Flatten(schema, ""), p); side.Some? ==> Entries(side.value)
  {
    hide Flatten, Entries, WellFormed;
    if p in Flatten(schema, "") {
      FlatHasEntries(schema, p);
    }
  }

  lemma ItemPathIs(show: Show, p: string, old_: Option<Json>, new_: Option<Json>)
    ensures Item(show, p, old_, new_).path == p
  {
    hide Classify, TypeOf, NullableOf;
  }

  // ---------------------------------------------------------------- the summary

  ghost predicate Has(diffs: seq<DiffItem>, c: Compatibility) {
    exists d :: d in diffs && d.classification == c
  }

  /** The summary is the worst verdict present: breaking, risky, forward, backward, safe. */
  lemma {:induction false} SummaryIsWorst(diffs: seq<DiffItem>)
    ensures Summarize(diffs) ==
            if Has(diffs, BREAKING) then BREAKING else if Has(diffs, RISKY) then RISKY
            else if Has(diffs, FORWARD_COMPATIBLE) then FORWARD_COMPATIBLE
            else if Has(diffs, BACKWARD_COMPATIBLE) then BACKWARD_COMPATIBLE else SAFE
  {
    hide Has;
    if diffs == [] {
      NothingHas();
    } else {
      var n := |diffs| - 1;
      SummaryIsWorst(diffs[..n]);
      forall c ensures Has(diffs, c) <==> Has(diffs[..n], c) || diffs[n].classification == c {
        HasLast(diffs, c);
      }
    }
  }

  lemma NothingHas()
    ensures forall c :: !Has([], c)
  {
  }

  lemma HasLast(diffs: seq<DiffItem>, c: Compatibility)
    requires diffs != []
    ensures var n := |diffs| - 1; Has(diffs, c) <==> Has(diffs[..n], c) || diffs[n].classification == c
  {
    assert diffs == diffs[..|diffs| - 1] + [diffs[|diffs| - 1]];
  }
}
