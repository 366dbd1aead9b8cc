/** What the severity of a diff says about a consumer of the old responses, and what it can hide. */
module ChangeSeverity {
  import opened Options
  import opened Sorting
  import opened JsonValues
  import opened Paths
  import opened SchemaInference
  import opened InferenceSummary
  import opened InferenceKeyOrder
  import opened InferenceItemOrder
  import opened SchemaDiff

  // ---------------------------------------------------------------- what a change does to a consumer

  predicate Widened(o: SchemaNode, n: SchemaNode) {
    o.type_ == TInteger && n.type_ == TNumber
  }

  predicate ItemsDiffer(o: SchemaNode, n: SchemaNode) {
    o.type_ == TArray && n.type_ == TArray && o.arrayItemType != n.arrayItemType
  }

  predicate NullAdded(o: SchemaNode, n: SchemaNode) {
    !o.nullable && n.nullable
  }

  /** The old values were listed, and the new ones are not all among them, or too many to list. */
  predicate Gains(o: SchemaNode, n: SchemaNode) {
    o.enumValues.Some? && (n.enumValues == None || !(EnumSet(n) <= EnumSet(o)))
  }

  predicate Shrinks(o: SchemaNode, n: SchemaNode) {
    o.enumValues.Some? && n.enumValues.Some? && EnumSet(n) < EnumSet(o)
  }

  /** A consumer breaks: the values are of a type it does not know, as they are or as array items. */
  predicate Breaks(o: SchemaNode, n: SchemaNode) {
    (o.type_ != n.type_ && !Widened(o, n)) || ItemsDiffer(o, n)
  }

  /** A consumer may meet what it has not seen: fractions, nulls, or new values of a list. */
  predicate Risks(o: SchemaNode, n: SchemaNode) {
    Widened(o, n) || (o.type_ == n.type_ && (NullAdded(o, n) || Gains(o, n)))
  }

  /** It meets fewer values than before. */
  predicate Narrows(o: SchemaNode, n: SchemaNode) {
    o.type_ == n.type_ && (NullAdded(n, o) || Shrinks(o, n))
  }

  // ---------------------------------------------------------------- what hides behind an earlier test

  /** Another item type goes unseen behind a change of `nullable` or of the listed values. */
  predicate BreakHidden(o: SchemaNode, n: SchemaNode) {
    ItemsDiffer(o, n)
    && (o.nullable != n.nullable || (o.enumValues.Some? && n.enumValues.Some? && EnumSet(o) != EnumSet(n)))
  }

  /** New values go unseen behind nulls that no longer come, and where they are too many to list. */
  predicate RiskHidden(o: SchemaNode, n: SchemaNode) {
    o.type_ == n.type_ && !NullAdded(o, n) && Gains(o, n) && (NullAdded(n, o) || n.enumValues == None)
  }

  /** Fewer values go unseen behind new nulls. */
  predicate NarrowingHidden(o: SchemaNode, n: SchemaNode) {
    o.type_ == n.type_ && NullAdded(o, n) && Shrinks(o, n)
  }

  /** A change that breaks, or risks, although it is called safe. */
  predicate FalselySafe(o: SchemaNode, n: SchemaNode) {
    o.type_ == n.type_
    && ((NullAdded(n, o) && (Gains(o, n) || ItemsDiffer(o, n)))
        || (o.nullable == n.nullable && Shrinks(o, n) && ItemsDiffer(o, n)))
  }

  /** A change that breaks although it is called risky. */
  predicate FalselyRisky(o: SchemaNode, n: SchemaNode) {
    ItemsDiffer(o, n)
    && (NullAdded(o, n) || (o.nullable == n.nullable && n.enumValues.Some? && Gains(o, n)))
  }

  /** A change that risks although nothing is reported: the values have become too many to list. */
  predicate Unreported(o: SchemaNode, n: SchemaNode) {
    Agrees(o, n) && o.enumValues.Some? && n.enumValues == None
  }

  // ---------------------------------------------------------------- severities of a pair of nodes

  ghost predicate HasSeverity(c: Change, severity: string) {
    c.Found? && c.diff.severity == severity
  }

  predicate Picked(o: SchemaNode, n: SchemaNode, changeTypes: set<string>) {
    PickChangeType(o, n).Some? && PickChangeType(o, n).value in changeTypes
  }

  lemma PickMeaning(o: SchemaNode, n: SchemaNode)
    ensures Picked(o, n, {"type_changed", "number_to_int", "array_item_type_changed"}) <==> Breaks(o, n) && !BreakHidden(o, n)
    ensures Picked(o, n, {"int_to_number", "nullable_added", "enum_expanded", "enum_changed"}) <==> Risks(o, n) && !RiskHidden(o, n)
    ensures Picked(o, n, {"nullable_removed", "enum_narrowed"}) <==> Narrows(o, n) && !NarrowingHidden(o, n)
  {
    hide EnumSet;
  }

  lemma ChangeSeverities(ct: string)
    requires ct in CHANGE_TYPES && ct != "added_field" && ct != "removed_field" && ct != "nested_object_removed"
    ensures Classify(ct) == Some("breaking") <==> ct in {"type_changed", "number_to_int", "array_item_type_changed"}
    ensures Classify(ct) == Some("risky") <==> ct in {"int_to_number", "nullable_added", "enum_expanded", "enum_changed"}
    ensures Classify(ct) == Some("safe") <==> ct in {"nullable_removed", "enum_narrowed"}
  {
  }

  lemma BuiltSeverity(ct: string, path: string, ot: Option<JsonType>, nt: Option<JsonType>, ov: Option<Json>, nv: Option<Json>,
                      gained: seq<string>, lost: seq<string>)
    requires ct in CHANGE_TYPES && ct != "added_field" && ct != "removed_field" && ct != "nested_object_removed"
    ensures var c := Build(ct, path, ot, nt, ov, nv, gained, lost);
            && c != Same
            && (HasSeverity(c, "breaking") <==> ct in {"type_changed", "number_to_int", "array_item_type_changed"})
            && (HasSeverity(c, "risky") <==> ct in {"int_to_number", "nullable_added", "enum_expanded", "enum_changed"})
            && (HasSeverity(c, "safe") <==> ct in {"nullable_removed", "enum_narrowed"})
  {
    hide Classify;
    KnownIffListed(ct);
    ChangeSeverities(ct);
  }

  lemma PickedBetween(o: SchemaNode, n: SchemaNode)
    requires PickChangeType(o, n).Some?
    ensures var ct := PickChangeType(o, n).value;
            ct in CHANGE_TYPES && ct != "added_field" && ct != "removed_field" && ct != "nested_object_removed"
  {
    hide EnumSet;
  }

  lemma SeverityOfPick(path: string, o: SchemaNode, n: SchemaNode)
    ensures var c := ChangedDiff(path, o, n);
            && (c == Same <==> PickChangeType(o, n) == None)
            && (HasSeverity(c, "breaking") <==> Breaks(o, n) && !BreakHidden(o, n))
            && (HasSeverity(c, "risky") <==> Risks(o, n) && !RiskHidden(o, n))
            && (HasSeverity(c, "safe") <==> Narrows(o, n) && !NarrowingHidden(o, n))
  {
    hide EnumSet, Sorted, PickChangeType, Build, Breaks, Risks, Narrows, BreakHidden, RiskHidden, NarrowingHidden;
    PickMeaning(o, n);
    if PickChangeType(o, n).Some? {
      PickedBetween(o, n);
      var ct := PickChangeType(o, n).value;
      var gained := if ct == "enum_expanded" || ct == "enum_changed" then Sorted(EnumSet(n) - EnumSet(o)) else [];
      var lost := if ct == "enum_narrowed" || ct == "enum_changed" then Sorted(EnumSet(o) - EnumSet(n)) else [];
      BuiltSeverity(ct, path, Some(o.type_), Some(n.type_), o.example, n.example, gained, lost);
    }
  }

  /** How far a severity can be trusted, for any two nodes. */
  lemma NodeSeverityExact(path: string, o: SchemaNode, n: SchemaNode)
    ensures var c := ChangedDiff(path, o, n);
            && (HasSeverity(c, "safe") && (Breaks(o, n) || Risks(o, n)) <==> FalselySafe(o, n))
            && (HasSeverity(c, "risky") && Breaks(o, n) <==> FalselyRisky(o, n))
            && (c == Same && (Breaks(o, n) || Risks(o, n)) <==> Unreported(o, n))
  {
    hide EnumSet, ChangedDiff, HasSeverity;
    SeverityOfPick(path, o, n);
  }

  // ---------------------------------------------------------------- severities of a path

  predicate Both(o: ByPath, n: ByPath, p: string) {
    p in o && p in n
  }

  /**
    * What the severity of a path says: `breaking` and `risky` are never given without cause, and are given for
    * every path lost and for every change that breaks or risks, unless it is hidden.
    */
  lemma SeverityMeaning(o: ByPath, n: ByPath, p: string)
    ensures var c := PathDiff(o, n, p);
            && (HasSeverity(c, "breaking") <==>
                (p in o && p !in n) || (Both(o, n, p) && Breaks(o[p], n[p]) && !BreakHidden(o[p], n[p])))
            && (HasSeverity(c, "risky") <==> Both(o, n, p) && Risks(o[p], n[p]) && !RiskHidden(o[p], n[p]))
            && (HasSeverity(c, "safe") <==>
                (p !in o && p in n) || (Both(o, n, p) && Narrows(o[p], n[p]) && !NarrowingHidden(o[p], n[p])))
  {
    hide EnumSet, Sorted, ChangedDiff, Breaks, Risks, Narrows, BreakHidden, RiskHidden, NarrowingHidden;
    if p in o && p in n {
      SeverityOfPick(p, o[p], n[p]);
    }
  }

  /** Exactly when a severity understates what a change does to a consumer. */
  lemma SeverityHides(o: ByPath, n: ByPath, p: string)
    requires Both(o, n, p)
    ensures var c := PathDiff(o, n, p);
            && (HasSeverity(c, "safe") && (Breaks(o[p], n[p]) || Risks(o[p], n[p])) <==> FalselySafe(o[p], n[p]))
            && (HasSeverity(c, "risky") && Breaks(o[p], n[p]) <==> FalselyRisky(o[p], n[p]))
            && (c == Same && (Breaks(o[p], n[p]) || Risks(o[p], n[p])) <==> Unreported(o[p], n[p]))
  {
    hide ChangedDiff, HasSeverity, Breaks, Risks, FalselySafe, FalselyRisky, Unreported;
    NodeSeverityExact(p, o[p], n[p]);
  }

  // ---------------------------------------------------------------- an instance: new values behind nulls that went

  /** One object for each value, all with the one key. */
  function Column(k: string, values: seq<Json>): seq<Json> {
    if values == [] then [] else
      var n := |values| - 1;
      Column(k, values[..n]) + [Obj([Field(k, values[n])])]
  }

  lemma OneFieldOps(k: string, v: Json, path: string)
    requires v.IsScalar()
    ensures OpsAt(FieldEvents([Field(k, v)], path), Join(path, k)) == [Observe(v)]
    ensures HasField(Obj([Field(k, v)]), k)
  {
    hide OpsAt;
    var f := Field(k, v);
    assert [f][..0] == [] && [f][0] == f;
    var e := Event(Join(path, k), Observe(v));
    assert FieldEvents([f], path) == [e];
    OpsOne(e, Join(path, k));
  }

  lemma {:induction false} ColumnRows(k: string, values: seq<Json>, path: string)
    requires Scalars(values)
    ensures var items := Column(k, values);
            && AllObjects(items) && |items| == |values| && CountKey(items, k) == |values|
            && OpsAt(RowEvents(items, path), Join(path, k)) == Observations(values)
  {
    hide OpsAt, FieldEvents, HasField, Join;
    if values == [] {
      NoRows(path, Join(path, k));
    } else {
      var n := |values| - 1;
      var front, last := Column(k, values[..n]), Obj([Field(k, values[n])]);
      assert values[n] in values;
      ColumnRows(k, values[..n], path);
      OneFieldOps(k, values[n], path);
      assert (front + [last])[..n] == front;
      OpsConcat(RowEvents(front, path), FieldEvents([Field(k, values[n])], path), Join(path, k));
    }
  }

  lemma NoRows(path: string, p: string)
    ensures OpsAt(RowEvents([], path), p) == []
  {
  }

  /** The node of a column is the summary of its values. */
  lemma ColumnNode(k: string, values: seq<Json>)
    requires values != [] && Scalars(values)
    ensures var nodes, q := InferSchema(Arr(Column(k, values))), Join(ItemPath(""), k);
            q in PathsOf(nodes) && NodeAt(nodes, q) == Finalize(q, SummaryState(values))
  {
    hide Run, Fold, OpsAt, WalkEvents, RowEvents, FinalNodes, Finalize, Join, Observations, NodeAt, PathsOf, CountKey, SummaryState;
    var items, q := Column(k, values), Join(ItemPath(""), k);
    ColumnRows(k, values, ItemPath(""));
    MemberOps(items, "", k);
    assert Observations(values) + [] == Observations(values);
    var m := Run(map[], WalkEvents(Arr(items), ""));
    RunAt(map[], WalkEvents(Arr(items), ""), q);
    FoldIsSummary(values);
    FinalPaths(m);
  }

  lemma TwoSummaries(a: string, b: string, q: string)
    requires a != b
    ensures var o, n := Finalize(q, SummaryState([Str(a), Null])), Finalize(q, SummaryState([Str(a), Str(b)]));
            && o.type_ == n.type_ == TString && o.nullable && !n.nullable
            && o.enumValues.Some? && EnumSet(o) == {a} && n.enumValues.Some? && EnumSet(n) == {a, b}
  {
    hide Sorted;
    var xs, ys := [Str(a), Null], [Str(a), Str(b)];
    assert xs[1] in xs && xs[0] in xs && ys[0] in ys;
    assert Scalars(xs) && Scalars(ys);
    SummaryTypeMeaning(xs, TString);
    SummaryTypeMeaning(ys, TString);
    assert ItemType(xs) == TString && ItemType(ys) == TString;
    assert xs[0].s == a && ys[0].s == a && ys[1].s == b;
    assert StringsSeen(xs) == {a};
    assert StringsSeen(ys) == {a, b};
    assert |{a}| == 1 && |{a, b}| == 2;
    assert Null !in ys;
    hide ItemType, StringsSeen;
  }

  /**
    * From `[{k: a}, {k: null}]` to `[{k: a}, {k: b}]` the one diff of the column is `nullable_removed` and safe,
    * although a consumer of the old responses now meets the value `b`.
    */
  lemma HiddenGain(k: string, a: string, b: string)
    requires a != b
    ensures var old_, new_ := InferSchema(Arr(Column(k, [Str(a), Null]))), InferSchema(Arr(Column(k, [Str(a), Str(b)])));
            var q := Join(ItemPath(""), k);
            && q in PathsOf(old_) && q in PathsOf(new_) && FalselySafe(NodeAt(old_, q), NodeAt(new_, q))
            && EnumSet(NodeAt(new_, q)) == EnumSet(NodeAt(old_, q)) + {b}
            && DiffSchemas(old_, new_).Some?
            && exists d :: d in DiffSchemas(old_, new_).value && d.path == q
                           && d.changeType == "nullable_removed" && d.severity == "safe"
  {
    hide InferSchema, DiffSchemas, Index, EnumSet, Finalize, SummaryState, Column, PathsOf, NodeAt, Join, Sorted;
    var xs, ys := [Str(a), Null], [Str(a), Str(b)];
    var old_, new_ := InferSchema(Arr(Column(k, xs))), InferSchema(Arr(Column(k, ys)));
    var q := Join(ItemPath(""), k);
    ColumnNode(k, xs);
    ColumnNode(k, ys);
    TwoSummaries(a, b, q);
    InferredOnce(Arr(Column(k, xs)));
    InferredOnce(Arr(Column(k, ys)));
    IndexIsNodeAt(old_, q);
    IndexIsNodeAt(new_, q);
    DiffIsPathwise(old_, new_);
    var c := PathDiff(Index(old_), Index(new_), q);
    NullRemoved(q, Index(old_)[q], Index(new_)[q]);
    assert c.diff in DiffSchemas(old_, new_).value;
  }

  lemma NullRemoved(q: string, o: SchemaNode, n: SchemaNode)
    requires o.type_ == n.type_ && o.nullable && !n.nullable
    ensures var c := ChangedDiff(q, o, n);
            c.Found? && c.diff.path == q && c.diff.changeType == "nullable_removed" && c.diff.severity == "safe"
  {
    hide EnumSet, Sorted;
  }
}
