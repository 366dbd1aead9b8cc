/** The path-wise diff of two inferred schemas. */
module SchemaDiff {
  import opened Options
  import opened Sorting
  import opened JsonValues
  import opened SchemaInference
  import opened InferenceKeyOrder
  import opened InferenceItemOrder
  import opened InferenceDeepOrder

  // ---------------------------------------------------------------- change types

  const SEVERITY_TABLE: map<string, string> := map[
    "removed_field" := "breaking",
    "added_field" := "safe",
    "type_changed" := "breaking",
    "int_to_number" := "risky",
    "number_to_int" := "breaking",
    "nullable_added" := "risky",
    "nullable_removed" := "safe",
    "enum_expanded" := "risky",
    "enum_narrowed" := "safe",
    "enum_changed" := "risky",
    "nested_object_removed" := "breaking",
    "array_item_type_changed" := "breaking"]

  const CHANGE_TYPES := {
    "removed_field", "added_field", "type_changed", "int_to_number", "number_to_int", "nullable_added",
    "nullable_removed", "enum_expanded", "enum_narrowed", "enum_changed", "nested_object_removed",
    "array_item_type_changed"}

  /** `classify`: an unknown change type is a `ValueError`. */
  function Classify(changeType: string): Option<string> {
    if changeType in SEVERITY_TABLE then Some(SEVERITY_TABLE[changeType]) else None
  }

  lemma KnownIffListed(changeType: string)
    ensures Classify(changeType).Some? <==> changeType in CHANGE_TYPES
  {
  }

  // ---------------------------------------------------------------- one path

  function EnumSet(n: SchemaNode): set<string> {
    if n.enumValues.Some? then set x | x in n.enumValues.value else {}
  }

  /** `_pick_change_type`. */
  function PickChangeType(o: SchemaNode, n: SchemaNode): Option<string> {
    if o.type_ != n.type_ then
      if o.type_ == TInteger && n.type_ == TNumber then Some("int_to_number")
      else if o.type_ == TNumber && n.type_ == TInteger then Some("number_to_int")
      else Some("type_changed")
    else if o.nullable != n.nullable then Some(if n.nullable then "nullable_added" else "nullable_removed")
    else if o.enumValues.Some? && n.enumValues.Some? && EnumSet(o) != EnumSet(n) then
      if EnumSet(o) < EnumSet(n) then Some("enum_expanded")
      else if EnumSet(n) < EnumSet(o) then Some("enum_narrowed")
      else Some("enum_changed")
    else if o.type_ == TArray && n.type_ == TArray && o.arrayItemType != n.arrayItemType then
      Some("array_item_type_changed")
    else None
  }

  /** A diff; `gained` and `lost` are the sorted enum values its message lists. */
  datatype Diff = Diff(severity: string, changeType: string, path: string, oldType: Option<JsonType>, newType: Option<JsonType>,
                       oldValue: Option<Json>, newValue: Option<Json>, gained: seq<string>, lost: seq<string>)

  datatype Change = Same | Unknown | Found(diff: Diff)

  function Build(changeType: string, path: string, oldType: Option<JsonType>, newType: Option<JsonType>,
                 oldValue: Option<Json>, newValue: Option<Json>, gained: seq<string>, lost: seq<string>): Change {
    match Classify(changeType)
    case None => Unknown
    case Some(severity) => Found(Diff(severity, changeType, path, oldType, newType, oldValue, newValue, gained, lost))
  }

  function RemovedDiff(path: string, o: SchemaNode): Change {
    Build(if o.type_ == TObject then "nested_object_removed" else "removed_field", path, Some(o.type_), None, None, None, [], [])
  }

  function AddedDiff(path: string, n: SchemaNode): Change {
    Build("added_field", path, None, Some(n.type_), None, None, [], [])
  }

  function ChangedDiff(path: string, o: SchemaNode, n: SchemaNode): Change {
    match PickChangeType(o, n)
    case None => Same
    case Some(ct) =>
      var gained := if ct == "enum_expanded" || ct == "enum_changed" then Sorted(EnumSet(n) - EnumSet(o)) else [];
      var lost := if ct == "enum_narrowed" || ct == "enum_changed" then Sorted(EnumSet(o) - EnumSet(n)) else [];
      Build(ct, path, Some(o.type_), Some(n.type_), o.example, n.example, gained, lost)
  }

  type ByPath = map<string, SchemaNode>

  /** `{n.path: n for n in nodes}`: a later node replaces an earlier one of the same path. */
  function Index(nodes: seq<SchemaNode>): ByPath {
    if nodes == [] then map[] else
      var last := nodes[|nodes| - 1];
      Index(nodes[..|nodes| - 1])[last.path := last]
  }

  function NodeOf(m: ByPath, p: string): Option<SchemaNode> {
    if p in m then Some(m[p]) else None
  }

  function PathDiff(o: ByPath, n: ByPath, p: string): Change {
    if p in o && p !in n then RemovedDiff(p, o[p])
    else if p !in o && p in n then AddedDiff(p, n[p])
    else if p in o && p in n then ChangedDiff(p, o[p], n[p])
    else Same
  }

  // ---------------------------------------------------------------- the diff of two lists

  /** The diffs of a list of paths in order, or nothing when a change type is unknown. */
  function Collect(o: ByPath, n: ByPath, paths: seq<string>): Option<seq<Diff>> {
    if paths == [] then Some([]) else
      var k := |paths| - 1;
      match Collect(o, n, paths[..k])
      case None => None
      case Some(front) =>
        match PathDiff(o, n, paths[k])
        case Same => Some(front)
        case Unknown => None
        case Found(d) => Some(front + [d])
  }

  /** Paths in the order the three loops take them: removed, added, common. */
  function DiffOrder(o: ByPath, n: ByPath): seq<string> {
    Sorted(o.Keys - n.Keys) + Sorted(n.Keys - o.Keys) + Sorted(o.Keys * n.Keys)
  }

  /** `diff_schemas`. */
  function DiffSchemas(old_: seq<SchemaNode>, new_: seq<SchemaNode>): Option<seq<Diff>> {
    Collect(Index(old_), Index(new_), DiffOrder(Index(old_), Index(new_)))
  }

  lemma CollectStep(o: ByPath, n: ByPath, all: seq<string>, k: nat)
    requires k < |all| && Collect(o, n, all[..k]).Some?
    ensures var front := Collect(o, n, all[..k]).value;
            Collect(o, n, all[..k + 1]) == match PathDiff(o, n, all[k])
                                           case Same => Some(front)
                                           case Unknown => None
                                           case Found(d) => Some(front + [d])
  {
    hide PathDiff;
    assert all[..k + 1][..k] == all[..k];
  }

  /** One of the three loops of `diff_schemas`, appending to the diffs found so far. */
  method DiffPaths(o: ByPath, n: ByPath, paths: seq<string>, ghost before: seq<string>, diffs: seq<Diff>) returns (longer: seq<Diff>)
    requires Collect(o, n, before) == Some(diffs)
    ensures Collect(o, n, before + paths) == Some(longer)
  {
    hide PathDiff, Collect;
    longer := diffs;
    ghost var all := before + paths;
    assert all[..|before|] == before;
    for i := 0 to |paths|
      invariant Collect(o, n, all[..|before| + i]) == Some(longer)
    {
      CollectStep(o, n, all, |before| + i);
      longer := DiffPath(o, n, paths[i], longer);
    }
    assert all[..|all|] == all;
  }

  /** `diff_schemas` as its three loops over one growing list. */
  method DiffLists(old_: seq<SchemaNode>, new_: seq<SchemaNode>) returns (diffs: seq<Diff>)
    ensures DiffSchemas(old_, new_) == Some(diffs)
  {
    hide Sorted, PathDiff, Index;
    var o := IndexNodes(old_);
    var n := IndexNodes(new_);
    var removed := Sorted(o.Keys - n.Keys);
    var added := Sorted(n.Keys - o.Keys);
    var common := Sorted(o.Keys * n.Keys);
    diffs := DiffPaths(o, n, removed, [], []);
    assert [] + removed == removed;
    diffs := DiffPaths(o, n, added, removed, diffs);
    diffs := DiffPaths(o, n, common, removed + added, diffs);
  }

  method IndexNodes(nodes: seq<SchemaNode>) returns (m: ByPath)
    ensures m == Index(nodes)
  {
    m := map[];
    for i := 0 to |nodes|
      invariant m == Index(nodes[..i])
    {
      m := m[nodes[i].path := nodes[i]];
      assert nodes[..i + 1][..i] == nodes[..i];
    }
    assert nodes[..|nodes|] == nodes;
  }

  method DiffPath(o: ByPath, n: ByPath, p: string, diffs: seq<Diff>) returns (longer: seq<Diff>)
    ensures match PathDiff(o, n, p)
            case Same => longer == diffs
            case Found(d) => longer == diffs + [d]
            case Unknown => false
  {
    NeverUnknown(o, n, p);
    var change := PathDiff(o, n, p);
    longer := if change.Found? then diffs + [change.diff] else diffs;
  }

  // ---------------------------------------------------------------- no unknown change type

  lemma PickKnown(o: SchemaNode, n: SchemaNode)
    ensures PickChangeType(o, n).Some? ==> PickChangeType(o, n).value in CHANGE_TYPES
  {
    hide EnumSet;
  }

  lemma BuildKnown(ct: string, path: string, ot: Option<JsonType>, nt: Option<JsonType>, ov: Option<Json>, nv: Option<Json>,
                   gained: seq<string>, lost: seq<string>)
    requires ct in CHANGE_TYPES
    ensures var c := Build(ct, path, ot, nt, ov, nv, gained, lost);
            c.Found? && c.diff == Diff(c.diff.severity, ct, path, ot, nt, ov, nv, gained, lost) && Classify(ct) == Some(c.diff.severity)
  {
    hide Classify;
    KnownIffListed(ct);
  }

  lemma NeverUnknown(o: ByPath, n: ByPath, p: string)
    ensures PathDiff(o, n, p) != Unknown
    ensures PathDiff(o, n, p).Found? ==>
              var d := PathDiff(o, n, p).diff; d.path == p && Classify(d.changeType) == Some(d.severity)
  {
    hide PickChangeType, Build, Classify, Sorted;
    if p in o && p !in n {
      BuildKnown("nested_object_removed", p, Some(o[p].type_), None, None, None, [], []);
      BuildKnown("removed_field", p, Some(o[p].type_), None, None, None, [], []);
    } else if p in n && p !in o {
      BuildKnown("added_field", p, None, Some(n[p].type_), None, None, [], []);
    } else if p in o && p in n && PickChangeType(o[p], n[p]).Some? {
      PickKnown(o[p], n[p]);
      var ct := PickChangeType(o[p], n[p]).value;
      var gained := if ct == "enum_expanded" || ct == "enum_changed" then Sorted(EnumSet(n[p]) - EnumSet(o[p])) else [];
      var lost := if ct == "enum_narrowed" || ct == "enum_changed" then Sorted(EnumSet(o[p]) - EnumSet(n[p])) else [];
      BuildKnown(ct, p, Some(o[p].type_), Some(n[p].type_), o[p].example, n[p].example, gained, lost);
    }
  }

  lemma {:induction false} CollectItems(o: ByPath, n: ByPath, paths: seq<string>)
    ensures Collect(o, n, paths).Some?
    ensures forall d :: d in Collect(o, n, paths).value <==> d.path in paths && PathDiff(o, n, d.path) == Found(d)
  {
    hide PathDiff;
    if paths != [] {
      var k := |paths| - 1;
      CollectItems(o, n, paths[..k]);
      NeverUnknown(o, n, paths[k]);
      assert paths == paths[..k] + [paths[k]];
    }
  }

  lemma OrderIsUnion(o: ByPath, n: ByPath, p: string)
    ensures p in DiffOrder(o, n) <==> p in o || p in n
  {
    hide Sorted;
    var a, b, c := o.Keys - n.Keys, n.Keys - o.Keys, o.Keys * n.Keys;
    assert p in Sorted(a) <==> p in a;
    assert p in Sorted(b) <==> p in b;
    assert p in Sorted(c) <==> p in c;
  }

  /** The diff never meets an unknown change type, and holds exactly the differing paths, each with its own diff. */
  lemma DiffIsPathwise(old_: seq<SchemaNode>, new_: seq<SchemaNode>)
    ensures DiffSchemas(old_, new_).Some?
    ensures forall d :: d in DiffSchemas(old_, new_).value <==> PathDiff(Index(old_), Index(new_), d.path) == Found(d)
    ensures forall d | d in DiffSchemas(old_, new_).value :: Classify(d.changeType) == Some(d.severity)
  {
    hide Index, Collect, DiffOrder, PathDiff, Classify;
    var o, n := Index(old_), Index(new_);
    CollectItems(o, n, DiffOrder(o, n));
    forall d: Diff ensures PathDiff(o, n, d.path) == Found(d) ==> d.path in DiffOrder(o, n) {
      OrderIsUnion(o, n, d.path);
      NothingThere(o, n, d.path);
    }
    forall d | d in DiffSchemas(old_, new_).value ensures Classify(d.changeType) == Some(d.severity) {
      NeverUnknown(o, n, d.path);
    }
  }

  lemma NothingThere(o: ByPath, n: ByPath, p: string)
    ensures p !in o && p !in n ==> PathDiff(o, n, p) == Same
  {
    hide RemovedDiff, AddedDiff, ChangedDiff;
  }

  // ---------------------------------------------------------------- at most one diff per path

  lemma {:induction false} CollectOnce(o: ByPath, n: ByPath, paths: seq<string>)
    requires forall i, j | 0 <= i < j < |paths| :: paths[i] != paths[j]
    ensures Collect(o, n, paths).Some?
    ensures var ds := Collect(o, n, paths).value; forall i, j | 0 <= i < j < |ds| :: ds[i].path != ds[j].path
  {
    hide PathDiff;
    if paths != [] {
      var k := |paths| - 1;
      CollectOnce(o, n, paths[..k]);
      CollectItems(o, n, paths[..k]);
      NeverUnknown(o, n, paths[k]);
      var front := Collect(o, n, paths[..k]).value;
      forall i | 0 <= i < |front| ensures front[i].path != paths[k] {
        assert front[i] in front;
        var m :| 0 <= m < k && paths[..k][m] == front[i].path;
        assert paths[m] != paths[k];
      }
    }
  }

  lemma SortedOnce(s: set<string>)
    ensures forall i, j | 0 <= i < j < |Sorted(s)| :: Sorted(s)[i] != Sorted(s)[j]
  {
    hide Sorted, StrictlyAscending;
    SortedAscending(s);
    forall i, j | 0 <= i < j < |Sorted(s)| ensures Sorted(s)[i] != Sorted(s)[j] {
      AscendingDistinct(Sorted(s), i, j);
    }
  }

  lemma ApartConcat(a: seq<string>, b: seq<string>)
    requires forall i, j | 0 <= i < j < |a| :: a[i] != a[j]
    requires forall i, j | 0 <= i < j < |b| :: b[i] != b[j]
    requires forall x | x in a :: x !in b
    ensures forall i, j | 0 <= i < j < |a + b| :: (a + b)[i] != (a + b)[j]
  {
    forall i, j | 0 <= i < j < |a + b| ensures (a + b)[i] != (a + b)[j] {
      if i < |a| <= j {
        assert a[i] in a && b[j - |a|] in b;
      }
    }
  }

  lemma OrderOnce(o: ByPath, n: ByPath)
    ensures forall i, j | 0 <= i < j < |DiffOrder(o, n)| :: DiffOrder(o, n)[i] != DiffOrder(o, n)[j]
  {
    hide Sorted;
    var a, b, c := o.Keys - n.Keys, n.Keys - o.Keys, o.Keys * n.Keys;
    SortedOnce(a);
    SortedOnce(b);
    SortedOnce(c);
    assert forall x | x in Sorted(a) :: x in a && x !in b && x !in c;
    assert forall x | x in Sorted(b) :: x in b && x !in c;
    ApartConcat(Sorted(a), Sorted(b));
    ApartConcat(Sorted(a) + Sorted(b), Sorted(c));
  }

  lemma OneDiffPerPath(old_: seq<SchemaNode>, new_: seq<SchemaNode>)
    ensures DiffSchemas(old_, new_).Some?
    ensures var ds := DiffSchemas(old_, new_).value; forall i, j | 0 <= i < j < |ds| :: ds[i].path != ds[j].path
  {
    hide Index, DiffOrder, Collect;
    OrderOnce(Index(old_), Index(new_));
    CollectOnce(Index(old_), Index(new_), DiffOrder(Index(old_), Index(new_)));
  }

  // ---------------------------------------------------------------- when there is nothing to report

  /** All fields the diff compares are equal; enum values count only where both sides have them. */
  predicate Agrees(o: SchemaNode, n: SchemaNode) {
    && o.type_ == n.type_ && o.nullable == n.nullable
    && (o.enumValues.Some? && n.enumValues.Some? ==> EnumSet(o) == EnumSet(n))
    && (o.type_ == TArray ==> o.arrayItemType == n.arrayItemType)
  }

  lemma SameIffAgrees(o: ByPath, n: ByPath, p: string)
    ensures PathDiff(o, n, p) == Same <==> ((p in o <==> p in n) && (p in o && p in n ==> Agrees(o[p], n[p])))
  {
    hide EnumSet, Sorted, Classify;
    NeverUnknown(o, n, p);
  }

  /** The diff is empty exactly when both lists have the same paths and agree on every compared field. */
  lemma EmptyDiffMeans(old_: seq<SchemaNode>, new_: seq<SchemaNode>)
    ensures DiffSchemas(old_, new_) == Some([]) <==>
            var o, n := Index(old_), Index(new_); o.Keys == n.Keys && forall p | p in o && p in n :: Agrees(o[p], n[p])
  {
    hide Index, PathDiff, DiffSchemas, Agrees;
    var o, n := Index(old_), Index(new_);
    DiffIsPathwise(old_, new_);
    var ds := DiffSchemas(old_, new_).value;
    forall p ensures PathDiff(o, n, p) != Same ==> ds != [] {
      NeverUnknown(o, n, p);
      if PathDiff(o, n, p).Found? {
        assert PathDiff(o, n, p).diff in ds;
      }
    }
    forall p ensures PathDiff(o, n, p) == Same <==> ((p in o <==> p in n) && (p in o && p in n ==> Agrees(o[p], n[p]))) {
      SameIffAgrees(o, n, p);
    }
    if ds != [] {
      assert ds[0] in ds;
      assert PathDiff(o, n, ds[0].path) != Same;
    }
  }

  // ---------------------------------------------------------------- swapping the arguments

  function DualType(d: Diff): string {
    match d.changeType
    case "added_field" => if d.newType == Some(TObject) then "nested_object_removed" else "removed_field"
    case "removed_field" => "added_field"
    case "nested_object_removed" => "added_field"
    case "int_to_number" => "number_to_int"
    case "number_to_int" => "int_to_number"
    case "nullable_added" => "nullable_removed"
    case "nullable_removed" => "nullable_added"
    case "enum_expanded" => "enum_narrowed"
    case "enum_narrowed" => "enum_expanded"
    case _ => d.changeType
  }

  /** The same diff read in the other direction. */
  function Swapped(d: Diff): Diff {
    var ct := DualType(d);
    Diff(if ct in SEVERITY_TABLE then SEVERITY_TABLE[ct] else "", ct, d.path, d.newType, d.oldType, d.newValue, d.oldValue,
         d.lost, d.gained)
  }

  function SwappedChange(c: Change): Change {
    if c.Found? then Found(Swapped(c.diff)) else c
  }

  lemma SwapRemoved(path: string, o: SchemaNode)
    ensures SwappedChange(RemovedDiff(path, o)) == AddedDiff(path, o) && SwappedChange(AddedDiff(path, o)) == RemovedDiff(path, o)
  {
  }

  /** The changes between two nodes come in dual pairs. */
  predicate DualPair(a: string, b: string) {
    || (a == b && a in {"type_changed", "enum_changed", "array_item_type_changed"})
    || (a == "int_to_number" && b == "number_to_int") || (a == "number_to_int" && b == "int_to_number")
    || (a == "nullable_added" && b == "nullable_removed") || (a == "nullable_removed" && b == "nullable_added")
    || (a == "enum_expanded" && b == "enum_narrowed") || (a == "enum_narrowed" && b == "enum_expanded")
  }

  lemma SwapPick(o: SchemaNode, n: SchemaNode)
    ensures PickChangeType(o, n).Some? <==> PickChangeType(n, o).Some?
    ensures PickChangeType(o, n).Some? ==> DualPair(PickChangeType(o, n).value, PickChangeType(n, o).value)
  {
    hide EnumSet;
  }

  lemma SwapBuilt(a: string, b: string, path: string, ot: Option<JsonType>, nt: Option<JsonType>, ov: Option<Json>, nv: Option<Json>,
                  gained: seq<string>, lost: seq<string>)
    requires DualPair(a, b)
    ensures SwappedChange(Build(a, path, ot, nt, ov, nv, gained, lost)) == Build(b, path, nt, ot, nv, ov, lost, gained)
  {
  }

  lemma SwapChanged(path: string, o: SchemaNode, n: SchemaNode)
    ensures SwappedChange(ChangedDiff(path, o, n)) == ChangedDiff(path, n, o)
  {
    hide PickChangeType, Build, EnumSet, Sorted, Swapped;
    SwapPick(o, n);
    if PickChangeType(o, n).Some? {
      var a, b := PickChangeType(o, n).value, PickChangeType(n, o).value;
      var gained := if a == "enum_expanded" || a == "enum_changed" then Sorted(EnumSet(n) - EnumSet(o)) else [];
      var lost := if a == "enum_narrowed" || a == "enum_changed" then Sorted(EnumSet(o) - EnumSet(n)) else [];
      SwapBuilt(a, b, path, Some(o.type_), Some(n.type_), o.example, n.example, gained, lost);
    }
  }

  lemma SwapPath(o: ByPath, n: ByPath, p: string)
    ensures SwappedChange(PathDiff(o, n, p)) == PathDiff(n, o, p)
  {
    hide RemovedDiff, AddedDiff, ChangedDiff, SwappedChange;
    if p in o && p !in n {
      SwapRemoved(p, o[p]);
    } else if p !in o && p in n {
      SwapRemoved(p, n[p]);
    } else if p in o && p in n {
      SwapChanged(p, o[p], n[p]);
    } else {
      SwapAgrees();
    }
  }

  lemma SwapAgrees()
    ensures SwappedChange(Same) == Same
  {
  }

  /** Swapping the lists swaps every diff: same paths, dual change types, old and new exchanged. */
  lemma SwapDuality(old_: seq<SchemaNode>, new_: seq<SchemaNode>, d: Diff)
    requires DiffSchemas(old_, new_).Some? && d in DiffSchemas(old_, new_).value
    ensures DiffSchemas(new_, old_).Some? && Swapped(d) in DiffSchemas(new_, old_).value && Swapped(Swapped(d)) == d
  {
    hide Index, PathDiff, DiffSchemas, Swapped;
    var o, n := Index(old_), Index(new_);
    DiffIsPathwise(old_, new_);
    DiffIsPathwise(new_, old_);
    SwapPath(o, n, d.path);
    SwapPath(n, o, d.path);
    SwappedPath(d);
  }

  lemma SwappedPath(d: Diff)
    ensures Swapped(d).path == d.path
  {
  }

  // ---------------------------------------------------------------- diff and hash

  lemma PathsSnoc(nodes: seq<SchemaNode>, x: SchemaNode)
    ensures PathsOf(nodes + [x]) == PathsOf(nodes) + {x.path}
  {
    var longer := nodes + [x];
    forall p ensures p in PathsOf(longer) <==> p in PathsOf(nodes) || p == x.path {
      if p in PathsOf(nodes) {
        var i :| 0 <= i < |nodes| && nodes[i].path == p;
        assert longer[i].path == p;
      }
      assert longer[|nodes|].path == x.path;
    }
  }

  lemma IndexSnoc(nodes: seq<SchemaNode>, x: SchemaNode)
    ensures Index(nodes + [x]) == Index(nodes)[x.path := x]
  {
    assert (nodes + [x])[..|nodes|] == nodes;
  }

  lemma {:induction false} IndexHolds(nodes: seq<SchemaNode>)
    ensures Index(nodes).Keys == PathsOf(nodes)
    ensures forall p | p in Index(nodes) :: Index(nodes)[p] in nodes && Index(nodes)[p].path == p
  {
    hide Index, PathsOf;
    if nodes == [] {
      IndexEmpty();
    } else {
      var k := |nodes| - 1;
      assert nodes == nodes[..k] + [nodes[k]];
      IndexHolds(nodes[..k]);
      PathsSnoc(nodes[..k], nodes[k]);
      IndexSnoc(nodes[..k], nodes[k]);
    }
  }

  lemma IndexEmpty()
    ensures Index([]) == map[] && PathsOf([]) == {}
  {
  }

  lemma IndexIsNodeAt(nodes: seq<SchemaNode>, p: string)
    requires OneNodePerPath(nodes) && p in PathsOf(nodes)
    ensures p in Index(nodes) && Index(nodes)[p] == NodeAt(nodes, p)
  {
    hide Index, NodeAt;
    IndexHolds(nodes);
  }

  /** Two schemas with one node per path and the same structural hash input have no diff. */
  lemma SameHashNoDiff(a: seq<SchemaNode>, b: seq<SchemaNode>)
    requires OneNodePerPath(a) && OneNodePerPath(b) && HashInput(a) == HashInput(b)
    ensures DiffSchemas(a, b) == Some([])
  {
    hide Sorted, NodeAt, Index, DiffSchemas, HashInput, PathsOf, OneNodePerPath;
    HashLength(a);
    HashLength(b);
    var ps, qs := Sorted(PathsOf(a)), Sorted(PathsOf(b));
    forall i | 0 <= i < |ps| ensures ps[i] == qs[i] {
      HashPaths(a, i);
      HashPaths(b, i);
    }
    assert ps == qs;
    IndexHolds(a);
    IndexHolds(b);
    var o, n := Index(a), Index(b);
    forall p | p in o && p in n ensures Agrees(o[p], n[p]) {
      assert p in ps;
      var i :| 0 <= i < |ps| && ps[i] == p;
      HashPaths(a, i);
      HashPaths(b, i);
      IndexIsNodeAt(a, p);
      IndexIsNodeAt(b, p);
      ProjectionAgrees(o[p], n[p]);
    }
    EmptyDiffMeans(a, b);
  }

  lemma ProjectionAgrees(o: SchemaNode, n: SchemaNode)
    requires Project(o) == Project(n)
    ensures Agrees(o, n)
  {
  }

  lemma InferredOnce(data: Json)
    ensures OneNodePerPath(InferSchema(data))
  {
    hide Sorted, Finalize, SchemaInference.Run, WalkEvents;
    var m := SchemaInference.Run(map[], WalkEvents(data, ""));
    var nodes, ps := InferSchema(data), Sorted(m.Keys);
    SortedOnce(m.Keys);
    forall i | 0 <= i < |nodes| ensures nodes[i].path == ps[i] {
      FinalPath(m, i);
    }
  }

  lemma FinalPath(m: States, i: nat)
    requires i < |Sorted(m.Keys)|
    ensures FinalNodes(m)[i].path == Sorted(m.Keys)[i]
  {
    hide Sorted;
  }

  /** Permuting arrays in such ways, at any depth, never raises a diff. */
  lemma ItemOrderNoDiff(a: Json, b: Json)
    requires Shuffled(a, b)
    ensures DiffSchemas(InferSchema(a), InferSchema(b)) == Some([])
  {
    hide InferSchema, HashInput, DiffSchemas, Shuffled;
    ItemOrderIrrelevant(a, b);
    InferredOnce(a);
    InferredOnce(b);
    SameHashNoDiff(InferSchema(a), InferSchema(b));
  }

  /** Nor does reordering object keys, at any depth. */
  lemma KeyOrderNoDiff(a: Json, b: Json)
    requires Reordered(a, b) && CleanKeys(a)
    ensures DiffSchemas(InferSchema(a), InferSchema(b)) == Some([])
  {
    hide InferSchema, HashInput, DiffSchemas, Reordered, CleanKeys;
    KeyOrderIrrelevant(a, b);
    InferredOnce(a);
    SameHashNoDiff(InferSchema(a), InferSchema(b));
  }
}
