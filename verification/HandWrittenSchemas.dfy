/** Verdicts between schemas of any form, with `enum`, `nullable` and `required`, and when SAFE steps compose. */
module HandWrittenSchemas {
  import opened Options
  import opened JsonValues
  import opened Classifier
  import opened CompatibilityChain

  // ---------------------------------------------------------------- nodes of any schema

  function NodeVerdict(show: Show, o: Json, n: Json): Compatibility {
    Classify(show, Some(o), Some(n)).classification
  }

  /** What holds a node to its old values more tightly than before. */
  predicate Tightened(show: Show, o: Json, n: Json) {
    TypeOf(show, o) == TypeOf(show, n) &&
    ((NullableOf(o) == Some(true) && NullableOf(n) == Some(false))
     || (!Loosened(o, n) && EnumOf(o).Some? && EnumOf(n).Some? && EnumOf(n).value < EnumOf(o).value))
  }

  predicate Loosened(o: Json, n: Json) {
    NullableOf(o) == Some(false) && NullableOf(n) == Some(true)
  }

  /** Between two nodes BREAKING means another type or tighter values; and it is what undoing any lesser change is. */
  lemma ReverseVerdicts(show: Show, o: Json, n: Json)
    ensures NodeVerdict(show, o, n) == BREAKING <==>
            (TypeOf(show, o) != TypeOf(show, n) && !(TypeOf(show, o) == "integer" && TypeOf(show, n) == "number")) || Tightened(show, o, n)
    ensures NodeVerdict(show, o, n) == SAFE <==> NodeVerdict(show, n, o) == SAFE
    ensures NodeVerdict(show, o, n) != SAFE && NodeVerdict(show, o, n) != BREAKING ==> NodeVerdict(show, n, o) == BREAKING
  {
    hide TypeOf, NullableOf, EnumOf;
  }

  // ---------------------------------------------------------------- SAFE steps between nodes

  /** Two nodes state opposite `nullable`, or enums of which one strictly contains the other. */
  predicate Opposed(o: Json, n: Json) {
    || (NullableOf(o).Some? && NullableOf(n).Some? && NullableOf(o).value != NullableOf(n).value)
    || (EnumOf(o).Some? && EnumOf(n).Some?
        && (EnumOf(o).value < EnumOf(n).value || EnumOf(n).value < EnumOf(o).value))
  }

  lemma NodeSafe(show: Show, o: Json, n: Json)
    ensures NodeVerdict(show, o, n) == SAFE <==> TypeOf(show, o) == TypeOf(show, n) && !Opposed(o, n)
  {
    hide TypeOf, NullableOf, EnumOf;
  }

  /** Two SAFE steps end SAFE exactly when their ends are not opposed, and BREAKING exactly when the last is tightened. */
  lemma SafeNodesCompose(show: Show, a: Json, b: Json, c: Json)
    requires NodeVerdict(show, a, b) == SAFE && NodeVerdict(show, b, c) == SAFE
    ensures NodeVerdict(show, a, c) == SAFE <==> !Opposed(a, c)
    ensures NodeVerdict(show, a, c) == BREAKING <==> Tightened(show, a, c)
  {
    hide TypeOf, NullableOf, EnumOf, NodeVerdict, Opposed, Tightened;
    NodeSafe(show, a, b);
    NodeSafe(show, b, c);
    NodeSafe(show, a, c);
    ReverseVerdicts(show, a, c);
  }

  /** A node between two others that states `nullable`, and the enum of one of them if both list one. */
  predicate Bridges(a: Json, b: Json, c: Json) {
    NullableOf(b).Some?
    && (EnumOf(a) == None || EnumOf(c) == None || EnumOf(b) == EnumOf(a) || EnumOf(b) == EnumOf(c))
  }

  lemma BridgedNodesCompose(show: Show, a: Json, b: Json, c: Json)
    requires NodeVerdict(show, a, b) == SAFE && NodeVerdict(show, b, c) == SAFE && Bridges(a, b, c)
    ensures NodeVerdict(show, a, c) == SAFE
  {
    hide TypeOf, NullableOf, EnumOf, NodeVerdict;
    NodeSafe(show, a, b);
    NodeSafe(show, b, c);
    NodeSafe(show, a, c);
  }

  // ---------------------------------------------------------------- SAFE steps between schemas

  function Flat(schema: Json): map<string, Json> {
    Flatten(schema, "")
  }

  function SchemaVerdict(show: Show, o: Json, n: Json): Compatibility {
    Summarize(DiffAndClassify(show, o, n))
  }

  /** The node states a truthy `required`. */
  predicate Demands(n: Json) {
    match Lookup(n, "required") case Some(v) => Truthy(v) case None => false
  }

  /** The path is no difference, or one whose verdict is SAFE. */
  predicate PathSafe(show: Show, o: Option<Json>, n: Option<Json>) {
    o == n || Classify(show, o, n).classification == SAFE
  }

  lemma PathSafeMeans(show: Show, o: Option<Json>, n: Option<Json>)
    ensures PathSafe(show, o, n) <==>
            match (o, n)
            case (None, None) => true
            case (None, Some(y)) => !Demands(y)
            case (Some(x), None) => false
            case (Some(x), Some(y)) => TypeOf(show, x) == TypeOf(show, y) && !Opposed(x, y)
  {
    hide TypeOf, NullableOf, EnumOf, Lookup, Truthy;
    if o.Some? && n.Some? {
      NodeSafe(show, o.value, n.value);
    }
  }

  lemma RankBounds(c: Compatibility)
    ensures Rank(c) <= 0 <==> c == SAFE
    ensures Rank(c) <= 3 <==> c != BREAKING
  {
  }

  ghost predicate DiffersAt(o: Json, n: Json, p: string) {
    p in Flat(o).Keys + Flat(n).Keys && At(Flat(o), p) != At(Flat(n), p)
  }

  function VerdictAt(show: Show, o: Json, n: Json, p: string): Compatibility {
    Classify(show, At(Flat(o), p), At(Flat(n), p)).classification
  }

  /** The rank bound of the summary, path by path. */
  lemma RankAtPaths(show: Show, o: Json, n: Json, r: nat)
    ensures Rank(SchemaVerdict(show, o, n)) <= r <==> forall p | DiffersAt(o, n, p) :: Rank(VerdictAt(show, o, n, p)) <= r
  {
    hide Flatten, Classify, At, DiffAndClassify, Summarize, Rank;
    SummaryWithin(show, o, n, r);
    if WithinRank(show, Flat(o), Flat(n), r) {
      forall p | DiffersAt(o, n, p) ensures Rank(VerdictAt(show, o, n, p)) <= r {
      }
    }
    if forall p | DiffersAt(o, n, p) :: Rank(VerdictAt(show, o, n, p)) <= r {
      forall p | p in Flat(o).Keys + Flat(n).Keys && At(Flat(o), p) != At(Flat(n), p)
        ensures Rank(Classify(show, At(Flat(o), p), At(Flat(n), p)).classification) <= r
      {
        assert DiffersAt(o, n, p);
      }
    }
  }

  /** A path that cannot differ, or differs safely. */
  lemma PathSafeAt(show: Show, o: Json, n: Json, p: string)
    requires p in Flat(o).Keys + Flat(n).Keys
    ensures PathSafe(show, At(Flat(o), p), At(Flat(n), p)) <==> DiffersAt(o, n, p) ==> Rank(VerdictAt(show, o, n, p)) <= 0
  {
    hide Flat, Classify, At, Rank;
    RankBounds(VerdictAt(show, o, n, p));
  }

  /** The summary is SAFE exactly when every path is. */
  lemma SchemaSafe(show: Show, o: Json, n: Json)
    ensures SchemaVerdict(show, o, n) == SAFE <==> forall p | p in Flat(o).Keys + Flat(n).Keys ::
              PathSafe(show, At(Flat(o), p), At(Flat(n), p))
  {
    hide Flat, SchemaVerdict, VerdictAt, PathSafe, At, Rank;
    RankAtPaths(show, o, n, 0);
    RankBounds(SchemaVerdict(show, o, n));
    if SchemaVerdict(show, o, n) == SAFE {
      forall p | p in Flat(o).Keys + Flat(n).Keys ensures PathSafe(show, At(Flat(o), p), At(Flat(n), p)) {
        PathSafeAt(show, o, n, p);
      }
    } else {
      var p :| DiffersAt(o, n, p) && Rank(VerdictAt(show, o, n, p)) > 0;
      PathSafeAt(show, o, n, p);
    }
  }

  /** It is BREAKING exactly when some differing path is. */
  lemma SchemaBreaking(show: Show, o: Json, n: Json)
    ensures SchemaVerdict(show, o, n) == BREAKING <==> exists p :: DiffersAt(o, n, p) && VerdictAt(show, o, n, p) == BREAKING
  {
    hide DiffersAt, SchemaVerdict, VerdictAt, Rank;
    RankAtPaths(show, o, n, 3);
    RankBounds(SchemaVerdict(show, o, n));
    if SchemaVerdict(show, o, n) == BREAKING {
      var p :| DiffersAt(o, n, p) && Rank(VerdictAt(show, o, n, p)) > 3;
      RankBounds(VerdictAt(show, o, n, p));
    } else {
      forall p | DiffersAt(o, n, p) ensures VerdictAt(show, o, n, p) != BREAKING {
        RankBounds(VerdictAt(show, o, n, p));
      }
    }
  }

  ghost predicate SafeSteps(show: Show, schemas: seq<Json>) {
    forall k | 0 < k < |schemas| :: SchemaVerdict(show, schemas[k - 1], schemas[k]) == SAFE
  }

  lemma SafeStepKeepsPath(show: Show, o: Json, n: Json, p: string)
    requires SchemaVerdict(show, o, n) == SAFE && p in Flat(o)
    ensures p in Flat(n) && TypeOf(show, Flat(n)[p]) == TypeOf(show, Flat(o)[p]) && !Opposed(Flat(o)[p], Flat(n)[p])
  {
    hide Flat, SchemaVerdict, PathSafe, Opposed, TypeOf;
    SchemaSafe(show, o, n);
    assert p in Flat(o).Keys + Flat(n).Keys;
    PathSafeMeans(show, At(Flat(o), p), At(Flat(n), p));
  }

  /** Along SAFE steps no path is lost and none changes its type. */
  lemma {:induction false} SafeChainKeepsPaths(show: Show, schemas: seq<Json>, i: nat, j: nat, p: string)
    requires SafeSteps(show, schemas) && i <= j < |schemas| && p in Flat(schemas[i])
    ensures p in Flat(schemas[j]) && TypeOf(show, Flat(schemas[j])[p]) == TypeOf(show, Flat(schemas[i])[p])
    decreases j
  {
    hide Flat, SchemaVerdict, Opposed, TypeOf;
    if i < j {
      SafeChainKeepsPaths(show, schemas, i, j - 1, p);
      SafeStepKeepsPath(show, schemas[j - 1], schemas[j], p);
    }
  }

  /** Nothing at the two ends stands in the way of a SAFE verdict: no opposed nodes, no new demands. */
  ghost predicate EndsAgree(o: Json, n: Json) {
    forall p | p in Flat(n) :: if p in Flat(o) then !Opposed(Flat(o)[p], Flat(n)[p]) else !Demands(Flat(n)[p])
  }

  lemma KeptPathSafe(show: Show, o: Json, n: Json, p: string)
    requires p in Flat(n) && (p in Flat(o) ==> TypeOf(show, Flat(n)[p]) == TypeOf(show, Flat(o)[p]))
    ensures PathSafe(show, At(Flat(o), p), At(Flat(n), p)) <==>
            if p in Flat(o) then !Opposed(Flat(o)[p], Flat(n)[p]) else !Demands(Flat(n)[p])
  {
    hide Flat, PathSafe, Opposed, TypeOf, Demands;
    PathSafeMeans(show, At(Flat(o), p), At(Flat(n), p));
  }

  /**
    * A chain of SAFE steps of any length ends SAFE exactly when its ends agree: whatever lies between, only the
    * first and the last schema decide.
    */
  lemma SafeChainVerdict(show: Show, schemas: seq<Json>, i: nat, j: nat)
    requires SafeSteps(show, schemas) && i < j < |schemas|
    ensures SchemaVerdict(show, schemas[i], schemas[j]) == SAFE <==> EndsAgree(schemas[i], schemas[j])
  {
    hide Flat, SchemaVerdict, PathSafe, Opposed, TypeOf, Demands, SafeSteps, At;
    var o, n := schemas[i], schemas[j];
    SchemaSafe(show, o, n);
    forall p | p in Flat(o) ensures p in Flat(n) && TypeOf(show, Flat(n)[p]) == TypeOf(show, Flat(o)[p]) {
      SafeChainKeepsPaths(show, schemas, i, j, p);
    }
    forall p | p in Flat(n)
      ensures PathSafe(show, At(Flat(o), p), At(Flat(n), p)) <==>
              if p in Flat(o) then !Opposed(Flat(o)[p], Flat(n)[p]) else !Demands(Flat(n)[p])
    {
      KeptPathSafe(show, o, n, p);
    }
  }

  lemma TightenedPathBreaks(show: Show, o: Json, n: Json, p: string)
    requires p in Flat(o) ==> p in Flat(n) && TypeOf(show, Flat(n)[p]) == TypeOf(show, Flat(o)[p])
    ensures (DiffersAt(o, n, p) && VerdictAt(show, o, n, p) == BREAKING) <==>
            p in Flat(o) && p in Flat(n) && Tightened(show, Flat(o)[p], Flat(n)[p])
  {
    hide Flat, TypeOf, NullableOf, EnumOf, Lookup, Truthy;
    if p in Flat(o) {
      ReverseVerdicts(show, Flat(o)[p], Flat(n)[p]);
    }
  }

  /**
    * And it ends BREAKING exactly when some path of the first schema is tightened in the last; a path that came
    * in between, required or not, never makes it BREAKING.
    */
  lemma SafeChainBreaks(show: Show, schemas: seq<Json>, i: nat, j: nat)
    requires SafeSteps(show, schemas) && i < j < |schemas|
    ensures SchemaVerdict(show, schemas[i], schemas[j]) == BREAKING <==>
            exists p :: p in Flat(schemas[i]) && p in Flat(schemas[j]) && Tightened(show, Flat(schemas[i])[p], Flat(schemas[j])[p])
  {
    hide Flat, SchemaVerdict, Tightened, TypeOf, SafeSteps, DiffersAt, VerdictAt;
    var o, n := schemas[i], schemas[j];
    SchemaBreaking(show, o, n);
    forall p
      ensures (DiffersAt(o, n, p) && VerdictAt(show, o, n, p) == BREAKING) <==>
              p in Flat(o) && p in Flat(n) && Tightened(show, Flat(o)[p], Flat(n)[p])
    {
      if p in Flat(o) {
        SafeChainKeepsPaths(show, schemas, i, j, p);
      }
      TightenedPathBreaks(show, o, n, p);
    }
  }

  /** Every schema after the first bridges the first and its successor, path by path, up to schema `j`. */
  ghost predicate Bridged(schemas: seq<Json>, j: nat)
    requires j < |schemas|
  {
    forall k, p | 0 < k < j && p in Flat(schemas[0]) && p in Flat(schemas[k]) && p in Flat(schemas[k + 1]) ::
      Bridges(Flat(schemas[0])[p], Flat(schemas[k])[p], Flat(schemas[k + 1])[p])
  }

  lemma {:induction false} BridgedPath(show: Show, schemas: seq<Json>, j: nat, p: string)
    requires SafeSteps(show, schemas) && 0 < j < |schemas| && p in Flat(schemas[0]) && Bridged(schemas, j)
    ensures p in Flat(schemas[j]) && NodeVerdict(show, Flat(schemas[0])[p], Flat(schemas[j])[p]) == SAFE
    decreases j
  {
    hide Flat, SchemaVerdict, Opposed, TypeOf, NodeVerdict, Bridges;
    var k := j - 1;
    SafeChainKeepsPaths(show, schemas, 0, k, p);
    SafeStepKeepsPath(show, schemas[k], schemas[j], p);
    var a, b, c := Flat(schemas[0])[p], Flat(schemas[k])[p], Flat(schemas[j])[p];
    NodeSafe(show, b, c);
    if k > 0 {
      BridgedPath(show, schemas, k, p);
      BridgedNodesCompose(show, a, b, c);
    }
  }

  /**
    * So where every schema in between states `nullable` and keeps to the enums around it, and nothing the chain
    * adds is required in the end, SAFE steps do compose.
    */
  lemma BridgedChainIsSafe(show: Show, schemas: seq<Json>, j: nat)
    requires SafeSteps(show, schemas) && 0 < j < |schemas| && Bridged(schemas, j)
    requires forall p | p in Flat(schemas[j]) && p !in Flat(schemas[0]) :: !Demands(Flat(schemas[j])[p])
    ensures SchemaVerdict(show, schemas[0], schemas[j]) == SAFE
  {
    hide Flat, SchemaVerdict, Opposed, TypeOf, NodeVerdict, Bridged, Demands, SafeSteps;
    SafeChainVerdict(show, schemas, 0, j);
    forall p | p in Flat(schemas[0]) && p in Flat(schemas[j]) ensures !Opposed(Flat(schemas[0])[p], Flat(schemas[j])[p]) {
      BridgedPath(show, schemas, j, p);
      NodeSafe(show, Flat(schemas[0])[p], Flat(schemas[j])[p]);
    }
  }

  // ---------------------------------------------------------------- an instance

  function EnumNode(values: seq<string>): Json {
    Obj([Field("type", Str("string")), Field("enum", Arr(Texts(values)))])
  }

  lemma EnumFields(values: seq<string>)
    ensures Lookup(EnumNode(values), "type") == Some(Str("string"))
    ensures Lookup(EnumNode(values), "enum") == Some(Arr(Texts(values)))
    ensures Lookup(EnumNode(values), "nullable") == None
  {
    hide Texts, Get;
    var fs := EnumNode(values).fields;
    assert fs[0].key == "type" && fs[1].key == "enum";
    GetIs(fs, 0);
    GetIs(fs, 1);
    assert Keys(fs) == {"type", "enum"};
  }

  lemma TypeIsLookup(show: Show, node: Json, t: string)
    requires Lookup(node, "type") == Some(Str(t))
    ensures TypeOf(show, node) == t
  {
    hide Get;
  }

  lemma EnumIsLookup(node: Json, items: seq<Json>, v: Json)
    requires Lookup(node, "enum") == Some(Arr(items))
    ensures EnumOf(node).Some? && (v in EnumOf(node).value <==> v in items)
  {
    hide Lookup;
    if v in items {
      var i :| 0 <= i < |items| && items[i] == v;
    }
  }

  lemma EnumReads(show: Show, values: seq<string>)
    ensures TypeOf(show, EnumNode(values)) == "string" && NullableOf(EnumNode(values)) == None
    ensures EnumOf(EnumNode(values)).Some?
    ensures forall v :: v in EnumOf(EnumNode(values)).value <==> exists i :: 0 <= i < |values| && v == Str(values[i])
  {
    hide EnumNode, TypeOf, EnumOf, Lookup;
    EnumFields(values);
    TypeIsLookup(show, EnumNode(values), "string");
    EnumIsLookup(EnumNode(values), Texts(values), Null);
    forall v ensures v in EnumOf(EnumNode(values)).value <==> exists i :: 0 <= i < |values| && v == Str(values[i]) {
      EnumIsLookup(EnumNode(values), Texts(values), v);
    }
  }

  /** Opposed ends do occur: two SAFE steps can end in a BREAKING difference. */
  lemma EnumStepsDoNotCompose(show: Show)
    ensures var a, b, c := EnumNode(["x", "y"]), EnumNode(["z"]), EnumNode(["x"]);
            NodeVerdict(show, a, b) == SAFE && NodeVerdict(show, b, c) == SAFE && NodeVerdict(show, a, c) == BREAKING
  {
    hide TypeOf, NullableOf, EnumOf, EnumNode;
    EnumReads(show, ["x", "y"]);
    EnumReads(show, ["z"]);
    EnumReads(show, ["x"]);
    var a, b, c := EnumOf(EnumNode(["x", "y"])).value, EnumOf(EnumNode(["z"])).value, EnumOf(EnumNode(["x"])).value;
    assert ["x", "y"][0] == "x" && ["x", "y"][1] == "y" && ["z"][0] == "z" && ["x"][0] == "x";
    assert Str("x") in a && Str("y") in a && Str("z") in b && Str("x") in c;
    assert Str("z") !in a && Str("y") !in c && Str("x") !in b && Str("z") !in c;
  }
}
