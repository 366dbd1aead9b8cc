/** The step-by-step accumulator of a scalar path equals a summary of the values seen there. */
module InferenceSummary {
  import opened Options
  import opened Collections
  import opened Sorting
  import opened JsonValues
  import opened SchemaInference

  ghost predicate Scalars(values: seq<Json>) {
    forall v | v in values :: v.IsScalar()
  }

  function Observations(values: seq<Json>): seq<Op> {
    if values == [] then [] else
      Observations(values[..|values| - 1]) + [Observe(values[|values| - 1])]
  }

  ghost predicate NullSeen(values: seq<Json>) {
    Null in values
  }

  function StringsSeen(values: seq<Json>): set<string> {
    set i | 0 <= i < |values| && values[i].Str? :: values[i].s
  }

  /** The first non-null value, long strings cut. */
  function FirstExample(values: seq<Json>): Option<Json> {
    if values == [] then None else
      var n := |values| - 1;
      var before := FirstExample(values[..n]);
      if before.Some? then before else if values[n].Null? then None else Some(Truncated(values[n]))
  }

  ghost function SummaryState(values: seq<Json>): NodeState {
    var strings := StringsSeen(values);
    var many := |strings| > ENUM_THRESHOLD;
    NodeState(ItemType(values), true, NullSeen(values), None, FirstExample(values),
              if many then {} else strings, many, strings != {})
  }

  lemma {:induction false} ScalarsAt(path: string, values: seq<Json>)
    requires Scalars(values)
    ensures OpsAt(ItemEvents(values, path), path) == Observations(values)
  {
    if values != [] {
      var n := |values| - 1;
      assert values[n] in values;
      ScalarsAt(path, values[..n]);
      var e := Event(path, Observe(values[n]));
      OpsConcat(ItemEvents(values[..n], path), [e], path);
      assert [e][..0] == [];
      assert OpsAt([e], path) == [Observe(values[n])];
    }
  }

  lemma {:induction false} TypesSeen(values: seq<Json>, t: JsonType)
    ensures t in NonNullTypes(values) <==> exists v :: v in values && !v.Null? && ScalarType(v) == t
  {
    hide ScalarType;
    if values != [] {
      var n := |values| - 1;
      TypesSeen(values[..n], t);
      assert values == values[..n] + [values[n]];
    }
  }

  /** How the type of one more value joins the types seen before it. */
  lemma TypeJoins(values: seq<Json>, v: Json)
    requires Scalars(values) && v.IsScalar() && !v.Null?
    ensures var before := ItemType(values); var t := ScalarType(v);
            ItemType(values + [v]) == if before == TNull || before == t then t else TMixed
    ensures ItemType(values) == TNull <==> NonNullTypes(values) == {}
  {
    TypesSeen(values, TNull);
    TypesSeen(values, TMixed);
    var old_ := NonNullTypes(values);
    assert (values + [v])[..|values|] == values;
    assert NonNullTypes(values + [v]) == old_ + {ScalarType(v)};
    if |old_| == 1 {
      assert old_ == {TheOnly(old_)};
      if TheOnly(old_) != ScalarType(v) {
        assert |old_ + {ScalarType(v)}| == 2;
      }
    } else if old_ != {} {
      if ScalarType(v) in old_ {
        assert old_ + {ScalarType(v)} == old_;
      }
      assert |old_ + {ScalarType(v)}| >= |old_| > 1;
    } else {
      assert old_ + {ScalarType(v)} == {ScalarType(v)};
    }
  }

  lemma NullKeepsTypes(values: seq<Json>)
    ensures ItemType(values + [Null]) == ItemType(values)
    ensures StringsSeen(values + [Null]) == StringsSeen(values)
    ensures FirstExample(values + [Null]) == FirstExample(values)
  {
    assert (values + [Null])[..|values|] == values;
    assert NonNullTypes(values + [Null]) == NonNullTypes(values);
  }

  lemma StringJoins(values: seq<Json>, v: Json)
    ensures StringsSeen(values + [v]) == StringsSeen(values) + if v.Str? then {v.s} else {}
  {
    var all := values + [v];
    assert forall i | 0 <= i < |values| :: all[i] == values[i];
    assert all[|values|] == v;
  }

  lemma AllNullWhenUntyped(values: seq<Json>)
    requires values != [] && Scalars(values) && NonNullTypes(values) == {}
    ensures NullSeen(values)
  {
    var v := values[0];
    assert v in values;
    TypesSeen(values, ScalarType(v));
  }

  lemma StringOnSummary(before: seq<Json>, s: NodeState, v: string)
    requires s == SummaryState(before).(type_ := s.type_, nullable := s.nullable, example := s.example)
    ensures var strings := StringsSeen(before) + {v};
            WithString(s, v) ==
            s.(isStringLeaf := true, enumDisabled := |strings| > ENUM_THRESHOLD,
               enumValues := if |strings| > ENUM_THRESHOLD then {} else strings)
  {
    SubsetSize(StringsSeen(before), StringsSeen(before) + {v});
  }

  lemma NullOnSummary(before: seq<Json>)
    ensures SummaryState(before).(nullable := true) == SummaryState(before + [Null])
  {
    hide ItemType, StringsSeen, FirstExample;
    NullKeepsTypes(before);
    assert (before + [Null])[|before|] == Null;
  }

  lemma ObserveOnSummary(before: seq<Json>, v: Json)
    requires before != [] && Scalars(before) && v.IsScalar()
    ensures ObserveScalar(SummaryState(before), v) == SummaryState(before + [v])
  {
    hide ItemType, StringsSeen, FirstExample, NullSeen, WithType, WithExample, WithString, ScalarType;
    if v.Null? {
      NullOnSummary(before);
    } else {
      ValueOnSummary(before, v);
      StringJoins(before, v);
      if v.Str? {
        StringOnSummary(before, WithExample(WithType(SummaryState(before), ScalarType(v)), v), v.s);
      }
    }
  }

  lemma FirstExampleJoins(before: seq<Json>, s: NodeState, v: Json)
    requires !v.Null? && s.example == FirstExample(before)
    ensures WithExample(s, v) == s.(example := FirstExample(before + [v]))
  {
    assert (before + [v])[..|before|] == before;
  }

  lemma NullsJoin(before: seq<Json>, v: Json)
    requires !v.Null?
    ensures NullSeen(before + [v]) == NullSeen(before)
  {
  }

  lemma TypeOnSummary(before: seq<Json>, s: NodeState, v: Json)
    requires before != [] && Scalars(before) && v.IsScalar() && !v.Null?
    requires s.type_ == ItemType(before) && s.nullable == NullSeen(before)
    ensures WithType(s, ScalarType(v)) == s.(type_ := ItemType(before + [v]))
  {
    hide ItemType, NonNullTypes, ScalarType, NullSeen;
    TypeJoins(before, v);
    if NonNullTypes(before) == {} {
      AllNullWhenUntyped(before);
    }
  }

  lemma ValueOnSummary(before: seq<Json>, v: Json)
    requires before != [] && Scalars(before) && v.IsScalar() && !v.Null?
    ensures var s := SummaryState(before);
            WithExample(WithType(s, ScalarType(v)), v) ==
            s.(type_ := ItemType(before + [v]), nullable := NullSeen(before + [v]), example := FirstExample(before + [v]))
    ensures NullSeen(before + [v]) == NullSeen(before)
  {
    hide ItemType, StringsSeen, FirstExample, NullSeen, WithType, WithExample, ScalarType;
    var s := SummaryState(before);
    NullsJoin(before, v);
    TypeOnSummary(before, s, v);
    FirstExampleJoins(before, WithType(s, ScalarType(v)), v);
  }

  lemma NothingSummed()
    ensures NonNullTypes([]) == {} && ItemType([]) == TNull && FirstExample([]) == None && StringsSeen([]) == {}
  {
  }

  lemma FirstString(v: string)
    ensures WithString(Fresh(TString).(example := Some(Truncated(Str(v)))), v) ==
            Fresh(TString).(example := Some(Truncated(Str(v))), isStringLeaf := true, enumValues := {v})
  {
    assert {} + {v} == {v} && |{v}| == 1;
  }

  lemma FirstNull()
    ensures SummaryState([Null]) == Fresh(TNull).(nullable := true)
  {
    hide ItemType, StringsSeen, FirstExample;
    NothingSummed();
    NullKeepsTypes([]);
    assert [] + [Null] == [Null];
    assert Null in [Null];
  }

  lemma FirstValue(v: Json)
    requires v.IsScalar() && !v.Null?
    ensures SummaryState([v]) ==
            Fresh(ScalarType(v)).(example := Some(Truncated(v)), isStringLeaf := v.Str?, enumValues := if v.Str? then {v.s} else {})
  {
    hide ItemType, NonNullTypes, StringsSeen, ScalarType, Truncated;
    NothingSummed();
    StringJoins([], v);
    TypeJoins([], v);
    assert [] + [v] == [v] && [v][..0] == [];
    assert Null !in [v];
    assert v.Str? ==> |{v.s}| == 1;
  }

  lemma FirstObservation(v: Json)
    requires v.IsScalar()
    ensures Apply(None, Observe(v)) == Some(SummaryState([v]))
  {
    hide SummaryState, WithString, Truncated;
    if v.Null? {
      FirstNull();
    } else {
      FirstValue(v);
      if v.Str? {
        FirstString(v.s);
      }
    }
  }

  lemma {:induction false} FoldIsSummary(values: seq<Json>)
    requires values != [] && Scalars(values)
    ensures Fold(None, Observations(values)) == Some(SummaryState(values))
  {
    var n := |values| - 1;
    var ops := Observations(values);
    assert ops[..n] == Observations(values[..n]) && ops[n] == Observe(values[n]) by {
      ObservationsLength(values);
      ObservationsLength(values[..n]);
    }
    assert values[n] in values && values == values[..n] + [values[n]];
    if n == 0 {
      assert values == [values[0]] && Fold(None, ops[..0]) == None;
      FirstObservation(values[0]);
    } else {
      FoldIsSummary(values[..n]);
      ObserveOnSummary(values[..n], values[n]);
    }
  }

  lemma {:induction false} ObservationsLength(values: seq<Json>)
    ensures |Observations(values)| == |values|
  {
    if values != [] {
      ObservationsLength(values[..|values| - 1]);
    }
  }

  /** Any scalars emitted at a fresh path leave exactly their summary there. */
  lemma ScalarPathSummary(m: States, path: string, values: seq<Json>)
    requires path !in m && values != [] && Scalars(values)
    ensures var m' := Run(m, ItemEvents(values, path));
            var strings := StringsSeen(values);
            path in m' && Finalize(path, m'[path]) == SchemaNode(
              path, ItemType(values), true, NullSeen(values), None,
              if 1 <= |strings| <= ENUM_THRESHOLD then Some(Sorted(strings)) else None,
              FirstExample(values))
  {
    RunAt(m, ItemEvents(values, path), path);
    ScalarsAt(path, values);
    FoldIsSummary(values);
    hide Run, Sorted, ItemEvents, ItemType, StringsSeen, FirstExample, NullSeen;
    var strings := StringsSeen(values);
    assert |strings| == 0 <==> strings == {};
  }

  /** The type of the summary: `null` if only nulls were seen, the one other type seen, or `mixed`. */
  lemma SummaryTypeMeaning(values: seq<Json>, t: JsonType)
    requires Scalars(values) && t != TNull && t != TMixed
    ensures ItemType(values) == TNull <==> forall v | v in values :: v.Null?
    ensures ItemType(values) == t <==>
            (exists v :: v in values && !v.Null?) && (forall v | v in values && !v.Null? :: ScalarType(v) == t)
  {
    var ts := NonNullTypes(values);
    forall v | v in values && !v.Null? ensures ScalarType(v) in ts {
      TypesSeen(values, ScalarType(v));
    }
    forall u | u in ts ensures exists v :: v in values && !v.Null? && ScalarType(v) == u {
      TypesSeen(values, u);
    }
    hide NonNullTypes, ScalarType;
    if ts != {} && forall v | v in values && !v.Null? :: ScalarType(v) == t {
      assert ts == {t};
    }
    if |ts| == 1 {
      assert ts == {TheOnly(ts)};
    }
  }
}
