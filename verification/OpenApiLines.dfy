/** The lines of the second OpenAPI report, read off the two documents. */
module OpenApiLines {
  import opened Sorting
  import opened OpenApiDiff

  // ---------------------------------------------------------------- the lines

  predicate HasField(s: Schema, f: string) {
    s.ObjectSchema? && f in s.properties
  }

  predicate Requires(s: Schema, f: string) {
    s.ObjectSchema? && f in s.required
  }

  /** Both sides give a type for the field, not the same, and the line names both. */
  ghost predicate TypeLine(o: Schema, n: Schema, x: string, f: string, line: string) {
    && HasField(o, f) && HasField(n, f)
    && o.properties[f] != "" && n.properties[f] != "" && o.properties[f] != n.properties[f]
    && line == x + "." + f + " type " + o.properties[f] + " -> " + n.properties[f]
  }

  /** A breaking line about field `f` of the shared schema `x`. */
  ghost predicate FieldBreaks(o: Schema, n: Schema, x: string, f: string, line: string) {
    || (HasField(o, f) && !HasField(n, f) && line == x + "." + f + " removed")
    || (!HasField(o, f) && HasField(n, f) && Requires(n, f) && line == x + "." + f + " added as required")
    || TypeLine(o, n, x, f, line)
    || (!Requires(o, f) && Requires(n, f) && line == x + "." + f + " became required")
  }

  /** A line about it that breaks nothing. */
  ghost predicate FieldEases(o: Schema, n: Schema, x: string, f: string, line: string) {
    || (!HasField(o, f) && HasField(n, f) && !Requires(n, f) && line == x + "." + f + " added as optional")
    || (Requires(o, f) && !Requires(n, f) && line == x + "." + f + " no longer required")
  }

  ghost predicate BreakingLine(o: Document, n: Document, line: string) {
    || (exists x :: x in o && x !in n && line == "schema removed: " + x)
    || (exists x, f :: x in o && x in n && FieldBreaks(o[x], n[x], x, f, line))
  }

  ghost predicate HarmlessLine(o: Document, n: Document, line: string) {
    || (exists x :: x in n && x !in o && line == "schema added: " + x)
    || (exists x, f :: x in o && x in n && FieldEases(o[x], n[x], x, f, line))
  }

  // ---------------------------------------------------------------- the lists hold these lines

  lemma SaidIs(name: string, fields: seq<string>, what: string, line: string)
    ensures line in Said(name, fields, what) <==> exists f :: f in fields && line == name + "." + f + what
  {
    if f :| f in fields && line == name + "." + f + what {
      var i :| 0 <= i < |fields| && fields[i] == f;
      assert Said(name, fields, what)[i] == line;
    }
  }

  lemma TypesSaidIs(name: string, fields: seq<string>, o: map<string, string>, n: map<string, string>, line: string)
    ensures line in TypesSaid(name, fields, o, n) <==>
            exists f :: f in fields && line == name + "." + f + " type " + TypeOf(o, f) + " -> " + TypeOf(n, f)
  {
    hide TypeOf;
    if f :| f in fields && line == name + "." + f + " type " + TypeOf(o, f) + " -> " + TypeOf(n, f) {
      var i :| 0 <= i < |fields| && fields[i] == f;
      assert TypesSaid(name, fields, o, n)[i] == line;
    }
  }

  lemma LabelledIs(tag: string, names: seq<string>, line: string)
    ensures line in Labelled(tag, names) <==> exists x :: x in names && line == tag + x
  {
    if x :| x in names && line == tag + x {
      var i :| 0 <= i < |names| && names[i] == x;
      assert Labelled(tag, names)[i] == line;
    }
  }

  lemma SetsMean(o: Schema, n: Schema, f: string)
    ensures f in Removed(o, n) <==> HasField(o, f) && !HasField(n, f)
    ensures f in AddedRequired(o, n) <==> !HasField(o, f) && HasField(n, f) && Requires(n, f)
    ensures f in AddedOptional(o, n) <==> !HasField(o, f) && HasField(n, f) && !Requires(n, f)
    ensures f in Clashes(Props(o), Props(n)) <==>
            HasField(o, f) && HasField(n, f) && o.properties[f] != "" && n.properties[f] != "" && o.properties[f] != n.properties[f]
    ensures f in Required(n) - Required(o) <==> !Requires(o, f) && Requires(n, f)
    ensures f in Required(o) - Required(n) <==> Requires(o, f) && !Requires(n, f)
    ensures HasField(o, f) ==> TypeOf(Props(o), f) == o.properties[f]
    ensures HasField(n, f) ==> TypeOf(Props(n), f) == n.properties[f]
  {
  }

  lemma RemovedLines(x: string, o: Schema, n: Schema, line: string)
    ensures line in Said(x, Sorted(Removed(o, n)), " removed") <==>
            exists f :: HasField(o, f) && !HasField(n, f) && line == x + "." + f + " removed"
  {
    hide Said, Sorted, Removed, AddedRequired, AddedOptional, Required;
    SaidIs(x, Sorted(Removed(o, n)), " removed", line);
    forall f ensures f in Sorted(Removed(o, n)) <==> HasField(o, f) && !HasField(n, f) {
      SetsMean(o, n, f);
    }
    hide HasField, Requires;
  }

  lemma AddedLines(x: string, o: Schema, n: Schema, line: string)
    ensures line in Said(x, Sorted(AddedRequired(o, n)), " added as required") <==>
            exists f :: !HasField(o, f) && HasField(n, f) && Requires(n, f) && line == x + "." + f + " added as required"
  {
    hide Said, Sorted, Removed, AddedRequired, AddedOptional, Required;
    SaidIs(x, Sorted(AddedRequired(o, n)), " added as required", line);
    forall f ensures f in Sorted(AddedRequired(o, n)) <==> !HasField(o, f) && HasField(n, f) && Requires(n, f) {
      SetsMean(o, n, f);
    }
    hide HasField, Requires;
  }

  lemma RequiredLines(x: string, o: Schema, n: Schema, line: string)
    ensures line in Said(x, Sorted(Required(n) - Required(o)), " became required") <==>
            exists f :: !Requires(o, f) && Requires(n, f) && line == x + "." + f + " became required"
  {
    hide Said, Sorted, Removed, AddedRequired, AddedOptional, Required;
    SaidIs(x, Sorted(Required(n) - Required(o)), " became required", line);
    forall f ensures f in Sorted(Required(n) - Required(o)) <==> !Requires(o, f) && Requires(n, f) {
      SetsMean(o, n, f);
    }
    hide HasField, Requires;
  }

  lemma OptionalLines(x: string, o: Schema, n: Schema, line: string)
    ensures line in Said(x, Sorted(AddedOptional(o, n)), " added as optional") <==>
            exists f :: !HasField(o, f) && HasField(n, f) && !Requires(n, f) && line == x + "." + f + " added as optional"
  {
    hide Said, Sorted, Removed, AddedRequired, AddedOptional, Required;
    SaidIs(x, Sorted(AddedOptional(o, n)), " added as optional", line);
    forall f ensures f in Sorted(AddedOptional(o, n)) <==> !HasField(o, f) && HasField(n, f) && !Requires(n, f) {
      SetsMean(o, n, f);
    }
    hide HasField, Requires;
  }

  lemma EasedLines(x: string, o: Schema, n: Schema, line: string)
    ensures line in Said(x, Sorted(Required(o) - Required(n)), " no longer required") <==>
            exists f :: Requires(o, f) && !Requires(n, f) && line == x + "." + f + " no longer required"
  {
    hide Said, Sorted, Removed, AddedRequired, AddedOptional, Required;
    SaidIs(x, Sorted(Required(o) - Required(n)), " no longer required", line);
    forall f ensures f in Sorted(Required(o) - Required(n)) <==> Requires(o, f) && !Requires(n, f) {
      SetsMean(o, n, f);
    }
    hide HasField, Requires;
  }

  lemma TypeLines(x: string, o: Schema, n: Schema, line: string)
    ensures line in TypesSaid(x, Sorted(Clashes(Props(o), Props(n))), Props(o), Props(n)) <==>
            exists f :: TypeLine(o, n, x, f, line)
  {
    hide TypesSaid, Sorted, Clashes, Props, TypeOf;
    TypesSaidIs(x, Sorted(Clashes(Props(o), Props(n))), Props(o), Props(n), line);
    forall f
      ensures f in Sorted(Clashes(Props(o), Props(n)))
              && line == x + "." + f + " type " + TypeOf(Props(o), f) + " -> " + TypeOf(Props(n), f)
              <==> TypeLine(o, n, x, f, line)
    {
      SetsMean(o, n, f);
    }
  }

  lemma BreaksOf(x: string, o: Schema, n: Schema, line: string)
    ensures line in SchemaBreaks(x, o, n) <==> exists f :: FieldBreaks(o, n, x, f, line)
  {
    hide Said, TypesSaid, Sorted, Removed, AddedRequired, Clashes, Required, Props, HasField, Requires, TypeLine;
    RemovedLines(x, o, n, line);
    AddedLines(x, o, n, line);
    TypeLines(x, o, n, line);
    RequiredLines(x, o, n, line);
    forall f
      ensures HasField(o, f) && !HasField(n, f) && line == x + "." + f + " removed" ==> FieldBreaks(o, n, x, f, line)
      ensures !HasField(o, f) && HasField(n, f) && Requires(n, f) && line == x + "." + f + " added as required" ==>
              FieldBreaks(o, n, x, f, line)
      ensures TypeLine(o, n, x, f, line) ==> FieldBreaks(o, n, x, f, line)
      ensures !Requires(o, f) && Requires(n, f) && line == x + "." + f + " became required" ==> FieldBreaks(o, n, x, f, line)
    {
    }
  }

  lemma ExtrasOf(x: string, o: Schema, n: Schema, line: string)
    ensures line in SchemaExtras(x, o, n) <==> exists f :: FieldEases(o, n, x, f, line)
  {
    hide Said, Sorted, AddedOptional, Required, HasField, Requires;
    OptionalLines(x, o, n, line);
    EasedLines(x, o, n, line);
    forall f
      ensures !HasField(o, f) && HasField(n, f) && !Requires(n, f) && line == x + "." + f + " added as optional" ==>
              FieldEases(o, n, x, f, line)
      ensures Requires(o, f) && !Requires(n, f) && line == x + "." + f + " no longer required" ==> FieldEases(o, n, x, f, line)
    {
    }
  }

  lemma {:induction false} ChangesHold(o: Document, n: Document, names: seq<string>, k: nat, line: string)
    requires k <= |names| && forall x | x in names :: x in o && x in n
    ensures line in ChangesOf(o, n, names, k).breaking <==>
            (exists x :: x in o && x !in n && line == "schema removed: " + x)
            || exists i, f :: 0 <= i < k && FieldBreaks(o[names[i]], n[names[i]], names[i], f, line)
    ensures line in ChangesOf(o, n, names, k).harmless <==>
            (exists x :: x in n && x !in o && line == "schema added: " + x)
            || exists i, f :: 0 <= i < k && FieldEases(o[names[i]], n[names[i]], names[i], f, line)
  {
    hide SchemaBreaks, SchemaExtras, FieldBreaks, FieldEases, Labelled, Sorted;
    if k == 0 {
      LabelledIs("schema removed: ", Sorted(o.Keys - n.Keys), line);
      LabelledIs("schema added: ", Sorted(n.Keys - o.Keys), line);
    } else {
      ChangesHold(o, n, names, k - 1, line);
      var x := names[k - 1];
      BreaksOf(x, o[x], n[x], line);
      ExtrasOf(x, o[x], n[x], line);
    }
  }

  /** The two lists hold exactly these lines. */
  lemma ReportMeans(o: Document, n: Document, line: string)
    ensures line in AllChanges(o, n).breaking <==> BreakingLine(o, n, line)
    ensures line in AllChanges(o, n).harmless <==> HarmlessLine(o, n, line)
  {
    hide ChangesOf, FieldBreaks, FieldEases, Common;
    var names := Common(o, n);
    ChangesHold(o, n, names, |names|, line);
    forall x | x in o && x in n ensures exists i :: 0 <= i < |names| && names[i] == x {
      assert x in names;
    }
    forall i | 0 <= i < |names| ensures names[i] in o && names[i] in n {
      assert names[i] in names;
    }
  }
}
