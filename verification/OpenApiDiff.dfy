/** Two implementations of the breaking-change decision between OpenAPI documents, and what they decide. */
module OpenApiDiff {
  import opened Options
  import opened Sorting

  /** A component schema; a property is given by its `type` string, empty when it has none. */
  datatype Schema = ObjectSchema(properties: map<string, string>, required: set<string>) | NotAnObject

  type Document = map<string, Schema>

  function Props(s: Schema): map<string, string> {
    if s.ObjectSchema? then s.properties else map[]
  }

  function Required(s: Schema): set<string> {
    if s.ObjectSchema? then s.required else {}
  }

  // ---------------------------------------------------------------- strings

  /** `sub in s`. */
  predicate Contains(sub: string, s: string) {
    sub <= s || (s != "" && Contains(sub, s[1..]))
  }

  function Labelled(tag: string, names: seq<string>): (r: seq<string>)
    ensures |r| == |names| && forall i | 0 <= i < |names| :: r[i] == tag + names[i]
  {
    seq(|names|, i requires 0 <= i < |names| => tag + names[i])
  }

  /** A tag that cannot overlap the start of `sub` hides nothing of the name behind it. */
  lemma {:induction false} ContainsBehind(sub: string, tag: string, name: string)
    requires sub != "" && forall i | 0 <= i < |tag| :: !(sub <= tag[i..] + name)
    ensures Contains(sub, tag + name) <==> Contains(sub, name)
  {
    if tag == "" {
      assert tag + name == name;
    } else {
      assert (tag + name)[1..] == tag[1..] + name;
      assert tag[0..] == tag;
      forall i | 0 <= i < |tag[1..]| ensures !(sub <= tag[1..][i..] + name) {
        assert tag[1..][i..] == tag[i + 1..];
      }
      ContainsBehind(sub, tag[1..], name);
    }
  }

  lemma {:induction false} ContainsInside(sub: string, before: string, after: string)
    ensures Contains(sub, before + sub + after)
  {
    if before == "" {
      assert before + sub + after == sub + after;
    } else {
      assert (before + sub + after)[1..] == before[1..] + sub + after;
      ContainsInside(sub, before[1..], after);
    }
  }

  const NO_LONGER := "no longer"
  const ADDED := "added required field: "
  const BECAME := "field became required: "
  const DROPPED := "field no longer required: "

  predicate NoN(tag: string) {
    forall i | 0 <= i < |tag| :: tag[i] != 'n'
  }

  lemma TagsHaveNoN()
    ensures NoN(ADDED) && NoN(BECAME)
  {
  }

  lemma NoFit(tag: string, name: string, i: nat)
    requires NoN(tag) && i < |tag|
    ensures !(NO_LONGER <= tag[i..] + name)
  {
    var s := tag[i..] + name;
    assert s[0] == tag[i] && NO_LONGER[0] == 'n';
  }

  /** The two labels of newly required fields mention `required`, and `no longer` only if the field does. */
  lemma RequiredLabels(name: string)
    ensures Contains("required", ADDED + name) && Contains("required", BECAME + name)
    ensures Contains(NO_LONGER, ADDED + name) == Contains(NO_LONGER, name)
    ensures Contains(NO_LONGER, BECAME + name) == Contains(NO_LONGER, name)
  {
    hide Contains;
    TagsHaveNoN();
    assert ADDED + name == "added " + "required" + (" field: " + name);
    ContainsInside("required", "added ", " field: " + name);
    assert BECAME + name == "field became " + "required" + (": " + name);
    ContainsInside("required", "field became ", ": " + name);
    forall i | 0 <= i < |ADDED| ensures !(NO_LONGER <= ADDED[i..] + name) {
      NoFit(ADDED, name, i);
    }
    ContainsBehind(NO_LONGER, ADDED, name);
    forall i | 0 <= i < |BECAME| ensures !(NO_LONGER <= BECAME[i..] + name) {
      NoFit(BECAME, name, i);
    }
    ContainsBehind(NO_LONGER, BECAME, name);
  }

  lemma DroppedLabel(name: string)
    ensures Contains(NO_LONGER, DROPPED + name)
  {
    hide Contains;
    assert DROPPED + name == "field " + NO_LONGER + (" required: " + name);
    ContainsInside(NO_LONGER, "field ", " required: " + name);
  }

  // ---------------------------------------------------------------- what both compare

  predicate TypeClash(o: string, n: string) {
    o != "" && n != "" && o != n
  }

  function Clashes(o: map<string, string>, n: map<string, string>): set<string> {
    set f | f in o && f in n && TypeClash(o[f], n[f])
  }

  function AddedRequired(o: Schema, n: Schema): set<string> {
    set f | f in Props(n) && f !in Props(o) && f in Required(n)
  }

  function AddedOptional(o: Schema, n: Schema): set<string> {
    set f | f in Props(n) && f !in Props(o) && f !in Required(n)
  }

  function Removed(o: Schema, n: Schema): set<string> {
    Props(o).Keys - Props(n).Keys
  }

  // ---------------------------------------------------------------- the first implementation

  /** The lists of the report; `typed` holds the fields whose type changed. */
  datatype Report = Report(removed: seq<string>, typed: seq<string>, required: seq<string>, added: seq<string>)

  /** `diff_schemas` of two schema values; `.get` on anything but an object raises. */
  function DiffSchemas(o: Schema, n: Schema): Option<Report> {
    if o == NotAnObject || n == NotAnObject then None else
      Some(Report(
        Sorted(Removed(o, n)),
        Sorted(Clashes(Props(o), Props(n))),
        Labelled(ADDED, Sorted(AddedRequired(o, n)))
        + Labelled(BECAME, Sorted(Required(n) - Required(o)))
        + Labelled(DROPPED, Sorted(Required(o) - Required(n))),
        Sorted(AddedOptional(o, n))))
  }

  function Extend(a: Report, b: Report): Report {
    Report(a.removed + b.removed, a.typed + b.typed, a.required + b.required, a.added + b.added)
  }

  function DiffAll(o: Document, n: Document, names: seq<string>, start: Report): Option<Report>
    requires forall x | x in names :: x in o && x in n
  {
    if names == [] then Some(start) else
      var k := |names| - 1;
      match DiffAll(o, n, names[..k], start)
      case None => None
      case Some(front) =>
        assert names[k] in names;
        match DiffSchemas(o[names[k]], n[names[k]])
        case None => None
        case Some(r) => Some(Extend(front, r))
  }

  function Start(o: Document, n: Document): Report {
    Report(Labelled("schema:", Sorted(o.Keys - n.Keys)), [], [], Labelled("schema:", Sorted(n.Keys - o.Keys)))
  }

  predicate Alarming(item: string) {
    Contains("required", item) && !Contains(NO_LONGER, item)
  }

  /** `classify_diff`. */
  predicate Breaking(r: Report) {
    r.removed != [] || r.typed != [] || exists item :: item in r.required && Alarming(item)
  }

  function Common(o: Document, n: Document): (names: seq<string>)
    ensures forall x :: x in names <==> x in o && x in n
  {
    Sorted(o.Keys * n.Keys)
  }

  /** `diff_openapi_documents` of the first script: its breaking flag, or the exception. */
  function FirstVerdict(o: Document, n: Document): Option<bool> {
    match DiffAll(o, n, Common(o, n), Start(o, n))
    case None => None
    case Some(r) => Some(Breaking(r))
  }

  // ---------------------------------------------------------------- the second implementation

  /** The two lists of the report. */
  datatype Changes = Changes(breaking: seq<string>, harmless: seq<string>)

  /** One line for each field, in the order given. */
  function Said(name: string, fields: seq<string>, what: string): (r: seq<string>)
    ensures |r| == |fields|
  {
    seq(|fields|, i requires 0 <= i < |fields| => name + "." + fields[i] + what)
  }

  /** `_field_type` of a property. */
  function TypeOf(props: map<string, string>, f: string): string {
    if f in props then props[f] else ""
  }

  function TypesSaid(name: string, fields: seq<string>, o: map<string, string>, n: map<string, string>): (r: seq<string>)
    ensures |r| == |fields|
  {
    seq(|fields|, i requires 0 <= i < |fields| =>
      name + "." + fields[i] + " type " + TypeOf(o, fields[i]) + " -> " + TypeOf(n, fields[i]))
  }

  function SchemaBreaks(name: string, o: Schema, n: Schema): seq<string> {
    Said(name, Sorted(Removed(o, n)), " removed")
    + Said(name, Sorted(AddedRequired(o, n)), " added as required")
    + TypesSaid(name, Sorted(Clashes(Props(o), Props(n))), Props(o), Props(n))
    + Said(name, Sorted(Required(n) - Required(o)), " became required")
  }

  function SchemaExtras(name: string, o: Schema, n: Schema): seq<string> {
    Said(name, Sorted(AddedOptional(o, n)), " added as optional")
    + Said(name, Sorted(Required(o) - Required(n)), " no longer required")
  }

  /** The changes of the first `k` of the shared schemas. */
  function ChangesOf(o: Document, n: Document, names: seq<string>, k: nat): Changes
    requires k <= |names| && forall x | x in names :: x in o && x in n
  {
    if k == 0 then
      Changes(Labelled("schema removed: ", Sorted(o.Keys - n.Keys)), Labelled("schema added: ", Sorted(n.Keys - o.Keys)))
    else
      var name := names[k - 1];
      var before := ChangesOf(o, n, names, k - 1);
      Changes(before.breaking + SchemaBreaks(name, o[name], n[name]),
              before.harmless + SchemaExtras(name, o[name], n[name]))
  }

  /** `diff_openapi_documents` of the second script. */
  function AllChanges(o: Document, n: Document): Changes {
    ChangesOf(o, n, Common(o, n), |Common(o, n)|)
  }

  function SecondVerdict(o: Document, n: Document): bool {
    AllChanges(o, n).breaking != []
  }

  // ---------------------------------------------------------------- as the scripts' loops

  method LabelAll(tag: string, names: seq<string>, sofar: seq<string>) returns (r: seq<string>)
    ensures r == sofar + Labelled(tag, names)
  {
    r := sofar;
    for i := 0 to |names|
      invariant r == sofar + Labelled(tag, names[..i])
    {
      r := r + [tag + names[i]];
      assert names[..i + 1] == names[..i] + [names[i]];
    }
    assert names[..|names|] == names;
  }

  /** The first script: aggregated lists, extended schema by schema. */
  method DiffDocumentsFirst(o: Document, n: Document) returns (verdict: Option<bool>)
    ensures verdict == FirstVerdict(o, n)
  {
    hide DiffSchemas, Breaking, Start, Common, Extend;
    var names := Common(o, n);
    var aggregate := Start(o, n);
    for i := 0 to |names|
      invariant DiffAll(o, n, names[..i], Start(o, n)) == Some(aggregate)
    {
      assert names[i] in names;
      var report := DiffSchemas(o[names[i]], n[names[i]]);
      assert names[..i + 1][..i] == names[..i];
      assert DiffAll(o, n, names[..i + 1], Start(o, n))
             == if report == None then None else Some(Extend(aggregate, report.value));
      if report == None {
        StaysRaised(o, n, names, i + 1);
        return None;
      }
      aggregate := Extend(aggregate, report.value);
    }
    assert names[..|names|] == names;
    verdict := Some(Breaking(aggregate));
  }

  lemma {:induction false} StaysRaised(o: Document, n: Document, names: seq<string>, i: nat)
    requires i <= |names| && (forall x | x in names :: x in o && x in n)
    requires DiffAll(o, n, names[..i], Start(o, n)) == None
    ensures DiffAll(o, n, names, Start(o, n)) == None
  {
    hide DiffSchemas, Start, Extend;
    if i == |names| {
      assert names[..i] == names;
    } else {
      var k := |names| - 1;
      assert names[..k][..i] == names[..i];
      StaysRaised(o, n, names[..k], i);
    }
  }

  /** The listed names that are in `keep`. */
  function Kept(names: seq<string>, keep: set<string>): seq<string> {
    if names == [] then [] else
      var k := |names| - 1;
      Kept(names[..k], keep) + if names[k] in keep then [names[k]] else []
  }

  lemma {:induction false} KeptFirst(names: seq<string>, keep: set<string>)
    requires names != []
    ensures Kept(names, keep) == (if names[0] in keep then [names[0]] else []) + Kept(names[1..], keep)
  {
    var k := |names| - 1;
    if k > 0 {
      KeptFirst(names[..k], keep);
      assert names[..k][1..] == names[1..][..k - 1];
    }
  }

  lemma {:induction false} KeptAscends(names: seq<string>, keep: set<string>)
    requires StrictlyAscending(names)
    ensures StrictlyAscending(Kept(names, keep))
    ensures forall f :: f in Kept(names, keep) <==> f in names && f in keep
  {
    hide Le;
    if names != [] {
      KeptFirst(names, keep);
      KeptAscends(names[1..], keep);
      assert names == [names[0]] + names[1..];
      hide Kept;
      if names[0] in keep {
        assert ([names[0]] + Kept(names[1..], keep))[1..] == Kept(names[1..], keep);
      } else {
        assert [] + Kept(names[1..], keep) == Kept(names[1..], keep);
      }
    }
  }

  /** Going through a sorted set and keeping some of it is going through what is kept, sorted. */
  lemma KeptSorted(s: set<string>, keep: set<string>)
    ensures Kept(Sorted(s), keep) == Sorted(s * keep)
  {
    SortedAscending(s);
    KeptAscends(Sorted(s), keep);
    SortedUnique(s * keep, Kept(Sorted(s), keep));
    hide Kept, StrictlyAscending, Sorted;
  }

  lemma KeptStep(names: seq<string>, i: nat, keep: set<string>)
    requires i < |names|
    ensures Kept(names[..i + 1], keep) == if names[i] in keep then Kept(names[..i], keep) + [names[i]] else Kept(names[..i], keep)
  {
    assert names[..i + 1][..i] == names[..i];
  }

  lemma SaidMore(name: string, fields: seq<string>, f: string, what: string)
    ensures Said(name, fields + [f], what) == Said(name, fields, what) + [name + "." + f + what]
    ensures fields == [] ==> Said(name, fields, what) == []
  {
  }

  lemma TypesSaidMore(name: string, fields: seq<string>, f: string, o: map<string, string>, n: map<string, string>)
    ensures TypesSaid(name, fields + [f], o, n)
            == TypesSaid(name, fields, o, n) + [name + "." + f + " type " + TypeOf(o, f) + " -> " + TypeOf(n, f)]
    ensures fields == [] ==> TypesSaid(name, fields, o, n) == []
  {
  }

  method SayAll(name: string, fields: seq<string>, what: string, sofar: seq<string>) returns (r: seq<string>)
    ensures r == sofar + Said(name, fields, what)
  {
    r := sofar;
    for i := 0 to |fields|
      invariant r == sofar + Said(name, fields[..i], what)
    {
      SaidMore(name, fields[..i], fields[i], what);
      assert fields[..i + 1] == fields[..i] + [fields[i]];
      hide Said;
      r := r + [name + "." + fields[i] + what];
    }
    assert fields[..|fields|] == fields;
  }

  /** The added fields, to one list or the other. */
  method SplitAdded(name: string, added: seq<string>, required: set<string>, optional: set<string>, sofar: Changes) returns (r: Changes)
    requires forall f | f in added :: f in required <==> f !in optional
    ensures r.breaking == sofar.breaking + Said(name, Kept(added, required), " added as required")
    ensures r.harmless == sofar.harmless + Said(name, Kept(added, optional), " added as optional")
  {
    hide Said, Kept;
    var breaking, harmless := sofar.breaking, sofar.harmless;
    NoneKept(required);
    NoneKept(optional);
    SaidMore(name, [], "", " added as required");
    SaidMore(name, [], "", " added as optional");
    for i := 0 to |added|
      invariant breaking == sofar.breaking + Said(name, Kept(added[..i], required), " added as required")
      invariant harmless == sofar.harmless + Said(name, Kept(added[..i], optional), " added as optional")
    {
      KeptStep(added, i, required);
      KeptStep(added, i, optional);
      SaidMore(name, Kept(added[..i], required), added[i], " added as required");
      SaidMore(name, Kept(added[..i], optional), added[i], " added as optional");
      assert added[i] in added;
      if added[i] in required {
        breaking := breaking + [name + "." + added[i] + " added as required"];
      } else {
        harmless := harmless + [name + "." + added[i] + " added as optional"];
      }
    }
    assert added[..|added|] == added;
    r := Changes(breaking, harmless);
  }

  lemma NoneKept(keep: set<string>)
    ensures Kept([], keep) == []
  {
  }

  /** The shared fields whose types clash. */
  method SayClashes(name: string, shared: seq<string>, o: map<string, string>, n: map<string, string>, sofar: seq<string>)
    returns (r: seq<string>)
    requires forall f | f in shared :: f in o && f in n
    ensures r == sofar + TypesSaid(name, Kept(shared, Clashes(o, n)), o, n)
  {
    hide TypesSaid, Kept;
    r := sofar;
    var clashing := Clashes(o, n);
    NoneKept(clashing);
    TypesSaidMore(name, [], "", o, n);
    for i := 0 to |shared|
      invariant r == sofar + TypesSaid(name, Kept(shared[..i], clashing), o, n)
    {
      KeptStep(shared, i, clashing);
      TypesSaidMore(name, Kept(shared[..i], clashing), shared[i], o, n);
      assert shared[i] in shared;
      var before, after := TypeOf(o, shared[i]), TypeOf(n, shared[i]);
      if before != "" && after != "" && before != after {
        r := r + [name + "." + shared[i] + " type " + before + " -> " + after];
      }
    }
    assert shared[..|shared|] == shared;
  }

  lemma AddedSplit(o: Schema, n: Schema)
    ensures var added := Props(n).Keys - Props(o).Keys;
            added * Required(n) == AddedRequired(o, n) && added * (added - Required(n)) == AddedOptional(o, n)
  {
    hide Props, Required;
  }

  lemma SharedSplit(o: Schema, n: Schema)
    ensures Props(o).Keys * Props(n).Keys * Clashes(Props(o), Props(n)) == Clashes(Props(o), Props(n))
  {
    hide Props;
  }

  lemma SplitIs(o: Schema, n: Schema)
    ensures var added, shared := Props(n).Keys - Props(o).Keys, Props(o).Keys * Props(n).Keys;
            && Kept(Sorted(added), Required(n)) == Sorted(AddedRequired(o, n))
            && Kept(Sorted(added), added - Required(n)) == Sorted(AddedOptional(o, n))
            && Kept(Sorted(shared), Clashes(Props(o), Props(n))) == Sorted(Clashes(Props(o), Props(n)))
  {
    hide Sorted, Kept, Props, Required, Clashes, AddedRequired, AddedOptional;
    var added, shared := Props(n).Keys - Props(o).Keys, Props(o).Keys * Props(n).Keys;
    KeptSorted(added, Required(n));
    KeptSorted(added, added - Required(n));
    KeptSorted(shared, Clashes(Props(o), Props(n)));
    AddedSplit(o, n);
    SharedSplit(o, n);
  }

  lemma Regroup(s: seq<string>, a: seq<string>, b: seq<string>, c: seq<string>, d: seq<string>)
    ensures s + a + b + c + d == s + (a + b + c + d)
  {
  }

  /** The body of the outer loop. */
  method CompareSchemas(name: string, o: Schema, n: Schema, sofar: Changes) returns (r: Changes)
    ensures r.breaking == sofar.breaking + SchemaBreaks(name, o, n)
    ensures r.harmless == sofar.harmless + SchemaExtras(name, o, n)
  {
    hide Sorted, Kept, Props, Required, Said, TypesSaid, Clashes, Removed, AddedRequired, AddedOptional;
    SplitIs(o, n);
    var removed := SayAll(name, Sorted(Props(o).Keys - Props(n).Keys), " removed", sofar.breaking);
    var added := Props(n).Keys - Props(o).Keys;
    r := SplitAdded(name, Sorted(added), Required(n), added - Required(n), Changes(removed, sofar.harmless));
    var breaking := SayClashes(name, Sorted(Props(o).Keys * Props(n).Keys), Props(o), Props(n), r.breaking);
    breaking := SayAll(name, Sorted(Required(n) - Required(o)), " became required", breaking);
    var harmless := SayAll(name, Sorted(Required(o) - Required(n)), " no longer required", r.harmless);
    r := Changes(breaking, harmless);
    RemovedIs(o, n);
    Regroup(sofar.breaking, Said(name, Sorted(Removed(o, n)), " removed"),
            Said(name, Sorted(AddedRequired(o, n)), " added as required"),
            TypesSaid(name, Sorted(Clashes(Props(o), Props(n))), Props(o), Props(n)),
            Said(name, Sorted(Required(n) - Required(o)), " became required"));
  }

  lemma RemovedIs(o: Schema, n: Schema)
    ensures Removed(o, n) == Props(o).Keys - Props(n).Keys
  {
  }

  /** The second script: two lists in nested loops, of which the first decides. */
  method DiffDocumentsSecond(o: Document, n: Document) returns (breaking: bool, changes: Changes)
    ensures changes == AllChanges(o, n) && breaking == SecondVerdict(o, n)
  {
    hide Sorted, Labelled, SchemaBreaks, SchemaExtras, Common;
    var removed := LabelAll("schema removed: ", Sorted(o.Keys - n.Keys), []);
    var added := LabelAll("schema added: ", Sorted(n.Keys - o.Keys), []);
    changes := Changes(removed, added);
    var names := Common(o, n);
    for i := 0 to |names|
      invariant changes == ChangesOf(o, n, names, i)
    {
      assert names[i] in names;
      changes := CompareSchemas(names[i], o[names[i]], n[names[i]], changes);
    }
    breaking := changes.breaking != [];
  }

  // ---------------------------------------------------------------- what the verdicts mean

  function NewlyRequired(o: Schema, n: Schema): set<string> {
    AddedRequired(o, n) + (Required(n) - Required(o))
  }

  /** A field is gone or changed its type. */
  predicate Hard(o: Schema, n: Schema) {
    Removed(o, n) != {} || Clashes(Props(o), Props(n)) != {}
  }

  predicate Visible(o: Schema, n: Schema) {
    exists f :: f in NewlyRequired(o, n) && !Contains(NO_LONGER, f)
  }

  ghost predicate DocumentBreaks(o: Document, n: Document) {
    || o.Keys - n.Keys != {}
    || exists name :: name in o && name in n && (Hard(o[name], n[name]) || NewlyRequired(o[name], n[name]) != {})
  }

  ghost predicate DocumentVisiblyBreaks(o: Document, n: Document) {
    || o.Keys - n.Keys != {}
    || exists name :: name in o && name in n && (Hard(o[name], n[name]) || Visible(o[name], n[name]))
  }

  lemma SortedEmpty(s: set<string>)
    ensures Sorted(s) == [] <==> s == {}
  {
    hide Sorted;
    if Sorted(s) == [] {
      assert forall k :: k !in s;
    }
    if s == {} {
      assert |Sorted(s)| == |s|;
    }
  }

  lemma SchemaBreaksEmpty(name: string, o: Schema, n: Schema)
    ensures SchemaBreaks(name, o, n) != [] <==> Hard(o, n) || NewlyRequired(o, n) != {}
  {
    hide Sorted, Removed, AddedRequired, Clashes;
    SortedEmpty(Removed(o, n));
    SortedEmpty(AddedRequired(o, n));
    SortedEmpty(Clashes(Props(o), Props(n)));
    SortedEmpty(Required(n) - Required(o));
  }

  ghost predicate BreaksAt(o: Document, n: Document, name: string) {
    name in o && name in n && (Hard(o[name], n[name]) || NewlyRequired(o[name], n[name]) != {})
  }

  ghost predicate EasesAt(o: Document, n: Document, name: string) {
    name in o && name in n && Eased(o[name], n[name])
  }

  lemma {:induction false} ChangesOfEmpty(o: Document, n: Document, names: seq<string>, k: nat)
    requires k <= |names| && forall x | x in names :: x in o && x in n
    ensures ChangesOf(o, n, names, k).breaking != [] <==>
            o.Keys - n.Keys != {} || exists i :: 0 <= i < k && BreaksAt(o, n, names[i])
    ensures ChangesOf(o, n, names, k).harmless != [] <==>
            n.Keys - o.Keys != {} || exists i :: 0 <= i < k && EasesAt(o, n, names[i])
  {
    hide SchemaBreaks, SchemaExtras, Hard, NewlyRequired, Eased, Sorted, Labelled;
    if k == 0 {
      SortedEmpty(o.Keys - n.Keys);
      SortedEmpty(n.Keys - o.Keys);
    } else {
      var name := names[k - 1];
      assert name in names;
      ChangesOfEmpty(o, n, names, k - 1);
      SchemaBreaksEmpty(name, o[name], n[name]);
      SchemaExtrasEmpty(name, o[name], n[name]);
    }
  }

  /** An optional field is new, or a field is no longer required. */
  predicate Eased(o: Schema, n: Schema) {
    AddedOptional(o, n) != {} || Required(o) - Required(n) != {}
  }

  lemma SchemaExtrasEmpty(name: string, o: Schema, n: Schema)
    ensures SchemaExtras(name, o, n) != [] <==> Eased(o, n)
  {
    hide Sorted, AddedOptional;
    SortedEmpty(AddedOptional(o, n));
    SortedEmpty(Required(o) - Required(n));
  }

  /** The second script flags exactly the documents that lose a schema, a field or a type, or require more. */
  lemma SecondMeans(o: Document, n: Document)
    ensures SecondVerdict(o, n) <==> DocumentBreaks(o, n)
  {
    hide Sorted, ChangesOf, Hard, NewlyRequired, Eased;
    var names := Common(o, n);
    ChangesOfEmpty(o, n, names, |names|);
    forall name | name in o && name in n ensures exists i :: 0 <= i < |names| && names[i] == name {
      assert name in names;
    }
  }

  /** The parts of two schemas that are compared agree. */
  ghost predicate SchemasAgree(o: Schema, n: Schema) {
    Props(o).Keys == Props(n).Keys && Required(o) == Required(n) && Clashes(Props(o), Props(n)) == {}
  }

  lemma NothingSaid(o: Schema, n: Schema)
    ensures !Hard(o, n) && NewlyRequired(o, n) == {} && !Eased(o, n) <==> SchemasAgree(o, n)
  {
    hide Clashes, Props, Required;
    EmptyDifference(Props(o).Keys, Props(n).Keys);
    EmptyDifference(Required(n), Required(o));
    EmptyDifference(Required(o), Required(n));
    if AddedRequired(o, n) == {} && AddedOptional(o, n) == {} {
      forall f | f in Props(n) ensures f in Props(o) {
        assert f !in AddedRequired(o, n) && f !in AddedOptional(o, n);
      }
    }
  }

  /** Both lists of the second script are empty exactly when everything it compares agrees: no change goes unreported. */
  lemma NothingUnreported(o: Document, n: Document)
    ensures AllChanges(o, n) == Changes([], []) <==>
            o.Keys == n.Keys && forall name | name in o && name in n :: SchemasAgree(o[name], n[name])
  {
    hide Sorted, ChangesOf, Hard, NewlyRequired, Eased, SchemasAgree;
    var names := Common(o, n);
    ChangesOfEmpty(o, n, names, |names|);
    EmptyDifference(o.Keys, n.Keys);
    EmptyDifference(n.Keys, o.Keys);
    forall name | name in o && name in n
      ensures exists i :: 0 <= i < |names| && names[i] == name
      ensures !Hard(o[name], n[name]) && NewlyRequired(o[name], n[name]) == {} && !Eased(o[name], n[name])
              <==> SchemasAgree(o[name], n[name])
    {
      assert name in names;
      NothingSaid(o[name], n[name]);
    }
    assert forall i | 0 <= i < |names| :: names[i] in names;
  }

  lemma LabelledItem(tag: string, names: seq<string>, item: string)
    ensures item in Labelled(tag, names) <==> exists f :: f in names && item == tag + f
  {
    if item in Labelled(tag, names) {
      var i :| 0 <= i < |names| && Labelled(tag, names)[i] == item;
      assert names[i] in names;
    }
    if f: string :| f in names && item == tag + f {
      var i :| 0 <= i < |names| && names[i] == f;
      assert Labelled(tag, names)[i] == item;
    }
  }

  lemma AlarmingItem(tag: string, fields: set<string>, item: string)
    requires tag == ADDED || tag == BECAME
    requires item in Labelled(tag, Sorted(fields)) && Alarming(item)
    ensures exists f :: f in fields && !Contains(NO_LONGER, f)
  {
    hide Contains, Sorted;
    LabelledItem(tag, Sorted(fields), item);
    var f :| f in Sorted(fields) && item == tag + f;
    RequiredLabels(f);
    assert f in fields;
  }

  lemma AlarmingField(tag: string, fields: set<string>, f: string)
    requires tag == ADDED || tag == BECAME
    requires f in fields && !Contains(NO_LONGER, f)
    ensures tag + f in Labelled(tag, Sorted(fields)) && Alarming(tag + f)
  {
    hide Contains, Sorted;
    RequiredLabels(f);
    assert f in Sorted(fields);
    LabelledItem(tag, Sorted(fields), tag + f);
  }

  lemma QuietItem(fields: set<string>, item: string)
    requires item in Labelled(DROPPED, Sorted(fields))
    ensures !Alarming(item)
  {
    hide Contains, Sorted;
    LabelledItem(DROPPED, Sorted(fields), item);
    var f :| f in Sorted(fields) && item == DROPPED + f;
    DroppedLabel(f);
  }

  /** The text test on the required list finds exactly the newly required fields that do not say `no longer`. */
  lemma ReportVisible(o: Schema, n: Schema)
    requires DiffSchemas(o, n).Some?
    ensures (exists item :: item in DiffSchemas(o, n).value.required && Alarming(item)) <==> Visible(o, n)
  {
    hide Contains, Sorted, AddedRequired, Labelled, Alarming, Clashes, Removed, AddedOptional;
    var a, b, c := AddedRequired(o, n), Required(n) - Required(o), Required(o) - Required(n);
    var required := DiffSchemas(o, n).value.required;
    if item :| item in required && Alarming(item) {
      if item in Labelled(ADDED, Sorted(a)) {
        AlarmingItem(ADDED, a, item);
      } else if item in Labelled(BECAME, Sorted(b)) {
        AlarmingItem(BECAME, b, item);
      } else {
        QuietItem(c, item);
      }
    }
    if f :| f in NewlyRequired(o, n) && !Contains(NO_LONGER, f) {
      if f in a {
        AlarmingField(ADDED, a, f);
        assert ADDED + f in required;
      } else {
        AlarmingField(BECAME, b, f);
        assert BECAME + f in required;
      }
    }
  }

  lemma ReportBreaking(o: Schema, n: Schema)
    requires DiffSchemas(o, n).Some?
    ensures Breaking(DiffSchemas(o, n).value) <==> Hard(o, n) || Visible(o, n)
  {
    hide Sorted, Visible, Labelled, Alarming, Removed, Clashes, AddedRequired, AddedOptional;
    ReportVisible(o, n);
    SortedEmpty(Removed(o, n));
    SortedEmpty(Clashes(Props(o), Props(n)));
  }

  lemma ExtendBreaking(a: Report, b: Report)
    ensures Breaking(Extend(a, b)) <==> Breaking(a) || Breaking(b)
  {
    hide Alarming;
    var r := Extend(a, b);
    if item :| item in a.required && Alarming(item) {
      assert item in r.required;
    }
    if item :| item in b.required && Alarming(item) {
      assert item in r.required;
    }
  }

  ghost predicate SharedObjects(o: Document, n: Document, names: seq<string>)
    requires forall x | x in names :: x in o && x in n
  {
    forall x | x in names :: o[x].ObjectSchema? && n[x].ObjectSchema?
  }

  lemma {:induction false} DiffAllMeans(o: Document, n: Document, names: seq<string>, start: Report)
    requires forall x | x in names :: x in o && x in n
    ensures DiffAll(o, n, names, start).Some? <==> SharedObjects(o, n, names)
    ensures DiffAll(o, n, names, start).Some? ==>
              (Breaking(DiffAll(o, n, names, start).value) <==>
               Breaking(start) || exists name :: name in names && (Hard(o[name], n[name]) || Visible(o[name], n[name])))
  {
    hide DiffSchemas, Breaking, Extend, Hard, Visible;
    if names != [] {
      var k := |names| - 1;
      assert names == names[..k] + [names[k]];
      DiffAllMeans(o, n, names[..k], start);
      RaisesWhen(o[names[k]], n[names[k]]);
      if DiffAll(o, n, names, start).Some? {
        ReportBreaking(o[names[k]], n[names[k]]);
        ExtendBreaking(DiffAll(o, n, names[..k], start).value, DiffSchemas(o[names[k]], n[names[k]]).value);
      }
    }
  }

  lemma RaisesWhen(o: Schema, n: Schema)
    ensures DiffSchemas(o, n).Some? <==> o.ObjectSchema? && n.ObjectSchema?
  {
  }

  lemma StartBreaking(o: Document, n: Document)
    ensures Breaking(Start(o, n)) <==> o.Keys - n.Keys != {}
  {
    hide Sorted, Alarming;
    SortedEmpty(o.Keys - n.Keys);
  }

  /** The first script raises on a shared schema that is not an object, and otherwise decides by what is visible. */
  lemma FirstMeans(o: Document, n: Document)
    ensures FirstVerdict(o, n).Some? <==> forall name | name in o && name in n :: o[name].ObjectSchema? && n[name].ObjectSchema?
    ensures FirstVerdict(o, n).Some? ==> (FirstVerdict(o, n).value <==> DocumentVisiblyBreaks(o, n))
  {
    hide Sorted, DiffAll, Start, Breaking, Hard, Visible;
    DiffAllMeans(o, n, Common(o, n), Start(o, n));
    StartBreaking(o, n);
  }

  // ---------------------------------------------------------------- agreement

  /** Everything that breaks is a newly required field whose name says `no longer`. */
  ghost predicate Masked(o: Document, n: Document) {
    && o.Keys - n.Keys == {}
    && (forall name | name in o && name in n :: !Hard(o[name], n[name]))
    && (exists name :: name in o && name in n && NewlyRequired(o[name], n[name]) != {})
    && forall name, f | name in o && name in n && f in NewlyRequired(o[name], n[name]) :: Contains(NO_LONGER, f)
  }

  /** Where the first script gives a verdict, the two agree exactly when the change is not masked in that way. */
  lemma VerdictsAgreeIff(o: Document, n: Document)
    requires FirstVerdict(o, n).Some?
    ensures FirstVerdict(o, n).value == SecondVerdict(o, n) <==> !Masked(o, n)
  {
    hide FirstVerdict, SecondVerdict, Hard, NewlyRequired, Contains;
    FirstMeans(o, n);
    SecondMeans(o, n);
    forall name | name in o && name in n && Visible(o[name], n[name]) ensures NewlyRequired(o[name], n[name]) != {} {
    }
  }

  ghost predicate PlainFields(d: Document) {
    forall name, f | name in d && (f in Props(d[name]) || f in Required(d[name])) :: !Contains(NO_LONGER, f)
  }

  /** For documents of object schemas whose field names never say `no longer` the two scripts agree. */
  lemma PlainDocumentsAgree(o: Document, n: Document)
    requires PlainFields(n)
    requires forall name | name in o && name in n :: o[name].ObjectSchema? && n[name].ObjectSchema?
    ensures FirstVerdict(o, n) == Some(SecondVerdict(o, n))
  {
    hide FirstVerdict, SecondVerdict, Hard, Contains, Props, Required;
    FirstMeans(o, n);
    VerdictsAgreeIff(o, n);
    forall name, f | name in o && name in n && f in NewlyRequired(o[name], n[name]) ensures !Contains(NO_LONGER, f) {
    }
  }

  /** A field called so is missed by the first script alone. */
  lemma MaskedExample()
    ensures var o: Document := map["Pet" := ObjectSchema(map[], {})];
            var n: Document := map["Pet" := ObjectSchema(map[], {"no longer used"})];
            FirstVerdict(o, n) == Some(false) && SecondVerdict(o, n)
  {
    hide FirstVerdict, SecondVerdict;
    var o: Document := map["Pet" := ObjectSchema(map[], {})];
    var n: Document := map["Pet" := ObjectSchema(map[], {"no longer used"})];
    FirstMeans(o, n);
    SecondMeans(o, n);
    var f := "no longer used";
    assert f == "" + NO_LONGER + " used";
    ContainsInside(NO_LONGER, "", " used");
    hide Contains;
    assert NewlyRequired(o["Pet"], n["Pet"]) == {f};
    assert !Visible(o["Pet"], n["Pet"]);
    assert !Hard(o["Pet"], n["Pet"]);
  }

  // ---------------------------------------------------------------- composition

  /** A property typed differently at both ends lost its type in between. */
  ghost predicate TypeSlips(a: Document, b: Document, c: Document) {
    exists name, f :: name in a && name in b && name in c && f in Props(a[name]) && f in Props(b[name]) && f in Props(c[name])
                      && Props(b[name])[f] == "" && TypeClash(Props(a[name])[f], Props(c[name])[f])
  }

  predicate Quiet(o: Schema, n: Schema) {
    !Hard(o, n) && NewlyRequired(o, n) == {}
  }

  lemma EmptyDifference(a: set<string>, b: set<string>)
    ensures a - b == {} <==> a <= b
  {
    if a - b == {} {
      forall x | x in a ensures x in b {
        assert x !in a - b;
      }
    }
  }

  lemma QuietMeans(o: Schema, n: Schema)
    ensures Quiet(o, n) <==>
            && Props(o).Keys <= Props(n).Keys && Required(n) <= Required(o)
            && (forall f | f in Props(o) && f in Props(n) :: !TypeClash(Props(o)[f], Props(n)[f]))
            && (forall f | f in Props(n) && f !in Props(o) :: f !in Required(n))
  {
    hide Props, Required, TypeClash;
    var removed, clashes, added, more := Removed(o, n), Clashes(Props(o), Props(n)), AddedRequired(o, n), Required(n) - Required(o);
    EmptyDifference(Props(o).Keys, Props(n).Keys);
    EmptyDifference(Required(n), Required(o));
    if clashes == {} {
      forall f | f in Props(o) && f in Props(n) ensures !TypeClash(Props(o)[f], Props(n)[f]) {
        assert f !in clashes;
      }
    }
    if added == {} {
      forall f | f in Props(n) && f !in Props(o) ensures f !in Required(n) {
        assert f !in added;
      }
    }
  }

  lemma QuietCompose(a: Schema, b: Schema, c: Schema)
    requires Quiet(a, b) && Quiet(b, c)
    ensures Quiet(a, c) <==>
            forall f | f in Props(a) && f in Props(b) && f in Props(c) && Props(b)[f] == "" :: !TypeClash(Props(a)[f], Props(c)[f])
  {
    hide Quiet, Props, Required;
    QuietMeans(a, b);
    QuietMeans(b, c);
    QuietMeans(a, c);
  }

  lemma BreaksNot(o: Document, n: Document)
    ensures !SecondVerdict(o, n) <==> o.Keys <= n.Keys && forall name | name in o && name in n :: Quiet(o[name], n[name])
  {
    hide SecondVerdict, Hard, NewlyRequired;
    SecondMeans(o, n);
    EmptyDifference(o.Keys, n.Keys);
  }

  /** Two non-breaking steps make a non-breaking one, unless a property lost its type and came back with another. */
  lemma NonBreakingComposes(a: Document, b: Document, c: Document)
    requires !SecondVerdict(a, b) && !SecondVerdict(b, c)
    ensures !SecondVerdict(a, c) <==> !TypeSlips(a, b, c)
  {
    hide SecondVerdict, Quiet, Props, TypeClash;
    BreaksNot(a, b);
    BreaksNot(b, c);
    BreaksNot(a, c);
    forall name | name in a
      ensures name in b && name in c
      ensures Quiet(a[name], c[name]) <==>
              forall f | f in Props(a[name]) && f in Props(b[name]) && f in Props(c[name]) && Props(b[name])[f] == "" ::
                !TypeClash(Props(a[name])[f], Props(c[name])[f])
    {
      QuietCompose(a[name], b[name], c[name]);
    }
  }

  /** So with a type on every property of the middle document, non-breaking changes compose. */
  lemma TypedStepsCompose(a: Document, b: Document, c: Document)
    requires !SecondVerdict(a, b) && !SecondVerdict(b, c)
    requires forall name, f | name in b && f in Props(b[name]) :: Props(b[name])[f] != ""
    ensures !SecondVerdict(a, c)
  {
    hide SecondVerdict, Props, TypeClash;
    NonBreakingComposes(a, b, c);
  }
}
