/** JSON values as Python holds them: an object keeps its keys in insertion order. */
module JsonValues {
  import opened Sorting

  /** A float is carried by its `repr` text, which identifies it. */
  datatype Json =
    | Null
    | Bool(b: bool)
    | Int(n: int)
    | Float(repr: string)
    | Str(s: string)
    | Arr(items: seq<Json>)
    | Obj(fields: seq<Field>)
  {
    predicate IsScalar() {
      !Arr? && !Obj?
    }
  }

  datatype Field = Field(key: string, value: Json)

  function Texts(values: seq<string>): (r: seq<Json>)
    ensures |r| == |values| && forall i | 0 <= i < |values| :: r[i] == Str(values[i])
  {
    seq(|values|, i requires 0 <= i < |values| => Str(values[i]))
  }

  function Keys(fields: seq<Field>): (ks: set<string>)
    ensures forall k :: k in ks <==> exists i :: 0 <= i < |fields| && fields[i].key == k
  {
    set i | 0 <= i < |fields| :: fields[i].key
  }

  ghost predicate Distinct(fields: seq<Field>) {
    forall i, j :: 0 <= i < j < |fields| ==> fields[i].key != fields[j].key
  }

  /** A dictionary holds each key once, at every depth. */
  ghost predicate WellFormed(j: Json) {
    match j
    case Arr(items) => forall x | x in items :: WellFormed(x)
    case Obj(fields) => Distinct(fields) && forall f | f in fields :: WellFormed(f.value)
    case _ => true
  }

  function Get(fields: seq<Field>, k: string): (v: Json)
    requires k in Keys(fields)
    ensures Field(k, v) in fields
    ensures v < Obj(fields)
  {
    if fields[0].key == k then
      assert fields[0] == Field(k, fields[0].value);
      fields[0].value
    else
      var v := Get(fields[1..], k);
      assert Field(k, v) in fields;
      v
  }

  lemma {:induction false} GetIs(fields: seq<Field>, i: nat)
    requires Distinct(fields) && i < |fields|
    ensures fields[i].key in Keys(fields) && Get(fields, fields[i].key) == fields[i].value
  {
    if i > 0 {
      assert fields[0].key != fields[i].key;
      GetIs(fields[1..], i - 1);
    }
  }

  /** `sorted(items, key=lambda kv: kv[0])` of a dictionary's items. */
  function ByKey(fields: seq<Field>): (r: seq<Field>)
    ensures |r| == |Keys(fields)|
    ensures forall i | 0 <= i < |r| :: r[i].key == Sorted(Keys(fields))[i] && r[i].key in Keys(fields)
                                       && r[i].value == Get(fields, r[i].key)
  {
    var ks := Sorted(Keys(fields));
    seq(|ks|, i requires 0 <= i < |ks| => assert ks[i] in ks; Field(ks[i], Get(fields, ks[i])))
  }

  lemma ByKeyDistinct(fields: seq<Field>)
    ensures Distinct(ByKey(fields))
  {
    hide Get;
    var r, ks := ByKey(fields), Sorted(Keys(fields));
    SortedAscending(Keys(fields));
    hide Sorted, StrictlyAscending;
    forall i, j | 0 <= i < j < |r| ensures r[i].key != r[j].key {
      AscendingDistinct(ks, i, j);
    }
  }

  lemma ByKeyIsLookup(fields: seq<Field>)
    ensures Keys(ByKey(fields)) == Keys(fields) && Distinct(ByKey(fields))
    ensures forall k | k in Keys(fields) :: Get(ByKey(fields), k) == Get(fields, k)
  {
    var r, ks := ByKey(fields), Sorted(Keys(fields));
    ByKeyDistinct(fields);
    hide Get, Sorted, Distinct;
    assert forall i | 0 <= i < |r| :: r[i].key == ks[i];
    forall k | k in Keys(fields) ensures k in Keys(r) && Get(r, k) == Get(fields, k) {
      var i :| 0 <= i < |ks| && ks[i] == k;
      GetIs(r, i);
    }
  }

  lemma ByKeyIdempotent(fields: seq<Field>)
    ensures ByKey(ByKey(fields)) == ByKey(fields)
  {
    ByKeyIsLookup(fields);
    hide Sorted, Get;
    var r, rr := ByKey(fields), ByKey(ByKey(fields));
    assert forall i | 0 <= i < |r| :: rr[i] == r[i];
  }

  lemma SameFields(fields: seq<Field>, f: Field)
    requires Distinct(fields)
    ensures f in ByKey(fields) <==> f in fields
  {
    ByKeyIsLookup(fields);
    hide ByKey, Get, Distinct;
    var r := ByKey(fields);
    if f in r {
      var i :| 0 <= i < |r| && r[i] == f;
      GetIs(r, i);
      KeyListed(r, i);
      assert f == Field(f.key, Get(fields, f.key));
    }
    if f in fields {
      var i :| 0 <= i < |fields| && fields[i] == f;
      GetIs(fields, i);
      assert f == Field(f.key, Get(r, f.key));
    }
  }

  lemma KeyListed(fields: seq<Field>, i: nat)
    requires i < |fields|
    ensures fields[i].key in Keys(fields)
  {
  }

  /** Sorting the items of a dictionary only permutes them. */
  lemma {:induction false} ByKeyPermutes(fields: seq<Field>)
    requires Distinct(fields)
    ensures multiset(ByKey(fields)) == multiset(fields)
  {
    hide ByKey;
    ByKeyDistinct(fields);
    hide Distinct;
    var r := ByKey(fields);
    forall f: Field ensures multiset(r)[f] == multiset(fields)[f] {
      CountIs(r, f);
      CountIs(fields, f);
      SameFields(fields, f);
    }
  }

  lemma {:induction false} CountIs(fields: seq<Field>, f: Field)
    requires Distinct(fields)
    ensures multiset(fields)[f] == if f in fields then 1 else 0
  {
    if fields != [] {
      assert fields == [fields[0]] + fields[1..];
      CountIs(fields[1..], f);
      if f in fields[1..] {
        var i :| 0 <= i < |fields[1..]| && fields[1..][i] == f;
        assert fields[i + 1] == f;
      }
    }
  }

  /** `_sort_keys`: every object's keys in order, at every depth. */
  function SortKeys(j: Json): Json {
    match j
    case Arr(items) => Arr(SortItems(items))
    case Obj(fields) => Obj(ByKey(SortValues(fields)))
    case _ => j
  }

  function SortItems(items: seq<Json>): (r: seq<Json>)
    ensures |r| == |items|
    ensures forall i | 0 <= i < |items| :: r[i] == SortKeys(items[i])
  {
    if items == [] then [] else [SortKeys(items[0])] + SortItems(items[1..])
  }

  function SortValues(fields: seq<Field>): (r: seq<Field>)
    ensures |r| == |fields|
    ensures forall i | 0 <= i < |fields| :: r[i] == Field(fields[i].key, SortKeys(fields[i].value))
  {
    if fields == [] then [] else
      [Field(fields[0].key, SortKeys(fields[0].value))] + SortValues(fields[1..])
  }

  /** The same JSON value with the keys of its objects in some other order, at any depth. */
  ghost predicate Reordered(a: Json, b: Json) {
    match a
    case Arr(xs) =>
      b.Arr? && |b.items| == |xs| && forall i | 0 <= i < |xs| :: Reordered(xs[i], b.items[i])
    case Obj(fs) =>
      b.Obj? && Distinct(fs) && Distinct(b.fields) && Keys(b.fields) == Keys(fs)
      && forall k | k in Keys(fs) :: Reordered(Get(fs, k), Get(b.fields, k))
    case _ => a == b
  }

  /** Rewriting the values of a dictionary one by one and sorting its items keeps the keys. */
  lemma RewrittenLookup(fields: seq<Field>, vs: seq<Field>)
    requires Distinct(fields) && |vs| == |fields|
    requires forall i | 0 <= i < |fields| :: vs[i].key == fields[i].key
    ensures Keys(vs) == Keys(fields) && Keys(ByKey(vs)) == Keys(fields) && Distinct(ByKey(vs))
    ensures forall i | 0 <= i < |fields| ::
      Get(fields, fields[i].key) == fields[i].value && Get(ByKey(vs), fields[i].key) == vs[i].value
  {
    assert Keys(vs) == Keys(fields) by {
      forall k ensures k in Keys(vs) <==> k in Keys(fields) {
        if k in Keys(vs) {
          var i :| 0 <= i < |vs| && vs[i].key == k;
          assert fields[i].key == k;
        }
        if k in Keys(fields) {
          var i :| 0 <= i < |fields| && fields[i].key == k;
          assert vs[i].key == k;
        }
      }
    }
    ByKeyIsLookup(vs);
    forall i | 0 <= i < |fields|
      ensures Get(fields, fields[i].key) == fields[i].value && Get(ByKey(vs), fields[i].key) == vs[i].value
    {
      GetIs(fields, i);
      GetIs(vs, i);
    }
  }

  /** The i-th sorted item of a rewritten dictionary comes from the member with the i-th key. */
  lemma RewrittenAt(fields: seq<Field>, vs: seq<Field>, i: nat) returns (j: nat)
    requires Distinct(fields) && |vs| == |fields| && i < |Keys(fields)|
    requires forall m | 0 <= m < |fields| :: vs[m].key == fields[m].key
    ensures j < |fields| && fields[j].key == Sorted(Keys(fields))[i] && Get(fields, fields[j].key) == fields[j].value
    ensures Keys(vs) == Keys(fields) && |ByKey(vs)| == |Keys(fields)| && Distinct(ByKey(vs))
    ensures ByKey(vs)[i] == Field(fields[j].key, vs[j].value)
  {
    RewrittenLookup(fields, vs);
    hide Get, Sorted, Distinct;
    var k := Sorted(Keys(fields))[i];
    assert k in Sorted(Keys(fields));
    j :| 0 <= j < |fields| && fields[j].key == k;
    var r := ByKey(vs);
    ByKeyDistinct(vs);
    GetIs(r, i);
  }

  lemma {:induction false} SortKeysReorders(j: Json)
    requires WellFormed(j)
    ensures Reordered(j, SortKeys(j))
  {
    match j
    case Arr(items) =>
      forall i | 0 <= i < |items| ensures Reordered(items[i], SortItems(items)[i]) {
        assert items[i] in items;
        SortKeysReorders(items[i]);
      }
    case Obj(fields) =>
      var vs := SortValues(fields);
      RewrittenLookup(fields, vs);
      forall k | k in Keys(fields)
        ensures Reordered(Get(fields, k), Get(ByKey(vs), k))
      {
        var i :| 0 <= i < |fields| && fields[i].key == k;
        assert fields[i] in fields;
        SortKeysReorders(fields[i].value);
      }
    case _ =>
  }
}
