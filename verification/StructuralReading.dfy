/** What can be read back from the structural string, from its front or from its end. */
module StructuralReading {
  import opened Collections
  import opened Sorting
  import opened JsonValues
  import opened Printer = StructuralString

  // ---------------------------------------------------------------- keys that can be read

  datatype Direction = Forward | Backward

  /** A separator inside a key is harmless to a reader who does not look for it where keys are read. */
  predicate ReadableKey(dir: Direction, k: string) {
    match dir
    case Forward => ':' !in k && (k != "" && k[0] == '}' ==> ';' !in k && ',' !in k)
    case Backward => ';' !in k && '{' !in k
  }

  /** Every key, at every depth, can be read in the given direction. */
  ghost predicate Legible(dir: Direction, v: Json) {
    match v
    case Obj(fields) => Distinct(fields) && forall f | f in fields :: ReadableKey(dir, f.key) && Legible(dir, f.value)
    case Arr(items) => forall x | x in items :: Legible(dir, x)
    case _ => true
  }

  // ---------------------------------------------------------------- what stands around a text

  predicate Closer(c: char) {
    c == ';' || c == ',' || c == '}' || c == ']'
  }

  predicate Mark(c: char) {
    c == ':' || c == ';' || c == ','
  }

  /** The first of `:`, `;` and `,` is a colon. */
  predicate ColonFirst(s: string) {
    s != "" && (s[0] == ':' || (!Mark(s[0]) && ColonFirst(s[1..])))
  }

  /** What follows a printed value. */
  predicate Tail(s: string) {
    (s != "" ==> Closer(s[0])) && !ColonFirst(s)
  }

  function Last(s: string): char
    requires s != ""
  {
    s[|s| - 1]
  }

  /** What precedes a printed value, or a printed member. */
  predicate Head(member: bool, s: string) {
    if member then s != "" ==> Last(s) == ';' || Last(s) == '{'
    else s != "" && (Last(s) == ':' || Last(s) == ',' || Last(s) == '[')
  }

  /** What a reader has left after the text, on the side it reads towards. */
  predicate Context(dir: Direction, member: bool, s: string) {
    match dir
    case Forward => Tail(s)
    case Backward => Head(member, s)
  }

  function Placed(dir: Direction, s: string, t: string): string {
    match dir
    case Forward => t + s
    case Backward => s + t
  }

  /** Wherever they stand, two texts are told apart: if the surroundings read alike, they are one text. */
  ghost predicate Apart(dir: Direction, member: bool, p: string, q: string) {
    forall x, y | Context(dir, member, x) && Context(dir, member, y) && Placed(dir, x, p) == Placed(dir, y, q) :: p == q
  }

  ghost predicate AllApart(dir: Direction, member: bool, ps: seq<string>, qs: seq<string>) {
    forall p, q | p in ps && q in qs :: Apart(dir, member, p, q)
  }

  lemma SameFront(a: string, x: string, b: string, y: string)
    requires a + x == b + y && |a| == |b|
    ensures a == b && x == y
  {
    assert a == (a + x)[..|a|] && b == (b + y)[..|b|];
    assert x == (a + x)[|a|..] && y == (b + y)[|b|..];
  }

  lemma SameBack(x: string, a: string, y: string, b: string)
    requires x + a == y + b && |a| == |b|
    ensures a == b && x == y
  {
    SameFront(x, a, y, b);
  }

  lemma Regroup(a: string, b: string, c: string, d: string)
    ensures a + b + c + d == a + (b + (c + d)) == a + (b + c + d)
  {
  }

  lemma ApartPlaced(dir: Direction, member: bool, p: string, q: string, x: string, y: string)
    requires Apart(dir, member, p, q) && Context(dir, member, x) && Context(dir, member, y)
    requires Placed(dir, x, p) == Placed(dir, y, q)
    ensures p == q && x == y
  {
    hide Context;
    assert p == q;
    if dir == Forward {
      SameFront(p, x, q, y);
    } else {
      SameBack(x, p, y, q);
    }
  }

  lemma DifferentStart(member: bool, p: string, q: string)
    requires p != "" && q != "" && p[0] != q[0]
    ensures Apart(Forward, member, p, q)
  {
    hide Context;
    forall x, y ensures p + x != q + y {
      assert (p + x)[0] == p[0];
      assert (q + y)[0] == q[0];
    }
  }

  lemma DifferentEnd(member: bool, p: string, q: string)
    requires |p| >= 2 && |q| >= 2 && p[|p| - 2..] != q[|q| - 2..]
    ensures Apart(Backward, member, p, q)
  {
    hide Context;
    forall x, y ensures x + p != y + q {
      assert (x + p)[|x + p| - 2..] == p[|p| - 2..];
      assert (y + q)[|y + q| - 2..] == q[|q| - 2..];
    }
  }

  // ---------------------------------------------------------------- members

  lemma {:induction false} ColonAfter(k: string, rest: string)
    requires forall c | c in k :: !Mark(c)
    ensures ColonFirst(k + ":" + rest)
  {
    if k == "" {
      assert k + ":" + rest == ":" + rest;
    } else {
      assert k[0] in k;
      ColonAfter(k[1..], rest);
      assert (k + ":" + rest)[1..] == k[1..] + ":" + rest;
    }
  }

  /** The end of an empty object is never taken for a member, whatever follows it. */
  lemma EmptyShows(k: string, rest: string, x: string)
    requires ReadableKey(Forward, k) && Tail(x)
    ensures k + ":" + rest != "}" + x
  {
    var s := k + ":" + rest;
    assert ("}" + x)[0] == '}' && ("}" + x)[1..] == x;
    if k == "" {
      assert s[0] == ':';
    } else if k[0] == '}' {
      forall c | c in k[1..] ensures !Mark(c) {
        assert c in k;
      }
      ColonAfter(k[1..], rest);
      assert s[1..] == k[1..] + ":" + rest;
    } else {
      assert s[0] == k[0];
    }
  }

  lemma ColonSplits(k: string, t: string, j: string, u: string)
    requires ':' !in k && ':' !in j && k + ":" + t == j + ":" + u
    ensures k == j && t == u
  {
    var s := k + ":" + t;
    assert s[|k|] == ':' && s[|j|] == ':';
    assert forall i | 0 <= i < |k| :: s[i] == k[i];
    assert forall i | 0 <= i < |j| :: s[i] == j[i];
    assert |k| == |j|;
    SameFront(k + ":", t, j + ":", u);
    SameFront(k, ":", j, ":");
  }

  /** Read from its end, a key stops at the last `;` or `{` before it. */
  lemma KeyEnds(x: string, k: string, y: string, j: string)
    requires ReadableKey(Backward, k) && ReadableKey(Backward, j) && Head(true, x) && Head(true, y) && x + k == y + j
    ensures k == j
  {
    if |k| < |j| {
      KeyTooLong(x, k, y, j);
    } else if |j| < |k| {
      KeyTooLong(y, j, x, k);
    }
    SameBack(x, k, y, j);
  }

  lemma KeyTooLong(x: string, k: string, y: string, j: string)
    requires |k| < |j| && Head(true, x) && x + k == y + j
    ensures !ReadableKey(Backward, j)
  {
    var i := |j| - |k| - 1;
    assert Last(x) == (x + k)[|x| - 1] == (y + j)[|y| + i] == j[i];
    assert j[i] in j;
  }

  lemma MemberForward(k: string, t: string, j: string, u: string)
    requires Apart(Forward, false, t, u) && ReadableKey(Forward, k) && ReadableKey(Forward, j)
    ensures Apart(Forward, true, k + ":" + t, j + ":" + u)
  {
    hide Tail;
    forall x, y | Tail(x) && Tail(y) && k + ":" + t + x == j + ":" + u + y ensures k + ":" + t == j + ":" + u {
      assert k + ":" + t + x == k + ":" + (t + x) && j + ":" + u + y == j + ":" + (u + y);
      ColonSplits(k, t + x, j, u + y);
      ApartPlaced(Forward, false, t, u, x, y);
    }
  }

  lemma MemberBackward(k: string, t: string, j: string, u: string, x: string, y: string)
    requires Apart(Backward, false, t, u) && ReadableKey(Backward, k) && ReadableKey(Backward, j)
    requires Head(true, x) && Head(true, y) && x + (k + ":" + t) == y + (j + ":" + u)
    ensures k == j && t == u
  {
    hide ReadableKey, Apart;
    var v, w := x + k + ":", y + j + ":";
    assert Last(v) == ':' && Last(w) == ':';
    assert x + (k + ":" + t) == v + t && y + (j + ":" + u) == w + u;
    ApartPlaced(Backward, false, t, u, v, w);
    SameBack(x + k, ":", y + j, ":");
    KeyEnds(x, k, y, j);
  }

  /** Members are told apart if their values are, and then tell their keys. */
  lemma MemberApart(dir: Direction, k: string, t: string, j: string, u: string)
    requires Apart(dir, false, t, u) && ReadableKey(dir, k) && ReadableKey(dir, j)
    ensures Apart(dir, true, k + ":" + t, j + ":" + u)
    ensures k + ":" + t == j + ":" + u ==> k == j && t == u
  {
    if dir == Forward {
      MemberForward(k, t, j, u);
      if k + ":" + t == j + ":" + u {
        ColonSplits(k, t, j, u);
      }
    } else {
      forall x, y | Head(true, x) && Head(true, y) && x + (k + ":" + t) == y + (j + ":" + u)
        ensures k == j && t == u
      {
        MemberBackward(k, t, j, u, x, y);
      }
      if k + ":" + t == j + ":" + u {
        assert "" + (k + ":" + t) == k + ":" + t && "" + (j + ":" + u) == j + ":" + u;
        MemberBackward(k, t, j, u, "", "");
      }
    }
  }

  // ---------------------------------------------------------------- reading lists back

  /** A list of members stands in braces, a list of items in brackets. */
  function Separator(member: bool): string {
    if member then ";" else ","
  }

  function Open(member: bool): char {
    if member then '{' else '['
  }

  function Close(member: bool): char {
    if member then '}' else ']'
  }

  /** The far end of the list, with what follows or precedes it. */
  predicate Border(dir: Direction, member: bool, x: string) {
    match dir
    case Forward => Tail(x) && x != "" && x[0] == Close(member)
    case Backward => x != "" && Last(x) == Open(member)
  }

  function AfterFirst(member: bool, parts: seq<string>, x: string): string
    requires parts != []
  {
    if |parts| == 1 then x else Separator(member) + (Glue(Separator(member), parts[1..]) + x)
  }

  lemma GlueStep(sep: string, parts: seq<string>)
    requires parts != []
    ensures Glue(sep, parts) == if |parts| == 1 then parts[0] else parts[0] + sep + Glue(sep, parts[1..])
  {
  }

  lemma SeparatorIsTail(member: bool, rest: string)
    ensures Tail(Separator(member) + rest) && (Separator(member) + rest)[0] == Separator(member)[0] != Close(member)
  {
  }

  lemma GlueFirst(member: bool, parts: seq<string>, x: string)
    requires parts != [] && Border(Forward, member, x)
    ensures Glue(Separator(member), parts) + x == parts[0] + AfterFirst(member, parts, x)
    ensures var a := AfterFirst(member, parts, x); Tail(a) && a != "" && (a[0] == Close(member) <==> |parts| == 1)
  {
    hide Glue, Tail, Separator, Close;
    var sep := Separator(member);
    GlueStep(sep, parts);
    if |parts| > 1 {
      var g := Glue(sep, parts[1..]);
      Regroup(parts[0], sep, g, x);
      SeparatorIsTail(member, g + x);
    }
  }

  lemma {:induction false} GlueForward(member: bool, xs: seq<string>, ys: seq<string>, x: string, y: string)
    requires AllApart(Forward, member, xs, ys) && xs != [] && ys != []
    requires Border(Forward, member, x) && Border(Forward, member, y)
    requires Glue(Separator(member), xs) + x == Glue(Separator(member), ys) + y
    ensures xs == ys
  {
    hide Apart, Tail, Glue, Close;
    var a, b := AfterFirst(member, xs, x), AfterFirst(member, ys, y);
    GlueFirst(member, xs, x);
    GlueFirst(member, ys, y);
    assert xs[0] in xs && ys[0] in ys;
    ApartPlaced(Forward, member, xs[0], ys[0], a, b);
    assert xs == [xs[0]] + xs[1..] && ys == [ys[0]] + ys[1..];
    if |xs| > 1 {
      var sep := Separator(member);
      SameFront(sep, Glue(sep, xs[1..]) + x, sep, Glue(sep, ys[1..]) + y);
      GlueForward(member, xs[1..], ys[1..], x, y);
    }
  }

  lemma {:induction false} GlueLast(sep: string, parts: seq<string>)
    requires |parts| > 1
    ensures var n := |parts| - 1; Glue(sep, parts) == Glue(sep, parts[..n]) + sep + parts[n]
  {
    var n := |parts| - 1;
    var rest := parts[1..];
    if n > 1 {
      GlueLast(sep, rest);
      assert parts[..n][1..] == rest[..n - 1] && rest[n - 1] == parts[n];
      var g := Glue(sep, rest[..n - 1]);
      assert parts[0] + sep + (g + sep + parts[n]) == parts[0] + sep + g + sep + parts[n];
    }
  }

  function BeforeLast(member: bool, parts: seq<string>, x: string): string
    requires parts != []
  {
    if |parts| == 1 then x else (x + Glue(Separator(member), parts[..|parts| - 1])) + Separator(member)
  }

  lemma SeparatorIsHead(member: bool, front: string)
    ensures var s := front + Separator(member); Head(member, s) && s != "" && Last(s) == Separator(member)[0] != Open(member)
  {
  }

  lemma BorderIsHead(member: bool, x: string)
    requires Border(Backward, member, x)
    ensures Head(member, x)
  {
  }

  lemma GlueFinal(member: bool, parts: seq<string>, x: string)
    requires parts != [] && Border(Backward, member, x)
    ensures x + Glue(Separator(member), parts) == BeforeLast(member, parts, x) + parts[|parts| - 1]
    ensures var b := BeforeLast(member, parts, x); Head(member, b) && b != "" && (Last(b) == Open(member) <==> |parts| == 1)
  {
    hide Glue, Head, Separator, Open;
    BorderIsHead(member, x);
    var sep := Separator(member);
    if |parts| > 1 {
      var n := |parts| - 1;
      var g := Glue(sep, parts[..n]);
      GlueLast(sep, parts);
      Regroup(x, g, sep, parts[n]);
      SeparatorIsHead(member, x + g);
    } else {
      GlueStep(sep, parts);
    }
  }

  lemma {:induction false} GlueBackward(member: bool, xs: seq<string>, ys: seq<string>, x: string, y: string)
    requires AllApart(Backward, member, xs, ys) && xs != [] && ys != []
    requires Border(Backward, member, x) && Border(Backward, member, y)
    requires x + Glue(Separator(member), xs) == y + Glue(Separator(member), ys)
    ensures xs == ys
  {
    hide Apart, Head, Glue, Open;
    var n, m := |xs| - 1, |ys| - 1;
    var a, b := BeforeLast(member, xs, x), BeforeLast(member, ys, y);
    GlueFinal(member, xs, x);
    GlueFinal(member, ys, y);
    assert xs[n] in xs && ys[m] in ys;
    ApartPlaced(Backward, member, xs[n], ys[m], a, b);
    assert xs == xs[..n] + [xs[n]] && ys == ys[..m] + [ys[m]];
    if n > 0 {
      var sep := Separator(member);
      SameBack(x + Glue(sep, xs[..n]), sep, y + Glue(sep, ys[..m]), sep);
      GlueBackward(member, xs[..n], ys[..m], x, y);
    }
  }

  /** The joined parts of an object or array are found again, read from either end. */
  lemma GlueReadsBack(dir: Direction, member: bool, xs: seq<string>, ys: seq<string>, x: string, y: string)
    requires AllApart(dir, member, xs, ys) && xs != [] && ys != []
    requires Border(dir, member, x) && Border(dir, member, y)
    requires Placed(dir, x, Glue(Separator(member), xs)) == Placed(dir, y, Glue(Separator(member), ys))
    ensures xs == ys
  {
    hide Apart, Border, Glue;
    if dir == Forward {
      GlueForward(member, xs, ys, x, y);
    } else {
      GlueBackward(member, xs, ys, x, y);
    }
  }

  function Wrapped(member: bool, parts: seq<string>): string {
    (if member then "object{" else "array[") + Glue(Separator(member), parts) + [Close(member)]
  }

  /** What stands at the far end of a wrapped list. */
  function Beyond(dir: Direction, member: bool, x: string): string {
    match dir
    case Forward => [Close(member)] + x
    case Backward => x + if member then "object{" else "array["
  }

  lemma Unwrap(dir: Direction, member: bool, xs: seq<string>, ys: seq<string>, x: string, y: string)
    requires Placed(dir, x, Wrapped(member, xs)) == Placed(dir, y, Wrapped(member, ys))
    ensures Placed(dir, Beyond(dir, member, x), Glue(Separator(member), xs)) ==
            Placed(dir, Beyond(dir, member, y), Glue(Separator(member), ys))
  {
    hide Glue;
    var open_, close := if member then "object{" else "array[", [Close(member)];
    var g, h := Glue(Separator(member), xs), Glue(Separator(member), ys);
    if dir == Forward {
      Regroup(open_, g, close, x);
      Regroup(open_, h, close, y);
      SameFront(open_, g + (close + x), open_, h + (close + y));
    } else {
      Regroup(x, open_, g, close);
      Regroup(y, open_, h, close);
      SameBack((x + open_) + g, close, (y + open_) + h, close);
    }
  }

  lemma BeyondIsBorder(dir: Direction, member: bool, x: string)
    requires dir == Forward ==> Tail(x)
    ensures Border(dir, member, Beyond(dir, member, x))
  {
    if dir == Forward {
      assert ([Close(member)] + x)[1..] == x;
    }
  }

  /** Equal wrapped lists of parts that are told apart hold the same parts. */
  lemma WrappedReadsBack(dir: Direction, member: bool, xs: seq<string>, ys: seq<string>, x: string, y: string)
    requires AllApart(dir, member, xs, ys) && xs != [] && ys != []
    requires Context(dir, false, x) && Context(dir, false, y)
    requires Placed(dir, x, Wrapped(member, xs)) == Placed(dir, y, Wrapped(member, ys))
    ensures xs == ys
  {
    hide Apart, Border, Beyond, Wrapped, Glue, Tail, Head;
    Unwrap(dir, member, xs, ys, x, y);
    BeyondIsBorder(dir, member, x);
    BeyondIsBorder(dir, member, y);
    GlueReadsBack(dir, member, xs, ys, Beyond(dir, member, x), Beyond(dir, member, y));
  }

  // ---------------------------------------------------------------- members of an object

  ghost predicate MemberPart(dir: Direction, p: string) {
    exists k, t {:trigger k + ":" + t} :: ReadableKey(dir, k) && TextEnd(t) && p == k + ":" + t
  }

  /** A printed value ends in a letter or in a closing bracket. */
  predicate TextEnd(t: string) {
    t != "" && Last(t) != '{'
  }

  lemma {:induction false} GlueEnds(sep: string, parts: seq<string>)
    requires parts != [] && TextEnd(parts[|parts| - 1])
    ensures TextEnd(Glue(sep, parts))
  {
    if |parts| > 1 {
      var n := |parts| - 1;
      GlueLast(sep, parts);
      hide Glue;
      assert Last(Glue(sep, parts[..n]) + sep + parts[n]) == Last(parts[n]);
    }
  }

  lemma PartBefore(k: string, t: string, a: string)
    ensures k + ":" + t + a == k + ":" + (t + a)
  {
  }

  lemma EmptyForward(ys: seq<string>, x: string, y: string)
    requires ys != [] && MemberPart(Forward, ys[0]) && Tail(x) && Border(Forward, true, y)
    ensures "" + ("}" + x) != Glue(";", ys) + y
  {
    hide Glue, ReadableKey, Tail, Border, AfterFirst;
    GlueFirst(true, ys, y);
    var k, t :| ReadableKey(Forward, k) && TextEnd(t) && ys[0] == k + ":" + t;
    var a := AfterFirst(true, ys, y);
    PartBefore(k, t, a);
    EmptyShows(k, t + a, x);
    assert "" + ("}" + x) == "}" + x;
  }

  lemma EmptyBackward(ys: seq<string>, x: string, y: string)
    requires ys != [] && MemberPart(Backward, ys[|ys| - 1]) && Border(Backward, true, x)
    ensures x + "" != y + Glue(";", ys)
  {
    hide Glue, ReadableKey;
    var p := ys[|ys| - 1];
    var k, t :| ReadableKey(Backward, k) && TextEnd(t) && p == k + ":" + t;
    assert Last(p) == Last(t);
    GlueEnds(";", ys);
    assert x + "" == x;
    assert Last(y + Glue(";", ys)) == Last(Glue(";", ys));
  }

  /** An object without members is not taken for one with members. */
  lemma EmptyIsRead(dir: Direction, ys: seq<string>, x: string, y: string)
    requires ys != [] && (forall p | p in ys :: MemberPart(dir, p)) && Context(dir, false, x) && Context(dir, false, y)
    ensures Placed(dir, x, Wrapped(true, [])) != Placed(dir, y, Wrapped(true, ys))
  {
    hide MemberPart, Border, Wrapped, Glue, Tail, Head;
    if Placed(dir, x, Wrapped(true, [])) == Placed(dir, y, Wrapped(true, ys)) {
      Unwrap(dir, true, [], ys, x, y);
      BeyondIsBorder(dir, true, x);
      BeyondIsBorder(dir, true, y);
      assert Glue(";", []) == "" by { NothingGlued(); }
      assert ys[0] in ys && ys[|ys| - 1] in ys;
      if dir == Forward {
        EmptyForward(ys, x, Beyond(dir, true, y));
      } else {
        EmptyBackward(ys, Beyond(dir, true, x), Beyond(dir, true, y));
      }
    }
  }

  lemma NothingGlued()
    ensures Glue(";", []) == ""
  {
  }

  ghost predicate AllMembers(dir: Direction, ps: seq<string>) {
    forall p | p in ps :: MemberPart(dir, p)
  }

  lemma MembersReadBack(dir: Direction, xs: seq<string>, ys: seq<string>, x: string, y: string)
    requires AllApart(dir, true, xs, ys) && AllMembers(dir, xs) && AllMembers(dir, ys)
    requires Context(dir, false, x) && Context(dir, false, y)
    requires Placed(dir, x, Wrapped(true, xs)) == Placed(dir, y, Wrapped(true, ys))
    ensures xs == ys
  {
    hide Apart, MemberPart, Wrapped, Context, Placed;
    if xs == [] && ys != [] {
      EmptyIsRead(dir, ys, x, y);
    } else if ys == [] && xs != [] {
      EmptyIsRead(dir, xs, y, x);
    } else if xs != [] {
      WrappedReadsBack(dir, true, xs, ys, x, y);
    }
  }

  // ---------------------------------------------------------------- printed values are told apart

  lemma ObjectIsWrapped(fields: seq<Field>)
    requires Distinct(fields)
    ensures Text(Obj(fields)) == Wrapped(true, ObjectParts(fields))
  {
    hide Text, Glue, ObjectParts;
    ObjectText(fields);
  }

  lemma ArrayIsWrapped(items: seq<Json>)
    ensures Text(Arr(items)) == Wrapped(false, ArrayParts(items))
  {
    hide Text, Glue, ArrayParts;
    ArrayText(items);
  }

  lemma WrappedLooks(member: bool, parts: seq<string>)
    ensures var t := Wrapped(member, parts);
            |t| >= 2 && t[0] == (if member then 'o' else 'a') && Last(t) == Close(member) && !PlainText(t)
  {
    hide Glue;
    var open_, g, close := if member then "object{" else "array[", Glue(Separator(member), parts), [Close(member)];
    var t := open_ + g + close;
    assert t[0] == open_[0];
    assert Last(t) == Close(member) && Last(t) in t;
  }

  /** How the kinds of value look from either end. */
  lemma TextLooks(dir: Direction, v: Json)
    requires Legible(dir, v)
    ensures var t := Text(v);
            |t| >= 2 && TextEnd(t)
            && (v.IsScalar() ==> t in TYPE_NAMES && t != "empty_array" && PlainText(t))
            && (v.Obj? ==> t[0] == 'o' && Last(t) == '}' && !PlainText(t))
            && (v.Arr? ==> t[0] == 'a' && Last(t) == ']' && !PlainText(t))
  {
    hide Text, ObjectParts, ArrayParts, Wrapped, PlainText;
    match v
    case Obj(fields) =>
      ObjectIsWrapped(fields);
      WrappedLooks(true, ObjectParts(fields));
    case Arr(items) =>
      ArrayIsWrapped(items);
      WrappedLooks(false, ArrayParts(items));
    case _ =>
      ScalarTextIs(v);
      PrimitiveIsName(v);
      TypeNamesPlain(Text(v));
      NameLooks(Text(v));
  }

  lemma NameLooks(t: string)
    requires t in TYPE_NAMES
    ensures |t| >= 2 && t[0] != 'o' && t[0] != 'a' && Last(t) != '}' && Last(t) != ']' && TextEnd(t)
  {
  }

  lemma NamesApart(dir: Direction, t: string, u: string)
    requires t in TYPE_NAMES && u in TYPE_NAMES
    ensures Apart(dir, false, t, u)
  {
    NameShows(t);
    NameShows(u);
    hide Apart, FullName, Ending;
    if t[0] != u[0] {
      EndingsDiffer(t[0], u[0]);
      if dir == Forward {
        DifferentStart(false, t, u);
      } else {
        DifferentEnd(false, t, u);
      }
    } else {
      ApartRefl(dir, t);
    }
  }

  lemma ApartRefl(dir: Direction, t: string)
    ensures Apart(dir, false, t, t)
  {
  }

  const INITIALS := {'n', 'b', 'i', 'f', 's', 'e'}

  /** The type name with a given initial, and its last two letters. */
  function FullName(initial: char): string {
    match initial
    case 'n' => "null"
    case 'b' => "bool"
    case 'i' => "int"
    case 'f' => "float"
    case 's' => "string"
    case _ => "empty_array"
  }

  function Ending(initial: char): string {
    match initial
    case 'n' => "ll"
    case 'b' => "ol"
    case 'i' => "nt"
    case 'f' => "at"
    case 's' => "ng"
    case _ => "ay"
  }

  lemma NameShows(t: string)
    requires t in TYPE_NAMES
    ensures |t| >= 2 && t[0] in INITIALS && t == FullName(t[0]) && t[|t| - 2..] == Ending(t[0])
  {
  }

  lemma EndingsDiffer(a: char, b: char)
    requires a in INITIALS && b in INITIALS && a != b
    ensures Ending(a) != Ending(b)
  {
    assert Ending(a)[0] == Ending(b)[0] ==> Ending(a)[1] != Ending(b)[1];
  }

  lemma LooksApart(dir: Direction, t: string, u: string)
    requires |t| >= 2 && |u| >= 2 && t[0] != u[0] && Last(t) != Last(u)
    ensures Apart(dir, false, t, u)
  {
    if dir == Forward {
      DifferentStart(false, t, u);
    } else {
      assert t[|t| - 2..][1] == Last(t) && u[|u| - 2..][1] == Last(u);
      DifferentEnd(false, t, u);
    }
  }

  lemma OtherKindsApart(dir: Direction, v: Json, w: Json)
    requires Legible(dir, v) && Legible(dir, w) && !(v.Obj? && w.Obj?) && !(v.Arr? && w.Arr?)
    ensures Apart(dir, false, Text(v), Text(w))
  {
    hide Text, Apart, Legible, TextEnd, PlainText;
    TextLooks(dir, v);
    TextLooks(dir, w);
    if v.IsScalar() && w.IsScalar() {
      NamesApart(dir, Text(v), Text(w));
    } else {
      if v.IsScalar() {
        NameLooks(Text(v));
      }
      if w.IsScalar() {
        NameLooks(Text(w));
      }
      LooksApart(dir, Text(v), Text(w));
    }
  }

  /** Two printed values are told apart from either end, if their keys can be read from there. */
  lemma {:induction false} TextsApart(dir: Direction, v: Json, w: Json)
    requires Legible(dir, v) && Legible(dir, w)
    ensures Apart(dir, false, Text(v), Text(w))
    decreases v, 1
  {
    hide Text, Apart, ObjectParts, ArrayParts;
    if v.Obj? && w.Obj? {
      MembersApart(dir, v, w);
      MemberParts(dir, v.fields);
      MemberParts(dir, w.fields);
      ObjectIsWrapped(v.fields);
      ObjectIsWrapped(w.fields);
      ObjectsApart(dir, ObjectParts(v.fields), ObjectParts(w.fields));
    } else if v.Arr? && w.Arr? {
      ItemsApart(dir, v, w);
      ArrayIsWrapped(v.items);
      ArrayIsWrapped(w.items);
      ArrayNeverEmpty(v.items);
      ArrayNeverEmpty(w.items);
      ArraysApart(dir, ArrayParts(v.items), ArrayParts(w.items));
    } else {
      OtherKindsApart(dir, v, w);
    }
  }

  lemma ObjectsApart(dir: Direction, xs: seq<string>, ys: seq<string>)
    requires AllApart(dir, true, xs, ys) && AllMembers(dir, xs) && AllMembers(dir, ys)
    ensures Apart(dir, false, Wrapped(true, xs), Wrapped(true, ys))
  {
    hide AllApart, AllMembers, Wrapped, Context, Placed;
    forall x, y | Context(dir, false, x) && Context(dir, false, y)
                  && Placed(dir, x, Wrapped(true, xs)) == Placed(dir, y, Wrapped(true, ys))
      ensures xs == ys
    {
      MembersReadBack(dir, xs, ys, x, y);
    }
  }

  lemma ArraysApart(dir: Direction, xs: seq<string>, ys: seq<string>)
    requires AllApart(dir, false, xs, ys) && xs != [] && ys != []
    ensures Apart(dir, false, Wrapped(false, xs), Wrapped(false, ys))
  {
    hide AllApart, Wrapped, Context, Placed;
    forall x, y | Context(dir, false, x) && Context(dir, false, y)
                  && Placed(dir, x, Wrapped(false, xs)) == Placed(dir, y, Wrapped(false, ys))
      ensures xs == ys
    {
      WrappedReadsBack(dir, false, xs, ys, x, y);
    }
  }

  lemma ArrayNeverEmpty(items: seq<Json>)
    ensures ArrayParts(items) != []
  {
    hide Sorted, SortList, Text, PrimitiveType;
    if items != [] {
      var n := |items| - 1;
      if items[n].IsScalar() {
        assert PrimitiveType(items[n]) in Sorted(InnerTypes(items));
      } else {
        assert |Structures(items)| > 0;
        SortListLength(Structures(items));
      }
    }
  }

  lemma SortListLength(ts: seq<string>)
    ensures |SortList(ts)| == |ts|
  {
    hide SortList;
    SameMembers(SortList(ts), ts);
  }

  lemma KeyOf(fields: seq<Field>, i: nat) returns (f: Field)
    requires Distinct(fields) && i < |Keys(fields)|
    ensures f in fields && f.value < Obj(fields) && f.key == Sorted(Keys(fields))[i] && Get(fields, f.key) == f.value
    ensures ObjectParts(fields)[i] == f.key + ":" + Text(f.value)
  {
    hide Text, Get, Sorted, ObjectParts, Keys;
    ObjectPartAt(fields, i);
    var k := Sorted(Keys(fields))[i];
    f := Field(k, Get(fields, k));
  }

  lemma MemberParts(dir: Direction, fields: seq<Field>)
    requires Legible(dir, Obj(fields))
    ensures AllMembers(dir, ObjectParts(fields))
  {
    hide Text, ObjectParts, Keys, Sorted, Get, ReadableKey, TextEnd;
    forall p | p in ObjectParts(fields) ensures MemberPart(dir, p) {
      var i :| 0 <= i < |ObjectParts(fields)| && ObjectParts(fields)[i] == p;
      var f := KeyOf(fields, i);
      TextLooks(dir, f.value);
    }
  }

  lemma {:induction false} MembersApart(dir: Direction, v: Json, w: Json)
    requires v.Obj? && w.Obj? && Legible(dir, v) && Legible(dir, w)
    ensures AllApart(dir, true, ObjectParts(v.fields), ObjectParts(w.fields))
    decreases v, 0
  {
    hide Text, Apart, ObjectParts, Keys, Sorted, Get, ReadableKey;
    var ps, qs := ObjectParts(v.fields), ObjectParts(w.fields);
    forall p, q | p in ps && q in qs ensures Apart(dir, true, p, q) {
      var i :| 0 <= i < |ps| && ps[i] == p;
      var j :| 0 <= j < |qs| && qs[j] == q;
      var f := KeyOf(v.fields, i);
      var g := KeyOf(w.fields, j);
      TextsApart(dir, f.value, g.value);
      MemberApart(dir, f.key, Text(f.value), g.key, Text(g.value));
    }
  }

  lemma {:induction false} ItemsApart(dir: Direction, v: Json, w: Json)
    requires v.Arr? && w.Arr? && Legible(dir, v) && Legible(dir, w)
    ensures AllApart(dir, false, ArrayParts(v.items), ArrayParts(w.items))
    decreases v, 0
  {
    hide Text, Apart, ArrayParts;
    forall p, q | p in ArrayParts(v.items) && q in ArrayParts(w.items) ensures Apart(dir, false, p, q) {
      ArrayPartIs(v.items, p);
      ArrayPartIs(w.items, q);
      if p in TYPE_NAMES && q in TYPE_NAMES {
        NamesApart(dir, p, q);
      } else if p in TYPE_NAMES {
        var y :| y in w.items && !y.IsScalar() && Text(y) == q;
        NameApart(dir, p, y);
      } else if q in TYPE_NAMES {
        var x :| x in v.items && !x.IsScalar() && Text(x) == p;
        NameApart(dir, q, x);
        ApartSym(dir, q, p);
      } else {
        var x :| x in v.items && !x.IsScalar() && Text(x) == p;
        var y :| y in w.items && !y.IsScalar() && Text(y) == q;
        TextsApart(dir, x, y);
      }
    }
  }

  lemma ApartSym(dir: Direction, p: string, q: string)
    requires Apart(dir, false, p, q)
    ensures Apart(dir, false, q, p)
  {
    hide Context, Placed;
  }

  lemma NameApart(dir: Direction, t: string, y: Json)
    requires t in TYPE_NAMES && Legible(dir, y) && !y.IsScalar()
    ensures Apart(dir, false, t, Text(y))
  {
    hide Text, Apart, Legible, PlainText;
    TextLooks(dir, y);
    NameLooks(t);
    LooksApart(dir, t, Text(y));
  }

  // ---------------------------------------------------------------- the parts of the root

  function Terminated(parts: seq<string>): string {
    if parts == [] then "" else parts[0] + ";" + Terminated(parts[1..])
  }

  lemma {:induction false} TerminatedForward(xs: seq<string>, ys: seq<string>)
    requires AllApart(Forward, true, xs, ys) && Terminated(xs) == Terminated(ys)
    ensures xs == ys
  {
    hide Apart;
    if xs != [] && ys != [] {
      var a, b := Terminated(xs[1..]), Terminated(ys[1..]);
      assert xs[0] + ";" + a == xs[0] + (";" + a) && ys[0] + ";" + b == ys[0] + (";" + b);
      assert xs[0] in xs && ys[0] in ys;
      SeparatorIsTail(true, a);
      SeparatorIsTail(true, b);
      hide Terminated, Tail;
      ApartPlaced(Forward, true, xs[0], ys[0], ";" + a, ";" + b);
      SameFront(";", a, ";", b);
      TerminatedForward(xs[1..], ys[1..]);
      assert xs == [xs[0]] + xs[1..] && ys == [ys[0]] + ys[1..];
    }
  }

  lemma {:induction false} TerminatedLast(parts: seq<string>)
    requires parts != []
    ensures var n := |parts| - 1; Terminated(parts) == Terminated(parts[..n]) + parts[n] + ";"
  {
    var n := |parts| - 1;
    if n > 0 {
      var rest := parts[1..];
      TerminatedLast(rest);
      assert parts[..n][1..] == rest[..n - 1] && rest[n - 1] == parts[n];
      var g := Terminated(rest[..n - 1]);
      assert parts[0] + ";" + (g + parts[n] + ";") == parts[0] + ";" + g + parts[n] + ";";
    }
  }

  lemma TerminatedIsHead(parts: seq<string>)
    ensures Head(true, Terminated(parts))
  {
    if parts != [] {
      TerminatedLast(parts);
      hide Terminated;
      var n := |parts| - 1;
      assert Last(Terminated(parts[..n]) + parts[n] + ";") == ';';
    }
  }

  lemma {:induction false} TerminatedBackward(xs: seq<string>, ys: seq<string>)
    requires AllApart(Backward, true, xs, ys) && Terminated(xs) == Terminated(ys)
    ensures xs == ys
  {
    hide Apart;
    if xs != [] && ys != [] {
      var n, m := |xs| - 1, |ys| - 1;
      TerminatedLast(xs);
      TerminatedLast(ys);
      TerminatedIsHead(xs[..n]);
      TerminatedIsHead(ys[..m]);
      assert xs[n] in xs && ys[m] in ys;
      hide Terminated, Head;
      var a, b := Terminated(xs[..n]), Terminated(ys[..m]);
      SameBack(a + xs[n], ";", b + ys[m], ";");
      ApartPlaced(Backward, true, xs[n], ys[m], a, b);
      TerminatedBackward(xs[..n], ys[..m]);
      assert xs == xs[..n] + [xs[n]] && ys == ys[..m] + [ys[m]];
    }
  }

  /** The terminated parts of the root are found again, read from either end. */
  lemma TerminatedReadsBack(dir: Direction, xs: seq<string>, ys: seq<string>)
    requires AllApart(dir, true, xs, ys) && Terminated(xs) == Terminated(ys)
    ensures xs == ys
  {
    hide AllApart, Terminated;
    if dir == Forward {
      TerminatedForward(xs, ys);
    } else {
      TerminatedBackward(xs, ys);
    }
  }

  // ---------------------------------------------------------------- equal texts, equal parts

  lemma Somewhere(dir: Direction, t: string, u: string) returns (x: string)
    requires t == u
    ensures Context(dir, false, x) && Placed(dir, x, t) == Placed(dir, x, u)
  {
    x := if dir == Forward then "" else ":";
  }

  lemma ObjectReadsBack(dir: Direction, fs: seq<Field>, gs: seq<Field>)
    requires Legible(dir, Obj(fs)) && Legible(dir, Obj(gs)) && Text(Obj(fs)) == Text(Obj(gs))
    ensures ObjectParts(fs) == ObjectParts(gs)
  {
    ObjectIsWrapped(fs);
    ObjectIsWrapped(gs);
    hide Text, ObjectParts, Legible, Wrapped, Context, Placed, AllApart, AllMembers;
    MembersApart(dir, Obj(fs), Obj(gs));
    MemberParts(dir, fs);
    MemberParts(dir, gs);
    var x := Somewhere(dir, Text(Obj(fs)), Text(Obj(gs)));
    MembersReadBack(dir, ObjectParts(fs), ObjectParts(gs), x, x);
  }

  lemma ArrayReadsBack(dir: Direction, xs: seq<Json>, ys: seq<Json>)
    requires Legible(dir, Arr(xs)) && Legible(dir, Arr(ys)) && Text(Arr(xs)) == Text(Arr(ys))
    ensures ArrayParts(xs) == ArrayParts(ys)
  {
    hide Text, ArrayParts, Legible, Wrapped, Context, Placed, AllApart;
    ArrayIsWrapped(xs);
    ArrayIsWrapped(ys);
    ItemsApart(dir, Arr(xs), Arr(ys));
    ArrayNeverEmpty(xs);
    ArrayNeverEmpty(ys);
    var x := Somewhere(dir, Text(Arr(xs)), Text(Arr(ys)));
    WrappedReadsBack(dir, false, ArrayParts(xs), ArrayParts(ys), x, x);
  }
}
