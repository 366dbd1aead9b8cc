/** What the normalized text stands for: a reading of compact JSON back to the value, keys in order, and the cap in bytes. */
module NormalizedMeaning {
  import opened Options
  import opened Sorting
  import opened Decimals
  import opened JsonValues
  import opened JsonTexts
  import opened Normalizer

  // ---------------------------------------------------------------- the value of a text

  /** A quoted text that stands for the characters of `s`. */
  ghost predicate QuotesText(text: string, s: string) {
    exists xs :: ValidChunks(xs) && text == Quoted(xs) && Meaning(xs) == CodePoints(s)
  }

  /** Commas between any two neighbours. */
  function Listed(parts: seq<string>): string {
    if parts == [] then "" else if |parts| == 1 then parts[0] else
      var n := |parts| - 1;
      Listed(parts[..n]) + "," + parts[n]
  }

  /** `text` is compact JSON for `v`: literals, decimal integers, floats as given, lists and members in order. */
  ghost predicate Denotes(text: string, v: Json)
    decreases v
  {
    match v
    case Null => text == "null"
    case Bool(b) => text == if b then "true" else "false"
    case Int(n) =>
      exists digits :: digits != "" && (forall c | c in digits :: IsDigit(c)) && (digits[0] == '0' ==> digits == "0")
                       && NumberOf(digits) == (if n < 0 then -n else n) && text == if n < 0 then "-" + digits else digits
    case Float(repr) => text == repr
    case Str(s) => QuotesText(text, s)
    case Arr(items) =>
      exists parts: seq<string> :: |parts| == |items| && (forall i | 0 <= i < |items| :: Denotes(parts[i], items[i]))
                                   && text == "[" + Listed(parts) + "]"
    case Obj(fields) =>
      exists parts: seq<string> :: |parts| == |fields| && (forall i | 0 <= i < |fields| :: DenotesMember(parts[i], fields[i]))
                                   && text == "{" + Listed(parts) + "}"
  }

  /** `"key":value`. */
  ghost predicate DenotesMember(text: string, f: Field)
    decreases f
  {
    exists key, value :: QuotesText(key, f.key) && Denotes(value, f.value) && text == key + ":" + value
  }

  // ---------------------------------------------------------------- serialized texts denote their values

  predicate LowerHex(c: char) {
    IsDigit(c) || 'a' <= c <= 'f'
  }

  lemma HexIsLower(n: nat)
    requires n < 0x1_0000
    ensures forall c | c in Hex4(n) :: LowerHex(c)
  {
  }

  lemma OneText(x: Chunk)
    ensures ChunkTexts([x]) == ChunkText(x)
  {
    assert [x][1..] == [];
  }

  /** How each character is written: seven short escapes, printable ASCII as it is, else one or two `\\uxxxx`. */
  lemma CharacterTexts(c: char)
    ensures var t := ChunkTexts(Chunks(c));
            if c == '"' || c == '\\' then t == ['\\', c]
            else if c == '\n' then t == "\\n"
            else if c == '\r' then t == "\\r"
            else if c == '\t' then t == "\\t"
            else if c as int == 8 then t == "\\b"
            else if c as int == 12 then t == "\\f"
            else if 32 <= c as int < 127 then t == [c]
            else if c as int < 0x1_0000 then |t| == 6 && t[..2] == "\\u" && forall d | d in t[2..] :: LowerHex(d)
            else |t| == 12 && t[..2] == "\\u" && t[6..8] == "\\u" && forall d | d in t[2..6] + t[8..] :: LowerHex(d)
  {
    hide Hex4, LowerHex;
    var xs := Chunks(c);
    if |xs| == 1 {
      OneText(xs[0]);
      if xs[0].Unicode? {
        HexIsLower(c as int);
      }
    } else {
      var v := c as int - 0x1_0000;
      HexIsLower(0xD800 + v / 0x400);
      HexIsLower(0xDC00 + v % 0x400);
      OneText(xs[1]);
      assert xs[1..] == [xs[1]];
      var a, b := xs[0].hex, xs[1].hex;
      assert ChunkTexts(xs) == "\\u" + a + ("\\u" + b);
    }
  }

  lemma StringQuotes(s: string)
    ensures QuotesText(Quoted(StringChunks(s)), s)
  {
    hide Meaning, CodePoints, Quoted;
    StringsReadBack(s);
  }

  lemma IntDenotes(n: int)
    ensures Denotes(IntText(n), Int(n))
  {
    var m: nat := if n < 0 then -n else n;
    DecimalReadsBack(m);
    NoLeadingZero(m);
    hide NumberOf, Decimal;
    var digits := Decimal(m);
    assert digits != "" && NumberOf(digits) == m;
  }

  function ItemTexts(items: seq<Json>): (r: seq<string>)
    ensures |r| == |items| && forall i | 0 <= i < |items| :: r[i] == Serialize(items[i])
  {
    if items == [] then [] else [Serialize(items[0])] + ItemTexts(items[1..])
  }

  function MemberTexts(fields: seq<Field>): (r: seq<string>)
    ensures |r| == |fields|
    ensures forall i | 0 <= i < |fields| :: r[i] == Quoted(StringChunks(fields[i].key)) + ":" + Serialize(fields[i].value)
  {
    if fields == [] then [] else
      [Quoted(StringChunks(fields[0].key)) + ":" + Serialize(fields[0].value)] + MemberTexts(fields[1..])
  }

  lemma {:induction false} ListedFirst(parts: seq<string>)
    requires |parts| > 1
    ensures Listed(parts) == parts[0] + "," + Listed(parts[1..])
  {
    var n := |parts| - 1;
    if n > 1 {
      var rest := parts[1..];
      ListedFirst(parts[..n]);
      assert parts[..n][1..] == rest[..n - 1] && rest[n - 1] == parts[n];
      Regroup(parts[0] + ",", Listed(rest[..n - 1]), ",", parts[n]);
    } else {
      assert parts[..1] == [parts[0]] && parts[1..] == [parts[1]];
    }
  }

  lemma Regroup(a: string, b: string, c: string, d: string)
    ensures a + b + c + d == a + (b + c + d)
  {
  }

  lemma {:induction false} ItemsListed(items: seq<Json>)
    ensures SerializeItems(items) == Listed(ItemTexts(items))
  {
    hide Serialize;
    if |items| == 1 {
      assert ItemTexts(items) == [Serialize(items[0])];
    } else if |items| > 1 {
      ItemsListed(items[1..]);
      ListedFirst(ItemTexts(items));
      assert ItemTexts(items)[1..] == ItemTexts(items[1..]);
    }
  }

  lemma {:induction false} FieldsListed(fields: seq<Field>)
    ensures SerializeFields(fields) == Listed(MemberTexts(fields))
  {
    hide Serialize, Quoted, StringChunks;
    if |fields| == 1 {
      assert MemberTexts(fields) == [Quoted(StringChunks(fields[0].key)) + ":" + Serialize(fields[0].value)];
    } else if |fields| > 1 {
      FieldsListed(fields[1..]);
      ListedFirst(MemberTexts(fields));
      assert MemberTexts(fields)[1..] == MemberTexts(fields[1..]);
    }
  }

  lemma MemberDenotes(f: Field)
    requires Denotes(Serialize(f.value), f.value)
    ensures DenotesMember(Quoted(StringChunks(f.key)) + ":" + Serialize(f.value), f)
  {
    hide QuotesText, Denotes, Serialize, Quoted, StringChunks;
    StringQuotes(f.key);
  }

  /** Every serialized text denotes its value. */
  lemma {:induction false} SerializedDenotes(v: Json)
    ensures Denotes(Serialize(v), v)
  {
    hide SerializeItems, SerializeFields, QuotesText, DenotesMember, Quoted, StringChunks, IntText, Listed;
    match v
    case Arr(items) =>
      ItemsListed(items);
      forall i | 0 <= i < |items| ensures Denotes(ItemTexts(items)[i], items[i]) {
        SerializedDenotes(items[i]);
      }
    case Obj(fields) =>
      FieldsListed(fields);
      forall i | 0 <= i < |fields| ensures DenotesMember(MemberTexts(fields)[i], fields[i]) {
        SerializedDenotes(fields[i].value);
        MemberDenotes(fields[i]);
      }
    case Str(s) => StringQuotes(s);
    case Int(n) => IntDenotes(n);
    case _ =>
  }

  // ---------------------------------------------------------------- keys in order

  /** Every object, at any depth, has its keys in ascending order, each once. */
  ghost predicate InKeyOrder(v: Json) {
    match v
    case Arr(items) => forall x | x in items :: InKeyOrder(x)
    case Obj(fields) => KeysAscend(fields) && forall f | f in fields :: InKeyOrder(f.value)
    case _ => true
  }

  ghost predicate KeysAscend(fields: seq<Field>) {
    forall i, j | 0 <= i < j < |fields| :: fields[i].key != fields[j].key && Le(fields[i].key, fields[j].key)
  }

  lemma {:induction false} AscendingOrder(r: seq<string>, i: nat, j: nat)
    requires StrictlyAscending(r) && i < j < |r|
    ensures r[i] != r[j] && Le(r[i], r[j])
  {
    hide Le;
    assert r[1..][j - 1] == r[j] && r[j] in r[1..];
    if i > 0 {
      assert r[i] == r[1..][i - 1];
      AscendingOrder(r[1..], i - 1, j - 1);
    }
  }

  lemma ByKeyAscends(fields: seq<Field>)
    ensures KeysAscend(ByKey(fields))
  {
    hide Le, Sorted, StrictlyAscending, Keys;
    var ks := Sorted(Keys(fields));
    SortedAscending(Keys(fields));
    forall i, j | 0 <= i < j < |ks| ensures ks[i] != ks[j] && Le(ks[i], ks[j]) {
      AscendingOrder(ks, i, j);
    }
  }

  /** Sorting puts the keys in order at every depth. */
  lemma {:induction false} SortedInKeyOrder(v: Json)
    ensures InKeyOrder(SortKeys(v))
  {
    hide ByKey, KeysAscend;
    match v
    case Arr(items) =>
      forall i | 0 <= i < |items| ensures InKeyOrder(SortItems(items)[i]) {
        SortedInKeyOrder(items[i]);
      }
    case Obj(fields) =>
      var vs := SortValues(fields);
      ByKeyAscends(vs);
      forall f | f in ByKey(vs) ensures InKeyOrder(f.value) {
        assert Field(f.key, Get(vs, f.key)) in vs;
        var i :| 0 <= i < |vs| && vs[i] == Field(f.key, Get(vs, f.key));
        SortedInKeyOrder(fields[i].value);
      }
    case _ =>
  }

  // ---------------------------------------------------------------- the cap

  /**
    * The result in the caller's terms. Without a limit, or with limit 0, it is 262144. A body whose sorted text
    * fits comes back whole with its keys in order. Otherwise the text is cut, from the end for a negative limit,
    * and only a number may come back shortened; anything else is the marker with the full size.
    */
  lemma NormalizeMeans(body: Json, maxBytes: Option<int>)
    requires Floats(body)
    ensures var limit := if maxBytes == None || maxBytes == Some(0) then 262144 else maxBytes.value;
            var text := Serialize(SortKeys(body));
            var kept := if limit >= 0 then limit else if |text| + limit >= 0 then |text| + limit else 0;
            && Denotes(text, SortKeys(body)) && InKeyOrder(SortKeys(body)) && (WellFormed(body) ==> Reordered(body, SortKeys(body)))
            && (|text| <= limit ==> Normalize(body, maxBytes) == Whole(SortKeys(body)))
            && (|text| > limit ==>
                  && kept <= |text|
                  && Normalize(body, maxBytes) ==
                     if (body.Int? || body.Float?) && NumberText(text[..kept]) then Partial(text[..kept]) else Marker(|text|))
  {
    hide NumberText, Floats, SortKeys, Serialize, Normalize, Denotes, InKeyOrder, Reordered;
    NormalizeExact(body, maxBytes);
    SerializedDenotes(SortKeys(body));
    SortedInKeyOrder(body);
    if WellFormed(body) {
      SortKeysReorders(body);
    }
    assert Serialize(SortKeys(body))[..0] == "";
  }
}
