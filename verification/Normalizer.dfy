/** The size-capped, key-sorted copy of a response body: serialize, cut, and try to read the cut text. */
module Normalizer {
  import opened Options
  import opened Decimals
  import opened JsonValues
  import opened JsonTexts

  // ---------------------------------------------------------------- json.dumps, compact and ASCII

  function Hex(d: nat): (c: char)
    requires d < 16
    ensures IsHex(c)
  {
    if d < 10 then Digit(d) else 'a' + (d - 10) as char
  }

  function Hex4(n: nat): (s: string)
    requires n < 0x1_0000
    ensures |s| == 4 && forall c | c in s :: IsHex(c)
  {
    [Hex(n / 0x1000), Hex(n / 0x100 % 0x10), Hex(n / 0x10 % 0x10), Hex(n % 0x10)]
  }

  /** A character as `json.dumps` writes it: short escapes, `\uXXXX` outside printable ASCII, surrogate pairs above U+FFFF. */
  function Chunks(c: char): (xs: seq<Chunk>)
    ensures ValidChunks(xs)
  {
    if c == '"' then [Escape('"')]
    else if c == '\\' then [Escape('\\')]
    else if c == '\n' then [Escape('n')]
    else if c == '\r' then [Escape('r')]
    else if c == '\t' then [Escape('t')]
    else if c as int == 0x0C then [Escape('f')]
    else if c as int == 0x08 then [Escape('b')]
    else if ' ' <= c <= '~' then [Plain(c)]
    else if c as int < 0x1_0000 then [Unicode(Hex4(c as int))]
    else
      var v := c as int - 0x1_0000;
      [Unicode(Hex4(0xD800 + v / 0x400)), Unicode(Hex4(0xDC00 + v % 0x400))]
  }

  function StringChunks(s: string): (xs: seq<Chunk>)
    ensures ValidChunks(xs)
  {
    if s == "" then [] else Chunks(s[0]) + StringChunks(s[1..])
  }

  function IntText(n: int): string {
    if n < 0 then "-" + Decimal(-n) else Decimal(n)
  }

  /** `json.dumps(v, separators=(",", ":"))`. */
  function Serialize(v: Json): string {
    match v
    case Null => "null"
    case Bool(b) => if b then "true" else "false"
    case Int(n) => IntText(n)
    case Float(repr) => repr
    case Str(s) => Quoted(StringChunks(s))
    case Arr(items) => "[" + SerializeItems(items) + "]"
    case Obj(fields) => "{" + SerializeFields(fields) + "}"
  }

  function SerializeItems(items: seq<Json>): string {
    if items == [] then "" else if |items| == 1 then Serialize(items[0])
    else Serialize(items[0]) + "," + SerializeItems(items[1..])
  }

  function SerializeFields(fields: seq<Field>): string {
    if fields == [] then "" else
      var first := Quoted(StringChunks(fields[0].key)) + ":" + Serialize(fields[0].value);
      if |fields| == 1 then first else first + "," + SerializeFields(fields[1..])
  }

  // ---------------------------------------------------------------- normalize

  const RAW_BODY_MAX_BYTES: int := 262144

  /** `max_bytes or settings.raw_body_max_bytes`. */
  function Cap(maxBytes: Option<int>): int {
    match maxBytes
    case None => RAW_BODY_MAX_BYTES
    case Some(n) => if n == 0 then RAW_BODY_MAX_BYTES else n
  }

  /** `text[:cap]`, counted from the end when the cap is negative; the text is ASCII, so bytes are characters. */
  function Cut(text: string, cap: int): string {
    if cap >= 0 then (if cap <= |text| then text[..cap] else text)
    else if |text| + cap >= 0 then text[..|text| + cap] else ""
  }

  /** The key-sorted body, what reading the cut text gave, or the truncation marker with the full size. */
  datatype Normalized = Whole(body: Json) | Partial(text: string) | Marker(size: nat)

  /** `normalize`. */
  ghost function Normalize(body: Json, maxBytes: Option<int>): Normalized {
    var sorted := SortKeys(body);
    var text := Serialize(sorted);
    var cap := Cap(maxBytes);
    if |text| <= cap then Whole(sorted)
    else if IsJson(Cut(text, cap)) then Partial(Cut(text, cap))
    else Marker(|text|)
  }

  // ---------------------------------------------------------------- what is serialized is a JSON text

  /** Every float carries a number text. */
  ghost predicate Floats(v: Json) {
    match v
    case Float(repr) => NumberText(repr)
    case Arr(items) => forall x | x in items :: Floats(x)
    case Obj(fields) => forall f | f in fields :: Floats(f.value)
    case _ => true
  }

  function TreeOf(v: Json): Tree {
    match v
    case Str(s) => Text(StringChunks(s))
    case Arr(items) => if items == [] then EmptyArray("") else Array(ItemTrees(items))
    case Obj(fields) => if fields == [] then EmptyObject("") else Object(MemberTrees(fields))
    case _ => Word(Serialize(v))
  }

  function ItemTrees(items: seq<Json>): (r: seq<Padded>)
    ensures |r| == |items| && forall i | 0 <= i < |items| :: r[i] == Padded("", TreeOf(items[i]), "")
  {
    if items == [] then [] else [Padded("", TreeOf(items[0]), "")] + ItemTrees(items[1..])
  }

  function MemberTrees(fields: seq<Field>): (r: seq<Member>)
    ensures |r| == |fields|
    ensures forall i | 0 <= i < |fields| ::
      r[i] == Member("", StringChunks(fields[i].key), "", Padded("", TreeOf(fields[i].value), ""))
  {
    if fields == [] then [] else
      [Member("", StringChunks(fields[0].key), "", Padded("", TreeOf(fields[0].value), ""))] + MemberTrees(fields[1..])
  }

  lemma DecimalIsInt(n: nat)
    ensures IntPart(Decimal(n))
  {
    NoLeadingZero(n);
  }

  lemma SignedIsNumber(sign: string, digits: string)
    requires (sign == "" || sign == "-") && IntPart(digits)
    ensures NumberText(sign + digits)
  {
    var s := sign + digits;
    assert s == sign + digits + "" + "";
    assert NumberParts(s, sign, digits, "", "");
  }

  lemma IntIsNumber(n: int)
    ensures NumberText(IntText(n))
  {
    hide NumberText, IntPart;
    if n < 0 {
      DecimalIsInt(-n);
      SignedIsNumber("-", Decimal(-n));
    } else {
      DecimalIsInt(n);
      SignedIsNumber("", Decimal(n));
      assert "" + Decimal(n) == Decimal(n);
    }
  }

  /** The text of a value is the rendering of its derivation, which is a valid one. */
  lemma {:induction false} SerializeIsTree(v: Json)
    requires Floats(v)
    ensures ValidTree(TreeOf(v)) && Render(TreeOf(v)) == Serialize(v)
  {
    hide WordText, Spaces, ValidChunks, Quoted, ValidPadded, ValidMember;
    NoSpace();
    match v
    case Arr(items) => ItemsAreTrees(items);
    case Obj(fields) => FieldsAreTrees(fields);
    case Int(n) =>
      IntIsNumber(n);
      NumberIsWord(IntText(n));
    case Float(repr) => NumberIsWord(repr);
    case Null => ConstantWords();
    case Bool(_) => ConstantWords();
    case Str(_) =>
  }

  lemma NoSpace()
    ensures Spaces("")
  {
  }

  lemma ConstantWords()
    ensures WordText("null") && WordText("true") && WordText("false")
  {
  }

  lemma NumberIsWord(s: string)
    requires NumberText(s)
    ensures WordText(s)
  {
  }

  lemma {:induction false} ItemsAreTrees(items: seq<Json>)
    requires forall x | x in items :: Floats(x)
    ensures RenderItems(ItemTrees(items)) == SerializeItems(items)
    ensures forall x | x in ItemTrees(items) :: ValidPadded(x)
  {
    hide ValidTree, Floats, TreeOf, Render, Serialize, Spaces;
    if items != [] {
      var r := ItemTrees(items);
      NoSpace();
      SerializeIsTree(items[0]);
      ItemsAreTrees(items[1..]);
      assert r[1..] == ItemTrees(items[1..]);
    }
  }

  lemma PlainMember(key: seq<Chunk>, t: Tree)
    ensures RenderMember(Member("", key, "", Padded("", t, ""))) == Quoted(key) + ":" + Render(t)
  {
    hide Render, Quoted;
    assert "" + Quoted(key) + "" == Quoted(key);
  }

  lemma {:induction false} FieldsAreTrees(fields: seq<Field>)
    requires forall f | f in fields :: Floats(f.value)
    ensures RenderMembers(MemberTrees(fields)) == SerializeFields(fields)
    ensures forall m | m in MemberTrees(fields) :: ValidMember(m)
  {
    hide ValidTree, Floats, TreeOf, Render, Serialize, Quoted, StringChunks, Spaces;
    if fields != [] {
      var r := MemberTrees(fields);
      NoSpace();
      SerializeIsTree(fields[0].value);
      PlainMember(StringChunks(fields[0].key), TreeOf(fields[0].value));
      FieldsAreTrees(fields[1..]);
      assert r[1..] == MemberTrees(fields[1..]);
    }
  }

  /** What the serializer writes, the reader accepts. */
  lemma SerializedIsJson(v: Json)
    requires Floats(v)
    ensures IsJson(Serialize(v))
  {
    hide ValidTree, Render, TreeOf, Serialize, Floats;
    SerializeIsTree(v);
    var p := Padded("", TreeOf(v), "");
    assert ValidPadded(p) && RenderPadded(p) == Serialize(v);
  }

  /** No proper prefix of a serialized object, array or string is a JSON text. */
  lemma NoPrefixIsJson(v: Json, k: nat)
    requires Floats(v) && (v.Obj? || v.Arr? || v.Str?) && k < |Serialize(v)|
    ensures !IsJson(Serialize(v)[..k])
  {
    hide IsJson, ValidTree, Render, Serialize, Floats;
    SerializeIsTree(v);
    NoJsonPrefix(TreeOf(v), k);
  }

  // ---------------------------------------------------------------- scalars that are not strings

  lemma WordUnspaced(s: string)
    requires WordText(s)
    ensures Unspaced(s)
  {
    WordBare(s);
    hide WordText;
  }

  lemma PrefixUnspaced(s: string, k: nat)
    requires Unspaced(s) && k <= |s|
    ensures Unspaced(s[..k])
  {
    forall c | c in s[..k] ensures Bare(c) && !IsSpace(c) {
      assert c in s;
    }
  }

  lemma NotNumber(s: string)
    requires s != "" && !IsDigit(s[0]) && s[0] != '-' && s[0] != 'N' && s[0] != 'I'
    ensures !NumberText(s)
  {
    hide NumberText, NumberChar;
    if NumberText(s) {
      NumberChars(s);
    }
  }

  lemma EmptyIsNoWord()
    ensures !WordText("")
  {
    hide NumberText;
    if NumberText("") {
      NumberChars("");
    }
  }

  /** No proper prefix of `null`, `true` or `false` is a JSON text. */
  lemma ConstantPrefix(word: string, k: nat)
    requires (word == "null" || word == "true" || word == "false") && k < |word|
    ensures !IsJson(word[..k])
  {
    hide IsJson, NumberText;
    ConstantWords();
    WordUnspaced(word);
    PrefixUnspaced(word, k);
    PlainTextIsWord(word[..k]);
    if k == 0 {
      EmptyIsNoWord();
    } else {
      assert word[..k][0] == word[0];
      NotNumber(word[..k]);
      assert word[..k] != "null" && word[..k] != "true" && word[..k] != "false";
    }
  }

  predicate IsNumber(v: Json) {
    v.Int? || v.Float?
  }

  lemma NumberStart(s: string)
    requires NumberText(s)
    ensures s != "" && (IsDigit(s[0]) || s[0] in "-NI") && Unspaced(s)
  {
    NumberChars(s);
    NumberIsWord(s);
    WordUnspaced(s);
    hide NumberText;
  }

  /** A prefix of a number text is a JSON text exactly when it is a number text itself. */
  lemma NumberPrefix(s: string, k: nat)
    requires NumberText(s) && k <= |s|
    ensures IsJson(s[..k]) <==> NumberText(s[..k])
  {
    hide IsJson, NumberText, Unspaced;
    NumberStart(s);
    PrefixUnspaced(s, k);
    PlainTextIsWord(s[..k]);
    if k == 0 {
      assert s[..k] == "";
      EmptyIsNoWord();
    } else {
      assert s[..k][0] == s[0];
    }
  }

  // ---------------------------------------------------------------- the exact result

  lemma CutIsPrefix(text: string, cap: int) returns (k: nat)
    requires |text| > cap
    ensures (k < |text| || text == "") && k <= |text| && Cut(text, cap) == text[..k]
  {
    k := if cap >= 0 then cap else if |text| + cap >= 0 then |text| + cap else 0;
    assert text[..0] == "";
  }

  lemma {:induction false} SortKeepsFloats(v: Json)
    requires Floats(v)
    ensures Floats(SortKeys(v))
  {
    match v
    case Arr(items) =>
      forall i | 0 <= i < |items| ensures Floats(SortItems(items)[i]) {
        assert items[i] in items;
        SortKeepsFloats(items[i]);
      }
    case Obj(fields) =>
      var vs := SortValues(fields);
      forall f | f in ByKey(vs) ensures Floats(f.value) {
        assert Field(f.key, Get(vs, f.key)) in vs;
        var i :| 0 <= i < |vs| && vs[i] == Field(f.key, Get(vs, f.key));
        assert fields[i] in fields;
        SortKeepsFloats(fields[i].value);
      }
    case _ =>
  }

  lemma SortKeepsKind(v: Json)
    ensures SortKeys(v).Obj? == v.Obj? && SortKeys(v).Arr? == v.Arr? && (v.IsScalar() ==> SortKeys(v) == v)
  {
    hide ByKey;
  }

  /** Cutting anything but a number leaves nothing that can be read. */
  lemma CutUnreadable(v: Json, k: nat)
    requires Floats(v) && !IsNumber(v) && k < |Serialize(v)|
    ensures !IsJson(Serialize(v)[..k])
  {
    hide IsJson, Floats;
    if v.Obj? || v.Arr? || v.Str? {
      hide Serialize;
      NoPrefixIsJson(v, k);
    } else {
      ConstantPrefix(Serialize(v), k);
    }
  }

  lemma {:induction false} SerializedNonEmpty(v: Json)
    requires Floats(v)
    ensures Serialize(v) != ""
  {
    hide IsJson, Serialize, Floats, Run;
    SerializedIsJson(v);
    JsonTextCloses(Serialize(v));
  }

  /**
    * What `normalize` returns: the key-sorted body when its text fits; otherwise a shortened number if the body
    * is a number and the cut happens to be one; otherwise exactly the truncation marker.
    */
  lemma NormalizeExact(body: Json, maxBytes: Option<int>)
    requires Floats(body)
    ensures var text, cap := Serialize(SortKeys(body)), Cap(maxBytes);
            Normalize(body, maxBytes) ==
            if |text| <= cap then Whole(SortKeys(body))
            else if IsNumber(body) && NumberText(Cut(text, cap)) then Partial(Cut(text, cap))
            else Marker(|text|)
  {
    hide IsJson, NumberText, Floats, SortKeys, Cut, Cap, Serialize;
    var v := SortKeys(body);
    var text, cap := Serialize(v), Cap(maxBytes);
    SortKeepsFloats(body);
    SortKeepsKind(body);
    if |text| > cap {
      var k := CutIsPrefix(text, cap);
      SerializedNonEmpty(v);
      if IsNumber(body) {
        NumberSerialized(v);
        NumberPrefix(text, k);
      } else {
        CutUnreadable(v, k);
      }
    }
  }

  lemma NumberSerialized(v: Json)
    requires Floats(v) && IsNumber(v)
    ensures NumberText(Serialize(v))
  {
    hide NumberText;
    if v.Int? {
      IntIsNumber(v.n);
    }
  }

  /** For objects and arrays: the whole body or the marker, never a part. */
  lemma ContainersNeverPartial(body: Json, maxBytes: Option<int>)
    requires Floats(body) && (body.Obj? || body.Arr?)
    ensures var text := Serialize(SortKeys(body));
            Normalize(body, maxBytes) == if |text| <= Cap(maxBytes) then Whole(SortKeys(body)) else Marker(|text|)
  {
    hide NumberText, Floats, SortKeys, Cut, Cap, Serialize, Normalize;
    NormalizeExact(body, maxBytes);
  }

  // ---------------------------------------------------------------- cut integers

  lemma DigitsAreInt(s: string, k: nat)
    requires IntPart(s) && 0 < k <= |s|
    ensures IntPart(s[..k])
  {
    if s == "0" {
      assert s[..k] == s;
    } else {
      forall c | c in s[..k] ensures IsDigit(c) {
        assert c in s;
      }
    }
  }

  lemma NumberHasDigit(s: string)
    requires NumberText(s)
    ensures s == "NaN" || s == "Infinity" || s == "-Infinity" || exists c :: c in s && IsDigit(c)
  {
    if s != "NaN" && s != "Infinity" && s != "-Infinity" {
      var sign, int_, fraction, exponent :| NumberParts(s, sign, int_, fraction, exponent);
      assert int_[0] in int_ && int_[0] in s;
    }
  }

  lemma MinusIsNoNumber()
    ensures !NumberText("-") && !NumberText("")
  {
    hide NumberText;
    EmptyIsNoWord();
    if NumberText("-") {
      NumberHasDigit("-");
    }
  }

  /** A cut integer is always read as a shorter integer, unless nothing or only its sign is left. */
  lemma CutIntegers(n: int, k: nat)
    requires k < |IntText(n)|
    ensures NumberText(IntText(n)[..k]) <==> k > if n < 0 then 1 else 0
  {
    hide NumberText, IntPart;
    var text := IntText(n);
    if n < 0 {
      DecimalIsInt(-n);
      if k > 1 {
        DigitsAreInt(Decimal(-n), k - 1);
        SignedIsNumber("-", Decimal(-n)[..k - 1]);
        assert text[..k] == "-" + Decimal(-n)[..k - 1];
      } else {
        MinusIsNoNumber();
        assert text[..0] == "" && text[..1] == "-";
      }
    } else {
      DecimalIsInt(n);
      if k > 0 {
        DigitsAreInt(Decimal(n), k);
        SignedIsNumber("", Decimal(n)[..k]);
        assert text[..k] == "" + Decimal(n)[..k];
      } else {
        MinusIsNoNumber();
        assert text[..0] == "";
      }
    }
  }

  // ---------------------------------------------------------------- strings read back

  function HexValue(c: char): (d: nat)
    requires IsHex(c)
    ensures d < 16
  {
    if IsDigit(c) then c as int - '0' as int
    else if 'a' <= c <= 'f' then c as int - 'a' as int + 10
    else c as int - 'A' as int + 10
  }

  function UnitOf(hex: string): nat
    requires |hex| == 4 && forall c | c in hex :: IsHex(c)
  {
    assert hex[0] in hex && hex[1] in hex && hex[2] in hex && hex[3] in hex;
    HexValue(hex[0]) * 0x1000 + HexValue(hex[1]) * 0x100 + HexValue(hex[2]) * 0x10 + HexValue(hex[3])
  }

  /** The code point of a chunk on its own, by section 7 of RFC 8259. */
  function ChunkValue(x: Chunk): nat
    requires ValidChunk(x)
  {
    match x
    case Plain(c) => c as int
    case Escape(c) =>
      if c == 'n' then 10 else if c == 'r' then 13 else if c == 't' then 9
      else if c == 'f' then 12 else if c == 'b' then 8 else c as int
    case Unicode(hex) => UnitOf(hex)
  }

  predicate SurrogatePair(x: Chunk, y: Chunk)
    requires ValidChunk(x) && ValidChunk(y)
  {
    x.Unicode? && y.Unicode? && 0xD800 <= ChunkValue(x) < 0xDC00 && 0xDC00 <= ChunkValue(y) < 0xE000
  }

  /** The code points a quoted text stands for; a surrogate pair stands for one. */
  function Meaning(xs: seq<Chunk>): seq<nat>
    requires ValidChunks(xs)
    decreases |xs|
  {
    if xs == [] then []
    else if |xs| > 1 && SurrogatePair(xs[0], xs[1]) then
      [0x1_0000 + (ChunkValue(xs[0]) - 0xD800) * 0x400 + (ChunkValue(xs[1]) - 0xDC00)] + Meaning(xs[2..])
    else [ChunkValue(xs[0])] + Meaning(xs[1..])
  }

  function CodePoints(s: string): (r: seq<nat>)
    ensures |r| == |s| && forall i | 0 <= i < |s| :: r[i] == s[i] as int
  {
    seq(|s|, i requires 0 <= i < |s| => s[i] as int)
  }

  lemma HexReads(d: nat)
    requires d < 16
    ensures HexValue(Hex(d)) == d
  {
  }

  lemma Digits4(n: nat)
    requires n < 0x1_0000
    ensures n / 0x1000 * 0x1000 + n / 0x100 % 0x10 * 0x100 + n / 0x10 % 0x10 * 0x10 + n % 0x10 == n
  {
    assert n / 0x10 / 0x10 == n / 0x100 && n / 0x100 / 0x10 == n / 0x1000;
  }

  lemma Hex4Reads(n: nat)
    requires n < 0x1_0000
    ensures UnitOf(Hex4(n)) == n
  {
    HexReads(n / 0x1000);
    HexReads(n / 0x100 % 0x10);
    HexReads(n / 0x10 % 0x10);
    HexReads(n % 0x10);
    Digits4(n);
  }

  /** One character's chunks stand for it, whatever valid chunks follow. */
  lemma CharacterReads(c: char, rest: seq<Chunk>)
    requires ValidChunks(rest)
    ensures ValidChunks(Chunks(c) + rest) && Meaning(Chunks(c) + rest) == [c as int] + Meaning(rest)
  {
    hide UnitOf, Hex4, Meaning;
    var xs := Chunks(c) + rest;
    if |Chunks(c)| == 1 {
      SingleReads(c);
      MeaningOne(xs);
      assert xs[1..] == rest;
    } else {
      var v := c as int - 0x1_0000;
      Hex4Reads(0xD800 + v / 0x400);
      Hex4Reads(0xDC00 + v % 0x400);
      MeaningTwo(xs);
      assert xs[2..] == rest;
    }
  }

  lemma SingleReads(c: char)
    requires |Chunks(c)| == 1
    ensures ChunkValue(Chunks(c)[0]) == c as int
    ensures !(0xD800 <= ChunkValue(Chunks(c)[0]) < 0xE000)
  {
    hide UnitOf, Hex4;
    if c as int < 0x1_0000 {
      Hex4Reads(c as int);
    }
  }

  lemma MeaningOne(xs: seq<Chunk>)
    requires ValidChunks(xs) && xs != [] && !(0xD800 <= ChunkValue(xs[0]) < 0xE000)
    ensures Meaning(xs) == [ChunkValue(xs[0])] + Meaning(xs[1..])
  {
    hide ChunkValue;
  }

  lemma MeaningTwo(xs: seq<Chunk>)
    requires ValidChunks(xs) && |xs| > 1 && SurrogatePair(xs[0], xs[1])
    ensures Meaning(xs) == [0x1_0000 + (ChunkValue(xs[0]) - 0xD800) * 0x400 + (ChunkValue(xs[1]) - 0xDC00)] + Meaning(xs[2..])
  {
    hide ChunkValue;
  }

  /** Every string reads back from its escaped form, character for character. */
  lemma {:induction false} StringsReadBack(s: string)
    ensures Meaning(StringChunks(s)) == CodePoints(s)
  {
    hide Chunks, CodePoints;
    if s == "" {
      assert CodePoints(s) == [];
    } else {
      StringsReadBack(s[1..]);
      CharacterReads(s[0], StringChunks(s[1..]));
      assert CodePoints(s) == [s[0] as int] + CodePoints(s[1..]);
    }
  }
}
