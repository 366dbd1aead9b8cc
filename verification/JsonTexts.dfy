/** JSON texts as a grammar, and the bracket-and-quote scan that every one of them closes. */
module JsonTexts {
  import opened Decimals

  // ---------------------------------------------------------------- tokens

  predicate IsSpace(c: char) {
    c == ' ' || c == '\t' || c == '\n' || c == '\r'
  }

  predicate Spaces(s: string) {
    forall c | c in s :: IsSpace(c)
  }

  predicate Digits(s: string) {
    s != "" && forall c | c in s :: IsDigit(c)
  }

  predicate IntPart(s: string) {
    s == "0" || (Digits(s) && s[0] != '0')
  }

  predicate Fraction(s: string) {
    s == "" || (s[0] == '.' && Digits(s[1..]))
  }

  predicate Exponent(s: string) {
    s == "" || ((s[0] == 'e' || s[0] == 'E')
                && (Digits(s[1..]) || (|s| > 1 && (s[1] == '+' || s[1] == '-') && Digits(s[2..]))))
  }

  predicate NumberParts(s: string, sign: string, int_: string, fraction: string, exponent: string) {
    s == sign + int_ + fraction + exponent && (sign == "" || sign == "-") && IntPart(int_) && Fraction(fraction) && Exponent(exponent)
  }

  /** A number of section 6 of RFC 8259, or one of the three words Python's reader adds. */
  ghost predicate NumberText(s: string) {
    s == "NaN" || s == "Infinity" || s == "-Infinity"
    || exists sign, int_, fraction, exponent :: NumberParts(s, sign, int_, fraction, exponent)
  }

  ghost predicate WordText(s: string) {
    s == "null" || s == "true" || s == "false" || NumberText(s)
  }

  /** One character of a string: itself, a short escape, or `\uXXXX`. */
  datatype Chunk = Plain(c: char) | Escape(c: char) | Unicode(hex: string)

  predicate IsHex(c: char) {
    IsDigit(c) || 'a' <= c <= 'f' || 'A' <= c <= 'F'
  }

  predicate ValidChunk(x: Chunk) {
    match x
    case Plain(c) => c != '"' && c != '\\' && c >= ' '
    case Escape(c) => c in "\"\\/bfnrt"
    case Unicode(hex) => |hex| == 4 && forall c | c in hex :: IsHex(c)
  }

  function ChunkText(x: Chunk): string {
    match x
    case Plain(c) => [c]
    case Escape(c) => ['\\', c]
    case Unicode(hex) => "\\u" + hex
  }

  function ChunkTexts(xs: seq<Chunk>): string {
    if xs == [] then "" else ChunkText(xs[0]) + ChunkTexts(xs[1..])
  }

  function Quoted(xs: seq<Chunk>): string {
    "\"" + ChunkTexts(xs) + "\""
  }

  predicate ValidChunks(xs: seq<Chunk>) {
    forall x | x in xs :: ValidChunk(x)
  }

  // ---------------------------------------------------------------- the grammar

  datatype Padded = Padded(before: string, tree: Tree, after: string)

  datatype Member = Member(before: string, key: seq<Chunk>, after: string, value: Padded)

  /** A derivation of sections 2 to 7 of RFC 8259, with its whitespace. */
  datatype Tree =
    | Word(text: string)
    | Text(chunks: seq<Chunk>)
    | EmptyArray(space: string)
    | Array(items: seq<Padded>)
    | EmptyObject(space: string)
    | Object(members: seq<Member>)

  ghost predicate ValidTree(t: Tree) {
    match t
    case Word(text) => WordText(text)
    case Text(chunks) => ValidChunks(chunks)
    case EmptyArray(space) => Spaces(space)
    case Array(items) => items != [] && forall x | x in items :: ValidPadded(x)
    case EmptyObject(space) => Spaces(space)
    case Object(members) => members != [] && forall m | m in members :: ValidMember(m)
  }

  ghost predicate ValidPadded(p: Padded) {
    Spaces(p.before) && Spaces(p.after) && ValidTree(p.tree)
  }

  ghost predicate ValidMember(m: Member) {
    Spaces(m.before) && Spaces(m.after) && ValidChunks(m.key) && ValidPadded(m.value)
  }

  function Render(t: Tree): string {
    match t
    case Word(text) => text
    case Text(chunks) => Quoted(chunks)
    case EmptyArray(space) => "[" + space + "]"
    case Array(items) => "[" + RenderItems(items) + "]"
    case EmptyObject(space) => "{" + space + "}"
    case Object(members) => "{" + RenderMembers(members) + "}"
  }

  function RenderPadded(p: Padded): string {
    p.before + Render(p.tree) + p.after
  }

  function RenderMember(m: Member): string {
    m.before + Quoted(m.key) + m.after + ":" + RenderPadded(m.value)
  }

  function RenderItems(items: seq<Padded>): string {
    if items == [] then "" else if |items| == 1 then RenderPadded(items[0])
    else RenderPadded(items[0]) + "," + RenderItems(items[1..])
  }

  function RenderMembers(members: seq<Member>): string {
    if members == [] then "" else if |members| == 1 then RenderMember(members[0])
    else RenderMember(members[0]) + "," + RenderMembers(members[1..])
  }

  /** What `json.loads` accepts: a value between optional whitespace. */
  ghost predicate IsJson(s: string) {
    exists p :: ValidPadded(p) && RenderPadded(p) == s
  }

  // ---------------------------------------------------------------- the scan

  /** Bracket depth, inside a string, after a backslash. */
  datatype Scan = Scan(depth: int, quoted: bool, escaped: bool)

  function Feed(st: Scan, c: char): Scan {
    if st.escaped then st.(escaped := false)
    else if st.quoted then
      if c == '\\' then st.(escaped := true) else if c == '"' then st.(quoted := false) else st
    else if c == '"' then st.(quoted := true)
    else if c == '{' || c == '[' then st.(depth := st.depth + 1)
    else if c == '}' || c == ']' then st.(depth := st.depth - 1)
    else st
  }

  function Run(st: Scan, s: string): Scan
    decreases |s|
  {
    if s == "" then st else Run(Feed(st, s[0]), s[1..])
  }

  function Outside(depth: int): Scan {
    Scan(depth, false, false)
  }

  lemma {:induction false} RunConcat(st: Scan, a: string, b: string)
    ensures Run(st, a + b) == Run(Run(st, a), b)
    decreases |a|
  {
    hide Feed;
    if a == "" {
      assert a + b == b;
    } else {
      assert (a + b)[1..] == a[1..] + b;
      RunConcat(Feed(st, a[0]), a[1..], b);
    }
  }

  /** A text that starts and ends outside strings at one depth, and never goes below it. */
  ghost predicate Closed(t: string) {
    forall d: int :: Run(Outside(d), t) == Outside(d) && Above(t, d)
  }

  ghost predicate Above(t: string, d: int) {
    forall k | 0 <= k <= |t| :: Run(Outside(d), t[..k]).depth >= d
  }

  lemma AboveConcat(a: string, b: string, d: int)
    requires Run(Outside(d), a) == Outside(d) && Above(a, d) && Above(b, d)
    ensures Above(a + b, d)
  {
    hide Run, Feed;
    forall k | 0 <= k <= |a + b| ensures Run(Outside(d), (a + b)[..k]).depth >= d {
      if k <= |a| {
        assert (a + b)[..k] == a[..k];
      } else {
        assert (a + b)[..k] == a + b[..k - |a|];
        RunConcat(Outside(d), a, b[..k - |a|]);
      }
    }
  }

  lemma ClosedConcat(a: string, b: string)
    requires Closed(a) && Closed(b)
    ensures Closed(a + b)
  {
    hide Run, Feed, Above;
    forall d: int ensures Run(Outside(d), a + b) == Outside(d) && Above(a + b, d) {
      RunConcat(Outside(d), a, b);
      AboveConcat(a, b, d);
    }
  }

  predicate Bare(c: char) {
    c != '"' && c != '{' && c != '[' && c != '}' && c != ']'
  }

  predicate BareText(t: string) {
    forall c | c in t :: Bare(c)
  }

  lemma {:induction false} BareRun(t: string, d: int)
    requires BareText(t)
    ensures Run(Outside(d), t) == Outside(d)
  {
    if t != "" {
      assert t[0] in t;
      BareRun(t[1..], d);
    }
  }

  lemma BareClosed(t: string)
    requires BareText(t)
    ensures Closed(t)
  {
    hide Run, Feed;
    forall d: int ensures Run(Outside(d), t) == Outside(d) && Above(t, d) {
      BareRun(t, d);
      forall k | 0 <= k <= |t| ensures Run(Outside(d), t[..k]).depth >= d {
        BareRun(t[..k], d);
      }
    }
  }

  // ---------------------------------------------------------------- strings

  ghost predicate StaysQuoted(t: string, d: int) {
    Run(Scan(d, true, false), t) == Scan(d, true, false)
    && forall k | 0 <= k <= |t| :: Run(Scan(d, true, false), t[..k]).quoted && Run(Scan(d, true, false), t[..k]).depth == d
  }

  lemma HexPlain(hex: string)
    requires forall c | c in hex :: IsHex(c)
    ensures Unquoting(hex)
  {
    forall i | 0 <= i < |hex| ensures hex[i] != '"' && hex[i] != '\\' {
      assert hex[i] in hex;
    }
  }

  lemma ChunkStays(x: Chunk, d: int)
    requires ValidChunk(x)
    ensures StaysQuoted(ChunkText(x), d)
  {
    match x
    case Plain(c) =>
      PlainStays([c], d);
    case Escape(c) =>
      EscapeStays(c, d);
    case Unicode(hex) =>
      assert "\\u" + hex == ['\\', 'u'] + hex;
      EscapeStays('u', d);
      HexPlain(hex);
      PlainStays(hex, d);
      StaysConcat(['\\', 'u'], hex, d);
  }

  lemma EscapeStays(c: char, d: int)
    ensures StaysQuoted(['\\', c], d)
  {
    var t, st := ['\\', c], Scan(d, true, false);
    RunConcat(st, ['\\'], [c]);
    assert t == ['\\'] + [c];
    assert t[..0] == "" && t[..1] == ['\\'] && t[..2] == t;
  }

  predicate Unquoting(t: string) {
    forall i | 0 <= i < |t| :: t[i] != '"' && t[i] != '\\'
  }

  lemma {:induction false} PlainRun(t: string, d: int)
    requires Unquoting(t)
    ensures Run(Scan(d, true, false), t) == Scan(d, true, false)
  {
    if t != "" {
      PlainRun(t[1..], d);
    }
  }

  lemma PlainStays(t: string, d: int)
    requires Unquoting(t)
    ensures StaysQuoted(t, d)
  {
    hide Run;
    PlainRun(t, d);
    forall k | 0 <= k <= |t| ensures Run(Scan(d, true, false), t[..k]) == Scan(d, true, false) {
      PlainRun(t[..k], d);
    }
  }

  lemma StaysConcat(a: string, b: string, d: int)
    requires StaysQuoted(a, d) && StaysQuoted(b, d)
    ensures StaysQuoted(a + b, d)
  {
    hide Run, Feed;
    var st := Scan(d, true, false);
    RunConcat(st, a, b);
    forall k | 0 <= k <= |a + b| ensures Run(st, (a + b)[..k]).quoted && Run(st, (a + b)[..k]).depth == d {
      if k <= |a| {
        assert (a + b)[..k] == a[..k];
      } else {
        assert (a + b)[..k] == a + b[..k - |a|];
        RunConcat(st, a, b[..k - |a|]);
      }
    }
  }

  lemma {:induction false} ChunksStay(xs: seq<Chunk>, d: int)
    requires ValidChunks(xs)
    ensures StaysQuoted(ChunkTexts(xs), d)
  {
    hide Run, StaysQuoted, ValidChunk, ChunkText;
    if xs == [] {
      PlainStays("", d);
    } else {
      ChunkStays(xs[0], d);
      ChunksStay(xs[1..], d);
      StaysConcat(ChunkText(xs[0]), ChunkTexts(xs[1..]), d);
    }
  }

  lemma QuoteOpens(d: int)
    ensures Run(Outside(d), "\"") == Scan(d, true, false) && Run(Scan(d, true, false), "\"") == Outside(d)
  {
    assert "\""[1..] == "";
  }

  /** Every proper nonempty prefix of a quoted text is inside it. */
  lemma QuotedPrefix(xs: seq<Chunk>, d: int, k: nat)
    requires ValidChunks(xs) && 0 < k < |Quoted(xs)|
    ensures Run(Outside(d), Quoted(xs)[..k]).quoted && Run(Outside(d), Quoted(xs)[..k]).depth == d
  {
    hide Run, Feed, ChunkTexts;
    var body := ChunkTexts(xs);
    ChunksStay(xs, d);
    assert Quoted(xs)[..k] == "\"" + body[..k - 1];
    RunConcat(Outside(d), "\"", body[..k - 1]);
    QuoteOpens(d);
  }

  lemma QuotedRun(xs: seq<Chunk>, d: int)
    requires ValidChunks(xs)
    ensures Run(Outside(d), Quoted(xs)) == Outside(d)
  {
    hide Run, Feed, ChunkTexts;
    var body := ChunkTexts(xs);
    ChunksStay(xs, d);
    RunConcat(Outside(d), "\"" + body, "\"");
    RunConcat(Outside(d), "\"", body);
    QuoteOpens(d);
  }

  lemma QuotedClosed(xs: seq<Chunk>)
    requires ValidChunks(xs)
    ensures Closed(Quoted(xs))
  {
    hide Run, Feed, Quoted;
    var t := Quoted(xs);
    forall d: int ensures Run(Outside(d), t) == Outside(d) && Above(t, d) {
      QuotedRun(xs, d);
      forall k | 0 <= k <= |t| ensures Run(Outside(d), t[..k]).depth >= d {
        if k == 0 {
          RunNothing(d);
          assert t[..0] == "";
        } else if k == |t| {
          assert t[..k] == t;
        } else {
          QuotedPrefix(xs, d, k);
        }
      }
    }
  }

  lemma RunNothing(d: int)
    ensures Run(Outside(d), "") == Outside(d)
  {
  }

  // ---------------------------------------------------------------- brackets

  lemma BracketRun(open_: string, close: string, d: int)
    requires (open_ == "[" && close == "]") || (open_ == "{" && close == "}")
    ensures Run(Outside(d), open_) == Outside(d + 1) && Run(Outside(d + 1), close) == Outside(d)
  {
    assert open_[1..] == "" && close[1..] == "";
  }

  /** Every proper nonempty prefix of a bracketed text is at least one level deep. */
  lemma BracketPrefix(open_: string, inner: string, close: string, d: int, k: nat)
    requires (open_ == "[" && close == "]") || (open_ == "{" && close == "}")
    requires Closed(inner) && 0 < k < |open_ + inner + close|
    ensures Run(Outside(d), (open_ + inner + close)[..k]).depth >= d + 1
  {
    hide Run, Feed;
    assert (open_ + inner + close)[..k] == open_ + inner[..k - 1];
    RunConcat(Outside(d), open_, inner[..k - 1]);
    BracketRun(open_, close, d);
    assert Above(inner, d + 1);
  }

  lemma BracketClosed(open_: string, inner: string, close: string)
    requires (open_ == "[" && close == "]") || (open_ == "{" && close == "}")
    requires Closed(inner)
    ensures Closed(open_ + inner + close)
  {
    hide Run, Feed;
    var t := open_ + inner + close;
    forall d: int ensures Run(Outside(d), t) == Outside(d) && Above(t, d) {
      RunConcat(Outside(d), open_ + inner, close);
      RunConcat(Outside(d), open_, inner);
      BracketRun(open_, close, d);
      forall k | 0 <= k <= |t| ensures Run(Outside(d), t[..k]).depth >= d {
        if k == 0 {
          RunNothing(d);
          assert t[..0] == "";
        } else if k == |t| {
          assert t[..k] == t;
        } else {
          BracketPrefix(open_, inner, close, d, k);
        }
      }
    }
  }

  // ---------------------------------------------------------------- every JSON text closes

  lemma SpacesBare(s: string)
    requires Spaces(s)
    ensures BareText(s)
  {
  }

  predicate NumberChar(c: char) {
    IsDigit(c) || c in "+-.eENaIfinty"
  }

  lemma NumberChars(s: string)
    requires NumberText(s)
    ensures s != "" && (forall c | c in s :: NumberChar(c)) && (IsDigit(s[0]) || s[0] in "-NI")
  {
    if s == "NaN" || s == "Infinity" || s == "-Infinity" {
    } else {
      var sign, int_, fraction, exponent :| NumberParts(s, sign, int_, fraction, exponent);
      hide Fraction, Exponent, NumberChar;
      assert NumberChar('-');
      assert int_[0] in int_;
      if sign == "" {
        assert s[0] == int_[0];
      } else {
        assert s[0] == '-';
      }
    }
  }

  lemma WordBare(s: string)
    requires WordText(s)
    ensures s != "" && BareText(s) && forall c | c in s :: !IsSpace(c)
  {
    hide NumberText;
    if s != "null" && s != "true" && s != "false" {
      NumberChars(s);
    }
  }

  lemma {:induction false} TreeClosed(t: Tree)
    requires ValidTree(t)
    ensures Closed(Render(t)) && Render(t) != ""
    decreases t, 1
  {
    hide Closed, WordText, Spaces, Quoted;
    match t
    case Word(text) =>
      WordBare(text);
      BareClosed(text);
    case Text(chunks) =>
      QuotedClosed(chunks);
      QuotedNonEmpty(chunks);
    case EmptyArray(space) =>
      SpacesBare(space);
      BareClosed(space);
      BracketClosed("[", space, "]");
    case Array(items) =>
      ItemsClosed(items);
      BracketClosed("[", RenderItems(items), "]");
    case EmptyObject(space) =>
      SpacesBare(space);
      BareClosed(space);
      BracketClosed("{", space, "}");
    case Object(members) =>
      MembersClosed(members);
      BracketClosed("{", RenderMembers(members), "}");
  }

  lemma QuotedNonEmpty(xs: seq<Chunk>)
    ensures Quoted(xs) != ""
  {
  }

  lemma {:induction false} PaddedClosed(p: Padded)
    requires ValidPadded(p)
    ensures Closed(RenderPadded(p)) && RenderPadded(p) != ""
    decreases p, 0
  {
    hide Closed, Spaces, ValidTree, Render;
    TreeClosed(p.tree);
    SpacesBare(p.before);
    SpacesBare(p.after);
    BareClosed(p.before);
    BareClosed(p.after);
    ClosedConcat(p.before, Render(p.tree));
    ClosedConcat(p.before + Render(p.tree), p.after);
  }

  lemma CharClosed(c: string)
    requires c == "," || c == ":"
    ensures Closed(c)
  {
    BareClosed(c);
  }

  lemma {:induction false} ItemsClosed(items: seq<Padded>)
    requires forall x | x in items :: ValidPadded(x)
    ensures Closed(RenderItems(items))
    decreases items, 0
  {
    hide Closed, ValidPadded, RenderPadded;
    if items == [] {
      BareClosed("");
    } else {
      PaddedClosed(items[0]);
      if |items| > 1 {
        ItemsClosed(items[1..]);
        CharClosed(",");
        ClosedConcat(RenderPadded(items[0]), ",");
        ClosedConcat(RenderPadded(items[0]) + ",", RenderItems(items[1..]));
      }
    }
  }

  lemma {:induction false} MemberClosed(m: Member)
    requires ValidMember(m)
    ensures Closed(RenderMember(m))
    decreases m, 0
  {
    hide Closed, ValidPadded, RenderPadded, Quoted, Spaces, ValidChunks;
    SpacesBare(m.before);
    SpacesBare(m.after);
    BareClosed(m.before);
    BareClosed(m.after);
    QuotedClosed(m.key);
    CharClosed(":");
    PaddedClosed(m.value);
    var key := Quoted(m.key);
    ClosedConcat(m.before, key);
    ClosedConcat(m.before + key, m.after);
    ClosedConcat(m.before + key + m.after, ":");
    ClosedConcat(m.before + key + m.after + ":", RenderPadded(m.value));
  }

  lemma {:induction false} MembersClosed(members: seq<Member>)
    requires forall m | m in members :: ValidMember(m)
    ensures Closed(RenderMembers(members))
    decreases members, 0
  {
    hide Closed, ValidMember, RenderMember;
    if members == [] {
      BareClosed("");
    } else {
      MemberClosed(members[0]);
      if |members| > 1 {
        MembersClosed(members[1..]);
        CharClosed(",");
        ClosedConcat(RenderMember(members[0]), ",");
        ClosedConcat(RenderMember(members[0]) + ",", RenderMembers(members[1..]));
      }
    }
  }

  /** A JSON text is not empty and leaves the scan where it started. */
  lemma JsonTextCloses(s: string)
    requires IsJson(s)
    ensures s != "" && Run(Outside(0), s) == Outside(0)
  {
    hide ValidPadded, RenderPadded, Run, Above;
    var p :| ValidPadded(p) && RenderPadded(p) == s;
    PaddedClosed(p);
  }

  /** A text in one pair of brackets, or of quotes, has no proper prefix that is a JSON text. */
  lemma NoJsonPrefix(t: Tree, k: nat)
    requires ValidTree(t) && !t.Word? && k < |Render(t)|
    ensures !IsJson(Render(t)[..k])
  {
    hide IsJson, Run, Closed, WordText, Spaces, ValidChunks;
    var p := Render(t)[..k];
    if IsJson(p) {
      JsonTextCloses(p);
    }
    if k > 0 {
      match t
      case Text(chunks) =>
        QuotedPrefix(chunks, 0, k);
      case EmptyArray(space) =>
        SpacesBare(space);
        BareClosed(space);
        BracketPrefix("[", space, "]", 0, k);
      case Array(items) =>
        ItemsClosed(items);
        BracketPrefix("[", RenderItems(items), "]", 0, k);
      case EmptyObject(space) =>
        SpacesBare(space);
        BareClosed(space);
        BracketPrefix("{", space, "}", 0, k);
      case Object(members) =>
        MembersClosed(members);
        BracketPrefix("{", RenderMembers(members), "}", 0, k);
      case Word(_) =>
    }
  }

  // ---------------------------------------------------------------- texts without brackets, quotes or spaces

  lemma RenderStart(t: Tree)
    requires !t.Word?
    ensures Render(t) != "" && !Bare(Render(t)[0])
  {
    hide ChunkTexts, RenderItems, RenderMembers;
  }

  predicate Unspaced(s: string) {
    forall c | c in s :: Bare(c) && !IsSpace(c)
  }

  lemma PaddingShows(pad: string, s: string)
    requires Spaces(pad) && pad != "" && forall c | c in pad :: c in s
    ensures !Unspaced(s)
  {
    assert pad[0] in pad;
  }

  /** Without spaces there is no padding. */
  lemma NoPadding(p: Padded, s: string)
    requires Spaces(p.before) && Spaces(p.after) && RenderPadded(p) == s && Unspaced(s)
    ensures s == Render(p.tree)
  {
    hide Render, Spaces, Unspaced;
    if p.before != "" {
      PaddingShows(p.before, s);
    }
    if p.after != "" {
      PaddingShows(p.after, s);
    }
  }

  lemma WordIsJson(s: string)
    requires WordText(s)
    ensures IsJson(s)
  {
    hide WordText;
    var p := Padded("", Word(s), "");
    assert RenderPadded(p) == "" + s + "";
    assert "" + s + "" == s;
    assert ValidPadded(p);
  }

  lemma UnspacedStart(s: string)
    requires Unspaced(s) && s != ""
    ensures Bare(s[0])
  {
    assert s[0] in s;
  }

  lemma ValidWord(p: Padded)
    requires ValidPadded(p) && p.tree.Word?
    ensures WordText(Render(p.tree))
  {
  }

  /** Such a text is a JSON text exactly when it is a single word or number. */
  lemma PlainTextIsWord(s: string)
    requires Unspaced(s)
    ensures IsJson(s) <==> WordText(s)
  {
    hide WordText, Render, Unspaced, Bare, Spaces, RenderPadded;
    if IsJson(s) {
      var p :| ValidPadded(p) && RenderPadded(p) == s;
      NoPadding(p, s);
      if p.tree.Word? {
        ValidWord(p);
      } else {
        RenderStart(p.tree);
        UnspacedStart(s);
      }
    }
    if WordText(s) {
      WordIsJson(s);
    }
  }
}
