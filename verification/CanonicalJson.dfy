/**
 * canonicalJson, the text that is hashed into a request fingerprint, and a decoder that inverts it.
 * Texts are sequences of UTF-16 code units, as JavaScript strings are.
 */
module CanonicalJson {
  import opened Wrappers

  type CodeUnit = n: int | 0 <= n < 0x1_0000
  type Text = seq<CodeUnit>

  /**
   * A JavaScript value: `Num` carries the text JSON.stringify gives a finite number, `NonFinite` is NaN or an
   * infinity, and an object's fields stand in their own enumeration order.
   */
  datatype Value =
    | Undefined | Null | Bool(b: bool) | Num(token: Text) | NonFinite | Str(text: Text)
    | Arr(items: seq<Value>) | Obj(fields: seq<Field>)
  datatype Field = Field(key: Text, value: Value)

  /** localeCompare, of which only its sign matters. */
  type Comparator = (Text, Text) -> int

  const QUOTE: CodeUnit := 34
  const PLUS: CodeUnit := 43
  const COMMA: CodeUnit := 44
  const MINUS: CodeUnit := 45
  const DOT: CodeUnit := 46
  const COLON: CodeUnit := 58
  const LEFT_BRACKET: CodeUnit := 91
  const BACKSLASH: CodeUnit := 92
  const RIGHT_BRACKET: CodeUnit := 93
  const LEFT_BRACE: CodeUnit := 123
  const RIGHT_BRACE: CodeUnit := 125
  const LETTER_U: CodeUnit := 117
  const NULL_TEXT: Text := [110, 117, 108, 108]
  const TRUE_TEXT: Text := [116, 114, 117, 101]
  const FALSE_TEXT: Text := [102, 97, 108, 115, 101]

  // ---------------------------------------------------------------- string quoting

  function HexDigit(n: int): CodeUnit
    requires 0 <= n < 16
  {
    if n < 10 then 48 + n else 87 + n
  }

  function HexEscape(c: CodeUnit): Text {
    [BACKSLASH, LETTER_U, HexDigit(c / 4096), HexDigit(c / 256 % 16), HexDigit(c / 16 % 16), HexDigit(c % 16)]
  }

  predicate IsHigh(c: CodeUnit) {
    0xD800 <= c <= 0xDBFF
  }

  predicate IsLow(c: CodeUnit) {
    0xDC00 <= c <= 0xDFFF
  }

  /** The escape of one code unit that is not half of a surrogate pair. */
  function Escape(c: CodeUnit): Text {
    if c == QUOTE then [BACKSLASH, QUOTE]
    else if c == BACKSLASH then [BACKSLASH, BACKSLASH]
    else if c == 8 then [BACKSLASH, 98]
    else if c == 9 then [BACKSLASH, 116]
    else if c == 10 then [BACKSLASH, 110]
    else if c == 12 then [BACKSLASH, 102]
    else if c == 13 then [BACKSLASH, 114]
    else if c < 0x20 || IsHigh(c) || IsLow(c) then HexEscape(c)
    else [c]
  }

  /** The inside of a quoted string: a surrogate pair stays, a lone surrogate is escaped. */
  function QuoteBody(s: Text): Text {
    if s == [] then []
    else if |s| >= 2 && IsHigh(s[0]) && IsLow(s[1]) then s[..2] + QuoteBody(s[2..])
    else Escape(s[0]) + QuoteBody(s[1..])
  }

  function Quote(s: Text): Text {
    [QUOTE] + QuoteBody(s) + [QUOTE]
  }

  // ---------------------------------------------------------------- the printer

  function Defined(fields: seq<Field>): (r: seq<Field>)
    ensures forall f :: f in r ==> f in fields
  {
    if fields == [] then []
    else (if fields[0].value.Undefined? then [] else [fields[0]]) + Defined(fields[1..])
  }

  function Insert(sorted: seq<Field>, f: Field, compare: Comparator): (r: seq<Field>)
    ensures multiset(r) == multiset(sorted) + multiset{f}
  {
    if sorted == [] then [f]
    else
      var n := |sorted| - 1;
      assert sorted == sorted[..n] + [sorted[n]];
      if compare(sorted[n].key, f.key) <= 0 then sorted + [f] else Insert(sorted[..n], f, compare) + [sorted[n]]
  }

  /** Array.prototype.sort on the keys: stable. */
  function Sort(fields: seq<Field>, compare: Comparator): (r: seq<Field>)
    ensures multiset(r) == multiset(fields)
  {
    if fields == [] then []
    else
      var n := |fields| - 1;
      assert fields == fields[..n] + [fields[n]];
      Insert(Sort(fields[..n], compare), fields[n], compare)
  }

  lemma SortKeepsFields(fields: seq<Field>, compare: Comparator)
    ensures |Sort(fields, compare)| == |fields|
    ensures forall f :: f in Sort(fields, compare) <==> f in fields
  {
    assert |multiset(Sort(fields, compare))| == |multiset(fields)|;
    forall f ensures f in Sort(fields, compare) <==> f in fields {
      assert f in multiset(Sort(fields, compare)) <==> f in multiset(fields);
    }
  }

  /** An object's fields without the undefined ones. */
  function DefinedOf(v: Value): (r: seq<Field>)
    requires v.Obj?
    ensures forall i :: 0 <= i < |r| ==> r[i] in v.fields && r[i].value < v
  {
    assert forall f :: f in Defined(v.fields) ==> f in v.fields && f.value < v;
    Defined(v.fields)
  }

  /** Object.entries, filtered and sorted. */
  function Entries(v: Value, compare: Comparator): (r: seq<Field>)
    requires v.Obj?
    ensures forall i :: 0 <= i < |r| ==> r[i] in v.fields && r[i].value < v
  {
    var entries := Sort(DefinedOf(v), compare);
    SortKeepsFields(DefinedOf(v), compare);
    assert forall i :: 0 <= i < |entries| ==> entries[i] in DefinedOf(v);
    entries
  }

  function Print(v: Value, compare: Comparator): Text
    decreases v, 1
  {
    match v
    case Arr(items) => [LEFT_BRACKET] + PrintItems(items, compare, v) + [RIGHT_BRACKET]
    case Obj(fields) =>
      [LEFT_BRACE] + PrintFields(Entries(v, compare), compare, v) + [RIGHT_BRACE]
    case Undefined => NULL_TEXT
    case Null => NULL_TEXT
    case NonFinite => NULL_TEXT
    case Bool(b) => if b then TRUE_TEXT else FALSE_TEXT
    case Num(token) => token
    case Str(text) => Quote(text)
  }

  function PrintItems(items: seq<Value>, compare: Comparator, ghost bound: Value): Text
    requires forall i :: 0 <= i < |items| ==> items[i] < bound
    decreases bound, 0, |items|
  {
    if items == [] then []
    else if |items| == 1 then Print(items[0], compare)
    else Print(items[0], compare) + [COMMA] + PrintItems(items[1..], compare, bound)
  }

  function PrintField(f: Field, compare: Comparator, ghost bound: Value): Text
    requires f.value < bound
    decreases bound, 0, 0
  {
    Quote(f.key) + [COLON] + Print(f.value, compare)
  }

  function PrintFields(fields: seq<Field>, compare: Comparator, ghost bound: Value): Text
    requires forall i :: 0 <= i < |fields| ==> fields[i].value < bound
    decreases bound, 0, |fields| + 1
  {
    if fields == [] then []
    else if |fields| == 1 then PrintField(fields[0], compare, bound)
    else PrintField(fields[0], compare, bound) + [COMMA] + PrintFields(fields[1..], compare, bound)
  }

  // ---------------------------------------------------------------- what a value means

  /** A JSON value with its objects as maps: equal up to key order, without undefined fields. */
  datatype Json =
    | JNull | JBool(b: bool) | JNum(token: Text) | JStr(text: Text) | JArr(items: seq<Json>) | JObj(entries: map<Text, Json>)
  datatype Entry = Entry(key: Text, value: Json)

  function ToMap(entries: seq<Entry>): map<Text, Json> {
    if entries == [] then map[] else ToMap(entries[1..])[entries[0].key := entries[0].value]
  }

  function Meaning(v: Value): Json
    decreases v, 1
  {
    match v
    case Arr(items) => JArr(MeaningOfItems(items, v))
    case Obj(fields) => JObj(ToMap(MeaningOfFields(DefinedOf(v), v)))
    case Undefined => JNull
    case Null => JNull
    case NonFinite => JNull
    case Bool(b) => JBool(b)
    case Num(token) => JNum(token)
    case Str(text) => JStr(text)
  }

  function MeaningOfItems(items: seq<Value>, ghost bound: Value): (r: seq<Json>)
    requires forall i :: 0 <= i < |items| ==> items[i] < bound
    ensures |r| == |items|
    decreases bound, 0, |items|
  {
    if items == [] then [] else [Meaning(items[0])] + MeaningOfItems(items[1..], bound)
  }

  function MeaningOfFields(fields: seq<Field>, ghost bound: Value): (r: seq<Entry>)
    requires forall i :: 0 <= i < |fields| ==> fields[i].value < bound
    ensures |r| == |fields|
    decreases bound, 0, |fields|
  {
    if fields == [] then [] else [Entry(fields[0].key, Meaning(fields[0].value))] + MeaningOfFields(fields[1..], bound)
  }

  // ---------------------------------------------------------------- well-formed values

  predicate IsNumberUnit(c: CodeUnit) {
    48 <= c <= 57 || c == PLUS || c == MINUS || c == DOT || c == 69 || c == 101
  }

  predicate IsNumberToken(token: Text) {
    && token != [] && (48 <= token[0] <= 57 || token[0] == MINUS)
    && forall i :: 0 <= i < |token| ==> IsNumberUnit(token[i])
  }

  ghost predicate KeysDistinct(fields: seq<Field>) {
    forall i, j :: 0 <= i < j < |fields| ==> fields[i].key != fields[j].key
  }

  /** What every JavaScript value is: keys are distinct, and finite numbers print as JSON number tokens. */
  ghost predicate WellFormed(v: Value)
    decreases v
  {
    match v
    case Num(token) => IsNumberToken(token)
    case Arr(items) => forall i :: 0 <= i < |items| ==> WellFormed(items[i])
    case Obj(fields) => KeysDistinct(fields) && forall i :: 0 <= i < |fields| ==> WellFormed(fields[i].value)
    case _ => true
  }

  // ---------------------------------------------------------------- the decoder

  datatype Parsed<T> = Parsed(value: T, rest: Text)

  function HexValue(c: CodeUnit): Option<int> {
    if 48 <= c <= 57 then Some(c - 48) else if 97 <= c <= 102 then Some(c - 87) else None
  }

  function HexUnit(a: CodeUnit, b: CodeUnit, c: CodeUnit, d: CodeUnit): (r: Option<CodeUnit>) {
    var w, x, y, z := HexValue(a), HexValue(b), HexValue(c), HexValue(d);
    if w.Some? && x.Some? && y.Some? && z.Some?
    then Some(((w.value * 16 + x.value) * 16 + y.value) * 16 + z.value) else None
  }

  function Unescape(c: CodeUnit): Option<CodeUnit> {
    if c == QUOTE || c == BACKSLASH then Some(c)
    else if c == 98 then Some(8)
    else if c == 116 then Some(9)
    else if c == 110 then Some(10)
    else if c == 102 then Some(12)
    else if c == 114 then Some(13)
    else None
  }

  /** The first code unit of a quoted body, and how many units its text takes. */
  function ParseUnit(t: Text): (r: Option<(CodeUnit, nat)>)
    ensures r.Some? ==> 0 < r.value.1 <= |t|
  {
    if t == [] || t[0] == QUOTE then None
    else if t[0] != BACKSLASH then Some((t[0], 1))
    else if |t| >= 6 && t[1] == LETTER_U then
      var u := HexUnit(t[2], t[3], t[4], t[5]);
      if u.Some? then Some((u.value, 6)) else None
    else if |t| >= 2 then
      var u := Unescape(t[1]);
      if u.Some? then Some((u.value, 2)) else None
    else None
  }

  function ParseBody(t: Text): (r: Option<Parsed<Text>>)
    ensures r.Some? ==> |r.value.rest| < |t|
    decreases |t|
  {
    if t == [] then None
    else if t[0] == QUOTE then Some(Parsed([], t[1..]))
    else
      match ParseUnit(t)
      case None => None
      case Some(unit) =>
        match ParseBody(t[unit.1..])
        case None => None
        case Some(more) => Some(Parsed([unit.0] + more.value, more.rest))
  }

  function NumberSpan(t: Text): (n: nat)
    ensures n <= |t|
  {
    if t == [] || !IsNumberUnit(t[0]) then 0 else 1 + NumberSpan(t[1..])
  }

  function ParseLiteral(t: Text, literal: Text, value: Json): (r: Option<Parsed<Json>>)
    ensures r.Some? ==> |r.value.rest| == |t| - |literal|
  {
    if literal <= t then Some(Parsed(value, t[|literal|..])) else None
  }

  function ParseValue(t: Text): (r: Option<Parsed<Json>>)
    ensures r.Some? ==> |r.value.rest| < |t|
    decreases |t|, 0
  {
    if t == [] then None
    else if t[0] == 110 then ParseLiteral(t, NULL_TEXT, JNull)
    else if t[0] == 116 then ParseLiteral(t, TRUE_TEXT, JBool(true))
    else if t[0] == 102 then ParseLiteral(t, FALSE_TEXT, JBool(false))
    else if t[0] == QUOTE then
      match ParseBody(t[1..])
      case None => None
      case Some(s) => Some(Parsed(JStr(s.value), s.rest))
    else if t[0] == LEFT_BRACKET then
      if |t| >= 2 && t[1] == RIGHT_BRACKET then Some(Parsed(JArr([]), t[2..]))
      else
        match ParseItems(t[1..])
        case None => None
        case Some(items) => Some(Parsed(JArr(items.value), items.rest))
    else if t[0] == LEFT_BRACE then
      if |t| >= 2 && t[1] == RIGHT_BRACE then Some(Parsed(JObj(map[]), t[2..]))
      else
        match ParseFields(t[1..])
        case None => None
        case Some(entries) => Some(Parsed(JObj(ToMap(entries.value)), entries.rest))
    else if NumberSpan(t) > 0 then Some(Parsed(JNum(t[..NumberSpan(t)]), t[NumberSpan(t)..]))
    else None
  }

  function ParseItems(t: Text): (r: Option<Parsed<seq<Json>>>)
    ensures r.Some? ==> |r.value.rest| < |t|
    decreases |t|, 1
  {
    match ParseValue(t)
    case None => None
    case Some(first) =>
      if first.rest == [] then None
      else if first.rest[0] == RIGHT_BRACKET then Some(Parsed([first.value], first.rest[1..]))
      else if first.rest[0] != COMMA then None
      else
        match ParseItems(first.rest[1..])
        case None => None
        case Some(more) => Some(Parsed([first.value] + more.value, more.rest))
  }

  function ParseField(t: Text): (r: Option<Parsed<Entry>>)
    ensures r.Some? ==> |r.value.rest| < |t|
    decreases |t|, 1
  {
    if t == [] || t[0] != QUOTE then None
    else
      match ParseBody(t[1..])
      case None => None
      case Some(key) =>
        if key.rest == [] || key.rest[0] != COLON then None
        else
          match ParseValue(key.rest[1..])
          case None => None
          case Some(value) => Some(Parsed(Entry(key.value, value.value), value.rest))
  }

  function ParseFields(t: Text): (r: Option<Parsed<seq<Entry>>>)
    ensures r.Some? ==> |r.value.rest| < |t|
    decreases |t|, 2
  {
    match ParseField(t)
    case None => None
    case Some(first) =>
      if first.rest == [] then None
      else if first.rest[0] == RIGHT_BRACE then Some(Parsed([first.value], first.rest[1..]))
      else if first.rest[0] != COMMA then None
      else
        match ParseFields(first.rest[1..])
        case None => None
        case Some(more) => Some(Parsed([first.value] + more.value, more.rest))
  }

  // ---------------------------------------------------------------- the decoder inverts the printer: strings

  lemma HexDigitDecodes(n: int)
    requires 0 <= n < 16
    ensures HexValue(HexDigit(n)) == Some(n)
  {
  }

  lemma HexDigitsOf(c: CodeUnit)
    ensures c / 4096 < 16
    ensures ((c / 4096 * 16 + c / 256 % 16) * 16 + c / 16 % 16) * 16 + c % 16 == c
  {
    var a := c / 16;
    var b := a / 16;
    assert c / 256 == b && c / 4096 == b / 16;
  }

  lemma HexRoundTrip(c: CodeUnit)
    ensures HexUnit(HexDigit(c / 4096), HexDigit(c / 256 % 16), HexDigit(c / 16 % 16), HexDigit(c % 16)) == Some(c)
  {
    HexDigitsOf(c);
    HexDigitDecodes(c / 4096);
    HexDigitDecodes(c / 256 % 16);
    HexDigitDecodes(c / 16 % 16);
    HexDigitDecodes(c % 16);
  }

  lemma EscapeDecodes(c: CodeUnit, rest: Text)
    ensures ParseUnit(Escape(c) + rest) == Some((c, |Escape(c)|))
    ensures Escape(c) != [] && Escape(c)[0] != QUOTE
  {
    HexRoundTrip(c);
    var t := Escape(c) + rest;
    if |Escape(c)| == 6 {
      assert t[1] == LETTER_U && t[2] == HexEscape(c)[2] && t[3] == HexEscape(c)[3]
          && t[4] == HexEscape(c)[4] && t[5] == HexEscape(c)[5];
    }
  }

  /** One decoded unit in front of a decodable body. */
  lemma BodyStep(t: Text, c: CodeUnit, n: nat, body: Text, rest: Text)
    requires t != [] && t[0] != QUOTE && ParseUnit(t) == Some((c, n))
    requires ParseBody(t[n..]) == Some(Parsed(body, rest))
    ensures ParseBody(t) == Some(Parsed([c] + body, rest))
  {
  }

  /** A literal unit in front of a decodable body. */
  lemma LiteralUnit(c: CodeUnit, later: Text, body: Text, rest: Text)
    requires c != QUOTE && c != BACKSLASH && ParseBody(later) == Some(Parsed(body, rest))
    ensures ParseBody([c] + later) == Some(Parsed([c] + body, rest))
  {
    assert ([c] + later)[1..] == later;
    BodyStep([c] + later, c, 1, body, rest);
  }

  lemma Associate(a: Text, b: Text, c: Text)
    ensures (a + b) + c == a + (b + c)
  {
  }

  lemma PairText(s: Text, tail: Text)
    requires |s| >= 2 && IsHigh(s[0]) && IsLow(s[1])
    ensures QuoteBody(s) + tail == [s[0]] + ([s[1]] + (QuoteBody(s[2..]) + tail))
    ensures s == [s[0]] + ([s[1]] + s[2..])
  {
    FirstTwo(s);
    PairOut(s[0], s[1], QuoteBody(s[2..]), tail);
  }

  lemma FirstTwo(s: Text)
    requires |s| >= 2
    ensures s[..2] == [s[0], s[1]] && s == [s[0]] + ([s[1]] + s[2..])
  {
  }

  lemma PairOut(a: CodeUnit, b: CodeUnit, later: Text, tail: Text)
    ensures ([a, b] + later) + tail == [a] + ([b] + (later + tail))
  {
  }

  lemma EscapedBody(s: Text)
    requires s != [] && !(|s| >= 2 && IsHigh(s[0]) && IsLow(s[1]))
    ensures QuoteBody(s) == Escape(s[0]) + QuoteBody(s[1..])
  {
  }

  lemma EscapedText(s: Text, tail: Text)
    requires s != [] && !(|s| >= 2 && IsHigh(s[0]) && IsLow(s[1]))
    ensures QuoteBody(s) + tail == Escape(s[0]) + (QuoteBody(s[1..]) + tail)
  {
    EscapedBody(s);
    Associate(Escape(s[0]), QuoteBody(s[1..]), tail);
  }

  lemma FirstOne(s: Text)
    requires s != []
    ensures s == [s[0]] + s[1..]
  {
  }

  lemma EscapedUnit(c: CodeUnit, later: Text, body: Text, rest: Text)
    requires ParseBody(later) == Some(Parsed(body, rest))
    ensures ParseBody(Escape(c) + later) == Some(Parsed([c] + body, rest))
  {
    EscapeDecodes(c, later);
    assert (Escape(c) + later)[|Escape(c)|..] == later;
    assert (Escape(c) + later)[0] == Escape(c)[0];
    BodyStep(Escape(c) + later, c, |Escape(c)|, body, rest);
  }

  /** Decoding a quoted body stops at its closing quote and gives the very code units back. */
  lemma {:induction false} BodyDecodes(s: Text, rest: Text)
    ensures ParseBody(QuoteBody(s) + ([QUOTE] + rest)) == Some(Parsed(s, rest))
    decreases |s|
  {
    var tail := [QUOTE] + rest;
    if s == [] {
      assert QuoteBody(s) + tail == tail && tail[1..] == rest;
    } else if |s| >= 2 && IsHigh(s[0]) && IsLow(s[1]) {
      BodyDecodes(s[2..], rest);
      PairText(s, tail);
      LiteralUnit(s[1], QuoteBody(s[2..]) + tail, s[2..], rest);
      LiteralUnit(s[0], [s[1]] + (QuoteBody(s[2..]) + tail), [s[1]] + s[2..], rest);
    } else {
      BodyDecodes(s[1..], rest);
      EscapedText(s, tail);
      FirstOne(s);
      EscapedUnit(s[0], QuoteBody(s[1..]) + tail, s[1..], rest);
    }
  }

  // ---------------------------------------------------------------- the decoder inverts the printer: values

  predicate Delimited(rest: Text) {
    rest == [] || !IsNumberUnit(rest[0])
  }

  lemma {:induction false} NumberSpans(token: Text, rest: Text)
    requires (forall i :: 0 <= i < |token| ==> IsNumberUnit(token[i])) && Delimited(rest)
    ensures NumberSpan(token + rest) == |token|
  {
    if token == [] {
      assert token + rest == rest;
    } else {
      NumberSpans(token[1..], rest);
      assert (token + rest)[1..] == token[1..] + rest;
    }
  }

  lemma {:induction false} NumberDecodes(token: Text, rest: Text)
    requires IsNumberToken(token) && Delimited(rest)
    ensures ParseValue(token + rest) == Some(Parsed(JNum(token), rest))
  {
    NumberSpans(token, rest);
    assert (token + rest)[..|token|] == token && (token + rest)[|token|..] == rest;
  }

  lemma LiteralsDecode(rest: Text)
    ensures ParseValue(NULL_TEXT + rest) == Some(Parsed(JNull, rest))
    ensures ParseValue(TRUE_TEXT + rest) == Some(Parsed(JBool(true), rest))
    ensures ParseValue(FALSE_TEXT + rest) == Some(Parsed(JBool(false), rest))
  {
    assert (NULL_TEXT + rest)[4..] == rest && (TRUE_TEXT + rest)[4..] == rest && (FALSE_TEXT + rest)[5..] == rest;
  }

  lemma Enclosed(open: CodeUnit, inner: Text, close: CodeUnit, rest: Text)
    ensures ([open] + inner + [close]) + rest == [open] + (inner + ([close] + rest))
  {
  }

  lemma StringFound(t: Text, s: Text, rest: Text)
    requires ParseBody(t) == Some(Parsed(s, rest))
    ensures ParseValue([QUOTE] + t) == Some(Parsed(JStr(s), rest))
  {
    assert ([QUOTE] + t)[1..] == t;
  }

  lemma StringDecodes(s: Text, rest: Text)
    ensures ParseValue(Quote(s) + rest) == Some(Parsed(JStr(s), rest))
  {
    BodyDecodes(s, rest);
    Enclosed(QUOTE, QuoteBody(s), QUOTE, rest);
    StringFound(QuoteBody(s) + ([QUOTE] + rest), s, rest);
  }

  /** No printed value starts with a closing bracket or brace. */
  lemma PrintStarts(v: Value, compare: Comparator)
    requires WellFormed(v)
    ensures Print(v, compare) != [] && Print(v, compare)[0] != RIGHT_BRACKET && Print(v, compare)[0] != RIGHT_BRACE
  {
  }

  /** Printing then decoding gives the meaning back and stops where the value ends. */
  lemma {:induction false} ValueDecodes(v: Value, compare: Comparator, rest: Text)
    requires WellFormed(v) && Delimited(rest)
    ensures ParseValue(Print(v, compare) + rest) == Some(Parsed(Meaning(v), rest))
    decreases v, 1
  {
    match v
    case Undefined => LiteralsDecode(rest);
    case Null => LiteralsDecode(rest);
    case NonFinite => LiteralsDecode(rest);
    case Bool(_) => LiteralsDecode(rest);
    case Num(token) => NumberDecodes(token, rest);
    case Str(text) => StringDecodes(text, rest);
    case Arr(items) => ArrayDecodes(v, compare, rest);
    case Obj(fields) => ObjectDecodes(v, compare, rest);
  }

  lemma EmptyArrayFound(rest: Text)
    ensures ParseValue([LEFT_BRACKET] + ([RIGHT_BRACKET] + rest)) == Some(Parsed(JArr([]), rest))
  {
    assert ([LEFT_BRACKET] + ([RIGHT_BRACKET] + rest))[2..] == rest;
  }

  lemma ArrayFound(t: Text, items: seq<Json>, rest: Text)
    requires t != [] && t[0] != RIGHT_BRACKET && ParseItems(t) == Some(Parsed(items, rest))
    ensures ParseValue([LEFT_BRACKET] + t) == Some(Parsed(JArr(items), rest))
  {
    assert ([LEFT_BRACKET] + t)[1..] == t;
  }

  lemma {:induction false} ArrayDecodes(v: Value, compare: Comparator, rest: Text)
    requires v.Arr? && WellFormed(v)
    ensures ParseValue(Print(v, compare) + rest) == Some(Parsed(Meaning(v), rest))
    decreases v, 0, |v.items| + 1
  {
    Enclosed(LEFT_BRACKET, PrintItems(v.items, compare, v), RIGHT_BRACKET, rest);
    if v.items == [] {
      assert [] + ([RIGHT_BRACKET] + rest) == [RIGHT_BRACKET] + rest;
      EmptyArrayFound(rest);
    } else {
      ItemsDecode(v.items, compare, v, rest);
      ItemsStart(v.items, compare, v);
      ArrayFound(PrintItems(v.items, compare, v) + ([RIGHT_BRACKET] + rest), MeaningOfItems(v.items, v), rest);
    }
  }

  lemma ItemsStart(items: seq<Value>, compare: Comparator, bound: Value)
    requires items != [] && forall i :: 0 <= i < |items| ==> items[i] < bound && WellFormed(items[i])
    ensures PrintItems(items, compare, bound) != [] && PrintItems(items, compare, bound)[0] != RIGHT_BRACKET
  {
    PrintStarts(items[0], compare);
  }

  lemma LastItem(t: Text, first: Json, rest: Text)
    requires ParseValue(t) == Some(Parsed(first, [RIGHT_BRACKET] + rest))
    ensures ParseItems(t) == Some(Parsed([first], rest))
  {
    assert ([RIGHT_BRACKET] + rest)[1..] == rest;
  }

  lemma OneMoreItem(t: Text, first: Json, later: Text, more: seq<Json>, rest: Text)
    requires ParseValue(t) == Some(Parsed(first, [COMMA] + later)) && ParseItems(later) == Some(Parsed(more, rest))
    ensures ParseItems(t) == Some(Parsed([first] + more, rest))
  {
    assert ([COMMA] + later)[1..] == later;
  }

  lemma ItemsText(items: seq<Value>, compare: Comparator, bound: Value, close: Text)
    requires |items| > 1 && forall i :: 0 <= i < |items| ==> items[i] < bound
    ensures PrintItems(items, compare, bound) + close
         == Print(items[0], compare) + ([COMMA] + (PrintItems(items[1..], compare, bound) + close))
  {
  }

  lemma {:induction false} ItemsDecode(items: seq<Value>, compare: Comparator, bound: Value, rest: Text)
    requires items != [] && forall i :: 0 <= i < |items| ==> items[i] < bound && WellFormed(items[i])
    ensures ParseItems(PrintItems(items, compare, bound) + ([RIGHT_BRACKET] + rest))
         == Some(Parsed(MeaningOfItems(items, bound), rest))
    decreases bound, 0, |items|
  {
    var close := [RIGHT_BRACKET] + rest;
    var t := PrintItems(items, compare, bound) + close;
    if |items| == 1 {
      ValueDecodes(items[0], compare, close);
      LastItem(t, Meaning(items[0]), rest);
      assert MeaningOfItems(items[1..], bound) == [];
      assert MeaningOfItems(items, bound) == [Meaning(items[0])];
    } else {
      var later := PrintItems(items[1..], compare, bound) + close;
      ValueDecodes(items[0], compare, [COMMA] + later);
      ItemsDecode(items[1..], compare, bound, rest);
      ItemsText(items, compare, bound, close);
      OneMoreItem(t, Meaning(items[0]), later, MeaningOfItems(items[1..], bound), rest);
    }
  }

  lemma FieldFound(t: Text, key: Text, later: Text, value: Json, rest: Text)
    requires ParseBody(t) == Some(Parsed(key, [COLON] + later)) && ParseValue(later) == Some(Parsed(value, rest))
    ensures ParseField([QUOTE] + t) == Some(Parsed(Entry(key, value), rest))
  {
    assert ([QUOTE] + t)[1..] == t && ([COLON] + later)[1..] == later;
  }

  lemma FieldText(f: Field, compare: Comparator, bound: Value, rest: Text)
    requires f.value < bound
    ensures PrintField(f, compare, bound) + rest
         == [QUOTE] + (QuoteBody(f.key) + ([QUOTE] + ([COLON] + (Print(f.value, compare) + rest))))
  {
  }

  lemma {:induction false} FieldDecodes(f: Field, compare: Comparator, bound: Value, rest: Text)
    requires f.value < bound && WellFormed(f.value) && Delimited(rest)
    ensures ParseField(PrintField(f, compare, bound) + rest) == Some(Parsed(Entry(f.key, Meaning(f.value)), rest))
    decreases bound, 0, 0
  {
    var later := Print(f.value, compare) + rest;
    BodyDecodes(f.key, [COLON] + later);
    ValueDecodes(f.value, compare, rest);
    FieldText(f, compare, bound, rest);
    FieldFound(QuoteBody(f.key) + ([QUOTE] + ([COLON] + later)), f.key, later, Meaning(f.value), rest);
  }

  lemma LastField(t: Text, first: Entry, rest: Text)
    requires ParseField(t) == Some(Parsed(first, [RIGHT_BRACE] + rest))
    ensures ParseFields(t) == Some(Parsed([first], rest))
  {
    assert ([RIGHT_BRACE] + rest)[1..] == rest;
  }

  lemma OneMoreField(t: Text, first: Entry, later: Text, more: seq<Entry>, rest: Text)
    requires ParseField(t) == Some(Parsed(first, [COMMA] + later)) && ParseFields(later) == Some(Parsed(more, rest))
    ensures ParseFields(t) == Some(Parsed([first] + more, rest))
  {
    assert ([COMMA] + later)[1..] == later;
  }

  lemma FieldsText(fields: seq<Field>, compare: Comparator, bound: Value, close: Text)
    requires |fields| > 1 && forall i :: 0 <= i < |fields| ==> fields[i].value < bound
    ensures PrintFields(fields, compare, bound) + close
         == PrintField(fields[0], compare, bound) + ([COMMA] + (PrintFields(fields[1..], compare, bound) + close))
  {
  }

  lemma OneFieldMeans(fields: seq<Field>, bound: Value)
    requires |fields| == 1 && fields[0].value < bound
    ensures MeaningOfFields(fields, bound) == [Entry(fields[0].key, Meaning(fields[0].value))]
  {
    assert MeaningOfFields(fields[1..], bound) == [];
  }

  lemma {:induction false} FieldsDecode(fields: seq<Field>, compare: Comparator, bound: Value, rest: Text)
    requires fields != [] && forall i :: 0 <= i < |fields| ==> fields[i].value < bound && WellFormed(fields[i].value)
    ensures ParseFields(PrintFields(fields, compare, bound) + ([RIGHT_BRACE] + rest))
         == Some(Parsed(MeaningOfFields(fields, bound), rest))
    decreases bound, 0, |fields| + 1
  {
    var close := [RIGHT_BRACE] + rest;
    var t := PrintFields(fields, compare, bound) + close;
    var first := Entry(fields[0].key, Meaning(fields[0].value));
    if |fields| == 1 {
      FieldDecodes(fields[0], compare, bound, close);
      LastField(t, first, rest);
      OneFieldMeans(fields, bound);
    } else {
      var later := PrintFields(fields[1..], compare, bound) + close;
      FieldDecodes(fields[0], compare, bound, [COMMA] + later);
      FieldsDecode(fields[1..], compare, bound, rest);
      FieldsText(fields, compare, bound, close);
      OneMoreField(t, first, later, MeaningOfFields(fields[1..], bound), rest);
    }
  }

  lemma ObjectFound(t: Text, entries: seq<Entry>, rest: Text)
    requires t != [] && t[0] == QUOTE && ParseFields(t) == Some(Parsed(entries, rest))
    ensures ParseValue([LEFT_BRACE] + t) == Some(Parsed(JObj(ToMap(entries)), rest))
  {
    assert ([LEFT_BRACE] + t)[1..] == t;
  }

  lemma EmptyObjectFound(rest: Text)
    ensures ParseValue([LEFT_BRACE] + ([RIGHT_BRACE] + rest)) == Some(Parsed(JObj(map[]), rest))
  {
    assert ([LEFT_BRACE] + ([RIGHT_BRACE] + rest))[2..] == rest;
  }

  lemma ObjectText(v: Value, compare: Comparator, rest: Text)
    requires v.Obj?
    ensures Print(v, compare) + rest == [LEFT_BRACE] + (PrintFields(Entries(v, compare), compare, v) + ([RIGHT_BRACE] + rest))
  {
    Enclosed(LEFT_BRACE, PrintFields(Entries(v, compare), compare, v), RIGHT_BRACE, rest);
  }

  lemma FieldsStart(fields: seq<Field>, compare: Comparator, bound: Value)
    requires forall i :: 0 <= i < |fields| ==> fields[i].value < bound
    ensures fields == [] ==> PrintFields(fields, compare, bound) == []
    ensures fields != [] ==> PrintFields(fields, compare, bound) != [] && PrintFields(fields, compare, bound)[0] == QUOTE
  {
    if fields != [] {
      assert PrintField(fields[0], compare, bound)[0] == QUOTE;
    }
  }

  lemma EntriesAreWellFormed(v: Value, compare: Comparator)
    requires v.Obj? && WellFormed(v)
    ensures forall i :: 0 <= i < |Entries(v, compare)| ==> WellFormed(Entries(v, compare)[i].value)
    ensures |Entries(v, compare)| <= |v.fields|
  {
    SortKeepsFields(DefinedOf(v), compare);
    DefinedIsShorter(v.fields);
    forall i | 0 <= i < |Entries(v, compare)| ensures WellFormed(Entries(v, compare)[i].value) {
      var j :| 0 <= j < |v.fields| && v.fields[j] == Entries(v, compare)[i];
    }
  }

  lemma {:induction false} ObjectDecodes(v: Value, compare: Comparator, rest: Text)
    requires v.Obj? && WellFormed(v)
    ensures ParseValue(Print(v, compare) + rest) == Some(Parsed(Meaning(v), rest))
    decreases v, 0, |v.fields| + 2
  {
    var entries := Entries(v, compare);
    ObjectText(v, compare, rest);
    FieldsStart(entries, compare, v);
    OrderDoesNotMatter(v, compare);
    if entries == [] {
      assert [] + ([RIGHT_BRACE] + rest) == [RIGHT_BRACE] + rest;
      EmptyObjectFound(rest);
    } else {
      EntriesAreWellFormed(v, compare);
      FieldsDecode(entries, compare, v, rest);
      ObjectFound(PrintFields(entries, compare, v) + ([RIGHT_BRACE] + rest), MeaningOfFields(entries, v), rest);
    }
  }

  lemma {:induction false} DefinedIsShorter(fields: seq<Field>)
    ensures |Defined(fields)| <= |fields|
  {
    if fields != [] { DefinedIsShorter(fields[1..]); }
  }

  // ---------------------------------------------------------------- objects up to order

  lemma {:induction false} ToMapExact(entries: seq<Entry>)
    requires forall i, j :: 0 <= i < j < |entries| ==> entries[i].key != entries[j].key
    ensures forall e :: e in entries ==> e.key in ToMap(entries) && ToMap(entries)[e.key] == e.value
    ensures forall k :: k in ToMap(entries) ==> Entry(k, ToMap(entries)[k]) in entries
  {
    if entries != [] {
      ToMapExact(entries[1..]);
      assert entries == [entries[0]] + entries[1..];
      forall e | e in entries[1..] ensures e.key != entries[0].key {
        var i :| 0 <= i < |entries[1..]| && entries[1..][i] == e;
        assert entries[i + 1] == e;
      }
    }
  }

  lemma {:induction false} MeaningOfFieldsAt(fields: seq<Field>, bound: Value)
    requires forall i :: 0 <= i < |fields| ==> fields[i].value < bound
    ensures forall i :: 0 <= i < |fields| ==>
      MeaningOfFields(fields, bound)[i] == Entry(fields[i].key, Meaning(fields[i].value))
  {
    if fields != [] {
      MeaningOfFieldsAt(fields[1..], bound);
    }
  }

  lemma {:induction false} DefinedKeepsDistinct(fields: seq<Field>)
    requires KeysDistinct(fields)
    ensures KeysDistinct(Defined(fields))
    ensures forall f :: f in Defined(fields) <==> f in fields && !f.value.Undefined?
  {
    if fields != [] {
      DefinedKeepsDistinct(fields[1..]);
      assert fields == [fields[0]] + fields[1..];
      var rest := Defined(fields[1..]);
      forall i | 0 <= i < |rest| ensures rest[i].key != fields[0].key {
        assert rest[i] in fields[1..];
        var j :| 0 <= j < |fields[1..]| && fields[1..][j] == rest[i];
        assert fields[j + 1] == rest[i];
      }
    }
  }

  /** A permutation of fields with distinct keys has distinct keys. */
  lemma PermutedKeysDistinct(fields: seq<Field>, permuted: seq<Field>)
    requires KeysDistinct(fields) && multiset(permuted) == multiset(fields)
    ensures KeysDistinct(permuted)
  {
    forall i, j | 0 <= i < j < |permuted| ensures permuted[i].key != permuted[j].key {
      assert permuted[i] in multiset(permuted) && permuted[j] in multiset(permuted);
      var a :| 0 <= a < |fields| && fields[a] == permuted[i];
      var b :| 0 <= b < |fields| && fields[b] == permuted[j];
      if a == b {
        TwiceInMultiset(permuted, i, j);
        OnceInMultiset(fields, a);
        assert false;
      }
    }
  }

  lemma TwiceInMultiset(s: seq<Field>, i: nat, j: nat)
    requires i < j < |s| && s[i] == s[j]
    ensures multiset(s)[s[i]] >= 2
  {
    assert s == s[..j] + ([s[j]] + s[j + 1..]);
    assert s[..j][i] == s[i];
    assert s[i] in multiset(s[..j]);
    assert multiset(s) == multiset(s[..j]) + multiset{s[j]} + multiset(s[j + 1..]);
  }

  lemma {:induction false} OnceInMultiset(s: seq<Field>, a: nat)
    requires a < |s| && KeysDistinct(s)
    ensures multiset(s)[s[a]] == 1
  {
    assert s == s[..a] + ([s[a]] + s[a + 1..]);
    assert multiset(s) == multiset(s[..a]) + multiset{s[a]} + multiset(s[a + 1..]);
    assert s[a] !in s[..a] && s[a] !in s[a + 1..];
  }

  /** Sorting, by whatever comparator, changes nothing about what an object means. */
  lemma OrderDoesNotMatter(v: Value, compare: Comparator)
    requires v.Obj? && WellFormed(v)
    ensures ToMap(MeaningOfFields(Entries(v, compare), v)) == ToMap(MeaningOfFields(DefinedOf(v), v))
  {
    DefinedKeepsDistinct(v.fields);
    PermutedKeysDistinct(DefinedOf(v), Entries(v, compare));
    SortKeepsFields(DefinedOf(v), compare);
    SameFieldsSameMap(Entries(v, compare), DefinedOf(v), v);
  }

  lemma MeaningKeepsMembers(s: seq<Field>, t: seq<Field>, bound: Value)
    requires forall i :: 0 <= i < |s| ==> s[i].value < bound
    requires forall i :: 0 <= i < |t| ==> t[i].value < bound
    requires forall f :: f in s ==> f in t
    ensures forall e :: e in MeaningOfFields(s, bound) ==> e in MeaningOfFields(t, bound)
  {
    var ms, mt := MeaningOfFields(s, bound), MeaningOfFields(t, bound);
    MeaningOfFieldsAt(s, bound);
    MeaningOfFieldsAt(t, bound);
    forall e | e in ms ensures e in mt {
      var i :| 0 <= i < |ms| && ms[i] == e;
      assert s[i] in t;
      var j :| 0 <= j < |t| && t[j] == s[i];
      assert mt[j] == e;
    }
  }

  lemma SameFieldsSameMap(s: seq<Field>, t: seq<Field>, bound: Value)
    requires forall i :: 0 <= i < |s| ==> s[i].value < bound
    requires forall i :: 0 <= i < |t| ==> t[i].value < bound
    requires KeysDistinct(s) && KeysDistinct(t) && forall f :: f in s <==> f in t
    ensures ToMap(MeaningOfFields(s, bound)) == ToMap(MeaningOfFields(t, bound))
  {
    MeaningKeepsMembers(s, t, bound);
    MeaningKeepsMembers(t, s, bound);
    MeaningOfFieldsAt(s, bound);
    MeaningOfFieldsAt(t, bound);
    SameEntriesSameMap(MeaningOfFields(s, bound), MeaningOfFields(t, bound));
  }

  ghost predicate EntriesDistinct(entries: seq<Entry>) {
    forall i, j :: 0 <= i < j < |entries| ==> entries[i].key != entries[j].key
  }

  lemma SameEntriesSameMap(s: seq<Entry>, t: seq<Entry>)
    requires EntriesDistinct(s) && EntriesDistinct(t) && forall e :: e in s <==> e in t
    ensures ToMap(s) == ToMap(t)
  {
    ToMapExact(s);
    ToMapExact(t);
    forall k ensures k in ToMap(s) <==> k in ToMap(t) {
      if k in ToMap(s) { assert Entry(k, ToMap(s)[k]) in t; }
      if k in ToMap(t) { assert Entry(k, ToMap(t)[k]) in s; }
    }
    forall k | k in ToMap(s) ensures ToMap(s)[k] == ToMap(t)[k] {
      assert Entry(k, ToMap(s)[k]) in t;
    }
  }

  // ---------------------------------------------------------------- equal texts mean equal values

  /** No collision, whatever the comparators: equal texts come from values equal up to key order and undefined fields. */
  lemma EqualTextsMeanEqualValues(v: Value, w: Value, compare: Comparator, other: Comparator)
    requires WellFormed(v) && WellFormed(w) && Print(v, compare) == Print(w, other)
    ensures Meaning(v) == Meaning(w)
  {
    ValueDecodes(v, compare, []);
    ValueDecodes(w, other, []);
    assert Print(v, compare) + [] == Print(w, other) + [];
  }
}
