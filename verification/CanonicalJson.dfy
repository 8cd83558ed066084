/** `stableStringify` of beta-app/snapshot-integrity.mjs: one text per JSON value up to the
    order of object keys. */
module CanonicalJson {
  import opened Texts

  /** A JSON value.  A number is its `Number.prototype.toString` text; the fields of an
      object are in insertion order. */
  datatype Json =
    | Null
    | Bool(bit: bool)
    | Num(token: Text)
    | Str(text: Text)
    | Arr(items: seq<Json>)
    | Obj(fields: seq<Field>)

  datatype Field = Field(key: Text, value: Json)

  const QUOTE: CodeUnit := 34
  const COMMA: CodeUnit := 44
  const COLON: CodeUnit := 58
  const BACKSLASH: CodeUnit := 92

  const NULL_TEXT: Text := [110, 117, 108, 108]
  const TRUE_TEXT: Text := [116, 114, 117, 101]
  const FALSE_TEXT: Text := [102, 97, 108, 115, 101]

  // ---- which values there are ----

  /** Characters of a number's text: digits, sign, point, exponent. */
  predicate NumberUnit(u: CodeUnit) {
    IsDigit(u) || u == 43 || u == 45 || u == 46 || u == 101
  }

  predicate NumberToken(t: Text) {
    t != [] && (IsDigit(t[0]) || t[0] == 45) && forall i :: 0 <= i < |t| ==> NumberUnit(t[i])
  }

  predicate KeysDistinct(fields: seq<Field>) {
    forall i, j :: 0 <= i < j < |fields| ==> fields[i].key != fields[j].key
  }

  predicate WellFormed(j: Json) {
    match j
    case Num(token) => NumberToken(token)
    case Arr(items) => forall i :: 0 <= i < |items| ==> WellFormed(items[i])
    case Obj(fields) => KeysDistinct(fields) && forall i :: 0 <= i < |fields| ==> WellFormed(fields[i].value)
    case _ => true
  }

  function Keys(fields: seq<Field>): set<Text> {
    set i | 0 <= i < |fields| :: fields[i].key
  }

  /** Equal up to the order of object keys, at every depth. */
  ghost predicate Same(a: Json, b: Json)
    decreases a
  {
    match (a, b)
    case (Arr(xs), Arr(ys)) => |xs| == |ys| && forall i :: 0 <= i < |xs| ==> Same(xs[i], ys[i])
    case (Obj(fs), Obj(gs)) =>
      && Keys(fs) == Keys(gs)
      && forall i, k :: 0 <= i < |fs| && 0 <= k < |gs| && fs[i].key == gs[k].key ==> Same(fs[i].value, gs[k].value)
    case _ => a == b
  }

  // ---- JSON.stringify of a text ----

  predicate HighSurrogate(u: CodeUnit) { 0xD800 <= u <= 0xDBFF }

  predicate LowSurrogate(u: CodeUnit) { 0xDC00 <= u <= 0xDFFF }

  predicate LoneSurrogate(s: Text, i: nat)
    requires i < |s|
  {
    (HighSurrogate(s[i]) && !(i + 1 < |s| && LowSurrogate(s[i + 1])))
    || (LowSurrogate(s[i]) && !(i > 0 && HighSurrogate(s[i - 1])))
  }

  function HexDigit(n: int): CodeUnit
    requires 0 <= n < 16
  {
    if n < 10 then (48 + n) as CodeUnit else (87 + n) as CodeUnit
  }

  function HexValue(u: CodeUnit): int {
    if u < 58 then u as int - 48 else u as int - 87
  }

  /** \uXXXX in lower-case hex. */
  function UnicodeEscape(u: CodeUnit): (t: Text)
    ensures |t| == 6
  {
    var n := u as int;
    [BACKSLASH, 117, HexDigit(n / 4096), HexDigit(n / 256 % 16), HexDigit(n / 16 % 16), HexDigit(n % 16)]
  }

  /** The letter of a two-character escape, or 0. */
  function ShortEscape(u: CodeUnit): CodeUnit {
    if u == 8 then 98 else if u == 9 then 116 else if u == 10 then 110 else if u == 12 then 102
    else if u == 13 then 114 else if u == QUOTE then QUOTE else if u == BACKSLASH then BACKSLASH else 0
  }

  /** How the unit at `i` is written inside the quotes. */
  function QuoteUnit(s: Text, i: nat): Text
    requires i < |s|
  {
    if ShortEscape(s[i]) != 0 then [BACKSLASH, ShortEscape(s[i])]
    else if s[i] < 32 || LoneSurrogate(s, i) then UnicodeEscape(s[i])
    else [s[i]]
  }

  function QuoteFrom(s: Text, i: nat): Text
    requires i <= |s|
    decreases |s| - i
  {
    if i == |s| then [QUOTE] else QuoteUnit(s, i) + QuoteFrom(s, i + 1)
  }

  function Quote(s: Text): Text {
    [QUOTE] + QuoteFrom(s, 0)
  }

  // ---- stableStringify ----

  function Size(j: Json): nat {
    match j
    case Arr(items) => 1 + SizeAll(items)
    case Obj(fields) => 1 + SizeFields(fields)
    case _ => 0
  }

  function SizeAll(items: seq<Json>): nat {
    if items == [] then 0 else 1 + Size(items[0]) + SizeAll(items[1..])
  }

  function SizeFields(fields: seq<Field>): nat {
    if fields == [] then 0 else 1 + Size(fields[0].value) + SizeFields(fields[1..])
  }

  function InsertField(f: Field, sorted: seq<Field>): (r: seq<Field>)
    ensures SizeFields(r) == 1 + Size(f.value) + SizeFields(sorted)
  {
    if sorted == [] || Before(f.key, sorted[0].key) then [f] + sorted
    else
      var r := [sorted[0]] + InsertField(f, sorted[1..]);
      assert r[1..] == InsertField(f, sorted[1..]);
      r
  }

  /** The fields in the order of their sorted keys. */
  function SortFields(fields: seq<Field>): (r: seq<Field>)
    ensures SizeFields(r) == SizeFields(fields)
  {
    if fields == [] then [] else InsertField(fields[0], SortFields(fields[1..]))
  }

  function Join(parts: seq<Text>): Text {
    if parts == [] then [] else if |parts| == 1 then parts[0] else parts[0] + [COMMA] + Join(parts[1..])
  }

  function StableStringify(j: Json): Text
    decreases Size(j), 1
  {
    match j
    case Null => NULL_TEXT
    case Bool(bit) => if bit then TRUE_TEXT else FALSE_TEXT
    case Num(token) => token
    case Str(text) => Quote(text)
    case Arr(items) => [91] + Join(StringifyAll(items)) + [93]
    case Obj(fields) => [123] + Join(StringifyFields(SortFields(fields))) + [125]
  }

  function StringifyAll(items: seq<Json>): (r: seq<Text>)
    ensures |r| == |items|
    decreases SizeAll(items), 0
  {
    if items == [] then [] else [StableStringify(items[0])] + StringifyAll(items[1..])
  }

  function StringifyFields(fields: seq<Field>): (r: seq<Text>)
    ensures |r| == |fields|
    decreases SizeFields(fields), 0
  {
    if fields == [] then []
    else [Quote(fields[0].key) + [COLON] + StableStringify(fields[0].value)] + StringifyFields(fields[1..])
  }

  // ---- reading a text back ----

  /** What an escape letter stands for. */
  function Unescaped(letter: CodeUnit): CodeUnit {
    if letter == 98 then 8 else if letter == 116 then 9 else if letter == 110 then 10 else if letter == 102 then 12
    else if letter == 114 then 13 else letter
  }

  /** The unit a quoted text starts with. */
  function ReadUnit(t: Text): CodeUnit {
    if t == [] then 0
    else if t[0] != BACKSLASH || |t| < 2 then t[0]
    else if t[1] != 117 then Unescaped(t[1])
    else if |t| < 6 then 0
    else
      var n := HexValue(t[2]) * 4096 + HexValue(t[3]) * 256 + HexValue(t[4]) * 16 + HexValue(t[5]);
      if 0 <= n < 0x1_0000 then n as CodeUnit else 0
  }

  /** How many units it takes up. */
  function ReadLength(t: Text): nat {
    if |t| < 2 || t[0] != BACKSLASH then 1 else if t[1] != 117 then 2 else 6
  }

  lemma HexDigitReadsBack(n: int)
    requires 0 <= n < 16
    ensures HexValue(HexDigit(n)) == n
  {
  }

  lemma FourHexDigits(n: int)
    requires 0 <= n < 0x1_0000
    ensures 0 <= n / 4096 < 16
    ensures n / 4096 * 4096 + n / 256 % 16 * 256 + n / 16 % 16 * 16 + n % 16 == n
  {
    var a, b, c := n / 16, n / 256, n / 4096;
    assert n == 16 * a + n % 16;
    assert b == a / 16 && c == b / 16;
    assert a == 16 * b + a % 16 && b == 16 * c + b % 16;
  }

  lemma HexReadsBack(u: CodeUnit, rest: Text)
    ensures ReadUnit(UnicodeEscape(u) + rest) == u && ReadLength(UnicodeEscape(u) + rest) == 6
  {
    var t, n := UnicodeEscape(u) + rest, u as int;
    FourHexDigits(n);
    HexDigitReadsBack(n / 4096);
    HexDigitReadsBack(n / 256 % 16);
    HexDigitReadsBack(n / 16 % 16);
    HexDigitReadsBack(n % 16);
    hide HexValue;
    hide HexDigit;
    assert t[0] == BACKSLASH && t[1] == 117 && t[2] == HexDigit(n / 4096) && t[3] == HexDigit(n / 256 % 16);
    assert t[4] == HexDigit(n / 16 % 16) && t[5] == HexDigit(n % 16);
  }

  lemma UnitReadsBack(s: Text, i: nat, rest: Text)
    requires i < |s|
    ensures var t := QuoteUnit(s, i) + rest;
            t[0] != QUOTE && ReadUnit(t) == s[i] && ReadLength(t) == |QuoteUnit(s, i)|
  {
    if ShortEscape(s[i]) == 0 && (s[i] < 32 || LoneSurrogate(s, i)) {
      HexReadsBack(s[i], rest);
    }
  }

  /** The next unit, or the closing quote, can be read off. */
  lemma QuoteStep(s: Text, i: nat, rest: Text)
    requires i <= |s|
    ensures var w := QuoteFrom(s, i) + rest;
            if i == |s| then w[0] == QUOTE && w[1..] == rest
            else w[0] != QUOTE && ReadUnit(w) == s[i] && ReadLength(w) <= |w|
                 && w[ReadLength(w)..] == QuoteFrom(s, i + 1) + rest
  {
    var w := QuoteFrom(s, i) + rest;
    if i < |s| {
      assert w == QuoteUnit(s, i) + (QuoteFrom(s, i + 1) + rest);
      UnitReadsBack(s, i, QuoteFrom(s, i + 1) + rest);
    }
  }

  /** Quoted texts are uniquely readable: equal outputs mean equal texts and equal rests. */
  lemma {:induction false} QuoteReadsBack(s: Text, i: nat, t: Text, k: nat, r1: Text, r2: Text)
    requires i <= |s| && k <= |t|
    requires QuoteFrom(s, i) + r1 == QuoteFrom(t, k) + r2
    ensures s[i..] == t[k..] && r1 == r2
    decreases |s| - i
  {
    hide QuoteFrom;
    hide QuoteUnit;
    hide ReadUnit;
    hide ReadLength;
    QuoteStep(s, i, r1);
    QuoteStep(t, k, r2);
    if i < |s| && k < |t| {
      QuoteReadsBack(s, i + 1, t, k + 1, r1, r2);
      assert s[i..] == [s[i]] + s[i + 1..] && t[k..] == [t[k]] + t[k + 1..];
    }
  }

  // ---- sorted fields ----

  predicate Sorted(fields: seq<Field>) {
    forall i, j :: 0 <= i < j < |fields| ==> Before(fields[i].key, fields[j].key)
  }

  lemma {:induction false} InsertKeepsMembers(f: Field, sorted: seq<Field>)
    ensures multiset(InsertField(f, sorted)) == multiset(sorted) + multiset{f}
  {
    if sorted != [] && !Before(f.key, sorted[0].key) {
      InsertKeepsMembers(f, sorted[1..]);
      assert sorted == [sorted[0]] + sorted[1..];
    }
  }

  lemma FirstBeforeAll(f: Field, sorted: seq<Field>)
    requires Sorted(sorted) && sorted != [] && Before(f.key, sorted[0].key)
    ensures Sorted([f] + sorted)
  {
    hide Before;
    forall j | 0 <= j < |sorted| ensures Before(f.key, sorted[j].key) {
      if j > 0 { BeforeIsTransitive(f.key, sorted[0].key, sorted[j].key); }
    }
  }

  lemma SortedWithHead(head: Field, rest: seq<Field>)
    requires Sorted(rest) && forall g :: g in rest ==> Before(head.key, g.key)
    ensures Sorted([head] + rest)
  {
    hide Before;
    forall j | 0 <= j < |rest| ensures Before(head.key, rest[j].key) {
      assert rest[j] in rest;
    }
  }

  lemma {:induction false} InsertSorts(f: Field, sorted: seq<Field>)
    requires Sorted(sorted) && forall i :: 0 <= i < |sorted| ==> sorted[i].key != f.key
    ensures Sorted(InsertField(f, sorted))
  {
    hide Before;
    if sorted != [] {
      BeforeIsTotal(f.key, sorted[0].key);
      if Before(f.key, sorted[0].key) {
        FirstBeforeAll(f, sorted);
      } else {
        var rest := InsertField(f, sorted[1..]);
        InsertSorts(f, sorted[1..]);
        InsertKeepsMembers(f, sorted[1..]);
        forall g | g in rest ensures Before(sorted[0].key, g.key) {
          assert g in multiset(rest);
          assert g == f || g in sorted[1..];
        }
        SortedWithHead(sorted[0], rest);
      }
    }
  }

  lemma {:induction false} SortSorts(fields: seq<Field>)
    requires KeysDistinct(fields)
    ensures Sorted(SortFields(fields)) && multiset(SortFields(fields)) == multiset(fields)
  {
    hide Before;
    hide InsertField;
    if fields != [] {
      SortSorts(fields[1..]);
      var rest := SortFields(fields[1..]);
      forall i | 0 <= i < |rest| ensures rest[i].key != fields[0].key {
        assert rest[i] in multiset(rest);
        assert rest[i] in fields[1..];
      }
      InsertSorts(fields[0], rest);
      InsertKeepsMembers(fields[0], rest);
      assert fields == [fields[0]] + fields[1..];
    }
  }

  lemma SortKeepsMembers(fields: seq<Field>)
    requires KeysDistinct(fields)
    ensures forall f :: f in SortFields(fields) <==> f in fields
    ensures Keys(SortFields(fields)) == Keys(fields)
  {
    SortSorts(fields);
    var sorted := SortFields(fields);
    forall f ensures f in sorted <==> f in fields {
      assert f in sorted <==> f in multiset(sorted);
    }
    KeysOfMembers(sorted, fields);
    KeysOfMembers(fields, sorted);
  }

  lemma KeysOfMembers(a: seq<Field>, b: seq<Field>)
    requires forall f :: f in a ==> f in b
    ensures Keys(a) <= Keys(b)
  {
    forall k | k in Keys(a) ensures k in Keys(b) {
      var i :| 0 <= i < |a| && a[i].key == k;
      assert a[i] in b;
      var j :| 0 <= j < |b| && b[j] == a[i];
    }
  }

  /** Two sorted lists of fields with the same keys have them at the same places. */
  lemma {:induction false} SortedKeysAgree(a: seq<Field>, b: seq<Field>)
    requires Sorted(a) && Sorted(b) && Keys(a) == Keys(b)
    ensures |a| == |b| && forall i :: 0 <= i < |a| ==> a[i].key == b[i].key
  {
    if a == [] {
      NoKeys(b);
    } else {
      assert a[0].key in Keys(b);
      HeadIsLeast(b, a[0].key);
      assert b[0].key in Keys(b);
      HeadIsLeast(a, b[0].key);
      if Before(a[0].key, b[0].key) { BeforeIsStrict(a[0].key, b[0].key); }
      TailKeys(a);
      TailKeys(b);
      SortedKeysAgree(a[1..], b[1..]);
    }
  }

  lemma NoKeys(b: seq<Field>)
    ensures Keys(b) == {} ==> b == []
  {
    if b != [] {
      assert b[0].key in Keys(b);
    }
  }

  lemma HeadIsLeast(a: seq<Field>, k: Text)
    requires Sorted(a) && k in Keys(a)
    ensures a != [] && (k == a[0].key || Before(a[0].key, k))
  {
  }

  lemma TailKeys(a: seq<Field>)
    requires a != [] && Sorted(a)
    ensures Keys(a[1..]) == Keys(a) - {a[0].key}
  {
    forall k | k in Keys(a) - {a[0].key} ensures k in Keys(a[1..]) {
      var i :| 0 <= i < |a| && a[i].key == k;
      assert a[1..][i - 1].key == k;
    }
    forall k | k in Keys(a[1..]) ensures k in Keys(a) - {a[0].key} {
      var i :| 0 <= i < |a[1..]| && a[1..][i].key == k;
      assert a[i + 1].key == k;
      BeforeIsStrict(a[0].key, k);
    }
  }

  lemma SortedValuesWellFormed(fields: seq<Field>)
    requires WellFormed(Obj(fields))
    ensures Sorted(SortFields(fields)) && Keys(SortFields(fields)) == Keys(fields)
    ensures AllWellFormed(SortFields(fields))
  {
    SortSorts(fields);
    SortKeepsMembers(fields);
    var sorted := SortFields(fields);
    forall i | 0 <= i < |sorted| ensures WellFormed(sorted[i].value) {
      assert sorted[i] in fields;
    }
  }

  predicate AllWellFormed(fields: seq<Field>) {
    forall i :: 0 <= i < |fields| ==> WellFormed(fields[i].value)
  }

  /** Same keys at the same places, same values under them. */
  ghost predicate Aligned(a: seq<Field>, b: seq<Field>) {
    |a| == |b| && forall i :: 0 <= i < |a| ==> a[i].key == b[i].key && Same(a[i].value, b[i].value)
  }

  // ---- equal values have equal texts ----

  lemma {:induction false} SameGivesText(a: Json, b: Json)
    requires WellFormed(a) && WellFormed(b) && Same(a, b)
    ensures StableStringify(a) == StableStringify(b)
    decreases Size(a), 1
  {
    match (a, b)
    case (Arr(xs), Arr(ys)) => ItemsGiveText(xs, ys);
    case (Obj(fs), Obj(gs)) =>
      SortedValuesWellFormed(fs);
      SortedValuesWellFormed(gs);
      SameFieldsAlign(fs, gs);
      FieldsGiveText(SortFields(fs), SortFields(gs));
    case _ =>
  }

  lemma {:induction false} ItemsGiveText(xs: seq<Json>, ys: seq<Json>)
    requires |xs| == |ys| && forall i :: 0 <= i < |xs| ==> WellFormed(xs[i]) && WellFormed(ys[i]) && Same(xs[i], ys[i])
    ensures StringifyAll(xs) == StringifyAll(ys)
    decreases SizeAll(xs), 0
  {
    if xs != [] {
      SameGivesText(xs[0], ys[0]);
      ItemsGiveText(xs[1..], ys[1..]);
    }
  }

  lemma {:induction false} FieldsGiveText(fs: seq<Field>, gs: seq<Field>)
    requires Aligned(fs, gs) && AllWellFormed(fs) && AllWellFormed(gs)
    ensures StringifyFields(fs) == StringifyFields(gs)
    decreases SizeFields(fs), 0
  {
    if fs != [] {
      SameGivesText(fs[0].value, gs[0].value);
      FieldsGiveText(fs[1..], gs[1..]);
    }
  }

  lemma SameFieldsAlign(fs: seq<Field>, gs: seq<Field>)
    requires KeysDistinct(fs) && KeysDistinct(gs) && Same(Obj(fs), Obj(gs))
    ensures Aligned(SortFields(fs), SortFields(gs))
  {
    var a, b := SortFields(fs), SortFields(gs);
    SortSorts(fs);
    SortSorts(gs);
    SortKeepsMembers(fs);
    SortKeepsMembers(gs);
    SortedKeysAgree(a, b);
    forall i | 0 <= i < |a| ensures Same(a[i].value, b[i].value) {
      assert a[i] in fs && b[i] in gs;
      var j :| 0 <= j < |fs| && fs[j] == a[i];
      var k :| 0 <= k < |gs| && gs[k] == b[i];
    }
  }

  // ---- equal texts have equal values ----

  /** A rest that cannot be the continuation of a number. */
  predicate Stops(rest: Text) {
    rest == [] || !NumberUnit(rest[0])
  }

  lemma FirstUnit(j: Json)
    requires WellFormed(j)
    ensures var t := StableStringify(j);
            t != [] &&
            match j
            case Null => t[0] == 110
            case Bool(bit) => t[0] == if bit then 116 else 102
            case Num(_) => IsDigit(t[0]) || t[0] == 45
            case Str(_) => t[0] == QUOTE
            case Arr(_) => t[0] == 91
            case Obj(_) => t[0] == 123
  {
  }

  /** Where the shorter of two overlapping texts ends, its rest goes on with the longer one. */
  lemma Overlap(t: Text, u: Text, r1: Text, r2: Text)
    requires t + r1 == u + r2 && |t| < |u|
    ensures r1 != [] && r1[0] == u[|t|]
  {
    assert (t + r1)[|t|] == (u + r2)[|t|];
  }

  lemma TokensEqual(t: Text, u: Text, r1: Text, r2: Text)
    requires NumberToken(t) && NumberToken(u) && Stops(r1) && Stops(r2) && t + r1 == u + r2
    ensures t == u && r1 == r2
  {
    if |t| < |u| { Overlap(t, u, r1, r2); }
    if |u| < |t| { Overlap(u, t, r2, r1); }
    SplitEqual(t, u, r1, r2);
  }

  lemma SplitEqual(t: Text, u: Text, r1: Text, r2: Text)
    requires |t| == |u| && t + r1 == u + r2
    ensures t == u && r1 == r2
  {
    assert (t + r1)[..|t|] == t && (u + r2)[..|u|] == u;
    assert (t + r1)[|t|..] == r1 && (u + r2)[|u|..] == r2;
  }

  /** What follows an item of a joined list closed by `close`. */
  function After(parts: seq<Text>, close: CodeUnit, rest: Text): Text
    requires parts != []
  {
    if |parts| == 1 then [close] + rest else [COMMA] + Join(parts[1..]) + [close] + rest
  }

  lemma JoinStep(parts: seq<Text>, close: CodeUnit, rest: Text)
    requires parts != []
    ensures Join(parts) + [close] + rest == parts[0] + After(parts, close, rest)
  {
  }

  /** Equal continuations: both lists end here, or both go on with equal texts. */
  lemma AfterAgrees(p: seq<Text>, q: seq<Text>, close: CodeUnit, r1: Text, r2: Text)
    requires p != [] && q != [] && close != COMMA
    requires After(p, close, r1) == After(q, close, r2)
    ensures |p| == 1 <==> |q| == 1
    ensures |p| == 1 ==> r1 == r2
    ensures |p| > 1 ==> Join(p[1..]) + [close] + r1 == Join(q[1..]) + [close] + r2
  {
    hide Join;
    var a, b := After(p, close, r1), After(q, close, r2);
    assert a[0] == if |p| == 1 then close else COMMA;
    assert b[0] == if |q| == 1 then close else COMMA;
    if |p| == 1 {
      assert a[1..] == r1 && b[1..] == r2;
    } else {
      assert a[1..] == Join(p[1..]) + [close] + r1;
      assert b[1..] == Join(q[1..]) + [close] + r2;
    }
  }

  lemma TailsEqual(t: Text, u: Text, r1: Text, r2: Text, n: nat)
    requires t + r1 == u + r2 && n <= |t| && n <= |u|
    ensures t[n..] + r1 == u[n..] + r2
  {
    assert (t + r1)[n..] == t[n..] + r1;
    assert (u + r2)[n..] == u[n..] + r2;
  }

  lemma QuotesEqual(s: Text, t: Text, r1: Text, r2: Text)
    requires Quote(s) + r1 == Quote(t) + r2
    ensures s == t && r1 == r2
  {
    hide QuoteFrom;
    TailsEqual(Quote(s), Quote(t), r1, r2, 1);
    assert Quote(s)[1..] == QuoteFrom(s, 0) && Quote(t)[1..] == QuoteFrom(t, 0);
    QuoteReadsBack(s, 0, t, 0, r1, r2);
    assert s[0..] == s && t[0..] == t;
  }

  lemma BracketsEqual(p: Text, q: Text, open: CodeUnit, close: CodeUnit, r1: Text, r2: Text)
    requires [open] + p + [close] + r1 == [open] + q + [close] + r2
    ensures p + [close] + r1 == q + [close] + r2
  {
    assert ([open] + p + [close] + r1)[1..] == p + [close] + r1;
    assert ([open] + q + [close] + r2)[1..] == q + [close] + r2;
  }

  /** Equal texts start alike, so the values have the same constructor (and the same bit). */
  lemma SameKind(a: Json, b: Json, r1: Text, r2: Text)
    requires WellFormed(a) && WellFormed(b)
    requires StableStringify(a) + r1 == StableStringify(b) + r2
    ensures a.Null? == b.Null? && a.Bool? == b.Bool? && a.Num? == b.Num? && a.Str? == b.Str?
    ensures a.Arr? == b.Arr? && a.Obj? == b.Obj?
    ensures a.Bool? ==> a == b
  {
    FirstUnit(a);
    FirstUnit(b);
    hide StableStringify;
    hide WellFormed;
    assert (StableStringify(a) + r1)[0] == StableStringify(a)[0];
    assert (StableStringify(b) + r2)[0] == StableStringify(b)[0];
  }

  lemma {:induction false} TextGivesSame(a: Json, b: Json, r1: Text, r2: Text)
    requires WellFormed(a) && WellFormed(b) && Stops(r1) && Stops(r2)
    requires StableStringify(a) + r1 == StableStringify(b) + r2
    ensures Same(a, b) && r1 == r2
    decreases Size(a), 1
  {
    SameKind(a, b, r1, r2);
    match a
    case Null => SplitEqual(NULL_TEXT, NULL_TEXT, r1, r2);
    case Bool(_) => SplitEqual(StableStringify(a), StableStringify(b), r1, r2);
    case Num(t) => TokensEqual(t, b.token, r1, r2);
    case Str(s) => QuotesEqual(s, b.text, r1, r2);
    case Arr(xs) =>
      BracketsEqual(Join(StringifyAll(xs)), Join(StringifyAll(b.items)), 91, 93, r1, r2);
      TextGivesItems(xs, b.items, r1, r2);
    case Obj(fs) =>
      var sf, sg := SortFields(fs), SortFields(b.fields);
      BracketsEqual(Join(StringifyFields(sf)), Join(StringifyFields(sg)), 123, 125, r1, r2);
      SortedValuesWellFormed(fs);
      SortedValuesWellFormed(b.fields);
      TextGivesFields(sf, sg, r1, r2);
      AlignedMeansSame(fs, b.fields);
  }

  lemma {:induction false} TextGivesItems(xs: seq<Json>, ys: seq<Json>, r1: Text, r2: Text)
    requires forall i :: 0 <= i < |xs| ==> WellFormed(xs[i])
    requires forall i :: 0 <= i < |ys| ==> WellFormed(ys[i])
    requires Join(StringifyAll(xs)) + [93] + r1 == Join(StringifyAll(ys)) + [93] + r2
    ensures Same(Arr(xs), Arr(ys)) && r1 == r2
    decreases SizeAll(xs), 0
  {
    hide StableStringify;
    hide WellFormed;
    var whole := Join(StringifyAll(xs)) + [93] + r1;
    ItemsStart(xs, r1);
    ItemsStart(ys, r2);
    if xs != [] && ys != [] {
      var a, b := After(StringifyAll(xs), 93, r1), After(StringifyAll(ys), 93, r2);
      JoinStep(StringifyAll(xs), 93, r1);
      JoinStep(StringifyAll(ys), 93, r2);
      TextGivesSame(xs[0], ys[0], a, b);
      AfterAgrees(StringifyAll(xs), StringifyAll(ys), 93, r1, r2);
      assert StringifyAll(xs)[1..] == StringifyAll(xs[1..]) && StringifyAll(ys)[1..] == StringifyAll(ys[1..]);
      if |xs| > 1 {
        TextGivesItems(xs[1..], ys[1..], r1, r2);
        assert xs == [xs[0]] + xs[1..] && ys == [ys[0]] + ys[1..];
      }
    } else {
      assert whole[1..] == r1 && whole[1..] == r2;
    }
  }

  /** A list is empty exactly when its closing bracket comes first. */
  lemma ItemsStart(xs: seq<Json>, rest: Text)
    requires forall i :: 0 <= i < |xs| ==> WellFormed(xs[i])
    ensures var w := Join(StringifyAll(xs)) + [93] + rest; w[0] == 93 <==> xs == []
  {
    hide StableStringify;
    hide Quote;
    hide WellFormed;
    hide Join;
    if xs == [] {
      EmptyJoin();
    } else {
      JoinStep(StringifyAll(xs), 93, rest);
      FirstUnit(xs[0]);
    }
  }

  lemma EmptyJoin()
    ensures Join([]) == []
  {
  }

  function Member(f: Field): Text {
    Quote(f.key) + [COLON] + StableStringify(f.value)
  }

  lemma {:induction false} TextGivesFields(fs: seq<Field>, gs: seq<Field>, r1: Text, r2: Text)
    requires AllWellFormed(fs) && AllWellFormed(gs)
    requires Join(StringifyFields(fs)) + [125] + r1 == Join(StringifyFields(gs)) + [125] + r2
    ensures Aligned(fs, gs) && r1 == r2
    decreases SizeFields(fs), 0
  {
    hide StableStringify;
    hide Quote;
    hide Same;
    hide WellFormed;
    var whole := Join(StringifyFields(fs)) + [125] + r1;
    FieldsStart(fs, r1);
    FieldsStart(gs, r2);
    if fs != [] && gs != [] {
      var a, b := After(StringifyFields(fs), 125, r1), After(StringifyFields(gs), 125, r2);
      JoinStep(StringifyFields(fs), 125, r1);
      JoinStep(StringifyFields(gs), 125, r2);
      MembersReadKeys(fs[0], gs[0], a, b);
      TextGivesSame(fs[0].value, gs[0].value, a, b);
      AfterAgrees(StringifyFields(fs), StringifyFields(gs), 125, r1, r2);
      assert StringifyFields(fs)[1..] == StringifyFields(fs[1..]) && StringifyFields(gs)[1..] == StringifyFields(gs[1..]);
      if |fs| > 1 {
        TextGivesFields(fs[1..], gs[1..], r1, r2);
        assert fs == [fs[0]] + fs[1..] && gs == [gs[0]] + gs[1..];
      }
    } else {
      assert whole[1..] == r1 && whole[1..] == r2;
    }
  }

  lemma FieldsStart(fs: seq<Field>, rest: Text)
    ensures var w := Join(StringifyFields(fs)) + [125] + rest; w[0] == 125 <==> fs == []
  {
  }

  lemma MembersReadKeys(f: Field, g: Field, r1: Text, r2: Text)
    requires Member(f) + r1 == Member(g) + r2
    ensures f.key == g.key && StableStringify(f.value) + r1 == StableStringify(g.value) + r2
  {
    hide StableStringify;
    hide Quote;
    var x, y := [COLON] + StableStringify(f.value) + r1, [COLON] + StableStringify(g.value) + r2;
    assert Member(f) + r1 == Quote(f.key) + x;
    assert Member(g) + r2 == Quote(g.key) + y;
    QuotesEqual(f.key, g.key, x, y);
    assert x[1..] == StableStringify(f.value) + r1 && y[1..] == StableStringify(g.value) + r2;
  }

  /** In aligned lists equal keys stand at the same place. */
  lemma AlignedPair(a: seq<Field>, b: seq<Field>, f: Field, g: Field)
    requires Sorted(b) && Aligned(a, b) && f in a && g in b && f.key == g.key
    ensures Same(f.value, g.value)
  {
    hide Same;
    var m :| 0 <= m < |a| && a[m] == f;
    var n :| 0 <= n < |b| && b[n] == g;
    if m < n { BeforeIsStrict(b[m].key, b[n].key); }
    if n < m { BeforeIsStrict(b[n].key, b[m].key); }
    hide Before;
  }

  lemma AlignedMeansSame(fs: seq<Field>, gs: seq<Field>)
    requires KeysDistinct(fs) && KeysDistinct(gs) && Aligned(SortFields(fs), SortFields(gs))
    ensures Same(Obj(fs), Obj(gs))
  {
    hide Aligned;
    hide Sorted;
    hide SortFields;
    var a, b := SortFields(fs), SortFields(gs);
    SortSorts(gs);
    SortKeepsMembers(fs);
    SortKeepsMembers(gs);
    AlignedKeys(a, b);
    forall i, k | 0 <= i < |fs| && 0 <= k < |gs| && fs[i].key == gs[k].key ensures Same(fs[i].value, gs[k].value) {
      AlignedPair(a, b, fs[i], gs[k]);
    }
  }

  lemma AlignedKeys(a: seq<Field>, b: seq<Field>)
    requires Aligned(a, b)
    ensures Keys(a) == Keys(b)
  {
  }

  // ---- the main result ----

  /** The canonical form: two JSON values have the same text exactly when they are equal up
      to the order of object keys. */
  lemma CanonicalForm(a: Json, b: Json)
    requires WellFormed(a) && WellFormed(b)
    ensures StableStringify(a) == StableStringify(b) <==> Same(a, b)
  {
    if Same(a, b) {
      SameGivesText(a, b);
    } else if StableStringify(a) == StableStringify(b) {
      assert StableStringify(a) + [] == StableStringify(b) + [];
      TextGivesSame(a, b, [], []);
    }
  }
}
