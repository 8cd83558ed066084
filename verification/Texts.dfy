/** JavaScript text: sequences of UTF-16 code units, with the order `sort()` uses, and the
    decimal and padded forms the ledger's ids are made of. */
module Texts {

  newtype CodeUnit = x: int | 0 <= x < 0x1_0000

  type Text = seq<CodeUnit>

  /** A literal written with characters of the basic plane. */
  function Lit(s: string): Text {
    seq(|s|, i requires 0 <= i < |s| => if s[i] as int < 0x1_0000 then s[i] as CodeUnit else 0xFFFD)
  }

  // ---- the order of `sort()`: code unit by code unit, a prefix first ----

  predicate Before(a: Text, b: Text) {
    if b == [] then false
    else if a == [] then true
    else if a[0] != b[0] then a[0] < b[0]
    else Before(a[1..], b[1..])
  }

  lemma {:induction false} BeforeIsTransitive(a: Text, b: Text, c: Text)
    requires Before(a, b) && Before(b, c)
    ensures Before(a, c)
  {
    if a != [] && a[0] == b[0] && b[0] == c[0] {
      BeforeIsTransitive(a[1..], b[1..], c[1..]);
    }
  }

  lemma {:induction false} BeforeIsTotal(a: Text, b: Text)
    ensures a == b || Before(a, b) || Before(b, a)
  {
    if a != [] && b != [] && a[0] == b[0] {
      BeforeIsTotal(a[1..], b[1..]);
      assert a == [a[0]] + a[1..] && b == [b[0]] + b[1..];
    }
  }

  lemma {:induction false} BeforeIsStrict(a: Text, b: Text)
    requires Before(a, b)
    ensures a != b && !Before(b, a)
  {
    if a != [] && a[0] == b[0] {
      BeforeIsStrict(a[1..], b[1..]);
    }
  }

  // ---- String.prototype.trim ----

  predicate Blank(u: CodeUnit) {
    9 <= u <= 13 || u == 32 || u == 160 || u == 0x1680 || 0x2000 <= u <= 0x200A || u == 0x2028 || u == 0x2029
    || u == 0x202F || u == 0x205F || u == 0x3000 || u == 0xFEFF
  }

  function TrimStart(t: Text): Text {
    if t != [] && Blank(t[0]) then TrimStart(t[1..]) else t
  }

  function Trim(t: Text): Text
    decreases |t|
  {
    if t != [] && Blank(t[|t| - 1]) then Trim(t[..|t| - 1]) else TrimStart(t)
  }

  // ---- numbers ----

  predicate IsDigit(u: CodeUnit) {
    48 <= u <= 57
  }

  /** String(n). */
  function Decimal(n: nat): (t: Text)
    ensures t != [] && forall i :: 0 <= i < |t| ==> IsDigit(t[i])
  {
    if n < 10 then [(48 + n) as CodeUnit] else Decimal(n / 10) + [(48 + n % 10) as CodeUnit]
  }

  function Zeros(count: nat): (t: Text)
    ensures |t| == count && forall i :: 0 <= i < count ==> t[i] == 48
  {
    seq(count, _ => 48)
  }

  /** padStart(width, '0'). */
  function PadZero(t: Text, width: nat): Text {
    if |t| >= width then t else Zeros(width - |t|) + t
  }

  /** The digits a text ends with: what /(\d+)$/ captures. */
  function DigitTail(t: Text): Text {
    if t == [] || !IsDigit(t[|t| - 1]) then [] else DigitTail(t[..|t| - 1]) + [t[|t| - 1]]
  }

  /** Number(digits), with 0 for no digits. */
  function Value(digits: Text): nat {
    if digits == [] then 0
    else 10 * Value(digits[..|digits| - 1])
         + (if IsDigit(digits[|digits| - 1]) then digits[|digits| - 1] as int - 48 else 0)
  }

  lemma {:induction false} ValueOfDecimal(n: nat)
    ensures Value(Decimal(n)) == n
  {
    if n >= 10 {
      ValueOfDecimal(n / 10);
      assert Decimal(n)[..|Decimal(n)| - 1] == Decimal(n / 10);
    }
  }

  lemma {:induction false} ValueOfPadded(zeros: nat, t: Text)
    ensures Value(Zeros(zeros) + t) == Value(t)
  {
    if t == [] {
      assert Zeros(zeros) + t == Zeros(zeros);
      if zeros > 0 {
        assert Zeros(zeros)[..zeros - 1] == Zeros(zeros - 1) + [];
        ValueOfPadded(zeros - 1, []);
      }
    } else {
      assert (Zeros(zeros) + t)[..zeros + |t| - 1] == Zeros(zeros) + t[..|t| - 1];
      ValueOfPadded(zeros, t[..|t| - 1]);
    }
  }

  lemma {:induction false} DigitTailIs(head: Text, digits: Text)
    requires head == [] || !IsDigit(head[|head| - 1])
    requires forall i :: 0 <= i < |digits| ==> IsDigit(digits[i])
    ensures DigitTail(head + digits) == digits
  {
    if digits == [] {
      assert head + digits == head;
    } else {
      assert (head + digits)[..|head + digits| - 1] == head + digits[..|digits| - 1];
      DigitTailIs(head, digits[..|digits| - 1]);
    }
  }

  predicate Digits(t: Text) {
    forall i :: 0 <= i < |t| ==> IsDigit(t[i])
  }

  lemma PaddedIsDigits(t: Text, width: nat)
    requires Digits(t)
    ensures Digits(PadZero(t, width))
  {
    if |t| < width {
      var z := Zeros(width - |t|);
      forall i | 0 <= i < |z + t| ensures IsDigit((z + t)[i]) {
        assert (z + t)[i] == if i < |z| then z[i] else t[i - |z|];
      }
    }
  }

  /** parse(pad(n)) == n: the number at the end of an id is the number it was made from. */
  lemma PaddedNumberReadsBack(prefix: Text, n: nat, width: nat)
    requires prefix == [] || !IsDigit(prefix[|prefix| - 1])
    ensures Value(DigitTail(prefix + PadZero(Decimal(n), width))) == n
  {
    hide Value;
    hide DigitTail;
    var t := Decimal(n);
    PaddedIsDigits(t, width);
    DigitTailIs(prefix, PadZero(t, width));
    ValueOfDecimal(n);
    hide Zeros;
    if |t| < width { ValueOfPadded(width - |t|, t); }
  }
}
