/**
 * Decimal text and numbers. Amounts are integer cents, so a JavaScript number `x`
 * stands for the cents value `x * 100`.
 */
module Numbers {
  import opened Options
  import Text

  predicate IsDigit(c: char) {
    '0' <= c <= '9'
  }

  predicate AllDigits(s: string) {
    forall i :: 0 <= i < |s| ==> IsDigit(s[i])
  }

  function DigitChar(d: nat): (c: char)
    requires d < 10
    ensures IsDigit(c)
  {
    ('0' as int + d) as char
  }

  function DigitValue(c: char): (d: nat)
    requires IsDigit(c)
    ensures d < 10 && DigitChar(d) == c
  {
    c as int - '0' as int
  }

  function Pow10(w: nat): (p: nat)
    ensures p >= 1
  {
    if w == 0 then 1 else 10 * Pow10(w - 1)
  }

  /** The value of a string of decimal digits, most significant first. */
  function Value(s: string): nat
    requires AllDigits(s)
  {
    if s == [] then 0 else Value(s[..|s| - 1]) * 10 + DigitValue(s[|s| - 1])
  }

  /** Appending a digit multiplies the value by ten and adds the digit. */
  lemma ValueSnoc(p: string, d: nat)
    requires AllDigits(p) && d < 10
    ensures Value(p + [DigitChar(d)]) == Value(p) * 10 + d
  {
    var r := p + [DigitChar(d)];
    assert r[..|r| - 1] == p;
  }

  lemma DivBelow(n: nat, p: nat)
    requires n < 10 * p
    ensures n / 10 < p
  {
  }

  /** The last `w` decimal digits of `n`, zero-padded on the left: `String(n).padStart(w, '0')` when `n` fits. */
  function Digits(n: nat, w: nat): (r: string)
    ensures |r| == w && AllDigits(r)
  {
    if w == 0 then [] else Digits(n / 10, w - 1) + [DigitChar(n % 10)]
  }

  /** Reading back `w` padded digits gives the number, when it has at most `w` digits. */
  lemma {:induction false} ValueOfDigits(n: nat, w: nat)
    requires n < Pow10(w)
    ensures Value(Digits(n, w)) == n
  {
    if w > 0 {
      var prefix := Digits(n / 10, w - 1);
      assert n / 10 < Pow10(w - 1) by { DivBelow(n, Pow10(w - 1)); }
      ValueOfDigits(n / 10, w - 1);
      ValueSnoc(prefix, n % 10);
    }
  }

  /** The number of decimal digits of `n` (1 for 0). */
  function Width(n: nat): (w: nat)
    ensures w >= 1 && n < Pow10(w)
  {
    if n < 10 then 1 else 1 + Width(n / 10)
  }

  /** `String(n)` for a whole number. */
  function NatText(n: nat): (r: string)
    ensures |r| >= 1 && AllDigits(r)
  {
    Digits(n, Width(n))
  }

  lemma ValueOfNatText(n: nat)
    ensures Value(NatText(n)) == n
  {
    ValueOfDigits(n, Width(n));
  }

  /** `String(n)` has no leading zero: only the number 0 is written starting with `0`, as the single digit. */
  lemma {:induction false} NatTextNoLeadingZero(n: nat)
    ensures NatText(n)[0] == '0' ==> n == 0 && |NatText(n)| == 1
  {
    if n >= 10 {
      NatTextNoLeadingZero(n / 10);
      assert NatText(n) == NatText(n / 10) + [DigitChar(n % 10)];
    }
  }

  /** The longest prefix of `s` made of digits. */
  function DigitPrefix(s: string): (r: string)
    ensures AllDigits(r) && |r| <= |s| && r == s[..|r|]
    ensures |r| == |s| || !IsDigit(s[|r|])
  {
    if s != [] && IsDigit(s[0]) then [s[0]] + DigitPrefix(s[1..]) else []
  }

  /** A digit prefix stops exactly where the digits stop. */
  lemma {:induction false} DigitPrefixOf(a: string, b: string)
    requires AllDigits(a)
    requires b == [] || !IsDigit(b[0])
    ensures DigitPrefix(a + b) == a
  {
    if a != [] {
      assert (a + b)[1..] == a[1..] + b;
      DigitPrefixOf(a[1..], b);
      assert a == [a[0]] + a[1..];
    } else {
      assert a + b == b;
    }
  }

  /** The cents contributed by the digits after the decimal point; later digits are cut off. */
  function FractionCents(f: string): (c: nat)
    requires AllDigits(f)
    ensures c < 100
  {
    (if |f| >= 1 then DigitValue(f[0]) * 10 else 0) + (if |f| >= 2 then DigitValue(f[1]) else 0)
  }

  /** The sign, whole digits and fraction digits of the longest decimal prefix (after leading white space). */
  datatype Decimal = Decimal(negative: bool, whole: string, fraction: string)

  function ScanDecimal(s: string): (d: Decimal)
    ensures AllDigits(d.whole) && AllDigits(d.fraction)
  {
    var t := Text.TrimStart(s);
    var negative := |t| > 0 && t[0] == '-';
    var u := if |t| > 0 && (t[0] == '-' || t[0] == '+') then t[1..] else t;
    var whole := DigitPrefix(u);
    var rest := u[|whole|..];
    var fraction := if |rest| > 0 && rest[0] == '.' then DigitPrefix(rest[1..]) else [];
    Decimal(negative, whole, fraction)
  }

  /**
   * `parseFloat(s)` in cents: None for NaN. Leading white space and a sign are accepted, then digits
   * with an optional decimal point; reading stops at the first character that does not fit.
   */
  function ParseCents(s: string): Option<int> {
    DecimalCents(ScanDecimal(s))
  }

  /** The cents value of a scanned decimal, None when it holds no digit at all. */
  function DecimalCents(d: Decimal): (r: Option<int>)
    requires AllDigits(d.whole) && AllDigits(d.fraction)
  {
    if d.whole == [] && d.fraction == [] then None
    else Some(SignedCents(d.negative, Value(d.whole), FractionCents(d.fraction)))
  }

  /** The cents of a decimal with the given sign, whole part and cents part. */
  function SignedCents(negative: bool, whole: nat, cents: nat): int {
    if negative then -(whole * 100 + cents) else whole * 100 + cents
  }

  /** `parseInt(s)` (base 10): None for NaN. */
  function ParseInt(s: string): (r: Option<int>)
    ensures var d := ScanDecimal(s);
      r.None? <==> d.whole == []
  {
    var d := ScanDecimal(s);
    if d.whole == [] then None
    else Some(if d.negative then -(Value(d.whole) as int) else Value(d.whole))
  }

  /** The fraction part of `String(c / 100)` for a non-negative cents value: trailing zeros dropped. */
  function FractionText(c: nat): (r: string)
    ensures AllDigits(r) && |r| <= 2
  {
    if c % 100 == 0 then [] else if c % 10 == 0 then [DigitChar(c / 10 % 10)] else Digits(c % 100, 2)
  }

  /** `String(x)` for the amount of `c` cents (JavaScript's shortest decimal form). */
  function AmountText(c: int): (r: string)
  {
    var m: nat := if c < 0 then -c else c;
    var f := FractionText(m);
    (if c < 0 then "-" else "") + NatText(m / 100) + (if f == [] then "" else "." + f)
  }

  /** The text of an amount contains only digits, a minus sign and a decimal point. */
  lemma AmountTextAlphabet(c: int)
    ensures forall ch :: ch in AmountText(c) ==> IsDigit(ch) || ch == '-' || ch == '.'
  {
    var m: nat := if c < 0 then -c else c;
    var f := FractionText(m);
    var n := NatText(m / 100);
    forall ch | ch in AmountText(c) ensures IsDigit(ch) || ch == '-' || ch == '.' {
      if ch in n {
        var i :| 0 <= i < |n| && n[i] == ch;
      } else if ch in f {
        var i :| 0 <= i < |f| && f[i] == ch;
      }
    }
  }

  lemma FractionCentsOfText(m: nat)
    ensures FractionCents(FractionText(m)) == m % 100
  {
    var k := m % 100;
    TensAndUnits(m);
    if k != 0 {
      if m % 10 == 0 {
        assert FractionText(m) == [DigitChar(k / 10)];
      } else {
        TwoDigits(k);
        assert FractionText(m) == [DigitChar(k / 10), DigitChar(k % 10)];
      }
    }
  }

  /** The last two decimal digits of `m`. */
  lemma TensAndUnits(m: nat)
    ensures m % 100 == m % 100 / 10 * 10 + m % 10
    ensures m / 10 % 10 == m % 100 / 10 && m % 100 % 10 == m % 10
  {
  }

  lemma TwoDigits(k: nat)
    requires k < 100
    ensures Digits(k, 2) == [DigitChar(k / 10), DigitChar(k % 10)]
  {
    var hi, lo := k / 10, k % 10;
    assert hi < 10 && hi / 10 == 0 && hi % 10 == hi;
    assert Digits(k, 2) == Digits(hi, 1) + [DigitChar(lo)];
    assert Digits(hi, 1) == [] + [DigitChar(hi)];
  }

  /** The decimal part of a sign-free text: whole digits, then an optional point and fraction digits. */
  lemma ScanBody(n: string, f: string)
    requires AllDigits(n) && AllDigits(f) && n != []
    ensures var u := n + (if f == [] then "" else "." + f);
      DigitPrefix(u) == n && u[|n|..] == (if f == [] then "" else "." + f)
  {
    var tail := if f == [] then "" else "." + f;
    DigitPrefixOf(n, tail);
    assert (n + tail)[|n|..] == tail;
  }

  lemma ScanFraction(f: string)
    requires AllDigits(f)
    ensures var tail := if f == [] then "" else "." + f;
      (if |tail| > 0 && tail[0] == '.' then DigitPrefix(tail[1..]) else []) == f
  {
    if f != [] {
      assert ("." + f)[1..] == f;
      DigitPrefixOf(f, []);
      assert f + [] == f;
    }
  }

  /** Scanning signed text with whole digits and optional fraction digits recovers each part. */
  lemma ScanSigned(negative: bool, n: string, f: string)
    requires AllDigits(n) && AllDigits(f) && n != []
    ensures ScanDecimal((if negative then "-" else "") + n + (if f == [] then "" else "." + f)) == Decimal(negative, n, f)
  {
    var tail := if f == [] then "" else "." + f;
    var body := n + tail;
    var s := (if negative then "-" else "") + n + tail;
    assert s == (if negative then "-" else "") + body;
    assert IsDigit(n[0]);
    assert !Text.IsSpace(s[0]);
    assert Text.TrimStart(s) == s;
    assert |s| > 0 && (s[0] == '-' <==> negative);
    assert (s[0] == '-' || s[0] == '+') <==> negative;
    var u := if negative then s[1..] else s;
    assert u == body;
    ScanBody(n, f);
    assert DigitPrefix(u) == n && u[|n|..] == tail;
    ScanFraction(f);
  }

  /** `parseFloat` of signed text with whole digits and optional fraction digits. */
  lemma ParseSigned(negative: bool, n: string, f: string, text: string)
    requires AllDigits(n) && AllDigits(f) && n != []
    requires text == (if negative then "-" else "") + n + (if f == [] then "" else "." + f)
    ensures ParseCents(text) == Some(SignedCents(negative, Value(n), FractionCents(f)))
  {
    ScanSigned(negative, n, f);
    DecimalCentsOfDigits(negative, n, f);
  }

  /** Reading back the text of an amount with `parseFloat` gives the amount. */
  lemma ParseAmountText(c: int)
    ensures ParseCents(AmountText(c)) == Some(c)
  {
    var m: nat := if c < 0 then -c else c;
    var n, f := NatText(m / 100), FractionText(m);
    ParseSigned(c < 0, n, f, AmountText(c));
    ValueOfNatText(m / 100);
    FractionCentsOfText(m);
    assert ParseCents(AmountText(c)) == Some(SignedCents(c < 0, m / 100, m % 100));
    SignedCentsOfSplit(c);
  }

  lemma SignedCentsOfSplit(c: int)
    ensures var m: nat := if c < 0 then -c else c;
      SignedCents(c < 0, m / 100, m % 100) == c
  {
  }

  lemma DecimalCentsOfDigits(negative: bool, n: string, f: string)
    requires AllDigits(n) && AllDigits(f) && n != []
    ensures DecimalCents(Decimal(negative, n, f)) == Some(SignedCents(negative, Value(n), FractionCents(f)))
  {
  }

}
