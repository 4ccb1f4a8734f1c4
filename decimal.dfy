/**
 * java.math.BigDecimal restricted to what the system uses: exact addition,
 * subtraction, multiplication by an Int, sign tests, the plain string form
 * (toPlainString) and the string constructor BigDecimal(String).
 * A value is an unscaled integer and a scale: unscaled × 10^-scale. Equality
 * of two Decimal values is BigDecimal.equals (scale-sensitive: 1.0 != 1.00).
 */
module Decimals {
  import opened Wrappers
  import opened Digits

  datatype Decimal = Decimal(unscaled: int, scale: nat)

  /** BigDecimal.ZERO */
  const Zero: Decimal := Decimal(0, 0)

  /** The exact numeric value denoted. */
  function Value(d: Decimal): real
  {
    d.unscaled as real / Pow(10, d.scale) as real
  }

  function Max(a: nat, b: nat): nat { if a < b then b else a }

  function Abs(x: int): nat { if x < 0 then -x else x }

  lemma SignOfValue(d: Decimal)
    ensures Value(d) >= 0.0 <==> d.unscaled >= 0
    ensures Value(d) == 0.0 <==> d.unscaled == 0
  {
    var p := Pow(10, d.scale) as real;
    assert Value(d) * p == d.unscaled as real;
  }

  lemma Cancel(x: real, p: real, k: real)
    requires p > 0.0 && k > 0.0
    ensures (x * k) / (p * k) == x / p
  {
    assert (x / p) * (p * k) == x * k;
  }

  /** The same number with a larger scale (BigDecimal.setScale without rounding). */
  function Rescale(d: Decimal, s: nat): (r: Decimal)
    requires d.scale <= s
    ensures r.scale == s && Value(r) == Value(d)
  {
    var k := Pow(10, s - d.scale);
    var r := Decimal(d.unscaled * k, s);
    PowAdd(10, d.scale, s - d.scale);
    Cancel(d.unscaled as real, Pow(10, d.scale) as real, k as real);
    r
  }

  /** BigDecimal.add: exact, with the larger of the two scales. */
  function Add(a: Decimal, b: Decimal): (r: Decimal)
    ensures r.scale == Max(a.scale, b.scale)
    ensures Value(r) == Value(a) + Value(b)
  {
    var s := Max(a.scale, b.scale);
    var a', b' := Rescale(a, s), Rescale(b, s);
    var r := Decimal(a'.unscaled + b'.unscaled, s);
    SumOfValues(a', b');
    r
  }

  /** BigDecimal.subtract: exact, with the larger of the two scales. */
  function Subtract(a: Decimal, b: Decimal): (r: Decimal)
    ensures r.scale == Max(a.scale, b.scale)
    ensures Value(r) == Value(a) - Value(b)
  {
    var s := Max(a.scale, b.scale);
    var a', b' := Rescale(a, s), Rescale(b, s);
    var r := Decimal(a'.unscaled - b'.unscaled, s);
    DifferenceOfValues(a', b');
    r
  }

  lemma SumOfValues(a: Decimal, b: Decimal)
    requires a.scale == b.scale
    ensures Value(Decimal(a.unscaled + b.unscaled, a.scale)) == Value(a) + Value(b)
  {
  }

  lemma DifferenceOfValues(a: Decimal, b: Decimal)
    requires a.scale == b.scale
    ensures Value(Decimal(a.unscaled - b.unscaled, a.scale)) == Value(a) - Value(b)
  {
  }

  /** BigDecimal.multiply(BigDecimal(q)) for an Int q (scale 0): exact, scale kept. */
  function MultiplyInt(a: Decimal, q: int): (r: Decimal)
    ensures r.scale == a.scale
    ensures Value(r) == Value(a) * q as real
  {
    var r := Decimal(a.unscaled * q, a.scale);
    ProductOfValue(a.unscaled as real, q as real, Pow(10, a.scale) as real);
    r
  }

  lemma ProductOfValue(u: real, q: real, p: real)
    requires p > 0.0
    ensures (u * q) / p == (u / p) * q
  {
  }

  /** BigDecimal.compareTo: the sign of a - b. */
  function CompareTo(a: Decimal, b: Decimal): (r: int)
    ensures r == -1 <==> Value(a) < Value(b)
    ensures r == 0 <==> Value(a) == Value(b)
    ensures r == 1 <==> Value(a) > Value(b)
  {
    var d := Subtract(a, b);
    SignOfValue(d);
    if d.unscaled < 0 then -1 else if d.unscaled == 0 then 0 else 1
  }

  // ---------------------------------------------------------------------
  // Plain string form

  /** Position of the first `c` in `s`. */
  function IndexOf(s: seq<char>, c: char): (r: Option<nat>)
    ensures r.Some? ==> r.value < |s| && s[r.value] == c && c !in s[..r.value]
    ensures r.None? ==> c !in s
  {
    if |s| == 0 then None
    else if s[0] == c then Some(0)
    else
      match IndexOf(s[1..], c)
      case None => None
      case Some(i) =>
        assert s[..i + 1] == [s[0]] + s[1..][..i];
        Some(i + 1)
  }

  /**
   * BigDecimal.toPlainString: an optional '-', the digits of |unscaled|
   * padded with leading zeros to at least scale + 1 digits, and a '.'
   * before the last `scale` digits when the scale is positive.
   */
  function ToPlainString(d: Decimal): (s: string)
    ensures |s| > 0
  {
    var m := Abs(d.unscaled);
    var w := Max(NumDigits(m), d.scale + 1);
    var ds := FixedDigits(m, w, 10);
    var body := if d.scale == 0 then ds else ds[..w - d.scale] + "." + ds[w - d.scale..];
    (if d.unscaled < 0 then "-" else "") + body
  }

  /** Why a string is not a decimal number (NumberFormatException). */
  datatype FormatError = NotADecimal(text: string)

  function Signed(negative: bool, m: nat): int
  {
    if negative then -(m as int) else m
  }

  /** A leading '-' or '+' and the text after it. */
  function StripSign(s: string): (r: (bool, string))
    ensures |r.1| >= |s| - 1
  {
    if |s| > 0 && (s[0] == '-' || s[0] == '+') then (s[0] == '-', s[1..]) else (false, s)
  }

  /** The digits before and after the first '.', if any. */
  function SplitFraction(body: string): (r: (string, string))
  {
    match IndexOf(body, '.')
    case None => (body, "")
    case Some(i) => (body[..i], body[i + 1..])
  }

  /**
   * The BigDecimal(String) constructor for plain notation: an optional sign,
   * integer digits, an optional '.' and fraction digits, with at least one
   * digit in all; the scale is the number of fraction digits.
   */
  function ParseDecimal(s: string): (r: Result<Decimal, FormatError>)
  {
    var signed := StripSign(s);
    var parts := SplitFraction(signed.1);
    var negative, whole, fraction := signed.0, parts.0, parts.1;
    if |whole| + |fraction| == 0 || !AllDigits(whole, 10) || !AllDigits(fraction, 10) then
      Failure(NotADecimal(s))
    else
      var digits := whole + fraction;
      ValueOfAppend(whole, fraction, 10);
      Success(Decimal(Signed(negative, ValueOf(digits, 10)), |fraction|))
  }

  lemma DigitsAreNotPunctuation(ds: seq<char>)
    requires AllDigits(ds, 10)
    ensures '.' !in ds && (|ds| > 0 ==> ds[0] != '-' && ds[0] != '+')
  {
  }

  lemma IndexOfFirst(a: seq<char>, c: char, b: seq<char>)
    requires c !in a
    ensures IndexOf(a + [c] + b, c) == Some(|a|)
  {
    var s := a + [c] + b;
    assert s[..|a|] == a;
    assert s[|a|] == c;
  }

  lemma StripSignOf(negative: bool, body: string)
    requires |body| > 0 && body[0] != '-' && body[0] != '+'
    ensures StripSign((if negative then "-" else "") + body) == (negative, body)
  {
    if negative {
      assert ("-" + body)[0] == '-';
      assert ("-" + body)[1..] == body;
    } else {
      assert "" + body == body;
    }
  }

  lemma SplitFractionOf(whole: string, dot: bool, fraction: string)
    requires '.' !in whole && (!dot ==> fraction == [])
    ensures SplitFraction(whole + (if dot then "." + fraction else "")) == (whole, fraction)
  {
    var body := whole + (if dot then "." + fraction else "");
    if dot {
      assert body == whole + ['.'] + fraction;
      IndexOfFirst(whole, '.', fraction);
      assert body[..|whole|] == whole;
      assert body[|whole| + 1..] == fraction;
    } else {
      assert body == whole;
    }
  }

  /** An optional '-', integer digits and, when `dot`, a '.' and fraction digits. */
  function PlainForm(negative: bool, whole: string, dot: bool, fraction: string): string
  {
    (if negative then "-" else "") + whole + (if dot then "." + fraction else "")
  }

  lemma SplitJoin(s: string, i: nat)
    requires i <= |s|
    ensures s[..i] + s[i..] == s
  {
  }

  lemma ConcatAssoc(a: string, b: string, c: string)
    ensures a + b + c == a + (b + c)
  {
  }

  /** Parsing an optionally negated digit string with an optional fraction. */
  lemma ParseOfPlainParts(negative: bool, whole: seq<char>, dot: bool, fraction: seq<char>)
    requires AllDigits(whole, 10) && AllDigits(fraction, 10) && |whole| >= 1
    requires !dot ==> fraction == []
    ensures AllDigits(whole + fraction, 10)
    ensures ParseDecimal(PlainForm(negative, whole, dot, fraction))
        == Success(Decimal(Signed(negative, ValueOf(whole + fraction, 10)), |fraction|))
  {
    ValueOfAppend(whole, fraction, 10);
    var body := whole + (if dot then "." + fraction else "");
    DigitsAreNotPunctuation(whole);
    assert body[0] == whole[0];
    var s := PlainForm(negative, whole, dot, fraction);
    ConcatAssoc(if negative then "-" else "", whole, if dot then "." + fraction else "");
    StripSignOf(negative, body);
    SplitFractionOf(whole, dot, fraction);
    assert StripSign(s) == (negative, body);
    assert SplitFraction(body) == (whole, fraction);
    assert |whole| + |fraction| != 0;
  }

  /** The digits toPlainString writes for a decimal (before the '.' is inserted). */
  function PlainDigits(d: Decimal): (ds: seq<char>)
    ensures |ds| > d.scale && AllDigits(ds, 10)
  {
    var m := Abs(d.unscaled);
    FixedDigits(m, Max(NumDigits(m), d.scale + 1), 10)
  }

  lemma PlainDigitsValue(d: Decimal)
    ensures ValueOf(PlainDigits(d), 10) == Abs(d.unscaled)
  {
    var m := Abs(d.unscaled);
    var w := Max(NumDigits(m), d.scale + 1);
    PowMonotone(10, NumDigits(m), w);
    FixedDigitsValue(m, w, 10);
  }

  /** toPlainString is a sign, the integer digits and, for a positive scale, a '.' and `scale` digits. */
  lemma PlainStringParts(d: Decimal) returns (whole: string, fraction: string)
    ensures ToPlainString(d) == PlainForm(d.unscaled < 0, whole, d.scale > 0, fraction)
    ensures AllDigits(whole, 10) && AllDigits(fraction, 10) && |whole| >= 1 && |fraction| == d.scale
    ensures AllDigits(whole + fraction, 10) && ValueOf(whole + fraction, 10) == Abs(d.unscaled)
  {
    var ds := PlainDigits(d);
    var i := |ds| - d.scale;
    whole, fraction := ds[..i], ds[i..];
    PlainStringShape(d);
    AllDigitsSlices(ds, i);
    SplitJoin(ds, i);
    PlainDigitsValue(d);
  }

  lemma PlainStringShape(d: Decimal)
    ensures
      var ds := PlainDigits(d);
      var i := |ds| - d.scale;
      ToPlainString(d) == PlainForm(d.unscaled < 0, ds[..i], d.scale > 0, ds[i..])
  {
    var ds := PlainDigits(d);
    var i := |ds| - d.scale;
    if d.scale == 0 {
      assert ds[..i] == ds;
    }
  }

  lemma AllDigitsSlices(ds: string, i: nat)
    requires AllDigits(ds, 10) && i <= |ds|
    ensures AllDigits(ds[..i], 10) && AllDigits(ds[i..], 10)
  {
    assert forall k :: 0 <= k < i ==> ds[..i][k] == ds[k];
    assert forall k :: 0 <= k < |ds| - i ==> ds[i..][k] == ds[i + k];
  }

  /** The plain string of a decimal parses back to the same decimal, scale included. */
  lemma {:induction false} PlainStringRoundTrip(d: Decimal)
    ensures ParseDecimal(ToPlainString(d)) == Success(d)
  {
    var whole, fraction := PlainStringParts(d);
    ParseOfPlainParts(d.unscaled < 0, whole, d.scale > 0, fraction);
  }
}
