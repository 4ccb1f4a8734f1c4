/**
 * Positional digit strings in base 10 and base 16: the textual form of
 * decimal amounts (BigDecimal plain strings) and of UUIDs.
 */
module Digits {
  import opened Wrappers

  function Pow(base: nat, n: nat): (r: nat)
    requires base >= 2
    ensures r >= 1
  {
    if n == 0 then 1 else base * Pow(base, n - 1)
  }

  lemma {:induction false} PowAdd(base: nat, m: nat, n: nat)
    requires base >= 2
    ensures Pow(base, m + n) == Pow(base, m) * Pow(base, n)
  {
    if n > 0 {
      PowAdd(base, m, n - 1);
      MulSwap(base, Pow(base, m), Pow(base, n - 1));
    }
  }

  lemma MulSwap(a: int, b: int, c: int)
    ensures a * (b * c) == b * (a * c)
  {
  }

  lemma {:induction false} PowMonotone(base: nat, m: nat, n: nat)
    requires base >= 2 && m <= n
    ensures Pow(base, m) <= Pow(base, n)
  {
    if m < n {
      PowMonotone(base, m, n - 1);
    }
  }

  /** Lower-case digit character of `d` (Java's UUID.toString and BigDecimal use lower case). */
  function DigitChar(d: nat): (c: char)
    requires d < 16
  {
    "0123456789abcdef"[d]
  }

  /** Numeric value of a hexadecimal digit in either case, as Character.digit(c, 16) reads it. */
  function CharValue(c: char): (r: Option<nat>)
    ensures r.Some? ==> r.value < 16
  {
    if '0' <= c <= '9' then Some(c as nat - '0' as nat)
    else if 'a' <= c <= 'f' then Some(c as nat - 'a' as nat + 10)
    else if 'A' <= c <= 'F' then Some(c as nat - 'A' as nat + 10)
    else None
  }

  lemma CharValueOfDigitChar(d: nat)
    requires d < 16
    ensures CharValue(DigitChar(d)) == Some(d)
  {
  }

  predicate IsDigit(c: char, base: nat)
  {
    CharValue(c).Some? && CharValue(c).value < base
  }

  predicate AllDigits(s: seq<char>, base: nat)
  {
    forall i :: 0 <= i < |s| ==> IsDigit(s[i], base)
  }

  /** Big-endian value of a digit string. */
  function ValueOf(s: seq<char>, base: nat): (r: nat)
    requires base >= 2 && AllDigits(s, base)
    ensures r < Pow(base, |s|)
  {
    if |s| == 0 then 0
    else
      var hi := ValueOf(s[..|s| - 1], base);
      var lo := CharValue(s[|s| - 1]).value;
      DigitStep(hi, lo, base, Pow(base, |s| - 1));
      hi * base + lo
  }

  /** The `width` least significant digits of `n`, most significant first. */
  function FixedDigits(n: nat, width: nat, base: nat): (s: seq<char>)
    requires 2 <= base <= 16
    ensures |s| == width && AllDigits(s, base)
    decreases width
  {
    if width == 0 then []
    else
      var s := FixedDigits(n / base, width - 1, base) + [DigitChar(n % base)];
      assert IsDigit(DigitChar(n % base), base) by { CharValueOfDigitChar(n % base); }
      s
  }

  lemma {:induction false} FixedDigitsValue(n: nat, width: nat, base: nat)
    requires 2 <= base <= 16 && n < Pow(base, width)
    ensures ValueOf(FixedDigits(n, width, base), base) == n
    decreases width
  {
    if width > 0 {
      var q, d := n / base, n % base;
      DivMod(n, base);
      var s := FixedDigits(n, width, base);
      var t := FixedDigits(q, width - 1, base);
      DivBound(n, base, Pow(base, width - 1));
      FixedDigitsValue(q, width - 1, base);
      assert s[..width - 1] == t;
      CharValueOfDigitChar(d);
      assert ValueOf(s, base) == ValueOf(t, base) * base + d;
    }
  }

  lemma DivBound(n: nat, base: nat, p: nat)
    requires base >= 1 && n < base * p
    ensures n / base < p
  {
    if n / base >= p {
      MulMonotone(p, n / base, base);
      assert false;
    }
  }

  lemma DivMod(n: nat, base: nat)
    requires base >= 1
    ensures n == (n / base) * base + n % base
  {
  }

  lemma MulMonotone(a: nat, b: nat, c: nat)
    requires a <= b
    ensures a * c <= b * c
  {
  }

  /** Appending a digit `lo` to a value `hi` below `p` stays below `p * base`. */
  lemma DigitStep(hi: nat, lo: nat, base: nat, p: nat)
    requires hi < p && lo < base
    ensures 0 <= hi * base + lo < base * p
  {
    MulMonotone(0, hi, base);
    MulMonotone(hi + 1, p, base);
    assert (hi + 1) * base == hi * base + base;
  }

  lemma AllDigitsConcat(a: seq<char>, b: seq<char>, base: nat)
    requires AllDigits(a, base) && AllDigits(b, base)
    ensures AllDigits(a + b, base)
  {
  }

  lemma {:induction false} ValueOfAppend(a: seq<char>, b: seq<char>, base: nat)
    requires base >= 2 && AllDigits(a, base) && AllDigits(b, base)
    ensures AllDigits(a + b, base)
    ensures ValueOf(a + b, base) == ValueOf(a, base) * Pow(base, |b|) + ValueOf(b, base)
  {
    AllDigitsConcat(a, b, base);
    if |b| > 0 {
      var b' := b[..|b| - 1];
      assert AllDigits(b', base);
      assert (a + b)[..|a + b| - 1] == a + b';
      ValueOfAppend(a, b', base);
      var c := CharValue(b[|b| - 1]).value;
      assert ValueOf(a + b, base) == ValueOf(a + b', base) * base + c;
      assert ValueOf(b, base) == ValueOf(b', base) * base + c;
      Regroup(ValueOf(a, base), Pow(base, |b'|), ValueOf(b', base), base, c);
    } else {
      assert a + b == a;
    }
  }

  lemma Regroup(x: int, p: int, y: int, b: int, c: int)
    ensures (x * p + y) * b + c == x * (b * p) + (y * b + c)
  {
  }

  /** Number of decimal digits of `n`; zero is written with one digit. */
  function NumDigits(n: nat): (w: nat)
    ensures w >= 1 && n < Pow(10, w)
    ensures w > 1 ==> n >= Pow(10, w - 1)
  {
    if n < 10 then 1 else 1 + NumDigits(n / 10)
  }

  /** Decimal representation of a natural number without leading zeros (Kotlin's Int.toString). */
  function NatToString(n: nat): (s: seq<char>)
    ensures AllDigits(s, 10) && |s| >= 1 && ValueOf(s, 10) == n
    ensures n > 0 ==> s[0] != '0'
    ensures |s| > 1 ==> n >= 10
  {
    var last := DigitChar(n % 10);
    CharValueOfDigitChar(n % 10);
    assert ValueOf([last], 10) == n % 10 by {
      assert [last][..0] == [];
    }
    if n < 10 then [last]
    else
      var hi := NatToString(n / 10);
      ValueOfAppend(hi, [last], 10);
      hi + [last]
  }
}
