/**
 * The shared kernel's domain primitives: UUID-backed identifiers, non-blank
 * string wrappers, the non-negative MonetaryAmount, and the exceptions their
 * constructors and parsers raise.
 */
module DomainPrimitives {
  import opened Wrappers
  import opened Digits
  import opened Decimals

  /** The exceptions of the system that the model keeps apart. */
  datatype Error =
    | IllegalArgument(message: string)    // require(...) failures, unknown discriminators, bad UUIDs
    | NumberFormat(text: string)          // BigDecimal(String) on a malformed string
    | NullField(field: string)            // a record field that is absent where the code casts it to non-null
    | IncorrectResultSize(actual: nat)    // a single-result repository query that matched `actual` rows

  /** java.time.Instant at the precision the system transmits: epoch milliseconds. */
  type Instant = int

  /** Instant.plusSeconds */
  function PlusSeconds(t: Instant, seconds: int): (r: Instant)
    ensures r - t == seconds * 1000
  {
    t + seconds * 1000
  }

  /** Kotlin Int. */
  newtype Int32 = x: int | -0x8000_0000 <= x < 0x8000_0000

  // ---------------------------------------------------------------------
  // UUIDs

  const UuidSpace: nat := 0x1_0000_0000_0000_0000_0000_0000_0000_0000

  /** A 128-bit java.util.UUID. */
  type Uuid = n: nat | n < UuidSpace

  lemma UuidSpaceIsHexWidth()
    ensures Pow(16, 32) == UuidSpace
  {
    assert Pow(16, 8) == 0x1_0000_0000;
    PowAdd(16, 8, 8);
    PowAdd(16, 16, 16);
  }

  /** UUID.toString: 32 lower-case hex digits grouped 8-4-4-4-12. */
  function UuidToString(u: Uuid): (s: string)
    ensures |s| == 36
  {
    var h := FixedDigits(u, 32, 16);
    h[..8] + "-" + h[8..12] + "-" + h[12..16] + "-" + h[16..20] + "-" + h[20..]
  }

  /** String.uppercase on the characters a UUID's text can hold and on any other ASCII letter. */
  function UpperCase(s: string): (r: string)
    ensures |r| == |s|
  {
    seq(|s|, i requires 0 <= i < |s| => if 'a' <= s[i] <= 'z' then (s[i] as int - 32) as char else s[i])
  }

  /** The hex digits of the canonical textual form, without the dashes. */
  function UuidHex(s: string): (h: string)
    requires |s| == 36
    ensures |h| == 32
  {
    s[..8] + s[9..13] + s[14..18] + s[19..23] + s[24..]
  }

  predicate IsCanonicalUuid(s: string)
  {
    |s| == 36 && s[8] == '-' && s[13] == '-' && s[18] == '-' && s[23] == '-' && AllDigits(UuidHex(s), 16)
  }

  /**
   * UUID.fromString for the canonical 36-character form (hex digits in either
   * case); anything else is an IllegalArgumentException.
   */
  function UuidFromString(s: string): (r: Result<Uuid, Error>)
    ensures r.Success? <==> IsCanonicalUuid(s)
  {
    if IsCanonicalUuid(s) then
      UuidSpaceIsHexWidth();
      Success(ValueOf(UuidHex(s), 16))
    else
      Failure(IllegalArgument("Invalid UUID string: " + s))
  }

  /** The five dash-separated groups of a canonical UUID string. */
  lemma DashedGroups(a: string, b: string, c: string, d: string, e: string)
    requires |a| == 8 && |b| == 4 && |c| == 4 && |d| == 4 && |e| == 12
    ensures
      var s := a + "-" + b + "-" + c + "-" + d + "-" + e;
      |s| == 36 && s[8] == '-' && s[13] == '-' && s[18] == '-' && s[23] == '-'
      && UuidHex(s) == a + b + c + d + e
  {
    var s := a + "-" + b + "-" + c + "-" + d + "-" + e;
    assert s[..8] == a;
    assert s[9..13] == b;
    assert s[14..18] == c;
    assert s[19..23] == d;
    assert s[24..] == e;
  }

  lemma RegroupHex(h: string)
    requires |h| == 32
    ensures h[..8] + h[8..12] + h[12..16] + h[16..20] + h[20..] == h
  {
  }

  lemma UuidHexOfToString(u: Uuid)
    ensures IsCanonicalUuid(UuidToString(u))
    ensures UuidHex(UuidToString(u)) == FixedDigits(u, 32, 16)
  {
    var h := FixedDigits(u, 32, 16);
    DashedGroups(h[..8], h[8..12], h[12..16], h[16..20], h[20..]);
    RegroupHex(h);
  }

  /** Every UUID survives its textual form. */
  lemma UuidRoundTrip(u: Uuid)
    ensures UuidFromString(UuidToString(u)) == Success(u)
  {
    UuidHexOfToString(u);
    UuidSpaceIsHexWidth();
    FixedDigitsValue(u, 32, 16);
  }

  // ---------------------------------------------------------------------
  // Identifier wrappers (value classes over UUID)

  datatype OrderId = OrderId(value: Uuid)
  {
    function ToString(): string { UuidToString(value) }

    static function FromString(s: string): (r: Result<OrderId, Error>)
      ensures r.Success? <==> IsCanonicalUuid(s)
    {
      var u :- UuidFromString(s);
      Success(OrderId(u))
    }
  }

  datatype CustomerId = CustomerId(value: Uuid)
  {
    function ToString(): string { UuidToString(value) }

    static function FromString(s: string): (r: Result<CustomerId, Error>)
      ensures r.Success? <==> IsCanonicalUuid(s)
    {
      var u :- UuidFromString(s);
      Success(CustomerId(u))
    }
  }

  datatype TicketId = TicketId(value: Uuid)
  {
    function ToString(): string { UuidToString(value) }

    static function FromString(s: string): (r: Result<TicketId, Error>)
      ensures r.Success? <==> IsCanonicalUuid(s)
    {
      var u :- UuidFromString(s);
      Success(TicketId(u))
    }
  }

  datatype DeliveryId = DeliveryId(value: Uuid)
  {
    function ToString(): string { UuidToString(value) }

    static function FromString(s: string): (r: Result<DeliveryId, Error>)
      ensures r.Success? <==> IsCanonicalUuid(s)
    {
      var u :- UuidFromString(s);
      Success(DeliveryId(u))
    }
  }

  /** `fromString(id.toString()) == id` for each identifier wrapper. */
  lemma OrderIdRoundTrip(id: OrderId)
    ensures OrderId.FromString(id.ToString()) == Success(id)
  {
    UuidRoundTrip(id.value);
  }

  lemma CustomerIdRoundTrip(id: CustomerId)
    ensures CustomerId.FromString(id.ToString()) == Success(id)
  {
    UuidRoundTrip(id.value);
  }

  lemma TicketIdRoundTrip(id: TicketId)
    ensures TicketId.FromString(id.ToString()) == Success(id)
  {
    UuidRoundTrip(id.value);
  }

  lemma DeliveryIdRoundTrip(id: DeliveryId)
    ensures DeliveryId.FromString(id.ToString()) == Success(id)
  {
    UuidRoundTrip(id.value);
  }

  // ---------------------------------------------------------------------
  // Non-blank strings

  /** Kotlin Char.isWhitespace: Java whitespace plus the space separators. */
  predicate IsWhitespace(c: char)
  {
    var n := c as int;
    (9 <= n <= 13) || (28 <= n <= 32) || n == 0xA0 || n == 0x1680
    || (0x2000 <= n <= 0x200A) || n == 0x2028 || n == 0x2029 || n == 0x202F
    || n == 0x205F || n == 0x3000
  }

  /** Kotlin String.isBlank: empty or whitespace only. */
  predicate IsBlank(s: string)
  {
    |s| == 0 || (IsWhitespace(s[0]) && IsBlank(s[1..]))
  }

  type TransactionId = s: string | !IsBlank(s) witness "0"
  type ProductId = s: string | !IsBlank(s) witness "0"
  type Address = s: string | !IsBlank(s) witness "0"

  /** The TransactionId constructor with its `require(value.isNotBlank())`. */
  function TransactionIdOf(s: string): (r: Result<TransactionId, Error>)
    ensures r.Success? <==> !IsBlank(s)
    ensures r.Success? ==> r.value == s
    ensures r.Failure? ==> r.error == IllegalArgument("TransactionId cannot be blank")
  {
    if IsBlank(s) then Failure(IllegalArgument("TransactionId cannot be blank"))
    else var v: TransactionId := s; Success(v)
  }

  /** The ProductId constructor with its `require(value.isNotBlank())`. */
  function ProductIdOf(s: string): (r: Result<ProductId, Error>)
    ensures r.Success? <==> !IsBlank(s)
    ensures r.Success? ==> r.value == s
    ensures r.Failure? ==> r.error == IllegalArgument("ProductId cannot be blank")
  {
    if IsBlank(s) then Failure(IllegalArgument("ProductId cannot be blank"))
    else var v: ProductId := s; Success(v)
  }

  /** The Address constructor with its `require(value.isNotBlank())`. */
  function AddressOf(s: string): (r: Result<Address, Error>)
    ensures r.Success? <==> !IsBlank(s)
    ensures r.Success? ==> r.value == s
    ensures r.Failure? ==> r.error == IllegalArgument("Address cannot be blank")
  {
    if IsBlank(s) then Failure(IllegalArgument("Address cannot be blank"))
    else var v: Address := s; Success(v)
  }

  lemma BlankStringsRejected()
    ensures ProductIdOf("").Failure? && ProductIdOf("   ").Failure?
    ensures AddressOf("").Failure? && AddressOf("\t\n ").Failure?
    ensures TransactionIdOf("").Failure? && TransactionIdOf(" ").Failure?
    ensures ProductIdOf(" a ").Success?
  {
    assert !IsWhitespace(" a "[1]);
  }

  // ---------------------------------------------------------------------
  // MonetaryAmount

  /** A BigDecimal that is not negative. */
  type MonetaryAmount = d: Decimal | d.unscaled >= 0 witness Decimal(0, 0)

  /** MonetaryAmount.ZERO */
  const ZeroAmount: MonetaryAmount := Decimal(0, 0)

  /** The MonetaryAmount constructor with its `require(value >= BigDecimal.ZERO)`. */
  function AmountOf(d: Decimal): (r: Result<MonetaryAmount, Error>)
    ensures r.Success? <==> Value(d) >= 0.0
    ensures r.Success? ==> r.value == d
  {
    SignOfValue(d);
    if d.unscaled >= 0 then var m: MonetaryAmount := d; Success(m) else Failure(IllegalArgument("MonetaryAmount cannot be negative"))
  }

  /** MonetaryAmount.plus: the exact sum, never negative. */
  function Plus(a: MonetaryAmount, b: MonetaryAmount): (r: MonetaryAmount)
    ensures Value(r) == Value(a) + Value(b)
    ensures r.scale == Max(a.scale, b.scale)
  {
    var s := Add(a, b);
    SignOfValue(a);
    SignOfValue(b);
    SignOfValue(s);
    s
  }

  /** MonetaryAmount.minus: the exact difference; an exception when it would be negative. */
  function Minus(a: MonetaryAmount, b: MonetaryAmount): (r: Result<MonetaryAmount, Error>)
    ensures r.Success? <==> Value(b) <= Value(a)
    ensures r.Success? ==> Value(r.value) == Value(a) - Value(b)
  {
    AmountOf(Subtract(a, b))
  }

  /** MonetaryAmount.times(Int): the exact product; an exception when it would be negative. */
  function Times(a: MonetaryAmount, q: Int32): (r: Result<MonetaryAmount, Error>)
    ensures r.Success? <==> (q >= 0 || Value(a) == 0.0)
    ensures r.Success? ==> Value(r.value) == Value(a) * q as real && r.value.scale == a.scale
  {
    var p := MultiplyInt(a, q as int);
    SignOfValue(a);
    SignOfValue(p);
    AmountOf(p)
  }

  /** MonetaryAmount.of(String): BigDecimal(String), then the non-negative check. */
  function AmountOfString(s: string): (r: Result<MonetaryAmount, Error>)
    ensures r.Success? <==> ParseDecimal(s).Success? && Value(ParseDecimal(s).value) >= 0.0
    ensures r.Success? ==> r.value == ParseDecimal(s).value
  {
    match ParseDecimal(s)
    case Failure(_) => Failure(NumberFormat(s))
    case Success(d) => AmountOf(d)
  }

  /** The plain string of an amount reads back as the same amount. */
  lemma AmountPlainStringRoundTrip(m: MonetaryAmount)
    ensures AmountOfString(ToPlainString(m)) == Success(m)
  {
    PlainStringRoundTrip(m);
  }

  /** ZERO is a two-sided identity of plus, scale included. */
  lemma ZeroIsPlusIdentity(m: MonetaryAmount)
    ensures Plus(ZeroAmount, m) == m && Plus(m, ZeroAmount) == m
  {
  }

  /** Amounts that are numerically equal with the same scale are the same amount. */
  lemma AmountsEqualByValue(a: Decimal, b: Decimal)
    requires a.scale == b.scale && Value(a) == Value(b)
    ensures a == b
  {
    var p := Pow(10, a.scale) as real;
    assert Value(a) * p == a.unscaled as real;
    assert Value(b) * p == b.unscaled as real;
  }
}
