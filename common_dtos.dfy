/** Cross-service data: order lines, their prices, and the order summary. */
module CommonDtos {
  import opened Wrappers
  import opened Decimals
  import opened DomainPrimitives

  datatype OrderItem = OrderItem(productId: ProductId, productName: string, quantity: Int32, unitPrice: MonetaryAmount)

  /** OrderItem.totalPrice: unitPrice × quantity as a MonetaryAmount (which rejects a negative product). */
  function TotalPrice(item: OrderItem): (r: Result<MonetaryAmount, Error>)
    ensures r.Success? ==> Value(r.value) == Value(item.unitPrice) * item.quantity as real
  {
    Times(item.unitPrice, item.quantity)
  }

  lemma TotalPriceDefinedForNonNegativeQuantity(item: OrderItem)
    requires item.quantity >= 0
    ensures TotalPrice(item).Success?
    ensures Value(TotalPrice(item).value) >= 0.0
  {
  }

  /** A negative quantity with a positive price makes totalPrice throw. */
  lemma TotalPriceUndefinedForNegativeQuantity(item: OrderItem)
    requires item.quantity < 0 && Value(item.unitPrice) > 0.0
    ensures TotalPrice(item).Failure?
  {
  }

  /** A quantity of 0 prices at zero (equal to ZERO by compareTo; the scale is the unit price's). */
  lemma TotalPriceOfZeroQuantity(item: OrderItem)
    requires item.quantity == 0
    ensures TotalPrice(item).Success? && Value(TotalPrice(item).value) == 0.0
    ensures TotalPrice(item).value == Decimal(0, item.unitPrice.scale)
  {
  }

  /**
   * `items.sumOf { unitPrice.value * quantity.toBigDecimal() }`: BigDecimal
   * products folded left from zero, with no MonetaryAmount check.
   */
  function LineTotalSum(items: seq<OrderItem>): Decimal
  {
    if |items| == 0 then Zero
    else
      var last := items[|items| - 1];
      Add(LineTotalSum(items[..|items| - 1]), MultiplyInt(last.unitPrice, last.quantity as int))
  }

  /** Σ unitPrice × quantity over the rationals: the exact order total. */
  ghost function ExactTotal(items: seq<OrderItem>): real
  {
    if |items| == 0 then 0.0
    else ExactTotal(items[..|items| - 1]) + Value(items[|items| - 1].unitPrice) * items[|items| - 1].quantity as real
  }

  /** The BigDecimal fold loses nothing: its value is the exact total. */
  lemma {:induction false} LineTotalSumIsExact(items: seq<OrderItem>)
    ensures Value(LineTotalSum(items)) == ExactTotal(items)
  {
    if |items| > 0 {
      LineTotalSumIsExact(items[..|items| - 1]);
    }
  }

  /** Σ totalPrice with MonetaryAmount.plus, failing at the first line whose price is undefined. */
  function SumOfTotalPrices(items: seq<OrderItem>): (r: Result<MonetaryAmount, Error>)
  {
    if |items| == 0 then Success(ZeroAmount)
    else
      var init :- SumOfTotalPrices(items[..|items| - 1]);
      var last :- TotalPrice(items[|items| - 1]);
      Success(Plus(init, last))
  }

  /**
   * With no negative quantity, Σ totalPrice is defined and is exactly the
   * total the orchestrator computes from the same lines, scale included.
   */
  lemma {:induction false} SumOfTotalPricesIsLineTotal(items: seq<OrderItem>)
    requires forall i :: 0 <= i < |items| ==> items[i].quantity >= 0
    ensures SumOfTotalPrices(items) == Success(LineTotalSum(items))
  {
    if |items| > 0 {
      SumOfTotalPricesIsLineTotal(items[..|items| - 1]);
      TotalPriceDefinedForNonNegativeQuantity(items[|items| - 1]);
    }
  }

  /** OrderSummary, the cross-service view of an order. */
  datatype OrderSummary = OrderSummary(
    orderId: OrderId,
    customerId: CustomerId,
    items: seq<OrderItem>,
    totalAmount: MonetaryAmount,
    deliveryAddress: Address)
}
