/** The pricing domain service: order and line totals, tiered shipping, and
    the argument checks of discount and tax. It has no state. */
module Pricing {
  import opened Outcomes
  import opened Monies
  import opened OrderItems
  import opened Orders

  /** An order's total is the order's own TotalAmount: the sum of its
      lines' prices. */
  function CalculateOrderTotal(order: OrderState): (r: Result<Money>)
    ensures r == order.TotalAmount()
    ensures r.Ok? ==> r.value.amount == LineSum(order.items)
  {
    order.TotalAmount()
  }

  /** A line's total is the line's own TotalPrice: unit price times
      quantity. */
  function CalculateItemTotal(item: OrderItem): (r: Result<Money>)
    ensures r == item.TotalPrice()
    ensures r.Ok? ==> r.value.amount == item.unitPrice.amount * item.quantity.value
  {
    item.TotalPrice()
  }

  /** The check ApplyDiscount makes before scaling: the percentage must lie
      in [0, 100]. */
  function ApplyDiscountGuard(discountPercentage: real): (r: Outcome)
    ensures r.Pass? <==> 0.0 <= discountPercentage <= 100.0
    ensures r.Fail? ==> r.error == DiscountOutOfRange
  {
    if discountPercentage < 0.0 || discountPercentage > 100.0 then Fail(DiscountOutOfRange)
    else Pass
  }

  /** The check CalculateTax makes before scaling: the rate must not be
      negative. */
  function CalculateTaxGuard(taxRate: real): (r: Outcome)
    ensures r.Pass? <==> taxRate >= 0.0
    ensures r.Fail? ==> r.error == NegativeTaxRate
  {
    if taxRate < 0.0 then Fail(NegativeTaxRate) else Pass
  }

  /** Shipping is free from 100.00 on, 5.00 from 50.00 on, and 10.00 below,
      in the total's currency; an error computing the total is passed on. */
  function CalculateShippingCost(order: OrderState): (r: Result<Money>)
    ensures order.TotalAmount().Err? ==> r == Err(order.TotalAmount().error)
    ensures r.Ok? <==> order.TotalAmount().Ok?
    ensures r.Ok? ==>
      var total := order.TotalAmount().value;
      r.value.currency == total.currency &&
      r.value.amount == (if total.amount >= 10000 then 0 else if total.amount >= 5000 then 500 else 1000)
  {
    match order.TotalAmount()
    case Err(e) => Err(e)
    case Ok(total) =>
      if total.amount >= 10000 then Ok(Zero(total.currency))
      else if total.amount >= 5000 then NewMoney(500, total.currency)
      else NewMoney(1000, total.currency)
  }

  /** An empty order's total is 0 USD, so it ships for 10.00 USD. */
  lemma EmptyOrderShipping(order: OrderState)
    requires order.IsEmpty()
    ensures CalculateShippingCost(order) == Ok(Money(1000, DefaultCurrency))
  {
  }

  /** A larger total never costs more to ship. */
  lemma ShippingNeverGrowsWithTotal(a: OrderState, b: OrderState)
    requires a.TotalAmount().Ok? && b.TotalAmount().Ok?
    requires a.TotalAmount().value.amount <= b.TotalAmount().value.amount
    ensures CalculateShippingCost(b).value.amount <= CalculateShippingCost(a).value.amount
  {
  }
}
