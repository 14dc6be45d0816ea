/** The OrderItem entity: one line of an order, holding a snapshot of the
    product and of its price at the time the line was created. It lives by
    value inside its order, so its one update is a function returning the
    updated line. */
module OrderItems {
  import opened Outcomes
  import opened Monies
  import opened Quantities
  import opened Products

  datatype OrderItem = OrderItem(id: string, product: ProductState, quantity: Quantity,
                                 unitPrice: Money) {

    /** The line's price: unit price times quantity. A negative quantity
        (only reachable through stored data) and an empty currency fail. */
    function TotalPrice(): (r: Result<Money>)
      ensures quantity.value < 0 ==> r == Err(NegativeFactor)
      ensures quantity.value >= 0 && unitPrice.currency == "" ==> r == Err(EmptyCurrency)
      ensures r.Ok? <==> quantity.value >= 0 && unitPrice.currency != ""
      ensures r.Ok? ==> r.value.amount == unitPrice.amount * quantity.value &&
                        r.value.currency == unitPrice.currency
    {
      unitPrice.Multiply(quantity.value)
    }

    /** The same line with another quantity, which must be positive; the
        product snapshot and the unit price are kept. */
    function UpdateQuantity(newQuantity: Quantity): (r: Result<OrderItem>)
      ensures newQuantity.value <= 0 ==> r == Err(NonPositiveQuantity)
      ensures r.Ok? <==> newQuantity.value > 0
      ensures r.Ok? ==> r.value.quantity == newQuantity && r.value.id == id &&
                        r.value.product == product && r.value.unitPrice == unitPrice
    {
      if newQuantity.value <= 0 then Err(NonPositiveQuantity)
      else Ok(this.(quantity := newQuantity))
    }

    /** Lines are compared by identity: their IDs. */
    predicate Equals(other: OrderItem)
    {
      id == other.id
    }
  }

  /** A new line for an active product and a positive quantity; the unit
      price is the product's price at this moment. `id` stands for the
      generated UUID. */
  function NewOrderItem(id: string, product: ProductState, quantity: Quantity): (r: Result<OrderItem>)
    ensures !product.active ==> r == Err(InactiveProductItem)
    ensures product.active && quantity.value <= 0 ==> r == Err(NonPositiveQuantity)
    ensures r.Ok? <==> product.active && quantity.value > 0
    ensures r.Ok? ==> r.value.id == id && r.value.product == product &&
                      r.value.quantity == quantity && r.value.unitPrice == product.price
  {
    if !product.active then Err(InactiveProductItem)
    else if quantity.value <= 0 then Err(NonPositiveQuantity)
    else Ok(OrderItem(id, product, quantity, product.price))
  }

  /** Growing a line's quantity by `extra` grows its price by the price of
      `extra` units: merging a product into an existing line prices it as
      two separate lines would. */
  lemma MergedLinePrice(item: OrderItem, extra: nat)
    requires item.quantity.value >= 0 && item.unitPrice.currency != ""
    ensures var merged := item.(quantity := Quantity(item.quantity.value + extra, item.quantity.unit));
            merged.TotalPrice().Ok? && item.TotalPrice().Ok? &&
            merged.TotalPrice().value.amount ==
              item.TotalPrice().value.amount + item.unitPrice.amount * extra
  {
    MultiplyDistributes(item.unitPrice, item.quantity.value, extra);
  }
}
