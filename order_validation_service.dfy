/** The order validation domain service: the checks run before confirming
    an order, before adding a line, before a status change, and on the number
    of pending orders of a customer. It has no state. */
module OrderValidation {
  import opened Outcomes
  import opened Quantities
  import opened Products
  import opened Collections
  import opened OrderItems
  import opened Orders
  import opened Pricing

  /** The smallest total an order may be confirmed with: 1.00, in cents. */
  const MinimumTotal: nat := 100

  /** The most pending orders a customer may have before a new one is refused. */
  const MaxPendingOrders: int := 10

  /** The allowed status changes: delivered and cancelled are final. */
  const ValidTransitions: map<OrderStatus, seq<OrderStatus>> :=
    map[Pending := [Confirmed, Cancelled],
        Confirmed := [Shipped, Cancelled],
        Shipped := [Delivered],
        Delivered := [],
        Cancelled := []]

  function InactiveLine(): OrderItem -> bool
  {
    (item: OrderItem) => !item.product.active
  }

  function OverStockLine(): OrderItem -> bool
  {
    (item: OrderItem) => item.quantity.value > item.product.stock.value
  }

  /** An order may be confirmed when it has lines, each line's product
      snapshot is active and has the line's quantity in stock, and its total
      can be computed and is at least 1.00. The first inactive line is
      reported before any stock problem, and the first line short of stock
      before any problem with the total. */
  function ValidateOrder(order: OrderState): (r: Outcome)
    ensures order.IsEmpty() ==> r == Fail(EmptyOrder)
    ensures r.Pass? <==>
      !order.IsEmpty() &&
      (forall i :: 0 <= i < |order.items| ==> order.items[i].product.active) &&
      (forall i :: 0 <= i < |order.items| ==>
         order.items[i].quantity.value <= order.items[i].product.stock.value) &&
      order.TotalAmount().Ok? && order.TotalAmount().value.amount >= MinimumTotal
    ensures !order.IsEmpty() ==>
      forall i :: 0 <= i < |order.items| && !order.items[i].product.active &&
                  (forall j :: 0 <= j < i ==> order.items[j].product.active) ==>
        r == Fail(InactiveProductInOrder(order.items[i].product.name))
    ensures !order.IsEmpty() && (forall i :: 0 <= i < |order.items| ==> order.items[i].product.active) ==>
      forall i :: 0 <= i < |order.items| &&
                  order.items[i].quantity.value > order.items[i].product.stock.value &&
                  (forall j :: 0 <= j < i ==> order.items[j].quantity.value <= order.items[j].product.stock.value) ==>
        r == Fail(InsufficientStockInOrder(order.items[i].product.name))
    ensures r.Fail? && r.error.TotalCalculation? ==> order.TotalAmount() == Err(r.error.cause)
    ensures !order.IsEmpty() &&
            (forall i :: 0 <= i < |order.items| ==> order.items[i].product.active) &&
            (forall i :: 0 <= i < |order.items| ==>
               order.items[i].quantity.value <= order.items[i].product.stock.value) ==>
      (order.TotalAmount().Err? ==> r == Fail(TotalCalculation(order.TotalAmount().error))) &&
      (order.TotalAmount().Ok? && order.TotalAmount().value.amount < MinimumTotal ==> r == Fail(BelowMinimumTotal))
  {
    if order.IsEmpty() then Fail(EmptyOrder)
    else match FirstIndex(order.items, InactiveLine())
      case Some(i) => Fail(InactiveProductInOrder(order.items[i].product.name))
      case None =>
        match FirstIndex(order.items, OverStockLine())
        case Some(i) => Fail(InsufficientStockInOrder(order.items[i].product.name))
        case None =>
          match CalculateOrderTotal(order)
          case Err(e) => Fail(TotalCalculation(e))
          case Ok(total) => if total.amount < MinimumTotal then Fail(BelowMinimumTotal) else Pass
  }

  /** A line may be added for an active product, a positive quantity the
      product has in stock, and a pending order, checked in that order. */
  function ValidateItemAddition(order: OrderState, product: ProductState, quantity: Quantity): (r: Outcome)
    ensures r.Pass? <==> product.active && quantity.value > 0 &&
                         quantity.value <= product.stock.value && order.status == Pending
    ensures !product.active ==> r == Fail(InactiveProductAddition(product.name))
    ensures product.active && quantity.value <= 0 ==> r == Fail(NonPositiveAddition)
    ensures product.active && quantity.value > 0 && quantity.value > product.stock.value ==>
      r == Fail(InsufficientStockAddition(product.name, product.stock.value, quantity.value))
    ensures product.active && 0 < quantity.value <= product.stock.value && order.status != Pending ==>
      r == Fail(StatusNotPending(order.status))
  {
    if !product.active then Fail(InactiveProductAddition(product.name))
    else if quantity.value <= 0 then Fail(NonPositiveAddition)
    else if quantity.value > product.stock.value then
      Fail(InsufficientStockAddition(product.name, product.stock.value, quantity.value))
    else if order.status != Pending then Fail(StatusNotPending(order.status))
    else Pass
  }

  /** A status change is allowed exactly along the table: pending to
      confirmed or cancelled, confirmed to shipped or cancelled, shipped to
      delivered. A current status outside the table is reported as such. */
  function ValidateOrderTransition(order: OrderState, newStatus: OrderStatus): (r: Outcome)
    ensures r.Pass? <==>
      (order.status == Pending && (newStatus == Confirmed || newStatus == Cancelled)) ||
      (order.status == Confirmed && (newStatus == Shipped || newStatus == Cancelled)) ||
      (order.status == Shipped && newStatus == Delivered)
    ensures r == Fail(InvalidCurrentStatus(order.status)) <==>
      order.status !in {Pending, Confirmed, Shipped, Delivered, Cancelled}
    ensures r.Fail? && order.status in {Pending, Confirmed, Shipped, Delivered, Cancelled} ==>
      r == Fail(InvalidTransition(order.status, newStatus))
  {
    if order.status !in ValidTransitions then Fail(InvalidCurrentStatus(order.status))
    else if newStatus in ValidTransitions[order.status] then Pass
    else Fail(InvalidTransition(order.status, newStatus))
  }

  /** A customer with ten or more pending orders may not place another. */
  function ValidateCustomerOrderLimit(customerId: string, existingOrdersCount: int): (r: Outcome)
    ensures r.Pass? <==> existingOrdersCount < 10
    ensures r.Fail? ==> r.error == PendingLimitReached(customerId, 10)
  {
    if existingOrdersCount >= MaxPendingOrders then Fail(PendingLimitReached(customerId, MaxPendingOrders))
    else Pass
  }

  /** The transition table and the order's own transition functions agree
      on confirm, ship and deliver (confirm also needs a line), but Cancel
      is looser than the table: it also succeeds from shipped and from
      cancelled, which the table forbids. */
  lemma TableAgreesWithTransitions(o: OrderState, now: nat)
    ensures o.Confirm(now).Ok? <==> ValidateOrderTransition(o, Confirmed).Pass? && |o.items| > 0
    ensures o.Ship(now).Ok? <==> ValidateOrderTransition(o, Shipped).Pass?
    ensures o.Deliver(now).Ok? <==> ValidateOrderTransition(o, Delivered).Pass?
    ensures ValidateOrderTransition(o, Cancelled).Pass? ==> o.Cancel(now).Ok?
    ensures o.status == Shipped ==> o.Cancel(now).Ok? && ValidateOrderTransition(o, Cancelled).Fail?
    ensures o.status == Cancelled ==> o.Cancel(now).Ok? && ValidateOrderTransition(o, Cancelled).Fail?
  {
  }

  /** An order that passes validation can be confirmed, and its stored total
      is what was validated. */
  lemma ValidOrderConfirms(o: OrderState, now: nat)
    requires o.status == Pending
    requires ValidateOrder(o).Pass?
    ensures o.Confirm(now).Ok?
    ensures o.Confirm(now).value.TotalAmount() == o.TotalAmount()
  {
  }
}
