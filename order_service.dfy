/** The order application service: each use case loads the order, consults
    the customer and product repositories and the domain services, changes an
    Order object and saves its state back. */
module OrderServices {
  import opened Outcomes
  import opened Monies
  import opened Quantities
  import opened Products
  import opened OrderItems
  import opened Orders
  import opened OrderValidation
  import opened ProductDto
  import opened OrderDto
  import opened ProductServices
  import opened OrderRepositories
  import opened CustomerRepositories
  import opened ProductRepositories

  /** A line as the service reports it. A line whose price cannot be computed
      shows the zero Money: amount 0 and no currency. */
  function ItemResponseOf(item: OrderItem): (r: OrderItemResponse)
    ensures r.id == item.id && r.product == ProductResponseOf(item.product)
    ensures r.quantity == QuantityResponse(item.quantity.value, item.quantity.unit)
    ensures r.unitPrice == MoneyResponse(item.unitPrice.amount, item.unitPrice.currency)
    ensures item.quantity.value >= 0 && item.unitPrice.currency != "" ==>
      r.total == MoneyResponse(item.unitPrice.amount * item.quantity.value, item.unitPrice.currency)
    ensures item.quantity.value < 0 || item.unitPrice.currency == "" ==> r.total == MoneyResponse(0, "")
  {
    var total := item.TotalPrice();
    OrderItemResponse(item.id, ProductResponseOf(item.product), FromQuantity(item.quantity),
                      FromMoney(item.unitPrice),
                      if total.Ok? then FromMoney(total.value) else MoneyResponse(0, ""))
  }

  /** An order as the service reports it: one response per line, in order,
      and the total, which is 0 USD both for an empty order and for an order
      whose total cannot be computed. */
  function OrderResponseOf(o: OrderState): (r: OrderResponse)
    ensures r.id == o.id && r.customerId == o.customerId && r.status == o.status
    ensures r.createdAt == o.createdAt && r.updatedAt == o.updatedAt
    ensures |r.items| == |o.items|
    ensures forall i :: 0 <= i < |o.items| ==> r.items[i] == ItemResponseOf(o.items[i])
    ensures o.TotalAmount().Ok? && |o.items| > 0 ==>
      r.total == MoneyResponse(LineSum(o.items), o.items[0].unitPrice.currency)
    ensures o.TotalAmount().Err? || |o.items| == 0 ==> r.total == MoneyResponse(0, DefaultCurrency)
  {
    var total := o.TotalAmount();
    OrderResponse(o.id, o.customerId,
                  seq(|o.items|, i requires 0 <= i < |o.items| => ItemResponseOf(o.items[i])),
                  o.status,
                  if total.Ok? then FromMoney(total.value) else FromMoney(ToMoney(MoneyRequest(0, DefaultCurrency)).value),
                  o.createdAt, o.updatedAt)
  }

  /** Saving a new pending order under a fresh ID for a customer below the
      limit adds exactly one pending order and stays within the limit: the
      invariant CreateOrder's limit check protects. */
  lemma CreateKeepsPendingLimit(m: map<string, OrderState>, o: OrderState)
    requires o.id !in m && o.status == Pending
    requires |PendingOf(m, o.customerId)| < MaxPendingOrders
    ensures |PendingOf(m[o.id := o], o.customerId)| == |PendingOf(m, o.customerId)| + 1
    ensures |PendingOf(m[o.id := o], o.customerId)| <= MaxPendingOrders
  {
    assert PendingOf(m[o.id := o], o.customerId) == PendingOf(m, o.customerId) + {o.id};
  }

  /** Moving an order out of pending never adds a pending order of anyone. */
  lemma LeavingPendingNeverAddsPending(m: map<string, OrderState>, id: string, o: OrderState, customerId: string)
    requires o.status != Pending
    ensures PendingOf(m[id := o], customerId) <= PendingOf(m, customerId)
    ensures |PendingOf(m[id := o], customerId)| <= |PendingOf(m, customerId)|
  {
    assert PendingOf(m[id := o], customerId) <= PendingOf(m, customerId);
    SubsetCardinality(PendingOf(m[id := o], customerId), PendingOf(m, customerId));
  }

  lemma SubsetCardinality(a: set<string>, b: set<string>)
    requires a <= b
    ensures |a| <= |b|
  {
    assert b == a + (b - a);
  }

  class OrderService {
    const orders: OrderRepository
    const customers: CustomerRepository
    const products: ProductRepository

    constructor(orders: OrderRepository, customers: CustomerRepository, products: ProductRepository)
      ensures this.orders == orders && this.customers == customers && this.products == products
    {
      this.orders, this.customers, this.products := orders, customers, products;
    }

    /** The response of an order object: its total, falling back to 0 USD,
        and one response per line, built in order. */
    method OrderToResponse(order: Order) returns (r: OrderResponse)
      ensures r == OrderResponseOf(order.State())
    {
      var total := order.TotalAmount();
      if total.Err? {
        total := ToMoney(MoneyRequest(0, DefaultCurrency));
      }
      var lines := order.Items();
      var items: seq<OrderItemResponse> := [];
      var i := 0;
      while i < |lines|
        invariant 0 <= i <= |lines|
        invariant |items| == i
        invariant forall j :: 0 <= j < i ==> items[j] == ItemResponseOf(lines[j])
      {
        var itemTotal := lines[i].TotalPrice();
        var shown := if itemTotal.Ok? then FromMoney(itemTotal.value) else MoneyResponse(0, "");
        items := items + [OrderItemResponse(lines[i].id, ProductResponseOf(lines[i].product),
                                            FromQuantity(lines[i].quantity),
                                            FromMoney(lines[i].unitPrice), shown)];
        i := i + 1;
      }
      r := OrderResponse(order.id, order.customerId, items, order.status, FromMoney(total.value),
                         order.createdAt, order.updatedAt);
    }

    /** Opens a new pending order for a stored customer with fewer than ten
        pending orders; any failure saves nothing. `newId` and `now` stand
        for the UUID and the clock. */
    method CreateOrder(request: CreateOrderRequest, newId: string, now: nat) returns (r: Result<OrderResponse>)
      requires orders.Valid()
      modifies orders
      ensures orders.Valid()
      ensures request.customerId !in customers.customers ==> r == Err(CustomerNotFound(request.customerId))
      ensures request.customerId in customers.customers &&
              |PendingOf(old(orders.orders), request.customerId)| >= MaxPendingOrders ==>
        r == Err(PendingLimitReached(request.customerId, MaxPendingOrders))
      ensures request.customerId in customers.customers &&
              |PendingOf(old(orders.orders), request.customerId)| < MaxPendingOrders && request.customerId == "" ==>
        r == Err(OrderCreationFailed(EmptyCustomerId))
      ensures r.Ok? <==> request.customerId in customers.customers && request.customerId != "" &&
                         |PendingOf(old(orders.orders), request.customerId)| < MaxPendingOrders
      ensures r.Err? ==> orders.orders == old(orders.orders)
      ensures r.Ok? ==>
        var o := OrderState(newId, request.customerId, [], Pending, now, now);
        orders.orders == old(orders.orders)[newId := o] && r.value == OrderResponseOf(o)
      ensures r.Ok? && newId !in old(orders.orders) ==>
        |PendingOf(orders.orders, request.customerId)| == |PendingOf(old(orders.orders), request.customerId)| + 1 &&
        |PendingOf(orders.orders, request.customerId)| <= MaxPendingOrders
    {
      var customer := customers.FindByID(request.customerId);
      if customer.None? {
        return Err(CustomerNotFound(request.customerId));
      }
      var pendingCount := orders.CountPendingByCustomer(request.customerId);
      var limit := ValidateCustomerOrderLimit(request.customerId, pendingCount);
      if limit.Fail? {
        return Err(limit.error);
      }
      var created := NewOrder(newId, request.customerId, now);
      if created.Err? {
        return Err(OrderCreationFailed(created.error));
      }
      var order := new Order.FromState(created.value);
      if newId !in orders.orders {
        CreateKeepsPendingLimit(orders.orders, order.State());
      }
      orders.Save(order.State());
      var response := OrderToResponse(order);
      return Ok(response);
    }

    method GetOrder(id: string) returns (r: Result<OrderResponse>)
      ensures id !in orders.orders ==> r == Err(OrderNotFound(id))
      ensures id in orders.orders ==> r == Ok(OrderResponseOf(orders.orders[id]))
    {
      var found := orders.FindByID(id);
      if found.None? {
        return Err(OrderNotFound(id));
      }
      var order := new Order.FromState(found.value);
      var response := OrderToResponse(order);
      return Ok(response);
    }

    /** Adds a line to a stored order, checking in turn that the order and the
        product exist, that the requested quantity is a valid Quantity, that
        the addition is valid (active product, positive quantity within the
        product's stock, pending order) and that the order accepts it. On
        success the product's quantity in the order grows by exactly the
        quantity requested; any failure saves nothing. */
    method AddItemToOrder(orderId: string, request: AddItemRequest, newItemId: string, now: nat)
      returns (r: Result<OrderResponse>)
      requires orders.Valid()
      modifies orders
      ensures orders.Valid()
      ensures orderId !in old(orders.orders) ==> r == Err(OrderNotFound(orderId))
      ensures orderId in old(orders.orders) && request.productId !in products.products ==>
        r == Err(ProductNotFound(request.productId))
      ensures orderId in old(orders.orders) && request.productId in products.products &&
              ToQuantity(request.quantity).Err? ==>
        r == Err(InvalidQuantity(ToQuantity(request.quantity).error))
      ensures orderId in old(orders.orders) && request.productId in products.products &&
              ToQuantity(request.quantity).Ok? ==>
        var o, p, q := old(orders.orders)[orderId], products.products[request.productId], ToQuantity(request.quantity).value;
        (ValidateItemAddition(o, p, q).Fail? ==> r == Err(ValidateItemAddition(o, p, q).error)) &&
        (ValidateItemAddition(o, p, q).Pass? && o.AddItem(newItemId, p, q, now).Err? ==>
           r == Err(AddItemFailed(o.AddItem(newItemId, p, q, now).error))) &&
        (r.Ok? <==> ValidateItemAddition(o, p, q).Pass? && o.AddItem(newItemId, p, q, now).Ok?)
      ensures r.Err? ==> orders.orders == old(orders.orders)
      ensures r.Ok? ==>
        var o, p, q := old(orders.orders)[orderId], products.products[request.productId], ToQuantity(request.quantity).value;
        var added := o.AddItem(newItemId, p, q, now).value;
        p.active && 0 < q.value <= p.stock.value && o.status == Pending &&
        orders.orders == old(orders.orders)[orderId := added] && r.value == OrderResponseOf(added) &&
        QuantityOf(added.items, p.id) == QuantityOf(o.items, p.id) + q.value
    {
      var found := orders.FindByID(orderId);
      if found.None? {
        return Err(OrderNotFound(orderId));
      }
      var product := products.FindByID(request.productId);
      if product.None? {
        return Err(ProductNotFound(request.productId));
      }
      var quantity := ToQuantity(request.quantity);
      if quantity.Err? {
        return Err(InvalidQuantity(quantity.error));
      }
      var valid := ValidateItemAddition(found.value, product.value, quantity.value);
      if valid.Fail? {
        return Err(valid.error);
      }
      var order := new Order.FromState(found.value);
      var added := order.AddItem(newItemId, product.value, quantity.value, now);
      if added.Fail? {
        return Err(AddItemFailed(added.error));
      }
      AddItemAddsQuantity(found.value, newItemId, product.value, quantity.value, now);
      orders.Save(order.State());
      var response := OrderToResponse(order);
      return Ok(response);
    }

    /** Confirms a stored order that passes validation. */
    method ConfirmOrder(orderId: string, now: nat) returns (r: Result<OrderResponse>)
      requires orders.Valid()
      modifies orders
      ensures orders.Valid()
      ensures orderId !in old(orders.orders) ==> r == Err(OrderNotFound(orderId))
      ensures orderId in old(orders.orders) ==>
        var o := old(orders.orders)[orderId];
        (ValidateOrder(o).Fail? ==> r == Err(OrderValidationFailed(ValidateOrder(o).error))) &&
        (ValidateOrder(o).Pass? && o.status != Pending ==> r == Err(ConfirmFailed(ConfirmNonPending))) &&
        (r.Ok? <==> ValidateOrder(o).Pass? && o.status == Pending)
      ensures r.Err? ==> orders.orders == old(orders.orders)
      ensures r.Ok? ==>
        var o := old(orders.orders)[orderId].(status := Confirmed, updatedAt := now);
        orders.orders == old(orders.orders)[orderId := o] && r.value == OrderResponseOf(o)
    {
      var found := orders.FindByID(orderId);
      if found.None? {
        return Err(OrderNotFound(orderId));
      }
      var valid := ValidateOrder(found.value);
      if valid.Fail? {
        return Err(OrderValidationFailed(valid.error));
      }
      var order := new Order.FromState(found.value);
      var confirmed := order.Confirm(now);
      if confirmed.Fail? {
        return Err(ConfirmFailed(confirmed.error));
      }
      orders.Save(order.State());
      var response := OrderToResponse(order);
      return Ok(response);
    }

    /** Moves a stored order to the requested status when the transition
        table allows it, through the order's own transition; confirming also
        needs a line. Any failure saves nothing. */
    method UpdateOrderStatus(orderId: string, request: UpdateOrderStatusRequest, now: nat)
      returns (r: Result<OrderResponse>)
      requires orders.Valid()
      modifies orders
      ensures orders.Valid()
      ensures orderId !in old(orders.orders) ==> r == Err(OrderNotFound(orderId))
      ensures orderId in old(orders.orders) ==>
        var o := old(orders.orders)[orderId];
        (ValidateOrderTransition(o, request.status).Fail? ==> r == Err(ValidateOrderTransition(o, request.status).error)) &&
        (ValidateOrderTransition(o, request.status).Pass? && request.status == Confirmed && |o.items| == 0 ==>
           r == Err(ConfirmFailed(ConfirmEmpty))) &&
        (r.Ok? <==> ValidateOrderTransition(o, request.status).Pass? &&
                    (request.status == Confirmed ==> |o.items| > 0))
      ensures r.Err? ==> orders.orders == old(orders.orders)
      ensures r.Ok? ==>
        var o := old(orders.orders)[orderId].(status := request.status, updatedAt := now);
        orders.orders == old(orders.orders)[orderId := o] && r.value == OrderResponseOf(o)
    {
      var found := orders.FindByID(orderId);
      if found.None? {
        return Err(OrderNotFound(orderId));
      }
      var newStatus := request.status;
      var valid := ValidateOrderTransition(found.value, newStatus);
      if valid.Fail? {
        return Err(valid.error);
      }
      var order := new Order.FromState(found.value);
      var changed: Outcome;
      if newStatus == Confirmed {
        changed := order.Confirm(now);
        if changed.Fail? {
          return Err(ConfirmFailed(changed.error));
        }
      } else if newStatus == Shipped {
        changed := order.Ship(now);
        if changed.Fail? {
          match changed
          case Fail(e) => return Err(ShipFailed(e));
        }
      } else if newStatus == Delivered {
        changed := order.Deliver(now);
        if changed.Fail? {
          match changed
          case Fail(e) => return Err(DeliverFailed(e));
        }
      } else if newStatus == Cancelled {
        changed := order.Cancel(now);
        if changed.Fail? {
          match changed
          case Fail(e) => return Err(CancelFailed(e));
        }
      } else {
        return Err(InvalidOrderStatus(request.status));
      }
      orders.Save(order.State());
      var response := OrderToResponse(order);
      return Ok(response);
    }

    /** One response per order, built in order. */
    method OrdersToResponses(found: seq<OrderState>) returns (r: seq<OrderResponse>)
      ensures |r| == |found|
      ensures forall j :: 0 <= j < |found| ==> r[j] == OrderResponseOf(found[j])
    {
      r := [];
      var i := 0;
      while i < |found|
        invariant 0 <= i <= |found|
        invariant |r| == i
        invariant forall j :: 0 <= j < i ==> r[j] == OrderResponseOf(found[j])
      {
        var order := new Order.FromState(found[i]);
        var response := OrderToResponse(order);
        r := r + [response];
        i := i + 1;
      }
    }

    /** Every stored order, reported once each. */
    method GetAllOrders() returns (r: seq<OrderResponse>)
      ensures |r| == |orders.orders|
      ensures forall i :: 0 <= i < |r| ==> exists k :: k in orders.orders && r[i] == OrderResponseOf(orders.orders[k])
      ensures forall k :: k in orders.orders ==> OrderResponseOf(orders.orders[k]) in r
    {
      var found := orders.FindAll();
      r := OrdersToResponses(found);
      forall i | 0 <= i < |r|
        ensures exists k :: k in orders.orders && r[i] == OrderResponseOf(orders.orders[k])
      {
        var k :| k in orders.orders && orders.orders[k] == found[i];
      }
      forall k | k in orders.orders
        ensures OrderResponseOf(orders.orders[k]) in r
      {
        var j :| 0 <= j < |found| && found[j] == orders.orders[k];
        assert r[j] == OrderResponseOf(orders.orders[k]);
      }
    }
  }
}
