/** The Order aggregate root: an item list changed in place while the order
    is pending, and the status machine
    pending -> confirmed -> shipped -> delivered, with cancel from anywhere
    but delivered.

    `OrderState` is the order as a value, with the reference definition of
    every operation as a function; class `Order` holds the same fields and
    changes them in place, each method proved to agree with its function. */
module Orders {
  import opened Outcomes
  import opened Monies
  import opened Quantities
  import opened Products
  import opened OrderItems
  import opened Collections

  /** Go's `type OrderStatus string`: any string, five of them named. */
  type OrderStatus = string

  const Pending: OrderStatus := "pending"
  const Confirmed: OrderStatus := "confirmed"
  const Shipped: OrderStatus := "shipped"
  const Delivered: OrderStatus := "delivered"
  const Cancelled: OrderStatus := "cancelled"

  /** The currency of an empty order's total. */
  const DefaultCurrency: string := "USD"

  /** Why `item` cannot be added into a running total kept in `currency`:
      a negative quantity makes its price fail, an empty currency makes its
      price fail, and another currency makes the addition fail. */
  function LineError(item: OrderItem, currency: string): Option<Error>
  {
    if item.quantity.value < 0 then Some(NegativeFactor)
    else if item.unitPrice.currency == "" then Some(EmptyCurrency)
    else if item.unitPrice.currency != currency then Some(CurrencyMismatch)
    else None
  }

  /** Every line can be priced and added into a total in `currency`. */
  predicate Priceable(items: seq<OrderItem>, currency: string)
  {
    forall i :: 0 <= i < |items| ==> LineError(items[i], currency).None?
  }

  /** The sum of the lines' prices, in cents. */
  function LineSum(items: seq<OrderItem>): int
  {
    if |items| == 0 then 0
    else items[0].unitPrice.amount * items[0].quantity.value + LineSum(items[1..])
  }

  /** The running total of TotalAmount's loop: starting from `acc`, add the
      price of each line in turn, stopping at the first error. */
  function SumLines(items: seq<OrderItem>, acc: Money): (r: Result<Money>)
    ensures r.Ok? <==> Priceable(items, acc.currency)
    ensures r.Ok? ==> r.value.amount == acc.amount + LineSum(items) && r.value.currency == acc.currency
    decreases |items|
  {
    if |items| == 0 then Ok(acc)
    else match items[0].TotalPrice()
      case Err(e) => Err(e)
      case Ok(price) =>
        match acc.Add(price)
        case Err(e) => Err(e)
        case Ok(next) =>
          assert forall i :: 0 <= i < |items| - 1 ==> items[1..][i] == items[i + 1];
          SumLines(items[1..], next)
  }

  /** A failing sum reports the error of the first line that cannot be added. */
  lemma {:induction false} SumLinesError(items: seq<OrderItem>, acc: Money)
    requires SumLines(items, acc).Err?
    ensures exists i :: 0 <= i < |items| && Priceable(items[..i], acc.currency) &&
                        LineError(items[i], acc.currency) == Some(SumLines(items, acc).error)
    decreases |items|
  {
    var price := items[0].TotalPrice();
    if price.Err? || acc.Add(price.value).Err? {
      assert Priceable(items[..0], acc.currency);
    } else {
      var next := acc.Add(price.value).value;
      SumLinesError(items[1..], next);
      var i :| 0 <= i < |items[1..]| && Priceable(items[1..][..i], next.currency) &&
               LineError(items[1..][i], next.currency) == Some(SumLines(items[1..], next).error);
      assert items[..i + 1] == [items[0]] + items[1..][..i];
      assert Priceable(items[..i + 1], acc.currency);
    }
  }

  /** Which lines match a product, by the product's identity. */
  function SameProduct(product: ProductState): OrderItem -> bool
  {
    (item: OrderItem) => item.product.Equals(product)
  }

  /** Which lines carry an item ID. */
  function HasId(itemId: string): OrderItem -> bool
  {
    (item: OrderItem) => item.id == itemId
  }

  /** The total quantity of a product over the lines. */
  function QuantityOf(items: seq<OrderItem>, productId: string): int
  {
    if |items| == 0 then 0
    else (if items[0].product.id == productId then items[0].quantity.value else 0) +
         QuantityOf(items[1..], productId)
  }

  datatype OrderState = OrderState(id: string, customerId: string, items: seq<OrderItem>,
                                   status: OrderStatus, createdAt: nat, updatedAt: nat) {

    function ItemCount(): nat
    {
      |items|
    }

    predicate IsEmpty()
    {
      |items| == 0
    }

    /** Orders are compared by identity: their IDs. */
    predicate Equals(other: OrderState)
    {
      id == other.id
    }

    /** The order holds a line for this product. */
    predicate HasProduct(productId: string)
    {
      exists i :: 0 <= i < |items| && items[i].product.id == productId
    }

    /** The invariant the order's own operations keep: one line per product,
        distinct line IDs, positive quantities. */
    predicate WellFormed()
    {
      (forall i, j :: 0 <= i < j < |items| ==>
         items[i].product.id != items[j].product.id && items[i].id != items[j].id) &&
      (forall i :: 0 <= i < |items| ==> items[i].quantity.value > 0)
    }

    /** The sum of the lines' prices. An empty order is 0 USD; otherwise the
        total is kept in the first line's currency, and every line must be
        in that currency with a non-negative quantity. */
    function TotalAmount(): (r: Result<Money>)
      ensures |items| == 0 ==> r == Ok(Money(0, DefaultCurrency))
      ensures |items| > 0 ==>
        (r.Ok? <==> items[0].unitPrice.currency != "" &&
                    forall i :: 0 <= i < |items| ==>
                      items[i].quantity.value >= 0 && items[i].unitPrice.currency == items[0].unitPrice.currency)
      ensures |items| > 0 && r.Ok? ==>
        r.value.amount == LineSum(items) && r.value.currency == items[0].unitPrice.currency
    {
      if |items| == 0 then Ok(Zero(DefaultCurrency))
      else SumLines(items, Zero(items[0].unitPrice.currency))
    }

    /** Adds `quantity` of `product`, only while pending. A product already
        present (same ID) has its line's quantity increased in place, keeping
        the line's unit price and leaving `updatedAt` alone; a new product
        gets a new line at the end and `updatedAt` becomes `now`. `itemId`
        stands for the new line's UUID. */
    function AddItem(itemId: string, product: ProductState, quantity: Quantity, now: nat): (r: Result<OrderState>)
      ensures status != Pending ==> r == Err(AddToNonPending)
      ensures r.Ok? ==> status == Pending && r.value.id == id && r.value.customerId == customerId &&
                        r.value.status == status && r.value.createdAt == createdAt
      ensures forall i :: 0 <= i < |items| && items[i].product.id == product.id &&
                          (forall j :: 0 <= j < i ==> items[j].product.id != product.id) ==>
        (status == Pending ==>
           (r.Ok? <==> quantity.unit == items[i].quantity.unit && quantity.unit != "" &&
                       items[i].quantity.value + quantity.value > 0)) &&
        (status == Pending && r.Err? ==>
           r.error == (if quantity.unit != items[i].quantity.unit then UnitMismatch
                       else if items[i].quantity.value + quantity.value < 0 then NegativeQuantity
                       else if quantity.unit == "" then EmptyUnit
                       else NonPositiveQuantity)) &&
        (r.Ok? ==> r.value.updatedAt == updatedAt &&
                   r.value.items == items[i := items[i].(quantity := Quantity(items[i].quantity.value + quantity.value, quantity.unit))])
      ensures !HasProduct(product.id) ==>
        (status == Pending ==> (r.Ok? <==> product.active && quantity.value > 0)) &&
        (status == Pending && r.Err? ==> r == Err(if !product.active then InactiveProductItem else NonPositiveQuantity)) &&
        (r.Ok? ==> r.value.updatedAt == now &&
                   r.value.items == items + [OrderItem(itemId, product, quantity, product.price)])
    {
      if status != Pending then Err(AddToNonPending)
      else match FirstIndex(items, SameProduct(product))
        case Some(i) =>
          (match items[i].quantity.Add(quantity)
           case Err(e) => Err(e)
           case Ok(merged) =>
             match items[i].UpdateQuantity(merged)
             case Err(e) => Err(e)
             case Ok(line) => Ok(this.(items := items[i := line])))
        case None =>
          match NewOrderItem(itemId, product, quantity)
          case Err(e) => Err(e)
          case Ok(line) => Ok(this.(items := items + [line], updatedAt := now))
    }

    /** Removes the first line with this ID, only while pending, keeping the
        other lines in order; `updatedAt` becomes `now`. */
    function RemoveItem(itemId: string, now: nat): (r: Result<OrderState>)
      ensures status != Pending ==> r == Err(RemoveFromNonPending)
      ensures status == Pending ==> (r.Ok? <==> exists i :: 0 <= i < |items| && items[i].id == itemId)
      ensures status == Pending && r.Err? ==> r.error == ItemNotInOrder
      ensures r.Ok? ==> exists i :: 0 <= i < |items| && items[i].id == itemId &&
                          (forall j :: 0 <= j < i ==> items[j].id != itemId) &&
                          r.value == this.(items := items[..i] + items[i + 1..], updatedAt := now)
    {
      if status != Pending then Err(RemoveFromNonPending)
      else match FirstIndex(items, HasId(itemId))
        case None => Err(ItemNotInOrder)
        case Some(i) => Ok(this.(items := items[..i] + items[i + 1..], updatedAt := now))
    }

    /** pending -> confirmed, for an order with at least one line. */
    function Confirm(now: nat): (r: Result<OrderState>)
      ensures status != Pending ==> r == Err(ConfirmNonPending)
      ensures status == Pending && |items| == 0 ==> r == Err(ConfirmEmpty)
      ensures r.Ok? <==> status == Pending && |items| > 0
      ensures r.Ok? ==> r.value == this.(status := Confirmed, updatedAt := now)
    {
      if status != Pending then Err(ConfirmNonPending)
      else if |items| == 0 then Err(ConfirmEmpty)
      else Ok(this.(status := Confirmed, updatedAt := now))
    }

    /** confirmed -> shipped. */
    function Ship(now: nat): (r: Result<OrderState>)
      ensures r.Ok? <==> status == Confirmed
      ensures r.Err? ==> r.error == ShipNonConfirmed
      ensures r.Ok? ==> r.value == this.(status := Shipped, updatedAt := now)
    {
      if status != Confirmed then Err(ShipNonConfirmed)
      else Ok(this.(status := Shipped, updatedAt := now))
    }

    /** shipped -> delivered. */
    function Deliver(now: nat): (r: Result<OrderState>)
      ensures r.Ok? <==> status == Shipped
      ensures r.Err? ==> r.error == DeliverNonShipped
      ensures r.Ok? ==> r.value == this.(status := Delivered, updatedAt := now)
    {
      if status != Shipped then Err(DeliverNonShipped)
      else Ok(this.(status := Delivered, updatedAt := now))
    }

    /** Any status but delivered -> cancelled: also from shipped, and again
        from cancelled. */
    function Cancel(now: nat): (r: Result<OrderState>)
      ensures r.Ok? <==> status != Delivered
      ensures r.Err? ==> r.error == CancelDelivered
      ensures r.Ok? ==> r.value == this.(status := Cancelled, updatedAt := now)
    {
      if status == Delivered then Err(CancelDelivered)
      else Ok(this.(status := Cancelled, updatedAt := now))
    }
  }

  /** A new order: pending, without lines, created and updated at `now`.
      `id` stands for the generated UUID. */
  function NewOrder(id: string, customerId: string, now: nat): (r: Result<OrderState>)
    ensures customerId == "" ==> r == Err(EmptyCustomerId)
    ensures r.Ok? <==> customerId != ""
    ensures r.Ok? ==> r.value.id == id && r.value.customerId == customerId &&
                      r.value.items == [] && r.value.status == Pending &&
                      r.value.createdAt == now && r.value.updatedAt == now
  {
    if customerId == "" then Err(EmptyCustomerId)
    else Ok(OrderState(id, customerId, [], Pending, now, now))
  }

  /** The state after an operation: its result, or the unchanged state when
      it fails. */
  function Applied(r: Result<OrderState>, s: OrderState): OrderState
  {
    if r.Ok? then r.value else s
  }

  // ---------------------------------------------------------------------
  // Properties of the reference definitions

  /** IsEmpty is ItemCount == 0, and a new order is empty and well formed. */
  lemma NewOrderIsEmpty(id: string, customerId: string, now: nat, o: OrderState)
    requires customerId != ""
    ensures NewOrder(id, customerId, now).value.IsEmpty()
    ensures NewOrder(id, customerId, now).value.WellFormed()
    ensures o.IsEmpty() <==> o.ItemCount() == 0
  {
  }

  /** QuantityOf adds up over concatenation. */
  lemma {:induction false} QuantityOfConcat(a: seq<OrderItem>, b: seq<OrderItem>, productId: string)
    ensures QuantityOf(a + b, productId) == QuantityOf(a, productId) + QuantityOf(b, productId)
    decreases |a|
  {
    if |a| == 0 {
      assert a + b == b;
    } else {
      QuantityOfConcat(a[1..], b, productId);
      assert (a + b)[1..] == a[1..] + b;
    }
  }

  /** The quantity of a product over a single line. */
  lemma QuantityOfSingle(x: OrderItem, productId: string)
    ensures QuantityOf([x], productId) == if x.product.id == productId then x.quantity.value else 0
  {
    assert [x][1..] == [];
  }

  /** Replacing one line changes the quantities by that line's difference. */
  lemma QuantityOfUpdate(s: seq<OrderItem>, i: nat, x: OrderItem, productId: string)
    requires i < |s|
    ensures QuantityOf(s[i := x], productId) ==
              QuantityOf(s, productId)
              - (if s[i].product.id == productId then s[i].quantity.value else 0)
              + (if x.product.id == productId then x.quantity.value else 0)
  {
    assert s == s[..i] + [s[i]] + s[i + 1..];
    assert s[i := x] == s[..i] + [x] + s[i + 1..];
    QuantityOfConcat(s[..i] + [s[i]], s[i + 1..], productId);
    QuantityOfConcat(s[..i], [s[i]], productId);
    QuantityOfConcat(s[..i] + [x], s[i + 1..], productId);
    QuantityOfConcat(s[..i], [x], productId);
    QuantityOfSingle(s[i], productId);
    QuantityOfSingle(x, productId);
  }

  /** Removing one line takes away that line's quantity. */
  lemma QuantityOfRemove(s: seq<OrderItem>, i: nat, productId: string)
    requires i < |s|
    ensures QuantityOf(s[..i] + s[i + 1..], productId) ==
              QuantityOf(s, productId) - (if s[i].product.id == productId then s[i].quantity.value else 0)
  {
    assert s == s[..i] + [s[i]] + s[i + 1..];
    QuantityOfConcat(s[..i] + [s[i]], s[i + 1..], productId);
    QuantityOfConcat(s[..i], [s[i]], productId);
    QuantityOfConcat(s[..i], s[i + 1..], productId);
    QuantityOfSingle(s[i], productId);
  }

  /** Adding a product, whether it merges or makes a new line, increases that
      product's quantity in the order by exactly the quantity added and
      leaves every other product's quantity alone. */
  lemma AddItemAddsQuantity(o: OrderState, itemId: string, product: ProductState,
                            quantity: Quantity, now: nat)
    requires o.AddItem(itemId, product, quantity, now).Ok?
    ensures var r := o.AddItem(itemId, product, quantity, now).value;
            QuantityOf(r.items, product.id) == QuantityOf(o.items, product.id) + quantity.value
    ensures var r := o.AddItem(itemId, product, quantity, now).value;
            forall otherId :: otherId != product.id ==> QuantityOf(r.items, otherId) == QuantityOf(o.items, otherId)
  {
    var r := o.AddItem(itemId, product, quantity, now).value;
    match FirstIndex(o.items, SameProduct(product))
    case Some(i) =>
      var merged := o.items[i].quantity.Add(quantity).value;
      var line := o.items[i].UpdateQuantity(merged).value;
      assert r.items == o.items[i := line];
      assert o.items[i].product.id == product.id == line.product.id;
      assert line.quantity.value == o.items[i].quantity.value + quantity.value;
      QuantityOfUpdate(o.items, i, line, product.id);
      forall otherId | otherId != product.id
        ensures QuantityOf(r.items, otherId) == QuantityOf(o.items, otherId)
      {
        QuantityOfUpdate(o.items, i, line, otherId);
      }
    case None =>
      var line := OrderItem(itemId, product, quantity, product.price);
      QuantityOfConcat(o.items, [line], product.id);
      QuantityOfSingle(line, product.id);
      forall otherId | otherId != product.id
        ensures QuantityOf(r.items, otherId) == QuantityOf(o.items, otherId)
      {
        QuantityOfConcat(o.items, [line], otherId);
        QuantityOfSingle(line, otherId);
      }
  }

  /** Adding a product already present keeps the number of lines; adding a
      new one adds exactly one. */
  lemma AddItemCount(o: OrderState, itemId: string, product: ProductState, quantity: Quantity, now: nat)
    requires o.AddItem(itemId, product, quantity, now).Ok?
    ensures o.HasProduct(product.id) ==> o.AddItem(itemId, product, quantity, now).value.ItemCount() == o.ItemCount()
    ensures !o.HasProduct(product.id) ==> o.AddItem(itemId, product, quantity, now).value.ItemCount() == o.ItemCount() + 1
  {
    if o.HasProduct(product.id) {
      var k := FirstIndex(o.items, SameProduct(product));
      assert k.Some?;
    }
  }

  /** AddItem keeps the order well formed, given a fresh line ID. */
  lemma AddItemKeepsWellFormed(o: OrderState, itemId: string, product: ProductState, quantity: Quantity, now: nat)
    requires o.WellFormed()
    requires forall i :: 0 <= i < |o.items| ==> o.items[i].id != itemId
    requires o.AddItem(itemId, product, quantity, now).Ok?
    ensures o.AddItem(itemId, product, quantity, now).value.WellFormed()
  {
  }

  /** RemoveItem keeps the order well formed, and in a well-formed order no
      line with that ID is left; one line fewer remains. */
  lemma RemoveItemKeepsWellFormed(o: OrderState, itemId: string, now: nat)
    requires o.WellFormed()
    requires o.RemoveItem(itemId, now).Ok?
    ensures var r := o.RemoveItem(itemId, now).value;
            r.WellFormed() && r.ItemCount() == o.ItemCount() - 1 &&
            forall j :: 0 <= j < |r.items| ==> r.items[j].id != itemId
  {
    var r := o.RemoveItem(itemId, now).value;
    var i := FirstIndex(o.items, HasId(itemId)).value;
    assert r.items == o.items[..i] + o.items[i + 1..];
    assert forall j :: 0 <= j < |r.items| ==> r.items[j] == (if j < i then o.items[j] else o.items[j + 1]);
  }

  /** Removing a line takes exactly its quantity away from its product. */
  lemma RemoveItemTakesQuantity(o: OrderState, itemId: string, now: nat, productId: string)
    requires o.RemoveItem(itemId, now).Ok?
    ensures exists i :: (0 <= i < |o.items| && o.items[i].id == itemId &&
              QuantityOf(o.RemoveItem(itemId, now).value.items, productId) ==
                QuantityOf(o.items, productId) - (if o.items[i].product.id == productId then o.items[i].quantity.value else 0))
  {
    var i :| 0 <= i < |o.items| && o.items[i].id == itemId &&
             o.RemoveItem(itemId, now).value == o.(items := o.items[..i] + o.items[i + 1..], updatedAt := now);
    QuantityOfRemove(o.items, i, productId);
  }

  /** Once an order has left pending, no operation brings it back, and a
      delivered order accepts no operation at all. */
  lemma StatusNeverReturnsToPending(o: OrderState, itemId: string, product: ProductState,
                                    quantity: Quantity, now: nat)
    requires o.status != Pending
    ensures o.AddItem(itemId, product, quantity, now).Err? && o.RemoveItem(itemId, now).Err?
    ensures o.Confirm(now).Err?
    ensures o.Ship(now).Ok? ==> o.Ship(now).value.status != Pending
    ensures o.Deliver(now).Ok? ==> o.Deliver(now).value.status != Pending
    ensures o.Cancel(now).Ok? ==> o.Cancel(now).value.status != Pending
    ensures o.status == Delivered ==> o.Ship(now).Err? && o.Deliver(now).Err? && o.Cancel(now).Err?
  {
  }

  /** The scenario of adding 2 and then 3 units of one product: one line of
      5 units, priced once at the snapshot. */
  lemma MergeScenario(product: ProductState)
    requires product.active && product.price == Money(1000, "USD")
    ensures var o := OrderState("o", "c", [], Pending, 0, 0);
            var r1 := o.AddItem("i1", product, Quantity(2, "units"), 1);
            r1.Ok? &&
            var r2 := r1.value.AddItem("i2", product, Quantity(3, "units"), 2);
            r2.Ok? && r2.value.items == [OrderItem("i1", product, Quantity(5, "units"), Money(1000, "USD"))] &&
            r2.value.updatedAt == 1 && r2.value.TotalAmount() == Ok(Money(5000, "USD"))
  {
    var o := OrderState("o", "c", [], Pending, 0, 0);
    var r1 := o.AddItem("i1", product, Quantity(2, "units"), 1);
    assert r1.value.items == [OrderItem("i1", product, Quantity(2, "units"), Money(1000, "USD"))];
    assert FirstIndex(r1.value.items, SameProduct(product)) == Some(0);
  }

  // ---------------------------------------------------------------------
  // The order as an object changed in place

  class Order {
    var id: string
    var customerId: string
    var items: seq<OrderItem>
    var status: OrderStatus
    var createdAt: nat
    var updatedAt: nat

    function State(): OrderState
      reads this
    {
      OrderState(id, customerId, items, status, createdAt, updatedAt)
    }

    /** Rebuilds an order from stored fields (OrderFromExisting). */
    constructor FromState(s: OrderState)
      ensures State() == s
    {
      id, customerId, items := s.id, s.customerId, s.items;
      status, createdAt, updatedAt := s.status, s.createdAt, s.updatedAt;
    }

    /** A copy of the lines: as a value, the lines themselves. */
    function Items(): (r: seq<OrderItem>)
      reads this
      ensures r == State().items
    {
      items
    }

    /** Searches the lines for the product; merges into the first match in
        place, or appends a new line. */
    method AddItem(itemId: string, product: ProductState, quantity: Quantity, now: nat) returns (r: Outcome)
      modifies this
      ensures r == old(State()).AddItem(itemId, product, quantity, now).ToOutcome()
      ensures State() == Applied(old(State()).AddItem(itemId, product, quantity, now), old(State()))
    {
      if status != Pending {
        return Fail(AddToNonPending);
      }
      var i := 0;
      while i < |items|
        invariant 0 <= i <= |items|
        invariant forall j :: 0 <= j < i ==> !SameProduct(product)(items[j])
      {
        if items[i].product.Equals(product) {
          FirstIndexIs(items, SameProduct(product), i);
          var merged := items[i].quantity.Add(quantity);
          if merged.Err? {
            return Fail(merged.error);
          }
          var line := items[i].UpdateQuantity(merged.value);
          if line.Err? {
            return Fail(line.error);
          }
          items := items[i := line.value];
          return Pass;
        }
        i := i + 1;
      }
      var line := NewOrderItem(itemId, product, quantity);
      if line.Err? {
        return Fail(line.error);
      }
      items := items + [line.value];
      updatedAt := now;
      return Pass;
    }

    /** Searches the lines for the ID and splices the first match out. */
    method RemoveItem(itemId: string, now: nat) returns (r: Outcome)
      modifies this
      ensures r == old(State()).RemoveItem(itemId, now).ToOutcome()
      ensures State() == Applied(old(State()).RemoveItem(itemId, now), old(State()))
    {
      if status != Pending {
        return Fail(RemoveFromNonPending);
      }
      var i := 0;
      while i < |items|
        invariant 0 <= i <= |items|
        invariant forall j :: 0 <= j < i ==> !HasId(itemId)(items[j])
      {
        if items[i].id == itemId {
          FirstIndexIs(items, HasId(itemId), i);
          items := items[..i] + items[i + 1..];
          updatedAt := now;
          return Pass;
        }
        i := i + 1;
      }
      return Fail(ItemNotInOrder);
    }

    /** Accumulates the lines' prices into a total kept in the first line's
        currency, stopping at the first error. */
    method TotalAmount() returns (r: Result<Money>)
      ensures r == State().TotalAmount()
    {
      if |items| == 0 {
        return Ok(Zero(DefaultCurrency));
      }
      var total := Zero(items[0].unitPrice.currency);
      var i := 0;
      while i < |items|
        invariant 0 <= i <= |items|
        invariant SumLines(items[i..], total) == State().TotalAmount()
      {
        var price := items[i].TotalPrice();
        if price.Err? {
          return Err(price.error);
        }
        var sum := total.Add(price.value);
        if sum.Err? {
          return Err(sum.error);
        }
        assert items[i..][1..] == items[i + 1..];
        total := sum.value;
        i := i + 1;
      }
      return Ok(total);
    }

    method Confirm(now: nat) returns (r: Outcome)
      modifies this
      ensures r == old(State()).Confirm(now).ToOutcome()
      ensures State() == Applied(old(State()).Confirm(now), old(State()))
    {
      if status != Pending {
        return Fail(ConfirmNonPending);
      }
      if |items| == 0 {
        return Fail(ConfirmEmpty);
      }
      status, updatedAt := Confirmed, now;
      return Pass;
    }

    method Ship(now: nat) returns (r: Outcome)
      modifies this
      ensures r == old(State()).Ship(now).ToOutcome()
      ensures State() == Applied(old(State()).Ship(now), old(State()))
    {
      if status != Confirmed {
        return Fail(ShipNonConfirmed);
      }
      status, updatedAt := Shipped, now;
      return Pass;
    }

    method Deliver(now: nat) returns (r: Outcome)
      modifies this
      ensures r == old(State()).Deliver(now).ToOutcome()
      ensures State() == Applied(old(State()).Deliver(now), old(State()))
    {
      if status != Shipped {
        return Fail(DeliverNonShipped);
      }
      status, updatedAt := Delivered, now;
      return Pass;
    }

    method Cancel(now: nat) returns (r: Outcome)
      modifies this
      ensures r == old(State()).Cancel(now).ToOutcome()
      ensures State() == Applied(old(State()).Cancel(now), old(State()))
    {
      if status == Delivered {
        return Fail(CancelDelivered);
      }
      status, updatedAt := Cancelled, now;
      return Pass;
    }
  }
}
