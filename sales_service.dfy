/** The sales side of the sales/billing pair: orders priced in integer cents,
    paid once, kept in an in-memory repository, and marked paid when a
    payment of at least their total is approved. */
module Sales {
  import opened Outcomes

  /** A quantity of at least one unit, as the item model validates it. */
  type PositiveCount = n: int | n >= 1 witness 1

  /** The currency of an order without items. */
  const DefaultCurrency: string := "COP"

  /** The status enumeration has exactly two members. */
  datatype OrderStatus = Pending | Paid

  /** Money in non-negative whole cents. */
  datatype Money = Money(amountCents: nat, currency: string) {
    /** Money adds only within one currency. */
    function Add(other: Money): (r: Result<Money>)
      ensures r.Ok? <==> currency == other.currency
      ensures r.Err? ==> r.error == DifferentCurrencies
      ensures r.Ok? ==> r.value.amountCents == amountCents + other.amountCents && r.value.currency == currency
    {
      if currency != other.currency then Err(DifferentCurrencies)
      else Ok(Money(amountCents + other.amountCents, currency))
    }
  }

  datatype OrderItem = OrderItem(sku: string, qty: PositiveCount, unitPrice: Money) {
    /** The unit price times the quantity, in the unit price's currency: never
        less than one unit's price. */
    function LineTotal(): (r: Money)
      ensures r.amountCents == unitPrice.amountCents * qty && r.currency == unitPrice.currency
      ensures r.amountCents >= unitPrice.amountCents
    {
      Money(unitPrice.amountCents * qty, unitPrice.currency)
    }
  }

  /** The sum of the line totals, in cents. */
  function LineTotals(items: seq<OrderItem>): nat
  {
    if |items| == 0 then 0 else items[0].LineTotal().amountCents + LineTotals(items[1..])
  }

  /** Every item is priced in `currency`. */
  predicate AllIn(items: seq<OrderItem>, currency: string)
  {
    forall i :: 0 <= i < |items| ==> items[i].unitPrice.currency == currency
  }

  /** The running total of the total's loop: add each line total in turn to
      `acc`, stopping at the first line in another currency. */
  function Accumulate(items: seq<OrderItem>, acc: Money): (r: Result<Money>)
    ensures r.Ok? <==> AllIn(items, acc.currency)
    ensures r.Err? ==> r.error == DifferentCurrencies
    ensures r.Ok? ==> r.value == Money(acc.amountCents + LineTotals(items), acc.currency)
    decreases |items|
  {
    if |items| == 0 then Ok(acc)
    else
      match acc.Add(items[0].LineTotal())
      case Err(e) => Err(e)
      case Ok(sum) =>
        assert forall i :: 0 <= i < |items| - 1 ==> items[1..][i] == items[i + 1];
        Accumulate(items[1..], sum)
  }

  datatype OrderState = OrderState(id: string, customerId: string, items: seq<OrderItem>,
                                   status: OrderStatus, createdAt: nat) {

    /** The sum of the line totals in the first item's currency; an order
        without items totals 0 COP, and an item in another currency fails. */
    function Total(): (r: Result<Money>)
      ensures |items| == 0 ==> r == Ok(Money(0, DefaultCurrency))
      ensures |items| > 0 ==> (r.Ok? <==> AllIn(items, items[0].unitPrice.currency))
      ensures |items| > 0 && r.Ok? ==> r.value == Money(LineTotals(items), items[0].unitPrice.currency)
      ensures r.Err? ==> r.error == DifferentCurrencies
    {
      Accumulate(items, Money(0, if |items| > 0 then items[0].unitPrice.currency else DefaultCurrency))
    }

    /** A pending order becomes paid; a paid order stays as it is. */
    function MarkPaid(): (r: Result<OrderState>)
      ensures status == Paid ==> r == Ok(this)
      ensures status == Pending ==> r == Ok(this.(status := Paid))
    {
      if status == Paid then Ok(this)
      else if status != Pending then Err(OnlyPendingPayable)
      else Ok(this.(status := Paid))
    }
  }

  /** The state after an operation: its result, or the unchanged state when
      it fails. */
  function Applied(r: Result<OrderState>, s: OrderState): OrderState
  {
    if r.Ok? then r.value else s
  }

  /** Marking paid is idempotent, and whatever the status it leaves the order
      paid with everything else unchanged. */
  lemma MarkPaidIsIdempotent(o: OrderState)
    ensures o.MarkPaid().Ok? && o.MarkPaid().value == o.(status := Paid)
    ensures o.MarkPaid().value.MarkPaid() == o.MarkPaid()
  {
  }

  /** The sum of the line totals adds up over concatenation. */
  lemma {:induction false} LineTotalsConcat(a: seq<OrderItem>, b: seq<OrderItem>)
    ensures LineTotals(a + b) == LineTotals(a) + LineTotals(b)
    decreases |a|
  {
    if |a| == 0 {
      assert a + b == b;
    } else {
      LineTotalsConcat(a[1..], b);
      assert (a + b)[1..] == a[1..] + b;
    }
  }

  /** Adding an item in the order's currency raises the total by exactly
      that item's line total. */
  lemma TotalOfAddedItem(o: OrderState, x: OrderItem)
    requires |o.items| > 0 && o.Total().Ok?
    requires x.unitPrice.currency == o.items[0].unitPrice.currency
    ensures var more := o.(items := o.items + [x]);
            more.Total().Ok? &&
            more.Total().value.amountCents == o.Total().value.amountCents + x.LineTotal().amountCents
  {
    var more := o.(items := o.items + [x]);
    LineTotalsConcat(o.items, [x]);
    assert [x][1..] == [];
    assert AllIn(more.items, more.items[0].unitPrice.currency);
  }

  class Order {
    var id: string
    var customerId: string
    var items: seq<OrderItem>
    var status: OrderStatus
    var createdAt: nat

    function State(): OrderState
      reads this
    {
      OrderState(id, customerId, items, status, createdAt)
    }

    constructor FromState(s: OrderState)
      ensures State() == s
    {
      id, customerId, items, status, createdAt := s.id, s.customerId, s.items, s.status, s.createdAt;
    }

    /** Accumulates the line totals into a total kept in the first item's
        currency. */
    method Total() returns (r: Result<Money>)
      ensures r == State().Total()
    {
      var total := Money(0, if |items| > 0 then items[0].unitPrice.currency else DefaultCurrency);
      var i := 0;
      while i < |items|
        invariant 0 <= i <= |items|
        invariant Accumulate(items[i..], total) == State().Total()
      {
        var sum := total.Add(items[i].LineTotal());
        if sum.Err? {
          return Err(sum.error);
        }
        assert items[i..][1..] == items[i + 1..];
        total := sum.value;
        i := i + 1;
      }
      return Ok(total);
    }

    method MarkPaid() returns (r: Outcome)
      modifies this
      ensures r == old(State()).MarkPaid().ToOutcome()
      ensures State() == Applied(old(State()).MarkPaid(), old(State()))
    {
      if status == Paid {
        return Pass;
      }
      if status != Pending {
        return Fail(OnlyPendingPayable);
      }
      status := Paid;
      return Pass;
    }
  }

  class OrderRepository {
    var db: map<string, OrderState>

    /** Every order is stored under its own ID. */
    ghost predicate Valid()
      reads this
    {
      forall k :: k in db ==> db[k].id == k
    }

    constructor()
      ensures db == map[] && Valid()
    {
      db := map[];
    }

    /** Inserts, or overwrites the order stored under the same ID. */
    method Save(order: OrderState)
      requires Valid()
      modifies this
      ensures db == old(db)[order.id := order]
      ensures Valid()
    {
      db := db[order.id := order];
    }

    /** The stored order; an unknown ID is an error. */
    method Get(orderId: string) returns (r: Result<OrderState>)
      ensures orderId in db ==> r == Ok(db[orderId])
      ensures orderId !in db ==> r == Err(SalesOrderNotFound)
    {
      if orderId !in db {
        return Err(SalesOrderNotFound);
      }
      return Ok(db[orderId]);
    }
  }

  /** The payment-approved event Billing sends. */
  datatype PaymentApproved = PaymentApproved(orderId: string, amountCents: int, currency: string)

  /** The answer to a payment-approved event. */
  datatype PaymentReply = Accepted(status: OrderStatus) | Insufficient

  class SalesService {
    const repo: OrderRepository

    constructor(repo: OrderRepository)
      ensures this.repo == repo
    {
      this.repo := repo;
    }

    /** Saves a new pending order; an order without items is refused and
        nothing is saved. `now` stands for the creation clock reading. */
    method PlaceOrder(orderId: string, customerId: string, items: seq<OrderItem>, now: nat)
      returns (r: Result<OrderState>)
      requires repo.Valid()
      modifies repo
      ensures repo.Valid()
      ensures |items| == 0 ==> r == Err(OrderNeedsItems) && repo.db == old(repo.db)
      ensures |items| > 0 ==>
        r == Ok(OrderState(orderId, customerId, items, Pending, now)) &&
        repo.db == old(repo.db)[orderId := r.value]
    {
      if |items| == 0 {
        return Err(OrderNeedsItems);
      }
      var order := OrderState(orderId, customerId, items, Pending, now);
      repo.Save(order);
      return Ok(order);
    }

    /** Marks a stored order paid and saves it; an unknown ID is an error
        and changes nothing. */
    method MarkOrderAsPaid(orderId: string) returns (r: Result<OrderState>)
      requires repo.Valid()
      modifies repo
      ensures repo.Valid()
      ensures orderId !in old(repo.db) ==> r == Err(SalesOrderNotFound) && repo.db == old(repo.db)
      ensures orderId in old(repo.db) ==>
        var paid := old(repo.db)[orderId].(status := Paid);
        r == Ok(paid) && repo.db == old(repo.db)[orderId := paid]
    {
      var found := repo.Get(orderId);
      if found.Err? {
        return Err(found.error);
      }
      var order := new Order.FromState(found.value);
      var paid := order.MarkPaid();
      if paid.Fail? {
        match paid
        case Fail(e) => return Err(e);
      }
      repo.Save(order.State());
      return Ok(order.State());
    }

    /** The payment-approved webhook: the order is marked paid exactly when
        the paid cents reach its total's cents (the event's currency is not
        compared); otherwise nothing changes. An unknown order or a total in
        mixed currencies is an error. */
    method OnPaymentApproved(evt: PaymentApproved) returns (r: Result<PaymentReply>)
      requires repo.Valid()
      modifies repo
      ensures repo.Valid()
      ensures evt.orderId !in old(repo.db) ==> r == Err(SalesOrderNotFound)
      ensures evt.orderId in old(repo.db) && old(repo.db)[evt.orderId].Total().Err? ==>
        r == Err(DifferentCurrencies)
      ensures evt.orderId in old(repo.db) && old(repo.db)[evt.orderId].Total().Ok? ==>
        var o := old(repo.db)[evt.orderId];
        (r == Ok(Accepted(Paid)) <==> evt.amountCents >= o.Total().value.amountCents) &&
        (r != Ok(Accepted(Paid)) ==> r == Ok(Insufficient)) &&
        (r == Ok(Accepted(Paid)) ==> repo.db == old(repo.db)[evt.orderId := o.(status := Paid)])
      ensures r != Ok(Accepted(Paid)) ==> repo.db == old(repo.db)
    {
      var found := repo.Get(evt.orderId);
      if found.Err? {
        return Err(found.error);
      }
      var order := new Order.FromState(found.value);
      var total := order.Total();
      if total.Err? {
        return Err(total.error);
      }
      if evt.amountCents >= total.value.amountCents {
        var paid := MarkOrderAsPaid(order.id);
        if paid.Err? {
          match paid
          case Err(e) => return Err(e);
        }
        return Ok(Accepted(paid.value.status));
      }
      return Ok(Insufficient);
    }
  }
}
