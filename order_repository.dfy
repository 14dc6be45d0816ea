/** The in-memory order repository: a map from order ID to the stored order.
    Lookups of an absent ID are not errors; deleting an absent ID is. */
module OrderRepositories {
  import opened Outcomes
  import opened Collections
  import opened Orders

  /** The IDs of the stored pending orders of a customer. */
  ghost function PendingOf(orders: map<string, OrderState>, customerId: string): set<string>
  {
    set k | k in orders && orders[k].customerId == customerId && orders[k].status == Pending
  }

  class OrderRepository {
    var orders: map<string, OrderState>

    /** Every order is stored under its own ID. */
    ghost predicate Valid()
      reads this
    {
      forall k :: k in orders ==> orders[k].id == k
    }

    constructor()
      ensures orders == map[] && Valid()
    {
      orders := map[];
    }

    /** Inserts, or overwrites the order stored under the same ID. */
    method Save(order: OrderState)
      requires Valid()
      modifies this
      ensures orders == old(orders)[order.id := order]
      ensures Valid()
    {
      orders := orders[order.id := order];
    }

    /** The stored order, or None (Go's nil with a nil error) when absent. */
    method FindByID(id: string) returns (r: Option<OrderState>)
      ensures id in orders ==> r == Some(orders[id])
      ensures id !in orders ==> r == None
    {
      if id !in orders {
        return None;
      }
      return Some(orders[id]);
    }

    /** Exactly the stored orders of a customer, each once, in no fixed order. */
    method FindByCustomerID(customerId: string) returns (r: seq<OrderState>)
      ensures forall i :: 0 <= i < |r| ==> r[i] in orders.Values && r[i].customerId == customerId
      ensures forall k :: k in orders && orders[k].customerId == customerId ==> orders[k] in r
      ensures |r| == |set k | k in orders && orders[k].customerId == customerId|
      ensures Valid() ==> forall i, j :: 0 <= i < j < |r| ==> r[i] != r[j]
    {
      var matching := (o: OrderState) => o.customerId == customerId;
      ghost var keys;
      r, keys := Select(orders, matching);
      assert KeysWhere(orders, matching) == set k | k in orders && orders[k].customerId == customerId;
    }

    /** Exactly the stored orders in a status, each once, in no fixed order. */
    method FindByStatus(status: OrderStatus) returns (r: seq<OrderState>)
      ensures forall i :: 0 <= i < |r| ==> r[i] in orders.Values && r[i].status == status
      ensures forall k :: k in orders && orders[k].status == status ==> orders[k] in r
      ensures |r| == |set k | k in orders && orders[k].status == status|
      ensures Valid() ==> forall i, j :: 0 <= i < j < |r| ==> r[i] != r[j]
    {
      var matching := (o: OrderState) => o.status == status;
      ghost var keys;
      r, keys := Select(orders, matching);
      assert KeysWhere(orders, matching) == set k | k in orders && orders[k].status == status;
    }

    /** Every stored order, each once, in no fixed order. */
    method FindAll() returns (r: seq<OrderState>)
      ensures forall i :: 0 <= i < |r| ==> r[i] in orders.Values
      ensures forall k :: k in orders ==> orders[k] in r
      ensures |r| == |orders|
      ensures Valid() ==> forall i, j :: 0 <= i < j < |r| ==> r[i] != r[j]
    {
      ghost var keys;
      r, keys := Select(orders, (o: OrderState) => true);
      assert KeysWhere(orders, (o: OrderState) => true) == orders.Keys;
    }

    /** Removes the order; an absent ID is an error and changes nothing. */
    method Delete(id: string) returns (r: Outcome)
      requires Valid()
      modifies this
      ensures id !in old(orders) ==> r == Fail(OrderNotFound(id)) && orders == old(orders)
      ensures id in old(orders) ==> r == Pass && orders == old(orders) - {id}
      ensures Valid()
    {
      if id !in orders {
        return Fail(OrderNotFound(id));
      }
      orders := orders - {id};
      return Pass;
    }

    method Exists(id: string) returns (b: bool)
      ensures b <==> id in orders
    {
      return id in orders;
    }

    /** The number of stored pending orders of a customer, counted one
        stored order at a time. */
    method CountPendingByCustomer(customerId: string) returns (count: nat)
      ensures count == |PendingOf(orders, customerId)|
    {
      count := 0;
      var rest := orders.Keys;
      ghost var seen: set<string> := {};
      while rest != {}
        invariant rest <= orders.Keys
        invariant seen == set k | k in orders && k !in rest && orders[k].customerId == customerId && orders[k].status == Pending
        invariant count == |seen|
        decreases |rest|
      {
        var k :| k in rest;
        if orders[k].customerId == customerId && orders[k].status == Pending {
          assert k !in seen;
          count := count + 1;
          seen := seen + {k};
        }
        rest := rest - {k};
      }
      assert seen == PendingOf(orders, customerId);
    }
  }
}
