/** The in-memory customer repository: a map from customer ID to the stored
    customer, searchable by email. */
module CustomerRepositories {
  import opened Outcomes
  import opened Collections
  import opened Customers

  class CustomerRepository {
    var customers: map<string, CustomerState>

    /** Every customer is stored under its own ID. */
    ghost predicate Valid()
      reads this
    {
      forall k :: k in customers ==> customers[k].id == k
    }

    /** Some stored customer has this email. */
    ghost predicate EmailTaken(email: string)
      reads this
    {
      exists k :: k in customers && customers[k].email == email
    }

    constructor()
      ensures customers == map[] && Valid()
    {
      customers := map[];
    }

    /** Inserts, or overwrites the customer stored under the same ID. */
    method Save(customer: CustomerState)
      requires Valid()
      modifies this
      ensures customers == old(customers)[customer.id := customer]
      ensures Valid()
    {
      customers := customers[customer.id := customer];
    }

    /** The stored customer, or None when absent. */
    method FindByID(id: string) returns (r: Option<CustomerState>)
      ensures id in customers ==> r == Some(customers[id])
      ensures id !in customers ==> r == None
    {
      if id !in customers {
        return None;
      }
      return Some(customers[id]);
    }

    /** Some stored customer with this email (which one, when several have
        it, depends on the map's iteration order), or None when none has it. */
    method FindByEmail(email: string) returns (r: Option<CustomerState>)
      ensures r.Some? ==> r.value in customers.Values && r.value.email == email
      ensures r.None? <==> forall k :: k in customers ==> customers[k].email != email
    {
      var rest := customers.Keys;
      while rest != {}
        invariant rest <= customers.Keys
        invariant forall k :: k in customers && k !in rest ==> customers[k].email != email
        decreases |rest|
      {
        var k :| k in rest;
        if customers[k].email == email {
          return Some(customers[k]);
        }
        rest := rest - {k};
      }
      return None;
    }

    /** Every stored customer, each once, in no fixed order. */
    method FindAll() returns (r: seq<CustomerState>)
      ensures forall i :: 0 <= i < |r| ==> r[i] in customers.Values
      ensures forall k :: k in customers ==> customers[k] in r
      ensures |r| == |customers|
      ensures Valid() ==> forall i, j :: 0 <= i < j < |r| ==> r[i] != r[j]
    {
      ghost var keys;
      r, keys := Select(customers, (c: CustomerState) => true);
      assert KeysWhere(customers, (c: CustomerState) => true) == customers.Keys;
    }

    /** Removes the customer; an absent ID is an error and changes nothing. */
    method Delete(id: string) returns (r: Outcome)
      requires Valid()
      modifies this
      ensures id !in old(customers) ==> r == Fail(CustomerNotFound(id)) && customers == old(customers)
      ensures id in old(customers) ==> r == Pass && customers == old(customers) - {id}
      ensures Valid()
    {
      if id !in customers {
        return Fail(CustomerNotFound(id));
      }
      customers := customers - {id};
      return Pass;
    }

    method Exists(id: string) returns (b: bool)
      ensures b <==> id in customers
    {
      return id in customers;
    }
  }
}
