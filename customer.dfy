/** The Customer entity: a name, an email and an address, of which only the
    address ever changes. Its identity is its ID. */
module Customers {
  import opened Outcomes
  import opened Addresses

  /** A customer's fields as a value, as the repository stores them.
      `createdAt` is an abstract clock reading. */
  datatype CustomerState = CustomerState(id: string, name: string, email: string,
                                         address: Address, createdAt: nat) {

    /** Customers are compared by identity: their IDs, nothing else. */
    predicate Equals(other: CustomerState)
    {
      id == other.id
    }
  }

  /** A new customer with the given name, email and address; an empty name is
      reported before an empty email. The address is taken as it is. `id`
      stands for the generated UUID and `now` for the clock. */
  function NewCustomer(id: string, name: string, email: string, address: Address,
                       now: nat): (r: Result<CustomerState>)
    ensures name == "" ==> r == Err(EmptyCustomerName)
    ensures name != "" && email == "" ==> r == Err(EmptyCustomerEmail)
    ensures r.Ok? <==> name != "" && email != ""
    ensures r.Ok? ==> r.value.id == id && r.value.name == name && r.value.email == email &&
                      r.value.address == address && r.value.createdAt == now
  {
    if name == "" then Err(EmptyCustomerName)
    else if email == "" then Err(EmptyCustomerEmail)
    else Ok(CustomerState(id, name, email, address, now))
  }

  /** Equals ignores every field but the ID, so a customer stays equal to
      itself when its address changes. */
  lemma EqualsComparesIdentity(c: CustomerState, d: CustomerState, a: Address)
    ensures c.Equals(d) <==> c.id == d.id
    ensures c.Equals(c.(address := a))
  {
  }

  /** A customer whose address its method updates in place. */
  class Customer {
    var id: string
    var name: string
    var email: string
    var address: Address
    var createdAt: nat

    function State(): CustomerState
      reads this
    {
      CustomerState(id, name, email, address, createdAt)
    }

    /** Rebuilds a customer from stored fields (CustomerFromExisting). */
    constructor FromState(s: CustomerState)
      ensures State() == s
    {
      id, name, email, address, createdAt := s.id, s.name, s.email, s.address, s.createdAt;
    }

    /** Replaces the address and nothing else. */
    method UpdateAddress(newAddress: Address)
      modifies this
      ensures State() == old(State()).(address := newAddress)
    {
      address := newAddress;
    }
  }
}
