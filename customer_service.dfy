/** The customer application service: create a customer with a unique email,
    look customers up, and change a customer's address. */
module CustomerServices {
  import opened Outcomes
  import opened Addresses
  import opened Customers
  import opened CustomerDto
  import opened CustomerRepositories

  /** A customer as the service reports it. */
  function CustomerResponseOf(c: CustomerState): (r: CustomerResponse)
    ensures r.id == c.id && r.name == c.name && r.email == c.email && r.createdAt == c.createdAt
    ensures Valid(c.address) ==>
      ToAddress(AddressRequest(r.address.street, r.address.city, r.address.state,
                               r.address.postalCode, r.address.country)) == Ok(c.address)
  {
    CustomerResponse(c.id, c.name, c.email, FromAddress(c.address), c.createdAt)
  }

  /** No two stored customers share an email. */
  ghost predicate UniqueEmails(m: map<string, CustomerState>)
  {
    forall j, k :: j in m && k in m && j != k ==> m[j].email != m[k].email
  }

  /** Adding a customer under a fresh ID with an email nobody has keeps the
      emails unique: the invariant the duplicate-email check of
      CreateCustomer protects. */
  lemma CreateKeepsEmailsUnique(m: map<string, CustomerState>, c: CustomerState)
    requires UniqueEmails(m)
    requires c.id !in m
    requires forall k :: k in m ==> m[k].email != c.email
    ensures UniqueEmails(m[c.id := c])
  {
  }

  /** Changing an address keeps the emails unique. */
  lemma AddressChangeKeepsEmailsUnique(m: map<string, CustomerState>, id: string, a: Address)
    requires UniqueEmails(m)
    requires id in m
    ensures UniqueEmails(m[id := m[id].(address := a)])
  {
    var m' := m[id := m[id].(address := a)];
    forall j, k | j in m' && k in m' && j != k
      ensures m'[j].email != m'[k].email
    {
      assert m'[j].email == m[j].email && m'[k].email == m[k].email;
    }
  }

  class CustomerService {
    const repo: CustomerRepository

    constructor(repo: CustomerRepository)
      ensures this.repo == repo
    {
      this.repo := repo;
    }

    /** Validates the address, then refuses an email already in use, then
        validates name and email, and saves the new customer; any failure
        saves nothing. `newId` and `now` stand for the UUID and the clock. */
    method CreateCustomer(request: CreateCustomerRequest, newId: string, now: nat) returns (r: Result<CustomerResponse>)
      requires repo.Valid()
      modifies repo
      ensures repo.Valid()
      ensures ToAddress(request.address).Err? ==> r == Err(InvalidAddress(ToAddress(request.address).error))
      ensures ToAddress(request.address).Ok? && old(repo.EmailTaken(request.email)) ==>
        r == Err(EmailTaken(request.email))
      ensures ToAddress(request.address).Ok? && !old(repo.EmailTaken(request.email)) && request.name == "" ==>
        r == Err(CustomerCreationFailed(EmptyCustomerName))
      ensures ToAddress(request.address).Ok? && !old(repo.EmailTaken(request.email)) &&
              request.name != "" && request.email == "" ==>
        r == Err(CustomerCreationFailed(EmptyCustomerEmail))
      ensures r.Ok? <==> ToAddress(request.address).Ok? && !old(repo.EmailTaken(request.email)) &&
                         request.name != "" && request.email != ""
      ensures r.Err? ==> repo.customers == old(repo.customers)
      ensures r.Ok? ==>
        var c := CustomerState(newId, request.name, request.email, ToAddress(request.address).value, now);
        repo.customers == old(repo.customers)[newId := c] && r.value == CustomerResponseOf(c)
      ensures old(UniqueEmails(repo.customers)) && newId !in old(repo.customers) ==> UniqueEmails(repo.customers)
    {
      var address := ToAddress(request.address);
      if address.Err? {
        return Err(InvalidAddress(address.error));
      }
      var existing := repo.FindByEmail(request.email);
      if existing.Some? {
        return Err(EmailTaken(request.email));
      }
      var customer := NewCustomer(newId, request.name, request.email, address.value, now);
      if customer.Err? {
        return Err(CustomerCreationFailed(customer.error));
      }
      if UniqueEmails(repo.customers) && newId !in repo.customers {
        CreateKeepsEmailsUnique(repo.customers, customer.value);
      }
      repo.Save(customer.value);
      return Ok(CustomerResponseOf(customer.value));
    }

    method GetCustomer(id: string) returns (r: Result<CustomerResponse>)
      ensures id !in repo.customers ==> r == Err(CustomerNotFound(id))
      ensures id in repo.customers ==> r == Ok(CustomerResponseOf(repo.customers[id]))
    {
      var found := repo.FindByID(id);
      if found.None? {
        return Err(CustomerNotFound(id));
      }
      return Ok(CustomerResponseOf(found.value));
    }

    /** Every stored customer, reported once each. */
    method GetAllCustomers() returns (r: seq<CustomerResponse>)
      ensures |r| == |repo.customers|
      ensures forall i :: 0 <= i < |r| ==> exists k :: k in repo.customers && r[i] == CustomerResponseOf(repo.customers[k])
      ensures forall k :: k in repo.customers ==> CustomerResponseOf(repo.customers[k]) in r
    {
      var found := repo.FindAll();
      r := [];
      var i := 0;
      while i < |found|
        invariant 0 <= i <= |found|
        invariant |r| == i
        invariant forall j :: 0 <= j < i ==> r[j] == CustomerResponseOf(found[j])
      {
        r := r + [CustomerResponseOf(found[i])];
        i := i + 1;
      }
      assert forall k :: k in repo.customers ==> exists j :: 0 <= j < |found| && found[j] == repo.customers[k];
    }

    /** Replaces a stored customer's address and nothing else; an absent
        customer or an invalid address changes nothing. */
    method UpdateCustomerAddress(customerId: string, addressRequest: AddressRequest) returns (r: Result<CustomerResponse>)
      requires repo.Valid()
      modifies repo
      ensures repo.Valid()
      ensures customerId !in old(repo.customers) ==> r == Err(CustomerNotFound(customerId))
      ensures customerId in old(repo.customers) && ToAddress(addressRequest).Err? ==>
        r == Err(InvalidAddress(ToAddress(addressRequest).error))
      ensures r.Ok? <==> customerId in old(repo.customers) && ToAddress(addressRequest).Ok?
      ensures r.Err? ==> repo.customers == old(repo.customers)
      ensures r.Ok? ==>
        var c := old(repo.customers)[customerId].(address := ToAddress(addressRequest).value);
        repo.customers == old(repo.customers)[customerId := c] && r.value == CustomerResponseOf(c)
    {
      var found := repo.FindByID(customerId);
      if found.None? {
        return Err(CustomerNotFound(customerId));
      }
      var newAddress := ToAddress(addressRequest);
      if newAddress.Err? {
        return Err(InvalidAddress(newAddress.error));
      }
      var customer := new Customer.FromState(found.value);
      customer.UpdateAddress(newAddress.value);
      repo.Save(customer.State());
      return Ok(CustomerResponseOf(customer.State()));
    }
  }
}
