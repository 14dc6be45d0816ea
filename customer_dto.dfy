/** The customer data-transfer objects and the address conversions. */
module CustomerDto {
  import opened Outcomes
  import opened Addresses

  datatype AddressRequest = AddressRequest(street: string, city: string, state: string,
                                           postalCode: string, country: string)
  datatype CreateCustomerRequest = CreateCustomerRequest(name: string, email: string,
                                                         address: AddressRequest)

  datatype AddressResponse = AddressResponse(street: string, city: string, state: string,
                                             postalCode: string, country: string)
  /** `createdAt` is the clock reading, not its RFC 3339 text. */
  datatype CustomerResponse = CustomerResponse(id: string, name: string, email: string,
                                               address: AddressResponse, createdAt: nat)

  /** A requested address becomes an Address exactly as NewAddress validates it. */
  function ToAddress(request: AddressRequest): (r: Result<Address>)
    ensures r.Ok? <==> request.street != "" && request.city != "" && request.state != "" &&
                       request.postalCode != "" && request.country != ""
    ensures r.Ok? ==> r.value.street == request.street && r.value.city == request.city &&
                      r.value.state == request.state && r.value.postalCode == request.postalCode &&
                      r.value.country == request.country
  {
    NewAddress(request.street, request.city, request.state, request.postalCode, request.country)
  }

  function FromAddress(address: Address): AddressResponse
  {
    AddressResponse(address.street, address.city, address.state, address.postalCode, address.country)
  }

  /** A complete address request comes back field for field through Address,
      and an Address coming back through its response, read as a request,
      is Equals to itself. */
  lemma AddressRoundTrip(request: AddressRequest, address: Address)
    ensures ToAddress(request).Ok? ==>
      FromAddress(ToAddress(request).value) ==
        AddressResponse(request.street, request.city, request.state, request.postalCode, request.country)
    ensures Valid(address) ==>
      var back := FromAddress(address);
      var again := ToAddress(AddressRequest(back.street, back.city, back.state, back.postalCode, back.country));
      again.Ok? && again.value.Equals(address)
  {
  }
}
