/** The Address value object: five non-empty text fields. */
module Addresses {
  import opened Outcomes

  /** The datatype's destructors are the source's accessors (Street(),
      City(), State(), PostalCode(), Country()). */
  datatype Address = Address(street: string, city: string, state: string,
                             postalCode: string, country: string) {

    /** Value equality on all five fields. */
    predicate Equals(other: Address)
    {
      street == other.street && city == other.city && state == other.state &&
      postalCode == other.postalCode && country == other.country
    }
  }

  /** The validating constructor: every field must be non-empty; the fields
      are checked in order and the first empty one names the error. */
  function NewAddress(street: string, city: string, state: string,
                      postalCode: string, country: string): (r: Result<Address>)
    ensures r.Ok? <==> street != "" && city != "" && state != "" && postalCode != "" && country != ""
    ensures r.Ok? ==> r.value.street == street && r.value.city == city && r.value.state == state &&
                      r.value.postalCode == postalCode && r.value.country == country
    ensures street == "" ==> r == Err(EmptyStreet)
    ensures street != "" && city == "" ==> r == Err(EmptyCity)
    ensures street != "" && city != "" && state == "" ==> r == Err(EmptyState)
    ensures street != "" && city != "" && state != "" && postalCode == "" ==> r == Err(EmptyPostalCode)
    ensures street != "" && city != "" && state != "" && postalCode != "" && country == "" ==> r == Err(EmptyCountry)
  {
    if street == "" then Err(EmptyStreet)
    else if city == "" then Err(EmptyCity)
    else if state == "" then Err(EmptyState)
    else if postalCode == "" then Err(EmptyPostalCode)
    else if country == "" then Err(EmptyCountry)
    else Ok(Address(street, city, state, postalCode, country))
  }

  /** The addresses NewAddress can build. */
  predicate Valid(a: Address)
  {
    a.street != "" && a.city != "" && a.state != "" && a.postalCode != "" && a.country != ""
  }

  /** Equals is the value equality of Address, hence reflexive, symmetric and
      transitive. */
  lemma EqualsIsValueEquality(a: Address, b: Address)
    ensures a.Equals(b) <==> a == b
    ensures a.Equals(a)
    ensures a.Equals(b) ==> b.Equals(a)
  {
  }
}
