/** The Product entity: a catalogue item with a price, a stock and a one-way
    active flag. Its identity is its ID. */
module Products {
  import opened Outcomes
  import opened Monies
  import opened Quantities

  /** A product's fields as a value: what repositories store and what an
      order item copies at the moment it is created. */
  datatype ProductState = ProductState(id: string, name: string, description: string,
                                       price: Money, stock: Quantity, active: bool) {

    /** Products are compared by identity: their IDs, nothing else. */
    predicate Equals(other: ProductState)
    {
      id == other.id
    }
  }

  /** A new product is active and carries the given price and stock; the name
      is checked before the description, and price and stock are taken as
      they are. `id` stands for the generated UUID. */
  function NewProduct(id: string, name: string, description: string,
                      price: Money, stock: Quantity): (r: Result<ProductState>)
    ensures name == "" ==> r == Err(EmptyProductName)
    ensures name != "" && description == "" ==> r == Err(EmptyProductDescription)
    ensures r.Ok? <==> name != "" && description != ""
    ensures r.Ok? ==> r.value.active && r.value.id == id && r.value.name == name &&
                      r.value.description == description &&
                      r.value.price == price && r.value.stock == stock
  {
    if name == "" then Err(EmptyProductName)
    else if description == "" then Err(EmptyProductDescription)
    else Ok(ProductState(id, name, description, price, stock, true))
  }

  /** Equals ignores every field but the ID: a product stays equal to itself
      through any change of price, stock or activity. */
  lemma EqualsComparesIdentity(p: ProductState, q: ProductState, price: Money, stock: Quantity)
    ensures p.Equals(q) <==> p.id == q.id
    ensures p.Equals(p.(price := price, stock := stock, active := false))
  {
  }

  /** A product whose fields its methods update in place. */
  class Product {
    var id: string
    var name: string
    var description: string
    var price: Money
    var stock: Quantity
    var active: bool

    function State(): ProductState
      reads this
    {
      ProductState(id, name, description, price, stock, active)
    }

    /** Rebuilds a product from stored fields (ProductFromExisting). */
    constructor FromState(s: ProductState)
      ensures State() == s
    {
      id, name, description := s.id, s.name, s.description;
      price, stock, active := s.price, s.stock, s.active;
    }

    /** Replaces the price and nothing else. */
    method UpdatePrice(newPrice: Money)
      modifies this
      ensures State() == old(State()).(price := newPrice)
    {
      price := newPrice;
    }

    /** Replaces the stock and nothing else. */
    method UpdateStock(newStock: Quantity)
      modifies this
      ensures State() == old(State()).(stock := newStock)
    {
      stock := newStock;
    }

    /** Takes `quantity` out of the stock, keeping the stock's unit (the
        unit of `quantity` is not looked at). An inactive product refuses.
        Taking more than there is fails because NewQuantity rejects the
        negative difference, so the error is NegativeQuantity: the
        "insufficient stock" check after it can never fire. */
    method ReduceStock(quantity: Quantity) returns (r: Outcome)
      modifies this
      ensures !old(active) ==> r == Fail(InactiveStockReduction)
      ensures old(active) && quantity.value > old(stock).value ==> r == Fail(NegativeQuantity)
      ensures old(active) && quantity.value <= old(stock).value && old(stock).unit == "" ==> r == Fail(EmptyUnit)
      ensures r != Fail(InsufficientStock)
      ensures r.Pass? <==> old(active) && quantity.value <= old(stock).value && old(stock).unit != ""
      ensures r.Pass? ==> State() == old(State()).(stock := Quantity(old(stock).value - quantity.value, old(stock).unit))
      ensures r.Fail? ==> State() == old(State())
    {
      if !active {
        return Fail(InactiveStockReduction);
      }
      var reduced := NewQuantity(stock.value - quantity.value, stock.unit);
      if reduced.Err? {
        return Fail(reduced.error);
      }
      if reduced.value.value < 0 {
        // unreachable: NewQuantity never builds a negative quantity
        return Fail(InsufficientStock);
      }
      stock := reduced.value;
      return Pass;
    }

    /** Clears the active flag and nothing else; doing it again changes
        nothing more. */
    method Deactivate()
      modifies this
      ensures State() == old(State()).(active := false)
    {
      active := false;
    }
  }

  /** Stock reductions on a concrete product: from a stock of 5, taking 6
      fails (with NegativeQuantity) and leaves 5; taking 5 leaves 0; and
      deactivating twice is deactivating once. */
  method ReduceStockScenario()
  {
    var p := new Product.FromState(ProductState("p", "Widget", "A widget", Money(1000, "USD"),
                                                Quantity(5, "units"), true));
    var r := p.ReduceStock(Quantity(6, "units"));
    assert r == Fail(NegativeQuantity) && p.stock == Quantity(5, "units");
    r := p.ReduceStock(Quantity(5, "units"));
    assert r == Pass && p.stock == Quantity(0, "units");
    p.Deactivate();
    p.Deactivate();
    assert !p.active && p.stock == Quantity(0, "units");
  }
}
