/** The product data-transfer objects and the conversions between requests,
    value objects and responses. Amounts are in cents on both sides. */
module ProductDto {
  import opened Outcomes
  import opened Monies
  import opened Quantities

  /** A requested amount may be negative until it is validated. */
  datatype MoneyRequest = MoneyRequest(amount: int, currency: string)
  datatype QuantityRequest = QuantityRequest(value: int, unit: string)
  datatype CreateProductRequest = CreateProductRequest(name: string, description: string,
                                                       price: MoneyRequest, stock: QuantityRequest)

  datatype MoneyResponse = MoneyResponse(amount: int, currency: string)
  datatype QuantityResponse = QuantityResponse(value: int, unit: string)
  datatype ProductResponse = ProductResponse(id: string, name: string, description: string,
                                             price: MoneyResponse, stock: QuantityResponse,
                                             active: bool)

  /** A requested amount becomes Money exactly as NewMoney validates it. */
  function ToMoney(request: MoneyRequest): (r: Result<Money>)
    ensures r.Ok? <==> request.amount >= 0 && request.currency != ""
    ensures request.amount < 0 ==> r == Err(NegativeAmount)
    ensures request.amount >= 0 && request.currency == "" ==> r == Err(EmptyCurrency)
    ensures r.Ok? ==> r.value.amount == request.amount && r.value.currency == request.currency
  {
    NewMoney(request.amount, request.currency)
  }

  /** A requested quantity becomes a Quantity exactly as NewQuantity
      validates it. */
  function ToQuantity(request: QuantityRequest): (r: Result<Quantity>)
    ensures r.Ok? <==> request.value >= 0 && request.unit != ""
    ensures request.value < 0 ==> r == Err(NegativeQuantity)
    ensures request.value >= 0 && request.unit == "" ==> r == Err(EmptyUnit)
    ensures r.Ok? ==> r.value.value == request.value && r.value.unit == request.unit
  {
    NewQuantity(request.value, request.unit)
  }

  function FromMoney(money: Money): MoneyResponse
  {
    MoneyResponse(money.amount, money.currency)
  }

  function FromQuantity(quantity: Quantity): QuantityResponse
  {
    QuantityResponse(quantity.value, quantity.unit)
  }

  /** A valid money request comes back unchanged through Money; any Money
      comes back unchanged through its response, read as a request. */
  lemma MoneyRoundTrip(request: MoneyRequest, money: Money)
    ensures ToMoney(request).Ok? ==> FromMoney(ToMoney(request).value) == MoneyResponse(request.amount, request.currency)
    ensures money.currency != "" ==>
      ToMoney(MoneyRequest(FromMoney(money).amount, FromMoney(money).currency)) == Ok(money)
  {
  }

  /** A valid quantity request comes back unchanged through Quantity; a
      valid Quantity comes back unchanged through its response, read as a
      request. */
  lemma QuantityRoundTrip(request: QuantityRequest, quantity: Quantity)
    ensures ToQuantity(request).Ok? ==> FromQuantity(ToQuantity(request).value) == QuantityResponse(request.value, request.unit)
    ensures Valid(quantity) ==>
      ToQuantity(QuantityRequest(FromQuantity(quantity).value, FromQuantity(quantity).unit)) == Ok(quantity)
  {
  }
}
