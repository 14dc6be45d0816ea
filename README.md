# Order management domain, modelled in Dafny

This project models the domain core of a small order-management service built in the
domain-driven style. It also models a pair of sales and billing services that repeat the same
ideas with integer cents.

The Go side has four layers:

- **Value objects.** `Quantity`, `Money` and `Address`, each with a validating constructor.
- **Entities.**
  - `Product`: price, stock and a one-way active flag.
  - `Customer`: only its address ever changes.
  - `OrderItem`: a line holding a snapshot of the product and of its price.
  - The `Order` aggregate: its lines change only while the order is pending, and its status
    machine runs pending → confirmed → shipped → delivered, with cancel allowed from anything
    but delivered.
- **Domain services.**
  - Pricing: totals, tiered shipping, and the discount and tax guards.
  - Validation: the checks made before confirming an order, before adding a line, before a
    status change, and the limit of ten pending orders per customer.
- **In-memory repositories, DTO conversions, and the product, customer and order use cases.**

The Python side has two services:

- **Sales:** orders priced in cents, marked paid exactly once, when an approved payment
  reaches the order's total.
- **Billing:** approves every payment and stores it under `PAY-` followed by the order ID.

**Form of the model**

- **Value objects.** Datatypes with functions.
- **Entities whose fields are updated in place.** These are `Product`, `Customer`, and the
  `Order` of either side. Each is a class with those fields. Its `State()` is a datatype value,
  and it has a `FromState` constructor, the `...FromExisting` of the source.
- **Reference definitions.** Each `Order` operation has one as a function on `OrderState`. The
  class methods, with their search and summation loops, are proved equal to these functions.
  The properties are proved about the functions.
- **Repositories.** Classes holding a `map` from ID to stored state, with a `Valid()`
  invariant: every entry is stored under its own ID.
- **Go map iteration.** It has no fixed order, so query results are specified as "exactly these
  entries, each once".
- **Application services.** Classes over their repositories. A use case loads a state, rebuilds
  the entity object, calls its method, saves the new state, and builds the response. Every
  contract states both outcomes:
  - each error case, and that a failure leaves the repository unchanged;
  - the whole new repository content on success.
- **Errors.** Each error the source reports is one constructor of `Outcomes.Error`. A wrapped
  error (`"failed to ...: %v"`) carries its cause.
- **Money.** `Money` is a whole number of cents (`nat`). The Go thresholds (1.00 minimum total,
  shipping tiers at 50.00 and 100.00, shipping costs of 5.00 and 10.00) appear as 100, 5000,
  10000, 500 and 1000 cents.
- **Identifiers and clocks.** Generated identifiers (`uuid.New()`) and clock readings
  (`time.Now()`) are parameters (`newId`, `itemId`, `now`). Timestamps are `nat`.

**Where the model follows the code rather than the design**

- `Order.Cancel` succeeds from every status but delivered, including shipped and cancelled.
  The validation service's transition table forbids both of these.
  `OrderValidation.TableAgreesWithTransitions` states the agreement and the difference.
- `Product.ReduceStock` reports a shortage as the `NegativeQuantity` error of `NewQuantity`.
  Its own "insufficient stock" branch can never fire; the model keeps the branch and proves
  that result is never returned.
- When `Order.AddItem` merges into an existing line, it leaves `updatedAt` alone. It also skips
  `NewOrderItem`'s checks: an inactive product, or a non-positive quantity that still leaves a
  positive sum.
- The product repository's interface describes `FindAll` as returning active products. The
  implementation returns all of them, and so does the model.
- `AddItemToOrder` checks only the requested quantity against stock, not the merged line's
  total.
- An order whose total cannot be computed is reported with a total of 0 USD, as an empty order
  is. A line whose price fails is reported with the zero Money: amount 0, no currency.
- The Sales payment webhook compares only cents, never the event's currency.

## Model

| member | source | states |
|---|---|---|
| Quantities.Quantity.Add | domain/valueobjects/quantity.go:38-44 | different units fail with UnitMismatch; otherwise it succeeds iff the unit is non-empty and the sum is non-negative, giving the sum in that unit |
| Quantities.NewQuantity | domain/valueobjects/quantity.go:13-25 | the value is checked before the unit: negative → NegativeQuantity, empty unit → EmptyUnit; success iff both pass, keeping the fields |
| Quantities.ZeroQuantity | domain/valueobjects/quantity.go:57-62 | value 0 in the given unit, without validating it |
| Quantities.NewQuantityIsValidation | domain/valueobjects/quantity.go:13-25 | NewQuantity succeeds exactly on valid quantities and returns the same quantity |
| Quantities.AddCommutes | domain/valueobjects/quantity.go:38-44 | Add is commutative, and valid quantities of one unit always add to a valid quantity |
| Quantities.ZeroIsNeutral | domain/valueobjects/quantity.go:57-62 | adding the zero of its unit leaves a valid quantity unchanged |
| Quantities.EqualsIsValueEquality | domain/valueobjects/quantity.go:47-49 | Equals holds iff the two quantities are equal values |
| Quantities.Quantity.Equals | domain/valueobjects/quantity.go:47-49 | compares value and unit; EqualsIsValueEquality proves that this is value equality |
| Monies.Money.Add | domain/valueobjects/money.go:47-53 | different currencies → CurrencyMismatch; an empty common currency → EmptyCurrency; otherwise the sum in that currency |
| Monies.Money.Multiply | domain/valueobjects/money.go:56-62 | negative factor → NegativeFactor; empty currency → EmptyCurrency; otherwise amount × factor, same currency |
| Monies.NewMoney | domain/valueobjects/money.go:19-34 | negative amount → NegativeAmount (checked first); empty currency → EmptyCurrency; success iff both pass, keeping the fields |
| Monies.Zero | domain/valueobjects/money.go:75-80 | amount 0 in the given currency, unvalidated |
| Monies.AddIsCommutativeMonoid | domain/valueobjects/money.go:47-53 | Add is commutative and associative where defined, and Zero is its neutral element |
| Monies.MultiplyDistributes | domain/valueobjects/money.go:56-62 | m×(f+g) = m×f + m×g, for a non-empty currency |
| Monies.EqualsIsValueEquality | domain/valueobjects/money.go:65-67 | Equals holds iff the two monies are equal values |
| Monies.Money.Equals | domain/valueobjects/money.go:65-67 | compares amount and currency; EqualsIsValueEquality proves that this is value equality |
| Addresses.NewAddress | domain/valueobjects/address.go:16-40 | success iff all five fields are non-empty, keeping them; otherwise the first empty field in order names the error |
| Addresses.EqualsIsValueEquality | domain/valueobjects/address.go:68-74 | Equals is value equality, hence reflexive and symmetric |
| Addresses.Address.Equals | domain/valueobjects/address.go:68-74 | compares the five fields; EqualsIsValueEquality proves that this is value equality |
| Products.NewProduct | domain/entities/product.go:22-38 | the name is checked before the description; on success the product is active with exactly the given fields |
| Products.EqualsComparesIdentity | domain/entities/product.go:118-120 | products are equal iff their IDs are; a product stays equal to itself through any change of price, stock or active flag |
| Products.ProductState.Equals | domain/entities/product.go:118-120 | compares IDs only; EqualsComparesIdentity states what follows |
| Products.Product.FromState | domain/entities/product.go:41-50 | the rebuilt product has exactly the stored fields |
| Products.Product.UpdatePrice | domain/entities/product.go:83-86 | only the price changes, to the new one |
| Products.Product.UpdateStock | domain/entities/product.go:88-90 | only the stock changes, to the new one |
| Products.Product.ReduceStock | domain/entities/product.go:93-110 | inactive → InactiveStockReduction; taking more than the stock → NegativeQuantity; never InsufficientStock; success iff active, enough stock and a named unit, leaving stock − quantity in the stock's unit; a failure changes nothing |
| Products.Product.Deactivate | domain/entities/product.go:113-115 | only the active flag changes, to false |
| Products.ReduceStockScenario | domain/entities/product.go:93-115 | on a stock of 5, taking 6 fails with NegativeQuantity and keeps 5, taking 5 leaves 0, and a second deactivation changes nothing |
| Customers.NewCustomer | domain/entities/customer.go:22-37 | the name is checked before the email; on success exactly the given fields and the creation time |
| Customers.EqualsComparesIdentity | domain/entities/customer.go:81-83 | customers are equal iff their IDs are, also across an address change |
| Customers.CustomerState.Equals | domain/entities/customer.go:81-83 | compares IDs only; EqualsComparesIdentity states what follows |
| Customers.Customer.FromState | domain/entities/customer.go:40-48 | the rebuilt customer has exactly the stored fields |
| Customers.Customer.UpdateAddress | domain/entities/customer.go:76-78 | only the address changes, to the new one |
| OrderItems.OrderItem.TotalPrice | domain/entities/order_item.go:68-71 | negative quantity → NegativeFactor; empty currency → EmptyCurrency; otherwise unit price × quantity in the unit price's currency |
| OrderItems.OrderItem.UpdateQuantity | domain/entities/order_item.go:74-80 | a non-positive quantity → NonPositiveQuantity; otherwise only the quantity changes |
| OrderItems.NewOrderItem | domain/entities/order_item.go:20-35 | inactive product → InactiveProductItem; non-positive quantity → NonPositiveQuantity; on success the unit price is the product's price at that moment |
| OrderItems.MergedLinePrice | domain/entities/order_item.go:68-71 | raising a line's quantity by n raises its price by n unit prices, as two separate lines would |
| OrderItems.OrderItem.Equals | domain/entities/order_item.go:83-85 | lines are compared by their IDs only |
| Orders.SumLines | domain/entities/order.go:146-166 | the running total succeeds iff every line has a non-negative quantity and a unit price in the accumulator's (non-empty) currency, and then equals the accumulator plus the sum of line prices |
| Orders.SumLinesError | domain/entities/order.go:146-166 | a failing total reports the error of the first line that cannot be added |
| Orders.OrderState.TotalAmount | domain/entities/order.go:146-166 | an empty order → 0 USD; otherwise success iff the first line's currency is non-empty and every line has it with a non-negative quantity; the value is the sum of the line prices |
| Orders.OrderState.AddItem | domain/entities/order.go:100-126 | non-pending → AddToNonPending. At the first line of the same product, the quantities merge in place when the units agree, keeping `updatedAt`; a failed merge reports UnitMismatch, then NegativeQuantity or EmptyUnit from the sum, then NonPositiveQuantity for a zero sum. Otherwise a new line is appended, with the current price, when the product is active and the quantity positive, and `updatedAt` becomes now; a failed new line reports InactiveProductItem, then NonPositiveQuantity. Identity, status and creation time are kept |
| Orders.OrderState.RemoveItem | domain/entities/order.go:129-143 | non-pending → RemoveFromNonPending; success iff some line has the ID, removing the first one and keeping the others in order; otherwise ItemNotInOrder |
| Orders.OrderState.Confirm | domain/entities/order.go:169-181 | succeeds iff pending with at least one line (ConfirmNonPending, then ConfirmEmpty); only status and `updatedAt` change |
| Orders.OrderState.Ship | domain/entities/order.go:184-192 | succeeds iff confirmed, otherwise ShipNonConfirmed; only status and `updatedAt` change |
| Orders.OrderState.Deliver | domain/entities/order.go:195-203 | succeeds iff shipped, otherwise DeliverNonShipped; only status and `updatedAt` change |
| Orders.OrderState.Cancel | domain/entities/order.go:206-214 | succeeds iff not delivered, otherwise CancelDelivered; only status and `updatedAt` change |
| Orders.NewOrder | domain/entities/order.go:38-52 | an empty customer ID → EmptyCustomerId; otherwise pending, no lines, created and updated now |
| Orders.NewOrderIsEmpty | domain/entities/order.go:217-224 | a new order is empty and well formed; IsEmpty iff ItemCount is 0 |
| Orders.OrderState.ItemCount | domain/entities/order.go:217-219 | the number of lines; NewOrderIsEmpty relates it to IsEmpty |
| Orders.OrderState.IsEmpty | domain/entities/order.go:222-224 | no lines; NewOrderIsEmpty proves it holds iff ItemCount is 0 and holds of a new order |
| Orders.OrderState.Equals | domain/entities/order.go:227-229 | orders are compared by their IDs only |
| Orders.AddItemAddsQuantity | domain/entities/order.go:100-126 | a successful AddItem raises that product's quantity in the order by exactly the quantity added and leaves every other product's alone |
| Orders.AddItemCount | domain/entities/order.go:100-126 | a merge keeps the number of lines; a new product adds exactly one |
| Orders.AddItemKeepsWellFormed | domain/entities/order.go:100-126 | with a fresh line ID, AddItem keeps one line per product, distinct line IDs and positive quantities |
| Orders.RemoveItemKeepsWellFormed | domain/entities/order.go:129-143 | RemoveItem keeps a well-formed order well formed, removes exactly one line and leaves none with that ID |
| Orders.RemoveItemTakesQuantity | domain/entities/order.go:129-143 | removing a line takes exactly its quantity from its product |
| Orders.StatusNeverReturnsToPending | domain/entities/order.go:100-214 | once not pending, no operation reaches pending again, lines cannot change, and a delivered order accepts no transition |
| Orders.MergeScenario | domain/entities/order.go:106-115 | adding 2 then 3 units of one product gives one line of 5 units at the snapshot price, total 5000 cents, `updatedAt` left at the first addition |
| Orders.Order.FromState | domain/entities/order.go:55-64 | the rebuilt order has exactly the stored fields |
| Orders.Order.Items | domain/entities/order.go:77-82 | the copy of the lines equals the order's lines; states are values here, so the Go slice copy's protection against aliasing has nothing further to state |
| Orders.Order.AddItem | domain/entities/order.go:100-126 | the search-and-merge loop gives the result and the new state of OrderState.AddItem, and changes nothing on failure |
| Orders.Order.RemoveItem | domain/entities/order.go:129-143 | the search-and-splice loop gives the result and the new state of OrderState.RemoveItem |
| Orders.Order.TotalAmount | domain/entities/order.go:146-166 | the summation loop returns OrderState.TotalAmount |
| Orders.Order.Confirm | domain/entities/order.go:169-181 | result and new state of OrderState.Confirm |
| Orders.Order.Ship | domain/entities/order.go:184-192 | result and new state of OrderState.Ship |
| Orders.Order.Deliver | domain/entities/order.go:195-203 | result and new state of OrderState.Deliver |
| Orders.Order.Cancel | domain/entities/order.go:206-214 | result and new state of OrderState.Cancel |
| Pricing.CalculateOrderTotal | domain/services/pricing_service.go:19-21 | the order's total: the sum of its line prices |
| Pricing.CalculateItemTotal | domain/services/pricing_service.go:24-26 | the line's price: unit price × quantity |
| Pricing.ApplyDiscountGuard | domain/services/pricing_service.go:29-32 | the discount is accepted iff 0 ≤ percentage ≤ 100, otherwise DiscountOutOfRange |
| Pricing.CalculateTaxGuard | domain/services/pricing_service.go:39-42 | the tax rate is accepted iff non-negative, otherwise NegativeTaxRate |
| Pricing.CalculateShippingCost | domain/services/pricing_service.go:48-65 | a total error is passed on; otherwise 0 from 100.00, 5.00 from 50.00, 10.00 below, in the total's currency |
| Pricing.EmptyOrderShipping | domain/services/pricing_service.go:48-65 | an empty order ships for 10.00 USD |
| Pricing.ShippingNeverGrowsWithTotal | domain/services/pricing_service.go:48-65 | a larger total never costs more to ship |
| OrderValidation.ValidateOrder | domain/services/order_validation_service.go:22-53 | passes iff the order is non-empty, every product snapshot is active and covers its line's quantity, and the total is computable and at least 1.00. The first inactive line is reported before stock, and the first short line before the total; then an uncomputable total gives TotalCalculation with its cause, and a total below 1.00 gives BelowMinimumTotal |
| OrderValidation.ValidateItemAddition | domain/services/order_validation_service.go:56-79 | passes iff the product is active, 0 < quantity ≤ stock and the order is pending; the checks run in that order, each with its own error |
| OrderValidation.ValidateOrderTransition | domain/services/order_validation_service.go:82-106 | passes exactly for pending→confirmed/cancelled, confirmed→shipped/cancelled and shipped→delivered; an unknown current status → InvalidCurrentStatus; otherwise InvalidTransition |
| OrderValidation.ValidateCustomerOrderLimit | domain/services/order_validation_service.go:109-119 | passes iff fewer than 10 pending orders, otherwise PendingLimitReached with limit 10 |
| OrderValidation.TableAgreesWithTransitions | domain/services/order_validation_service.go:82-106 | the table matches Confirm (given a line), Ship and Deliver; Cancel accepts everything the table allows plus shipped and cancelled |
| OrderValidation.ValidOrderConfirms | domain/services/order_validation_service.go:22-53 | a pending order that passes validation can be confirmed, keeping its total |
| OrderRepositories.OrderRepository.Save | infrastructure/repositories/order_repository.go:22-28 | inserts or overwrites under the order's ID and keeps every order under its own ID |
| OrderRepositories.OrderRepository.FindByID | infrastructure/repositories/order_repository.go:31-41 | the stored order, or None when absent |
| OrderRepositories.OrderRepository.FindByCustomerID | infrastructure/repositories/order_repository.go:44-56 | exactly the customer's stored orders, each once; with every entry under its own ID, no value is returned twice |
| OrderRepositories.OrderRepository.FindByStatus | infrastructure/repositories/order_repository.go:59-71 | exactly the stored orders in that status, each once; with every entry under its own ID, no value is returned twice |
| OrderRepositories.OrderRepository.FindAll | infrastructure/repositories/order_repository.go:74-84 | every stored order, each once; with every entry under its own ID, no value is returned twice |
| OrderRepositories.OrderRepository.Delete | infrastructure/repositories/order_repository.go:87-97 | an absent ID → OrderNotFound, nothing changes; otherwise exactly that entry is removed |
| OrderRepositories.OrderRepository.Exists | infrastructure/repositories/order_repository.go:100-106 | true iff the ID is stored |
| OrderRepositories.OrderRepository.CountPendingByCustomer | infrastructure/repositories/order_repository.go:109-121 | the number of the customer's stored pending orders |
| ProductRepositories.Lower | infrastructure/repositories/product_repository.go:46-60 | lower-cases every character, keeping the length |
| ProductRepositories.Contains | infrastructure/repositories/product_repository.go:46-60 | true iff the substring occurs at some position, so the empty string occurs everywhere |
| ProductRepositories.LiteralMatchIsFound | infrastructure/repositories/product_repository.go:46-60 | a literal occurrence of a substring is still an occurrence once both strings are lower-cased |
| ProductRepositories.NameSearchIgnoresCase | infrastructure/repositories/product_repository.go:46-60 | a name that contains the query literally is found; queries that differ only in letter case find the same names, as does the lower-cased query; the empty query matches every name |
| ProductRepositories.ProductRepository.Save | infrastructure/repositories/product_repository.go:24-30 | inserts or overwrites under the product's ID and keeps every product under its own ID |
| ProductRepositories.ProductRepository.FindByID | infrastructure/repositories/product_repository.go:33-43 | the stored product, or None when absent |
| ProductRepositories.ProductRepository.FindByName | infrastructure/repositories/product_repository.go:46-60 | exactly the products whose lower-cased name contains the lower-cased query, each once; with every entry under its own ID, no value is returned twice |
| ProductRepositories.ProductRepository.FindAll | infrastructure/repositories/product_repository.go:63-73 | every stored product, active or not, each once; with every entry under its own ID, no value is returned twice |
| ProductRepositories.ProductRepository.FindActive | infrastructure/repositories/product_repository.go:76-88 | exactly the active stored products, each once; with every entry under its own ID, no value is returned twice |
| ProductRepositories.ProductRepository.Delete | infrastructure/repositories/product_repository.go:91-101 | an absent ID → ProductNotFound, nothing changes; otherwise exactly that entry is removed |
| ProductRepositories.ProductRepository.Exists | infrastructure/repositories/product_repository.go:104-110 | true iff the ID is stored |
| ProductRepositories.ProductRepository.UpdateStock | infrastructure/repositories/product_repository.go:113-124 | an absent ID → ProductNotFound, nothing changes; otherwise only that product's stock changes |
| CustomerRepositories.CustomerRepository.Save | infrastructure/repositories/customer_repository.go:22-28 | inserts or overwrites under the customer's ID and keeps every customer under its own ID |
| CustomerRepositories.CustomerRepository.FindByID | infrastructure/repositories/customer_repository.go:31-41 | the stored customer, or None when absent |
| CustomerRepositories.CustomerRepository.FindByEmail | infrastructure/repositories/customer_repository.go:44-55 | a stored customer with that email, or None iff no stored customer has it |
| CustomerRepositories.CustomerRepository.FindAll | infrastructure/repositories/customer_repository.go:58-68 | every stored customer, each once; with every entry under its own ID, no value is returned twice |
| CustomerRepositories.CustomerRepository.Delete | infrastructure/repositories/customer_repository.go:71-81 | an absent ID → CustomerNotFound, nothing changes; otherwise exactly that entry is removed |
| CustomerRepositories.CustomerRepository.Exists | infrastructure/repositories/customer_repository.go:84-90 | true iff the ID is stored |
| ProductDto.ToMoney | application/dto/product_dto.go:48-50 | succeeds iff the amount is non-negative and the currency non-empty, keeping both; otherwise NegativeAmount, then EmptyCurrency |
| ProductDto.ToQuantity | application/dto/product_dto.go:53-55 | succeeds iff the value is non-negative and the unit non-empty, keeping both; otherwise NegativeQuantity, then EmptyUnit |
| ProductDto.FromMoney | application/dto/product_dto.go:58-63 | copies amount and currency; MoneyRoundTrip proves the round trips through it |
| ProductDto.FromQuantity | application/dto/product_dto.go:66-71 | copies value and unit; QuantityRoundTrip proves the round trips through it |
| ProductDto.MoneyRoundTrip | application/dto/product_dto.go:48-63 | request → Money → response keeps the fields, and Money → response → request → Money gives back the same Money |
| ProductDto.QuantityRoundTrip | application/dto/product_dto.go:53-71 | the same round trip, both ways, for quantities |
| CustomerDto.ToAddress | application/dto/customer_dto.go:40-42 | succeeds iff every field is non-empty, keeping them all |
| CustomerDto.FromAddress | application/dto/customer_dto.go:45-53 | copies the five fields; AddressRoundTrip proves the round trips through it |
| CustomerDto.AddressRoundTrip | application/dto/customer_dto.go:40-53 | a complete request comes back field for field; an address comes back Equals to itself |
| ProductServices.ProductResponseOf | application/services/product_service.go:177-186 | copies identity, name, description and flag; price and valid stock read back as requests give the product's own |
| ProductServices.DeactivateIsIdempotent | application/services/product_service.go:154-174 | deactivating twice is deactivating once |
| ProductServices.ProductService.CreateProduct | application/services/product_service.go:23-49 | checks the price (InvalidPrice), then the stock (InvalidStock), then the name (ProductCreationFailed with EmptyProductName) and the description (ProductCreationFailed with EmptyProductDescription); a failure saves nothing; success saves a new active product under the new ID and reports it |
| ProductServices.ProductService.GetProduct | application/services/product_service.go:52-63 | the stored product's response, or ProductNotFound |
| ProductServices.ProductService.GetAllProducts | application/services/product_service.go:66-78 | one response per stored product |
| ProductServices.ProductService.GetActiveProducts | application/services/product_service.go:81-93 | one response per active stored product |
| ProductServices.ProductService.UpdateProductPrice | application/services/product_service.go:96-122 | ProductNotFound, then InvalidPrice, changing nothing; otherwise only that product's price changes |
| ProductServices.ProductService.UpdateProductStock | application/services/product_service.go:125-151 | ProductNotFound, then InvalidStock, changing nothing; otherwise only that product's stock changes |
| ProductServices.ProductService.DeactivateProduct | application/services/product_service.go:154-174 | ProductNotFound changes nothing; otherwise only that product is deactivated |
| CustomerServices.CustomerResponseOf | application/services/customer_service.go:111-119 | copies the fields; a valid address read back as a request gives the same address |
| CustomerServices.CreateKeepsEmailsUnique | application/services/customer_service.go:24-50 | adding a customer with an email nobody has keeps all emails distinct |
| CustomerServices.AddressChangeKeepsEmailsUnique | application/services/customer_service.go:82-108 | changing an address keeps all emails distinct |
| CustomerServices.CustomerService.CreateCustomer | application/services/customer_service.go:24-50 | checks the address (InvalidAddress), then a taken email (EmailTaken), then the name (CustomerCreationFailed with EmptyCustomerName) and the email (CustomerCreationFailed with EmptyCustomerEmail); a failure saves nothing; success saves the new customer and, under a fresh ID, keeps all emails distinct |
| CustomerServices.CustomerService.GetCustomer | application/services/customer_service.go:53-64 | the stored customer's response, or CustomerNotFound |
| CustomerServices.CustomerService.GetAllCustomers | application/services/customer_service.go:67-79 | one response per stored customer |
| CustomerServices.CustomerService.UpdateCustomerAddress | application/services/customer_service.go:82-108 | CustomerNotFound, then InvalidAddress, changing nothing; otherwise only that customer's address changes |
| OrderServices.ItemResponseOf | application/services/order_service.go:238-255 | a line's response; its total is unit price × quantity, or the zero Money when the price fails |
| OrderServices.OrderResponseOf | application/services/order_service.go:229-266 | one response per line in order; the total is the sum of line prices, or 0 USD when the order is empty or the total fails |
| OrderServices.CreateKeepsPendingLimit | application/services/order_service.go:48-67 | a new pending order for a customer below the limit adds exactly one pending order and never exceeds 10 |
| OrderServices.LeavingPendingNeverAddsPending | application/services/order_service.go:164-211 | storing an order in a non-pending status never adds a pending order for anyone |
| OrderServices.OrderService.OrderToResponse | application/services/order_service.go:229-266 | the response-building loop returns OrderResponseOf of the order |
| OrderServices.OrderService.OrdersToResponses | application/services/order_service.go:220-223 | the loop gives one response per order, OrderResponseOf of each, in order |
| OrderServices.OrderService.CreateOrder | application/services/order_service.go:37-71 | CustomerNotFound, then PendingLimitReached at 10 pending orders, then an empty customer ID (OrderCreationFailed with EmptyCustomerId); a failure saves nothing; success saves a new empty pending order and, under a fresh ID, adds exactly one pending order for the customer, never more than 10 |
| OrderServices.OrderService.GetOrder | application/services/order_service.go:74-85 | the stored order's response, or OrderNotFound |
| OrderServices.OrderService.AddItemToOrder | application/services/order_service.go:88-131 | OrderNotFound, ProductNotFound, InvalidQuantity, the validation error, then AddItemFailed, each saving nothing. On success the product is active, 0 < quantity ≤ stock, the order was pending, the order's AddItem result is saved, and the product's quantity in the order grows by exactly the request |
| OrderServices.OrderService.ConfirmOrder | application/services/order_service.go:134-161 | OrderNotFound, then OrderValidationFailed, then ConfirmFailed, saving nothing; succeeds iff the order validates and is pending, saving it confirmed |
| OrderServices.OrderService.UpdateOrderStatus | application/services/order_service.go:164-211 | OrderNotFound, then the transition error; succeeds iff the table allows the transition and confirming finds a line; only status and `updatedAt` change |
| OrderServices.OrderService.GetAllOrders | application/services/order_service.go:214-226 | one response per stored order |
| Sales.Money.Add | sales_service.py:40-43 | succeeds iff the currencies agree, otherwise DifferentCurrencies; cents add up and the currency is kept |
| Sales.OrderItem.LineTotal | sales_service.py:50-52 | unit price cents × quantity, in the unit price's currency, never below one unit |
| Sales.Accumulate | sales_service.py:61-65 | the running total succeeds iff every item is in the accumulator's currency, then adds all line totals |
| Sales.OrderState.Total | sales_service.py:61-65 | no items → 0 COP; otherwise success iff all items share the first item's currency, giving the sum of line totals; DifferentCurrencies otherwise |
| Sales.OrderState.MarkPaid | sales_service.py:67-72 | a pending order becomes paid; a paid order is left as it is |
| Sales.MarkPaidIsIdempotent | sales_service.py:67-72 | marking paid always leaves the order paid, with nothing else changed, and a second time changes nothing |
| Sales.LineTotalsConcat | sales_service.py:61-65 | the sum of line totals adds up over concatenation |
| Sales.TotalOfAddedItem | sales_service.py:61-65 | an extra item in the order's currency raises the total by exactly its line total |
| Sales.Order.Total | sales_service.py:61-65 | the summation loop returns OrderState.Total |
| Sales.Order.MarkPaid | sales_service.py:67-72 | result and new state of OrderState.MarkPaid |
| Sales.OrderRepository.Save | sales_service.py:79-80 | inserts or overwrites under the order's ID |
| Sales.OrderRepository.Get | sales_service.py:82-85 | the stored order, or SalesOrderNotFound |
| Sales.SalesService.PlaceOrder | sales_service.py:92-97 | no items → OrderNeedsItems, saving nothing; otherwise saves and returns a new pending order |
| Sales.SalesService.MarkOrderAsPaid | sales_service.py:99-103 | an unknown order → SalesOrderNotFound, changing nothing; otherwise the stored order becomes paid, everything else kept |
| Sales.SalesService.OnPaymentApproved | sales_service.py:166-174 | the order becomes paid iff the paid cents reach its total's cents; otherwise "insufficient" and nothing changes; an unknown order or mixed currencies are errors |
| Billing.PaymentId | billing_service.py:59 | the payment ID is "PAY-" followed by the order ID |
| Billing.PaymentIdIsInjective | billing_service.py:59 | two orders share a payment ID iff they are the same order |
| Billing.RegisterReplaces | billing_service.py:46-47 | registering again for one order replaces its payment; other orders' payments are untouched |
| Billing.PaymentRepository.Save | billing_service.py:46-47 | inserts or overwrites under the payment's ID |
| Billing.PaymentRepository.Get | billing_service.py:49-50 | the stored payment, or PaymentNotFound |
| Billing.BillingService.RegisterPayment | billing_service.py:57-62 | returns an approved payment for the given order and amount with ID "PAY-"+order, stores it, and it reads back under that ID |

## Left out

- **HTTP layer.** Request binding, routing, CORS and status-code mapping. The FastAPI endpoints
  other than the payment webhook, and the `requests.post` calls between the two Python
  services: this is network I/O.
- **Concurrency.** The repositories' read/write locks, and the shared in-memory database they
  wrap: the model is single-threaded.
- **Pointer aliasing.** Repositories store and return states by value, and every use case saves
  explicitly. The Go services store `*Order`/`*Product` pointers, and Python stores object
  references, so a caller could mutate a stored entity without saving it; the model does not
  capture that.
- **Python endpoint globals.** `Sales.SalesService.OnPaymentApproved` works on the service's
  repository. The source's webhook uses the module-level `repo` and `sales` instead.
- **Floating point.**
  - Money amounts are whole cents. The Go `float64` with rounding to two decimals, and the
    rejection of negative amounts before rounding, are not modelled bit for bit.
  - Pricing.ApplyDiscountGuard: models only the argument check of `ApplyDiscount`, because the
    floating-point scaling of the amount that follows is out of scope.
  - Pricing.CalculateTaxGuard: models only the argument check of `CalculateTax`, for the same
    reason.
- **Identifiers, clocks and text formatting.** UUID generation and the clock are parameters.
  The RFC 3339 timestamp text and the `String()` methods are not modelled.
- **Integer width.** Quantities are Go `int`s, 64 bits wide; the model's integers are
  unbounded.
  - Quantities.Quantity.Add: does not model wrap-around. A sum past 2^63 − 1 wraps to a negative
    value in Go, which `NewQuantity` then rejects; the model returns the exact sum.
  - Products.Product.ReduceStock: does not model wrap-around either. Subtracting a very
    negative quantity can overflow in Go; the model returns the exact difference.
- **Case folding.** `ProductRepositories.Lower` lower-cases ASCII letters only. `strings.ToLower`
  folds all of Unicode.
- **`InMemoryOrderRepository` constructors and the other repository constructors.** They
  allocate a map. The model gives each repository class a constructor that starts from an empty
  map, and does not model the shared database handle.
- **The sales `create_order` endpoint.** The item-DTO conversion inside it, its logging, and its
  call to billing are not modelled; its domain steps are `PlaceOrder` and `Total`.
- **Python validation.** The pydantic field checks (`qty ≥ 1`, non-negative cents) appear as
  types: `PositiveCount` and `nat`.
