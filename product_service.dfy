/** The product application service: each use case looks the product up,
    converts the request, changes a Product object and saves its state back. */
module ProductServices {
  import opened Outcomes
  import opened Monies
  import opened Quantities
  import opened Products
  import opened ProductDto
  import opened ProductRepositories

  /** A product as the service reports it: the price and a valid stock read
      back from the response, as requests, are the product's own. */
  function ProductResponseOf(p: ProductState): (r: ProductResponse)
    ensures r.id == p.id && r.name == p.name && r.description == p.description && r.active == p.active
    ensures p.price.currency != "" ==> ToMoney(MoneyRequest(r.price.amount, r.price.currency)) == Ok(p.price)
    ensures Valid(p.stock) ==> ToQuantity(QuantityRequest(r.stock.value, r.stock.unit)) == Ok(p.stock)
  {
    ProductResponse(p.id, p.name, p.description, FromMoney(p.price), FromQuantity(p.stock), p.active)
  }

  /** The catalogue after deactivating a stored product. */
  function Deactivated(m: map<string, ProductState>, id: string): map<string, ProductState>
    requires id in m
  {
    m[id := m[id].(active := false)]
  }

  /** Deactivating twice is deactivating once. */
  lemma DeactivateIsIdempotent(m: map<string, ProductState>, id: string)
    requires id in m
    ensures Deactivated(Deactivated(m, id), id) == Deactivated(m, id)
  {
  }

  class ProductService {
    const repo: ProductRepository

    constructor(repo: ProductRepository)
      ensures this.repo == repo
    {
      this.repo := repo;
    }

    /** Validates price, then stock, then name and description, and saves a
        new active product; any failure saves nothing. `newId` stands for the
        generated UUID. */
    method CreateProduct(request: CreateProductRequest, newId: string) returns (r: Result<ProductResponse>)
      requires repo.Valid()
      modifies repo
      ensures repo.Valid()
      ensures ToMoney(request.price).Err? ==> r == Err(InvalidPrice(ToMoney(request.price).error))
      ensures ToMoney(request.price).Ok? && ToQuantity(request.stock).Err? ==>
        r == Err(InvalidStock(ToQuantity(request.stock).error))
      ensures ToMoney(request.price).Ok? && ToQuantity(request.stock).Ok? && request.name == "" ==>
        r == Err(ProductCreationFailed(EmptyProductName))
      ensures ToMoney(request.price).Ok? && ToQuantity(request.stock).Ok? && request.name != "" &&
              request.description == "" ==>
        r == Err(ProductCreationFailed(EmptyProductDescription))
      ensures r.Ok? <==> ToMoney(request.price).Ok? && ToQuantity(request.stock).Ok? &&
                         request.name != "" && request.description != ""
      ensures r.Err? ==> repo.products == old(repo.products)
      ensures r.Ok? ==>
        var p := ProductState(newId, request.name, request.description,
                              ToMoney(request.price).value, ToQuantity(request.stock).value, true);
        repo.products == old(repo.products)[newId := p] && r.value == ProductResponseOf(p)
    {
      var price := ToMoney(request.price);
      if price.Err? {
        return Err(InvalidPrice(price.error));
      }
      var stock := ToQuantity(request.stock);
      if stock.Err? {
        return Err(InvalidStock(stock.error));
      }
      var product := NewProduct(newId, request.name, request.description, price.value, stock.value);
      if product.Err? {
        return Err(ProductCreationFailed(product.error));
      }
      repo.Save(product.value);
      return Ok(ProductResponseOf(product.value));
    }

    method GetProduct(id: string) returns (r: Result<ProductResponse>)
      ensures id !in repo.products ==> r == Err(ProductNotFound(id))
      ensures id in repo.products ==> r == Ok(ProductResponseOf(repo.products[id]))
    {
      var found := repo.FindByID(id);
      if found.None? {
        return Err(ProductNotFound(id));
      }
      return Ok(ProductResponseOf(found.value));
    }

    /** Every stored product, active or not, reported once each. */
    method GetAllProducts() returns (r: seq<ProductResponse>)
      ensures |r| == |repo.products|
      ensures forall i :: 0 <= i < |r| ==> exists k :: k in repo.products && r[i] == ProductResponseOf(repo.products[k])
      ensures forall k :: k in repo.products ==> ProductResponseOf(repo.products[k]) in r
    {
      var found := repo.FindAll();
      r := [];
      var i := 0;
      while i < |found|
        invariant 0 <= i <= |found|
        invariant |r| == i
        invariant forall j :: 0 <= j < i ==> r[j] == ProductResponseOf(found[j])
      {
        r := r + [ProductResponseOf(found[i])];
        i := i + 1;
      }
      assert forall k :: k in repo.products ==> exists j :: 0 <= j < |found| && found[j] == repo.products[k];
    }

    /** Every stored active product, reported once each. */
    method GetActiveProducts() returns (r: seq<ProductResponse>)
      ensures |r| == |set k | k in repo.products && repo.products[k].active|
      ensures forall i :: 0 <= i < |r| ==>
                r[i].active && exists k :: k in repo.products && r[i] == ProductResponseOf(repo.products[k])
      ensures forall k :: k in repo.products && repo.products[k].active ==> ProductResponseOf(repo.products[k]) in r
    {
      var found := repo.FindActive();
      r := [];
      var i := 0;
      while i < |found|
        invariant 0 <= i <= |found|
        invariant |r| == i
        invariant forall j :: 0 <= j < i ==> r[j] == ProductResponseOf(found[j])
      {
        r := r + [ProductResponseOf(found[i])];
        i := i + 1;
      }
      assert forall k :: k in repo.products && repo.products[k].active ==>
        exists j :: 0 <= j < |found| && found[j] == repo.products[k];
    }

    /** Replaces the price of a stored product, and nothing else; an absent
        product or an invalid price changes nothing. */
    method UpdateProductPrice(productId: string, priceRequest: MoneyRequest) returns (r: Result<ProductResponse>)
      requires repo.Valid()
      modifies repo
      ensures repo.Valid()
      ensures productId !in old(repo.products) ==> r == Err(ProductNotFound(productId))
      ensures productId in old(repo.products) && ToMoney(priceRequest).Err? ==>
        r == Err(InvalidPrice(ToMoney(priceRequest).error))
      ensures r.Ok? <==> productId in old(repo.products) && ToMoney(priceRequest).Ok?
      ensures r.Err? ==> repo.products == old(repo.products)
      ensures r.Ok? ==>
        var p := old(repo.products)[productId].(price := ToMoney(priceRequest).value);
        repo.products == old(repo.products)[productId := p] && r.value == ProductResponseOf(p)
    {
      var found := repo.FindByID(productId);
      if found.None? {
        return Err(ProductNotFound(productId));
      }
      var newPrice := ToMoney(priceRequest);
      if newPrice.Err? {
        return Err(InvalidPrice(newPrice.error));
      }
      var product := new Product.FromState(found.value);
      product.UpdatePrice(newPrice.value);
      repo.Save(product.State());
      return Ok(ProductResponseOf(product.State()));
    }

    /** Replaces the stock of a stored product, and nothing else; an absent
        product or an invalid stock changes nothing. */
    method UpdateProductStock(productId: string, stockRequest: QuantityRequest) returns (r: Result<ProductResponse>)
      requires repo.Valid()
      modifies repo
      ensures repo.Valid()
      ensures productId !in old(repo.products) ==> r == Err(ProductNotFound(productId))
      ensures productId in old(repo.products) && ToQuantity(stockRequest).Err? ==>
        r == Err(InvalidStock(ToQuantity(stockRequest).error))
      ensures r.Ok? <==> productId in old(repo.products) && ToQuantity(stockRequest).Ok?
      ensures r.Err? ==> repo.products == old(repo.products)
      ensures r.Ok? ==>
        var p := old(repo.products)[productId].(stock := ToQuantity(stockRequest).value);
        repo.products == old(repo.products)[productId := p] && r.value == ProductResponseOf(p)
    {
      var found := repo.FindByID(productId);
      if found.None? {
        return Err(ProductNotFound(productId));
      }
      var newStock := ToQuantity(stockRequest);
      if newStock.Err? {
        return Err(InvalidStock(newStock.error));
      }
      var product := new Product.FromState(found.value);
      product.UpdateStock(newStock.value);
      repo.Save(product.State());
      return Ok(ProductResponseOf(product.State()));
    }

    /** Deactivates a stored product, changing nothing else; an absent product
        is an error and changes nothing. */
    method DeactivateProduct(productId: string) returns (r: Result<ProductResponse>)
      requires repo.Valid()
      modifies repo
      ensures repo.Valid()
      ensures productId !in old(repo.products) ==> r == Err(ProductNotFound(productId)) && repo.products == old(repo.products)
      ensures productId in old(repo.products) ==>
        repo.products == Deactivated(old(repo.products), productId) &&
        r == Ok(ProductResponseOf(repo.products[productId]))
    {
      var found := repo.FindByID(productId);
      if found.None? {
        return Err(ProductNotFound(productId));
      }
      var product := new Product.FromState(found.value);
      product.Deactivate();
      repo.Save(product.State());
      return Ok(ProductResponseOf(product.State()));
    }
  }
}
