/** The in-memory product repository: a map from product ID to the stored
    product, with a case-insensitive name search. */
module ProductRepositories {
  import opened Outcomes
  import opened Quantities
  import opened Collections
  import opened Products

  /** ASCII lower-casing of one character. */
  function LowerChar(c: char): char
  {
    if 'A' <= c <= 'Z' then (c as int + 32) as char else c
  }

  /** ASCII lower-casing, character by character. */
  function Lower(s: string): (r: string)
    ensures |r| == |s|
    ensures forall i :: 0 <= i < |s| ==> r[i] == LowerChar(s[i])
  {
    if |s| == 0 then "" else [LowerChar(s[0])] + Lower(s[1..])
  }

  /** `sub` occurs in `s` starting at position `i`. */
  predicate OccursAt(s: string, sub: string, i: nat)
  {
    i + |sub| <= |s| && s[i..i + |sub|] == sub
  }

  /** An occurrence after the first position of `s` is an occurrence in
      `s[1..]`, one position earlier. */
  lemma OccursShift(s: string, sub: string)
    requires |s| > 0
    ensures forall i: nat :: 1 <= i ==> (OccursAt(s, sub, i) <==> OccursAt(s[1..], sub, i - 1))
    ensures forall j: nat :: OccursAt(s[1..], sub, j) ==> OccursAt(s, sub, j + 1)
  {
    forall i: nat | 1 <= i
      ensures OccursAt(s, sub, i) <==> OccursAt(s[1..], sub, i - 1)
    {
      if i + |sub| <= |s| {
        var here, there := s[i..i + |sub|], s[1..][i - 1..i - 1 + |sub|];
        assert forall c :: 0 <= c < |sub| ==> here[c] == there[c];
        assert here == there;
      }
    }
    forall j: nat | OccursAt(s[1..], sub, j)
      ensures OccursAt(s, sub, j + 1)
    {
      assert OccursAt(s, sub, j + 1) <==> OccursAt(s[1..], sub, j);
    }
  }

  /** `sub` occurs in `s` (the empty string occurs everywhere): Go's
      strings.Contains. */
  function Contains(s: string, sub: string): (r: bool)
    ensures r <==> exists i: nat :: OccursAt(s, sub, i)
    decreases |s|
  {
    if |sub| > |s| then false
    else if OccursAt(s, sub, 0) then true
    else
      OccursShift(s, sub);
      assert forall i: nat :: OccursAt(s, sub, i) ==> i >= 1;
      Contains(s[1..], sub)
  }

  /** A product's name matches a query when, lower-cased, it contains the
      lower-cased query. */
  predicate NameMatches(product: ProductState, query: string)
  {
    Contains(Lower(product.name), Lower(query))
  }

  /** Lower-casing commutes with taking a slice. */
  lemma LowerSlice(s: string, i: nat, j: nat)
    requires i <= j <= |s|
    ensures Lower(s)[i..j] == Lower(s[i..j])
  {
    assert forall c :: 0 <= c < j - i ==> Lower(s)[i..j][c] == Lower(s[i..j])[c];
  }

  /** A literal, case-sensitive occurrence is still an occurrence once both
      strings are lower-cased, at the same position. */
  lemma LiteralMatchIsFound(s: string, sub: string)
    ensures Contains(s, sub) ==> Contains(Lower(s), Lower(sub))
  {
    if Contains(s, sub) {
      var i: nat :| OccursAt(s, sub, i);
      LowerSlice(s, i, i + |sub|);
      assert OccursAt(Lower(s), Lower(sub), i);
    }
  }

  /** The name search is case-insensitive: a name that contains the query
      literally is found; two queries that differ only in the case of their
      letters find the same names, as does the query in upper or lower case;
      and the empty query matches every name. */
  lemma NameSearchIgnoresCase(product: ProductState, query: string, variant: string)
    ensures Contains(product.name, query) ==> NameMatches(product, query)
    ensures Lower(variant) == Lower(query) ==> (NameMatches(product, variant) <==> NameMatches(product, query))
    ensures NameMatches(product, Lower(query)) <==> NameMatches(product, query)
    ensures NameMatches(product, "")
  {
    LiteralMatchIsFound(product.name, query);
    assert Lower(Lower(query)) == Lower(query);
    assert OccursAt(Lower(product.name), Lower(""), 0);
  }

  class ProductRepository {
    var products: map<string, ProductState>

    /** Every product is stored under its own ID. */
    ghost predicate Valid()
      reads this
    {
      forall k :: k in products ==> products[k].id == k
    }

    constructor()
      ensures products == map[] && Valid()
    {
      products := map[];
    }

    /** Inserts, or overwrites the product stored under the same ID. */
    method Save(product: ProductState)
      requires Valid()
      modifies this
      ensures products == old(products)[product.id := product]
      ensures Valid()
    {
      products := products[product.id := product];
    }

    /** The stored product, or None when absent. */
    method FindByID(id: string) returns (r: Option<ProductState>)
      ensures id in products ==> r == Some(products[id])
      ensures id !in products ==> r == None
    {
      if id !in products {
        return None;
      }
      return Some(products[id]);
    }

    /** Exactly the stored products whose lower-cased name contains the
        lower-cased query, each once, in no fixed order. */
    method FindByName(name: string) returns (r: seq<ProductState>)
      ensures forall i :: 0 <= i < |r| ==> r[i] in products.Values && NameMatches(r[i], name)
      ensures forall k :: k in products && NameMatches(products[k], name) ==> products[k] in r
      ensures |r| == |set k | k in products && NameMatches(products[k], name)|
      ensures Valid() ==> forall i, j :: 0 <= i < j < |r| ==> r[i] != r[j]
    {
      var matching := (p: ProductState) => NameMatches(p, name);
      ghost var keys;
      r, keys := Select(products, matching);
      assert KeysWhere(products, matching) == set k | k in products && NameMatches(products[k], name);
    }

    /** Every stored product, active or not, each once, in no fixed order. */
    method FindAll() returns (r: seq<ProductState>)
      ensures forall i :: 0 <= i < |r| ==> r[i] in products.Values
      ensures forall k :: k in products ==> products[k] in r
      ensures |r| == |products|
      ensures Valid() ==> forall i, j :: 0 <= i < j < |r| ==> r[i] != r[j]
    {
      ghost var keys;
      r, keys := Select(products, (p: ProductState) => true);
      assert KeysWhere(products, (p: ProductState) => true) == products.Keys;
    }

    /** Exactly the stored active products, each once, in no fixed order. */
    method FindActive() returns (r: seq<ProductState>)
      ensures forall i :: 0 <= i < |r| ==> r[i] in products.Values && r[i].active
      ensures forall k :: k in products && products[k].active ==> products[k] in r
      ensures |r| == |set k | k in products && products[k].active|
      ensures Valid() ==> forall i, j :: 0 <= i < j < |r| ==> r[i] != r[j]
    {
      var matching := (p: ProductState) => p.active;
      ghost var keys;
      r, keys := Select(products, matching);
      assert KeysWhere(products, matching) == set k | k in products && products[k].active;
    }

    /** Removes the product; an absent ID is an error and changes nothing. */
    method Delete(id: string) returns (r: Outcome)
      requires Valid()
      modifies this
      ensures id !in old(products) ==> r == Fail(ProductNotFound(id)) && products == old(products)
      ensures id in old(products) ==> r == Pass && products == old(products) - {id}
      ensures Valid()
    {
      if id !in products {
        return Fail(ProductNotFound(id));
      }
      products := products - {id};
      return Pass;
    }

    method Exists(id: string) returns (b: bool)
      ensures b <==> id in products
    {
      return id in products;
    }

    /** Replaces the stock of a stored product and nothing else; an absent ID
        is an error and changes nothing. */
    method UpdateStock(productId: string, newStock: Quantity) returns (r: Outcome)
      requires Valid()
      modifies this
      ensures productId !in old(products) ==> r == Fail(ProductNotFound(productId)) && products == old(products)
      ensures productId in old(products) ==>
        r == Pass && products == old(products)[productId := old(products)[productId].(stock := newStock)]
      ensures Valid()
    {
      if productId !in products {
        return Fail(ProductNotFound(productId));
      }
      var product := new Product.FromState(products[productId]);
      product.UpdateStock(newStock);
      products := products[productId := product.State()];
      return Pass;
    }
  }
}
