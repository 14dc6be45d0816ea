/** The Money value object, as a whole number of cents in a currency. */
module Monies {
  import opened Outcomes

  /** `amount` counts cents; the source's two-decimal rounding at construction
      makes every amount a whole number of cents. */
  datatype Money = Money(amount: nat, currency: string) {

    /** Sum in the receiver's currency; the operands must share it. The sum
        goes through NewMoney, so an empty common currency is rejected too. */
    function Add(other: Money): (r: Result<Money>)
      ensures currency != other.currency ==> r == Err(CurrencyMismatch)
      ensures currency == other.currency && currency == "" ==> r == Err(EmptyCurrency)
      ensures r.Ok? <==> currency == other.currency && currency != ""
      ensures r.Ok? ==> r.value.amount == amount + other.amount && r.value.currency == currency
    {
      if currency != other.currency then Err(CurrencyMismatch)
      else NewMoney(amount + other.amount, currency)
    }

    /** Scaling by a whole, non-negative factor, in the same currency. */
    function Multiply(factor: int): (r: Result<Money>)
      ensures factor < 0 ==> r == Err(NegativeFactor)
      ensures factor >= 0 && currency == "" ==> r == Err(EmptyCurrency)
      ensures r.Ok? <==> factor >= 0 && currency != ""
      ensures r.Ok? ==> r.value.amount == amount * factor && r.value.currency == currency
    {
      if factor < 0 then Err(NegativeFactor)
      else NewMoney(amount * factor, currency)
    }

    /** Value equality: amount and currency. */
    predicate Equals(other: Money)
    {
      amount == other.amount && currency == other.currency
    }
  }

  /** The validating constructor: a non-negative amount and a non-empty
      currency, checked in that order. */
  function NewMoney(amount: int, currency: string): (r: Result<Money>)
    ensures amount < 0 ==> r == Err(NegativeAmount)
    ensures amount >= 0 && currency == "" ==> r == Err(EmptyCurrency)
    ensures r.Ok? <==> amount >= 0 && currency != ""
    ensures r.Ok? ==> r.value.amount == amount && r.value.currency == currency
  {
    if amount < 0 then Err(NegativeAmount)
    else if currency == "" then Err(EmptyCurrency)
    else Ok(Money(amount, currency))
  }

  /** Zero in a currency, without validation: even an empty currency. */
  function Zero(currency: string): (m: Money)
    ensures m.amount == 0 && m.currency == currency
  {
    Money(0, currency)
  }

  /** Add is commutative and associative wherever it is defined, and the
      zero of a non-empty currency is its neutral element. */
  lemma AddIsCommutativeMonoid(a: Money, b: Money, c: Money)
    ensures a.Add(b) == b.Add(a)
    ensures a.Add(b).Ok? && b.Add(c).Ok? ==>
      a.Add(b).value.Add(c) == a.Add(b.Add(c).value)
    ensures a.currency != "" ==> a.Add(Zero(a.currency)) == Ok(a)
  {
  }

  /** Multiplying by a sum of factors adds the products (for a non-empty
      currency), the law an order total relies on when quantities merge. */
  lemma MultiplyDistributes(m: Money, f: nat, g: nat)
    requires m.currency != ""
    ensures m.Multiply(f).Ok? && m.Multiply(g).Ok?
    ensures m.Multiply(f + g) == m.Multiply(f).value.Add(m.Multiply(g).value)
  {
    assert m.amount * (f + g) == m.amount * f + m.amount * g;
  }

  /** Equals is the value equality of Money. */
  lemma EqualsIsValueEquality(a: Money, b: Money)
    ensures a.Equals(b) <==> a == b
  {
  }
}
