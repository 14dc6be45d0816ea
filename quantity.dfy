/** The Quantity value object: a count with a unit of measure. */
module Quantities {
  import opened Outcomes

  /** `value` is Go's `int`, unbounded here; `unit` names the measure. */
  datatype Quantity = Quantity(value: int, unit: string) {

    /** Sum of two quantities of the same unit. The sum goes through
        NewQuantity, so an empty common unit is rejected too. */
    function Add(other: Quantity): (r: Result<Quantity>)
      ensures unit != other.unit ==> r == Err(UnitMismatch)
      ensures r.Ok? <==> unit == other.unit && unit != "" && value + other.value >= 0
      ensures r.Ok? ==> r.value.value == value + other.value && r.value.unit == unit
    {
      if unit != other.unit then Err(UnitMismatch)
      else NewQuantity(value + other.value, unit)
    }

    /** Value equality, field by field. */
    predicate Equals(other: Quantity)
    {
      value == other.value && unit == other.unit
    }
  }

  /** The validating constructor: a non-negative value and a non-empty unit,
      checked in that order. */
  function NewQuantity(value: int, unit: string): (r: Result<Quantity>)
    ensures value < 0 ==> r == Err(NegativeQuantity)
    ensures value >= 0 && unit == "" ==> r == Err(EmptyUnit)
    ensures r.Ok? <==> value >= 0 && unit != ""
    ensures r.Ok? ==> r.value.value == value && r.value.unit == unit
  {
    if value < 0 then Err(NegativeQuantity)
    else if unit == "" then Err(EmptyUnit)
    else Ok(Quantity(value, unit))
  }

  /** Zero of a unit; like the source it does not validate the unit. */
  function ZeroQuantity(unit: string): (q: Quantity)
    ensures q.value == 0 && q.unit == unit
  {
    Quantity(0, unit)
  }

  /** The quantities NewQuantity can build. */
  predicate Valid(q: Quantity)
  {
    q.value >= 0 && q.unit != ""
  }

  /** NewQuantity builds exactly the valid quantities, and gives back the
      quantity whose fields it is handed. */
  lemma NewQuantityIsValidation(q: Quantity)
    ensures Valid(q) ==> NewQuantity(q.value, q.unit) == Ok(q)
    ensures !Valid(q) ==> NewQuantity(q.value, q.unit).Err?
  {
  }

  /** Add is commutative, and valid quantities of one unit always add up to a
      valid quantity. */
  lemma AddCommutes(a: Quantity, b: Quantity)
    ensures a.Add(b) == b.Add(a)
    ensures Valid(a) && Valid(b) && a.unit == b.unit ==> a.Add(b).Ok? && Valid(a.Add(b).value)
  {
  }

  /** Adding the zero of the unit changes nothing, for a valid quantity. */
  lemma ZeroIsNeutral(q: Quantity)
    requires Valid(q)
    ensures q.Add(ZeroQuantity(q.unit)) == Ok(q)
  {
  }

  /** Equals is the value equality of Quantity. */
  lemma EqualsIsValueEquality(a: Quantity, b: Quantity)
    ensures a.Equals(b) <==> a == b
  {
  }
}
