/** Boundary conditions applied to a simulated price. */
module BoundaryConditions {
  import opened Common

  datatype BoundaryCondition = Reflective | Absorptive

  /** applyCondition(price): reflect negative prices to |price|, or absorb them at 0. */
  function ApplyCondition(b: BoundaryCondition, price: real): (r: real)
    ensures r >= 0.0
    ensures price >= 0.0 ==> r == price
    ensures price < 0.0 ==> (b.Reflective? ==> r == -price) && (b.Absorptive? ==> r == 0.0)
  {
    match b
    case Reflective => Abs(price)
    case Absorptive => Max0(price)
  }

  /** Applying either condition twice is the same as applying it once. */
  lemma ConditionIdempotent(b: BoundaryCondition, price: real)
    ensures ApplyCondition(b, ApplyCondition(b, price)) == ApplyCondition(b, price)
  {
  }

  /** Reflection ignores the sign of the price. */
  lemma ReflectiveSymmetric(price: real)
    ensures ApplyCondition(Reflective, -price) == ApplyCondition(Reflective, price)
  {
  }

  /** Absorption never gives more than reflection. */
  lemma AbsorptiveAtMostReflective(price: real)
    ensures ApplyCondition(Absorptive, price) <= ApplyCondition(Reflective, price)
  {
  }
}
