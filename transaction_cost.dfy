/** Transaction-cost models: the cost charged for a trade of a given size. */
module TransactionCosts {

  datatype TransactionCost = ZeroCost | FixedCost(cost: real)

  /** getCost(transactionSize): the size is never looked at. */
  function GetCost(c: TransactionCost, transactionSize: real): (r: real)
    ensures c.ZeroCost? ==> r == 0.0
    ensures c.FixedCost? ==> r == c.cost
  {
    match c
    case ZeroCost => 0.0
    case FixedCost(cost) => cost
  }

  /** Any two trade sizes cost the same. */
  lemma CostIndependentOfSize(c: TransactionCost, size1: real, size2: real)
    ensures GetCost(c, size1) == GetCost(c, size2)
  {
  }

  /** A fixed cost of zero agrees with the zero-cost model everywhere, and a
      negative fixed cost is returned as it was given. */
  lemma FixedCostEdgeCases(size: real, cost: real)
    ensures GetCost(FixedCost(0.0), size) == GetCost(ZeroCost, size)
    ensures cost < 0.0 ==> GetCost(FixedCost(cost), size) < 0.0
  {
  }
}
