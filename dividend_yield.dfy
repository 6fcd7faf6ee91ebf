/** A dividend yield fixed at construction. */
module DividendYields {

  datatype DividendYield = FixedDividendYield(dividendYield: real)

  /** getYield(time): the constructed yield, whatever the time. */
  function GetYield(d: DividendYield, time: real): (r: real)
    ensures r == d.dividendYield
  {
    d.dividendYield
  }

  /** Two calls at different times return the same value, and a negative yield
      is returned as it was given. */
  lemma YieldConstantInTime(y: real, t1: real, t2: real)
    ensures GetYield(FixedDividendYield(y), t1) == GetYield(FixedDividendYield(y), t2) == y
  {
  }
}
