/** Hedge strategies: the hedge position for a spot price, option price and Greeks. */
module HedgeStrategies {

  datatype HedgeStrategy = DeltaHedge | DeltaGammaHedge | LocalHedge | DynamicHedge

  /** hedge(spotPrice, optionPrice, delta, gamma). */
  function Hedge(h: HedgeStrategy, spot: real, optionPrice: real, delta: real, gamma: real): (r: real)
    ensures h.DeltaHedge? ==> r == -delta * spot
    ensures gamma == 0.0 && !h.DynamicHedge? ==> r == -delta * spot
    ensures h.DynamicHedge? && optionPrice == spot ==> r == -delta * spot - 0.5 * gamma * spot * spot
  {
    match h
    case DeltaHedge => -delta * spot
    case DeltaGammaHedge => -delta * spot - 0.5 * gamma * spot * spot
    case LocalHedge => -delta * spot - gamma * spot * spot
    case DynamicHedge => -delta * spot - 0.5 * gamma * spot * spot + 0.1 * (optionPrice - spot)
  }

  /** The delta hedge depends on neither the option price nor gamma. */
  lemma DeltaHedgeIgnoresOptionAndGamma(spot: real, o1: real, o2: real, delta: real, g1: real, g2: real)
    ensures Hedge(DeltaHedge, spot, o1, delta, g1) == Hedge(DeltaHedge, spot, o2, delta, g2)
    ensures Hedge(DeltaHedge, spot, o1, delta, g1) == -(delta * spot)
  {
  }

  /** The gamma terms: delta-gamma adds half of gamma*S^2 to the short delta
      position, the local hedge adds all of it. */
  lemma GammaCorrections(spot: real, optionPrice: real, delta: real, gamma: real)
    ensures Hedge(DeltaGammaHedge, spot, optionPrice, delta, gamma)
         == Hedge(DeltaHedge, spot, optionPrice, delta, gamma) - 0.5 * gamma * spot * spot
    ensures Hedge(LocalHedge, spot, optionPrice, delta, gamma) - Hedge(DeltaHedge, spot, optionPrice, delta, gamma)
         == 2.0 * (Hedge(DeltaGammaHedge, spot, optionPrice, delta, gamma) - Hedge(DeltaHedge, spot, optionPrice, delta, gamma))
  {
  }

  /** With zero gamma the delta, delta-gamma and local hedges coincide; with zero
      delta as well they are all zero. */
  lemma ZeroGammaAgreement(spot: real, optionPrice: real, delta: real)
    ensures Hedge(DeltaGammaHedge, spot, optionPrice, delta, 0.0) == Hedge(DeltaHedge, spot, optionPrice, delta, 0.0)
    ensures Hedge(LocalHedge, spot, optionPrice, delta, 0.0) == Hedge(DeltaHedge, spot, optionPrice, delta, 0.0)
    ensures Hedge(DeltaHedge, spot, optionPrice, 0.0, 0.0) == 0.0
    ensures Hedge(DeltaGammaHedge, spot, optionPrice, 0.0, 0.0) == 0.0
    ensures Hedge(LocalHedge, spot, optionPrice, 0.0, 0.0) == 0.0
  {
  }

  /** The dynamic hedge is the delta-gamma hedge tilted by a tenth of the gap
      between option price and spot, so the two agree when that gap is zero. */
  lemma DynamicIsTiltedDeltaGamma(spot: real, optionPrice: real, delta: real, gamma: real)
    ensures Hedge(DynamicHedge, spot, optionPrice, delta, gamma)
         == Hedge(DeltaGammaHedge, spot, optionPrice, delta, gamma) + 0.1 * (optionPrice - spot)
    ensures Hedge(DynamicHedge, spot, spot, delta, gamma) == Hedge(DeltaGammaHedge, spot, spot, delta, gamma)
  {
  }
}
