/** The composition root: the four model components and the transaction cost,
    bound once at construction and never changed. */
module PricingModels {
  import opened RateModels
  import opened VolatilityModels
  import opened AssetPriceModels
  import opened Payoffs
  import opened TransactionCosts

  /** Immutable: the source has no mutator (update is declared, never defined). */
  datatype PricingModel = PricingModel(
    rateModel: RateModel,
    volModel: VolatilityModel,
    assetModel: AssetPriceModel,
    transactionCost: TransactionCost,
    payoff: Payoff)
  {
    function GetPayoff(): Payoff { payoff }
    function GetRateModel(): RateModel { rateModel }
    function GetVolatilityModel(): VolatilityModel { volModel }
    function GetAssetPriceModel(): AssetPriceModel { assetModel }
    function GetTransactionCost(): TransactionCost { transactionCost }
  }

  /** PricingModel(rateModel, volModel, assetModel, payoff, transactionCost): binds
      the components as given, reading no parameter and validating nothing. */
  function NewPricingModel(rate: RateModel, vol: VolatilityModel, asset: AssetPriceModel,
                           payoff: Payoff, cost: TransactionCost): (m: PricingModel)
    ensures m.GetRateModel() == rate && m.GetVolatilityModel() == vol
    ensures m.GetAssetPriceModel() == asset && m.GetPayoff() == payoff
    ensures m.GetTransactionCost() == cost
  {
    PricingModel(rate, vol, asset, cost, payoff)
  }

  /** The constructor with the transaction cost left out: it defaults to zero cost. */
  function NewPricingModelWithDefaultCost(rate: RateModel, vol: VolatilityModel,
                                          asset: AssetPriceModel, payoff: Payoff): (m: PricingModel)
    ensures m == NewPricingModel(rate, vol, asset, payoff, ZeroCost)
    ensures forall size :: GetCost(m.GetTransactionCost(), size) == 0.0
  {
    NewPricingModel(rate, vol, asset, payoff, ZeroCost)
  }

  /** Two models built from the same components are the same model, and a model is
      rebuilt exactly from what its accessors return. */
  lemma AccessorsRebuildModel(m: PricingModel)
    ensures NewPricingModel(m.GetRateModel(), m.GetVolatilityModel(), m.GetAssetPriceModel(),
                            m.GetPayoff(), m.GetTransactionCost()) == m
  {
  }
}
