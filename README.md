# Monte Carlo option pricer: a Dafny model of the deterministic core

This project models the core of a C++ Monte Carlo option pricer and proves properties of
that model. The model follows the program as written, quirks included.

The pricer prices a payoff on simulated paths of an asset price, a short rate and a
volatility. It runs rounds of eight simulators. Each simulator fills three 200-row path
matrices, and the pricer applies the payoff, discounts it, and appends the result to that
simulator's own chain. It stops when the Gelman-Rubin statistic over the eight chains is
within tolerance of 1, or when the sample budget is spent. It then reports the pooled mean
and a symmetric confidence interval.

Modules, one per source component:

- `Common`: the error type that stands for the C++ exceptions, and `Result`/`Option`.
  - The transcendental functions are a `Math` record of plain functions: `exp`, `sqrt`,
    `pow` and the normal quantile.
  - Two predicates state what the proofs assume of them. `ExpPositive` says exp is
    positive. `SqrtExact` says sqrt(0) = 0 and sqrt is positive on positive arguments.
  - It also holds the double-to-int truncation.
- `Context`: `Parameters`, a string-keyed store of typed values.
  - The store is a `map` field of a class; `Set` reassigns it.
  - `get<T>` fails with `KeyNotFound` or `TypeMismatch`; `contains` tests membership.
- `RateModels`, `VolatilityModels`, `AssetPriceModels`: the one-step evaluators.
  - Each has a constructor function that reads its coefficients from the context and
    fails on the first missing one.
  - Each has an evaluation function that reads its keys from the context in source order.
- `PathSpec` and `PathProperties`: what `generate_paths` computes, as functions, and
  lemmas about it.
  - Innovations are antithetic.
  - Column 0 is seeded from the context.
  - Every cell is computed through ONE shared, mutated context. So the price step of
    column c + 1 sees row 199's rate and volatility from column c - 1.
- `Simulation`: the `MonteCarloSimulator` class.
  - It owns a copy of the parameters and three `array2<real>` matrices.
  - Its `GeneratePaths` method fills the matrices column by column, row by row, with
    loops. It is proved equal to the `PathSpec` functions.
- `Payoffs`: the European call and put, Asian and lookback payoffs, and the barrier
  payoff.
  - The barrier payoff filters the selected rows into a smaller matrix and scatters the
    inner payoffs back by mask. Both are array loops.
- `PricingModels`: the composition root, an immutable record of the bound components.
- `ModelRegistry`: the required-key registry, a class over a `map` field.
- `ExecutionStyles`, `BoundaryConditions`, `TransactionCosts`, `HedgeStrategies`,
  `DividendYields`: the small strategy objects.
- `Pricing`: the statistics, the Gelman-Rubin test, the discounting, and `calculatePrice`.
  - `CalculatePrice` is a `while` loop over rounds. It is proved equal to `PriceSpec`.
    `PriceSpec` is built from `LoopFrom`, which the loop lemmas describe.

The random draws enter as parameters. `Draw` holds three functions from (row, step) to a
standard normal. The pricer takes `draws(round, worker)`. The eight threads of a round run
as a sequential loop in worker order.

The model follows the code as written, including these behaviours:

- src/Pricing.cpp:105-106 discounts a rate matrix whose entries are not all equal by
  exp(+rowsum * dt), not exp(-rowsum * dt). The row sum covers every column, column 0
  included (`UnevenMatrixDiscount`, `FlatBranchesOppositeSign`).
  - When every entry equals entry (0, 0), src/Pricing.cpp:102-103 uses the horizon
    (numSteps + 1) * dt.
- src/MonteCarloSimulator.cpp:83-107 computes every cell through one shared, mutated
  context. The price step therefore reads the rate and volatility that earlier passes
  left there (`NextColumnReadsRtVt`, `GeneratePriceCell`).
- src/Pricing.cpp:162 returns only the mean; the interval is only printed. `Outcome`
  keeps the interval so that properties of it can be stated.
- src/Pricing.cpp:57 takes the sample count n from `chains[0]` alone, and the model does
  the same.
- src/Pricing.cpp:153 calls get_z_value after the loop. The boost quantile throws for a
  confidence level outside (-1, 1), even when the loop has finished
  (`ZValueDefinedIff`, `LevelOutsideThrows`).
- The counter grows by 1600 per round and the loop re-reads maxSimulations on each test
  (`LoopFromCount`).

## Model

| member | source | states |
|---|---|---|
| Context.Lookup | include/Parameters.hpp:45-56 | get<T> succeeds only on a present key stored with exactly type T, and then returns the stored value; a failure is KeyNotFound or TypeMismatch for that key |
| Context.ReadReals | include/Parameters.hpp:45-56 | a run of get<double> calls succeeds iff every key holds a double, with the values in order; otherwise it fails with the error of the first failing key |
| Context.ReadRealsSeesOnlyItsKeys | include/Parameters.hpp:50-52 | two stores that agree on the keys read give the same result |
| Context.GetRealSucceeds | include/Parameters.hpp:50-55 | get<double> succeeds iff the key holds a double, returns that double, and fails with KeyNotFound when the key is absent |
| Context.LookupAfterSet | include/Parameters.hpp:41-56 | after set(k, v), get with v's type returns v |
| Context.SetOverwritesOnlyItsKey | include/Parameters.hpp:41-43 | set overwrites k and leaves every other key's lookup unchanged; the key set grows by k only |
| Context.LookupMissing | include/Parameters.hpp:53-55 | an absent key throws "Key not found: <key>" for every requested type; there is no default |
| Context.LookupWrongType | include/Parameters.hpp:52 | get with a type other than the stored one fails and never converts |
| Context.ContainsIffSomeGetSucceeds | src/Parameters.cpp:19-21 | contains(k) iff get(k) succeeds for some type; then it succeeds for the stored type; otherwise every get throws KeyNotFound |
| Context.Parameters.constructor | src/Parameters.cpp:17 | a new store is empty |
| Context.Parameters.Copy | include/Parameters.hpp:35 | the copy holds the same entries |
| Context.Parameters.Set | include/Parameters.hpp:41-43 | the new map is the old one with key set to value |
| Context.Parameters.Get | include/Parameters.hpp:45-56 | get<T> on the object's map: succeeds iff the key is present with type T, returning the stored value; KeyNotFound when absent, TypeMismatch when stored with another type |
| Context.Parameters.Contains | src/Parameters.cpp:19-21 | true iff some get succeeds; false implies every get throws KeyNotFound |
| Context.FreshStoreIsEmpty | src/Parameters.cpp:17-21 | a freshly constructed store contains no key |
| Context.CopyIsIndependent | include/Parameters.hpp:35 | setting a key in a copy leaves the original unchanged |
| Context.SetThenGet | include/Parameters.hpp:41-56 | after set(k, v), contains(k) holds, get returns v, and membership of other keys is unchanged |
| Common.Max0 | src/Payoff.cpp:26 | max(x, 0) is non-negative, at least x, and equal to x or 0 |
| Common.Truncate | src/MonteCarloSimulator.cpp:38 | the double-to-int conversion truncates toward zero |
| RateModels.NewConstantRate | src/RateModel.cpp:29 | construction reads no key and cannot fail |
| RateModels.NewHullWhite | src/RateModel.cpp:42-43 | construction reads a_HWM, sigma_HWM and dt in that order, fails on the first missing one, and otherwise binds the three values |
| RateModels.GetRate | src/RateModel.cpp:31-47 | getRate fails exactly when one of its keys (rt; rt and dW_rate for Hull-White) is missing, with the first such key's error |
| RateModels.GetRateSeesOnlyItsKeys | src/RateModel.cpp:31-47 | getRate depends on the context only through the keys it reads |
| RateModels.ConstantRatePassesThrough | src/RateModel.cpp:31-33 | the constant model returns rt unchanged and throws when rt is absent |
| RateModels.HullWhiteKeepsSign | src/RateModel.cpp:45-47 | Hull-White maps rt = 0 to 0 and keeps the sign of rt |
| VolatilityModels.NewConstantVol | src/VolatilityModel.cpp:30 | construction reads no key and cannot fail |
| VolatilityModels.NewHeston | src/VolatilityModel.cpp:37-38 | construction reads kappa_HM, theta_HM, xi_HM, rho_HM and dt in order and fails on the first missing one |
| VolatilityModels.NewSABR | src/VolatilityModel.cpp:46-47 | construction reads alpha_SABRM, beta_SABRM, rho_SABRM, nu_SABRM and dt in order |
| VolatilityModels.NewGARCH | src/VolatilityModel.cpp:54-55 | construction reads alpha0_GARCHM, alpha1_GARCHM, beta_GARCHM and dt in order |
| VolatilityModels.NewJumpDiffusionVol | src/VolatilityModel.cpp:63-64 | construction reads jumpMean_JDM, jumpVol_JDM and dt in order |
| VolatilityModels.GetVolatility | src/VolatilityModel.cpp:32-68 | getVolatility fails exactly when one of its keys is missing, with the first such key's error; Heston's keys include the misspelt "dW_volatilit" |
| VolatilityModels.GetVolatilitySeesOnlyItsKeys | src/VolatilityModel.cpp:32-68 | getVolatility depends on the context only through the keys it reads |
| VolatilityModels.ConstantVolPassesThrough | src/VolatilityModel.cpp:32-34 | the constant model returns vt unchanged |
| VolatilityModels.HestonNeedsMisspeltKey | src/VolatilityModel.cpp:41 | with "dW_volatilit" absent, Heston throws Key not found for it, whatever else the context holds |
| VolatilityModels.HestonMeanReversion | src/VolatilityModel.cpp:41 | with xi = 0 the distance to theta shrinks by the factor 1 - kappa*dt, and theta is a fixed point |
| VolatilityModels.HestonIgnoresRho | src/VolatilityModel.cpp:37-42 | rho_HM never affects the result |
| VolatilityModels.SABRIgnoresCurrentVol | src/VolatilityModel.cpp:49-51 | the SABR result does not depend on vt |
| VolatilityModels.SABRSign | src/VolatilityModel.cpp:50 | the SABR result has the sign of alpha * dt^beta |
| VolatilityModels.GARCHEvenInBoth | src/VolatilityModel.cpp:57-60 | negating dW or vt leaves the GARCH result unchanged |
| VolatilityModels.GARCHAtRest | src/VolatilityModel.cpp:58 | with dW = vt = 0 the result is sqrt(alpha0), and 0 when alpha0 = 0 |
| VolatilityModels.JumpVolAntithetic | src/VolatilityModel.cpp:66-68 | an antithetic pair of shocks sums to 2*vt*(1 + jumpMean*dt) |
| VolatilityModels.JumpVolCanBeNegative | src/VolatilityModel.cpp:67 | nothing clamps the result: a concrete context gives -1 |
| AssetPriceModels.NewGBM | src/AssetPriceModel.cpp:17 | construction reads only dt |
| AssetPriceModels.NewJumpDiffusionPrice | src/AssetPriceModel.cpp:26 | construction reads dt, jumpMean_JDPM, jumpVol_JDPM, jumpIntensity_JDPM and jumpSize_JDPM in order |
| AssetPriceModels.SimulatePrice | src/AssetPriceModel.cpp:20-31 | simulatePrice fails exactly when one of St, rt, vt, dW_spot is missing, with the first such key's error in reading order |
| AssetPriceModels.SimulatePriceSeesOnlyItsKeys | src/AssetPriceModel.cpp:20-31 | simulatePrice depends on the context only through those keys |
| AssetPriceModels.GBMKeepsSign | src/AssetPriceModel.cpp:21 | the GBM step maps 0 to 0 and keeps the sign of St |
| AssetPriceModels.JumpPriceIsGBMWithUnitShock | src/AssetPriceModel.cpp:29-30 | the jump-diffusion step is the GBM step with the diffusion shock replaced by 1 (vt itself is added), times the jump factor, which is where dW_spot enters |
| AssetPriceModels.JumpPriceKeepsSign | src/AssetPriceModel.cpp:28-31 | the jump-diffusion step maps 0 to 0 and keeps the sign of St |
| AssetPriceModels.JumpIntensityUnused | src/AssetPriceModel.cpp:28-31 | jumpIntensity_JDPM never affects a step |
| AssetPriceModels.JumpPriceReadsShockFirst | src/AssetPriceModel.cpp:29-30 | the jump-diffusion step reads dW_spot first and throws for it when it is absent |
| PricingModels.NewPricingModel | src/PricingModel.cpp:30-47 | each accessor returns exactly the component bound at construction |
| PricingModels.NewPricingModelWithDefaultCost | src/PricingModel.cpp:35 | the out-of-line definition's default transaction cost is the zero cost, which is 0 for every size |
| PricingModels.AccessorsRebuildModel | src/PricingModel.cpp:49-71 | a model is rebuilt exactly from what its accessors return |
| PathSpec.AntitheticInnovations | src/MonteCarloSimulator.cpp:52-66 | innovation row r + 100 is the exact negation of row r, and every entry is the draw scaled by sqrt(dt) |
| PathSpec.Generate | src/MonteCarloSimulator.cpp:51-109 | on success there are three matrices of numSteps + 1 columns of 200 rows |
| PathProperties.RowContextOverwrites | src/MonteCarloSimulator.cpp:84-85 | a row's two writes leave no trace of the previous row's |
| PathProperties.RowContextKeeps | src/MonteCarloSimulator.cpp:84-85 | a row's writes change only the factor's value and shock keys |
| PathProperties.PassFromCells | src/MonteCarloSimulator.cpp:83-87 | a pass succeeds iff every row's step does; each cell is its own row's step; the context left behind is the last row's |
| PathProperties.PassFromFailure | src/MonteCarloSimulator.cpp:83-87 | a failing pass throws the error of its first failing row |
| PathProperties.NextColumnCells | src/MonteCarloSimulator.cpp:77-108 | a new column keeps the earlier ones; its cells are the three passes in order, price, rate, then volatility, through one context |
| PathProperties.NextColumnPrefix | src/MonteCarloSimulator.cpp:77-108 | a new column leaves every earlier column unchanged |
| PathProperties.ModelStepsReadOnly | src/MonteCarloSimulator.cpp:83-107 | every asset and rate model reads only its own factor's keys; every volatility model but Heston does too |
| PathProperties.ModelStepsNeedKeys | src/AssetPriceModel.cpp:21-30 | every asset model needs rt and vt; Heston needs "dW_volatilit" |
| PathProperties.NextColumnRates | src/MonteCarloSimulator.cpp:89-97 | rate cell (r, c+1) is the rate model applied to row r's own previous rate and innovation |
| PathProperties.NextColumnVols | src/MonteCarloSimulator.cpp:99-107 | volatility cell (r, c+1) is the model applied to row r's own previous volatility and innovation |
| PathProperties.NextColumnReadsRtVt | src/MonteCarloSimulator.cpp:83-87 | a column succeeds only if the context before it holds rt and vt |
| PathProperties.NextColumnPrices | src/MonteCarloSimulator.cpp:79-87 | price cell (r, c+1) uses row r's own price and innovation, but the same rt and vt for every row: those the context held before the column |
| PathProperties.NextColumnHestonKey | src/MonteCarloSimulator.cpp:103-107 | a volatility step needing "dW_volatilit" succeeds only if the context already held it, since no pass writes it |
| PathProperties.NextColumnContext | src/MonteCarloSimulator.cpp:93-107 | after a column, rt and vt hold row 199's previous rate and volatility |
| PathProperties.NextColumnKeepsUnwritten | src/MonteCarloSimulator.cpp:77-108 | a column leaves every key the simulator does not write as it was |
| PathProperties.ColumnsFromPrefix | src/MonteCarloSimulator.cpp:77-108 | later columns never change earlier ones |
| PathProperties.ColumnsFromRates | src/MonteCarloSimulator.cpp:89-97 | every later rate cell is the rate step on its own row's previous rate and innovation |
| PathProperties.ColumnsFromVols | src/MonteCarloSimulator.cpp:99-107 | every later volatility cell is the volatility step on its own row's previous value and innovation |
| PathProperties.ColumnsFromPrices | src/MonteCarloSimulator.cpp:77-108 | every later price cell uses the rt and vt last written to the shared context: the initial ones first, then row 199's rate and volatility two columns back |
| PathProperties.ColumnsFromKeepsUnwritten | src/MonteCarloSimulator.cpp:77-108 | keys the simulator does not write keep their values |
| PathProperties.GenerateReadsSeedKeys | src/MonteCarloSimulator.cpp:52-70 | generation reads dt, spot, rate and volatility in that order and throws for the first missing one |
| PathProperties.GenerateSeedsColumnZero | src/MonteCarloSimulator.cpp:68-74 | column 0 holds spot, rate and volatility in every row |
| PathProperties.NoStepsOnlyColumnZero | src/MonteCarloSimulator.cpp:77 | with numSteps = 0 generation succeeds iff the seed keys are doubles, and yields column 0 only |
| PathProperties.GenerateRateCell | src/MonteCarloSimulator.cpp:89-97 | rate cell (r, j+1) is the rate model on row r's own rate at column j and its own innovation |
| PathProperties.GenerateVolCell | src/MonteCarloSimulator.cpp:99-107 | the same for volatility, for every model but Heston |
| PathProperties.GeneratePriceCell | src/MonteCarloSimulator.cpp:68-107 | price cell (r, j+1) uses the initial rate and volatility at j = 0, and row 199's rate and volatility at column j - 1 after that |
| PathProperties.ConstantRateFlat | src/RateModel.cpp:31-33 | under the constant rate model every rate-matrix entry is the initial rate |
| PathProperties.HestonNeedsCallerKey | src/VolatilityModel.cpp:41 | with Heston and at least one step, generation succeeds only if the caller's context holds "dW_volatilit", and fails when it is absent |
| PathProperties.GenerateKeepsUnwritten | src/MonteCarloSimulator.cpp:51-109 | generation leaves every key other than the six it writes as the caller had it |
| Simulation.MonteCarloSimulator.Init | src/MonteCarloSimulator.cpp:37-42 | the constructor copies the parameters and allocates three fresh 200 x (n+1) matrices |
| Simulation.MonteCarloSimulator.Create | src/MonteCarloSimulator.cpp:37-42 | construction fails iff numSteps is not a double; otherwise the matrices are 200 x (trunc(numSteps)+1) and the caller's parameters are only copied |
| Simulation.MonteCarloSimulator.RunPass | src/MonteCarloSimulator.cpp:83-87 | the row loop of one pass equals PathSpec.Pass: the same cells, context and error; other columns are untouched |
| Simulation.MonteCarloSimulator.RunColumn | src/MonteCarloSimulator.cpp:77-108 | one loop iteration equals PathSpec.NextColumn on the matrices and the context |
| Simulation.MonteCarloSimulator.FillFirstColumn | src/MonteCarloSimulator.cpp:72-74 | column 0 of each matrix is set to the seed value |
| Simulation.MonteCarloSimulator.GeneratePaths | src/MonteCarloSimulator.cpp:51-109 | the method succeeds iff PathSpec.Generate does, with the same error, and leaves exactly its matrices and context; the three getters then return Generate's matrices row by row |
| Simulation.MonteCarloSimulator.PricePathsOf | src/MonteCarloSimulator.cpp:111-113 | get_price_paths returns the price matrix itself: same row count, column count and entries |
| Simulation.MonteCarloSimulator.RatePathsOf | src/MonteCarloSimulator.cpp:115-117 | get_rate_paths returns the rate matrix itself: same row count, column count and entries |
| Simulation.MonteCarloSimulator.VolatilityPathsOf | src/MonteCarloSimulator.cpp:119-121 | get_volatility_paths returns the volatility matrix itself: same row count, column count and entries |
| Payoffs.RowMax | src/Payoff.cpp:157 | the row maximum is an entry of the row that no entry exceeds |
| Payoffs.RowMin | src/Payoff.cpp:77 | the row minimum is an entry of the row that no entry undercuts |
| Payoffs.CallPayoff | src/Payoff.cpp:24-28 | fails iff strike is not a double; otherwise one value per row, max(last - strike, 0) |
| Payoffs.PutPayoff | src/Payoff.cpp:37-41 | the same with max(strike - last, 0) |
| Payoffs.AsianPayoff | src/Payoff.cpp:142-147 | the same with max(mean of the whole row, column 0 included, - strike, 0) |
| Payoffs.LookbackPayoff | src/Payoff.cpp:156-160 | the same with max(row maximum - strike, 0) |
| Payoffs.CallPutParity | src/Payoff.cpp:24-41 | row by row, call - put = last - strike |
| Payoffs.LookbackDominatesCall | src/Payoff.cpp:156-160 | the lookback payoff is at least the call payoff on every row |
| Payoffs.AsianAtMostLookback | src/Payoff.cpp:142-160 | the Asian payoff is at most the lookback payoff on every row |
| Payoffs.FlatPathPayoffsAgree | src/Payoff.cpp:142-160 | on a constant row the Asian, lookback and call payoffs agree |
| Payoffs.VanillaByName | src/Payoff.cpp:63-70 | only the two European names are accepted; any other name throws Unknown payoff type |
| Payoffs.Name | src/Payoff.cpp:30-45 | each getName string belongs to exactly one payoff kind: "BarrierPayoff" to the barrier, and likewise for the other four |
| Payoffs.NameIdentifiesPayoff | src/Payoff.cpp:64-70 | two payoffs share a name iff they are equal; only the two European names resolve as a barrier's inner payoff, and "BarrierPayoff" gives the unknown-payoff error |
| Payoffs.VanillaNameRoundTrip | src/Payoff.cpp:30-44 | looking up a European payoff by its getName gives it back |
| Payoffs.Filter | src/Payoff.cpp:94-101 | the filtered matrix has one row per selected path |
| Payoffs.FilterAt | src/Payoff.cpp:96-101 | selected row j sits at the number of rows selected before it |
| Payoffs.FilterRows | src/Payoff.cpp:93-101 | the filtering loop yields exactly the selected rows, in order |
| Payoffs.ScatterPayoffs | src/Payoff.cpp:111-118 | a selected row takes the next inner payoff in turn, every other row takes 0 |
| Payoffs.BarrierPayoff | src/Payoff.cpp:54-121 | the filter-then-scatter method equals BarrierSpec |
| Payoffs.ScatterIsRowwise | src/Payoff.cpp:104-118 | scattering gives each selected row its own inner payoff and 0 elsewhere |
| Payoffs.BarrierRow | src/Payoff.cpp:54-121 | row i of the barrier payoff is the inner payoff of row i when the mask selects it, and 0 otherwise |
| Payoffs.UpInPlusUpOutIsVanilla | src/Payoff.cpp:82-87 | up-and-in plus up-and-out equals the inner vanilla payoff on every row |
| Payoffs.DownInPlusDownOutIsVanilla | src/Payoff.cpp:84-89 | down-and-in plus down-and-out equals the inner vanilla payoff on every row |
| Payoffs.DownOutWithUpOutTestsMaximum | src/Payoff.cpp:74-87 | with both isDownOut and isUpOut set, the breach test is the up test, and a row is kept iff its maximum stays below the barrier |
| Payoffs.UpFlagsSelectByMaximum | src/Payoff.cpp:74-90 | flags are taken in the order UpIn, DownOut, UpOut, DownIn; up breach is max >= barrier, down breach is min <= barrier |
| Payoffs.BarrierUnknownInner | src/Payoff.cpp:55-70 | any inner name other than the two European ones throws "Unknown payoff type" |
| Payoffs.BarrierNoSelectionNeedsNoStrike | src/Payoff.cpp:104-108 | with no row selected the result is all zeros and strike is never read |
| Payoffs.BarrierNonNegative | src/Payoff.cpp:104-118 | the barrier output has one non-negative entry per row |
| Payoffs.PayoffSpecNonNegative | src/Payoff.cpp:24-160 | every payoff kind that succeeds gives one non-negative value per row |
| Payoffs.ApplyPayoff | src/Pricing.cpp:98 | applying the bound payoff equals PayoffSpec, with one non-negative value per row |
| ModelRegistry.MissingIsExactlyTheAbsentKeys | src/ModelParams.cpp:55-62 | a key is reported iff it is required and absent |
| ModelRegistry.MissingEmptyIffAllPresent | src/ModelParams.cpp:55-62 | the report is empty iff every required key is present, and it is never longer than the list |
| ModelRegistry.ModelParams.constructor | src/ModelParams.cpp:15-17 | the constructor leaves the nine-entry registry |
| ModelRegistry.ModelParams.Initialize | src/ModelParams.cpp:19-32 | initialize writes the nine entries over the existing map |
| ModelRegistry.ModelParams.GetAvailableModels | src/ModelParams.cpp:34-40 | every registered name exactly once, in no particular order |
| ModelRegistry.ModelParams.GetModelParams | src/ModelParams.cpp:42-48 | the stored list, or "Model not found: <name>" |
| ModelRegistry.ModelParams.CheckParams | src/ModelParams.cpp:50-63 | an unknown name throws; otherwise the result is the required keys absent from params, in registry order, and params is not changed |
| ModelRegistry.RegistryHasNineModels | src/ModelParams.cpp:19-32 | the registry holds exactly nine names |
| ModelRegistry.RegistryCoversConstructors | src/ModelParams.cpp:23-31 | for every entry but the jump-diffusion price model, an empty report means the constructor finds all its keys |
| ModelRegistry.JumpDiffusionPriceRegistryGap | src/ModelParams.cpp:26 | a store with only the listed jump-diffusion price keys passes the check |
| ModelRegistry.JumpDiffusionPriceThrowsOnListedOnly | src/AssetPriceModel.cpp:26 | yet the constructor then throws for jumpIntensity_JDPM |
| ModelRegistry.CheckUnknownModel | src/ModelParams.cpp:50-54 | checking an unregistered name throws Model not found |
| ExecutionStyles.CanExercise | src/ExecutionStyle.cpp:12-26 | only the Bermudan style ever allows exercise after maturity; European iff time == maturity, American iff time <= maturity, Bermudan iff time is a stored date |
| ExecutionStyles.EuropeanOnlyAtMaturity | src/ExecutionStyle.cpp:12-14 | European exercise is allowed iff time == maturity |
| ExecutionStyles.AmericanUpToMaturity | src/ExecutionStyle.cpp:17-19 | American exercise is allowed iff time <= maturity, with no lower bound |
| ExecutionStyles.EuropeanImpliesAmerican | src/ExecutionStyle.cpp:12-19 | European allowed implies American allowed |
| ExecutionStyles.BermudanAtStoredDates | src/ExecutionStyle.cpp:22-26 | Bermudan exercise is allowed iff time is a stored date, whatever the maturity; never with no dates |
| BoundaryConditions.ApplyCondition | src/BoundaryConditions.cpp:15-22 | the result is non-negative and the identity on non-negative prices; a negative price reflects to -price or is absorbed to 0 |
| BoundaryConditions.ConditionIdempotent | src/BoundaryConditions.cpp:15-22 | both conditions are idempotent |
| BoundaryConditions.ReflectiveSymmetric | src/BoundaryConditions.cpp:15-17 | reflection gives the same result for price and -price |
| BoundaryConditions.AbsorptiveAtMostReflective | src/BoundaryConditions.cpp:15-22 | absorption never gives more than reflection |
| TransactionCosts.GetCost | src/TransactionCost.cpp:13-22 | zero cost is 0 and a fixed cost is the constructed cost |
| TransactionCosts.CostIndependentOfSize | src/TransactionCost.cpp:13-22 | any two sizes cost the same |
| TransactionCosts.FixedCostEdgeCases | src/TransactionCost.cpp:13-22 | a fixed cost of 0 agrees with zero cost; a negative cost is returned unchanged |
| HedgeStrategies.Hedge | src/HedgeStrategy.cpp:29-47 | the delta hedge is -delta*S; with gamma = 0 every hedge but the dynamic one is -delta*S; the dynamic hedge at optionPrice = S is the delta-gamma position |
| HedgeStrategies.DeltaHedgeIgnoresOptionAndGamma | src/HedgeStrategy.cpp:29-31 | the delta hedge is -delta*S, independent of the option price and gamma |
| HedgeStrategies.GammaCorrections | src/HedgeStrategy.cpp:29-41 | delta-gamma adds -gamma*S^2/2 to the delta hedge; local adds -gamma*S^2 |
| HedgeStrategies.ZeroGammaAgreement | src/HedgeStrategy.cpp:29-41 | with gamma = 0 the three hedges coincide; with delta = 0 as well they are 0 |
| HedgeStrategies.DynamicIsTiltedDeltaGamma | src/HedgeStrategy.cpp:34-47 | dynamic = delta-gamma + 0.1*(optionPrice - S), so they agree when optionPrice = S |
| DividendYields.GetYield | src/DividendYield.cpp:14-18 | getYield returns the constructed yield for every time |
| DividendYields.YieldConstantInTime | src/DividendYield.cpp:16-18 | calls at two times agree, and a negative yield is returned unchanged |
| Pricing.Quantile | src/Pricing.cpp:36-39 | the normal quantile succeeds iff 0 < p < 1; p outside [0, 1] is a domain error, p = 0 or 1 an overflow error |
| Pricing.ZValueDefinedIff | src/Pricing.cpp:36-39 | get_z_value succeeds iff -1 < level < 1, giving the quantile at (1 + level)/2; a level of 1 or -1 overflows, one beyond them is a domain error |
| Pricing.UpperTail | src/Pricing.cpp:38 | the quantile is taken at p with 1 - p = (1 - level)/2, so level = 2p - 1, and a level in [0, 1] gives p in [1/2, 1] |
| Pricing.MeanOfConstant | src/Pricing.cpp:26-28 | the mean of a constant vector is that constant |
| Pricing.StdevNonNegative | src/Pricing.cpp:30-34 | with an exact sqrt the standard deviation is never negative |
| Pricing.StdevOfConstant | src/Pricing.cpp:26-34 | a constant vector has mean equal to the constant and standard deviation 0 |
| Pricing.ChainMeans | src/Pricing.cpp:62-65 | entry i is the mean of chain i |
| Pricing.ChainStdevs | src/Pricing.cpp:62-65 | entry i is the standard deviation of chain i about its mean (a deviation, not a variance) |
| Pricing.CalculateGelmanRubin | src/Pricing.cpp:55-77 | the loop filling the means and deviations, then B, W, V-hat and R-hat, equals GelmanRubin; W = 0 gives no finite R-hat |
| Pricing.IsConverged | src/Pricing.cpp:41-45 | the result is |R-hat - 1| < tolerance, never true for a non-finite R-hat |
| Pricing.WithinAndBetweenNonNegative | src/Pricing.cpp:67-70 | W and B are never negative |
| Pricing.EqualMeansNoBetween | src/Pricing.cpp:67-72 | equal chain means give B = 0 and V-hat/W = (n - 1)/n, with n the length of chain 0 |
| Pricing.EqualMeansConvergence | src/Pricing.cpp:67-74 | with equal chain means the test passes iff W != 0 and |sqrt((n-1)/n) - 1| < tolerance |
| Pricing.ConstantMatrixDiscount | src/Pricing.cpp:101-103 | a rate matrix holding v everywhere gives every row the factor exp(-v * cols * dt) |
| Pricing.UnevenMatrixDiscount | src/Pricing.cpp:104-106 | a rate matrix with any entry off (0, 0) gives row r exp(sum of row r * dt), the sum not negated |
| Pricing.Discounted | src/Pricing.cpp:109 | payoffs are multiplied element-wise by the factors |
| Pricing.DiscountFactorsPositive | src/Pricing.cpp:100-107 | with a positive exp every factor is positive |
| Pricing.DiscountedNonNegative | src/Pricing.cpp:109 | non-negative payoffs stay non-negative under positive factors |
| Pricing.FlatBranchesOppositeSign | src/Pricing.cpp:101-106 | on a flat matrix the second branch's exponent is the exact negation of the first's |
| Pricing.WorkerSpec | src/Pricing.cpp:92-110 | a successful worker returns one value per path |
| Pricing.RunWorker | src/Pricing.cpp:92-110 | the thread body (copy, simulate, pay off, discount) equals WorkerSpec |
| Pricing.ConstantRateDiscount | src/Pricing.cpp:101-103 | under the constant rate model the first branch fires: every row gets exp(-rate * (numSteps+1) * dt) with the caller's rate |
| Pricing.WorkerNonNegative | src/Pricing.cpp:98-109 | with a positive exp every discounted payoff a worker returns is non-negative |
| Pricing.RoundFromSucceeds | src/Pricing.cpp:91-116 | a round succeeds iff every worker does, and then result i is worker i's values |
| Pricing.RoundFromFirstError | src/Pricing.cpp:91-116 | a failing round reports the error of its first failing worker |
| Pricing.RunRound | src/Pricing.cpp:87-116 | the eight workers, run in order, equal RoundSpec |
| Pricing.AppendRound | src/Pricing.cpp:126-129 | chain i becomes chain i followed by payoffs[i] |
| Pricing.RunLoop | src/Pricing.cpp:86-137 | the while loop, re-reading maxSimulations before each round, equals LoopFrom from eight empty chains and a zero counter |
| Pricing.LoopFrom | src/Pricing.cpp:86-137 | a loop that succeeds ends with eight chains of one length and a counter equal to their total |
| Pricing.LoopStep | src/Pricing.cpp:86-136 | below the cap one pass appends 200 samples per chain, keeps the old chains as prefixes, adds 1600, and stops iff converged |
| Pricing.LoopFromCount | src/Pricing.cpp:86-136 | the loop fails unless maxSimulations is an int; at the cap it returns the chains unchanged; below it the final counter exceeds the starting one and stays under the cap plus one round |
| Pricing.LoopFromWholeRounds | src/Pricing.cpp:131 | the counter moves by whole rounds of 1600 |
| Pricing.LoopFromKeepsPrefix | src/Pricing.cpp:126-129 | every chain the loop returns extends the chain it started from |
| Pricing.LoopFromStops | src/Pricing.cpp:86-136 | the loop stops only at the cap or on convergence |
| Pricing.OneRoundBudget | src/Pricing.cpp:86-136 | with 0 < maxSimulations <= 1600 exactly one round runs: its error, or its samples with counter 1600, converged or not |
| Pricing.NoBudgetNoSamples | src/Pricing.cpp:86 | with maxSimulations <= 0 no round runs and nothing is sampled; the result is the no-sample outcome, or get_z_value's error for a level outside (-1, 1) |
| Pricing.CounterMatchesSamples | src/Pricing.cpp:131 | the counter equals the total pooled sample count, eight times each chain's length |
| Pricing.NoChains | src/Pricing.cpp:80-81 | the loop starts from eight empty chains and counter 0 |
| Pricing.FlattenLength | src/Pricing.cpp:145-148 | pooling chains of one length L gives 8L samples |
| Pricing.FlattenConstant | src/Pricing.cpp:145-148 | pooling chains of one value gives that value everywhere |
| Pricing.Summarize | src/Pricing.cpp:145-158 | fails iff the confidence level is outside (-1, 1), with get_z_value's error, whether or not there are samples; on success, no samples iff the counter is 0, and otherwise the interval is symmetric about the mean |
| Pricing.HalfWidthNonNegative | src/Pricing.cpp:154 | z >= 0 gives a non-negative half-width |
| Pricing.SummaryBrackets | src/Pricing.cpp:150-158 | with z >= 0 the mean lies inside its interval whenever a summary is returned |
| Pricing.SummaryOfConstant | src/Pricing.cpp:150-158 | for a level in (-1, 1), payoffs all equal to c give the price c with an interval of width 0 |
| Pricing.CalculatePrice | src/Pricing.cpp:79-163 | the while loop equals PriceSpec: reading the level and tolerance, the round loop from empty chains, then the summary; a result means the level was a double strictly between -1 and 1 |
| Pricing.LevelOutsideThrows | src/Pricing.cpp:36-39 | once the level, the tolerance and the rounds were read without error, calculatePrice succeeds iff the level lies in (-1, 1), and otherwise throws the quantile's error at (1 + level)/2 |
| Pricing.RoundFromCongruent | src/Pricing.cpp:91-116 | a round depends on its workers only through their results |
| Pricing.LoopFromCongruent | src/Pricing.cpp:86-137 | the loop depends on its rounds only through their results |
| Pricing.WorkerCostFree | src/Pricing.cpp:92-110 | a worker's result does not depend on the transaction cost |
| Pricing.CostIrrelevant | src/Pricing.cpp:79-163 | the transaction cost never affects calculatePrice's result or error |

## Left out

- Random number generation (src/MonteCarloSimulator.cpp:44-49): the static mt19937 is hidden, nondeterministic state. The three 100 x numSteps blocks of standard normals are parameters (`Draw`).
- Threads (src/Pricing.cpp:87-116): the eight workers run as a sequential loop in index order. Each writes only its own payoff slot, from a private copy of the parameters.
  - The threads share one generator with no lock. The statics `rd`, `gen` and `dis` live in `get_random_number` (src/MonteCarloSimulator.cpp:44-49), which every thread calls through generate_paths. Their concurrent `dis(gen)` calls are a data race, which is undefined behaviour in C++. Which normals each worker gets depends on scheduling.
  - `draws(round, i)` stands for whatever part of the stream worker i received in that round. The proofs hold for every choice of it. The race itself is not modelled.
  - An exception in a std::thread terminates the program. The model reports the first failing worker's error instead.
- Transcendental functions: exp, sqrt, pow and the normal quantile are uninterpreted fields of `Math`.
  - The quantile's exceptions are modelled: `Quantile` throws outside (0, 1) as boost's default policy does. Only its value inside (0, 1) is uninterpreted.
  - The proofs assume only `ExpPositive` and `SqrtExact`, where they say so.
  - The model makes no accuracy, floating-point rounding, NaN or infinity claims. An R-hat whose division by W = 0 would be infinite or NaN is `None`, and it never converges.
- Pricing.SummaryBrackets: states the bracket under the hypothesis z >= 0, because the quantile is uninterpreted.
- GARCH's pow(x, 2) is modelled as x * x.
- Console output (src/Pricing.cpp:43, 134, 140, 159-160) and src/main.cpp are left out.
  - The re-read of maxSimulations at src/Pricing.cpp:139 only chooses whether to print, so it is not modelled.
- Commented-out code is left out: src/SensitivityAnalysis.cpp and the Greeks at src/PricingModel.cpp:77-162.
- Declared but undefined members are left out: updateWithRandomness, run_simulation and PricingModel::update.
- Pricing.StdevOfConstant: only the direction "constant vector ⇒ deviation 0" is proved. The converse is not.
- calculate_stdev of fewer than two values divides by zero. The model requires at least two, which every call site meets: chains have 200 or more samples.
- An empty pool (maxSimulations <= 0) makes the source take the mean of an empty vector. That is undefined, because Eigen requires a non-empty vector. The model returns `NoSamples`.
- Only the mean is returned by the source. `Outcome` also carries the interval, which the source only prints.
- The `int` sample counter is unbounded in the model. Overflow past 2^31 - 1 is not modelled.
- A numSteps that truncates below 0 fails in the source. For -1 the constructor's resize to 200 x 0 succeeds (src/MonteCarloSimulator.cpp:39-41), and the failure comes in generate_paths, at `NullaryExpr(100, -1)` (src/MonteCarloSimulator.cpp:53). Any value that truncates below -1 already fails in the constructor's resize. A numSteps in (-1, 0) truncates to 0 and runs normally, and the model accepts it. `NumStepsNonNegative` is a precondition; src/main.cpp:140 sets numSteps to 25.
- Payoffs.BarrierPayoff: with no direction flag set, the source leaves its mask uninitialised (undefined behaviour). `BarrierFlagsSet` is a precondition.
- The row order of std::transform (src/MonteCarloSimulator.cpp:83, 93, 103) is not guaranteed by the C++ standard. The lambdas write the shared parameters, so the order matters. The model applies them to rows 0 to 199 in order, as the usual implementation does. The results that row 199's values carry into the next pass (`NextColumnReadsRtVt`, `NextColumnContext`, `GeneratePriceCell` and the `ColumnsFrom` lemmas) depend on this order.
- PathProperties.GenerateVolCell: states the cell for every volatility model except Heston. Heston reads "dW_volatilit" (src/VolatilityModel.cpp:41), which the simulator never writes. When the caller supplies it, every Heston cell uses that one caller value as its shock. The model states only that generation fails without the key (`HestonNeedsCallerKey`), not the cell values when the key is present.
- Operand evaluation order within one C++ expression is unspecified. When several keys are missing, the model reports the first one left to right.
- The `ratePaths.size() > 1` test at src/Pricing.cpp:101 always holds for a 200-row matrix. The model does not state it.
- C++ reference lifetimes in `PricingModel` (include/PricingModel.hpp:44-51) are not modelled. The components are values.
- PricingModels.NewPricingModelWithDefaultCost: models the default argument as written at src/PricingModel.cpp:35. Two limits are not modelled. The header declaration (include/PricingModel.hpp:24-30) has no default, so only code in src/PricingModel.cpp could rely on it. The default `ZeroTransactionCost()` is a temporary bound to the reference member `transactionCost_` (include/PricingModel.hpp:48), so it dangles once the constructor returns. The pricer never reads the cost, so the price is unaffected.
- Eigen and std::any mechanics: matrices are `seq<seq<real>>` or `array2<real>`; stored values are a tagged union.
