/** One-step asset price evaluators: geometric Brownian motion and jump-diffusion. */
module AssetPriceModels {
  import opened Common
  import opened Context

  datatype AssetPriceModel =
    | GBM(dt: real)
    | JumpDiffusionPrice(dt: real, jumpMean: real, jumpVol: real, jumpIntensity: real, jumpSize: real)

  const GBMKeys: seq<string> := ["dt"]
  const JumpDiffusionPriceKeys: seq<string> :=
    ["dt", "jumpMean_JDPM", "jumpVol_JDPM", "jumpIntensity_JDPM", "jumpSize_JDPM"]

  /** GeometricBrownianMotionModel(params): reads dt only. */
  function NewGBM(params: Store): (r: Result<AssetPriceModel>)
    ensures FailsLikeReads(params, GBMKeys, r)
    ensures r.Ok? ==> r.value == GBM(params["dt"].r)
  {
    var c :- ReadReals(params, GBMKeys);
    Ok(GBM(c[0]))
  }

  /** JumpDiffusionPriceModel(params): reads dt and its four jump coefficients. */
  function NewJumpDiffusionPrice(params: Store): (r: Result<AssetPriceModel>)
    ensures FailsLikeReads(params, JumpDiffusionPriceKeys, r)
    ensures r.Ok? ==> r.value == JumpDiffusionPrice(params["dt"].r, params["jumpMean_JDPM"].r,
      params["jumpVol_JDPM"].r, params["jumpIntensity_JDPM"].r, params["jumpSize_JDPM"].r)
  {
    var c :- ReadReals(params, JumpDiffusionPriceKeys);
    Ok(JumpDiffusionPrice(c[0], c[1], c[2], c[3], c[4]))
  }

  /** The context keys simulatePrice reads, in reading order: the jump-diffusion
      model computes its jump factor (and so reads dW_spot) first. */
  function PriceStepKeys(m: AssetPriceModel): seq<string>
  {
    match m
    case GBM(_) => ["St", "rt", "vt", "dW_spot"]
    case JumpDiffusionPrice(_, _, _, _, _) => ["dW_spot", "St", "rt", "vt"]
  }

  /** Exact log-normal step: St * exp((rt - vt^2/2)*dt + vt*dW). */
  function GBMStep(dt: real, st: real, rt: real, vt: real, dW: real, mth: Math): real
  {
    st * mth.exp((rt - 0.5 * vt * vt) * dt + vt * dW)
  }

  /** The jump factor exp(jumpMean*jumpSize + jumpVol*sqrt(jumpSize)*dW). */
  function JumpFactor(jumpMean: real, jumpVol: real, jumpSize: real, dW: real, mth: Math): real
  {
    mth.exp(jumpMean * jumpSize + jumpVol * mth.sqrt(jumpSize) * dW)
  }

  /** The jump-diffusion step: the diffusion exponent adds vt itself (no dW), and
      the shock enters only through the jump factor. */
  function JumpPriceStep(dt: real, jumpMean: real, jumpVol: real, jumpSize: real,
                         st: real, rt: real, vt: real, dW: real, mth: Math): real
  {
    st * mth.exp((rt - 0.5 * vt * vt) * dt + vt) * JumpFactor(jumpMean, jumpVol, jumpSize, dW, mth)
  }

  /** simulatePrice(params): the next price from the context. */
  function SimulatePrice(m: AssetPriceModel, ctx: Store, mth: Math): (r: Result<real>)
    ensures FailsLikeReads(ctx, PriceStepKeys(m), r)
  {
    var v :- ReadReals(ctx, PriceStepKeys(m));
    match m
    case GBM(dt) => Ok(GBMStep(dt, v[0], v[1], v[2], v[3], mth))
    case JumpDiffusionPrice(dt, jumpMean, jumpVol, _, jumpSize) =>
      Ok(JumpPriceStep(dt, jumpMean, jumpVol, jumpSize, v[1], v[2], v[3], v[0], mth))
  }

  /** simulatePrice sees nothing of the context but the keys it reads. */
  lemma SimulatePriceSeesOnlyItsKeys(m: AssetPriceModel, c1: Store, c2: Store, mth: Math)
    requires AgreeOn(c1, c2, PriceStepKeys(m))
    ensures SimulatePrice(m, c1, mth) == SimulatePrice(m, c2, mth)
  {
    ReadRealsSeesOnlyItsKeys(c1, c2, PriceStepKeys(m));
  }

  /** A GBM step multiplies the price by a positive factor: the sign is kept and zero is absorbing. */
  lemma GBMKeepsSign(dt: real, st: real, rt: real, vt: real, dW: real, mth: Math)
    requires ExpPositive(mth)
    ensures var r := GBMStep(dt, st, rt, vt, dW, mth);
      (st > 0.0 ==> r > 0.0) && (st == 0.0 ==> r == 0.0) && (st < 0.0 ==> r < 0.0)
  {
    var f := mth.exp((rt - 0.5 * vt * vt) * dt + vt * dW);
    assert f > 0.0;
    if st > 0.0 { assert st * f > 0.0; }
    if st < 0.0 { assert (-st) * f > 0.0; }
  }

  /** The jump-diffusion step is the GBM step taken with a unit diffusion shock,
      times the jump factor, which is where the drawn dW_spot goes. */
  lemma JumpPriceIsGBMWithUnitShock(dt: real, jumpMean: real, jumpVol: real, jumpSize: real,
                                    st: real, rt: real, vt: real, dW: real, mth: Math)
    ensures JumpPriceStep(dt, jumpMean, jumpVol, jumpSize, st, rt, vt, dW, mth)
         == GBMStep(dt, st, rt, vt, 1.0, mth) * JumpFactor(jumpMean, jumpVol, jumpSize, dW, mth)
  {
    assert vt * 1.0 == vt;
  }

  /** The jump-diffusion step also keeps the sign of the price. */
  lemma JumpPriceKeepsSign(dt: real, jumpMean: real, jumpVol: real, jumpSize: real,
                           st: real, rt: real, vt: real, dW: real, mth: Math)
    requires ExpPositive(mth)
    ensures var r := JumpPriceStep(dt, jumpMean, jumpVol, jumpSize, st, rt, vt, dW, mth);
      (st > 0.0 ==> r > 0.0) && (st == 0.0 ==> r == 0.0) && (st < 0.0 ==> r < 0.0)
  {
    JumpPriceIsGBMWithUnitShock(dt, jumpMean, jumpVol, jumpSize, st, rt, vt, dW, mth);
    GBMKeepsSign(dt, st, rt, vt, 1.0, mth);
    var g := GBMStep(dt, st, rt, vt, 1.0, mth);
    var j := JumpFactor(jumpMean, jumpVol, jumpSize, dW, mth);
    assert j > 0.0;
    if g > 0.0 { assert g * j > 0.0; }
    if g < 0.0 { assert (-g) * j > 0.0; }
  }

  /** jumpIntensity_JDPM must be present at construction but never affects a step. */
  lemma JumpIntensityUnused(dt: real, jumpMean: real, jumpVol: real, i1: real, i2: real, jumpSize: real,
                            ctx: Store, mth: Math)
    ensures SimulatePrice(JumpDiffusionPrice(dt, jumpMean, jumpVol, i1, jumpSize), ctx, mth)
         == SimulatePrice(JumpDiffusionPrice(dt, jumpMean, jumpVol, i2, jumpSize), ctx, mth)
  {
  }

  /** The jump-diffusion step reads dW_spot before anything else: without it the
      step fails on that key even when St is missing too. */
  lemma JumpPriceReadsShockFirst(m: AssetPriceModel, ctx: Store, mth: Math)
    requires m.JumpDiffusionPrice? && "dW_spot" !in ctx
    ensures SimulatePrice(m, ctx, mth) == Err(KeyNotFound("dW_spot"))
  {
    var keys := PriceStepKeys(m);
    assert !HasReal(ctx, keys[0]);
    var r := SimulatePrice(m, ctx, mth);
    var i :| FirstFailureAt(ctx, keys, i) && GetReal(ctx, keys[i]) == Err(r.error);
    assert i == 0;
  }
}
