/** Short-rate one-step evaluators (ConstantRateModel, HullWhiteModel). */
module RateModels {
  import opened Common
  import opened Context

  /** Coefficients are captured at construction; the model is stateless afterwards. */
  datatype RateModel = ConstantRate | HullWhite(a: real, sigma: real, dt: real)

  /** ConstantRateModel(params): reads no key, so it cannot fail. */
  function NewConstantRate(params: Store): (m: RateModel)
    ensures m.ConstantRate?
  {
    ConstantRate
  }

  /** The keys the HullWhiteModel constructor reads, in declaration order. */
  const HullWhiteKeys: seq<string> := ["a_HWM", "sigma_HWM", "dt"]

  /** HullWhiteModel(params): reads a_HWM, sigma_HWM and dt as doubles. */
  function NewHullWhite(params: Store): (r: Result<RateModel>)
    ensures FailsLikeReads(params, HullWhiteKeys, r)
    ensures r.Ok? ==> r.value == HullWhite(params["a_HWM"].r, params["sigma_HWM"].r, params["dt"].r)
  {
    var c :- ReadReals(params, HullWhiteKeys);
    Ok(HullWhite(c[0], c[1], c[2]))
  }

  /** The context keys getRate reads, in the order it reads them. */
  function RateStepKeys(m: RateModel): seq<string>
  {
    match m
    case ConstantRate => ["rt"]
    case HullWhite(_, _, _) => ["rt", "dW_rate"]
  }

  /** getRate(params): the next short rate from the context's current `rt`. */
  function GetRate(m: RateModel, ctx: Store, mth: Math): (r: Result<real>)
    ensures FailsLikeReads(ctx, RateStepKeys(m), r)
  {
    var v :- ReadReals(ctx, RateStepKeys(m));
    match m
    case ConstantRate => Ok(v[0])
    case HullWhite(a, sigma, dt) => Ok(HullWhiteStep(a, sigma, dt, v[0], v[1], mth))
  }

  /** One Hull-White step: the rate is scaled by exp(-a*dt + sigma*dW_rate). */
  function HullWhiteStep(a: real, sigma: real, dt: real, rt: real, dW: real, mth: Math): real
  {
    rt * mth.exp(-a * dt + sigma * dW)
  }

  /** getRate sees nothing of the context but the keys it reads. */
  lemma GetRateSeesOnlyItsKeys(m: RateModel, c1: Store, c2: Store, mth: Math)
    requires AgreeOn(c1, c2, RateStepKeys(m))
    ensures GetRate(m, c1, mth) == GetRate(m, c2, mth)
  {
    ReadRealsSeesOnlyItsKeys(c1, c2, RateStepKeys(m));
  }

  /** The constant model passes `rt` through unchanged. */
  lemma ConstantRatePassesThrough(ctx: Store, mth: Math)
    ensures GetRate(ConstantRate, ctx, mth) == GetReal(ctx, "rt")
    ensures HasReal(ctx, "rt") ==> GetRate(ConstantRate, ctx, mth) == Ok(ctx["rt"].r)
    ensures "rt" !in ctx ==> GetRate(ConstantRate, ctx, mth) == Err(KeyNotFound("rt"))
  {
  }

  /** Hull-White multiplies rt by a positive factor: zero stays zero and the sign is kept. */
  lemma HullWhiteKeepsSign(a: real, sigma: real, dt: real, ctx: Store, mth: Math)
    requires ExpPositive(mth) && GetRate(HullWhite(a, sigma, dt), ctx, mth).Ok?
    ensures var rt := ctx["rt"].r; var r := GetRate(HullWhite(a, sigma, dt), ctx, mth).value;
      (rt == 0.0 ==> r == 0.0) && (rt > 0.0 ==> r > 0.0) && (rt < 0.0 ==> r < 0.0)
  {
    var keys := RateStepKeys(HullWhite(a, sigma, dt));
    var v := ReadReals(ctx, keys).value;
    assert v[0] == ctx["rt"].r && v[1] == ctx["dW_rate"].r;
    var f := mth.exp(-a * dt + sigma * v[1]);
    assert f > 0.0;
    var rt := v[0];
    if rt > 0.0 { assert rt * f > 0.0; }
    if rt < 0.0 { assert (-rt) * f > 0.0; }
  }
}
