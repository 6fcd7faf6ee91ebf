/** One-step volatility evaluators: constant, Heston, SABR, GARCH and jump-diffusion. */
module VolatilityModels {
  import opened Common
  import opened Context

  /** Coefficients captured at construction, in declaration order. */
  datatype VolatilityModel =
    | ConstantVol
    | Heston(kappa: real, theta: real, xi: real, rho: real, dt: real)
    | SABR(alpha: real, beta: real, rho: real, nu: real, dt: real)
    | GARCH(alpha0: real, alpha1: real, beta: real, dt: real)
    | JumpDiffusionVol(jumpMean: real, jumpVol: real, dt: real)

  /** ConstantVolatilityModel(params): reads no key, so it cannot fail. */
  function NewConstantVol(params: Store): (m: VolatilityModel)
    ensures m.ConstantVol?
  {
    ConstantVol
  }

  const HestonKeys: seq<string> := ["kappa_HM", "theta_HM", "xi_HM", "rho_HM", "dt"]
  const SABRKeys: seq<string> := ["alpha_SABRM", "beta_SABRM", "rho_SABRM", "nu_SABRM", "dt"]
  const GARCHKeys: seq<string> := ["alpha0_GARCHM", "alpha1_GARCHM", "beta_GARCHM", "dt"]
  const JumpDiffusionVolKeys: seq<string> := ["jumpMean_JDM", "jumpVol_JDM", "dt"]

  /** HestonModel(params): reads its five coefficients as doubles, in declaration order. */
  function NewHeston(params: Store): (r: Result<VolatilityModel>)
    ensures FailsLikeReads(params, HestonKeys, r)
    ensures r.Ok? ==> r.value == Heston(params["kappa_HM"].r, params["theta_HM"].r,
      params["xi_HM"].r, params["rho_HM"].r, params["dt"].r)
  {
    var c :- ReadReals(params, HestonKeys);
    Ok(Heston(c[0], c[1], c[2], c[3], c[4]))
  }

  /** SABRModel(params). */
  function NewSABR(params: Store): (r: Result<VolatilityModel>)
    ensures FailsLikeReads(params, SABRKeys, r)
    ensures r.Ok? ==> r.value == SABR(params["alpha_SABRM"].r, params["beta_SABRM"].r,
      params["rho_SABRM"].r, params["nu_SABRM"].r, params["dt"].r)
  {
    var c :- ReadReals(params, SABRKeys);
    Ok(SABR(c[0], c[1], c[2], c[3], c[4]))
  }

  /** GARCHModel(params). */
  function NewGARCH(params: Store): (r: Result<VolatilityModel>)
    ensures FailsLikeReads(params, GARCHKeys, r)
    ensures r.Ok? ==> r.value == GARCH(params["alpha0_GARCHM"].r, params["alpha1_GARCHM"].r,
      params["beta_GARCHM"].r, params["dt"].r)
  {
    var c :- ReadReals(params, GARCHKeys);
    Ok(GARCH(c[0], c[1], c[2], c[3]))
  }

  /** JumpDiffusionModel(params) (the volatility variant). */
  function NewJumpDiffusionVol(params: Store): (r: Result<VolatilityModel>)
    ensures FailsLikeReads(params, JumpDiffusionVolKeys, r)
    ensures r.Ok? ==> r.value == JumpDiffusionVol(params["jumpMean_JDM"].r,
      params["jumpVol_JDM"].r, params["dt"].r)
  {
    var c :- ReadReals(params, JumpDiffusionVolKeys);
    Ok(JumpDiffusionVol(c[0], c[1], c[2]))
  }

  /** The context keys getVolatility reads, in reading order. Heston reads its
      innovation under the key "dW_volatilit", which the simulator never sets. */
  function VolStepKeys(m: VolatilityModel): seq<string>
  {
    match m
    case ConstantVol => ["vt"]
    case Heston(_, _, _, _, _) => ["vt", "dW_volatilit"]
    case SABR(_, _, _, _, _) => ["dW_volatility"]
    case GARCH(_, _, _, _) => ["dW_volatility", "vt"]
    case JumpDiffusionVol(_, _, _) => ["vt", "dW_volatility"]
  }

  /** Euler step of the Heston variance: mean reversion plus xi*sqrt(vt)*dW. */
  function HestonStep(kappa: real, theta: real, xi: real, dt: real, vt: real, dW: real, mth: Math): real
  {
    vt + kappa * (theta - vt) * dt + xi * mth.sqrt(vt) * dW
  }

  /** SABR level: alpha * dt^beta * exp(nu*dW); the current vt plays no part. */
  function SABRStep(alpha: real, beta: real, nu: real, dt: real, dW: real, mth: Math): real
  {
    alpha * mth.pow(dt, beta) * mth.exp(nu * dW)
  }

  /** GARCH(1,1)-style level: sqrt(alpha0 + alpha1*dW^2 + beta*vt^2). */
  function GARCHStep(alpha0: real, alpha1: real, beta: real, dW: real, vt: real, mth: Math): real
  {
    mth.sqrt(alpha0 + alpha1 * (dW * dW) + beta * (vt * vt))
  }

  /** Jump-diffusion volatility: vt grown by (1 + jumpMean*dt) plus jumpVol*dW. */
  function JumpVolStep(jumpMean: real, jumpVol: real, dt: real, vt: real, dW: real): real
  {
    vt * (1.0 + jumpMean * dt) + jumpVol * dW
  }

  /** getVolatility(params): the next volatility from the context. */
  function GetVolatility(m: VolatilityModel, ctx: Store, mth: Math): (r: Result<real>)
    ensures FailsLikeReads(ctx, VolStepKeys(m), r)
  {
    var v :- ReadReals(ctx, VolStepKeys(m));
    match m
    case ConstantVol => Ok(v[0])
    case Heston(kappa, theta, xi, _, dt) => Ok(HestonStep(kappa, theta, xi, dt, v[0], v[1], mth))
    case SABR(alpha, beta, _, nu, dt) => Ok(SABRStep(alpha, beta, nu, dt, v[0], mth))
    case GARCH(alpha0, alpha1, beta, _) => Ok(GARCHStep(alpha0, alpha1, beta, v[0], v[1], mth))
    case JumpDiffusionVol(jumpMean, jumpVol, dt) => Ok(JumpVolStep(jumpMean, jumpVol, dt, v[0], v[1]))
  }

  /** getVolatility sees nothing of the context but the keys it reads. */
  lemma GetVolatilitySeesOnlyItsKeys(m: VolatilityModel, c1: Store, c2: Store, mth: Math)
    requires AgreeOn(c1, c2, VolStepKeys(m))
    ensures GetVolatility(m, c1, mth) == GetVolatility(m, c2, mth)
  {
    ReadRealsSeesOnlyItsKeys(c1, c2, VolStepKeys(m));
  }

  /** The constant model passes `vt` through unchanged. */
  lemma ConstantVolPassesThrough(ctx: Store, mth: Math)
    ensures GetVolatility(ConstantVol, ctx, mth) == GetReal(ctx, "vt")
    ensures HasReal(ctx, "vt") ==> GetVolatility(ConstantVol, ctx, mth) == Ok(ctx["vt"].r)
  {
  }

  /** Heston fails with "Key not found: dW_volatilit" whenever that key is absent,
      whatever else the context holds (in particular a valid "dW_volatility"). */
  lemma HestonNeedsMisspeltKey(kappa: real, theta: real, xi: real, rho: real, dt: real, ctx: Store, mth: Math)
    requires HasReal(ctx, "vt") && "dW_volatilit" !in ctx
    ensures GetVolatility(Heston(kappa, theta, xi, rho, dt), ctx, mth) == Err(KeyNotFound("dW_volatilit"))
  {
    var keys := VolStepKeys(Heston(kappa, theta, xi, rho, dt));
    assert !AllReal(ctx, keys) by { assert !HasReal(ctx, keys[1]); }
    var r := GetVolatility(Heston(kappa, theta, xi, rho, dt), ctx, mth);
    var i :| FirstFailureAt(ctx, keys, i) && GetReal(ctx, keys[i]) == Err(r.error);
    assert i == 1;
  }

  /** Without the diffusion term the Heston step is pure mean reversion: the
      distance to theta shrinks by the factor (1 - kappa*dt). */
  lemma HestonMeanReversion(kappa: real, theta: real, dt: real, vt: real, dW: real, mth: Math)
    ensures HestonStep(kappa, theta, 0.0, dt, vt, dW, mth) - theta == (vt - theta) * (1.0 - kappa * dt)
    ensures HestonStep(kappa, theta, 0.0, dt, theta, dW, mth) == theta
  {
  }

  /** rho_HM is read at construction but never used. */
  lemma HestonIgnoresRho(kappa: real, theta: real, xi: real, rho1: real, rho2: real, dt: real, ctx: Store, mth: Math)
    ensures GetVolatility(Heston(kappa, theta, xi, rho1, dt), ctx, mth)
         == GetVolatility(Heston(kappa, theta, xi, rho2, dt), ctx, mth)
  {
  }

  /** SABR's result does not depend on the current volatility. */
  lemma SABRIgnoresCurrentVol(alpha: real, beta: real, rho: real, nu: real, dt: real, ctx: Store, x: real, mth: Math)
    ensures GetVolatility(SABR(alpha, beta, rho, nu, dt), ctx[("vt") := RealValue(x)], mth)
         == GetVolatility(SABR(alpha, beta, rho, nu, dt), ctx, mth)
  {
    var m := SABR(alpha, beta, rho, nu, dt);
    var ctx' := ctx[("vt") := RealValue(x)];
    assert VolStepKeys(m)[0] == "dW_volatility";
    assert AllReal(ctx', VolStepKeys(m)) <==> AllReal(ctx, VolStepKeys(m));
    if AllReal(ctx, VolStepKeys(m)) {
      assert ReadReals(ctx', VolStepKeys(m)).value == ReadReals(ctx, VolStepKeys(m)).value;
    }
  }

  /** The SABR level has the sign of alpha * dt^beta, since exp is positive. */
  lemma SABRSign(alpha: real, beta: real, nu: real, dt: real, dW: real, mth: Math)
    requires ExpPositive(mth)
    ensures var s := alpha * mth.pow(dt, beta); var r := SABRStep(alpha, beta, nu, dt, dW, mth);
      (s > 0.0 ==> r > 0.0) && (s == 0.0 ==> r == 0.0) && (s < 0.0 ==> r < 0.0)
  {
    var s := alpha * mth.pow(dt, beta);
    var e := mth.exp(nu * dW);
    assert e > 0.0;
    if s > 0.0 { assert s * e > 0.0; }
    if s < 0.0 { assert (-s) * e > 0.0; }
  }

  /** GARCH depends on dW and vt only through their squares: flipping the sign of
      either leaves the result unchanged, and dt plays no part. */
  lemma GARCHEvenInBoth(alpha0: real, alpha1: real, beta: real, dW: real, vt: real, mth: Math)
    ensures GARCHStep(alpha0, alpha1, beta, -dW, vt, mth) == GARCHStep(alpha0, alpha1, beta, dW, vt, mth)
    ensures GARCHStep(alpha0, alpha1, beta, dW, -vt, mth) == GARCHStep(alpha0, alpha1, beta, dW, vt, mth)
  {
    assert (-dW) * (-dW) == dW * dW;
    assert (-vt) * (-vt) == vt * vt;
  }

  /** With no shock terms the GARCH level is sqrt(alpha0), and exactly zero when alpha0 is. */
  lemma GARCHAtRest(alpha0: real, alpha1: real, beta: real, mth: Math)
    requires SqrtExact(mth)
    ensures GARCHStep(alpha0, alpha1, beta, 0.0, 0.0, mth) == mth.sqrt(alpha0)
    ensures GARCHStep(0.0, alpha1, beta, 0.0, 0.0, mth) == 0.0
  {
  }

  /** Antithetic innovations d and -d average to the drift term vt*(1 + jumpMean*dt). */
  lemma JumpVolAntithetic(jumpMean: real, jumpVol: real, dt: real, vt: real, d: real)
    ensures JumpVolStep(jumpMean, jumpVol, dt, vt, d) + JumpVolStep(jumpMean, jumpVol, dt, vt, -d)
         == 2.0 * vt * (1.0 + jumpMean * dt)
  {
  }

  /** Nothing keeps the jump-diffusion volatility non-negative: a zero level with a
      negative shock yields a negative volatility. */
  lemma JumpVolCanBeNegative(mth: Math)
    ensures GetVolatility(JumpDiffusionVol(0.0, 1.0, 1.0),
      map["vt" := RealValue(0.0), "dW_volatility" := RealValue(-1.0)], mth) == Ok(-1.0)
  {
    var ctx := map["vt" := RealValue(0.0), "dW_volatility" := RealValue(-1.0)];
    assert AllReal(ctx, VolStepKeys(JumpDiffusionVol(0.0, 1.0, 1.0)));
  }
}
