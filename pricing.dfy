/** Pricing: the sample statistics, the Gelman-Rubin convergence test, and
    calculatePrice, which runs rounds of eight simulators, appends each one's
    discounted payoffs to its own chain, and stops when the chains agree or the
    simulation budget is spent. */
module Pricing {
  import opened Common
  import opened Context
  import opened Payoffs
  import opened PricingModels
  import opened RateModels
  import opened PathSpec
  import opened PathProperties
  import opened Simulation
  import opened TransactionCosts

  /** Simulators per round, one chain each. */
  const Workers: nat := 8
  /** Samples a round adds to the counter: eight simulators of Rows paths. */
  const RoundSamples: nat := 1600

  /* ---------------------------------------------------------------------------
     calculate_mean, calculate_stdev, get_z_value
     ------------------------------------------------------------------------- */

  /** The squared norm of xs - m, accumulated from the front. */
  function SquaredDeviation(xs: seq<real>, m: real): real
  {
    if xs == [] then 0.0
    else SquaredDeviation(xs[..|xs| - 1], m) + (xs[|xs| - 1] - m) * (xs[|xs| - 1] - m)
  }

  /** calculate_stdev: the square root of the squared deviation from `m` over n - 1. */
  function Stdev(xs: seq<real>, m: real, mth: Math): real
    requires |xs| >= 2
  {
    mth.sqrt(SquaredDeviation(xs, m) / ((|xs| - 1) as real))
  }

  /** boost::math::quantile of the standard normal under the default error
      policy: a probability outside [0, 1] raises domain_error, and 0 or 1, whose
      quantile is infinite, raises overflow_error. */
  function Quantile(p: real, mth: Math): (z: Result<real>)
    ensures z.Ok? <==> 0.0 < p < 1.0
    ensures z.Ok? ==> z.value == mth.normalQuantile(p)
    ensures (p < 0.0 || p > 1.0) ==> z == Err(QuantileDomain(p))
    ensures (p == 0.0 || p == 1.0) ==> z == Err(QuantileOverflow(p))
  {
    if p < 0.0 || p > 1.0 then Err(QuantileDomain(p))
    else if p == 0.0 || p == 1.0 then Err(QuantileOverflow(p))
    else Ok(mth.normalQuantile(p))
  }

  /** get_z_value: the standard normal quantile at the upper end of a two-sided
      interval of level `level`, which throws unless the level lies strictly
      between -1 and 1. */
  function ZValue(level: real, mth: Math): Result<real>
  {
    Quantile(UpperTail(level), mth)
  }

  /** get_z_value succeeds exactly for a level in (-1, 1); a level of 1 or -1
      overflows, and any level beyond them is outside the quantile's domain. */
  lemma ZValueDefinedIff(level: real, mth: Math)
    ensures ZValue(level, mth).Ok? <==> -1.0 < level < 1.0
    ensures ZValue(level, mth).Ok? ==> ZValue(level, mth).value == mth.normalQuantile((1.0 + level) / 2.0)
    ensures (level == 1.0 || level == -1.0) ==> ZValue(level, mth).Err? && ZValue(level, mth).error.QuantileOverflow?
    ensures (level > 1.0 || level < -1.0) ==> ZValue(level, mth).Err? && ZValue(level, mth).error.QuantileDomain?
  {
  }

  /** The probability get_z_value passes to the quantile: it leaves half of
      1 - level in the upper tail, so the interval of level `level` is recovered
      as 2p - 1, and a level in [0, 1] gives a point in [1/2, 1]. */
  function UpperTail(level: real): (p: real)
    ensures 1.0 - p == (1.0 - level) / 2.0
    ensures level == 2.0 * p - 1.0
    ensures 0.0 <= level <= 1.0 ==> 0.5 <= p <= 1.0
  {
    1.0 - (1.0 - level) / 2.0
  }

  lemma {:induction false} SumNonNegative(xs: seq<real>)
    requires forall i :: 0 <= i < |xs| ==> xs[i] >= 0.0
    ensures Sum(xs) >= 0.0
    decreases |xs|
  {
    if xs != [] {
      var init := xs[..|xs| - 1];
      assert forall i :: 0 <= i < |init| ==> init[i] == xs[i];
      SumNonNegative(init);
    }
  }

  /** The mean of a vector whose entries all equal c is c. */
  lemma MeanOfConstant(xs: seq<real>, c: real)
    requires |xs| > 0 && forall i :: 0 <= i < |xs| ==> xs[i] == c
    ensures Mean(xs) == c
  {
    SumOfConstant(xs, c);
  }

  lemma {:induction false} SquaredDeviationNonNegative(xs: seq<real>, m: real)
    ensures SquaredDeviation(xs, m) >= 0.0
    decreases |xs|
  {
    if xs != [] {
      var d := xs[|xs| - 1] - m;
      SquaredDeviationNonNegative(xs[..|xs| - 1], m);
      assert d * d >= 0.0 by {
        if d < 0.0 {
          assert d * d == (-d) * (-d);
        }
      }
    }
  }

  /** Entries all equal to m deviate from m by nothing. */
  lemma {:induction false} SquaredDeviationOfConstant(xs: seq<real>, m: real)
    requires forall i :: 0 <= i < |xs| ==> xs[i] == m
    ensures SquaredDeviation(xs, m) == 0.0
    decreases |xs|
  {
    if xs != [] {
      var init := xs[..|xs| - 1];
      assert forall i :: 0 <= i < |init| ==> init[i] == xs[i];
      SquaredDeviationOfConstant(init, m);
    }
  }

  /** With an exact sqrt, calculate_stdev is never negative. */
  lemma StdevNonNegative(xs: seq<real>, m: real, mth: Math)
    requires |xs| >= 2 && SqrtExact(mth)
    ensures Stdev(xs, m, mth) >= 0.0
  {
    SquaredDeviationNonNegative(xs, m);
    var v := SquaredDeviation(xs, m) / ((|xs| - 1) as real);
    if v != 0.0 {
      assert v > 0.0;
    }
  }

  /** With an exact sqrt, equal values have a standard deviation of zero about
      their mean. */
  lemma StdevOfConstant(xs: seq<real>, mth: Math)
    requires |xs| >= 2 && SqrtExact(mth)
    requires forall i :: 0 <= i < |xs| ==> xs[i] == xs[0]
    ensures Mean(xs) == xs[0]
    ensures Stdev(xs, Mean(xs), mth) == 0.0
  {
    MeanOfConstant(xs, xs[0]);
    SquaredDeviationOfConstant(xs, xs[0]);
  }

  /* ---------------------------------------------------------------------------
     calculate_gelman_rubin, is_converged
     ------------------------------------------------------------------------- */

  /** At least two chains, each of at least two samples. */
  predicate ChainsReady(chains: seq<seq<real>>)
  {
    |chains| >= 2 && forall i :: 0 <= i < |chains| ==> |chains[i]| >= 2
  }

  /** The per-chain means. */
  function ChainMeans(chains: seq<seq<real>>): (ms: seq<real>)
    requires ChainsReady(chains)
    ensures |ms| == |chains| && forall i :: 0 <= i < |chains| ==> ms[i] == Mean(chains[i])
  {
    seq(|chains|, i requires 0 <= i < |chains| => Mean(chains[i]))
  }

  /** The per-chain standard deviations (the source's `variances` vector holds these). */
  function ChainStdevs(chains: seq<seq<real>>, mth: Math): (ds: seq<real>)
    requires ChainsReady(chains)
    ensures |ds| == |chains|
    ensures forall i :: 0 <= i < |chains| ==> ds[i] == Stdev(chains[i], Mean(chains[i]), mth)
  {
    seq(|chains|, i requires 0 <= i < |chains| => Stdev(chains[i], Mean(chains[i]), mth))
  }

  /** The sample count every chain is taken to have: the first chain's length. */
  function SampleCount(chains: seq<seq<real>>): real
    requires ChainsReady(chains)
  {
    |chains[0]| as real
  }

  /** B for n samples per chain and chain means ms: n times the squared spread
      of the means about their mean, over C - 1. */
  function SpreadOfMeans(n: real, ms: seq<real>): real
    requires |ms| >= 2
  {
    n * SquaredDeviation(ms, Mean(ms)) / ((|ms| - 1) as real)
  }

  /** B of the chains. */
  function Between(chains: seq<seq<real>>): real
    requires ChainsReady(chains)
  {
    SpreadOfMeans(SampleCount(chains), ChainMeans(chains))
  }

  /** W: the mean of the per-chain standard deviations. */
  function Within(chains: seq<seq<real>>, mth: Math): real
    requires ChainsReady(chains)
  {
    Mean(ChainStdevs(chains, mth))
  }

  /** V-hat for n samples per chain: ((n - 1) W + B) / n. */
  function Pooled(n: real, w: real, b: real): real
    requires n != 0.0
  {
    ((n - 1.0) * w + b) / n
  }

  /** V of the chains. */
  function PooledVariance(chains: seq<seq<real>>, mth: Math): real
    requires ChainsReady(chains)
  {
    Pooled(SampleCount(chains), Within(chains, mth), Between(chains))
  }

  /** R-hat = sqrt(V / W); None stands for the IEEE infinity or NaN the division
      yields when W is zero. */
  function GelmanRubin(chains: seq<seq<real>>, mth: Math): Option<real>
    requires ChainsReady(chains)
  {
    var w := Within(chains, mth);
    if w == 0.0 then None else Some(mth.sqrt(PooledVariance(chains, mth) / w))
  }

  /** is_converged: |R-hat - 1| < tolerance; an infinite or NaN R-hat never is. */
  predicate Converged(chains: seq<seq<real>>, tol: real, mth: Math)
  {
    && ChainsReady(chains)
    && match GelmanRubin(chains, mth)
       case None => false
       case Some(rhat) => Abs(rhat - 1.0) < tol
  }

  /** calculate_gelman_rubin: fills the means and standard deviations chain by
      chain, then combines them. */
  method CalculateGelmanRubin(chains: seq<seq<real>>, mth: Math) returns (r: Option<real>)
    requires ChainsReady(chains)
    ensures r == GelmanRubin(chains, mth)
  {
    var k := |chains|;
    var n := |chains[0]|;
    ghost var ms := ChainMeans(chains);
    ghost var ds := ChainStdevs(chains, mth);
    var means := new real[k];
    var stdevs := new real[k];
    for i := 0 to k
      invariant forall j :: 0 <= j < i ==> means[j] == ms[j] && stdevs[j] == ds[j]
    {
      means[i] := Mean(chains[i]);
      stdevs[i] := Stdev(chains[i], means[i], mth);
    }
    assert means[..] == ms;
    assert stdevs[..] == ds;
    var b := SpreadOfMeans(n as real, means[..]);
    var w := Mean(stdevs[..]);
    var v := Pooled(n as real, w, b);
    if w == 0.0 {
      r := None;
    } else {
      r := Some(mth.sqrt(v / w));
    }
  }

  /** is_converged. */
  method IsConverged(chains: seq<seq<real>>, tol: real, mth: Math) returns (b: bool)
    requires ChainsReady(chains)
    ensures b == Converged(chains, tol, mth)
  {
    var rhat := CalculateGelmanRubin(chains, mth);
    b := rhat.Some? && Abs(rhat.value - 1.0) < tol;
  }

  /** With an exact sqrt, W and B are never negative. */
  lemma WithinAndBetweenNonNegative(chains: seq<seq<real>>, mth: Math)
    requires ChainsReady(chains) && SqrtExact(mth)
    ensures Within(chains, mth) >= 0.0 && Between(chains) >= 0.0
  {
    var ds := ChainStdevs(chains, mth);
    forall i | 0 <= i < |ds| ensures ds[i] >= 0.0 {
      StdevNonNegative(chains[i], Mean(chains[i]), mth);
    }
    SumNonNegative(ds);
    var ms := ChainMeans(chains);
    SquaredDeviationNonNegative(ms, Mean(ms));
    var p := SampleCount(chains) * SquaredDeviation(ms, Mean(ms));
    assert p >= 0.0;
  }

  /** When every chain has the same mean, B vanishes and V / W is (n - 1) / n. */
  lemma EqualMeansNoBetween(chains: seq<seq<real>>, mth: Math)
    requires ChainsReady(chains)
    requires forall i :: 0 <= i < |chains| ==> Mean(chains[i]) == Mean(chains[0])
    ensures Between(chains) == 0.0
    ensures Within(chains, mth) != 0.0 ==>
      PooledVariance(chains, mth) / Within(chains, mth) == (SampleCount(chains) - 1.0) / SampleCount(chains)
  {
    var ms := ChainMeans(chains);
    MeanOfConstant(ms, Mean(chains[0]));
    SquaredDeviationOfConstant(ms, Mean(chains[0]));
    var n := SampleCount(chains);
    var w := Within(chains, mth);
    if w != 0.0 {
      var v := PooledVariance(chains, mth);
      assert v == (n - 1.0) * w / n;
      assert v / w == (n - 1.0) / n;
    }
  }

  /** With equal chain means the test only compares sqrt((n - 1) / n) with 1: it
      passes exactly when W is non-zero and that gap is below the tolerance. */
  lemma EqualMeansConvergence(chains: seq<seq<real>>, tol: real, mth: Math)
    requires ChainsReady(chains)
    requires forall i :: 0 <= i < |chains| ==> Mean(chains[i]) == Mean(chains[0])
    ensures Converged(chains, tol, mth) <==>
      Within(chains, mth) != 0.0
      && Abs(mth.sqrt((SampleCount(chains) - 1.0) / SampleCount(chains)) - 1.0) < tol
  {
    EqualMeansNoBetween(chains, mth);
  }


  /* ---------------------------------------------------------------------------
     One worker thread: simulate, pay off, discount
     ------------------------------------------------------------------------- */

  /** Every entry of the rate matrix equals its (0, 0) entry. */
  predicate FlatRates(rates: seq<seq<real>>)
    requires |rates| > 0 && |rates[0]| > 0
  {
    forall r, c :: 0 <= r < |rates| && 0 <= c < |rates[r]| ==> rates[r][c] == rates[0][0]
  }

  /** A Rows x cols matrix with at least one column. */
  predicate RateShape(rates: seq<seq<real>>, cols: nat)
  {
    |rates| == Rows && cols >= 1 && forall r :: 0 <= r < Rows ==> |rates[r]| == cols
  }

  /** The factor a flat rate gives: exp(-rate * cols * dt). */
  function FlatFactor(rate: real, cols: nat, dt: real, mth: Math): real
  {
    mth.exp(-rate * (cols as real) * dt)
  }

  /** The factor the second branch gives a row: exp(dt * sum of the row), with the
      accumulated rate left un-negated. */
  function RowFactor(row: seq<real>, dt: real, mth: Math): real
  {
    mth.exp(Sum(row) * dt)
  }

  /** The discount factors: a flat rate matrix gives exp(-rate * cols * dt) on every
      row; otherwise row r gets exp(dt * (sum of row r)), without a minus sign. */
  function DiscountFactors(rates: seq<seq<real>>, cols: nat, dt: real, mth: Math): (d: seq<real>)
    requires RateShape(rates, cols)
    ensures |d| == Rows
  {
    if FlatRates(rates) then seq(Rows, _ => FlatFactor(rates[0][0], cols, dt, mth))
    else seq(Rows, r requires 0 <= r < Rows => RowFactor(rates[r], dt, mth))
  }

  /** A matrix holding the same rate v everywhere is flat, and every row gets the
      factor exp(-v * cols * dt). */
  lemma ConstantMatrixDiscount(rates: seq<seq<real>>, cols: nat, dt: real, mth: Math, v: real)
    requires RateShape(rates, cols)
    requires forall r, c :: 0 <= r < Rows && 0 <= c < cols ==> rates[r][c] == v
    ensures forall r :: 0 <= r < Rows ==> DiscountFactors(rates, cols, dt, mth)[r] == FlatFactor(v, cols, dt, mth)
  {
    assert rates[0][0] == v;
    assert FlatRates(rates);
  }

  /** A matrix with any entry off its (0, 0) entry takes the second branch: every
      row gets its own RowFactor, from its own rates alone. */
  lemma UnevenMatrixDiscount(rates: seq<seq<real>>, cols: nat, dt: real, mth: Math, r0: nat, c0: nat)
    requires RateShape(rates, cols)
    requires r0 < Rows && c0 < cols && rates[r0][c0] != rates[0][0]
    ensures forall r :: 0 <= r < Rows ==> DiscountFactors(rates, cols, dt, mth)[r] == RowFactor(rates[r], dt, mth)
  {
    assert !FlatRates(rates);
  }

  /** The element-wise product of payoffs and factors. */
  function Discounted(pay: seq<real>, d: seq<real>): (v: seq<real>)
    requires |pay| == |d|
    ensures |v| == |pay| && forall i :: 0 <= i < |pay| ==> v[i] == pay[i] * d[i]
  {
    seq(|pay|, i requires 0 <= i < |pay| => pay[i] * d[i])
  }

  /** With a positive exp every discount factor is positive. */
  lemma DiscountFactorsPositive(rates: seq<seq<real>>, cols: nat, dt: real, mth: Math)
    requires RateShape(rates, cols) && ExpPositive(mth)
    ensures forall r :: 0 <= r < Rows ==> DiscountFactors(rates, cols, dt, mth)[r] > 0.0
  {
  }

  /** Non-negative payoffs stay non-negative under positive discount factors. */
  lemma DiscountedNonNegative(pay: seq<real>, d: seq<real>)
    requires |pay| == |d|
    requires forall i :: 0 <= i < |pay| ==> pay[i] >= 0.0 && d[i] > 0.0
    ensures forall i :: 0 <= i < |pay| ==> Discounted(pay, d)[i] >= 0.0
  {
    forall i | 0 <= i < |pay| ensures pay[i] * d[i] >= 0.0 {
      if pay[i] > 0.0 {
        assert pay[i] * d[i] > 0.0;
      }
    }
  }

  /** The two branches disagree in sign: on a flat matrix the row-sum formula of
      the second branch would raise exp to rate * cols * dt, the exact opposite of
      the exponent the first branch uses. */
  lemma FlatBranchesOppositeSign(rates: seq<seq<real>>, cols: nat, dt: real, r: nat)
    requires RateShape(rates, cols) && FlatRates(rates) && r < Rows
    ensures Sum(rates[r]) * dt == -(-rates[0][0] * (cols as real) * dt)
  {
    SumOfConstant(rates[r], rates[0][0]);
  }

  /** What one thread computes: a simulator over a copy of the caller's parameters,
      its paths, the payoff on the price paths, then the discount from the rate
      paths and the caller's dt (which cannot be missing here: generate_paths has
      already read it). */
  function WorkerSpec(pm: PricingModel, ctx: Store, draw: Draw, mth: Math): (r: Result<seq<real>>)
    requires NumStepsNonNegative(ctx)
    ensures r.Ok? ==> |r.value| == Rows
  {
    var steps :- GetReal(ctx, "numSteps");
    var n: nat := Truncate(steps);
    var g :- Generate(pm, ctx, n, draw, mth);
    var prices := RowMajor(g.price);
    var pay :- PayoffSpec(pm.GetPayoff(), ctx, prices);
    PayoffSpecNonNegative(pm.GetPayoff(), ctx, prices);
    GenerateReadsSeedKeys(pm, ctx, n, draw, mth);
    var dt := GetReal(ctx, "dt").value;
    Ok(Discounted(pay, DiscountFactors(RowMajor(g.rate), n + 1, dt, mth)))
  }

  /** The thread body. */
  method RunWorker(pm: PricingModel, params: Parameters, draw: Draw, mth: Math) returns (r: Result<seq<real>>)
    requires NumStepsNonNegative(params.data)
    requires pm.GetPayoff().Barrier? ==> BarrierFlagsSet(params.data)
    ensures r == WorkerSpec(pm, params.data, draw, mth)
  {
    var localParams := new Parameters.Copy(params);
    var simulator :- MonteCarloSimulator.Create(localParams, pm);
    var generated := simulator.GeneratePaths(draw, mth);
    if generated.Err? {
      return Err(generated.error);
    }
    var pricePaths := simulator.PricePathsOf();
    var ratePaths := simulator.RatePathsOf();
    var payoffs :- ApplyPayoff(pm.GetPayoff(), localParams.data, pricePaths);
    GenerateReadsSeedKeys(pm, localParams.data, simulator.numSteps, draw, mth);
    var dt := GetReal(localParams.data, "dt").value;
    var factors := DiscountFactors(ratePaths, simulator.numSteps + 1, dt, mth);
    r := Ok(Discounted(payoffs, factors));
  }

  /** Under the constant rate model the first branch always fires: every row is
      discounted by exp(-rate * (numSteps + 1) * dt) with the caller's rate. */
  lemma ConstantRateDiscount(pm: PricingModel, ctx: Store, n: nat, draw: Draw, mth: Math)
    requires pm.GetRateModel().ConstantRate? && Generate(pm, ctx, n, draw, mth).Ok?
    ensures HasReal(ctx, "rate") && HasReal(ctx, "dt")
    ensures var g := Generate(pm, ctx, n, draw, mth).value;
      var d := DiscountFactors(RowMajor(g.rate), n + 1, ctx["dt"].r, mth);
      forall r :: 0 <= r < Rows ==> d[r] == FlatFactor(ctx["rate"].r, n + 1, ctx["dt"].r, mth)
  {
    GenerateReadsSeedKeys(pm, ctx, n, draw, mth);
    var g := Generate(pm, ctx, n, draw, mth).value;
    var m := RowMajor(g.rate);
    forall r, c | 0 <= r < Rows && 0 <= c < n + 1
      ensures m[r][c] == ctx["rate"].r
    {
      ConstantRateFlat(pm, ctx, n, draw, mth, c, r);
    }
    ConstantMatrixDiscount(m, n + 1, ctx["dt"].r, mth, ctx["rate"].r);
  }

  /** With a positive exp, every value a worker returns is non-negative. */
  lemma WorkerNonNegative(pm: PricingModel, ctx: Store, draw: Draw, mth: Math)
    requires NumStepsNonNegative(ctx) && ExpPositive(mth) && WorkerSpec(pm, ctx, draw, mth).Ok?
    ensures forall i :: 0 <= i < Rows ==> WorkerSpec(pm, ctx, draw, mth).value[i] >= 0.0
  {
    var n: nat := Truncate(ctx["numSteps"].r);
    var g := Generate(pm, ctx, n, draw, mth).value;
    var prices := RowMajor(g.price);
    PayoffSpecNonNegative(pm.GetPayoff(), ctx, prices);
    var pay := PayoffSpec(pm.GetPayoff(), ctx, prices).value;
    var d := DiscountFactors(RowMajor(g.rate), n + 1, ctx["dt"].r, mth);
    DiscountedNonNegative(pay, d);
  }

  /* ---------------------------------------------------------------------------
     One round: eight workers
     ------------------------------------------------------------------------- */

  /** Every result a worker function yields holds one value per path. */
  ghost predicate RowsPerWorker(work: nat -> Result<seq<real>>)
  {
    forall i :: work(i).Ok? ==> |work(i).value| == Rows
  }

  /** Workers |done| .. 7 of a round, after the ones in `done`; the first worker (in
      index order) that fails decides the round's error. */
  function RoundFrom(work: nat -> Result<seq<real>>, done: seq<seq<real>>): (r: Result<seq<seq<real>>>)
    requires |done| <= Workers
    ensures r.Ok? ==> |r.value| == Workers
    ensures r.Ok? && RowsPerWorker(work) && (forall i :: 0 <= i < |done| ==> |done[i]| == Rows) ==>
      forall i :: 0 <= i < Workers ==> |r.value[i]| == Rows
    decreases Workers - |done|
  {
    if |done| == Workers then Ok(done)
    else
      var w :- work(|done|);
      RoundFrom(work, done + [w])
  }

  /** A round succeeds exactly when every remaining worker does, and then result i
      is worker i's values, after the ones already done. */
  lemma {:induction false} RoundFromSucceeds(work: nat -> Result<seq<real>>, done: seq<seq<real>>)
    requires |done| <= Workers
    ensures RoundFrom(work, done).Ok? <==> forall i :: |done| <= i < Workers ==> work(i).Ok?
    ensures RoundFrom(work, done).Ok? ==>
      && RoundFrom(work, done).value[..|done|] == done
      && forall i :: |done| <= i < Workers ==> RoundFrom(work, done).value[i] == work(i).value
    decreases Workers - |done|
  {
    if |done| < Workers {
      var k := |done|;
      if work(k).Ok? {
        var next := done + [work(k).value];
        RoundFromSucceeds(work, next);
        assert RoundFrom(work, done) == RoundFrom(work, next);
        if RoundFrom(work, done).Ok? {
          var v := RoundFrom(work, done).value;
          assert v[..k] == v[..k + 1][..k];
          assert v[k] == work(k).value;
        }
      } else {
        assert RoundFrom(work, done).Err?;
      }
    }
  }

  /** A round that fails reports the error of its first failing worker. */
  lemma {:induction false} RoundFromFirstError(work: nat -> Result<seq<real>>, done: seq<seq<real>>)
    requires |done| <= Workers && RoundFrom(work, done).Err?
    ensures exists i ::
      && |done| <= i < Workers
      && (forall j :: |done| <= j < i ==> work(j).Ok?)
      && work(i) == Err(RoundFrom(work, done).error)
    decreases Workers - |done|
  {
    var k := |done|;
    if work(k).Ok? {
      var next := done + [work(k).value];
      assert RoundFrom(work, done) == RoundFrom(work, next);
      RoundFromFirstError(work, next);
      var i :| && k + 1 <= i < Workers
               && (forall j :: k + 1 <= j < i ==> work(j).Ok?)
               && work(i) == Err(RoundFrom(work, next).error);
      assert forall j :: k <= j < i ==> work(j).Ok?;
    } else {
      assert work(k) == Err(RoundFrom(work, done).error);
    }
  }

  /** Worker i of a round simulates with draws(round, i). */
  function WorkersOf(pm: PricingModel, ctx: Store, draws: (nat, nat) -> Draw, round: nat, mth: Math): (work: nat -> Result<seq<real>>)
    requires NumStepsNonNegative(ctx)
    ensures RowsPerWorker(work)
  {
    var work := (i: nat) => WorkerSpec(pm, ctx, draws(round, i), mth);
    assert forall i: nat :: work(i) == WorkerSpec(pm, ctx, draws(round, i), mth);
    work
  }

  /** A whole round. */
  function RoundSpec(pm: PricingModel, ctx: Store, draws: (nat, nat) -> Draw, round: nat, mth: Math): (r: Result<seq<seq<real>>>)
    requires NumStepsNonNegative(ctx)
  {
    RoundFrom(WorkersOf(pm, ctx, draws, round, mth), [])
  }

  /** The eight threads of a round, started and joined. */
  method RunRound(pm: PricingModel, params: Parameters, draws: (nat, nat) -> Draw, round: nat, mth: Math)
    returns (r: Result<seq<seq<real>>>)
    requires NumStepsNonNegative(params.data)
    requires pm.GetPayoff().Barrier? ==> BarrierFlagsSet(params.data)
    ensures r == RoundSpec(pm, params.data, draws, round, mth)
  {
    ghost var work := WorkersOf(pm, params.data, draws, round, mth);
    var payoffs: seq<seq<real>> := [];
    for i := 0 to Workers
      invariant |payoffs| == i
      invariant RoundFrom(work, payoffs) == RoundSpec(pm, params.data, draws, round, mth)
    {
      var w :- RunWorker(pm, params, draws(round, i), mth);
      assert work(i) == Ok(w);
      payoffs := payoffs + [w];
    }
    r := Ok(payoffs);
  }

  /* ---------------------------------------------------------------------------
     calculatePrice
     ------------------------------------------------------------------------- */

  /** The chains and the simulation counter. */
  datatype Pool = Pool(chains: seq<seq<real>>, count: int)

  /** Eight chains of one common length, and a counter equal to their total. */
  predicate Balanced(chains: seq<seq<real>>, count: int)
  {
    && |chains| == Workers
    && (forall i :: 0 <= i < Workers ==> |chains[i]| == |chains[0]|)
    && count == Workers * |chains[0]|
  }

  /** Every round a round function yields has eight results of one value per path. */
  ghost predicate RoundsShaped(rounds: nat -> Result<seq<seq<real>>>)
  {
    forall k :: rounds(k).Ok? ==>
      |rounds(k).value| == Workers && forall i :: 0 <= i < Workers ==> |rounds(k).value[i]| == Rows
  }

  /** Appends payoffs[i] to chain i. */
  function AppendRound(chains: seq<seq<real>>, payoffs: seq<seq<real>>): (next: seq<seq<real>>)
    requires |chains| == Workers && |payoffs| == Workers
    ensures |next| == Workers
    ensures forall i :: 0 <= i < Workers ==> next[i] == chains[i] + payoffs[i]
  {
    seq(Workers, i requires 0 <= i < Workers => chains[i] + payoffs[i])
  }

  /** The samples still allowed by the budget, as a termination measure. */
  function Budget(ctx: Store, count: int): nat
  {
    match GetInt(ctx, "maxSimulations")
    case Ok(m) => if m > count then m - count else 0
    case Err(_) => 0
  }

  /** The while loop from round `round` on: it re-reads maxSimulations on every
      test, stops when the counter reaches it, and otherwise runs a round, appends
      it, adds 1600 and stops early once the chains have converged. */
  function LoopFrom(rounds: nat -> Result<seq<seq<real>>>, ctx: Store, tol: real, mth: Math,
                    round: nat, chains: seq<seq<real>>, count: int): (r: Result<Pool>)
    requires RoundsShaped(rounds) && Balanced(chains, count)
    ensures r.Ok? ==> Balanced(r.value.chains, r.value.count)
    decreases Budget(ctx, count)
  {
    var maxSim :- GetInt(ctx, "maxSimulations");
    if count >= maxSim then Ok(Pool(chains, count))
    else
      var payoffs :- rounds(round);
      var next := AppendRound(chains, payoffs);
      assert |next[0]| == |chains[0]| + Rows;
      if Converged(next, tol, mth) then Ok(Pool(next, count + RoundSamples))
      else LoopFrom(rounds, ctx, tol, mth, round + 1, next, count + RoundSamples)
  }

  /** One test of the loop condition: a missing or mistyped cap fails, a reached
      cap returns the chains as they are, and otherwise round `round` runs; its
      error ends the loop, and its payoffs are appended and the counter moves on. */
  lemma LoopUnfold(rounds: nat -> Result<seq<seq<real>>>, ctx: Store, tol: real, mth: Math,
                   round: nat, chains: seq<seq<real>>, count: int)
    requires RoundsShaped(rounds) && Balanced(chains, count)
    ensures var cap := GetInt(ctx, "maxSimulations");
      var loop := LoopFrom(rounds, ctx, tol, mth, round, chains, count);
      && (cap.Err? ==> loop == Err(cap.error))
      && (cap.Ok? && count >= cap.value ==> loop == Ok(Pool(chains, count)))
      && (cap.Ok? && count < cap.value && rounds(round).Err? ==> loop == Err(rounds(round).error))
      && (cap.Ok? && count < cap.value && rounds(round).Ok? ==>
            var next := AppendRound(chains, rounds(round).value);
            && Balanced(next, count + RoundSamples)
            && loop == if Converged(next, tol, mth) then Ok(Pool(next, count + RoundSamples))
                       else LoopFrom(rounds, ctx, tol, mth, round + 1, next, count + RoundSamples))
  {
    if rounds(round).Ok? {
      var next := AppendRound(chains, rounds(round).value);
      assert |next[0]| == |chains[0]| + Rows;
    }
  }

  /** A loop pass below the cap: run round `round`, append it, add 1600, and stop
      if the chains have converged. */
  lemma LoopStep(rounds: nat -> Result<seq<seq<real>>>, ctx: Store, tol: real, mth: Math,
                 round: nat, chains: seq<seq<real>>, count: int)
    requires RoundsShaped(rounds) && Balanced(chains, count)
    requires LoopFrom(rounds, ctx, tol, mth, round, chains, count).Ok?
    requires count < GetInt(ctx, "maxSimulations").value
    ensures rounds(round).Ok?
    ensures var next := AppendRound(chains, rounds(round).value);
      && |next[0]| == |chains[0]| + Rows
      && Balanced(next, count + RoundSamples)
      && (forall i :: 0 <= i < Workers ==> chains[i] <= next[i])
      && LoopFrom(rounds, ctx, tol, mth, round, chains, count)
         == if Converged(next, tol, mth) then Ok(Pool(next, count + RoundSamples))
            else LoopFrom(rounds, ctx, tol, mth, round + 1, next, count + RoundSamples)
  {
    LoopUnfold(rounds, ctx, tol, mth, round, chains, count);
    var next := AppendRound(chains, rounds(round).value);
    assert |next[0]| == |chains[0]| + Rows;
    forall i | 0 <= i < Workers
      ensures chains[i] <= next[i]
    {
      assert next[i][..|chains[i]|] == chains[i];
    }
  }

  /** A counter difference made of whole rounds of 1600 samples. */
  predicate WholeRounds(d: int)
  {
    d % RoundSamples == 0
  }

  /** One more round on top of whole rounds is still whole rounds. */
  lemma WholeRoundsMore(d: int)
    requires WholeRounds(d)
    ensures WholeRounds(d + RoundSamples)
  {
  }

  /** The loop's counter: unchanged at the cap; otherwise grown to past the old
      value and to less than one round beyond the cap. */
  lemma {:induction false} LoopFromCount(rounds: nat -> Result<seq<seq<real>>>, ctx: Store, tol: real,
                                         mth: Math, round: nat, chains: seq<seq<real>>, count: int)
    requires RoundsShaped(rounds) && Balanced(chains, count)
    requires LoopFrom(rounds, ctx, tol, mth, round, chains, count).Ok?
    ensures GetInt(ctx, "maxSimulations").Ok?
    ensures var pool := LoopFrom(rounds, ctx, tol, mth, round, chains, count).value;
      var max := GetInt(ctx, "maxSimulations").value;
      && (count >= max ==> pool == Pool(chains, count))
      && (count < max ==> count < pool.count < max + RoundSamples)
    decreases Budget(ctx, count)
  {
    var max := GetInt(ctx, "maxSimulations").value;
    if count < max {
      LoopStep(rounds, ctx, tol, mth, round, chains, count);
      var next := AppendRound(chains, rounds(round).value);
      if !Converged(next, tol, mth) {
        LoopFromCount(rounds, ctx, tol, mth, round + 1, next, count + RoundSamples);
      }
    }
  }

  /** The counter only ever moves by whole rounds of 1600. */
  lemma {:induction false} LoopFromWholeRounds(rounds: nat -> Result<seq<seq<real>>>, ctx: Store, tol: real,
                                               mth: Math, round: nat, chains: seq<seq<real>>, count: int)
    requires RoundsShaped(rounds) && Balanced(chains, count)
    requires LoopFrom(rounds, ctx, tol, mth, round, chains, count).Ok?
    ensures WholeRounds(LoopFrom(rounds, ctx, tol, mth, round, chains, count).value.count - count)
    decreases Budget(ctx, count)
  {
    var max := GetInt(ctx, "maxSimulations").value;
    if count < max {
      LoopStep(rounds, ctx, tol, mth, round, chains, count);
      var next := AppendRound(chains, rounds(round).value);
      var c := count + RoundSamples;
      if !Converged(next, tol, mth) {
        LoopFromWholeRounds(rounds, ctx, tol, mth, round + 1, next, c);
        var d := LoopFrom(rounds, ctx, tol, mth, round + 1, next, c).value.count - c;
        WholeRoundsMore(d);
        assert d + RoundSamples == LoopFrom(rounds, ctx, tol, mth, round, chains, count).value.count - count;
      } else {
        WholeRoundsMore(0);
      }
    } else {
      assert WholeRounds(0);
    }
  }

  /** Every chain the loop returns extends the chain it started from. */
  lemma {:induction false} LoopFromKeepsPrefix(rounds: nat -> Result<seq<seq<real>>>, ctx: Store, tol: real,
                                               mth: Math, round: nat, chains: seq<seq<real>>, count: int)
    requires RoundsShaped(rounds) && Balanced(chains, count)
    requires LoopFrom(rounds, ctx, tol, mth, round, chains, count).Ok?
    ensures var pool := LoopFrom(rounds, ctx, tol, mth, round, chains, count).value;
      forall i :: 0 <= i < Workers ==> chains[i] <= pool.chains[i]
    decreases Budget(ctx, count)
  {
    var max := GetInt(ctx, "maxSimulations").value;
    if count < max {
      LoopStep(rounds, ctx, tol, mth, round, chains, count);
      var next := AppendRound(chains, rounds(round).value);
      if !Converged(next, tol, mth) {
        var c := count + RoundSamples;
        LoopFromKeepsPrefix(rounds, ctx, tol, mth, round + 1, next, c);
        var pool := LoopFrom(rounds, ctx, tol, mth, round + 1, next, c).value;
        forall i | 0 <= i < Workers
          ensures chains[i] <= pool.chains[i]
        {
          assert pool.chains[i][..|chains[i]|] == next[i][..|chains[i]|];
        }
      }
    }
  }

  /** The loop stops only at the cap or on convergence. */
  lemma {:induction false} LoopFromStops(rounds: nat -> Result<seq<seq<real>>>, ctx: Store, tol: real,
                                         mth: Math, round: nat, chains: seq<seq<real>>, count: int)
    requires RoundsShaped(rounds) && Balanced(chains, count)
    requires LoopFrom(rounds, ctx, tol, mth, round, chains, count).Ok?
    ensures var pool := LoopFrom(rounds, ctx, tol, mth, round, chains, count).value;
      pool.count >= GetInt(ctx, "maxSimulations").value || Converged(pool.chains, tol, mth)
    decreases Budget(ctx, count)
  {
    var max := GetInt(ctx, "maxSimulations").value;
    if count < max {
      LoopStep(rounds, ctx, tol, mth, round, chains, count);
      var next := AppendRound(chains, rounds(round).value);
      if !Converged(next, tol, mth) {
        LoopFromStops(rounds, ctx, tol, mth, round + 1, next, count + RoundSamples);
      }
    }
  }

  /** With a cap of at most one round the loop runs exactly one round: it fails with
      that round's error, or returns that round's samples and the counter 1600,
      converged or not. */
  lemma OneRoundBudget(rounds: nat -> Result<seq<seq<real>>>, ctx: Store, tol: real, mth: Math)
    requires RoundsShaped(rounds)
    requires GetInt(ctx, "maxSimulations").Ok?
    requires 0 < GetInt(ctx, "maxSimulations").value <= RoundSamples
    ensures rounds(0).Err? ==> LoopFrom(rounds, ctx, tol, mth, 0, NoChains(), 0) == Err(rounds(0).error)
    ensures rounds(0).Ok? ==>
      LoopFrom(rounds, ctx, tol, mth, 0, NoChains(), 0)
      == Ok(Pool(AppendRound(NoChains(), rounds(0).value), RoundSamples))
  {
    if rounds(0).Ok? {
      var next := AppendRound(NoChains(), rounds(0).value);
      assert |next[0]| == Rows;
      assert Balanced(next, RoundSamples);
      assert LoopFrom(rounds, ctx, tol, mth, 1, next, RoundSamples) == Ok(Pool(next, RoundSamples));
    }
  }

  /** Balanced chains hold exactly `count` samples between them, count / 8 each. */
  lemma CounterMatchesSamples(chains: seq<seq<real>>, count: int)
    requires Balanced(chains, count)
    ensures |Flatten(chains)| == count
    ensures forall i :: 0 <= i < Workers ==> |chains[i]| * Workers == count
  {
    FlattenLength(chains, |chains[0]|);
  }

  /** Round k of calculatePrice. */
  function RoundsOf(pm: PricingModel, ctx: Store, draws: (nat, nat) -> Draw, mth: Math): (rounds: nat -> Result<seq<seq<real>>>)
    requires NumStepsNonNegative(ctx)
    ensures RoundsShaped(rounds)
  {
    (k: nat) => RoundSpec(pm, ctx, draws, k, mth)
  }

  /** Eight empty chains. */
  function NoChains(): (chains: seq<seq<real>>)
    ensures Balanced(chains, 0) && forall i :: 0 <= i < Workers ==> chains[i] == []
  {
    seq(Workers, _ => [])
  }

  /** The chains pooled in chain order. */
  function Flatten(chains: seq<seq<real>>): seq<real>
  {
    if chains == [] then [] else Flatten(chains[..|chains| - 1]) + chains[|chains| - 1]
  }

  lemma {:induction false} FlattenLength(chains: seq<seq<real>>, len: nat)
    requires forall i :: 0 <= i < |chains| ==> |chains[i]| == len
    ensures |Flatten(chains)| == |chains| * len
    decreases |chains|
  {
    if chains != [] {
      var init := chains[..|chains| - 1];
      assert forall i :: 0 <= i < |init| ==> init[i] == chains[i];
      FlattenLength(init, len);
    }
  }

  /** The result: the pooled mean with its interval, or no sample at all. */
  datatype Outcome = Estimate(price: real, lower: real, upper: real) | NoSamples

  /** The summary after the loop: the mean of the pooled payoffs, and the interval
      mean -+ z * stdev / sqrt(N) at the caller's confidence level. The mean and
      the deviation never throw; get_z_value throws for a level outside (-1, 1),
      with or without samples. */
  function Summarize(pool: Pool, level: real, mth: Math): (o: Result<Outcome>)
    requires Balanced(pool.chains, pool.count) && SqrtExact(mth)
    ensures o.Ok? <==> -1.0 < level < 1.0
    ensures o.Err? ==> o.error == ZValue(level, mth).error
    ensures o.Ok? ==> (o.value.NoSamples? <==> pool.count == 0)
    ensures o.Ok? && o.value.Estimate? ==> o.value.upper - o.value.price == o.value.price - o.value.lower
  {
    var all := Flatten(pool.chains);
    FlattenLength(pool.chains, |pool.chains[0]|);
    var z :- ZValue(level, mth);
    if |all| == 0 then Ok(NoSamples)
    else
      var m := Mean(all);
      var half := HalfWidth(z, Stdev(all, m, mth), mth.sqrt(|all| as real));
      Ok(Estimate(m, m - half, m + half))
  }

  /** The half-width z * s / sqrt(N) of the interval. */
  function HalfWidth(z: real, s: real, root: real): real
    requires root > 0.0
  {
    z * s / root
  }

  /** A non-negative quantile and deviation give a non-negative half-width. */
  lemma HalfWidthNonNegative(z: real, s: real, root: real)
    requires z >= 0.0 && s >= 0.0 && root > 0.0
    ensures HalfWidth(z, s, root) >= 0.0
  {
    assert z * s >= 0.0;
  }

  /** Pooling chains of one value gives that value everywhere. */
  lemma {:induction false} FlattenConstant(chains: seq<seq<real>>, c: real)
    requires forall i, j :: 0 <= i < |chains| && 0 <= j < |chains[i]| ==> chains[i][j] == c
    ensures forall k :: 0 <= k < |Flatten(chains)| ==> Flatten(chains)[k] == c
    decreases |chains|
  {
    if chains != [] {
      var init := chains[..|chains| - 1];
      assert forall i :: 0 <= i < |init| ==> init[i] == chains[i];
      FlattenConstant(init, c);
    }
  }

  /** When the quantile at the level is non-negative (as the standard normal
      quantile is at every point of [1/2, 1], the range UpperTail maps [0, 1]
      into), the reported price lies inside its interval. */
  lemma SummaryBrackets(pool: Pool, level: real, mth: Math)
    requires Balanced(pool.chains, pool.count) && SqrtExact(mth)
    requires ZValue(level, mth).Ok? ==> ZValue(level, mth).value >= 0.0
    ensures var o := Summarize(pool, level, mth);
      o.Ok? && o.value.Estimate? ==> o.value.lower <= o.value.price <= o.value.upper
  {
    var all := Flatten(pool.chains);
    FlattenLength(pool.chains, |pool.chains[0]|);
    if |all| != 0 && ZValue(level, mth).Ok? {
      var m := Mean(all);
      StdevNonNegative(all, m, mth);
      HalfWidthNonNegative(ZValue(level, mth).value, Stdev(all, m, mth), mth.sqrt(|all| as real));
    }
  }

  /** Payoffs that all equal c give the price c with an interval of width zero. */
  lemma SummaryOfConstant(pool: Pool, level: real, mth: Math, c: real)
    requires Balanced(pool.chains, pool.count) && SqrtExact(mth) && pool.count > 0
    requires forall i, j :: 0 <= i < Workers && 0 <= j < |pool.chains[i]| ==> pool.chains[i][j] == c
    requires -1.0 < level < 1.0
    ensures Summarize(pool, level, mth) == Ok(Estimate(c, c, c))
  {
    var all := Flatten(pool.chains);
    FlattenLength(pool.chains, |pool.chains[0]|);
    FlattenConstant(pool.chains, c);
    StdevOfConstant(all, mth);
  }

  /** calculatePrice: reads the confidence level and the tolerance, runs the loop
      from eight empty chains, then summarizes the pool. */
  function PriceSpec(pm: PricingModel, ctx: Store, draws: (nat, nat) -> Draw, mth: Math): Result<Outcome>
    requires NumStepsNonNegative(ctx) && SqrtExact(mth)
  {
    var level :- GetReal(ctx, "confidenceLevel");
    var tol :- GetReal(ctx, "tolerance");
    var pool :- LoopFrom(RoundsOf(pm, ctx, draws, mth), ctx, tol, mth, 0, NoChains(), 0);
    Summarize(pool, level, mth)
  }

  /** The while loop of calculatePrice, from eight empty chains and a zero counter. */
  method RunLoop(pm: PricingModel, params: Parameters, draws: (nat, nat) -> Draw, tol: real, mth: Math)
    returns (r: Result<Pool>)
    requires NumStepsNonNegative(params.data)
    requires pm.GetPayoff().Barrier? ==> BarrierFlagsSet(params.data)
    ensures r == LoopFrom(RoundsOf(pm, params.data, draws, mth), params.data, tol, mth, 0, NoChains(), 0)
  {
    var chains := NoChains();
    var count := 0;
    ghost var rounds := RoundsOf(pm, params.data, draws, mth);
    ghost var spec := LoopFrom(rounds, params.data, tol, mth, 0, chains, count);
    var round: nat := 0;
    while true
      invariant Balanced(chains, count)
      invariant LoopFrom(rounds, params.data, tol, mth, round, chains, count) == spec
      decreases Budget(params.data, count)
    {
      var maxSim :- GetInt(params.data, "maxSimulations");
      if count >= maxSim {
        break;
      }
      var payoffs :- RunRound(pm, params, draws, round, mth);
      assert rounds(round) == Ok(payoffs);
      chains := AppendRound(chains, payoffs);
      count := count + RoundSamples;
      var converged := IsConverged(chains, tol, mth);
      if converged {
        break;
      }
      round := round + 1;
    }
    r := Ok(Pool(chains, count));
  }

  /** calculatePrice. The caller's parameters are only read. */
  method CalculatePrice(pm: PricingModel, params: Parameters, draws: (nat, nat) -> Draw, mth: Math)
    returns (r: Result<Outcome>)
    requires NumStepsNonNegative(params.data) && SqrtExact(mth)
    requires pm.GetPayoff().Barrier? ==> BarrierFlagsSet(params.data)
    ensures r == PriceSpec(pm, params.data, draws, mth)
    ensures r.Ok? ==> HasReal(params.data, "confidenceLevel")
                      && -1.0 < params.data["confidenceLevel"].r < 1.0
  {
    var level :- GetReal(params.data, "confidenceLevel");
    var tol :- GetReal(params.data, "tolerance");
    var pool :- RunLoop(pm, params, draws, tol, mth);
    r := Summarize(pool, level, mth);
  }

  /* ---------------------------------------------------------------------------
     What calculatePrice does not read
     ------------------------------------------------------------------------- */

  /** A round depends on its workers only through what they return. */
  lemma {:induction false} RoundFromCongruent(w1: nat -> Result<seq<real>>, w2: nat -> Result<seq<real>>,
                                              done: seq<seq<real>>)
    requires |done| <= Workers
    requires forall i: nat :: w1(i) == w2(i)
    ensures RoundFrom(w1, done) == RoundFrom(w2, done)
    decreases Workers - |done|
  {
    if |done| < Workers && w1(|done|).Ok? {
      RoundFromCongruent(w1, w2, done + [w1(|done|).value]);
    }
  }

  /** The loop depends on its rounds only through what they return. */
  lemma {:induction false} LoopFromCongruent(r1: nat -> Result<seq<seq<real>>>, r2: nat -> Result<seq<seq<real>>>,
                                             ctx: Store, tol: real, mth: Math, round: nat,
                                             chains: seq<seq<real>>, count: int)
    requires RoundsShaped(r1) && RoundsShaped(r2) && Balanced(chains, count)
    requires forall k: nat :: r1(k) == r2(k)
    ensures LoopFrom(r1, ctx, tol, mth, round, chains, count) == LoopFrom(r2, ctx, tol, mth, round, chains, count)
    decreases Budget(ctx, count)
  {
    var max := GetInt(ctx, "maxSimulations");
    if max.Ok? && count < max.value && r1(round).Ok? {
      var next := AppendRound(chains, r1(round).value);
      assert |next[0]| == |chains[0]| + Rows;
      if !Converged(next, tol, mth) {
        LoopFromCongruent(r1, r2, ctx, tol, mth, round + 1, next, count + RoundSamples);
      }
    }
  }

  /** One worker's payoffs do not depend on the transaction cost. */
  lemma WorkerCostFree(pm: PricingModel, cost: TransactionCost, ctx: Store, draw: Draw, mth: Math)
    requires NumStepsNonNegative(ctx)
    ensures WorkerSpec(pm.(transactionCost := cost), ctx, draw, mth) == WorkerSpec(pm, ctx, draw, mth)
  {
    var other := pm.(transactionCost := cost);
    assert StepsOf(other, mth) == StepsOf(pm, mth);
    forall n: nat
      ensures Generate(other, ctx, n, draw, mth) == Generate(pm, ctx, n, draw, mth)
    {
    }
  }

  /** The transaction cost bound into the pricing model never reaches the price:
      replacing it leaves calculatePrice's result, error or outcome, unchanged. */
  lemma CostIrrelevant(pm: PricingModel, cost: TransactionCost, ctx: Store,
                       draws: (nat, nat) -> Draw, mth: Math)
    requires NumStepsNonNegative(ctx) && SqrtExact(mth)
    ensures PriceSpec(pm.(transactionCost := cost), ctx, draws, mth) == PriceSpec(pm, ctx, draws, mth)
  {
    var other := pm.(transactionCost := cost);
    assert StepsOf(other, mth) == StepsOf(pm, mth);
    forall k: nat
      ensures RoundsOf(other, ctx, draws, mth)(k) == RoundsOf(pm, ctx, draws, mth)(k)
    {
      forall i: nat
        ensures WorkersOf(other, ctx, draws, k, mth)(i) == WorkersOf(pm, ctx, draws, k, mth)(i)
      {
        WorkerCostFree(pm, cost, ctx, draws(k, i), mth);
      }
      RoundFromCongruent(WorkersOf(other, ctx, draws, k, mth), WorkersOf(pm, ctx, draws, k, mth), []);
    }
    var tol := GetReal(ctx, "tolerance");
    if tol.Ok? {
      LoopFromCongruent(RoundsOf(other, ctx, draws, mth), RoundsOf(pm, ctx, draws, mth),
                        ctx, tol.value, mth, 0, NoChains(), 0);
    }
  }

  /** With maxSimulations at most zero the loop runs no round, and the result has
      no sample. */
  lemma NoBudgetNoSamples(pm: PricingModel, ctx: Store, draws: (nat, nat) -> Draw, mth: Math)
    requires NumStepsNonNegative(ctx) && SqrtExact(mth)
    requires GetReal(ctx, "confidenceLevel").Ok? && GetReal(ctx, "tolerance").Ok?
    requires GetInt(ctx, "maxSimulations").Ok? && GetInt(ctx, "maxSimulations").value <= 0
    ensures var z := ZValue(GetReal(ctx, "confidenceLevel").value, mth);
      PriceSpec(pm, ctx, draws, mth) == if z.Ok? then Ok(NoSamples) else Err(z.error)
  {
  }

  /** get_z_value runs after the loop: once the level, the tolerance and every
      round have been read without error, a level outside (-1, 1) makes
      calculatePrice throw the quantile's error however the loop ended. */
  lemma LevelOutsideThrows(pm: PricingModel, ctx: Store, draws: (nat, nat) -> Draw, mth: Math)
    requires NumStepsNonNegative(ctx) && SqrtExact(mth)
    requires HasReal(ctx, "confidenceLevel") && HasReal(ctx, "tolerance")
    requires LoopFrom(RoundsOf(pm, ctx, draws, mth), ctx, ctx["tolerance"].r, mth, 0, NoChains(), 0).Ok?
    ensures var level := ctx["confidenceLevel"].r;
      PriceSpec(pm, ctx, draws, mth).Ok? <==> -1.0 < level < 1.0
    ensures var level := ctx["confidenceLevel"].r;
      (level >= 1.0 || level <= -1.0) ==>
        PriceSpec(pm, ctx, draws, mth) == Err(Quantile((1.0 + level) / 2.0, mth).error)
  {
    var level := ctx["confidenceLevel"].r;
    assert GetReal(ctx, "confidenceLevel") == Ok(level);
    assert GetReal(ctx, "tolerance") == Ok(ctx["tolerance"].r);
    assert UpperTail(level) == (1.0 + level) / 2.0;
  }
}
