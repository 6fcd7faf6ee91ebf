/** What generate_paths computes, as a function of the simulator's context, the
    bound models and the drawn normals. The three factor passes of every column
    run through ONE shared context, which each cell overwrites before stepping. */
module PathSpec {
  import opened Common
  import opened Context
  import opened RateModels
  import opened VolatilityModels
  import opened AssetPriceModels
  import opened PricingModels

  /** Paths per simulator: 100 drawn rows and their 100 antithetic twins. */
  const Rows: nat := 200
  const Half: nat := 100

  /** The three 100 x numSteps blocks of standard normals, indexed (row, step). */
  datatype Draw = Draw(spot: (nat, nat) -> real, volatility: (nat, nat) -> real, rate: (nat, nat) -> real)

  /** Entry (r, s) of an innovation matrix: rows 100..199 are the negated drawn
      rows, and every entry is scaled by sqrt(dt). */
  function Innovation(z: (nat, nat) -> real, sqrtDt: real, r: nat, s: nat): real
    requires r < Rows
  {
    if r < Half then sqrtDt * z(r, s) else sqrtDt * -z(r - Half, s)
  }

  /** Column s of an innovation matrix. */
  function InnovationColumn(z: (nat, nat) -> real, sqrtDt: real, s: nat): (col: seq<real>)
    ensures |col| == Rows
  {
    seq(Rows, r requires 0 <= r < Rows => Innovation(z, sqrtDt, r, s))
  }

  /** The antithetic pairing: row r + 100 is the exact negation of row r, and the
      drawn half is the normal scaled by sqrt(dt). */
  lemma AntitheticInnovations(z: (nat, nat) -> real, sqrtDt: real, r: nat, s: nat)
    requires r < Half
    ensures Innovation(z, sqrtDt, r + Half, s) == -Innovation(z, sqrtDt, r, s)
    ensures Innovation(z, sqrtDt, r, s) == sqrtDt * z(r, s)
  {
  }

  /** The three simulated factors. */
  datatype Factor = Price | Rate | Vol

  /** The context key each pass overwrites with the row's previous value. */
  function ValueKey(f: Factor): string
  {
    match f
    case Price => "St"
    case Rate => "rt"
    case Vol => "vt"
  }

  /** The context key each pass overwrites with the row's innovation. */
  function ShockKey(f: Factor): string
  {
    match f
    case Price => "dW_spot"
    case Rate => "dW_rate"
    case Vol => "dW_volatility"
  }

  /** The one-step evaluators the three passes call, as functions of the context. */
  datatype Steps = Steps(price: Store -> Result<real>, rate: Store -> Result<real>, vol: Store -> Result<real>)
  {
    /** The evaluator of factor f's pass. */
    function For(f: Factor): Store -> Result<real>
    {
      match f
      case Price => price
      case Rate => rate
      case Vol => vol
    }
  }

  /** The evaluators of three models: simulatePrice, getRate and getVolatility. */
  function ModelSteps(asset: AssetPriceModel, rate: RateModel, vol: VolatilityModel, mth: Math): Steps
  {
    Steps(c => SimulatePrice(asset, c, mth), c => GetRate(rate, c, mth), c => GetVolatility(vol, c, mth))
  }

  /** The evaluators of the models a pricing model binds. */
  function StepsOf(pm: PricingModel, mth: Math): Steps
  {
    ModelSteps(pm.GetAssetPriceModel(), pm.GetRateModel(), pm.GetVolatilityModel(), mth)
  }

  /** The context row i of a pass steps in: the value key holds the row's
      previous value and the shock key its innovation. */
  function RowContext(f: Factor, ctx: Store, prev: seq<real>, dw: seq<real>, i: nat): Store
    requires i < |prev| && i < |dw|
  {
    ctx[ValueKey(f) := RealValue(prev[i])][ShockKey(f) := RealValue(dw[i])]
  }

  datatype PassState = PassState(out: seq<real>, ctx: Store)

  /** One pass over a column, from row |out| on: row i sets the value key to
      prev[i] and the shock key to dw[i] in the shared context, then steps; the
      first failing step ends the pass. */
  function PassFrom(f: Factor, step: Store -> Result<real>, ctx: Store, prev: seq<real>, dw: seq<real>,
                    out: seq<real>): (r: Result<PassState>)
    requires |out| <= |prev| <= |dw|
    ensures r.Ok? ==> |r.value.out| == |prev|
    decreases |prev| - |out|
  {
    if |out| == |prev| then Ok(PassState(out, ctx))
    else
      var c := RowContext(f, ctx, prev, dw, |out|);
      var v :- step(c);
      PassFrom(f, step, c, prev, dw, out + [v])
  }

  /** The whole pass, std::transform over every row of the column. */
  function Pass(f: Factor, step: Store -> Result<real>, ctx: Store, prev: seq<real>, dw: seq<real>): (r: Result<PassState>)
    requires |prev| <= |dw|
    ensures r.Ok? ==> |r.value.out| == |prev|
  {
    PassFrom(f, step, ctx, prev, dw, [])
  }

  /** The three matrices as lists of columns, and the shared context. */
  datatype Paths = Paths(price: seq<seq<real>>, rate: seq<seq<real>>, vol: seq<seq<real>>, ctx: Store)

  /** Column-major matrices with `cols` columns of Rows entries each. */
  predicate Shaped(p: Paths, cols: nat)
  {
    && |p.price| == cols && |p.rate| == cols && |p.vol| == cols
    && (forall c :: 0 <= c < cols ==> |p.price[c]| == Rows)
    && (forall c :: 0 <= c < cols ==> |p.rate[c]| == Rows)
    && (forall c :: 0 <= c < cols ==> |p.vol[c]| == Rows)
  }

  /** Column 0 filled with the seeded spot, rate and volatility. */
  function Seed(spot: real, rate: real, vol: real, ctx: Store): (p: Paths)
    ensures Shaped(p, 1)
  {
    Paths([seq(Rows, _ => spot)], [seq(Rows, _ => rate)], [seq(Rows, _ => vol)], ctx)
  }

  /** Column c + 1 from column c: the price pass, then the rate pass, then the
      volatility pass, all through the context the previous column left behind. */
  function NextColumn(st: Steps, draw: Draw, sqrtDt: real, s: Paths, c: nat): (r: Result<Paths>)
    requires Shaped(s, c + 1)
    ensures r.Ok? ==> Shaped(r.value, c + 2)
  {
    var p :- Pass(Price, st.price, s.ctx, s.price[c], InnovationColumn(draw.spot, sqrtDt, c));
    var q :- Pass(Rate, st.rate, p.ctx, s.rate[c], InnovationColumn(draw.rate, sqrtDt, c));
    var v :- Pass(Vol, st.vol, q.ctx, s.vol[c], InnovationColumn(draw.volatility, sqrtDt, c));
    Ok(Paths(s.price + [p.out], s.rate + [q.out], s.vol + [v.out], v.ctx))
  }

  /** Columns c + 1 .. n, given columns 0 .. c; the first failing column ends the run. */
  function ColumnsFrom(st: Steps, draw: Draw, sqrtDt: real, s: Paths, c: nat, n: nat): (r: Result<Paths>)
    requires Shaped(s, c + 1) && c <= n
    ensures r.Ok? ==> Shaped(r.value, n + 1)
    decreases n - c
  {
    if c == n then Ok(s)
    else
      var t :- NextColumn(st, draw, sqrtDt, s, c);
      ColumnsFrom(st, draw, sqrtDt, t, c + 1, n)
  }

  /** generate_paths: reads dt, seeds St, rt and vt from spot, rate and volatility,
      fills column 0, then columns 1..numSteps. */
  function Generate(pm: PricingModel, ctx: Store, numSteps: nat, draw: Draw, mth: Math): (r: Result<Paths>)
    ensures r.Ok? ==> Shaped(r.value, numSteps + 1)
  {
    var dt :- GetReal(ctx, "dt");
    var sqrtDt := mth.sqrt(dt);
    var spot :- GetReal(ctx, "spot");
    var c1 := ctx["St" := RealValue(spot)];
    var rate :- GetReal(c1, "rate");
    var c2 := c1["rt" := RealValue(rate)];
    var vol :- GetReal(c2, "volatility");
    var c3 := c2["vt" := RealValue(vol)];
    ColumnsFrom(StepsOf(pm, mth), draw, sqrtDt, Seed(spot, rate, vol, c3), 0, numSteps)
  }

  /** Column-major columns of Rows entries, read row by row. */
  function RowMajor(cols: seq<seq<real>>): (m: seq<seq<real>>)
    requires forall c :: 0 <= c < |cols| ==> |cols[c]| == Rows
    ensures |m| == Rows && forall r :: 0 <= r < Rows ==> |m[r]| == |cols|
  {
    seq(Rows, r requires 0 <= r < Rows => seq(|cols|, c requires 0 <= c < |cols| => cols[c][r]))
  }
}
