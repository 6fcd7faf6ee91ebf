/** MonteCarloSimulator: owns a copy of the parameters and three 200 x (numSteps+1)
    matrices, which generate_paths fills column by column. */
module Simulation {
  import opened Common
  import opened Context
  import opened PricingModels
  import opened PathSpec

  /** The context value the constructor truncates to the step count must not be
      negative: the matrices are sized from it. */
  predicate NumStepsNonNegative(ctx: Store)
  {
    HasReal(ctx, "numSteps") ==> Truncate(ctx["numSteps"].r) >= 0
  }

  /** Column c of a matrix, copied out (Eigen's col(c) into a VectorXd). */
  function ColumnOf(a: array2<real>, c: nat): (col: seq<real>)
    reads a
    requires c < a.Length1
    ensures |col| == a.Length0
    ensures forall r :: 0 <= r < a.Length0 ==> col[r] == a[r, c]
  {
    seq(a.Length0, r requires 0 <= r < a.Length0 reads a => a[r, c])
  }

  /** The whole matrix, row by row. */
  function RowsOf(a: array2<real>): (m: seq<seq<real>>)
    reads a
    ensures |m| == a.Length0
    ensures forall r :: 0 <= r < a.Length0 ==> |m[r]| == a.Length1
    ensures forall r, c :: 0 <= r < a.Length0 && 0 <= c < a.Length1 ==> m[r][c] == a[r, c]
  {
    seq(a.Length0, r requires 0 <= r < a.Length0 reads a =>
      seq(a.Length1, c requires 0 <= c < a.Length1 reads a => a[r, c]))
  }

  /** The first `upto` columns of `a` are the given column-major columns. */
  ghost predicate Holds(a: array2<real>, cols: seq<seq<real>>, upto: nat)
    reads a
  {
    && a.Length0 == Rows && upto <= |cols| && upto <= a.Length1
    && (forall c :: 0 <= c < upto ==> |cols[c]| == Rows)
    && (forall r, c :: 0 <= r < Rows && 0 <= c < upto ==> a[r, c] == cols[c][r])
  }

  class MonteCarloSimulator {
    /** The simulator's own copy of the parameters, which the passes overwrite. */
    const params: Parameters
    const pricingModel: PricingModel
    const numSteps: nat
    const pricePaths: array2<real>
    const ratePaths: array2<real>
    const volatilityPaths: array2<real>

    /** The three matrices are distinct, 200 rows by numSteps + 1 columns. */
    predicate Valid()
    {
      && pricePaths.Length0 == Rows && pricePaths.Length1 == numSteps + 1
      && ratePaths.Length0 == Rows && ratePaths.Length1 == numSteps + 1
      && volatilityPaths.Length0 == Rows && volatilityPaths.Length1 == numSteps + 1
      && pricePaths != ratePaths && pricePaths != volatilityPaths && ratePaths != volatilityPaths
    }

    /** The member initialisers: copy the parameters, keep the model, size the matrices. */
    constructor Init(source: Parameters, pm: PricingModel, n: nat)
      ensures Valid()
      ensures fresh(params) && params.data == source.data
      ensures pricingModel == pm && numSteps == n
      ensures fresh(pricePaths) && fresh(ratePaths) && fresh(volatilityPaths)
    {
      params := new Parameters.Copy(source);
      pricingModel := pm;
      numSteps := n;
      pricePaths := new real[Rows, n + 1];
      ratePaths := new real[Rows, n + 1];
      volatilityPaths := new real[Rows, n + 1];
    }

    /** MonteCarloSimulator(params, pricingModel): throws when numSteps is not a
        double; otherwise sizes the matrices to 200 x (trunc(numSteps) + 1). The
        caller's parameters are copied, never changed. */
    static method Create(source: Parameters, pm: PricingModel) returns (r: Result<MonteCarloSimulator>)
      requires NumStepsNonNegative(source.data)
      ensures r.Ok? <==> HasReal(source.data, "numSteps")
      ensures r.Err? ==> r == Err(GetReal(source.data, "numSteps").error)
      ensures r.Ok? ==> var s := r.value;
        && s.Valid() && fresh(s) && fresh(s.params) && s.params.data == source.data
        && s.pricingModel == pm && s.numSteps == Truncate(source.data["numSteps"].r)
        && fresh(s.pricePaths) && fresh(s.ratePaths) && fresh(s.volatilityPaths)
    {
      var steps :- GetReal(source.data, "numSteps");
      var n := Truncate(steps);
      var s := new MonteCarloSimulator.Init(source, pm, n);
      r := Ok(s);
    }

    /** One std::transform pass over column `col` of `a`: for every row in order,
        set the value and shock keys in the shared context, then call the factor's
        model on it. */
    method RunPass(f: Factor, step: Store -> Result<real>, a: array2<real>, col: nat, dw: seq<real>) returns (r: Result<()>)
      requires a.Length0 == Rows && 1 <= col < a.Length1 && |dw| == Rows
      modifies params, a
      ensures var spec := Pass(f, step, old(params.data), old(ColumnOf(a, col - 1)), dw);
        && (r.Ok? <==> spec.Ok?)
        && (r.Err? ==> r.error == spec.error)
        && (r.Ok? ==> params.data == spec.value.ctx && ColumnOf(a, col) == spec.value.out)
      ensures forall i, j :: 0 <= i < a.Length0 && 0 <= j < a.Length1 && j != col ==> a[i, j] == old(a[i, j])
    {
      var prev := ColumnOf(a, col - 1);
      ghost var spec := Pass(f, step, params.data, prev, dw);
      ghost var out: seq<real> := [];
      var i := 0;
      while i < Rows
        invariant 0 <= i <= Rows && |out| == i
        invariant spec == PassFrom(f, step, params.data, prev, dw, out)
        invariant forall k :: 0 <= k < i ==> a[k, col] == out[k]
        invariant forall k, j :: 0 <= k < a.Length0 && 0 <= j < a.Length1 && j != col ==> a[k, j] == old(a[k, j])
      {
        params.Set(ValueKey(f), RealValue(prev[i]));
        params.Set(ShockKey(f), RealValue(dw[i]));
        var v := step(params.data);
        if v.Err? {
          return Err(v.error);
        }
        a[i, col] := v.value;
        out := out + [v.value];
        i := i + 1;
      }
      assert ColumnOf(a, col) == out;
      r := Ok(());
    }

    /** One iteration of the step loop: the price, rate and volatility passes of column `col`. */
    method RunColumn(col: nat, st: Steps, draw: Draw, sqrtDt: real, ghost s: Paths) returns (r: Result<()>)
      requires Valid() && 1 <= col <= numSteps && Shaped(s, col) && params.data == s.ctx
      requires Holds(pricePaths, s.price, col) && Holds(ratePaths, s.rate, col) && Holds(volatilityPaths, s.vol, col)
      modifies params, pricePaths, ratePaths, volatilityPaths
      ensures var spec := NextColumn(st, draw, sqrtDt, s, col - 1);
        && (r.Ok? <==> spec.Ok?)
        && (r.Err? ==> r.error == spec.error)
        && (r.Ok? ==> && params.data == spec.value.ctx
                      && Holds(pricePaths, spec.value.price, col + 1)
                      && Holds(ratePaths, spec.value.rate, col + 1)
                      && Holds(volatilityPaths, spec.value.vol, col + 1))
    {
      assert ColumnOf(pricePaths, col - 1) == s.price[col - 1];
      var res := RunPass(Price, st.price, pricePaths, col, InnovationColumn(draw.spot, sqrtDt, col - 1));
      if res.Err? {
        return Err(res.error);
      }
      assert ColumnOf(ratePaths, col - 1) == s.rate[col - 1];
      res := RunPass(Rate, st.rate, ratePaths, col, InnovationColumn(draw.rate, sqrtDt, col - 1));
      if res.Err? {
        return Err(res.error);
      }
      assert ColumnOf(volatilityPaths, col - 1) == s.vol[col - 1];
      res := RunPass(Vol, st.vol, volatilityPaths, col, InnovationColumn(draw.volatility, sqrtDt, col - 1));
      if res.Err? {
        return Err(res.error);
      }
      r := Ok(());
    }

    /** setConstant on column 0 of each matrix: the seeded spot, rate and volatility. */
    method FillFirstColumn(spot: real, rate: real, vol: real, ghost ctx: Store)
      requires Valid()
      modifies pricePaths, ratePaths, volatilityPaths
      ensures var s := Seed(spot, rate, vol, ctx);
        Holds(pricePaths, s.price, 1) && Holds(ratePaths, s.rate, 1) && Holds(volatilityPaths, s.vol, 1)
    {
      forall row | 0 <= row < Rows {
        pricePaths[row, 0] := spot;
      }
      forall row | 0 <= row < Rows {
        ratePaths[row, 0] := rate;
      }
      forall row | 0 <= row < Rows {
        volatilityPaths[row, 0] := vol;
      }
    }

    /** generate_paths(): on success the three matrices and the context are
        exactly those of the specification; on failure it throws the same error. */
    method GeneratePaths(draw: Draw, mth: Math) returns (r: Result<()>)
      requires Valid()
      modifies params, pricePaths, ratePaths, volatilityPaths
      ensures var spec := Generate(pricingModel, old(params.data), numSteps, draw, mth);
        && (r.Ok? <==> spec.Ok?)
        && (r.Err? ==> r.error == spec.error)
        && (r.Ok? ==> && params.data == spec.value.ctx
                      && RowsOf(pricePaths) == RowMajor(spec.value.price)
                      && RowsOf(ratePaths) == RowMajor(spec.value.rate)
                      && RowsOf(volatilityPaths) == RowMajor(spec.value.vol))
      ensures r.Ok? ==> var spec := Generate(pricingModel, old(params.data), numSteps, draw, mth);
        && PricePathsOf() == RowMajor(spec.value.price)
        && RatePathsOf() == RowMajor(spec.value.rate)
        && VolatilityPathsOf() == RowMajor(spec.value.vol)
    {
      var dt :- GetReal(params.data, "dt");
      var sqrtDt := mth.sqrt(dt);
      var spot :- GetReal(params.data, "spot");
      params.Set("St", RealValue(spot));
      var rate :- GetReal(params.data, "rate");
      params.Set("rt", RealValue(rate));
      var vol :- GetReal(params.data, "volatility");
      params.Set("vt", RealValue(vol));
      var st := StepsOf(pricingModel, mth);
      ghost var s := Seed(spot, rate, vol, params.data);
      ghost var spec := ColumnsFrom(st, draw, sqrtDt, s, 0, numSteps);

      FillFirstColumn(spot, rate, vol, params.data);

      var col := 1;
      while col <= numSteps
        invariant 1 <= col <= numSteps + 1
        invariant Shaped(s, col) && params.data == s.ctx
        invariant Holds(pricePaths, s.price, col) && Holds(ratePaths, s.rate, col) && Holds(volatilityPaths, s.vol, col)
        invariant spec == ColumnsFrom(st, draw, sqrtDt, s, col - 1, numSteps)
      {
        var res := RunColumn(col, st, draw, sqrtDt, s);
        if res.Err? {
          return Err(res.error);
        }
        s := NextColumn(st, draw, sqrtDt, s, col - 1).value;
        col := col + 1;
      }
      r := Ok(());
      HoldsAll(pricePaths, s.price);
      HoldsAll(ratePaths, s.rate);
      HoldsAll(volatilityPaths, s.vol);
    }

    /** get_price_paths(). */
    function PricePathsOf(): (m: seq<seq<real>>)
      reads pricePaths
      ensures |m| == pricePaths.Length0
      ensures forall r :: 0 <= r < |m| ==> |m[r]| == pricePaths.Length1
      ensures forall r, c :: 0 <= r < pricePaths.Length0 && 0 <= c < pricePaths.Length1 ==> m[r][c] == pricePaths[r, c]
    {
      RowsOf(pricePaths)
    }

    /** get_rate_paths(). */
    function RatePathsOf(): (m: seq<seq<real>>)
      reads ratePaths
      ensures |m| == ratePaths.Length0
      ensures forall r :: 0 <= r < |m| ==> |m[r]| == ratePaths.Length1
      ensures forall r, c :: 0 <= r < ratePaths.Length0 && 0 <= c < ratePaths.Length1 ==> m[r][c] == ratePaths[r, c]
    {
      RowsOf(ratePaths)
    }

    /** get_volatility_paths(). */
    function VolatilityPathsOf(): (m: seq<seq<real>>)
      reads volatilityPaths
      ensures |m| == volatilityPaths.Length0
      ensures forall r :: 0 <= r < |m| ==> |m[r]| == volatilityPaths.Length1
      ensures forall r, c :: 0 <= r < volatilityPaths.Length0 && 0 <= c < volatilityPaths.Length1 ==> m[r][c] == volatilityPaths[r, c]
    {
      RowsOf(volatilityPaths)
    }
  }

  /** A matrix holding every column of a column-major list, read row by row. */
  lemma HoldsAll(a: array2<real>, cols: seq<seq<real>>)
    requires Holds(a, cols, |cols|) && a.Length1 == |cols|
    ensures RowsOf(a) == RowMajor(cols)
  {
    var m := RowsOf(a);
    var t := RowMajor(cols);
    forall r | 0 <= r < Rows
      ensures m[r] == t[r]
    {
    }
  }
}
