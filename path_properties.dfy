/** What generate_paths promises about the matrices it fills: the seeded first
    column, each cell as its own row's step, the rate and volatility the price
    step picks up from the shared context, and the error cases. */
module PathProperties {
  import opened Common
  import opened Context
  import opened RateModels
  import opened VolatilityModels
  import opened AssetPriceModels
  import opened PricingModels
  import opened PathSpec

  /** Writing a row's two keys over an earlier row's leaves no trace of the earlier row. */
  lemma RowContextOverwrites(f: Factor, ctx: Store, prev: seq<real>, dw: seq<real>, i: nat, j: nat)
    requires i < |prev| && i < |dw| && j < |prev| && j < |dw|
    ensures RowContext(f, RowContext(f, ctx, prev, dw, i), prev, dw, j) == RowContext(f, ctx, prev, dw, j)
  {
  }

  /** A pass from row |out| on succeeds exactly when every remaining row's step
      does, each cell being its own row's step; the context it leaves is the last
      row's. */
  lemma {:induction false} PassFromCells(f: Factor, step: Store -> Result<real>, ctx: Store, prev: seq<real>,
                                         dw: seq<real>, out: seq<real>)
    requires |out| <= |prev| <= |dw|
    ensures var r := PassFrom(f, step, ctx, prev, dw, out);
      && (r.Ok? <==> forall i :: |out| <= i < |prev| ==> step(RowContext(f, ctx, prev, dw, i)).Ok?)
      && (r.Ok? ==> && r.value.out[..|out|] == out
                    && (forall i :: |out| <= i < |prev| ==> step(RowContext(f, ctx, prev, dw, i)) == Ok(r.value.out[i]))
                    && r.value.ctx == if |out| == |prev| then ctx else RowContext(f, ctx, prev, dw, |prev| - 1))
    decreases |prev| - |out|
  {
    if |out| < |prev| {
      var k := |out|;
      var c := RowContext(f, ctx, prev, dw, k);
      var v := step(c);
      if v.Ok? {
        PassFromCells(f, step, c, prev, dw, out + [v.value]);
        forall j | k < j < |prev|
          ensures RowContext(f, c, prev, dw, j) == RowContext(f, ctx, prev, dw, j)
        {
          RowContextOverwrites(f, ctx, prev, dw, k, j);
        }
        var r := PassFrom(f, step, ctx, prev, dw, out);
        assert r == PassFrom(f, step, c, prev, dw, out + [v.value]);
        if r.Ok? {
          assert r.value.out[..k + 1][..k] == r.value.out[..k];
        }
      }
    }
  }

  /** A failing pass throws the error of its first failing row. */
  lemma {:induction false} PassFromFailure(f: Factor, step: Store -> Result<real>, ctx: Store, prev: seq<real>,
                                           dw: seq<real>, out: seq<real>)
    requires |out| <= |prev| <= |dw|
    requires PassFrom(f, step, ctx, prev, dw, out).Err?
    ensures exists i :: && |out| <= i < |prev|
                        && step(RowContext(f, ctx, prev, dw, i)) == Err(PassFrom(f, step, ctx, prev, dw, out).error)
                        && forall j :: |out| <= j < i ==> step(RowContext(f, ctx, prev, dw, j)).Ok?
    decreases |prev| - |out|
  {
    var k := |out|;
    var c := RowContext(f, ctx, prev, dw, k);
    var e := PassFrom(f, step, ctx, prev, dw, out).error;
    if step(c).Ok? {
      PassFromFailure(f, step, c, prev, dw, out + [step(c).value]);
      var i :| && k + 1 <= i < |prev|
               && step(RowContext(f, c, prev, dw, i)) == Err(e)
               && forall j :: k + 1 <= j < i ==> step(RowContext(f, c, prev, dw, j)).Ok?;
      RowContextOverwrites(f, ctx, prev, dw, k, i);
      forall j | k + 1 <= j < i
        ensures step(RowContext(f, ctx, prev, dw, j)).Ok?
      {
        RowContextOverwrites(f, ctx, prev, dw, k, j);
      }
      assert step(RowContext(f, ctx, prev, dw, i)) == Err(e);
    } else {
      assert step(RowContext(f, ctx, prev, dw, k)) == Err(e);
    }
  }

  /** The context the rate pass of column c + 1 starts from: the one the price
      pass's last row left. */
  function AfterPricePass(draw: Draw, sqrtDt: real, s: Paths, c: nat): Store
    requires Shaped(s, c + 1)
  {
    RowContext(Price, s.ctx, s.price[c], InnovationColumn(draw.spot, sqrtDt, c), Rows - 1)
  }

  /** The context the volatility pass of column c + 1 starts from. */
  function AfterRatePass(draw: Draw, sqrtDt: real, s: Paths, c: nat): Store
    requires Shaped(s, c + 1)
  {
    RowContext(Rate, AfterPricePass(draw, sqrtDt, s, c), s.rate[c], InnovationColumn(draw.rate, sqrtDt, c), Rows - 1)
  }

  /** A new column keeps the earlier ones; each of its cells is its factor's step
      in its own row's context, the passes running price, rate, volatility through
      one context; the context left behind is the volatility pass's last row. */
  lemma NextColumnCells(st: Steps, draw: Draw, sqrtDt: real, s: Paths, c: nat)
    requires Shaped(s, c + 1) && NextColumn(st, draw, sqrtDt, s, c).Ok?
    ensures var t := NextColumn(st, draw, sqrtDt, s, c).value;
      var rc := AfterPricePass(draw, sqrtDt, s, c);
      var vc := AfterRatePass(draw, sqrtDt, s, c);
      && t.price[..c + 1] == s.price && t.rate[..c + 1] == s.rate && t.vol[..c + 1] == s.vol
      && (forall r :: 0 <= r < Rows ==>
            st.price(RowContext(Price, s.ctx, s.price[c], InnovationColumn(draw.spot, sqrtDt, c), r))
            == Ok(t.price[c + 1][r]))
      && (forall r :: 0 <= r < Rows ==>
            st.rate(RowContext(Rate, rc, s.rate[c], InnovationColumn(draw.rate, sqrtDt, c), r))
            == Ok(t.rate[c + 1][r]))
      && (forall r :: 0 <= r < Rows ==>
            st.vol(RowContext(Vol, vc, s.vol[c], InnovationColumn(draw.volatility, sqrtDt, c), r))
            == Ok(t.vol[c + 1][r]))
      && t.ctx == RowContext(Vol, vc, s.vol[c], InnovationColumn(draw.volatility, sqrtDt, c), Rows - 1)
  {
    var dS := InnovationColumn(draw.spot, sqrtDt, c);
    var dR := InnovationColumn(draw.rate, sqrtDt, c);
    var dV := InnovationColumn(draw.volatility, sqrtDt, c);
    PassFromCells(Price, st.price, s.ctx, s.price[c], dS, []);
    var p := Pass(Price, st.price, s.ctx, s.price[c], dS).value;
    PassFromCells(Rate, st.rate, p.ctx, s.rate[c], dR, []);
    var q := Pass(Rate, st.rate, p.ctx, s.rate[c], dR).value;
    PassFromCells(Vol, st.vol, q.ctx, s.vol[c], dV, []);
  }

  /** A new column keeps the earlier ones. */
  lemma NextColumnPrefix(st: Steps, draw: Draw, sqrtDt: real, s: Paths, c: nat)
    requires Shaped(s, c + 1) && NextColumn(st, draw, sqrtDt, s, c).Ok?
    ensures var t := NextColumn(st, draw, sqrtDt, s, c).value;
      t.price[..c + 1] == s.price && t.rate[..c + 1] == s.rate && t.vol[..c + 1] == s.vol
  {
    NextColumnCells(st, draw, sqrtDt, s, c);
  }

  /** The keys a price step may read: St, rt, vt and dW_spot. */
  const PriceKeys: seq<string> := ["St", "rt", "vt", "dW_spot"]
  /** The keys a rate step may read: rt and dW_rate. */
  const RateKeys: seq<string> := ["rt", "dW_rate"]
  /** The keys a volatility step may read, for every model but Heston: vt and dW_volatility. */
  const VolKeys: seq<string> := ["vt", "dW_volatility"]

  /** A step that sees nothing of the context but the given keys. */
  ghost predicate ReadsOnly(step: Store -> Result<real>, keys: seq<string>)
  {
    forall c1, c2 :: AgreeOn(c1, c2, keys) ==> step(c1) == step(c2)
  }

  /** A step that can only succeed when key k holds a double. */
  ghost predicate NeedsKey(step: Store -> Result<real>, k: string)
  {
    forall c :: step(c).Ok? ==> HasReal(c, k)
  }

  /** The only context entries a price step reads: St, rt, vt and dW_spot. */
  function PriceCell(st: real, rt: real, vt: real, dw: real): Store
  {
    map[]["St" := RealValue(st)]["rt" := RealValue(rt)]["vt" := RealValue(vt)]["dW_spot" := RealValue(dw)]
  }

  /** The only context entries a rate step reads: rt and dW_rate. */
  function RateCell(rt: real, dw: real): Store
  {
    map[]["rt" := RealValue(rt)]["dW_rate" := RealValue(dw)]
  }

  /** The entries a volatility step reads, for every model but Heston: vt and dW_volatility. */
  function VolCell(vt: real, dw: real): Store
  {
    map[]["vt" := RealValue(vt)]["dW_volatility" := RealValue(dw)]
  }

  /** Agreement on a list of keys gives agreement on any keys drawn from it. */
  lemma AgreeOnFewer(c1: Store, c2: Store, keys: seq<string>, fewer: seq<string>)
    requires AgreeOn(c1, c2, keys) && forall i :: 0 <= i < |fewer| ==> fewer[i] in keys
    ensures AgreeOn(c1, c2, fewer)
  {
    forall i | 0 <= i < |fewer|
      ensures (fewer[i] in c1 <==> fewer[i] in c2) && (fewer[i] in c1 ==> c1[fewer[i]] == c2[fewer[i]])
    {
      var j :| 0 <= j < |keys| && keys[j] == fewer[i];
    }
  }

  /** Every asset and rate model reads only the price and rate keys, and every
      volatility model but Heston only the volatility keys. */
  lemma ModelStepsReadOnly(pm: PricingModel, mth: Math)
    ensures ReadsOnly(StepsOf(pm, mth).price, PriceKeys)
    ensures ReadsOnly(StepsOf(pm, mth).rate, RateKeys)
    ensures !pm.GetVolatilityModel().Heston? ==> ReadsOnly(StepsOf(pm, mth).vol, VolKeys)
  {
    var st := StepsOf(pm, mth);
    forall c1, c2 | AgreeOn(c1, c2, PriceKeys)
      ensures st.price(c1) == st.price(c2)
    {
      AgreeOnFewer(c1, c2, PriceKeys, PriceStepKeys(pm.GetAssetPriceModel()));
      SimulatePriceSeesOnlyItsKeys(pm.GetAssetPriceModel(), c1, c2, mth);
    }
    forall c1, c2 | AgreeOn(c1, c2, RateKeys)
      ensures st.rate(c1) == st.rate(c2)
    {
      AgreeOnFewer(c1, c2, RateKeys, RateStepKeys(pm.GetRateModel()));
      GetRateSeesOnlyItsKeys(pm.GetRateModel(), c1, c2, mth);
    }
    if !pm.GetVolatilityModel().Heston? {
      forall c1, c2 | AgreeOn(c1, c2, VolKeys)
        ensures st.vol(c1) == st.vol(c2)
      {
        AgreeOnFewer(c1, c2, VolKeys, VolStepKeys(pm.GetVolatilityModel()));
        GetVolatilitySeesOnlyItsKeys(pm.GetVolatilityModel(), c1, c2, mth);
      }
    }
  }

  /** Every asset model reads rt and vt; Heston reads the misspelt "dW_volatilit". */
  lemma ModelStepsNeedKeys(pm: PricingModel, mth: Math)
    ensures NeedsKey(StepsOf(pm, mth).price, "rt") && NeedsKey(StepsOf(pm, mth).price, "vt")
    ensures pm.GetVolatilityModel().Heston? ==> NeedsKey(StepsOf(pm, mth).vol, "dW_volatilit")
  {
    var am := pm.GetAssetPriceModel();
    forall c | SimulatePrice(am, c, mth).Ok?
      ensures HasReal(c, "rt") && HasReal(c, "vt")
    {
      if am.GBM? {
        assert HasReal(c, PriceStepKeys(am)[1]) && HasReal(c, PriceStepKeys(am)[2]);
      } else {
        assert HasReal(c, PriceStepKeys(am)[2]) && HasReal(c, PriceStepKeys(am)[3]);
      }
    }
    var vm := pm.GetVolatilityModel();
    if vm.Heston? {
      forall c | GetVolatility(vm, c, mth).Ok?
        ensures HasReal(c, "dW_volatilit")
      {
        assert HasReal(c, VolStepKeys(vm)[1]);
      }
    }
  }

  /** The six keys generate_paths writes into the context. */
  predicate IsWritten(k: string)
  {
    k == "St" || k == "rt" || k == "vt" || k == "dW_spot" || k == "dW_rate" || k == "dW_volatility"
  }

  /** Two contexts agree at key k: both lack it, or both hold the same value there. */
  predicate SameAt(a: Store, b: Store, k: string)
  {
    (k in a <==> k in b) && (k in b ==> a[k] == b[k])
  }

  /** Agreement at a key carries over through an intermediate context. */
  lemma SameAtTrans(a: Store, b: Store, d: Store, k: string)
    requires SameAt(a, b, k) && SameAt(b, d, k)
    ensures SameAt(a, d, k)
  {
  }

  /** A row's context differs from the pass's context only at the factor's two keys. */
  lemma RowContextKeeps(f: Factor, ctx: Store, prev: seq<real>, dw: seq<real>, i: nat, k: string)
    requires i < |prev| && i < |dw| && k != ValueKey(f) && k != ShockKey(f)
    ensures k in RowContext(f, ctx, prev, dw, i) <==> k in ctx
    ensures k in ctx ==> RowContext(f, ctx, prev, dw, i)[k] == ctx[k]
  {
  }

  /** Rate cell (r, c + 1) is the rate step applied to row r's own rate at column c
      and its own innovation, and to nothing else. */
  lemma NextColumnRates(st: Steps, draw: Draw, sqrtDt: real, s: Paths, c: nat)
    requires Shaped(s, c + 1) && NextColumn(st, draw, sqrtDt, s, c).Ok? && ReadsOnly(st.rate, RateKeys)
    ensures var t := NextColumn(st, draw, sqrtDt, s, c).value;
      forall r :: 0 <= r < Rows ==> st.rate(RateCell(s.rate[c][r], Innovation(draw.rate, sqrtDt, r, c))) == Ok(t.rate[c + 1][r])
  {
    NextColumnCells(st, draw, sqrtDt, s, c);
    var rc := AfterPricePass(draw, sqrtDt, s, c);
    var dR := InnovationColumn(draw.rate, sqrtDt, c);
    forall r | 0 <= r < Rows
      ensures st.rate(RowContext(Rate, rc, s.rate[c], dR, r)) == st.rate(RateCell(s.rate[c][r], dR[r]))
    {
      assert AgreeOn(RowContext(Rate, rc, s.rate[c], dR, r), RateCell(s.rate[c][r], dR[r]), RateKeys);
    }
  }

  /** Volatility cell (r, c + 1) is the volatility step applied to row r's own
      volatility at column c and its own innovation, and to nothing else. */
  lemma NextColumnVols(st: Steps, draw: Draw, sqrtDt: real, s: Paths, c: nat)
    requires Shaped(s, c + 1) && NextColumn(st, draw, sqrtDt, s, c).Ok? && ReadsOnly(st.vol, VolKeys)
    ensures var t := NextColumn(st, draw, sqrtDt, s, c).value;
      forall r :: 0 <= r < Rows ==>
        st.vol(VolCell(s.vol[c][r], Innovation(draw.volatility, sqrtDt, r, c))) == Ok(t.vol[c + 1][r])
  {
    NextColumnCells(st, draw, sqrtDt, s, c);
    var vc := AfterRatePass(draw, sqrtDt, s, c);
    var dV := InnovationColumn(draw.volatility, sqrtDt, c);
    forall r | 0 <= r < Rows
      ensures st.vol(RowContext(Vol, vc, s.vol[c], dV, r)) == st.vol(VolCell(s.vol[c][r], dV[r]))
    {
      assert AgreeOn(RowContext(Vol, vc, s.vol[c], dV, r), VolCell(s.vol[c][r], dV[r]), VolKeys);
    }
  }

  /** A column succeeds only if the context before it holds rt and vt as doubles:
      every price step reads them and the price pass does not write them. */
  lemma NextColumnReadsRtVt(st: Steps, draw: Draw, sqrtDt: real, s: Paths, c: nat)
    requires Shaped(s, c + 1) && NextColumn(st, draw, sqrtDt, s, c).Ok?
    requires NeedsKey(st.price, "rt") && NeedsKey(st.price, "vt")
    ensures HasReal(s.ctx, "rt") && HasReal(s.ctx, "vt")
  {
    NextColumnCells(st, draw, sqrtDt, s, c);
    var dS := InnovationColumn(draw.spot, sqrtDt, c);
    assert st.price(RowContext(Price, s.ctx, s.price[c], dS, 0)).Ok?;
    RowContextKeeps(Price, s.ctx, s.price[c], dS, 0, "rt");
    RowContextKeeps(Price, s.ctx, s.price[c], dS, 0, "vt");
  }

  /** Price cell (r, c + 1) is the price step applied to row r's own price at column c,
      its own innovation, and the rt and vt the context held before the column:
      the same two values for every row. */
  lemma NextColumnPrices(st: Steps, draw: Draw, sqrtDt: real, s: Paths, c: nat)
    requires Shaped(s, c + 1) && NextColumn(st, draw, sqrtDt, s, c).Ok?
    requires ReadsOnly(st.price, PriceKeys) && NeedsKey(st.price, "rt") && NeedsKey(st.price, "vt")
    ensures HasReal(s.ctx, "rt") && HasReal(s.ctx, "vt")
    ensures var t := NextColumn(st, draw, sqrtDt, s, c).value;
      forall r :: 0 <= r < Rows ==>
        st.price(PriceCell(s.price[c][r], s.ctx["rt"].r, s.ctx["vt"].r, Innovation(draw.spot, sqrtDt, r, c)))
        == Ok(t.price[c + 1][r])
  {
    NextColumnCells(st, draw, sqrtDt, s, c);
    NextColumnReadsRtVt(st, draw, sqrtDt, s, c);
    var dS := InnovationColumn(draw.spot, sqrtDt, c);
    forall r | 0 <= r < Rows
      ensures st.price(RowContext(Price, s.ctx, s.price[c], dS, r))
           == st.price(PriceCell(s.price[c][r], s.ctx["rt"].r, s.ctx["vt"].r, dS[r]))
    {
      assert AgreeOn(RowContext(Price, s.ctx, s.price[c], dS, r),
                     PriceCell(s.price[c][r], s.ctx["rt"].r, s.ctx["vt"].r, dS[r]), PriceKeys);
    }
  }

  /** A column whose volatility step needs "dW_volatilit" succeeds only if the
      context before it holds that key as a double: no pass writes it. */
  lemma NextColumnHestonKey(st: Steps, draw: Draw, sqrtDt: real, s: Paths, c: nat)
    requires Shaped(s, c + 1) && NextColumn(st, draw, sqrtDt, s, c).Ok? && NeedsKey(st.vol, "dW_volatilit")
    ensures HasReal(s.ctx, "dW_volatilit")
  {
    NextColumnCells(st, draw, sqrtDt, s, c);
    var rc := AfterPricePass(draw, sqrtDt, s, c);
    var vc := AfterRatePass(draw, sqrtDt, s, c);
    var dV := InnovationColumn(draw.volatility, sqrtDt, c);
    assert st.vol(RowContext(Vol, vc, s.vol[c], dV, 0)).Ok?;
    RowContextKeeps(Vol, vc, s.vol[c], dV, 0, "dW_volatilit");
    RowContextKeeps(Rate, rc, s.rate[c], InnovationColumn(draw.rate, sqrtDt, c), Rows - 1, "dW_volatilit");
    RowContextKeeps(Price, s.ctx, s.price[c], InnovationColumn(draw.spot, sqrtDt, c), Rows - 1, "dW_volatilit");
  }

  /** After a column the context holds row 199's rate and volatility of the column
      before it: the values the last rows overwrote rt and vt with. */
  lemma NextColumnContext(st: Steps, draw: Draw, sqrtDt: real, s: Paths, c: nat)
    requires Shaped(s, c + 1) && NextColumn(st, draw, sqrtDt, s, c).Ok?
    ensures var t := NextColumn(st, draw, sqrtDt, s, c).value;
      && "rt" in t.ctx && t.ctx["rt"] == RealValue(s.rate[c][Rows - 1])
      && "vt" in t.ctx && t.ctx["vt"] == RealValue(s.vol[c][Rows - 1])
  {
    NextColumnCells(st, draw, sqrtDt, s, c);
    var vc := AfterRatePass(draw, sqrtDt, s, c);
    RowContextKeeps(Vol, vc, s.vol[c], InnovationColumn(draw.volatility, sqrtDt, c), Rows - 1, "rt");
  }

  /** A column leaves every key the simulator does not write as it was. */
  lemma NextColumnKeepsUnwritten(st: Steps, draw: Draw, sqrtDt: real, s: Paths, c: nat, k: string)
    requires Shaped(s, c + 1) && NextColumn(st, draw, sqrtDt, s, c).Ok? && !IsWritten(k)
    ensures SameAt(NextColumn(st, draw, sqrtDt, s, c).value.ctx, s.ctx, k)
  {
    NextColumnCells(st, draw, sqrtDt, s, c);
    var rc := AfterPricePass(draw, sqrtDt, s, c);
    var vc := AfterRatePass(draw, sqrtDt, s, c);
    RowContextKeeps(Price, s.ctx, s.price[c], InnovationColumn(draw.spot, sqrtDt, c), Rows - 1, k);
    RowContextKeeps(Rate, rc, s.rate[c], InnovationColumn(draw.rate, sqrtDt, c), Rows - 1, k);
    RowContextKeeps(Vol, vc, s.vol[c], InnovationColumn(draw.volatility, sqrtDt, c), Rows - 1, k);
  }

  /** A successful run from column c < n made column c + 1 and went on from there. */
  lemma ColumnsFromUnfolds(st: Steps, draw: Draw, sqrtDt: real, s: Paths, c: nat, n: nat)
    requires Shaped(s, c + 1) && c < n && ColumnsFrom(st, draw, sqrtDt, s, c, n).Ok?
    ensures NextColumn(st, draw, sqrtDt, s, c).Ok?
    ensures ColumnsFrom(st, draw, sqrtDt, s, c, n)
         == ColumnsFrom(st, draw, sqrtDt, NextColumn(st, draw, sqrtDt, s, c).value, c + 1, n)
  {
  }

  /** Later columns never change earlier ones. */
  lemma {:induction false} ColumnsFromPrefix(st: Steps, draw: Draw, sqrtDt: real, s: Paths, c: nat, n: nat)
    requires Shaped(s, c + 1) && c <= n && ColumnsFrom(st, draw, sqrtDt, s, c, n).Ok?
    ensures var g := ColumnsFrom(st, draw, sqrtDt, s, c, n).value;
      g.price[..c + 1] == s.price && g.rate[..c + 1] == s.rate && g.vol[..c + 1] == s.vol
    decreases n - c
  {
    if c < n {
      ColumnsFromUnfolds(st, draw, sqrtDt, s, c, n);
      var t := NextColumn(st, draw, sqrtDt, s, c).value;
      NextColumnPrefix(st, draw, sqrtDt, s, c);
      ColumnsFromPrefix(st, draw, sqrtDt, t, c + 1, n);
      var g := ColumnsFrom(st, draw, sqrtDt, s, c, n).value;
      assert g.price[..c + 1] == g.price[..c + 2][..c + 1];
      assert g.rate[..c + 1] == g.rate[..c + 2][..c + 1];
      assert g.vol[..c + 1] == g.vol[..c + 2][..c + 1];
    }
  }

  /** Every rate cell after column c is the rate step applied to its own row's
      previous rate and innovation. */
  lemma {:induction false} ColumnsFromRates(st: Steps, draw: Draw, sqrtDt: real, s: Paths, c: nat, n: nat)
    requires Shaped(s, c + 1) && c <= n && ColumnsFrom(st, draw, sqrtDt, s, c, n).Ok? && ReadsOnly(st.rate, RateKeys)
    ensures var g := ColumnsFrom(st, draw, sqrtDt, s, c, n).value;
      forall j, r :: c <= j < n && 0 <= r < Rows ==>
        st.rate(RateCell(g.rate[j][r], Innovation(draw.rate, sqrtDt, r, j))) == Ok(g.rate[j + 1][r])
    decreases n - c
  {
    if c < n {
      ColumnsFromUnfolds(st, draw, sqrtDt, s, c, n);
      var t := NextColumn(st, draw, sqrtDt, s, c).value;
      NextColumnRates(st, draw, sqrtDt, s, c);
      NextColumnPrefix(st, draw, sqrtDt, s, c);
      ColumnsFromRates(st, draw, sqrtDt, t, c + 1, n);
      ColumnsFromPrefix(st, draw, sqrtDt, t, c + 1, n);
      var g := ColumnsFrom(st, draw, sqrtDt, s, c, n).value;
      forall j, r | c <= j < n && 0 <= r < Rows
        ensures st.rate(RateCell(g.rate[j][r], Innovation(draw.rate, sqrtDt, r, j))) == Ok(g.rate[j + 1][r])
      {
        if j == c {
          assert g.rate[c] == t.rate[c] == s.rate[c] && g.rate[c + 1] == t.rate[c + 1] by {
            assert g.rate[..c + 2][c] == g.rate[c] && g.rate[..c + 2][c + 1] == g.rate[c + 1];
            assert t.rate[..c + 1][c] == t.rate[c];
          }
        }
      }
    }
  }

  /** Every volatility cell after column c is the volatility step applied to its
      own row's previous volatility and innovation. */
  lemma {:induction false} ColumnsFromVols(st: Steps, draw: Draw, sqrtDt: real, s: Paths, c: nat, n: nat)
    requires Shaped(s, c + 1) && c <= n && ColumnsFrom(st, draw, sqrtDt, s, c, n).Ok? && ReadsOnly(st.vol, VolKeys)
    ensures var g := ColumnsFrom(st, draw, sqrtDt, s, c, n).value;
      forall j, r :: c <= j < n && 0 <= r < Rows ==>
        st.vol(VolCell(g.vol[j][r], Innovation(draw.volatility, sqrtDt, r, j))) == Ok(g.vol[j + 1][r])
    decreases n - c
  {
    if c < n {
      ColumnsFromUnfolds(st, draw, sqrtDt, s, c, n);
      var t := NextColumn(st, draw, sqrtDt, s, c).value;
      NextColumnVols(st, draw, sqrtDt, s, c);
      NextColumnPrefix(st, draw, sqrtDt, s, c);
      ColumnsFromVols(st, draw, sqrtDt, t, c + 1, n);
      ColumnsFromPrefix(st, draw, sqrtDt, t, c + 1, n);
      var g := ColumnsFrom(st, draw, sqrtDt, s, c, n).value;
      forall j, r | c <= j < n && 0 <= r < Rows
        ensures st.vol(VolCell(g.vol[j][r], Innovation(draw.volatility, sqrtDt, r, j))) == Ok(g.vol[j + 1][r])
      {
        if j == c {
          assert g.vol[c] == t.vol[c] == s.vol[c] && g.vol[c + 1] == t.vol[c + 1] by {
            assert g.vol[..c + 2][c] == g.vol[c] && g.vol[..c + 2][c + 1] == g.vol[c + 1];
            assert t.vol[..c + 1][c] == t.vol[c];
          }
        }
      }
    }
  }

  /** The rate the price step of column j + 1 sees: the context's rt before column
      c + 1, and afterwards row 199 of the rate column j - 1. */
  function RtSeen(g: Paths, s: Paths, c: nat, j: nat): real
    requires HasReal(s.ctx, "rt") && c <= j && (j > c ==> j <= |g.rate| && |g.rate[j - 1]| == Rows)
  {
    if j == c then s.ctx["rt"].r else g.rate[j - 1][Rows - 1]
  }

  /** The volatility the price step of column j + 1 sees, likewise. */
  function VtSeen(g: Paths, s: Paths, c: nat, j: nat): real
    requires HasReal(s.ctx, "vt") && c <= j && (j > c ==> j <= |g.vol| && |g.vol[j - 1]| == Rows)
  {
    if j == c then s.ctx["vt"].r else g.vol[j - 1][Rows - 1]
  }

  /** Every price cell after column c is the price step applied to its own row's
      previous price and innovation, with the rt and vt last written to the shared
      context: those before column c + 1, then row 199 of the rate and volatility
      two columns back. */
  lemma {:induction false} ColumnsFromPrices(st: Steps, draw: Draw, sqrtDt: real, s: Paths, c: nat, n: nat)
    requires Shaped(s, c + 1) && c <= n && ColumnsFrom(st, draw, sqrtDt, s, c, n).Ok?
    requires ReadsOnly(st.price, PriceKeys) && NeedsKey(st.price, "rt") && NeedsKey(st.price, "vt")
    ensures c < n ==> HasReal(s.ctx, "rt") && HasReal(s.ctx, "vt")
    ensures var g := ColumnsFrom(st, draw, sqrtDt, s, c, n).value;
      forall j, r :: c <= j < n && 0 <= r < Rows ==>
        st.price(PriceCell(g.price[j][r], RtSeen(g, s, c, j), VtSeen(g, s, c, j), Innovation(draw.spot, sqrtDt, r, j)))
        == Ok(g.price[j + 1][r])
    decreases n - c
  {
    if c < n {
      ColumnsFromUnfolds(st, draw, sqrtDt, s, c, n);
      var t := NextColumn(st, draw, sqrtDt, s, c).value;
      NextColumnPrices(st, draw, sqrtDt, s, c);
      NextColumnPrefix(st, draw, sqrtDt, s, c);
      NextColumnContext(st, draw, sqrtDt, s, c);
      ColumnsFromPrices(st, draw, sqrtDt, t, c + 1, n);
      ColumnsFromPrefix(st, draw, sqrtDt, t, c + 1, n);
      var g := ColumnsFrom(st, draw, sqrtDt, s, c, n).value;
      forall j, r | c <= j < n && 0 <= r < Rows
        ensures st.price(PriceCell(g.price[j][r], RtSeen(g, s, c, j), VtSeen(g, s, c, j),
                                   Innovation(draw.spot, sqrtDt, r, j)))
                == Ok(g.price[j + 1][r])
      {
        if j == c {
          assert g.price[c] == s.price[c] && g.price[c + 1] == t.price[c + 1] by {
            assert g.price[..c + 2][c] == g.price[c] && g.price[..c + 2][c + 1] == g.price[c + 1];
            assert t.price[..c + 1][c] == t.price[c];
          }
        } else {
          assert RtSeen(g, t, c + 1, j) == RtSeen(g, s, c, j) && VtSeen(g, t, c + 1, j) == VtSeen(g, s, c, j) by {
            if j == c + 1 {
              assert g.rate[..c + 2][c] == g.rate[c] && g.vol[..c + 2][c] == g.vol[c];
              assert t.rate[..c + 1][c] == t.rate[c] && t.vol[..c + 1][c] == t.vol[c];
            }
          }
        }
      }
    }
  }

  /** The keys generate_paths does not write keep the value they had before column c + 1. */
  lemma {:induction false} ColumnsFromKeepsUnwritten(st: Steps, draw: Draw, sqrtDt: real, s: Paths, c: nat, n: nat, k: string)
    requires Shaped(s, c + 1) && c <= n && ColumnsFrom(st, draw, sqrtDt, s, c, n).Ok? && !IsWritten(k)
    ensures SameAt(ColumnsFrom(st, draw, sqrtDt, s, c, n).value.ctx, s.ctx, k)
    decreases n - c
  {
    if c < n {
      ColumnsFromUnfolds(st, draw, sqrtDt, s, c, n);
      var t := NextColumn(st, draw, sqrtDt, s, c).value;
      NextColumnKeepsUnwritten(st, draw, sqrtDt, s, c, k);
      ColumnsFromKeepsUnwritten(st, draw, sqrtDt, t, c + 1, n, k);
      SameAtTrans(ColumnsFrom(st, draw, sqrtDt, t, c + 1, n).value.ctx, t.ctx, s.ctx, k);
    }
  }

  /** The context the columns start from: the caller's, with St, rt and vt set to
      spot, rate and volatility. */
  function SeededContext(ctx: Store): Store
    requires HasReal(ctx, "spot") && HasReal(ctx, "rate") && HasReal(ctx, "volatility")
  {
    ctx["St" := ctx["spot"]]["rt" := ctx["rate"]]["vt" := ctx["volatility"]]
  }

  /** The sqrt(dt) every innovation is scaled by. */
  function SqrtDt(ctx: Store, mth: Math): real
    requires HasReal(ctx, "dt")
  {
    mth.sqrt(ctx["dt"].r)
  }

  /** generate_paths reads dt, spot, rate and volatility in that order, each as a
      double, and throws the first failure (Key not found when the key is absent). */
  lemma GenerateReadsSeedKeys(pm: PricingModel, ctx: Store, n: nat, draw: Draw, mth: Math)
    ensures Generate(pm, ctx, n, draw, mth).Ok? ==>
      HasReal(ctx, "dt") && HasReal(ctx, "spot") && HasReal(ctx, "rate") && HasReal(ctx, "volatility")
    ensures !HasReal(ctx, "dt") ==> Generate(pm, ctx, n, draw, mth) == Err(GetReal(ctx, "dt").error)
    ensures HasReal(ctx, "dt") && !HasReal(ctx, "spot") ==>
      Generate(pm, ctx, n, draw, mth) == Err(GetReal(ctx, "spot").error)
    ensures HasReal(ctx, "dt") && HasReal(ctx, "spot") && !HasReal(ctx, "rate") ==>
      Generate(pm, ctx, n, draw, mth) == Err(GetReal(ctx, "rate").error)
    ensures HasReal(ctx, "dt") && HasReal(ctx, "spot") && HasReal(ctx, "rate") && !HasReal(ctx, "volatility") ==>
      Generate(pm, ctx, n, draw, mth) == Err(GetReal(ctx, "volatility").error)
    ensures "dt" !in ctx ==> Generate(pm, ctx, n, draw, mth) == Err(KeyNotFound("dt"))
    ensures HasReal(ctx, "dt") && "spot" !in ctx ==> Generate(pm, ctx, n, draw, mth) == Err(KeyNotFound("spot"))
  {
  }

  /** When the seed keys are doubles, generation is the column run from the seeded
      first column and context. */
  lemma GenerateUnfolds(pm: PricingModel, ctx: Store, n: nat, draw: Draw, mth: Math)
    requires HasReal(ctx, "dt") && HasReal(ctx, "spot") && HasReal(ctx, "rate") && HasReal(ctx, "volatility")
    ensures Generate(pm, ctx, n, draw, mth)
         == ColumnsFrom(StepsOf(pm, mth), draw, SqrtDt(ctx, mth),
                        Seed(ctx["spot"].r, ctx["rate"].r, ctx["volatility"].r, SeededContext(ctx)), 0, n)
  {
    var c1 := ctx["St" := RealValue(ctx["spot"].r)];
    assert GetReal(c1, "rate") == Ok(ctx["rate"].r);
    var c2 := c1["rt" := RealValue(ctx["rate"].r)];
    assert GetReal(c2, "volatility") == Ok(ctx["volatility"].r);
  }

  /** Column 0 of every matrix holds spot, rate and volatility in every row. */
  lemma GenerateSeedsColumnZero(pm: PricingModel, ctx: Store, n: nat, draw: Draw, mth: Math)
    requires Generate(pm, ctx, n, draw, mth).Ok?
    ensures HasReal(ctx, "spot") && HasReal(ctx, "rate") && HasReal(ctx, "volatility")
    ensures var g := Generate(pm, ctx, n, draw, mth).value;
      forall r :: 0 <= r < Rows ==>
        g.price[0][r] == ctx["spot"].r && g.rate[0][r] == ctx["rate"].r && g.vol[0][r] == ctx["volatility"].r
  {
    GenerateReadsSeedKeys(pm, ctx, n, draw, mth);
    GenerateUnfolds(pm, ctx, n, draw, mth);
    var seed := Seed(ctx["spot"].r, ctx["rate"].r, ctx["volatility"].r, SeededContext(ctx));
    ColumnsFromPrefix(StepsOf(pm, mth), draw, SqrtDt(ctx, mth), seed, 0, n);
    var g := Generate(pm, ctx, n, draw, mth).value;
    assert g.price[0] == g.price[..1][0] && g.rate[0] == g.rate[..1][0] && g.vol[0] == g.vol[..1][0];
  }

  /** With numSteps = 0 nothing but the seeded column 0 is produced. */
  lemma NoStepsOnlyColumnZero(pm: PricingModel, ctx: Store, draw: Draw, mth: Math)
    ensures Generate(pm, ctx, 0, draw, mth).Ok? <==>
      HasReal(ctx, "dt") && HasReal(ctx, "spot") && HasReal(ctx, "rate") && HasReal(ctx, "volatility")
    ensures Generate(pm, ctx, 0, draw, mth).Ok? ==>
      Generate(pm, ctx, 0, draw, mth).value
      == Seed(ctx["spot"].r, ctx["rate"].r, ctx["volatility"].r, SeededContext(ctx))
  {
    GenerateReadsSeedKeys(pm, ctx, 0, draw, mth);
    if HasReal(ctx, "dt") && HasReal(ctx, "spot") && HasReal(ctx, "rate") && HasReal(ctx, "volatility") {
      GenerateUnfolds(pm, ctx, 0, draw, mth);
    }
  }

  /** Rate cell (r, j + 1) is the rate model applied to row r's own rate at column j
      and its own innovation. */
  lemma GenerateRateCell(pm: PricingModel, ctx: Store, n: nat, draw: Draw, mth: Math, j: nat, r: nat)
    requires Generate(pm, ctx, n, draw, mth).Ok? && j < n && r < Rows
    ensures HasReal(ctx, "dt")
    ensures var g := Generate(pm, ctx, n, draw, mth).value;
      GetRate(pm.GetRateModel(), RateCell(g.rate[j][r], Innovation(draw.rate, SqrtDt(ctx, mth), r, j)), mth)
      == Ok(g.rate[j + 1][r])
  {
    GenerateReadsSeedKeys(pm, ctx, n, draw, mth);
    GenerateUnfolds(pm, ctx, n, draw, mth);
    var seed := Seed(ctx["spot"].r, ctx["rate"].r, ctx["volatility"].r, SeededContext(ctx));
    ModelStepsReadOnly(pm, mth);
    ColumnsFromRates(StepsOf(pm, mth), draw, SqrtDt(ctx, mth), seed, 0, n);
  }

  /** Volatility cell (r, j + 1), for every model but Heston, is the model applied to
      row r's own volatility at column j and its own innovation. */
  lemma GenerateVolCell(pm: PricingModel, ctx: Store, n: nat, draw: Draw, mth: Math, j: nat, r: nat)
    requires Generate(pm, ctx, n, draw, mth).Ok? && j < n && r < Rows
    requires !pm.GetVolatilityModel().Heston?
    ensures HasReal(ctx, "dt")
    ensures var g := Generate(pm, ctx, n, draw, mth).value;
      GetVolatility(pm.GetVolatilityModel(), VolCell(g.vol[j][r], Innovation(draw.volatility, SqrtDt(ctx, mth), r, j)), mth)
      == Ok(g.vol[j + 1][r])
  {
    GenerateReadsSeedKeys(pm, ctx, n, draw, mth);
    GenerateUnfolds(pm, ctx, n, draw, mth);
    var seed := Seed(ctx["spot"].r, ctx["rate"].r, ctx["volatility"].r, SeededContext(ctx));
    ModelStepsReadOnly(pm, mth);
    ColumnsFromVols(StepsOf(pm, mth), draw, SqrtDt(ctx, mth), seed, 0, n);
  }

  /** Price cell (r, j + 1) is the asset model applied to row r's own price at column
      j and its own innovation, but to the rt and vt last written to the shared
      context: the initial rate and volatility for column 1, and for every later
      column row 199's rate and volatility two columns back. */
  lemma GeneratePriceCell(pm: PricingModel, ctx: Store, n: nat, draw: Draw, mth: Math, j: nat, r: nat)
    requires Generate(pm, ctx, n, draw, mth).Ok? && j < n && r < Rows
    ensures HasReal(ctx, "dt") && HasReal(ctx, "rate") && HasReal(ctx, "volatility")
    ensures var g := Generate(pm, ctx, n, draw, mth).value;
      var rt := if j == 0 then ctx["rate"].r else g.rate[j - 1][Rows - 1];
      var vt := if j == 0 then ctx["volatility"].r else g.vol[j - 1][Rows - 1];
      SimulatePrice(pm.GetAssetPriceModel(), PriceCell(g.price[j][r], rt, vt, Innovation(draw.spot, SqrtDt(ctx, mth), r, j)), mth)
      == Ok(g.price[j + 1][r])
  {
    GenerateReadsSeedKeys(pm, ctx, n, draw, mth);
    GenerateUnfolds(pm, ctx, n, draw, mth);
    var seed := Seed(ctx["spot"].r, ctx["rate"].r, ctx["volatility"].r, SeededContext(ctx));
    ModelStepsReadOnly(pm, mth);
    ModelStepsNeedKeys(pm, mth);
    ColumnsFromPrices(StepsOf(pm, mth), draw, SqrtDt(ctx, mth), seed, 0, n);
    var g := Generate(pm, ctx, n, draw, mth).value;
    assert RtSeen(g, seed, 0, j) == if j == 0 then ctx["rate"].r else g.rate[j - 1][Rows - 1];
    assert VtSeen(g, seed, 0, j) == if j == 0 then ctx["volatility"].r else g.vol[j - 1][Rows - 1];
  }

  /** Under the constant rate model every entry of the rate matrix is the initial rate. */
  lemma {:induction false} ConstantRateFlat(pm: PricingModel, ctx: Store, n: nat, draw: Draw, mth: Math, j: nat, r: nat)
    requires Generate(pm, ctx, n, draw, mth).Ok? && pm.GetRateModel().ConstantRate? && j <= n && r < Rows
    ensures HasReal(ctx, "rate")
    ensures Generate(pm, ctx, n, draw, mth).value.rate[j][r] == ctx["rate"].r
    decreases j
  {
    GenerateSeedsColumnZero(pm, ctx, n, draw, mth);
    if j > 0 {
      ConstantRateFlat(pm, ctx, n, draw, mth, j - 1, r);
      GenerateRateCell(pm, ctx, n, draw, mth, j - 1, r);
      var g := Generate(pm, ctx, n, draw, mth).value;
      ConstantRateCell(g.rate[j - 1][r], Innovation(draw.rate, SqrtDt(ctx, mth), r, j - 1), mth);
    }
  }

  /** The constant rate model returns the rate a cell holds. */
  lemma ConstantRateCell(rt: real, dw: real, mth: Math)
    ensures GetRate(ConstantRate, RateCell(rt, dw), mth) == Ok(rt)
  {
    assert HasReal(RateCell(rt, dw), "rt");
  }

  /** The Heston update reads "dW_volatilit", which generate_paths never writes: with
      at least one step it can only succeed if the caller's context holds that key
      as a double, and it fails whenever the key is absent. */
  lemma HestonNeedsCallerKey(pm: PricingModel, ctx: Store, n: nat, draw: Draw, mth: Math)
    requires pm.GetVolatilityModel().Heston? && n >= 1
    ensures Generate(pm, ctx, n, draw, mth).Ok? ==> HasReal(ctx, "dW_volatilit")
    ensures "dW_volatilit" !in ctx ==> Generate(pm, ctx, n, draw, mth).Err?
  {
    if Generate(pm, ctx, n, draw, mth).Ok? {
      GenerateReadsSeedKeys(pm, ctx, n, draw, mth);
      GenerateUnfolds(pm, ctx, n, draw, mth);
      var seed := Seed(ctx["spot"].r, ctx["rate"].r, ctx["volatility"].r, SeededContext(ctx));
      ModelStepsNeedKeys(pm, mth);
      ColumnsFromUnfolds(StepsOf(pm, mth), draw, SqrtDt(ctx, mth), seed, 0, n);
      NextColumnHestonKey(StepsOf(pm, mth), draw, SqrtDt(ctx, mth), seed, 0);
    }
  }

  /** Keys other than the six it writes are left in the context as the caller had them. */
  lemma GenerateKeepsUnwritten(pm: PricingModel, ctx: Store, n: nat, draw: Draw, mth: Math, k: string)
    requires Generate(pm, ctx, n, draw, mth).Ok? && !IsWritten(k)
    ensures SameAt(Generate(pm, ctx, n, draw, mth).value.ctx, ctx, k)
  {
    GenerateReadsSeedKeys(pm, ctx, n, draw, mth);
    GenerateUnfolds(pm, ctx, n, draw, mth);
    var seed := Seed(ctx["spot"].r, ctx["rate"].r, ctx["volatility"].r, SeededContext(ctx));
    ColumnsFromKeepsUnwritten(StepsOf(pm, mth), draw, SqrtDt(ctx, mth), seed, 0, n, k);
  }
}
