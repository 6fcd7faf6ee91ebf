/** Payoff functors: each maps a path matrix (one row per path, one column per
    time point) to one payoff per row. */
module Payoffs {
  import opened Common
  import opened Context

  datatype Payoff = EuropeanCall | EuropeanPut | Barrier | Asian | Lookback

  /** getName(). */
  function Name(p: Payoff): (n: string)
    ensures n == "EuropeanCallPayoff" <==> p.EuropeanCall?
    ensures n == "EuropeanPutPayoff" <==> p.EuropeanPut?
    ensures n == "BarrierPayoff" <==> p.Barrier?
    ensures n == "AsianPayoff" <==> p.Asian?
    ensures n == "LookbackPayoff" <==> p.Lookback?
  {
    match p
    case EuropeanCall => "EuropeanCallPayoff"
    case EuropeanPut => "EuropeanPutPayoff"
    case Barrier => "BarrierPayoff"
    case Asian => "AsianPayoff"
    case Lookback => "LookbackPayoff"
  }

  /** Every path has at least one time point, so its last price exists. */
  predicate NonEmptyRows(paths: seq<seq<real>>)
  {
    forall i :: 0 <= i < |paths| ==> |paths[i]| > 0
  }

  function Last(row: seq<real>): real
    requires |row| > 0
  {
    row[|row| - 1]
  }

  /** rowwise().maxCoeff(): an entry of the row that no entry exceeds. */
  function RowMax(row: seq<real>): (m: real)
    requires |row| > 0
    ensures forall j :: 0 <= j < |row| ==> row[j] <= m
    ensures exists j :: 0 <= j < |row| && row[j] == m
  {
    if |row| == 1 then row[0]
    else
      var m := RowMax(row[..|row| - 1]);
      assert forall j :: 0 <= j < |row| - 1 ==> row[..|row| - 1][j] == row[j];
      if row[|row| - 1] > m then row[|row| - 1] else m
  }

  /** rowwise().minCoeff(): an entry of the row that no entry undercuts. */
  function RowMin(row: seq<real>): (m: real)
    requires |row| > 0
    ensures forall j :: 0 <= j < |row| ==> m <= row[j]
    ensures exists j :: 0 <= j < |row| && row[j] == m
  {
    if |row| == 1 then row[0]
    else
      var m := RowMin(row[..|row| - 1]);
      assert forall j :: 0 <= j < |row| - 1 ==> row[..|row| - 1][j] == row[j];
      if row[|row| - 1] < m then row[|row| - 1] else m
  }

  /** The European call: max(last price - strike, 0) per row. */
  function CallPayoff(ctx: Store, paths: seq<seq<real>>): (r: Result<seq<real>>)
    requires NonEmptyRows(paths)
    ensures r.Ok? <==> HasReal(ctx, "strike")
    ensures r.Err? ==> r == Err(GetReal(ctx, "strike").error)
    ensures r.Ok? ==> |r.value| == |paths| && forall i :: 0 <= i < |paths| ==>
      var x := Last(paths[i]) - ctx["strike"].r;
      r.value[i] >= 0.0 && r.value[i] >= x && (r.value[i] == 0.0 || r.value[i] == x)
  {
    var k :- GetReal(ctx, "strike");
    Ok(seq(|paths|, i requires 0 <= i < |paths| => Max0(Last(paths[i]) - k)))
  }

  /** The European put: max(strike - last price, 0) per row. */
  function PutPayoff(ctx: Store, paths: seq<seq<real>>): (r: Result<seq<real>>)
    requires NonEmptyRows(paths)
    ensures r.Ok? <==> HasReal(ctx, "strike")
    ensures r.Err? ==> r == Err(GetReal(ctx, "strike").error)
    ensures r.Ok? ==> |r.value| == |paths| && forall i :: 0 <= i < |paths| ==>
      var x := ctx["strike"].r - Last(paths[i]);
      r.value[i] >= 0.0 && r.value[i] >= x && (r.value[i] == 0.0 || r.value[i] == x)
  {
    var k :- GetReal(ctx, "strike");
    Ok(seq(|paths|, i requires 0 <= i < |paths| => Max0(k - Last(paths[i]))))
  }

  /** The Asian payoff: max(row mean - strike, 0), the mean taken over every
      column of the row, column 0 included. */
  function AsianPayoff(ctx: Store, paths: seq<seq<real>>): (r: Result<seq<real>>)
    requires NonEmptyRows(paths)
    ensures r.Ok? <==> HasReal(ctx, "strike")
    ensures r.Err? ==> r == Err(GetReal(ctx, "strike").error)
    ensures r.Ok? ==> |r.value| == |paths| && forall i :: 0 <= i < |paths| ==>
      var x := Mean(paths[i]) - ctx["strike"].r;
      r.value[i] >= 0.0 && r.value[i] >= x && (r.value[i] == 0.0 || r.value[i] == x)
  {
    var k :- GetReal(ctx, "strike");
    Ok(seq(|paths|, i requires 0 <= i < |paths| => Max0(Mean(paths[i]) - k)))
  }

  /** The lookback payoff: max(row maximum - strike, 0). */
  function LookbackPayoff(ctx: Store, paths: seq<seq<real>>): (r: Result<seq<real>>)
    requires NonEmptyRows(paths)
    ensures r.Ok? <==> HasReal(ctx, "strike")
    ensures r.Err? ==> r == Err(GetReal(ctx, "strike").error)
    ensures r.Ok? ==> |r.value| == |paths| && forall i :: 0 <= i < |paths| ==>
      var x := RowMax(paths[i]) - ctx["strike"].r;
      r.value[i] >= 0.0 && r.value[i] >= x && (r.value[i] == 0.0 || r.value[i] == x)
  {
    var k :- GetReal(ctx, "strike");
    Ok(seq(|paths|, i requires 0 <= i < |paths| => Max0(RowMax(paths[i]) - k)))
  }

  /** Row by row, call minus put is the last price minus the strike. */
  lemma CallPutParity(ctx: Store, paths: seq<seq<real>>, i: int)
    requires NonEmptyRows(paths) && HasReal(ctx, "strike") && 0 <= i < |paths|
    ensures CallPayoff(ctx, paths).value[i] - PutPayoff(ctx, paths).value[i]
         == Last(paths[i]) - ctx["strike"].r
  {
  }

  /** The lookback payoff never falls below the call payoff: the row maximum is at
      least the last price. */
  lemma LookbackDominatesCall(ctx: Store, paths: seq<seq<real>>, i: int)
    requires NonEmptyRows(paths) && HasReal(ctx, "strike") && 0 <= i < |paths|
    ensures LookbackPayoff(ctx, paths).value[i] >= CallPayoff(ctx, paths).value[i]
  {
    assert paths[i][|paths[i]| - 1] <= RowMax(paths[i]);
  }

  lemma {:induction false} SumAtMostCountTimesBound(row: seq<real>, m: real)
    requires forall j :: 0 <= j < |row| ==> row[j] <= m
    ensures Sum(row) <= (|row| as real) * m
    decreases |row|
  {
    if row != [] {
      var init := row[..|row| - 1];
      assert forall j :: 0 <= j < |init| ==> init[j] == row[j];
      SumAtMostCountTimesBound(init, m);
    }
  }

  lemma {:induction false} SumOfConstant(row: seq<real>, c: real)
    requires forall j :: 0 <= j < |row| ==> row[j] == c
    ensures Sum(row) == (|row| as real) * c
    decreases |row|
  {
    if row != [] {
      var init := row[..|row| - 1];
      assert forall j :: 0 <= j < |init| ==> init[j] == row[j];
      SumOfConstant(init, c);
    }
  }

  /** A quotient by a positive count is at most m when the dividend is at most count * m. */
  lemma QuotientAtMost(a: real, n: real, m: real)
    requires n > 0.0 && a <= n * m
    ensures a / n <= m
  {
    var q := a / n;
    assert q * n == a;
    if q > m {
      assert (q - m) * n > 0.0;
    }
  }

  /** A row's mean is at most any bound on its entries. */
  lemma MeanAtMost(row: seq<real>, m: real)
    requires |row| > 0 && forall j :: 0 <= j < |row| ==> row[j] <= m
    ensures Mean(row) <= m
  {
    SumAtMostCountTimesBound(row, m);
    QuotientAtMost(Sum(row), |row| as real, m);
  }

  /** The Asian payoff never exceeds the lookback payoff: a mean is at most the maximum. */
  lemma AsianAtMostLookback(ctx: Store, paths: seq<seq<real>>, i: int)
    requires NonEmptyRows(paths) && HasReal(ctx, "strike") && 0 <= i < |paths|
    ensures AsianPayoff(ctx, paths).value[i] <= LookbackPayoff(ctx, paths).value[i]
  {
    MeanAtMost(paths[i], RowMax(paths[i]));
  }

  /** On a path that never moves, the Asian, lookback and call payoffs agree. */
  lemma FlatPathPayoffsAgree(ctx: Store, paths: seq<seq<real>>, i: int, c: real)
    requires NonEmptyRows(paths) && HasReal(ctx, "strike") && 0 <= i < |paths|
    requires forall j :: 0 <= j < |paths[i]| ==> paths[i][j] == c
    ensures AsianPayoff(ctx, paths).value[i] == CallPayoff(ctx, paths).value[i]
    ensures LookbackPayoff(ctx, paths).value[i] == CallPayoff(ctx, paths).value[i]
  {
    var row := paths[i];
    SumOfConstant(row, c);
    assert Mean(row) == c;
  }

  /** The inner payoff of a barrier option, chosen by name. */
  function VanillaByName(name: string): (r: Result<Payoff>)
    ensures r.Ok? <==> name == Name(EuropeanCall) || name == Name(EuropeanPut)
    ensures r.Ok? ==> Name(r.value) == name && (r.value.EuropeanCall? || r.value.EuropeanPut?)
    ensures r.Err? ==> r.error == UnknownPayoffType(name)
  {
    if name == "EuropeanCallPayoff" then Ok(EuropeanCall)
    else if name == "EuropeanPutPayoff" then Ok(EuropeanPut)
    else Err(UnknownPayoffType(name))
  }

  /** Looking up a vanilla payoff by its own name gives it back. */
  lemma VanillaNameRoundTrip(p: Payoff)
    requires p.EuropeanCall? || p.EuropeanPut?
    ensures VanillaByName(Name(p)) == Ok(p)
  {
  }

  /** getName tells the payoffs apart, and only the two European names resolve as
      a barrier's inner payoff: the barrier's own name and the Asian and lookback
      names give the unknown-payoff error. */
  lemma NameIdentifiesPayoff(p: Payoff, q: Payoff)
    ensures Name(p) == Name(q) <==> p == q
    ensures VanillaByName(Name(p)).Ok? <==> p.EuropeanCall? || p.EuropeanPut?
    ensures VanillaByName(Name(Barrier)) == Err(UnknownPayoffType("BarrierPayoff"))
  {
  }

  /** A vanilla payoff applied to a path matrix. */
  function Vanilla(p: Payoff, ctx: Store, paths: seq<seq<real>>): Result<seq<real>>
    requires p.EuropeanCall? || p.EuropeanPut?
    requires NonEmptyRows(paths)
  {
    if p.EuropeanCall? then CallPayoff(ctx, paths) else PutPayoff(ctx, paths)
  }

  /** The inner payoff of one row for a given strike. */
  function VanillaRow(p: Payoff, strike: real, row: seq<real>): real
    requires |row| > 0
  {
    if p.EuropeanCall? then Max0(Last(row) - strike) else Max0(strike - Last(row))
  }

  /** The four direction flags of a barrier option. */
  datatype Flags = Flags(upIn: bool, downOut: bool, upOut: bool, downIn: bool)
  {
    predicate AnySet() { upIn || downOut || upOut || downIn }
  }

  /** The breach test: an up flag tests the row maximum, otherwise a down flag
      tests the row minimum. */
  function Breached(f: Flags, barrier: real, row: seq<real>): bool
    requires |row| > 0
  {
    if f.upIn || f.upOut then RowMax(row) >= barrier
    else if f.downIn || f.downOut then RowMin(row) <= barrier
    else false
  }

  /** The selection mask, flags taken in the order UpIn, DownOut, UpOut, DownIn. */
  function Selected(f: Flags, barrier: real, row: seq<real>): bool
    requires |row| > 0
  {
    if f.upIn then Breached(f, barrier, row)
    else if f.downOut then !Breached(f, barrier, row)
    else if f.upOut then !Breached(f, barrier, row)
    else if f.downIn then Breached(f, barrier, row)
    else false
  }

  function Mask(f: Flags, barrier: real, paths: seq<seq<real>>): (m: seq<bool>)
    requires NonEmptyRows(paths)
    ensures |m| == |paths|
  {
    seq(|paths|, i requires 0 <= i < |paths| => Selected(f, barrier, paths[i]))
  }

  /** The number of selected rows. */
  function Count(mask: seq<bool>): nat
  {
    if mask == [] then 0
    else Count(mask[..|mask| - 1]) + (if mask[|mask| - 1] then 1 else 0)
  }

  /** The selected rows, in their original order. */
  function Filter(mask: seq<bool>, rows: seq<seq<real>>): (r: seq<seq<real>>)
    requires |mask| == |rows|
    ensures |r| == Count(mask)
    ensures NonEmptyRows(rows) ==> NonEmptyRows(r)
  {
    if mask == [] then []
    else Filter(mask[..|mask| - 1], rows[..|rows| - 1]) + (if mask[|mask| - 1] then [rows[|rows| - 1]] else [])
  }

  /** A selected row j sits in the filtered matrix at the number of rows selected before it. */
  lemma {:induction false} FilterAt(mask: seq<bool>, rows: seq<seq<real>>, j: int)
    requires |mask| == |rows| && 0 <= j < |mask| && mask[j]
    ensures Count(mask[..j]) < Count(mask)
    ensures Count(mask[..j]) < |Filter(mask, rows)| && Filter(mask, rows)[Count(mask[..j])] == rows[j]
    decreases |mask|
  {
    var n := |mask|;
    if j == n - 1 {
      assert mask[..n - 1] == mask[..j];
    } else {
      assert mask[..n - 1][..j] == mask[..j];
      FilterAt(mask[..n - 1], rows[..n - 1], j);
      CountMonotone(mask, n - 1);
    }
  }

  lemma {:induction false} CountMonotone(mask: seq<bool>, i: int)
    requires 0 <= i <= |mask|
    ensures Count(mask[..i]) <= Count(mask)
    decreases |mask|
  {
    if i < |mask| {
      assert mask[..|mask| - 1][..i] == mask[..i];
      CountMonotone(mask[..|mask| - 1], i);
    } else {
      assert mask[..i] == mask;
    }
  }

  /** Every element of the mask is read in the order the loop visits it. */
  lemma CountStep(mask: seq<bool>, i: int)
    requires 0 <= i < |mask|
    ensures Count(mask[..i + 1]) == Count(mask[..i]) + (if mask[i] then 1 else 0)
  {
    assert mask[..i + 1][..i] == mask[..i];
  }

  lemma FilterStep(mask: seq<bool>, rows: seq<seq<real>>, i: int)
    requires |mask| == |rows| && 0 <= i < |mask|
    ensures Filter(mask[..i + 1], rows[..i + 1])
         == Filter(mask[..i], rows[..i]) + (if mask[i] then [rows[i]] else [])
  {
    assert mask[..i + 1][..i] == mask[..i];
    assert rows[..i + 1][..i] == rows[..i];
  }

  /** Every row of the barrier output, as the source promises it: zero for a
      row the mask rejects, the inner payoff of that same row otherwise. When
      no row is selected the inner payoff (and so the strike) is never read. */
  function BarrierSpec(ctx: Store, paths: seq<seq<real>>): Result<seq<real>>
    requires NonEmptyRows(paths)
  {
    var name :- GetText(ctx, "payoff");
    var barrier :- GetReal(ctx, "barrier");
    var upIn :- GetBool(ctx, "isUpIn");
    var downOut :- GetBool(ctx, "isDownOut");
    var upOut :- GetBool(ctx, "isUpOut");
    var downIn :- GetBool(ctx, "isDownIn");
    var inner :- VanillaByName(name);
    var mask := Mask(Flags(upIn, downOut, upOut, downIn), barrier, paths);
    if Count(mask) == 0 then Ok(seq(|paths|, i => 0.0))
    else
      var k :- GetReal(ctx, "strike");
      Ok(seq(|paths|, i requires 0 <= i < |paths| => if mask[i] then VanillaRow(inner, k, paths[i]) else 0.0))
  }

  /** When all four flags read as booleans, at least one of them is set (with none
      set the source leaves its mask uninitialised). */
  predicate BarrierFlagsSet(ctx: Store)
  {
    (GetBool(ctx, "isUpIn").Ok? && GetBool(ctx, "isDownOut").Ok?
      && GetBool(ctx, "isUpOut").Ok? && GetBool(ctx, "isDownIn").Ok?)
    ==> Flags(GetBool(ctx, "isUpIn").value, GetBool(ctx, "isDownOut").value,
              GetBool(ctx, "isUpOut").value, GetBool(ctx, "isDownIn").value).AnySet()
  }

  /** The filtering loop: copies the selected rows, in order, into a matrix
      with one row per selected path. */
  method FilterRows(mask: seq<bool>, paths: seq<seq<real>>) returns (filtered: array<seq<real>>)
    requires |mask| == |paths|
    ensures fresh(filtered)
    ensures filtered[..] == Filter(mask, paths)
  {
    var n := |paths|;
    filtered := new seq<real>[Count(mask)];
    var index := 0;
    for i := 0 to n
      invariant index == Count(mask[..i]) <= Count(mask)
      invariant filtered[..index] == Filter(mask[..i], paths[..i])
    {
      CountStep(mask, i);
      FilterStep(mask, paths, i);
      CountMonotone(mask, i + 1);
      if mask[i] {
        filtered[index] := paths[i];
        index := index + 1;
      }
    }
    assert mask[..n] == mask && paths[..n] == paths;
  }

  /** The scattering loop: a selected row takes the next inner payoff in turn,
      every other row takes zero. */
  method ScatterPayoffs(mask: seq<bool>, selected: seq<real>) returns (values: array<real>)
    requires forall j :: 0 <= j < |mask| && mask[j] ==> Count(mask[..j]) < |selected|
    ensures fresh(values) && values.Length == |mask|
    ensures forall j :: 0 <= j < |mask| ==>
      values[j] == if mask[j] then selected[Count(mask[..j])] else 0.0
  {
    values := new real[|mask|];
    var payoffsIndex := 0;
    for i := 0 to |mask|
      invariant payoffsIndex == Count(mask[..i])
      invariant forall j :: 0 <= j < i ==>
        values[j] == if mask[j] then selected[Count(mask[..j])] else 0.0
    {
      CountStep(mask, i);
      if mask[i] {
        values[i] := selected[payoffsIndex];
        payoffsIndex := payoffsIndex + 1;
      } else {
        values[i] := 0.0;
      }
    }
  }

  /** BarrierPayoff::operator(): filter the selected rows into a smaller matrix,
      price them with the inner payoff, then scatter the results back by mask. */
  method BarrierPayoff(ctx: Store, paths: seq<seq<real>>) returns (r: Result<seq<real>>)
    requires NonEmptyRows(paths)
    requires BarrierFlagsSet(ctx)
    ensures r == BarrierSpec(ctx, paths)
  {
    var name :- GetText(ctx, "payoff");
    var barrier :- GetReal(ctx, "barrier");
    var upIn :- GetBool(ctx, "isUpIn");
    var downOut :- GetBool(ctx, "isDownOut");
    var upOut :- GetBool(ctx, "isUpOut");
    var downIn :- GetBool(ctx, "isDownIn");
    var inner :- VanillaByName(name);
    var mask := Mask(Flags(upIn, downOut, upOut, downIn), barrier, paths);
    var selectedCount := Count(mask);
    var filtered := FilterRows(mask, paths);
    var selected: seq<real> := seq(selectedCount, _ => 0.0);
    if selectedCount > 0 {
      selected :- Vanilla(inner, ctx, filtered[..]);
    }
    SelectedIndexInRange(mask, paths, selected);
    var values := ScatterPayoffs(mask, selected);
    r := Ok(values[..]);
    ScatterIsRowwise(ctx, paths, inner, mask, selected, values[..]);
  }

  lemma SelectedIndexInRange(mask: seq<bool>, paths: seq<seq<real>>, selected: seq<real>)
    requires |mask| == |paths| && |selected| == Count(mask)
    ensures forall j :: 0 <= j < |mask| && mask[j] ==> Count(mask[..j]) < |selected|
  {
    forall j | 0 <= j < |mask| && mask[j]
      ensures Count(mask[..j]) < |selected|
    {
      FilterAt(mask, paths, j);
    }
  }

  /** Scattering the inner payoffs of the filtered rows gives, row by row, the
      inner payoff of that row where the mask holds and zero elsewhere. */
  lemma ScatterIsRowwise(ctx: Store, paths: seq<seq<real>>, inner: Payoff,
                         mask: seq<bool>, selected: seq<real>, values: seq<real>)
    requires NonEmptyRows(paths) && (inner.EuropeanCall? || inner.EuropeanPut?)
    requires |mask| == |paths| == |values|
    requires Count(mask) == 0 ==> |selected| == 0
    requires Count(mask) > 0 ==> Vanilla(inner, ctx, Filter(mask, paths)) == Ok(selected)
    requires forall j :: 0 <= j < |mask| && mask[j] ==> Count(mask[..j]) < |selected|
    requires forall j :: 0 <= j < |mask| ==>
      values[j] == if mask[j] then selected[Count(mask[..j])] else 0.0
    ensures Count(mask) == 0 ==> values == seq(|paths|, i => 0.0)
    ensures Count(mask) > 0 ==>
      && HasReal(ctx, "strike")
      && values == seq(|paths|, i requires 0 <= i < |paths| =>
           if mask[i] then VanillaRow(inner, ctx["strike"].r, paths[i]) else 0.0)
  {
    var n := |paths|;
    if Count(mask) == 0 {
      forall j | 0 <= j < n
        ensures !mask[j]
      {
        if mask[j] { FilterAt(mask, paths, j); }
      }
    } else {
      var strike := ctx["strike"].r;
      forall j | 0 <= j < n && mask[j]
        ensures values[j] == VanillaRow(inner, strike, paths[j])
      {
        FilterAt(mask, paths, j);
      }
    }
  }

  /** The context with the four direction flags overwritten. */
  function WithFlags(ctx: Store, f: Flags): Store
  {
    ctx["isUpIn" := BoolValue(f.upIn)]["isDownOut" := BoolValue(f.downOut)]
       ["isUpOut" := BoolValue(f.upOut)]["isDownIn" := BoolValue(f.downIn)]
  }

  /** The barrier inputs other than the flags, all present and well typed. */
  predicate BarrierInputs(ctx: Store)
  {
    && GetText(ctx, "payoff").Ok? && VanillaByName(GetText(ctx, "payoff").value).Ok?
    && HasReal(ctx, "barrier") && HasReal(ctx, "strike")
  }

  lemma FlagsReadBack(ctx: Store, f: Flags)
    ensures var c := WithFlags(ctx, f);
      && GetBool(c, "isUpIn") == Ok(f.upIn) && GetBool(c, "isDownOut") == Ok(f.downOut)
      && GetBool(c, "isUpOut") == Ok(f.upOut) && GetBool(c, "isDownIn") == Ok(f.downIn)
      && GetText(c, "payoff") == GetText(ctx, "payoff")
      && GetReal(c, "barrier") == GetReal(ctx, "barrier")
      && GetReal(c, "strike") == GetReal(ctx, "strike")
  {
  }

  /** Row i of the barrier payoff under a given set of flags. */
  lemma BarrierRow(ctx: Store, f: Flags, paths: seq<seq<real>>, i: int)
    requires NonEmptyRows(paths) && BarrierInputs(ctx) && 0 <= i < |paths|
    ensures var r := BarrierSpec(WithFlags(ctx, f), paths);
      var inner := VanillaByName(GetText(ctx, "payoff").value).value;
      && r.Ok? && |r.value| == |paths|
      && r.value[i] == if Selected(f, ctx["barrier"].r, paths[i])
                       then VanillaRow(inner, ctx["strike"].r, paths[i]) else 0.0
  {
    FlagsReadBack(ctx, f);
    var mask := Mask(f, ctx["barrier"].r, paths);
    if mask[i] { FilterAt(mask, paths, i); }
  }

  /** Up-and-in plus up-and-out, with the same barrier and inner payoff, is the
      inner vanilla payoff on every row. */
  lemma UpInPlusUpOutIsVanilla(ctx: Store, paths: seq<seq<real>>, i: int)
    requires NonEmptyRows(paths) && BarrierInputs(ctx) && 0 <= i < |paths|
    ensures var inner := VanillaByName(GetText(ctx, "payoff").value).value;
      BarrierSpec(WithFlags(ctx, Flags(true, false, false, false)), paths).value[i]
      + BarrierSpec(WithFlags(ctx, Flags(false, false, true, false)), paths).value[i]
      == Vanilla(inner, ctx, paths).value[i]
  {
    BarrierRow(ctx, Flags(true, false, false, false), paths, i);
    BarrierRow(ctx, Flags(false, false, true, false), paths, i);
  }

  /** Likewise down-and-in plus down-and-out. */
  lemma DownInPlusDownOutIsVanilla(ctx: Store, paths: seq<seq<real>>, i: int)
    requires NonEmptyRows(paths) && BarrierInputs(ctx) && 0 <= i < |paths|
    ensures var inner := VanillaByName(GetText(ctx, "payoff").value).value;
      BarrierSpec(WithFlags(ctx, Flags(false, false, false, true)), paths).value[i]
      + BarrierSpec(WithFlags(ctx, Flags(false, true, false, false)), paths).value[i]
      == Vanilla(inner, ctx, paths).value[i]
  {
    BarrierRow(ctx, Flags(false, false, false, true), paths, i);
    BarrierRow(ctx, Flags(false, true, false, false), paths, i);
  }

  /** Flag priority: with both isDownOut and isUpOut set, the breach test is the
      up test on the row maximum, and the row is kept when it does not breach. */
  lemma DownOutWithUpOutTestsMaximum(upIn: bool, downIn: bool, barrier: real, row: seq<real>)
    requires |row| > 0 && !upIn
    ensures Selected(Flags(upIn, true, true, downIn), barrier, row) <==> RowMax(row) < barrier
  {
  }

  /** An up-and-in row is paid only if its maximum reached the barrier; an
      up-and-out row only if it never did. */
  lemma UpFlagsSelectByMaximum(f: Flags, barrier: real, row: seq<real>)
    requires |row| > 0
    ensures f.upIn ==> (Selected(f, barrier, row) <==> RowMax(row) >= barrier)
    ensures !f.upIn && !f.downOut && f.upOut ==> (Selected(f, barrier, row) <==> RowMax(row) < barrier)
    ensures !f.upIn && !f.upOut && f.downOut ==> (Selected(f, barrier, row) <==> RowMin(row) > barrier)
    ensures !f.upIn && !f.downOut && !f.upOut && f.downIn ==> (Selected(f, barrier, row) <==> RowMin(row) <= barrier)
  {
  }

  /** Any inner payoff name other than the two vanilla ones throws "Unknown
      payoff type", before any row is looked at. */
  lemma BarrierUnknownInner(ctx: Store, paths: seq<seq<real>>)
    requires NonEmptyRows(paths)
    requires GetText(ctx, "payoff").Ok? && HasReal(ctx, "barrier")
    requires GetBool(ctx, "isUpIn").Ok? && GetBool(ctx, "isDownOut").Ok?
    requires GetBool(ctx, "isUpOut").Ok? && GetBool(ctx, "isDownIn").Ok?
    requires GetText(ctx, "payoff").value !in {"EuropeanCallPayoff", "EuropeanPutPayoff"}
    ensures BarrierSpec(ctx, paths) == Err(UnknownPayoffType(GetText(ctx, "payoff").value))
    ensures Message(BarrierSpec(ctx, paths).error) == "Unknown payoff type"
  {
  }

  /** When no row is selected the strike is never read: the result is all zeros
      even without a strike. */
  lemma BarrierNoSelectionNeedsNoStrike(ctx: Store, f: Flags, paths: seq<seq<real>>)
    requires NonEmptyRows(paths)
    requires GetText(ctx, "payoff").Ok? && VanillaByName(GetText(ctx, "payoff").value).Ok?
    requires HasReal(ctx, "barrier") && "strike" !in ctx
    requires forall i :: 0 <= i < |paths| ==> !Selected(f, ctx["barrier"].r, paths[i])
    ensures BarrierSpec(WithFlags(ctx, f), paths) == Ok(seq(|paths|, i => 0.0))
  {
    FlagsReadBack(ctx, f);
    var mask := Mask(f, ctx["barrier"].r, paths);
    if Count(mask) > 0 {
      CountPositiveHasSelected(mask);
    }
  }

  lemma {:induction false} CountPositiveHasSelected(mask: seq<bool>)
    requires Count(mask) > 0
    ensures exists j :: 0 <= j < |mask| && mask[j]
    decreases |mask|
  {
    if !mask[|mask| - 1] {
      CountPositiveHasSelected(mask[..|mask| - 1]);
      var j :| 0 <= j < |mask| - 1 && mask[..|mask| - 1][j];
      assert mask[j];
    }
  }

  /** Every barrier output is non-negative. */
  lemma BarrierNonNegative(ctx: Store, paths: seq<seq<real>>, i: int)
    requires NonEmptyRows(paths) && BarrierSpec(ctx, paths).Ok? && 0 <= i < |paths|
    ensures |BarrierSpec(ctx, paths).value| == |paths| && BarrierSpec(ctx, paths).value[i] >= 0.0
  {
  }

  /** Dispatch over the payoff kinds (operator() through the Payoff interface). */
  function PayoffSpec(p: Payoff, ctx: Store, paths: seq<seq<real>>): Result<seq<real>>
    requires NonEmptyRows(paths)
  {
    match p
    case EuropeanCall => CallPayoff(ctx, paths)
    case EuropeanPut => PutPayoff(ctx, paths)
    case Barrier => BarrierSpec(ctx, paths)
    case Asian => AsianPayoff(ctx, paths)
    case Lookback => LookbackPayoff(ctx, paths)
  }

  /** Whatever the kind, a payoff that succeeds yields one non-negative value per row. */
  lemma PayoffSpecNonNegative(p: Payoff, ctx: Store, paths: seq<seq<real>>)
    requires NonEmptyRows(paths) && PayoffSpec(p, ctx, paths).Ok?
    ensures |PayoffSpec(p, ctx, paths).value| == |paths|
    ensures forall i :: 0 <= i < |paths| ==> PayoffSpec(p, ctx, paths).value[i] >= 0.0
  {
    if p.Barrier? {
      forall i | 0 <= i < |paths| ensures PayoffSpec(p, ctx, paths).value[i] >= 0.0 {
        BarrierNonNegative(ctx, paths, i);
      }
      if |paths| > 0 {
        BarrierNonNegative(ctx, paths, 0);
      }
    }
  }

  /** Applies a payoff functor; only the barrier payoff needs its flags set. */
  method ApplyPayoff(p: Payoff, ctx: Store, paths: seq<seq<real>>) returns (r: Result<seq<real>>)
    requires NonEmptyRows(paths)
    requires p.Barrier? ==> BarrierFlagsSet(ctx)
    ensures r == PayoffSpec(p, ctx, paths)
    ensures r.Ok? ==> |r.value| == |paths| && forall i :: 0 <= i < |paths| ==> r.value[i] >= 0.0
  {
    if p.Barrier? {
      r := BarrierPayoff(ctx, paths);
    } else {
      r := PayoffSpec(p, ctx, paths);
    }
    if r.Ok? {
      PayoffSpecNonNegative(p, ctx, paths);
    }
  }
}
