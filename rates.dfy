/** The rate-table bookkeeping of scripts/ktp.py: the master-equation input
    assembled by `run_rates`, the filtering of the computed rate constants by
    pressure in `read_rates`, and the key structure of the Arrhenius fits in
    `mod_arr_fit`.

    Reading `rate.out`, the validity filter `get_valid_tk`, the
    pressure-dependence test and the fitters are oracles; only the
    dictionaries built around them are modelled. */
module Rates {
  import opened Wrappers
  import opened Text
  import opened Dict

  /** A key of the rate dictionaries: the string `'high'` or a pressure. */
  datatype Pressure = High | Bar(value: real)

  /** `[temps, ks]`: the temperatures and rate constants of one curve. */
  type Curve = (seq<real>, seq<real>)

  type RateTable = Dict<Pressure, Curve>

  datatype RateError =
    | MissingPressure(p: Pressure)   // the KeyError of `valid_calc_tk_dct[no_pdep_pval]`
    | AssertionFailed                // a failed `assert` on the fit options

  // ---------------------------------------------------------------------
  // run_rates

  /** `'\n'.join([header_str, energy_trans_str, well_str, bim_str, ts_str])` */
  function MessInput(header: string, energyTrans: string, well: string, bim: string, ts: string): string
  {
    Join([header, energyTrans, well, bim, ts], "\n")
  }

  /** The input holds the five sections in order, each followed by a line
      break except the last. */
  lemma MessInputSections(header: string, energyTrans: string, well: string, bim: string, ts: string)
    ensures MessInput(header, energyTrans, well, bim, ts)
         == header + "\n" + energyTrans + "\n" + well + "\n" + bim + "\n" + ts
    ensures |MessInput(header, energyTrans, well, bim, ts)|
         == |header| + |energyTrans| + |well| + |bim| + |ts| + 4
  {
    var parts := [header, energyTrans, well, bim, ts];
    assert parts[1..][1..][1..][1..] == [ts];
    assert Join([bim, ts], "\n") == bim + "\n" + ts;
    assert parts[1..][1..][1..] == [bim, ts];
    assert Join([well, bim, ts], "\n") == well + "\n" + (bim + "\n" + ts);
    assert parts[1..][1..] == [well, bim, ts];
    assert Join([energyTrans, well, bim, ts], "\n") == energyTrans + "\n" + (well + "\n" + (bim + "\n" + ts));
    assert parts[1..] == [energyTrans, well, bim, ts];
  }

  // ---------------------------------------------------------------------
  // read_rates

  /** The oracles of `read_rates`: the rate constants read for a pressure
      (`highp_ks` for `'high'`, `pdep_ks` otherwise), `get_valid_tk`, and
      `assess_pressure_dependence` on the filtered table. */
  datatype ReadOracles = ReadOracles(
    highKs: seq<real>, pdepKs: real -> seq<real>,
    validTk: (seq<real>, seq<real>) -> Curve,
    pdependent: RateTable -> bool)

  function RateKs(p: Pressure, o: ReadOracles): seq<real>
  {
    match p
    case High => o.highKs
    case Bar(v) => o.pdepKs(v)
  }

  /** `calc_k_dct` after the loop over the pressures of the output. */
  function CalcKs(pressures: seq<Pressure>, o: ReadOracles): Dict<Pressure, seq<real>>
  {
    if |pressures| == 0 then []
    else
      var p := pressures[|pressures| - 1];
      Put(CalcKs(pressures[..|pressures| - 1], o), p, RateKs(p, o))
  }

  /** `valid_calc_tk_dct` after the loop over `calc_k_dct.items()`. */
  function ValidTk(temps: seq<real>, computed: Dict<Pressure, seq<real>>, o: ReadOracles): RateTable
  {
    if |computed| == 0 then []
    else
      var (p, ks) := computed[|computed| - 1];
      var rest := ValidTk(temps, computed[..|computed| - 1], o);
      var filtered := o.validTk(temps, ks);
      if |filtered.1| > 0 then Put(rest, p, filtered) else rest
  }

  /** The whole function, from the temperatures and pressures of `rate.out`. */
  function ReadRatesSpec(temps: seq<real>, pressures: seq<Pressure>, o: ReadOracles, noPdepPval: real)
    : Result<RateTable, RateError>
  {
    var valid := ValidTk(temps, CalcKs(pressures, o), o);
    if o.pdependent(valid) then Ok(valid)
    else if Has(valid, Bar(noPdepPval)) then Ok([(High, Get(valid, Bar(noPdepPval)))])
    else Err(MissingPressure(Bar(noPdepPval)))
  }

  method ReadRates(temps: seq<real>, pressures: seq<Pressure>, o: ReadOracles, noPdepPval: real)
    returns (r: Result<RateTable, RateError>)
    ensures r == ReadRatesSpec(temps, pressures, o, noPdepPval)
  {
    var computed: Dict<Pressure, seq<real>> := [];
    for i := 0 to |pressures|
      invariant computed == CalcKs(pressures[..i], o)
    {
      assert pressures[..i + 1][..i] == pressures[..i];
      var p := pressures[i];
      var rateKs;
      if p == High {
        rateKs := o.highKs;
      } else {
        rateKs := o.pdepKs(p.value);
      }
      computed := Put(computed, p, rateKs);
    }
    assert pressures[..|pressures|] == pressures;
    var valid: RateTable := [];
    for i := 0 to |computed|
      invariant valid == ValidTk(temps, computed[..i], o)
    {
      assert computed[..i + 1][..i] == computed[..i];
      var (p, ks) := computed[i];
      var filtered := o.validTk(temps, ks);
      if |filtered.1| > 0 {
        valid := Put(valid, p, filtered);
      }
    }
    assert computed[..|computed|] == computed;
    if o.pdependent(valid) {
      return Ok(valid);
    }
    if !Has(valid, Bar(noPdepPval)) {
      return Err(MissingPressure(Bar(noPdepPval)));
    }
    return Ok([(High, Get(valid, Bar(noPdepPval)))]);
  }

  /** Every pressure read has its rate constants stored, under the
      pressure itself. */
  lemma {:induction false} CalcKsFacts(pressures: seq<Pressure>, o: ReadOracles)
    ensures forall p :: Has(CalcKs(pressures, o), p) <==> p in pressures
    ensures forall p :: Has(CalcKs(pressures, o), p) ==> Get(CalcKs(pressures, o), p) == RateKs(p, o)
    ensures UniqueKeys(CalcKs(pressures, o))
  {
    if |pressures| > 0 {
      var init := pressures[..|pressures| - 1];
      var q := pressures[|pressures| - 1];
      CalcKsFacts(init, o);
      var d0 := CalcKs(init, o);
      var d := Put(d0, q, RateKs(q, o));
      assert CalcKs(pressures, o) == d;
      assert pressures == init + [q];
      forall p ensures Has(d, p) <==> p in pressures {
        if p != q {
          assert Has(d, p) <==> Has(d0, p);
          assert p in pressures <==> p in init;
        }
      }
    }
  }

  /** The filter keeps exactly the entries whose filtered curve is non-empty,
      each under its own pressure. */
  lemma {:induction false} ValidTkFacts(temps: seq<real>, computed: Dict<Pressure, seq<real>>, o: ReadOracles)
    requires UniqueKeys(computed)
    ensures forall p :: Has(ValidTk(temps, computed, o), p)
                    <==> Has(computed, p) && |o.validTk(temps, Get(computed, p)).1| > 0
    ensures forall p :: Has(ValidTk(temps, computed, o), p)
                    ==> Get(ValidTk(temps, computed, o), p) == o.validTk(temps, Get(computed, p))
  {
    if |computed| > 0 {
      var init := computed[..|computed| - 1];
      var (q, ks) := computed[|computed| - 1];
      UniqueInit(computed);
      ValidTkFacts(temps, init, o);
      assert computed == init + [(q, ks)];
      forall p
        ensures Has(computed, p) <==> Has(init, p) || p == q
        ensures Has(computed, p) ==> Get(computed, p) == if p == q then ks else Get(init, p)
      {
        HasAppend(init, q, ks, p);
      }
    }
  }

  /** What `read_rates` keeps: only pressures that were read, each with a
      non-empty filtered curve, and all of them; when the reaction is
      pressure dependent that table is the result, otherwise the result is
      the single `'high'` entry holding the curve at the reference pressure,
      or the lookup fails when that pressure was filtered out. */
  lemma ReadRatesFacts(temps: seq<real>, pressures: seq<Pressure>, o: ReadOracles, noPdepPval: real)
    ensures var valid := ValidTk(temps, CalcKs(pressures, o), o);
      && (forall p :: Has(valid, p) <==> p in pressures && |o.validTk(temps, RateKs(p, o)).1| > 0)
      && (forall p :: Has(valid, p) ==> Get(valid, p) == o.validTk(temps, RateKs(p, o)))
      && (o.pdependent(valid) ==> ReadRatesSpec(temps, pressures, o, noPdepPval) == Ok(valid))
      && (!o.pdependent(valid) && (Bar(noPdepPval) in pressures
                                   && |o.validTk(temps, RateKs(Bar(noPdepPval), o)).1| > 0)
          ==> ReadRatesSpec(temps, pressures, o, noPdepPval)
              == Ok([(High, o.validTk(temps, RateKs(Bar(noPdepPval), o)))]))
      && (!o.pdependent(valid) && !(Bar(noPdepPval) in pressures
                                    && |o.validTk(temps, RateKs(Bar(noPdepPval), o)).1| > 0)
          ==> ReadRatesSpec(temps, pressures, o, noPdepPval) == Err(MissingPressure(Bar(noPdepPval))))
  {
    CalcKsFacts(pressures, o);
    ValidTkFacts(temps, CalcKs(pressures, o), o);
  }

  // ---------------------------------------------------------------------
  // mod_arr_fit

  /** The oracles of `mod_arr_fit`: the single and double Arrhenius fitters,
      the fitted curve of a parameter list over some temperatures (already
      divided by `a_conv_factor`), and `calc_sse_and_mae`. `fitted` stands
      for both `single_arrhenius` and `double_arrhenius` (lines 491-499): it
      is given the parameters and not the fit type, so which of the two the
      fit type selects is folded into the one oracle. */
  datatype FitOracles = FitOracles(
    single: Curve -> seq<real>, double: Curve -> seq<real>,
    fitted: (seq<real>, seq<real>) -> seq<real>,
    errors: (seq<real>, seq<real>) -> (real, real))

  const SingleDefault: seq<real> := [1.0, 0.0, 0.0]
  const DoubleDefault: seq<real> := [1.0, 0.0, 0.0, 1.0, 0.0, 0.0]

  predicate FitOptionsValid(fitType: string, fitMethod: string)
  {
    (fitType == "single" || fitType == "double") && fitMethod == "dsarrfit"
  }

  function Fit(fitType: string, curve: Curve, o: FitOracles): seq<real>
  {
    if fitType == "single" then o.single(curve) else o.double(curve)
  }

  /** `fit_param_dct` after the first loop. */
  function FitParams(ktp: RateTable, fitType: string, o: FitOracles): Dict<Pressure, seq<real>>
  {
    if |ktp| == 0 then []
    else
      var (p, curve) := ktp[|ktp| - 1];
      Put(FitParams(ktp[..|ktp| - 1], fitType, o), p, Fit(fitType, curve, o))
  }

  /** `fit_k_dct` after the second loop: fitted at the temperatures of
      `ktp_dct[pressure]`. */
  function FitKs(params: Dict<Pressure, seq<real>>, ktp: RateTable, o: FitOracles): Dict<Pressure, seq<real>>
    requires forall p :: Has(params, p) ==> Has(ktp, p)
  {
    if |params| == 0 then []
    else
      var (p, ps) := params[|params| - 1];
      HasPrefix(params, |params| - 1, p);
      assert Has(params, p) by { HasLast(params); }
      PrefixKeysIn(params, ktp);
      Put(FitKs(params[..|params| - 1], ktp, o), p, o.fitted(ps, Get(ktp, p).0))
  }

  /** `fit_err_dct` after the third loop. */
  function FitErrs(fitKs: Dict<Pressure, seq<real>>, ktp: RateTable, o: FitOracles): Dict<Pressure, seq<real>>
    requires forall p :: Has(fitKs, p) ==> Has(ktp, p)
  {
    if |fitKs| == 0 then []
    else
      var (p, ks) := fitKs[|fitKs| - 1];
      assert Has(fitKs, p) by { HasLast(fitKs); }
      PrefixKeysIn(fitKs, ktp);
      var (mean, max) := o.errors(Get(ktp, p).1, ks);
      Put(FitErrs(fitKs[..|fitKs| - 1], ktp, o), p, [mean, max])
  }

  lemma PrefixKeysIn<V, W>(d: Dict<Pressure, V>, e: Dict<Pressure, W>)
    requires |d| > 0 && forall p :: Has(d, p) ==> Has(e, p)
    ensures forall p :: Has(d[..|d| - 1], p) ==> Has(e, p)
  {
    forall p | Has(d[..|d| - 1], p)
      ensures Has(e, p)
    {
      HasPrefix(d, |d| - 1, p);
    }
  }

  /** The whole function: the parameter and error dictionaries, with the
      placeholder `'high'` parameters when no high-pressure curve was fitted. */
  function ModArrFitSpec(ktp: RateTable, fitType: string, fitMethod: string, o: FitOracles)
    : Result<(Dict<Pressure, seq<real>>, Dict<Pressure, seq<real>>), RateError>
  {
    if !FitOptionsValid(fitType, fitMethod) then Err(AssertionFailed)
    else
      var params := FitParams(ktp, fitType, o);
      FitParamsKeys(ktp, fitType, o);
      var fitKs := FitKs(params, ktp, o);
      FitKsKeys(params, ktp, o);
      var errs := FitErrs(fitKs, ktp, o);
      var params' := if Has(params, High) then params
                     else Put(params, High, if fitType == "single" then SingleDefault else DoubleDefault);
      Ok((params', errs))
  }

  /** The first loop of `mod_arr_fit`: one fit per pressure. */
  method FitAllParams(ktp: RateTable, fitType: string, o: FitOracles) returns (params: Dict<Pressure, seq<real>>)
    ensures params == FitParams(ktp, fitType, o)
  {
    params := [];
    for i := 0 to |ktp|
      invariant params == FitParams(ktp[..i], fitType, o)
    {
      assert ktp[..i + 1][..i] == ktp[..i];
      var (p, tkLsts) := ktp[i];
      var fitParams;
      if fitType == "single" {
        fitParams := o.single(tkLsts);
      } else {
        fitParams := o.double(tkLsts);
      }
      params := Put(params, p, fitParams);
    }
    assert ktp[..|ktp|] == ktp;
  }

  /** The second loop: the fitted curve at each pressure's temperatures. */
  method FitAllCurves(params: Dict<Pressure, seq<real>>, ktp: RateTable, o: FitOracles)
    returns (fitKs: Dict<Pressure, seq<real>>)
    requires forall p :: Has(params, p) ==> Has(ktp, p)
    ensures fitKs == FitKs(params, ktp, o)
  {
    fitKs := [];
    for i := 0 to |params|
      invariant forall p :: Has(params[..i], p) ==> Has(ktp, p)
      invariant fitKs == FitKs(params[..i], ktp, o)
    {
      assert params[..i + 1][..i] == params[..i];
      var (p, ps) := params[i];
      HasLast(params[..i + 1]);
      HasPrefix(params, i + 1, p);
      fitKs := Put(fitKs, p, o.fitted(ps, Get(ktp, p).0));
      forall q | Has(params[..i + 1], q)
        ensures Has(ktp, q)
      {
        HasPrefix(params, i + 1, q);
      }
    }
    assert params[..|params|] == params;
  }

  /** The third loop: the errors of each fitted curve. */
  method FitAllErrors(fitKs: Dict<Pressure, seq<real>>, ktp: RateTable, o: FitOracles)
    returns (errs: Dict<Pressure, seq<real>>)
    requires forall p :: Has(fitKs, p) ==> Has(ktp, p)
    ensures errs == FitErrs(fitKs, ktp, o)
  {
    errs := [];
    for i := 0 to |fitKs|
      invariant forall p :: Has(fitKs[..i], p) ==> Has(ktp, p)
      invariant errs == FitErrs(fitKs[..i], ktp, o)
    {
      assert fitKs[..i + 1][..i] == fitKs[..i];
      var (p, ks) := fitKs[i];
      HasLast(fitKs[..i + 1]);
      HasPrefix(fitKs, i + 1, p);
      var (mean, max) := o.errors(Get(ktp, p).1, ks);
      errs := Put(errs, p, [mean, max]);
      forall q | Has(fitKs[..i + 1], q)
        ensures Has(ktp, q)
      {
        HasPrefix(fitKs, i + 1, q);
      }
    }
    assert fitKs[..|fitKs|] == fitKs;
  }

  /** `mod_arr_fit`: the asserts, the three loops, and the placeholder. */
  method ModArrFit(ktp: RateTable, fitType: string, fitMethod: string, o: FitOracles)
    returns (r: Result<(Dict<Pressure, seq<real>>, Dict<Pressure, seq<real>>), RateError>)
    ensures r == ModArrFitSpec(ktp, fitType, fitMethod, o)
  {
    if !(fitType == "single" || fitType == "double") || fitMethod != "dsarrfit" {
      return Err(AssertionFailed);
    }
    var params := FitAllParams(ktp, fitType, o);
    FitParamsKeys(ktp, fitType, o);
    var fitKs := FitAllCurves(params, ktp, o);
    FitKsKeys(params, ktp, o);
    var errs := FitAllErrors(fitKs, ktp, o);
    if !Has(params, High) {
      if fitType == "single" {
        params := Put(params, High, SingleDefault);
      } else {
        params := Put(params, High, DoubleDefault);
      }
    }
    return Ok((params, errs));
  }

  lemma {:induction false} FitParamsKeys(ktp: RateTable, fitType: string, o: FitOracles)
    ensures forall p :: Has(FitParams(ktp, fitType, o), p) <==> Has(ktp, p)
  {
    if |ktp| > 0 {
      FitParamsKeys(ktp[..|ktp| - 1], fitType, o);
      HasLast(ktp);
      forall p | Has(ktp, p)
        ensures Has(ktp[..|ktp| - 1], p) || p == ktp[|ktp| - 1].0
      {
        HasSplit(ktp, p);
      }
      PrefixKeysIn(ktp, ktp);
    }
  }

  lemma {:induction false} FitKsKeys(params: Dict<Pressure, seq<real>>, ktp: RateTable, o: FitOracles)
    requires forall p :: Has(params, p) ==> Has(ktp, p)
    ensures forall p :: Has(FitKs(params, ktp, o), p) <==> Has(params, p)
  {
    if |params| > 0 {
      PrefixKeysIn(params, ktp);
      FitKsKeys(params[..|params| - 1], ktp, o);
      HasLast(params);
      forall p | Has(params, p)
        ensures Has(params[..|params| - 1], p) || p == params[|params| - 1].0
      {
        HasSplit(params, p);
      }
      PrefixKeysIn(params, params);
    }
  }

  lemma {:induction false} FitErrsKeys(fitKs: Dict<Pressure, seq<real>>, ktp: RateTable, o: FitOracles)
    requires forall p :: Has(fitKs, p) ==> Has(ktp, p)
    ensures forall p :: Has(FitErrs(fitKs, ktp, o), p) <==> Has(fitKs, p)
  {
    if |fitKs| > 0 {
      PrefixKeysIn(fitKs, ktp);
      FitErrsKeys(fitKs[..|fitKs| - 1], ktp, o);
      HasLast(fitKs);
      forall p | Has(fitKs, p)
        ensures Has(fitKs[..|fitKs| - 1], p) || p == fitKs[|fitKs| - 1].0
      {
        HasSplit(fitKs, p);
      }
      PrefixKeysIn(fitKs, fitKs);
    }
  }

  /** The fit succeeds exactly for the accepted options; then the parameter
      keys are the pressures of `ktp_dct` plus `'high'`, the placeholder
      `'high'` entry has three or six values by fit type, and the error keys
      are exactly the pressures of `ktp_dct`. */
  lemma ModArrFitKeys(ktp: RateTable, fitType: string, fitMethod: string, o: FitOracles)
    ensures ModArrFitSpec(ktp, fitType, fitMethod, o).Ok? <==> FitOptionsValid(fitType, fitMethod)
    ensures ModArrFitSpec(ktp, fitType, fitMethod, o).Ok? ==>
      var (params, errs) := ModArrFitSpec(ktp, fitType, fitMethod, o).value;
      && (forall p :: Has(params, p) <==> Has(ktp, p) || p == High)
      && (forall p :: Has(errs, p) <==> Has(ktp, p))
      && (!Has(ktp, High) ==> Get(params, High) == if fitType == "single" then SingleDefault else DoubleDefault)
      && (Has(ktp, High) && UniqueKeys(ktp) ==> Get(params, High) == Fit(fitType, Get(ktp, High), o))
  {
    if FitOptionsValid(fitType, fitMethod) {
      FitParamsKeys(ktp, fitType, o);
      var params := FitParams(ktp, fitType, o);
      FitKsKeys(params, ktp, o);
      FitErrsKeys(FitKs(params, ktp, o), ktp, o);
      if Has(ktp, High) {
        FitParamsValues(ktp, fitType, o);
      }
    }
  }

  /** Each fitted pressure holds the fit of its own curve (the last entry
      under a repeated key wins, as the dictionary assignment does). */
  lemma {:induction false} FitParamsValues(ktp: RateTable, fitType: string, o: FitOracles)
    ensures forall p :: Has(FitParams(ktp, fitType, o), p) && Has(ktp, p) && UniqueKeys(ktp)
                    ==> Get(FitParams(ktp, fitType, o), p) == Fit(fitType, Get(ktp, p), o)
  {
    if |ktp| > 0 {
      var init := ktp[..|ktp| - 1];
      FitParamsValues(init, fitType, o);
      FitParamsKeys(init, fitType, o);
      if UniqueKeys(ktp) {
        UniqueInit(ktp);
        var (q, c) := ktp[|ktp| - 1];
        assert ktp == init + [(q, c)];
        forall p | Has(ktp, p)
          ensures Has(init, p) || p == q
          ensures Get(ktp, p) == if p == q then c else Get(init, p)
        {
          HasAppend(init, q, c, p);
        }
      }
    }
  }
}
