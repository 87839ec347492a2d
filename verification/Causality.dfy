/** No indicator and no strategy looks ahead: on the first bars of a series each yields exactly the first of the values
    it yields on the whole series, through the too-short exits and the errors as well. */
module Causality {
  import opened LinearAlgebra
  import opened Covariance
  import opened Outcome
  import opened Market
  import opened Indicators
  import opened Strategies

  // ---------- indicator levels ----------

  lemma {:induction false} EmaLevelCausal(c: Vec, period: nat, i: nat, k: nat)
    requires 0 < period <= i + 1 <= k <= |c|
    ensures EmaLevel(c[..k], period, i) == EmaLevel(c, period, i)
  {
    hide MeanOf, EmaNext;
    if i + 1 == period {
      assert c[..k][..period] == c[..period];
    } else {
      EmaLevelCausal(c, period, i - 1, k);
    }
  }

  lemma SmaCausal(c: Vec, period: nat, i: nat, k: nat)
    requires i < k <= |c|
    ensures SmaAt(c[..k], period, i) == SmaAt(c, period, i)
  {
    hide MeanOf;
    if period != 0 && i + 1 >= period {
      assert c[..k][i + 1 - period..i + 1] == c[i + 1 - period..i + 1];
    }
  }

  lemma BandCausal(sqrt: real -> real, c: Vec, period: nat, width: real, i: nat, k: nat)
    requires i < k <= |c|
    ensures BandAt(sqrt, c[..k], period, width, i) == BandAt(sqrt, c, period, width, i)
  {
    hide MeanOf, SampleStdDev, BandValue;
    if period != 0 && i + 1 >= period {
      assert c[..k][i + 1 - period..i + 1] == c[i + 1 - period..i + 1];
    }
  }

  lemma EmaCausal(c: Vec, period: nat, i: nat, k: nat)
    requires i < k <= |c|
    ensures EmaAt(c[..k], period, i) == EmaAt(c, period, i)
  {
    if period != 0 && i + 1 >= period { EmaLevelCausal(c, period, i, k); }
  }

  lemma {:induction false} AveragesCausal(c: Vec, period: nat, i: nat, k: nat)
    requires 0 < period <= i < k <= |c|
    ensures AvgGain(c[..k], period, i) == AvgGain(c, period, i)
    ensures AvgLoss(c[..k], period, i) == AvgLoss(c, period, i)
  {
    hide MeanOf, Smooth, Gain, Loss;
    if i == period {
      assert Gains(c[..k], period) == Gains(c, period);
      assert Losses(c[..k], period) == Losses(c, period);
    } else {
      AveragesCausal(c, period, i - 1, k);
    }
  }

  lemma RsiCausal(c: Vec, period: nat, i: nat, k: nat)
    requires i < k <= |c|
    ensures RsiAt(c[..k], period, i) == RsiAt(c, period, i)
  {
    hide RsiValue;
    if period != 0 && i >= period { AveragesCausal(c, period, i, k); }
  }

  lemma {:induction false} AtrLevelCausal(series: seq<Bar>, period: nat, i: nat, k: nat)
    requires 0 < period <= i < k <= |series|
    ensures AtrLevel(series[..k], period, i) == AtrLevel(series, period, i)
  {
    hide MeanOf, Smooth, TrueRange;
    if i == period {
      assert TrueRanges(series[..k], period) == TrueRanges(series, period);
    } else {
      AtrLevelCausal(series, period, i - 1, k);
    }
  }

  lemma {:induction false} ObvCausal(series: seq<Bar>, i: nat, k: nat)
    requires i < k <= |series|
    ensures ObvAt(series[..k], i) == ObvAt(series, i)
  {
    if i > 0 { ObvCausal(series, i - 1, k); }
  }

  lemma {:induction false} CumulativeCausal(series: seq<Bar>, i: nat, k: nat)
    requires i <= k <= |series|
    ensures CumVolume(series[..k], i) == CumVolume(series, i)
    ensures CumTpVolume(series[..k], i) == CumTpVolume(series, i)
  {
    if i > 0 { CumulativeCausal(series, i - 1, k); }
  }

  lemma {:induction false} OptEmaCausal(vals: seq<Option<real>>, period: nat, i: nat, k: nat)
    requires i <= k <= |vals| && period > 0
    ensures OptEmaState(vals[..k], period, i) == OptEmaState(vals, period, i)
  {
    hide OptEmaStep;
    if i > 0 { OptEmaCausal(vals, period, i - 1, k); }
  }

  lemma MacdLineCausal(c: Vec, fast: nat, slow: nat, k: nat)
    requires k <= |c|
    ensures MacdLine(c[..k], fast, slow) == MacdLine(c, fast, slow)[..k]
  {
    var l, r := MacdLine(c[..k], fast, slow), MacdLine(c, fast, slow)[..k];
    forall i | 0 <= i < k ensures l[i] == r[i] {
      EmaCausal(c, fast, i, k);
      EmaCausal(c, slow, i, k);
    }
  }

  lemma MacdCausal(c: Vec, fast: nat, slow: nat, signal: nat, i: nat, k: nat)
    requires i < k <= |c|
    ensures MacdAt(c[..k], fast, slow, i) == MacdAt(c, fast, slow, i)
    ensures MacdSignalAt(c[..k], fast, slow, signal, i) == MacdSignalAt(c, fast, slow, signal, i)
    ensures HistogramAt(c[..k], fast, slow, signal, i) == HistogramAt(c, fast, slow, signal, i)
  {
    EmaCausal(c, fast, i, k);
    EmaCausal(c, slow, i, k);
    MacdLineCausal(c, fast, slow, k);
    if signal > 0 { OptEmaCausal(MacdLine(c, fast, slow), signal, i + 1, k); }
  }

  // ---------- whole indicators ----------

  /** `p` is the first k values of `r`, in every series it carries. */
  ghost predicate Prefix(p: IndicatorResult, r: IndicatorResult, k: nat) {
    && p.name == r.name && p.params == r.params && k <= |r.values| && p.values == r.values[..k]
    && p.extra.Keys == r.extra.Keys
    && forall key :: key in r.extra ==> k <= |r.extra[key]| && p.extra[key] == r.extra[key][..k]
  }

  ghost predicate AgreeOn(p: Result<IndicatorResult>, r: Result<IndicatorResult>, k: nat) {
    if r.Failure? then p == r else p.Success? && Prefix(p.value, r.value, k)
  }

  lemma CloseIndicatorsCausal(sqrt: real -> real, series: seq<Bar>, k: nat, period: nat, width: real)
    requires k <= |series|
    ensures Sma(series[..k], period) == Sma(series, period)[..k]
    ensures Ema(series[..k], period) == Ema(series, period)[..k]
    ensures Rsi(series[..k], period) == Rsi(series, period)[..k]
    ensures Band(sqrt, series[..k], period, width) == Band(sqrt, series, period, width)[..k]
  {
    hide SmaAt, EmaAt, RsiAt, BandAt;
    ClosesPrefix(series, k);
    forall i: nat | i < k
      ensures Sma(series[..k], period)[i] == Sma(series, period)[i]
      ensures Ema(series[..k], period)[i] == Ema(series, period)[i]
      ensures Rsi(series[..k], period)[i] == Rsi(series, period)[i]
      ensures Band(sqrt, series[..k], period, width)[i] == Band(sqrt, series, period, width)[i]
    {
      SmaCausal(Closes(series), period, i, k);
      EmaCausal(Closes(series), period, i, k);
      RsiCausal(Closes(series), period, i, k);
      BandCausal(sqrt, Closes(series), period, width, i, k);
    }
  }

  lemma MacdIndicatorsCausal(series: seq<Bar>, k: nat, fast: nat, slow: nat, signal: nat)
    requires k <= |series|
    ensures Macd(series[..k], fast, slow) == Macd(series, fast, slow)[..k]
    ensures MacdSignal(series[..k], fast, slow, signal) == MacdSignal(series, fast, slow, signal)[..k]
    ensures Histogram(series[..k], fast, slow, signal) == Histogram(series, fast, slow, signal)[..k]
  {
    hide MacdAt, MacdSignalAt, HistogramAt;
    ClosesPrefix(series, k);
    forall i: nat | i < k
      ensures Macd(series[..k], fast, slow)[i] == Macd(series, fast, slow)[i]
      ensures MacdSignal(series[..k], fast, slow, signal)[i] == MacdSignal(series, fast, slow, signal)[i]
      ensures Histogram(series[..k], fast, slow, signal)[i] == Histogram(series, fast, slow, signal)[i]
    {
      MacdCausal(Closes(series), fast, slow, signal, i, k);
    }
  }

  lemma BarIndicatorsCausal(series: seq<Bar>, k: nat, period: nat)
    requires k <= |series|
    ensures Atr(series[..k], period) == Atr(series, period)[..k]
    ensures Obv(series[..k]) == Obv(series)[..k]
    ensures Vwap(series[..k]) == Vwap(series)[..k]
  {
    hide AtrLevel, ObvAt, CumVolume, CumTpVolume;
    forall i: nat | i < k
      ensures Atr(series[..k], period)[i] == Atr(series, period)[i]
      ensures Obv(series[..k])[i] == Obv(series)[i]
      ensures Vwap(series[..k])[i] == Vwap(series)[i]
    {
      if period != 0 && i >= period { AtrLevelCausal(series, period, i, k); }
      ObvCausal(series, i, k);
      CumulativeCausal(series, i + 1, k);
    }
  }

  lemma AveragesIndicatorCausal(sqrt: real -> real, name: string, series: seq<Bar>, params: Params, k: nat)
    requires k <= |series| && (name == "sma" || name == "ema" || name == "rsi")
    ensures AgreeOn(Calculated(sqrt, name, series[..k], params), Calculated(sqrt, name, series, params), k)
  {
    hide Sma, Ema, Rsi, Macd, MacdSignal, Histogram, Band, Atr, Obv, Vwap;
    Lengths(sqrt, name, series, params);
    var period := ParamAsSize(params, "period", if name == "rsi" then 14 else 20);
    if period.Success? { CloseIndicatorsCausal(sqrt, series, k, period.value, 0.0); }
  }

  lemma BollingerIndicatorCausal(sqrt: real -> real, series: seq<Bar>, params: Params, k: nat)
    requires k <= |series|
    ensures AgreeOn(Calculated(sqrt, "bollinger_bands", series[..k], params),
            Calculated(sqrt, "bollinger_bands", series, params), k)
  {
    hide Sma, Ema, Rsi, Macd, MacdSignal, Histogram, Band, Atr, Obv, Vwap;
    Lengths(sqrt, "bollinger_bands", series, params);
    var period, count := ParamAsSize(params, "period", 20), ParamAsSize(params, "std_dev", 2);
    if period.Success? && count.Success? {
      CloseIndicatorsCausal(sqrt, series, k, period.value, count.value as real);
      CloseIndicatorsCausal(sqrt, series, k, period.value, -(count.value as real));
    }
  }

  lemma MacdIndicatorCausal(sqrt: real -> real, series: seq<Bar>, params: Params, k: nat)
    requires k <= |series|
    ensures AgreeOn(Calculated(sqrt, "macd", series[..k], params), Calculated(sqrt, "macd", series, params), k)
  {
    hide Sma, Ema, Rsi, Macd, MacdSignal, Histogram, Band, Atr, Obv, Vwap;
    Lengths(sqrt, "macd", series, params);
    var fast, slow, signal := ParamAsSize(params, "fast", 12), ParamAsSize(params, "slow", 26),
      ParamAsSize(params, "signal", 9);
    if fast.Success? && slow.Success? && signal.Success? {
      MacdIndicatorsCausal(series, k, fast.value, slow.value, signal.value);
    }
  }

  lemma BarIndicatorCausal(sqrt: real -> real, name: string, series: seq<Bar>, params: Params, k: nat)
    requires k <= |series| && (name == "atr" || name == "obv" || name == "vwap")
    ensures AgreeOn(Calculated(sqrt, name, series[..k], params), Calculated(sqrt, name, series, params), k)
  {
    hide Sma, Ema, Rsi, Macd, MacdSignal, Histogram, Band, Atr, Obv, Vwap;
    Lengths(sqrt, name, series, params);
    var period := ParamAsSize(params, "period", 14);
    BarIndicatorsCausal(series, k, if period.Success? then period.value else 0);
  }

  /** Every indicator, for every parameter setting, including rejected ones and series too short to warm up. */
  lemma CalculatedCausal(sqrt: real -> real, name: string, series: seq<Bar>, params: Params, k: nat)
    requires k <= |series|
    ensures AgreeOn(Calculated(sqrt, name, series[..k], params), Calculated(sqrt, name, series, params), k)
  {
    if name == "sma" || name == "ema" || name == "rsi" {
      AveragesIndicatorCausal(sqrt, name, series, params, k);
    } else if name == "macd" {
      MacdIndicatorCausal(sqrt, series, params, k);
    } else if name == "bollinger_bands" {
      BollingerIndicatorCausal(sqrt, series, params, k);
    } else if name == "atr" || name == "obv" || name == "vwap" {
      BarIndicatorCausal(sqrt, name, series, params, k);
    }
  }

  /** Every series an indicator returns is as long as its input, and MACD and Bollinger carry their extra series. */
  lemma Lengths(sqrt: real -> real, name: string, series: seq<Bar>, params: Params)
    ensures var r := Calculated(sqrt, name, series, params);
            r.Success? ==>
              && |r.value.values| == |series|
                && (forall key :: key in r.value.extra ==> |r.value.extra[key]| == |series|)
              && (name == "macd" ==> "signal" in r.value.extra)
              && (name == "bollinger_bands" ==> "upper" in r.value.extra && "lower" in r.value.extra)
  {
  }

  // ---------- strategies ----------

  lemma CrossoverCausal(series: seq<Bar>, fast: seq<IndicatorValue>, slow: seq<IndicatorValue>, k: nat)
    requires k <= |series| && k <= |fast| && k <= |slow|
    ensures Crossover(series[..k], fast[..k], slow[..k]) == Crossover(series, fast, slow)[..k]
  {
    forall i: nat | i < k
      ensures Crossover(series[..k], fast[..k], slow[..k])[i] == Crossover(series, fast, slow)[i]
    {
    }
  }

  lemma SmaStrategyCausal(sqrt: real -> real, series: seq<Bar>, params: Params, k: nat)
    requires k <= |series|
    ensures SignalsAgree(SignalsOf(sqrt, "sma_crossover", series[..k], params),
            SignalsOf(sqrt, "sma_crossover", series, params), k)
  {
    hide Calculated, CrossoverAt, Crossover, Tagged;
    var pf, ps := params["period" := ParamOrDefault(params, "fast", 10.0)],
      params["period" := ParamOrDefault(params, "slow", 30.0)];
    CalculatedCausal(sqrt, "sma", series, pf, k);
    CalculatedCausal(sqrt, "sma", series, ps, k);
    var fast, slow := Calculated(sqrt, "sma", series, pf), Calculated(sqrt, "sma", series, ps);
    if fast.Success? && slow.Success? {
      CrossoverCausal(series, fast.value.values, slow.value.values, k);
    }
  }

  lemma MacdStrategyCausal(sqrt: real -> real, series: seq<Bar>, params: Params, k: nat)
    requires k <= |series|
    ensures SignalsAgree(SignalsOf(sqrt, "macd_crossover", series[..k], params),
            SignalsOf(sqrt, "macd_crossover", series, params), k)
  {
    hide Calculated, CrossoverAt, Crossover, Tagged;
    CalculatedCausal(sqrt, "macd", series, params, k);
    Lengths(sqrt, "macd", series, params);
    var macd := Calculated(sqrt, "macd", series, params);
    if macd.Success? { CrossoverCausal(series, macd.value.values, macd.value.extra["signal"], k); }
  }

  lemma RsiStrategyCausal(sqrt: real -> real, series: seq<Bar>, params: Params, k: nat)
    requires k <= |series|
    ensures SignalsAgree(SignalsOf(sqrt, "rsi_threshold", series[..k], params),
            SignalsOf(sqrt, "rsi_threshold", series, params), k)
  {
    hide Calculated;
    CalculatedCausal(sqrt, "rsi", series, params, k);
    var p, r := SignalsOf(sqrt, "rsi_threshold", series[..k], params), SignalsOf(sqrt, "rsi_threshold", series, params);
    if r.Success? {
      forall i: nat | i < k ensures p.value[i] == r.value[i] {}
    }
  }

  lemma BollingerStrategyCausal(sqrt: real -> real, series: seq<Bar>, params: Params, k: nat)
    requires k <= |series|
    ensures SignalsAgree(SignalsOf(sqrt, "bollinger_bands_reversion", series[..k], params),
                         SignalsOf(sqrt, "bollinger_bands_reversion", series, params), k)
  {
    hide Calculated;
    CalculatedCausal(sqrt, "bollinger_bands", series, params, k);
    Lengths(sqrt, "bollinger_bands", series, params);
    var p, r := SignalsOf(sqrt, "bollinger_bands_reversion", series[..k], params),
                SignalsOf(sqrt, "bollinger_bands_reversion", series, params);
    if r.Success? {
      forall i: nat | i < k ensures p.value[i] == r.value[i] {}
    }
  }

  ghost predicate SignalsAgree(p: Result<seq<SignalResult>>, r: Result<seq<SignalResult>>, k: nat) {
    if r.Failure? then p == r else p.Success? && k <= |r.value| && p.value == r.value[..k]
  }

  /** Every strategy's signals on the first k bars are the first k of its signals on the whole series. */
  lemma SignalsCausal(sqrt: real -> real, strategy: string, series: seq<Bar>, params: Params, k: nat)
    requires k <= |series|
    ensures SignalsAgree(SignalsOf(sqrt, strategy, series[..k], params), SignalsOf(sqrt, strategy, series, params), k)
  {
    hide Calculated, Crossover;
    if strategy == "sma_crossover" {
      SmaStrategyCausal(sqrt, series, params, k);
    } else if strategy == "rsi_threshold" {
      RsiStrategyCausal(sqrt, series, params, k);
    } else if strategy == "bollinger_bands_reversion" {
      BollingerStrategyCausal(sqrt, series, params, k);
    } else if strategy == "macd_crossover" {
      MacdStrategyCausal(sqrt, series, params, k);
    }
  }
}
