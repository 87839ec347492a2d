/** The five built-in strategies: signals computed from indicator values bar by bar. */
module Strategies {
  import opened Outcome
  import opened Market
  import opened Indicators

  datatype Signal = Hold | Buy | Sell

  datatype SignalResult = SignalResult(date: Date, signal: Signal)

  // ---------- definitions, one signal at a time ----------

  function CrossoverAt(fast: seq<IndicatorValue>, slow: seq<IndicatorValue>, i: nat): Signal {
    if i < |fast| && i < |slow| && fast[i].value.Some? && slow[i].value.Some? then
      var f, sl := fast[i].value.value, slow[i].value.value;
      if i == 0 then (if f > sl then Buy else if f < sl then Sell else Hold)
      else if fast[i - 1].value.Some? && slow[i - 1].value.Some? then
        var pf, ps := fast[i - 1].value.value, slow[i - 1].value.value;
        if f > sl && !(pf > ps) then Buy else if f < sl && !(pf < ps) then Sell else Hold
      else Hold
    else Hold
  }

  function RsiSignalAt(rsi: seq<IndicatorValue>, oversold: real, overbought: real, i: nat): Signal
    requires i < |rsi|
  {
    if i > 0 && rsi[i].value.Some? then
      var v := rsi[i].value.value;
      if v < oversold then Buy else if v > overbought then Sell else Hold
    else Hold
  }

  function BollingerSignalAt(upper: seq<IndicatorValue>, lower: seq<IndicatorValue>, close: real, i: nat): Signal {
    if i < |upper| && i < |lower| then
      if upper[i].value.Some? && close > upper[i].value.value then Sell
      else if lower[i].value.Some? && close < lower[i].value.value then Buy
      else Hold
    else Hold
  }

  function Tagged(series: seq<Bar>, at: nat --> Signal): (r: seq<SignalResult>)
    requires forall i: nat :: i < |series| ==> at.requires(i)
    ensures |r| == |series|
  {
    seq(|series|, i requires 0 <= i < |series| => SignalResult(series[i].date, at(i)))
  }

  function Crossover(series: seq<Bar>, fast: seq<IndicatorValue>, slow: seq<IndicatorValue>): seq<SignalResult> {
    Tagged(series, i requires 0 <= i < |series| => CrossoverAt(fast, slow, i))
  }

  predicate IsBuiltin(strategy: string) {
    strategy in {"buy_and_hold", "sma_crossover", "rsi_threshold", "bollinger_bands_reversion", "macd_crossover"}
  }

  /** The signals of a built-in strategy, or the error its construction or its indicators raise. */
  function SignalsOf(sqrt: real -> real, strategy: string, series: seq<Bar>,
                     params: Params): (r: Result<seq<SignalResult>>)
    ensures r.Success? ==> |r.value| == |series|
  {
    if strategy == "buy_and_hold" then
      Success(Tagged(series, i => if i == 0 then Buy else Hold))
    else if strategy == "sma_crossover" then
      var fast :- Calculated(sqrt, "sma", series, params["period" := ParamOrDefault(params, "fast", 10.0)]);
      var slow :- Calculated(sqrt, "sma", series, params["period" := ParamOrDefault(params, "slow", 30.0)]);
      Success(Crossover(series, fast.values, slow.values))
    else if strategy == "rsi_threshold" then
      var rsi :- Calculated(sqrt, "rsi", series, params);
      Success(Tagged(series, i requires 0 <= i < |series| =>
        RsiSignalAt(rsi.values, ParamOrDefault(params, "oversold", 30.0),
                    ParamOrDefault(params, "overbought", 70.0), i)))
    else if strategy == "bollinger_bands_reversion" then
      var bands :- Calculated(sqrt, "bollinger_bands", series, params);
      Success(Tagged(series, i requires 0 <= i < |series| =>
        BollingerSignalAt(bands.extra["upper"], bands.extra["lower"], series[i].close, i)))
    else if strategy == "macd_crossover" then
      var macd :- Calculated(sqrt, "macd", series, params);
      Success(Crossover(series, macd.values, macd.extra["signal"]))
    else Failure(InvalidCommand("unknown strategy"))
  }

  // ---------- the loops ----------

  method CrossoverSignals(series: seq<Bar>, fast: seq<IndicatorValue>, slow: seq<IndicatorValue>)
    returns (signals: seq<SignalResult>)
    ensures signals == Crossover(series, fast, slow)
  {
    signals := [];
    for i := 0 to |series|
      invariant |signals| == i
      invariant forall k :: 0 <= k < i ==> signals[k] == SignalResult(series[k].date, CrossoverAt(fast, slow, k))
    {
      var s := Hold;
      if i < |fast| && i < |slow| && fast[i].value.Some? && slow[i].value.Some? {
        var f, sl := fast[i].value.value, slow[i].value.value;
        if i == 0 {
          if f > sl { s := Buy; } else if f < sl { s := Sell; }
        } else if i - 1 < |fast| && i - 1 < |slow| && fast[i - 1].value.Some? && slow[i - 1].value.Some? {
          var pf, ps := fast[i - 1].value.value, slow[i - 1].value.value;
          if f > sl && !(pf > ps) { s := Buy; } else if f < sl && !(pf < ps) { s := Sell; }
        }
      }
      signals := signals + [SignalResult(series[i].date, s)];
    }
  }

  method BuyAndHoldSignals(series: seq<Bar>) returns (signals: seq<SignalResult>)
    ensures signals == Tagged(series, i => if i == 0 then Buy else Hold)
  {
    signals := [];
    for i := 0 to |series|
      invariant |signals| == i
      invariant forall k :: 0 <= k < i ==> signals[k] == SignalResult(series[k].date, if k == 0 then Buy else Hold)
    {
      var s := if i == 0 then Buy else Hold;
      signals := signals + [SignalResult(series[i].date, s)];
    }
  }

  method RsiSignals(series: seq<Bar>, rsi: seq<IndicatorValue>, oversold: real, overbought: real)
    returns (signals: seq<SignalResult>)
    requires |rsi| == |series|
    ensures signals == Tagged(series, i requires 0 <= i < |series| => RsiSignalAt(rsi, oversold, overbought, i))
  {
    signals := [];
    for i := 0 to |series|
      invariant |signals| == i
      invariant forall k :: 0 <= k < i ==>
                  signals[k] == SignalResult(series[k].date, RsiSignalAt(rsi, oversold, overbought, k))
    {
      var s := Hold;
      if i > 0 && rsi[i].value.Some? {
        var v := rsi[i].value.value;
        if v < oversold { s := Buy; } else if v > overbought { s := Sell; }
      }
      signals := signals + [SignalResult(series[i].date, s)];
    }
  }

  method BollingerSignals(series: seq<Bar>, upper: seq<IndicatorValue>, lower: seq<IndicatorValue>)
    returns (signals: seq<SignalResult>)
    ensures signals == Tagged(series,
            i requires 0 <= i < |series| => BollingerSignalAt(upper, lower, series[i].close, i))
  {
    signals := [];
    for i := 0 to |series|
      invariant |signals| == i
      invariant forall k :: 0 <= k < i ==>
                  signals[k] == SignalResult(series[k].date, BollingerSignalAt(upper, lower, series[k].close, k))
    {
      var s := Hold;
      if i < |upper| && i < |lower| {
        if upper[i].value.Some? && series[i].close > upper[i].value.value { s := Sell; }
        else if lower[i].value.Some? && series[i].close < lower[i].value.value { s := Buy; }
      }
      signals := signals + [SignalResult(series[i].date, s)];
    }
  }

  method Signals(sqrt: real -> real, strategy: string, series: seq<Bar>, params: Params)
    returns (r: Result<seq<SignalResult>>)
    ensures r == SignalsOf(sqrt, strategy, series, params)
  {
    if strategy == "buy_and_hold" {
      var signals := BuyAndHoldSignals(series);
      return Success(signals);
    }
    if strategy == "sma_crossover" {
      var fast :- Calculate(sqrt, "sma", series, params["period" := ParamOrDefault(params, "fast", 10.0)]);
      var slow :- Calculate(sqrt, "sma", series, params["period" := ParamOrDefault(params, "slow", 30.0)]);
      var signals := CrossoverSignals(series, fast.values, slow.values);
      return Success(signals);
    }
    if strategy == "rsi_threshold" {
      var rsi :- Calculate(sqrt, "rsi", series, params);
      var signals := RsiSignals(series, rsi.values,
                                ParamOrDefault(params, "oversold", 30.0), ParamOrDefault(params, "overbought", 70.0));
      return Success(signals);
    }
    if strategy == "bollinger_bands_reversion" {
      var bands :- Calculate(sqrt, "bollinger_bands", series, params);
      var signals := BollingerSignals(series, bands.extra["upper"], bands.extra["lower"]);
      return Success(signals);
    }
    if strategy == "macd_crossover" {
      var macd :- Calculate(sqrt, "macd", series, params);
      var signals := CrossoverSignals(series, macd.values, macd.extra["signal"]);
      return Success(signals);
    }
    return Failure(InvalidCommand("unknown strategy"));
  }
}
