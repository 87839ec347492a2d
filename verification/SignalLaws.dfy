/** What the signals mean in terms of prices: crossovers mark the side the faster line has moved to, thresholds and
    bands mark excesses, and names and default parameters stand for what they say. */
module SignalLaws {
  import opened Reals
  import opened LinearAlgebra
  import opened Covariance
  import opened Moments
  import opened Outcome
  import opened Market
  import opened Indicators
  import opened IndicatorLaws
  import opened Strategies

  // ---------- crossovers of two lines ----------

  ghost predicate Exist(fast: seq<IndicatorValue>, slow: seq<IndicatorValue>, i: nat) {
    i < |fast| && i < |slow| && fast[i].value.Some? && slow[i].value.Some?
  }

  /** How far the fast line is above the slow one. */
  function Lead(fast: seq<IndicatorValue>, slow: seq<IndicatorValue>, i: nat): real
    requires Exist(fast, slow, i)
  {
    fast[i].value.value - slow[i].value.value
  }

  /** A Buy marks the fast line getting above the slow one, a Sell its getting below, and nothing else is marked. */
  lemma CrossoverMeans(fast: seq<IndicatorValue>, slow: seq<IndicatorValue>, i: nat)
    ensures var s := CrossoverAt(fast, slow, i);
            && (s == Buy <==>
                  Exist(fast, slow, i) && Lead(fast, slow, i) > 0.0
                  && (i > 0 ==> Exist(fast, slow, i - 1) && Lead(fast, slow, i - 1) <= 0.0))
            && (s == Sell <==>
                  Exist(fast, slow, i) && Lead(fast, slow, i) < 0.0
                  && (i > 0 ==> Exist(fast, slow, i - 1) && Lead(fast, slow, i - 1) >= 0.0))
  {
  }

  /** No signal after bar k, up to bar j. */
  ghost predicate QuietSince(fast: seq<IndicatorValue>, slow: seq<IndicatorValue>, k: nat, j: nat) {
    forall i :: k < i <= j ==> CrossoverAt(fast, slow, i) == Hold
  }

  /** As long as both lines exist, the latest signal tells which of them is not below the other. */
  lemma {:induction false} LatestSignalHolds(fast: seq<IndicatorValue>, slow: seq<IndicatorValue>, k: nat, j: nat)
    requires k <= j && QuietSince(fast, slow, k, j) && forall i: nat :: k <= i <= j ==> Exist(fast, slow, i)
    ensures CrossoverAt(fast, slow, k) == Buy ==> Lead(fast, slow, j) >= 0.0
    ensures CrossoverAt(fast, slow, k) == Sell ==> Lead(fast, slow, j) <= 0.0
  {
    CrossoverMeans(fast, slow, j);
    if k < j {
      LatestSignalHolds(fast, slow, k, j - 1);
      assert CrossoverAt(fast, slow, j) == Hold;
    }
  }

  // ---------- the moving-average strategy ----------

  /** The mean of the last `period` closes, written out. */
  function Trailing(series: seq<Bar>, period: nat, i: nat): real
    requires 0 < period <= i + 1 <= |series|
  {
    Sum(Closes(series)[i + 1 - period..i + 1]) / (period as real)
  }

  /** Both means exist at bar i and the fast one exceeds the slow one by more than zero times `sign`. */
  ghost predicate Above(series: seq<Bar>, fast: nat, slow: nat, i: nat) {
    0 < fast <= i + 1 <= |series| && 0 < slow <= i + 1 && Trailing(series, fast, i) > Trailing(series, slow, i)
  }

  ghost predicate Below(series: seq<Bar>, fast: nat, slow: nat, i: nat) {
    0 < fast <= i + 1 <= |series| && 0 < slow <= i + 1 && Trailing(series, fast, i) < Trailing(series, slow, i)
  }

  ghost predicate Level(series: seq<Bar>, fast: nat, slow: nat, i: nat) {
    0 < fast <= i + 1 <= |series| && 0 < slow <= i + 1 && Trailing(series, fast, i) == Trailing(series, slow, i)
  }

  /** Periods of ten and thirty bars unless the parameters say otherwise. */
  predicate SmaPeriods(params: Params, fast: nat, slow: nat) {
    && fast as real == (if "fast" in params then params["fast"] else 10.0)
    && slow as real == (if "slow" in params then params["slow"] else 30.0)
  }

  lemma SmaValue(series: seq<Bar>, period: nat, i: nat)
    requires i < |series|
    ensures Sma(series, period)[i].value == if 0 < period <= i + 1 then Some(Trailing(series, period, i)) else None
  {
    hide SumTo;
  }

  lemma WholeParam(params: Params, key: string, default: nat, period: nat)
    requires period > 0 && period as real == if key in params then params[key] else default as real
    ensures ParamAsSize(params, key, default) == Success(period)
  {
    if key in params { assert params[key].Floor == period; }
  }

  /** Buys when the mean of the last `fast` closes gets above that of the last `slow`, sells when it gets below. */
  lemma SmaCrossoverMeans(sqrt: real -> real, series: seq<Bar>, params: Params, fast: nat, slow: nat, i: nat)
    requires i < |series| && fast > 0 && slow > 0 && SmaPeriods(params, fast, slow)
    ensures var r := SignalsOf(sqrt, "sma_crossover", series, params);
            && r.Success? && r.value[i].date == series[i].date
            && (r.value[i].signal == Buy <==>
                  Above(series, fast, slow, i)
                  && (i > 0 ==> Below(series, fast, slow, i - 1) || Level(series, fast, slow, i - 1)))
            && (r.value[i].signal == Sell <==>
                  Below(series, fast, slow, i)
                  && (i > 0 ==> Above(series, fast, slow, i - 1) || Level(series, fast, slow, i - 1)))
  {
    hide SmaAt, Trailing, CrossoverAt;
    var pf, ps := params["period" := ParamOrDefault(params, "fast", 10.0)],
      params["period" := ParamOrDefault(params, "slow", 30.0)];
    WholeParam(pf, "period", 20, fast);
    WholeParam(ps, "period", 20, slow);
    var f, s := Sma(series, fast), Sma(series, slow);
    SmaValue(series, fast, i);
    SmaValue(series, slow, i);
    if i > 0 {
      SmaValue(series, fast, i - 1);
      SmaValue(series, slow, i - 1);
    }
    CrossoverMeans(f, s, i);
  }

  /** Bar k's signal is the latest one up to bar j. */
  ghost predicate IsLatest(signals: seq<SignalResult>, k: nat, j: nat) {
    k <= j < |signals| && signals[k].signal != Hold && forall i :: k < i <= j ==> signals[i].signal == Hold
  }

  /** While a Buy is the latest signal the fast mean is not below the slow one, while a Sell is it is not above. */
  lemma {:induction false} SmaLatestSignal(sqrt: real -> real, series: seq<Bar>, params: Params, fast: nat, slow: nat,
                                           k: nat, j: nat)
    requires fast > 0 && slow > 0 && SmaPeriods(params, fast, slow)
    requires var r := SignalsOf(sqrt, "sma_crossover", series, params); r.Success? && IsLatest(r.value, k, j)
    ensures fast <= j + 1 && slow <= j + 1 <= |series|
    ensures SignalsOf(sqrt, "sma_crossover", series, params).value[k].signal == Buy ==>
              Trailing(series, fast, j) >= Trailing(series, slow, j)
    ensures SignalsOf(sqrt, "sma_crossover", series, params).value[k].signal == Sell ==>
              Trailing(series, fast, j) <= Trailing(series, slow, j)
    decreases j
  {
    hide SignalsOf, Trailing, SmaPeriods;
    SmaCrossoverMeans(sqrt, series, params, fast, slow, j);
    if k < j { SmaLatestSignal(sqrt, series, params, fast, slow, k, j - 1); }
  }

  // ---------- the MACD strategy ----------

  /** Averages over twelve and twenty-six bars and a signal over nine unless the parameters say otherwise. */
  predicate MacdPeriods(params: Params, fast: nat, slow: nat, signal: nat) {
    && fast as real == (if "fast" in params then params["fast"] else 12.0)
    && slow as real == (if "slow" in params then params["slow"] else 26.0)
    && signal as real == (if "signal" in params then params["signal"] else 9.0)
  }

  /** Buys when the histogram turns positive and sells when it turns negative. */
  lemma MacdCrossoverMeans(sqrt: real -> real, series: seq<Bar>, params: Params, fast: nat, slow: nat, signal: nat,
                           i: nat)
    requires i < |series| && fast > 0 && slow > 0 && signal > 0
    requires MacdPeriods(params, fast, slow, signal)
    ensures var r, closes := SignalsOf(sqrt, "macd_crossover", series, params), Closes(series);
            var h := HistogramAt(closes, fast, slow, signal, i);
            && r.Success? && r.value[i].date == series[i].date
            && (i == 0 ==>
                  && (r.value[i].signal == Buy <==> h.Some? && h.value > 0.0)
                  && (r.value[i].signal == Sell <==> h.Some? && h.value < 0.0))
            && (i > 0 ==>
                  var before := HistogramAt(closes, fast, slow, signal, i - 1);
                  && (r.value[i].signal == Buy <==> h.Some? && h.value > 0.0 && before.Some? && before.value <= 0.0)
                  && (r.value[i].signal == Sell <==> h.Some? && h.value < 0.0 && before.Some? && before.value >= 0.0))
  {
    hide MacdAt, MacdSignalAt, CrossoverAt;
    WholeParam(params, "fast", 12, fast);
    WholeParam(params, "slow", 26, slow);
    WholeParam(params, "signal", 9, signal);
    CrossoverMeans(Macd(series, fast, slow), MacdSignal(series, fast, slow, signal), i);
  }

  /** The histogram, once there, stays. */
  lemma HistogramStays(closes: Vec, fast: nat, slow: nat, signal: nat, i: nat)
    requires 0 < i < |closes| && fast > 0 && slow > 0 && HistogramAt(closes, fast, slow, signal, i - 1).Some?
    ensures HistogramAt(closes, fast, slow, signal, i).Some?
  {
    hide EmaLevel, MacdSignalAt, HistogramAt;
    var start := MacdStart(fast, slow);
    if start <= |closes| {
      var v := seq(|closes| - start, k requires 0 <= k < |closes| - start =>
        EmaLevel(closes, fast, start + k) - EmaLevel(closes, slow, start + k));
      MacdLaw(closes, fast, slow, signal, v, i - 1);
      MacdLaw(closes, fast, slow, signal, v, i);
    } else {
      NoHistogram(closes, fast, slow, signal, i - 1);
    }
  }

  lemma NoHistogram(closes: Vec, fast: nat, slow: nat, signal: nat, i: nat)
    requires i < |closes| < MacdStart(fast, slow)
    ensures HistogramAt(closes, fast, slow, signal, i).None?
  {
    hide MacdSignalAt, EmaLevel;
  }

  /** While a Buy is the latest signal the histogram is not negative, while a Sell is it is not positive. */
  lemma {:induction false} MacdLatestSignal(sqrt: real -> real, series: seq<Bar>, params: Params, fast: nat, slow: nat,
                                            signal: nat, k: nat, j: nat)
    requires fast > 0 && slow > 0 && signal > 0 && MacdPeriods(params, fast, slow, signal)
    requires var r := SignalsOf(sqrt, "macd_crossover", series, params); r.Success? && IsLatest(r.value, k, j)
    ensures j < |series| && HistogramAt(Closes(series), fast, slow, signal, j).Some?
    ensures SignalsOf(sqrt, "macd_crossover", series, params).value[k].signal == Buy ==>
              HistogramAt(Closes(series), fast, slow, signal, j).value >= 0.0
    ensures SignalsOf(sqrt, "macd_crossover", series, params).value[k].signal == Sell ==>
              HistogramAt(Closes(series), fast, slow, signal, j).value <= 0.0
    decreases j
  {
    hide SignalsOf, HistogramAt, MacdPeriods;
    MacdCrossoverMeans(sqrt, series, params, fast, slow, signal, j);
    if k < j {
      MacdLatestSignal(sqrt, series, params, fast, slow, signal, k, j - 1);
      HistogramStays(Closes(series), fast, slow, signal, j);
    }
  }

  // ---------- thresholds and bands ----------

  function Oversold(params: Params): real { if "oversold" in params then params["oversold"] else 30.0 }

  function Overbought(params: Params): real { if "overbought" in params then params["overbought"] else 70.0 }

  lemma RsiSignalIs(sqrt: real -> real, series: seq<Bar>, params: Params, period: nat, i: nat)
    requires i < |series| && period > 0 && period as real == (if "period" in params then params["period"] else 14.0)
    ensures var r := SignalsOf(sqrt, "rsi_threshold", series, params);
            && r.Success? && r.value[i].date == series[i].date
            && r.value[i].signal == RsiSignalAt(Rsi(series, period), Oversold(params), Overbought(params), i)
  {
    hide RsiAt;
    WholeParam(params, "period", 14, period);
    assert Oversold(params) == ParamOrDefault(params, "oversold", 30.0);
    assert Overbought(params) == ParamOrDefault(params, "overbought", 70.0);
    assert Calculated(sqrt, "rsi", series, params).value.values == Rsi(series, period);
  }

  lemma RsiAtBar(series: seq<Bar>, period: nat, low: real, high: real, i: nat)
    requires i < |series| && period > 0
    ensures var s := RsiSignalAt(Rsi(series, period), low, high, i);
            if i < period then s == Hold
            else
              var v := RsiValue(AvgGain(Closes(series), period, i), AvgLoss(Closes(series), period, i));
              (s == Buy <==> v < low) && (s == Sell <==> v >= low && v > high)
  {
    hide AvgGain, AvgLoss, RsiValue;
  }

  /** The strategy buys when less than `oversold` percent of all smoothed movement is gain, sells when more than
      `overbought` percent is, and is quiet while the index does not exist. */
  lemma RsiThresholdMeans(sqrt: real -> real, series: seq<Bar>, params: Params, period: nat, i: nat)
    requires i < |series| && period > 0 && period as real == (if "period" in params then params["period"] else 14.0)
    ensures var r := SignalsOf(sqrt, "rsi_threshold", series, params);
            && r.Success? && r.value[i].date == series[i].date
            && (i < period ==> r.value[i].signal == Hold)
            && (i >= period ==>
                  var g, l := AvgGain(Closes(series), period, i), AvgLoss(Closes(series), period, i);
                  g + l > 0.0 ==>
                    && (r.value[i].signal == Buy <==> 100.0 * g < Oversold(params) * (g + l))
                    && (r.value[i].signal == Sell <==>
                          100.0 * g >= Oversold(params) * (g + l) && 100.0 * g > Overbought(params) * (g + l)))
  {
    hide AvgGain, AvgLoss, RsiValue, SignalsOf, RsiSignalAt, Rsi, Oversold, Overbought;
    RsiSignalIs(sqrt, series, params, period, i);
    var low, high := Oversold(params), Overbought(params);
    RsiAtBar(series, period, low, high, i);
    if i >= period {
      var g, l := AvgGain(Closes(series), period, i), AvgLoss(Closes(series), period, i);
      if g + l > 0.0 {
        RsiShare(g, l);
        OrderTimes(RsiValue(g, l), low, g + l, 100.0 * g, low * (g + l));
        OrderTimes(RsiValue(g, l), high, g + l, 100.0 * g, high * (g + l));
      }
    }
  }

  lemma OrderTimes(a: real, b: real, t: real, at: real, bt: real)
    requires t > 0.0 && at == a * t && bt == b * t
    ensures a < b <==> at < bt
    ensures a > b <==> at > bt
  {
    FactorSign(t, a - b, t * (a - b));
  }

  lemma BollingerSignalIs(sqrt: real -> real, series: seq<Bar>, params: Params, period: nat, count: nat, i: nat)
    requires i < |series| && period > 0 && count > 0
    requires period as real == (if "period" in params then params["period"] else 20.0)
    requires count as real == (if "std_dev" in params then params["std_dev"] else 2.0)
    ensures var r := SignalsOf(sqrt, "bollinger_bands_reversion", series, params);
            var upper, lower := Band(sqrt, series, period, count as real), Band(sqrt, series, period, -(count as real));
            && r.Success? && r.value[i].date == series[i].date
            && r.value[i].signal == BollingerSignalAt(upper, lower, series[i].close, i)
  {
    hide BandAt, BollingerSignalAt, SmaAt;
    WholeParam(params, "period", 20, period);
    WholeParam(params, "std_dev", 2, count);
  }

  lemma BollingerAtBar(sqrt: real -> real, series: seq<Bar>, period: nat, w: real, i: nat)
    requires i < |series| && period > 0
    ensures var s := BollingerSignalAt(Band(sqrt, series, period, w), Band(sqrt, series, period, -w), series[i].close,
            i);
            var up, down := BandAt(sqrt, Closes(series), period, w, i), BandAt(sqrt, Closes(series), period, -w, i);
            && (up.None? && down.None? ==> s == Hold)
            && (up.Some? && down.Some? ==>
                  && (s == Sell <==> series[i].close > up.value)
                  && (s == Buy <==> series[i].close <= up.value && series[i].close < down.value))
  {
    hide BandAt;
  }

  /** The strategy sells above the mean of the last closes plus so many of their standard deviations, and buys below the
      mean less as many. */
  lemma BollingerMeans(sqrt: real -> real, series: seq<Bar>, params: Params, period: nat, count: nat, i: nat)
    requires IsSqrt(sqrt) && i < |series| && period > 0 && count > 0
    requires period as real == (if "period" in params then params["period"] else 20.0)
    requires count as real == (if "std_dev" in params then params["std_dev"] else 2.0)
    ensures var r := SignalsOf(sqrt, "bollinger_bands_reversion", series, params);
            && r.Success? && r.value[i].date == series[i].date
            && (i + 1 < period ==> r.value[i].signal == Hold)
            && (i + 1 >= period ==>
                  var window := Closes(series)[i + 1 - period..i + 1];
                  var mean, sd, close := Trailing(series, period, i), SampleStdDev(sqrt, window), series[i].close;
                  && sd >= 0.0 && sd * sd == (if period == 1 then 0.0 else SampleVariance(window))
                  && (r.value[i].signal == Sell <==> close - mean > (count as real) * sd)
                  && (r.value[i].signal == Buy <==> mean - close > (count as real) * sd))
  {
    hide SampleStdDev, SampleVariance, IsSqrt, SumTo, SignalsOf, BandAt, BollingerSignalAt, Band;
    BollingerSignalIs(sqrt, series, params, period, count, i);
    var w := count as real;
    BollingerAtBar(sqrt, series, period, w, i);
    BandLaw(sqrt, Closes(series), period, w, i);
    BandLaw(sqrt, Closes(series), period, -w, i);
    if i + 1 >= period { OppositeWidths(w, SampleStdDev(sqrt, Closes(series)[i + 1 - period..i + 1])); }
  }

  lemma OppositeWidths(count: real, sd: real)
    requires count > 0.0 && sd >= 0.0
    ensures -count * sd == -(count * sd) && count * sd >= 0.0
  {
  }

  /** Buy and hold buys once, at the first bar. */
  lemma BuyAndHoldMeans(sqrt: real -> real, series: seq<Bar>, params: Params, i: nat)
    requires i < |series|
    ensures var r := SignalsOf(sqrt, "buy_and_hold", series, params);
            r.Success? && r.value[i] == SignalResult(series[i].date, if i == 0 then Buy else Hold)
  {
  }

  // ---------- names and defaults ----------

  /** The averages by name, over twenty bars by default. */
  lemma NamedAverages(sqrt: real -> real, series: seq<Bar>, params: Params, period: nat, i: nat)
    requires i < |series| && period > 0 && period as real == (if "period" in params then params["period"] else 20.0)
    ensures var r := Calculated(sqrt, "sma", series, params);
            r.Success? && r.value.values[i] == IndicatorValue(series[i].date, SmaAt(Closes(series), period, i))
    ensures var r := Calculated(sqrt, "ema", series, params);
            r.Success? && r.value.values[i] == IndicatorValue(series[i].date, EmaAt(Closes(series), period, i))
  {
    hide SmaAt, EmaAt;
    WholeParam(params, "period", 20, period);
  }

  /** The indices by name, over fourteen bars by default, and the two that take no period. */
  lemma NamedRanges(sqrt: real -> real, series: seq<Bar>, params: Params, period: nat, i: nat)
    requires i < |series| && period > 0 && period as real == (if "period" in params then params["period"] else 14.0)
    ensures var r := Calculated(sqrt, "rsi", series, params);
            r.Success? && r.value.values[i] == IndicatorValue(series[i].date, RsiAt(Closes(series), period, i))
    ensures var r := Calculated(sqrt, "atr", series, params);
            r.Success? && r.value.values[i] == IndicatorValue(series[i].date, AtrAt(series, period, i))
    ensures var r := Calculated(sqrt, "obv", series, params);
            r.Success? && r.value.values[i] == IndicatorValue(series[i].date, Some(ObvAt(series, i)))
    ensures var r := Calculated(sqrt, "vwap", series, params);
            r.Success? && r.value.values[i] == IndicatorValue(series[i].date, VwapAt(series, i))
  {
    hide RsiAt, AtrAt, ObvAt, VwapAt;
    WholeParam(params, "period", 14, period);
  }

  /** The MACD by name: the line, its signal and their difference, under their own names. */
  lemma NamedMacd(sqrt: real -> real, series: seq<Bar>, params: Params, fast: nat, slow: nat, signal: nat, i: nat)
    requires i < |series| && fast > 0 && slow > 0 && signal > 0 && MacdPeriods(params, fast, slow, signal)
    ensures var r, closes := Calculated(sqrt, "macd", series, params), Closes(series);
            && r.Success? && r.value.extra.Keys == {"signal", "histogram"}
            && |r.value.extra["signal"]| == |r.value.extra["histogram"]| == |series|
            && r.value.values[i] == IndicatorValue(series[i].date, MacdAt(closes, fast, slow, i))
            && r.value.extra["signal"][i] == IndicatorValue(series[i].date, MacdSignalAt(closes, fast, slow, signal, i))
            && r.value.extra["histogram"][i]
              == IndicatorValue(series[i].date, HistogramAt(closes, fast, slow, signal, i))
  {
    hide MacdAt, MacdSignalAt, HistogramAt;
    WholeParam(params, "fast", 12, fast);
    WholeParam(params, "slow", 26, slow);
    WholeParam(params, "signal", 9, signal);
  }

  /** The bands by name: the moving average in the middle, the upper one above it by as much as the lower one is
      below. */
  lemma NamedBands(sqrt: real -> real, series: seq<Bar>, params: Params, period: nat, count: nat, i: nat)
    requires i < |series| && period > 0 && count > 0
    requires period as real == (if "period" in params then params["period"] else 20.0)
    requires count as real == (if "std_dev" in params then params["std_dev"] else 2.0)
    ensures var r, closes := Calculated(sqrt, "bollinger_bands", series, params), Closes(series);
            && r.Success? && r.value.extra.Keys == {"upper", "lower"}
            && |r.value.extra["upper"]| == |r.value.extra["lower"]| == |series|
            && r.value.values[i] == IndicatorValue(series[i].date, SmaAt(closes, period, i))
            && r.value.extra["upper"][i]
              == IndicatorValue(series[i].date, BandAt(sqrt, closes, period, count as real, i))
            && r.value.extra["lower"][i]
              == IndicatorValue(series[i].date, BandAt(sqrt, closes, period, -(count as real), i))
  {
    hide SmaAt, BandAt;
    WholeParam(params, "period", 20, period);
    WholeParam(params, "std_dev", 2, count);
  }

  predicate IsWhole(x: real) { x > 0.0 && x.Floor as real == x }

  /** A period that is not a positive whole number is rejected, and nothing else is but such a number of deviations. */
  lemma BadPeriodRejected(sqrt: real -> real, name: string, series: seq<Bar>, params: Params)
    requires name in {"sma", "ema", "rsi", "atr", "bollinger_bands"}
    ensures Calculated(sqrt, name, series, params).Failure? <==>
            || ("period" in params && !IsWhole(params["period"]))
            || (name == "bollinger_bands" && "std_dev" in params && !IsWhole(params["std_dev"]))
  {
    hide Sma, Ema, Rsi, Atr, Band;
  }
}
