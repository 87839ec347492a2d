/** The eight indicators: bar-by-bar definitions and the loops that compute them. */
module Indicators {
  import opened Reals
  import opened LinearAlgebra
  import opened Covariance
  import opened Outcome
  import opened Market

  datatype IndicatorValue = IndicatorValue(date: Date, value: Option<real>)

  datatype IndicatorResult = IndicatorResult(
    name: string, params: Params, values: seq<IndicatorValue>, extra: map<string, seq<IndicatorValue>>)

  /** Dates of the series with one optional value each. */
  function Dated(series: seq<Bar>, at: nat --> Option<real>): (r: seq<IndicatorValue>)
    requires forall i: nat :: i < |series| ==> at.requires(i)
    ensures |r| == |series|
  {
    seq(|series|, i requires 0 <= i < |series| => IndicatorValue(series[i].date, at(i)))
  }

  // ---------- definitions, one value at a time ----------

  function SmaAt(closes: Vec, period: nat, i: nat): Option<real>
    requires i < |closes|
  {
    if period == 0 || i + 1 < period then None else Some(MeanOf(closes[i + 1 - period..i + 1]))
  }

  function EmaLevel(closes: Vec, period: nat, i: nat): real
    requires 0 < period <= i + 1 <= |closes|
  {
    if i + 1 == period then MeanOf(closes[..period])
    else
      var prev := EmaLevel(closes, period, i - 1);
      EmaNext(prev, closes[i], period)
  }

  function EmaNext(prev: real, x: real, period: nat): real {
    (x - prev) * (2.0 / ((period + 1) as real)) + prev
  }

  function EmaAt(closes: Vec, period: nat, i: nat): Option<real>
    requires i < |closes|
  {
    if period == 0 || i + 1 < period then None else Some(EmaLevel(closes, period, i))
  }

  function Gain(diff: real): (g: real)
    ensures g >= 0.0
  {
    if diff >= 0.0 then diff else 0.0
  }

  function Loss(diff: real): (l: real)
    ensures l >= 0.0
  {
    if diff >= 0.0 then 0.0 else -diff
  }

  lemma {:induction false} NonNegativeSumTo(v: Vec, k: nat)
    requires k <= |v| && forall i :: 0 <= i < |v| ==> v[i] >= 0.0
    ensures SumTo(v, k) >= 0.0
  {
    if k > 0 { NonNegativeSumTo(v, k - 1); }
  }

  lemma NonNegativeMean(v: Vec)
    requires |v| > 0 && forall i :: 0 <= i < |v| ==> v[i] >= 0.0
    ensures MeanOf(v) >= 0.0
  {
    NonNegativeSumTo(v, |v|);
    DivSign(Sum(v), |v| as real);
  }

  /** Close-to-close changes; entry i is the change into bar i + 1. */
  function Change(closes: Vec, i: nat): real
    requires i + 1 < |closes|
  {
    closes[i + 1] - closes[i]
  }

  function Gains(closes: Vec, period: nat): (g: Vec)
    requires period < |closes|
    ensures |g| == period
  {
    seq(period, i requires 0 <= i < period => Gain(Change(closes, i)))
  }

  function Losses(closes: Vec, period: nat): (l: Vec)
    requires period < |closes|
    ensures |l| == period
  {
    seq(period, i requires 0 <= i < period => Loss(Change(closes, i)))
  }

  /** Wilder's smoothing: (prev * (period - 1) + x) / period. */
  function Smooth(prev: real, x: real, period: nat): (r: real)
    requires period > 0
    ensures prev >= 0.0 && x >= 0.0 ==> r >= 0.0
  {
    ProductPositive(prev, (period - 1) as real, prev * ((period - 1) as real));
    DivSign(prev * ((period - 1) as real) + x, period as real);
    (prev * ((period - 1) as real) + x) / (period as real)
  }

  function AvgGain(closes: Vec, period: nat, i: nat): (r: real)
    requires 0 < period <= i < |closes|
    ensures r >= 0.0
  {
    if i == period then
      NonNegativeMean(Gains(closes, period));
      MeanOf(Gains(closes, period))
    else Smooth(AvgGain(closes, period, i - 1), Gain(Change(closes, i - 1)), period)
  }

  function AvgLoss(closes: Vec, period: nat, i: nat): (r: real)
    requires 0 < period <= i < |closes|
    ensures r >= 0.0
  {
    if i == period then
      NonNegativeMean(Losses(closes, period));
      MeanOf(Losses(closes, period))
    else Smooth(AvgLoss(closes, period, i - 1), Loss(Change(closes, i - 1)), period)
  }

  /** Relative strength on a scale of 0 to 100. */
  function RsiValue(avgGain: real, avgLoss: real): (r: real)
    requires avgGain >= 0.0 && avgLoss >= 0.0
    ensures 0.0 <= r <= 100.0
  {
    if avgLoss == 0.0 then 100.0
    else
      var rs := avgGain / avgLoss;
      DivSign(avgGain, avgLoss);
      Reciprocal(1.0 + rs);
      100.0 - 100.0 / (1.0 + rs)
  }

  lemma Reciprocal(x: real)
    requires x >= 1.0
    ensures 0.0 < 100.0 / x <= 100.0
  {
    DivSign(100.0, x);
    var q := 100.0 / x;
    FactorSign(q, x - 1.0, q * (x - 1.0));
    ProductPositive(q, x - 1.0, q * (x - 1.0));
  }

  function RsiAt(closes: Vec, period: nat, i: nat): Option<real>
    requires i < |closes|
  {
    if period == 0 || i < period then None
    else Some(RsiValue(AvgGain(closes, period, i), AvgLoss(closes, period, i)))
  }

  function MacdAt(closes: Vec, fast: nat, slow: nat, i: nat): Option<real>
    requires i < |closes|
  {
    var f, s := EmaAt(closes, fast, i), EmaAt(closes, slow, i);
    if f.Some? && s.Some? then Some(f.value - s.value) else None
  }

  datatype OptEma = OptEma(level: Option<real>, seeds: Vec)

  /** The running state of the EMA over optional values. */
  function OptEmaStep(st: OptEma, v: Option<real>, period: nat): OptEma
    requires period > 0
  {
    if v.None? then st
    else if st.level.None? then
      var seeds := st.seeds + [v.value];
      if |seeds| == period then OptEma(Some(MeanOf(seeds)), seeds) else OptEma(None, seeds)
    else OptEma(Some(EmaNext(st.level.value, v.value, period)), st.seeds)
  }

  function OptEmaState(vals: seq<Option<real>>, period: nat, k: nat): OptEma
    requires k <= |vals| && period > 0
  {
    if k == 0 then OptEma(None, []) else OptEmaStep(OptEmaState(vals, period, k - 1), vals[k - 1], period)
  }

  function OptEmaAt(vals: seq<Option<real>>, period: nat, i: nat): Option<real>
    requires i < |vals|
  {
    if period == 0 || vals[i].None? then None else OptEmaState(vals, period, i + 1).level
  }

  function MacdLine(closes: Vec, fast: nat, slow: nat): (r: seq<Option<real>>)
    ensures |r| == |closes|
  {
    seq(|closes|, i requires 0 <= i < |closes| => MacdAt(closes, fast, slow, i))
  }

  function MacdSignalAt(closes: Vec, fast: nat, slow: nat, signal: nat, i: nat): Option<real>
    requires i < |closes|
  {
    OptEmaAt(MacdLine(closes, fast, slow), signal, i)
  }

  function HistogramAt(closes: Vec, fast: nat, slow: nat, signal: nat, i: nat): Option<real>
    requires i < |closes|
  {
    var m, s := MacdAt(closes, fast, slow, i), MacdSignalAt(closes, fast, slow, signal, i);
    if m.Some? && s.Some? then Some(m.value - s.value) else None
  }

  function SampleStdDev(sqrt: real -> real, v: Vec): real {
    if |v| < 2 then 0.0
    else
      var d := Sub(v, Scale(MeanOf(v), Ones(|v|)));
      sqrt(Dot(d, d) / ((|v| - 1) as real))
  }

  function BandAt(sqrt: real -> real, closes: Vec, period: nat, width: real, i: nat): Option<real>
    requires i < |closes|
  {
    if period == 0 || i + 1 < period then None
    else
      var window := closes[i + 1 - period..i + 1];
      Some(BandValue(MeanOf(window), width, SampleStdDev(sqrt, window)))
  }

  function BandValue(middle: real, width: real, sd: real): real { middle + width * sd }

  lemma BandSides(middle: real, count: real, sd: real, bandWidth: real)
    requires bandWidth == count * sd
    ensures middle + bandWidth == BandValue(middle, count, sd)
    ensures middle - bandWidth == BandValue(middle, -count, sd)
  {
  }

  function TrueRange(bar: Bar, prev: Bar): real {
    Max(bar.high - bar.low, Max(Abs(bar.high - prev.close), Abs(bar.low - prev.close)))
  }

  function TrueRanges(series: seq<Bar>, period: nat): (r: Vec)
    requires period < |series|
    ensures |r| == period
  {
    seq(period, i requires 0 <= i < period => TrueRange(series[i + 1], series[i]))
  }

  function AtrLevel(series: seq<Bar>, period: nat, i: nat): real
    requires 0 < period <= i < |series|
  {
    if i == period then MeanOf(TrueRanges(series, period))
    else Smooth(AtrLevel(series, period, i - 1), TrueRange(series[i], series[i - 1]), period)
  }

  function AtrAt(series: seq<Bar>, period: nat, i: nat): Option<real>
    requires i < |series|
  {
    if period == 0 || i < period then None else Some(AtrLevel(series, period, i))
  }

  function ObvAt(series: seq<Bar>, i: nat): real
    requires i < |series|
  {
    if i == 0 then series[0].volume as real
    else
      var prev, volume := ObvAt(series, i - 1), series[i].volume as real;
      if series[i].close > series[i - 1].close then prev + volume
      else if series[i].close < series[i - 1].close then prev - volume
      else prev
  }

  function CumVolume(series: seq<Bar>, k: nat): real
    requires k <= |series|
  {
    if k == 0 then 0.0 else CumVolume(series, k - 1) + series[k - 1].volume as real
  }

  function CumTpVolume(series: seq<Bar>, k: nat): real
    requires k <= |series|
  {
    if k == 0 then 0.0
    else
      var b := series[k - 1];
      CumTpVolume(series, k - 1) + (b.high + b.low + b.close) / 3.0 * (b.volume as real)
  }

  function VwapAt(series: seq<Bar>, i: nat): Option<real>
    requires i < |series|
  {
    var v := CumVolume(series, i + 1);
    if v != 0.0 then Some(CumTpVolume(series, i + 1) / v) else None
  }

  // ---------- whole indicators ----------

  /** No value at any bar. */
  function Missing(series: seq<Bar>): seq<IndicatorValue> {
    Dated(series, i requires 0 <= i < |series| => None)
  }

  function Sma(series: seq<Bar>, period: nat): seq<IndicatorValue> {
    Dated(series, i requires 0 <= i < |series| => SmaAt(Closes(series), period, i))
  }

  function Ema(series: seq<Bar>, period: nat): seq<IndicatorValue> {
    Dated(series, i requires 0 <= i < |series| => EmaAt(Closes(series), period, i))
  }

  function Rsi(series: seq<Bar>, period: nat): seq<IndicatorValue> {
    Dated(series, i requires 0 <= i < |series| => RsiAt(Closes(series), period, i))
  }

  function Macd(series: seq<Bar>, fast: nat, slow: nat): seq<IndicatorValue> {
    Dated(series, i requires 0 <= i < |series| => MacdAt(Closes(series), fast, slow, i))
  }

  function MacdSignal(series: seq<Bar>, fast: nat, slow: nat, signal: nat): seq<IndicatorValue> {
    Dated(series, i requires 0 <= i < |series| => MacdSignalAt(Closes(series), fast, slow, signal, i))
  }

  function Histogram(series: seq<Bar>, fast: nat, slow: nat, signal: nat): seq<IndicatorValue> {
    Dated(series, i requires 0 <= i < |series| => HistogramAt(Closes(series), fast, slow, signal, i))
  }

  function Band(sqrt: real -> real, series: seq<Bar>, period: nat, width: real): seq<IndicatorValue> {
    Dated(series, i requires 0 <= i < |series| => BandAt(sqrt, Closes(series), period, width, i))
  }

  function Atr(series: seq<Bar>, period: nat): seq<IndicatorValue> {
    Dated(series, i requires 0 <= i < |series| => AtrAt(series, period, i))
  }

  function Obv(series: seq<Bar>): seq<IndicatorValue> {
    Dated(series, i requires 0 <= i < |series| => Some(ObvAt(series, i)))
  }

  function Vwap(series: seq<Bar>): seq<IndicatorValue> {
    Dated(series, i requires 0 <= i < |series| => VwapAt(series, i))
  }

  /** The result of Calculate: which values and which extra series each name stands for. */
  function Calculated(sqrt: real -> real, name: string, series: seq<Bar>, params: Params): Result<IndicatorResult> {
    if name == "sma" then
      var period :- ParamAsSize(params, "period", 20);
      Success(IndicatorResult(name, map["period" := period as real], Sma(series, period), map[]))
    else if name == "ema" then
      var period :- ParamAsSize(params, "period", 20);
      Success(IndicatorResult(name, map["period" := period as real], Ema(series, period), map[]))
    else if name == "rsi" then
      var period :- ParamAsSize(params, "period", 14);
      Success(IndicatorResult(name, map["period" := period as real], Rsi(series, period), map[]))
    else if name == "macd" then
      var fast :- ParamAsSize(params, "fast", 12);
      var slow :- ParamAsSize(params, "slow", 26);
      var signal :- ParamAsSize(params, "signal", 9);
      Success(IndicatorResult(
        name, map["fast" := fast as real, "slow" := slow as real, "signal" := signal as real],
        Macd(series, fast, slow),
        map["signal" := MacdSignal(series, fast, slow, signal), "histogram" := Histogram(series, fast, slow, signal)]))
    else if name == "bollinger_bands" then
      var period :- ParamAsSize(params, "period", 20);
      var stdDev :- ParamAsSize(params, "std_dev", 2);
      Success(IndicatorResult(
        name, map["period" := period as real, "std_dev" := stdDev as real],
        Sma(series, period),
        map["upper" := Band(sqrt, series, period, stdDev as real),
          "lower" := Band(sqrt, series, period, -(stdDev as real))]))
    else if name == "atr" then
      var period :- ParamAsSize(params, "period", 14);
      Success(IndicatorResult(name, map["period" := period as real], Atr(series, period), map[]))
    else if name == "obv" then Success(IndicatorResult(name, params, Obv(series), map[]))
    else if name == "vwap" then Success(IndicatorResult(name, params, Vwap(series), map[]))
    else Failure(InvalidCommand("unknown indicator"))
  }

  // ---------- the loops ----------

  method NoneValues(series: seq<Bar>) returns (values: seq<IndicatorValue>)
    ensures values == Missing(series)
  {
    values := [];
    for i := 0 to |series|
      invariant |values| == i && forall k :: 0 <= k < i ==> values[k] == IndicatorValue(series[k].date, None)
    {
      values := values + [IndicatorValue(series[i].date, None)];
    }
  }

  method Window(series: seq<Bar>, from: nat, to: nat) returns (window: Vec)
    requires from <= to <= |series|
    ensures window == Closes(series)[from..to]
  {
    window := [];
    for j := from to to
      invariant window == Closes(series)[from..j]
    {
      window := window + [series[j].close];
    }
  }

  method CalculateSMA(series: seq<Bar>, period: nat) returns (values: seq<IndicatorValue>)
    ensures values == Sma(series, period)
  {
    if period == 0 || |series| < period {
      values := NoneValues(series);
      return;
    }
    values := [];
    for i := 0 to |series|
      invariant |values| == i && forall k :: 0 <= k < i ==> values[k] == Sma(series, period)[k]
    {
      if i + 1 < period {
        values := values + [IndicatorValue(series[i].date, None)];
      } else {
        var window := Window(series, i + 1 - period, i + 1);
        var mean := Mean(window);
        values := values + [IndicatorValue(series[i].date, Some(mean))];
      }
    }
  }

  method CalculateEMA(series: seq<Bar>, period: nat) returns (values: seq<IndicatorValue>)
    ensures values == Ema(series, period)
  {
    if period == 0 || |series| < period {
      values := NoneValues(series);
      return;
    }
    var ema := 0.0;
    values := [];
    for i := 0 to |series|
      invariant |values| == i && forall k :: 0 <= k < i ==> values[k] == Ema(series, period)[k]
      invariant i >= period ==> ema == EmaLevel(Closes(series), period, i - 1)
    {
      if i + 1 < period {
        values := values + [IndicatorValue(series[i].date, None)];
      } else if i + 1 == period {
        var window := Window(series, 0, i + 1);
        ema := Mean(window);
        values := values + [IndicatorValue(series[i].date, Some(ema))];
      } else {
        ema := EmaNext(ema, series[i].close, period);
        values := values + [IndicatorValue(series[i].date, Some(ema))];
      }
    }
  }

  method InitialAverages(series: seq<Bar>, period: nat) returns (avgGain: real, avgLoss: real)
    requires 0 < period < |series|
    ensures avgGain == AvgGain(Closes(series), period, period) && avgLoss == AvgLoss(Closes(series), period, period)
  {
    hide MeanOf;
    ghost var closes := Closes(series);
    var gains: Vec, losses: Vec := [], [];
    for i := 0 to period
      invariant |gains| == |losses| == i
      invariant forall k :: 0 <= k < i ==>
                  gains[k] == Gains(closes, period)[k] && losses[k] == Losses(closes, period)[k]
    {
      var diff := series[i + 1].close - series[i].close;
      if diff >= 0.0 {
        gains := gains + [diff];
        losses := losses + [0.0];
      } else {
        gains := gains + [0.0];
        losses := losses + [-diff];
      }
    }
    assert gains == Gains(closes, period) && losses == Losses(closes, period);
    avgGain := Mean(gains);
    avgLoss := Mean(losses);
  }

  method CalculateRSI(series: seq<Bar>, period: nat) returns (values: seq<IndicatorValue>)
    ensures values == Rsi(series, period)
  {
    if period == 0 || |series| < period + 1 {
      values := NoneValues(series);
      return;
    }
    hide MeanOf, RsiValue, Smooth, Gains, Losses, Gain, Loss;
    ghost var closes := Closes(series);
    var avgGain, avgLoss := InitialAverages(series, period);
    values := [];
    for i := 0 to period
      invariant |values| == i && forall k :: 0 <= k < i ==> values[k] == Rsi(series, period)[k]
    {
      values := values + [IndicatorValue(series[i].date, None)];
    }
    values := values + [IndicatorValue(series[period].date, Some(RsiValue(avgGain, avgLoss)))];
    for i := period to |series| - 1
      invariant |values| == i + 1 && forall k :: 0 <= k <= i ==> values[k] == Rsi(series, period)[k]
      invariant avgGain == AvgGain(closes, period, i) && avgLoss == AvgLoss(closes, period, i)
    {
      var diff := series[i + 1].close - series[i].close;
      avgGain := Smooth(avgGain, Gain(diff), period);
      avgLoss := Smooth(avgLoss, Loss(diff), period);
      values := values + [IndicatorValue(series[i + 1].date, Some(RsiValue(avgGain, avgLoss)))];
    }
  }

  method CalculateMACD(series: seq<Bar>, fast: nat, slow: nat, signal: nat)
    returns (values: seq<IndicatorValue>, signals: seq<IndicatorValue>, histogram: seq<IndicatorValue>)
    ensures values == if signal > 0 then Macd(series, fast, slow) else Missing(series)
    ensures signals == MacdSignal(series, fast, slow, signal)
    ensures histogram == Histogram(series, fast, slow, signal)
  {
    hide EmaLevel, OptEmaState;
    if fast == 0 || slow == 0 || signal == 0 || |series| < slow {
      values := NoneValues(series);
      signals := values;
      histogram := values;
      return;
    }
    var fastEma := CalculateEMA(series, fast);
    var slowEma := CalculateEMA(series, slow);
    ghost var closes := Closes(series);
    var line: seq<Option<real>> := [];
    for i := 0 to |series|
      invariant |line| == i && forall k :: 0 <= k < i ==> line[k] == MacdAt(closes, fast, slow, k)
    {
      var f, s := fastEma[i].value, slowEma[i].value;
      line := line + [if f.Some? && s.Some? then Some(f.value - s.value) else None];
    }
    assert line == MacdLine(closes, fast, slow);
    var signalEma := EmaOfOptions(line, signal);
    values, signals, histogram := [], [], [];
    for i := 0 to |series|
      invariant |values| == |signals| == |histogram| == i
      invariant forall k :: 0 <= k < i ==>
                  && values[k] == Macd(series, fast, slow)[k]
                  && signals[k] == MacdSignal(series, fast, slow, signal)[k]
                  && histogram[k] == Histogram(series, fast, slow, signal)[k]
    {
      var m, s := line[i], signalEma[i];
      var h := if m.Some? && s.Some? then Some(m.value - s.value) else None;
      values := values + [IndicatorValue(series[i].date, m)];
      signals := signals + [IndicatorValue(series[i].date, s)];
      histogram := histogram + [IndicatorValue(series[i].date, h)];
    }
  }

  method EmaOfOptions(vals: seq<Option<real>>, period: nat) returns (result: seq<Option<real>>)
    ensures |result| == |vals| && forall i :: 0 <= i < |vals| ==> result[i] == OptEmaAt(vals, period, i)
  {
    hide MeanOf;
    if period == 0 {
      return seq(|vals|, i => None);
    }
    var ema: Option<real> := None;
    var seen, seedValues: Vec := 0, [];
    result := [];
    for i := 0 to |vals|
      invariant |result| == i
      invariant seen == |seedValues|
      invariant ema.None? ==> seen < period
      invariant OptEmaState(vals, period, i) == OptEma(ema, seedValues)
      invariant forall k :: 0 <= k < i ==> result[k] == OptEmaAt(vals, period, k)
    {
      ghost var st := OptEmaState(vals, period, i);
      assert OptEmaState(vals, period, i + 1) == OptEmaStep(st, vals[i], period);
      if vals[i].Some? && ema.None? {
        seen := seen + 1;
        seedValues := seedValues + [vals[i].value];
        if seen == period {
          var seed := Mean(seedValues);
          ema := Some(seed);
          result := result + [Some(seed)];
        } else {
          result := result + [None];
        }
      } else if vals[i].Some? && ema.Some? {
        var next := EmaNext(ema.value, vals[i].value, period);
        ema := Some(next);
        result := result + [Some(next)];
      } else {
        result := result + [None];
      }
    }
  }

  lemma DeviationAt(v: Vec, m: real, i: nat)
    requires i < |v|
    ensures Sub(v, Scale(m, Ones(|v|)))[i] == v[i] - m
  {
  }

  method StdDev(sqrt: real -> real, v: Vec) returns (sd: real)
    ensures sd == SampleStdDev(sqrt, v)
  {
    if |v| < 2 {
      return 0.0;
    }
    hide MeanOf, Sub, Scale, Ones;
    var mean := Mean(v);
    ghost var d := Sub(v, Scale(MeanOf(v), Ones(|v|)));
    var variance := 0.0;
    for i := 0 to |v|
      invariant variance == DotTo(d, d, i)
    {
      var diff := v[i] - mean;
      DeviationAt(v, mean, i);
      variance := variance + diff * diff;
    }
    sd := sqrt(variance / ((|v| - 1) as real));
  }

  method CalculateBollinger(sqrt: real -> real, series: seq<Bar>, period: nat, count: nat)
    returns (values: seq<IndicatorValue>, upper: seq<IndicatorValue>, lower: seq<IndicatorValue>)
    ensures values == Sma(series, period)
    ensures upper == Band(sqrt, series, period, count as real)
    ensures lower == Band(sqrt, series, period, -(count as real))
  {
    hide MeanOf, SampleStdDev, BandValue;
    if period == 0 || |series| < period {
      values := NoneValues(series);
      upper, lower := values, values;
      return;
    }
    values, upper, lower := [], [], [];
    for i := 0 to |series|
      invariant |values| == |upper| == |lower| == i
      invariant forall k :: 0 <= k < i ==>
                  && values[k] == Sma(series, period)[k]
                  && upper[k] == Band(sqrt, series, period, count as real)[k]
                  && lower[k] == Band(sqrt, series, period, -(count as real))[k]
    {
      if i + 1 < period {
        values := values + [IndicatorValue(series[i].date, None)];
        upper := upper + [IndicatorValue(series[i].date, None)];
        lower := lower + [IndicatorValue(series[i].date, None)];
      } else {
        var window := Window(series, i + 1 - period, i + 1);
        var middle := Mean(window);
        var sd := StdDev(sqrt, window);
        var bandWidth := (count as real) * sd;
        BandSides(middle, count as real, sd, bandWidth);
        values := values + [IndicatorValue(series[i].date, Some(middle))];
        upper := upper + [IndicatorValue(series[i].date, Some(middle + bandWidth))];
        lower := lower + [IndicatorValue(series[i].date, Some(middle - bandWidth))];
      }
    }
  }

  method CalculateATR(series: seq<Bar>, period: nat) returns (values: seq<IndicatorValue>)
    ensures values == Atr(series, period)
  {
    if period == 0 || |series| < period + 1 {
      values := NoneValues(series);
      return;
    }
    hide MeanOf, TrueRange, Smooth;
    var initial: Vec := [];
    for i := 0 to period
      invariant |initial| == i && forall k :: 0 <= k < i ==> initial[k] == TrueRanges(series, period)[k]
    {
      initial := initial + [TrueRange(series[i + 1], series[i])];
    }
    assert initial == TrueRanges(series, period);
    var atr := Mean(initial);
    values := [];
    for i := 0 to period
      invariant |values| == i && forall k :: 0 <= k < i ==> values[k] == Atr(series, period)[k]
    {
      values := values + [IndicatorValue(series[i].date, None)];
    }
    values := values + [IndicatorValue(series[period].date, Some(atr))];
    for i := period to |series| - 1
      invariant |values| == i + 1 && forall k :: 0 <= k <= i ==> values[k] == Atr(series, period)[k]
      invariant atr == AtrLevel(series, period, i)
    {
      var tr := TrueRange(series[i + 1], series[i]);
      atr := Smooth(atr, tr, period);
      values := values + [IndicatorValue(series[i + 1].date, Some(atr))];
    }
  }

  method CalculateOBV(series: seq<Bar>) returns (values: seq<IndicatorValue>)
    ensures values == Obv(series)
  {
    values := [];
    if |series| == 0 {
      return;
    }
    var obv := series[0].volume as real;
    values := [IndicatorValue(series[0].date, Some(obv))];
    for i := 0 to |series| - 1
      invariant |values| == i + 1 && obv == ObvAt(series, i)
      invariant forall k :: 0 <= k <= i ==> values[k] == Obv(series)[k]
    {
      var volume := series[i + 1].volume as real;
      if series[i + 1].close > series[i].close {
        obv := obv + volume;
      } else if series[i + 1].close < series[i].close {
        obv := obv - volume;
      }
      values := values + [IndicatorValue(series[i + 1].date, Some(obv))];
    }
  }

  method CalculateVWAP(series: seq<Bar>) returns (values: seq<IndicatorValue>)
    ensures values == Vwap(series)
  {
    var cumTp, cumVolume := 0.0, 0.0;
    values := [];
    for i := 0 to |series|
      invariant |values| == i && cumTp == CumTpVolume(series, i) && cumVolume == CumVolume(series, i)
      invariant forall k :: 0 <= k < i ==> values[k] == Vwap(series)[k]
    {
      var bar := series[i];
      var typical := (bar.high + bar.low + bar.close) / 3.0;
      var volume := bar.volume as real;
      cumTp := cumTp + typical * volume;
      cumVolume := cumVolume + volume;
      values := values + [IndicatorValue(bar.date, if cumVolume != 0.0 then Some(cumTp / cumVolume) else None)];
    }
  }

  /** The entry point: picks the indicator, reads its parameters, runs its loop. */
  method Calculate(sqrt: real -> real, name: string, series: seq<Bar>, params: Params)
    returns (r: Result<IndicatorResult>)
    ensures r == Calculated(sqrt, name, series, params)
  {
    hide Sma, Ema, Rsi, Macd, MacdSignal, Histogram, Band, Atr, Obv, Vwap;
    if name == "sma" {
      var period :- ParamAsSize(params, "period", 20);
      var values := CalculateSMA(series, period);
      return Success(IndicatorResult(name, map["period" := period as real], values, map[]));
    }
    if name == "ema" {
      var period :- ParamAsSize(params, "period", 20);
      var values := CalculateEMA(series, period);
      return Success(IndicatorResult(name, map["period" := period as real], values, map[]));
    }
    if name == "rsi" {
      var period :- ParamAsSize(params, "period", 14);
      var values := CalculateRSI(series, period);
      return Success(IndicatorResult(name, map["period" := period as real], values, map[]));
    }
    if name == "macd" {
      var fast :- ParamAsSize(params, "fast", 12);
      var slow :- ParamAsSize(params, "slow", 26);
      var signal :- ParamAsSize(params, "signal", 9);
      var values, signals, histogram := CalculateMACD(series, fast, slow, signal);
      return Success(IndicatorResult(
        name, map["fast" := fast as real, "slow" := slow as real, "signal" := signal as real], values,
        map["signal" := signals, "histogram" := histogram]));
    }
    if name == "bollinger_bands" {
      var period :- ParamAsSize(params, "period", 20);
      var count :- ParamAsSize(params, "std_dev", 2);
      var values, upper, lower := CalculateBollinger(sqrt, series, period, count);
      return Success(IndicatorResult(
        name, map["period" := period as real, "std_dev" := count as real], values,
          map["upper" := upper, "lower" := lower]));
    }
    if name == "atr" {
      var period :- ParamAsSize(params, "period", 14);
      var values := CalculateATR(series, period);
      return Success(IndicatorResult(name, map["period" := period as real], values, map[]));
    }
    if name == "obv" {
      var values := CalculateOBV(series);
      return Success(IndicatorResult(name, params, values, map[]));
    }
    if name == "vwap" {
      var values := CalculateVWAP(series);
      return Success(IndicatorResult(name, params, values, map[]));
    }
    return Failure(InvalidCommand("unknown indicator"));
  }
}
