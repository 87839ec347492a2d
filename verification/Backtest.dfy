/** A whole backtest run and what it promises: exact accounting, and no dependence on later bars. */
module Backtest {
  import opened LinearAlgebra
  import opened Covariance
  import opened Outcome
  import opened Market
  import opened Indicators
  import opened Strategies
  import opened Causality
  import opened Engine
  import opened Drawdown

  // ---------- metrics ----------

  function Equities(curve: seq<EquityPoint>): (e: Vec)
    ensures |e| == |curve|
  {
    seq(|curve|, i requires 0 <= i < |curve| => curve[i].equity)
  }

  function TotalReturn(e: Vec): real
    requires |e| > 0
  {
    if e[0] != 0.0 then e[|e| - 1] / e[0] - 1.0 else 0.0
  }

  function PeriodReturns(e: Vec): (r: Vec)
    ensures |r| == if |e| == 0 then 0 else |e| - 1
  {
    seq(if |e| == 0 then 0 else |e| - 1, i requires 0 <= i < |e| - 1 =>
      if e[i] == 0.0 then 0.0 else e[i + 1] / e[i] - 1.0)
  }

  function SharpeRatio(sqrt: real -> real, returns': Vec, rf: real, periods: nat): Option<real> {
    if |returns'| == 0 || periods == 0 then None
    else
      var mean := MeanOf(returns');
      var d := Sub(returns', Scale(mean, Ones(|returns'|)));
      var std := sqrt(Dot(d, d) / (|returns'| as real));
      if std == 0.0 then None else Some(Annualised(sqrt, mean, std, rf, periods))
  }

  function Annualised(sqrt: real -> real, mean: real, std: real, rf: real, periods: nat): real
    requires std != 0.0 && periods > 0
  {
    (mean - rf / (periods as real)) / std * sqrt(periods as real)
  }

  function Wins(trades: seq<Trade>): nat {
    if |trades| == 0 then 0
    else Wins(trades[..|trades| - 1]) + if trades[|trades| - 1].pnl > 0.0 then 1 else 0
  }

  function WinRate(trades: seq<Trade>): real {
    if |trades| == 0 then 0.0 else (Wins(trades) as real) / (|trades| as real)
  }

  /** The result of running given signals. */
  function ResultOf(sqrt: real -> real, series: seq<Bar>, signals: seq<SignalResult>,
                    config: BacktestConfig): BacktestResult
    requires 0 < |series| == |signals| && 1.0 + config.commissionRate != 0.0
  {
    var curve, trades := FinalCurve(series, signals, config), Liquidated(series, signals, config).trades;
    var e := Equities(curve);
    BacktestResult(e[|e| - 1], TotalReturn(e), curve, trades,
                   Metrics(MaxDrawdown(e, 0.0),
                     SharpeRatio(sqrt, PeriodReturns(e), config.riskFreeRate, config.periodsPerYear),
                           WinRate(trades), |trades|))
  }

  /** The result of constructing an engine and calling BacktestEngine::Run. */
  function RunOf(sqrt: real -> real, strategy: string, series: seq<Bar>, params: Params,
                 config: BacktestConfig): Result<BacktestResult>
    requires 1.0 + config.commissionRate != 0.0
  {
    if !IsBuiltin(strategy) then Failure(InvalidCommand("unknown strategy"))
    else if |series| == 0 then Failure(InvalidCommand("backtest requires a non-empty price series"))
    else if |series| > MAX_BARS then Failure(InvalidCommand("backtest series exceeds the maximum number of bars"))
    else
      var signals :- SignalsOf(sqrt, strategy, series, params);
      Success(ResultOf(sqrt, series, signals, config))
  }

  // ---------- the loops ----------

  method ComputeSharpe(sqrt: real -> real, returns': Vec, rf: real, periods: nat) returns (sharpe: Option<real>)
    ensures sharpe == SharpeRatio(sqrt, returns', rf, periods)
  {
    hide MeanOf, Sub, Scale, Ones, Annualised;
    if |returns'| == 0 || periods == 0 {
      return None;
    }
    var mean := Mean(returns');
    ghost var d := Sub(returns', Scale(MeanOf(returns'), Ones(|returns'|)));
    var variance := 0.0;
    for i := 0 to |returns'|
      invariant variance == DotTo(d, d, i)
    {
      var diff := returns'[i] - mean;
      DeviationAt(returns', mean, i);
      variance := variance + diff * diff;
    }
    var std := sqrt(variance / (|returns'| as real));
    if std == 0.0 {
      return None;
    }
    return Some(Annualised(sqrt, mean, std, rf, periods));
  }

  method ComputeMetrics(sqrt: real -> real, curve: seq<EquityPoint>, config: BacktestConfig)
    returns (totalReturn: real, drawdown: real, sharpe: Option<real>)
    requires |curve| > 0
    ensures totalReturn == TotalReturn(Equities(curve)) && drawdown == MaxDrawdown(Equities(curve), 0.0)
    ensures sharpe == SharpeRatio(sqrt, PeriodReturns(Equities(curve)), config.riskFreeRate, config.periodsPerYear)
  {
    hide SharpeRatio;
    var e: Vec := [];
    for i := 0 to |curve|
      invariant |e| == i && forall k :: 0 <= k < i ==> e[k] == curve[k].equity
    {
      e := e + [curve[i].equity];
    }
    assert e == Equities(curve);
    totalReturn := 0.0;
    if e[0] != 0.0 {
      totalReturn := e[|e| - 1] / e[0] - 1.0;
    }
    var periodReturns: Vec := [];
    for i := 1 to |e|
      invariant |periodReturns| == i - 1 && forall k :: 0 <= k < i - 1 ==> periodReturns[k] == PeriodReturns(e)[k]
    {
      if e[i - 1] == 0.0 {
        periodReturns := periodReturns + [0.0];
      } else {
        periodReturns := periodReturns + [e[i] / e[i - 1] - 1.0];
      }
    }
    assert periodReturns == PeriodReturns(e);
    drawdown := ComputeMaxDrawdown(e, 0.0);
    sharpe := ComputeSharpe(sqrt, periodReturns, config.riskFreeRate, config.periodsPerYear);
  }

  method CountWins(trades: seq<Trade>) returns (rate: real)
    ensures rate == WinRate(trades)
  {
    rate := 0.0;
    if |trades| > 0 {
      var wins := 0;
      for i := 0 to |trades|
        invariant wins == Wins(trades[..i])
      {
        assert trades[..i + 1][..i] == trades[..i];
        if trades[i].pnl > 0.0 {
          wins := wins + 1;
        }
      }
      assert trades[..|trades|] == trades;
      rate := (wins as real) / (|trades| as real);
    }
  }

  /** The bar-by-bar loop and the liquidation after it. */
  method RunSignals(series: seq<Bar>, signals: seq<SignalResult>, config: BacktestConfig)
    returns (curve: seq<EquityPoint>, trades: seq<Trade>)
    requires 0 < |series| == |signals| && 1.0 + config.commissionRate != 0.0
    ensures curve == FinalCurve(series, signals, config)
    ensures trades == Liquidated(series, signals, config).trades
  {
    hide OpenLong, OpenShort, ClosePosition, PositionMarketValue;
    var commission, cash := config.commissionRate, config.initialCapital;
    var position: Option<Position> := None;
    trades, curve := [], [];
    for i := 0 to |series|
      invariant State(cash, position, trades) == After(series, signals, config, i)
      invariant curve == Curve(series, signals, config, i)
    {
      var bar := series[i];
      if i > 0 {
        match signals[i - 1].signal {
          case Buy =>
            if position.None? || position.value.side != Long {
              if position.Some? {
                var (t, newCash) := ClosePosition(position.value, bar.open, commission, bar.date, cash);
                cash := newCash;
                trades := trades + [t];
                position := None;
              }
              var (p, newCash) := OpenLong(bar.open, cash, commission, bar.date);
              cash := newCash;
              position := Some(p);
            }
          case Sell =>
            if position.None? || position.value.side != Short {
              if position.Some? {
                var (t, newCash) := ClosePosition(position.value, bar.open, commission, bar.date, cash);
                cash := newCash;
                trades := trades + [t];
                position := None;
              }
              var (p, newCash) := OpenShort(bar.open, cash, commission, bar.date);
              cash := newCash;
              position := Some(p);
            }
          case Hold =>
        }
      }
      var equity := cash;
      if position.Some? {
        equity := equity + PositionMarketValue(position.value, bar.close);
      }
      assert State(cash, position, trades) == After(series, signals, config, i + 1);
      CurveGrows(series, signals, config, i);
      curve := curve + [EquityPoint(bar.date, equity)];
    }
    if position.Some? {
      var last := series[|series| - 1];
      var (t, newCash) := ClosePosition(position.value, last.close, commission, last.date, cash);
      cash := newCash;
      trades := trades + [t];
      curve := curve[|curve| - 1 := EquityPoint(curve[|curve| - 1].date, cash)];
    }
  }

  lemma CurveGrows(series: seq<Bar>, signals: seq<SignalResult>, config: BacktestConfig, k: nat)
    requires k < |series| && k <= |signals| && 1.0 + config.commissionRate != 0.0
    ensures Curve(series, signals, config, k + 1) == Curve(series, signals, config, k)
         + [EquityPoint(series[k].date, Equity(After(series, signals, config, k + 1), series[k].close))]
  {
    hide After, Equity;
  }

  lemma BuyAndHoldRuns(sqrt: real -> real, series: seq<Bar>, params: Params)
    ensures SignalsOf(sqrt, "buy_and_hold", series, params).Success?
  {
  }

  method Run(sqrt: real -> real, strategy: string, series: seq<Bar>, params: Params, config: BacktestConfig)
    returns (r: Result<BacktestResult>)
    requires 1.0 + config.commissionRate != 0.0
    ensures r == RunOf(sqrt, strategy, series, params, config)
    ensures |series| == 0 || |series| > 50000 ==> r.Failure? && r.error.InvalidCommand?
    ensures strategy == "buy_and_hold" && 0 < |series| <= 50000 ==> r.Success?
  {
    hide SignalsOf, FinalCurve, Liquidated, SharpeRatio, WinRate;
    if !IsBuiltin(strategy) {
      return Failure(InvalidCommand("unknown strategy"));
    }
    if |series| == 0 {
      return Failure(InvalidCommand("backtest requires a non-empty price series"));
    }
    if |series| > MAX_BARS {
      return Failure(InvalidCommand("backtest series exceeds the maximum number of bars"));
    }
    assert strategy == "buy_and_hold" ==> SignalsOf(sqrt, strategy, series, params).Success? by {
      if strategy == "buy_and_hold" { BuyAndHoldRuns(sqrt, series, params); }
    }
    var signals :- Signals(sqrt, strategy, series, params);
    var curve, trades := RunSignals(series, signals, config);
    var totalReturn, drawdown, sharpe := ComputeMetrics(sqrt, curve, config);
    var winRate := CountWins(trades);
    return Success(BacktestResult(curve[|curve| - 1].equity, totalReturn, curve, trades,
                                  Metrics(drawdown, sharpe, winRate, |trades|)));
  }

  // ---------- accounting over the whole run ----------

  /** Final equity is capital plus trade profits, and total return measures it against that capital. */
  lemma RunConservesMoney(sqrt: real -> real, strategy: string, series: seq<Bar>, params: Params,
                          config: BacktestConfig)
    requires 1.0 + config.commissionRate != 0.0 && RunOf(sqrt, strategy, series, params, config).Success?
    ensures var r := RunOf(sqrt, strategy, series, params, config).value;
            && r.finalEquity == config.initialCapital + Pnl(r.trades)
            && Chained(r.trades)
            && (config.initialCapital != 0.0 ==> r.totalReturn == r.finalEquity / config.initialCapital - 1.0)
  {
    hide FinalCurve, Liquidated, Pnl, Chained, SharpeRatio, WinRate;
    var signals := SignalsOf(sqrt, strategy, series, params).value;
    MoneyConserved(series, signals, config);
    TradesChained(series, signals, config);
    FirstPoint(series, signals, config);
  }

  /** The first equity point is the initial capital: nothing trades on the first bar. */
  lemma FirstPoint(series: seq<Bar>, signals: seq<SignalResult>, config: BacktestConfig)
    requires 0 < |series| == |signals| && 1.0 + config.commissionRate != 0.0
    ensures FinalCurve(series, signals, config)[0].equity == config.initialCapital
  {
    assert After(series, signals, config, 1).position.None?;
  }

  // ---------- no lookahead ----------

  lemma {:induction false} AfterCausal(series: seq<Bar>, signals: seq<SignalResult>, config: BacktestConfig, m: nat,
                                       k: nat)
    requires k <= m <= |series| && m <= |signals| && 1.0 + config.commissionRate != 0.0
    ensures After(series[..m], signals[..m], config, k) == After(series, signals, config, k)
  {
    hide Execute;
    if k > 0 { AfterCausal(series, signals, config, m, k - 1); }
  }

  /** Later bars only add trades. */
  lemma {:induction false} TradesGrow(series: seq<Bar>, signals: seq<SignalResult>, config: BacktestConfig, j: nat,
                                      k: nat)
    requires j <= k <= |series| && k <= |signals| + 1 && 1.0 + config.commissionRate != 0.0
    ensures After(series, signals, config, j).trades <= After(series, signals, config, k).trades
  {
    hide OpenLong, OpenShort, ClosePosition;
    if j < k { TradesGrow(series, signals, config, j, k - 1); }
  }

  /** `n` is the number of trades a run on the first bars completed before its forced liquidation. */
  ghost predicate AgreesBefore(p: BacktestResult, r: BacktestResult, n: nat) {
    && 0 < |p.equityCurve| <= |r.equityCurve|
    && (forall i :: 0 <= i < |p.equityCurve| - 1 ==> p.equityCurve[i] == r.equityCurve[i])
    && n <= |p.trades| <= n + 1 && n <= |r.trades| && p.trades[..n] == r.trades[..n]
  }

  lemma CurveCausal(series: seq<Bar>, signals: seq<SignalResult>, config: BacktestConfig, m: nat)
    requires 0 < m <= |series| == |signals| && 1.0 + config.commissionRate != 0.0
    ensures FinalCurve(series[..m], signals[..m], config)[..m - 1] == FinalCurve(series, signals, config)[..m - 1]
  {
    hide After, Equity, Liquidated;
    var p, r := FinalCurve(series[..m], signals[..m], config), FinalCurve(series, signals, config);
    forall i | 0 <= i < m - 1 ensures p[i] == r[i] {
      AfterCausal(series, signals, config, m, i + 1);
    }
  }

  lemma TradesCausal(series: seq<Bar>, signals: seq<SignalResult>, config: BacktestConfig, m: nat)
    requires 0 < m <= |series| == |signals| && 1.0 + config.commissionRate != 0.0
    ensures var done := After(series, signals, config, m).trades;
            && done <= Liquidated(series[..m], signals[..m], config).trades
            && |Liquidated(series[..m], signals[..m], config).trades| <= |done| + 1
            && done <= Liquidated(series, signals, config).trades
  {
    hide After, ClosePosition;
    AfterCausal(series, signals, config, m, m);
    TradesGrow(series, signals, config, m, |series|);
  }

  lemma SignalRunCausal(sqrt: real -> real, series: seq<Bar>, signals: seq<SignalResult>, config: BacktestConfig,
                        m: nat)
    requires 0 < m <= |series| == |signals| && 1.0 + config.commissionRate != 0.0
    ensures AgreesBefore(ResultOf(sqrt, series[..m], signals[..m], config), ResultOf(sqrt, series, signals, config),
                         |After(series, signals, config, m).trades|)
  {
    hide After, SharpeRatio, WinRate, Liquidated, FinalCurve, TotalReturn, MaxDrawdown, PeriodReturns;
    CurveCausal(series, signals, config, m);
    TradesCausal(series, signals, config, m);
    var p, r := FinalCurve(series[..m], signals[..m], config), FinalCurve(series, signals, config);
    forall i | 0 <= i < m - 1 ensures p[i] == r[i] {
      assert p[i] == p[..m - 1][i] && r[i] == r[..m - 1][i];
    }
  }

  /** End to end: a run on the first m bars gives the same equity points before bar m - 1 and the same
      completed trades as a run on the whole series, whatever the strategy and its parameters. */
  lemma NoLookahead(sqrt: real -> real, strategy: string, series: seq<Bar>, params: Params, config: BacktestConfig,
                    m: nat)
    requires 0 < m <= |series| <= MAX_BARS && 1.0 + config.commissionRate != 0.0
    ensures var p, r := RunOf(sqrt, strategy, series[..m], params, config),
            RunOf(sqrt, strategy, series, params, config);
            if r.Failure? then p == r
            else p.Success? && AgreesBefore(p.value, r.value,
              |After(series, SignalsOf(sqrt, strategy, series, params).value, config, m).trades|)
  {
    hide SignalsOf, ResultOf, AgreesBefore;
    SignalsCausal(sqrt, strategy, series, params, m);
    var signals := SignalsOf(sqrt, strategy, series, params);
    if signals.Success? {
      SignalRunCausal(sqrt, series, signals.value, config, m);
    }
  }

  // ---------- drawdown of a solvent run ----------

  /** A run whose shorts stay within their bounds reports positive equity throughout; its drawdown is the worst fall
      between any two reported points and never a total loss. */
  lemma ReportedDrawdown(sqrt: real -> real, strategy: string, series: seq<Bar>, params: Params, config: BacktestConfig)
    requires 0.0 <= config.commissionRate < 1.0 && config.initialCapital > 0.0 && PositivePrices(series)
    requires RunOf(sqrt, strategy, series, params, config).Success?
    requires RunBounded(series, SignalsOf(sqrt, strategy, series, params).value, config)
    ensures var r := RunOf(sqrt, strategy, series, params, config).value;
            var e := Equities(r.equityCurve);
            && Positive(e) && IsWorstFall(e, -r.metrics.maxDrawdown, |e|)
            && -1.0 < r.metrics.maxDrawdown <= 0.0
  {
    hide SignalsOf, FinalCurve, Liquidated, SharpeRatio, WinRate, RunBounded, IsWorstFall;
    var signals := SignalsOf(sqrt, strategy, series, params).value;
    SolventExactly(series, signals, config);
    OnePassIsPairwise(Equities(FinalCurve(series, signals, config)), |series|);
  }
}
