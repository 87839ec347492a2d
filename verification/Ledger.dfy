/** The books of a backtest: what every trade stakes and earns, which signals open and close it, and how its metrics
    follow from its equity and its trades. */
module Ledger {
  import opened Reals
  import opened LinearAlgebra
  import opened Covariance
  import opened Moments
  import opened Outcome
  import opened Market
  import opened Strategies
  import opened Engine
  import opened Drawdown
  import opened Backtest
  import opened Stitching
  import opened RiskReturn
  import opened MonteCarlo

  // ---------- what a trade stakes and earns ----------

  /** A trade earns its quantity times the move in its favour, less commission on both of its prices. */
  ghost predicate Earned(t: Trade, c: real) {
    t.pnl == t.quantity * (if t.side == Long then t.exitPrice - t.entryPrice else t.entryPrice - t.exitPrice)
             - t.quantity * c * (t.entryPrice + t.exitPrice)
  }

  /** A quantity bought at a price stakes all the money there is, its commission included. */
  ghost predicate Staked(quantity: real, price: real, c: real, money: real) {
    if price == 0.0 then quantity == 0.0 else quantity * price * (1.0 + c) == money
  }

  ghost predicate BookedAt(trades: seq<Trade>, initial: real, c: real, k: nat)
    requires k < |trades|
  {
    Earned(trades[k], c) && Staked(trades[k].quantity, trades[k].entryPrice, c, initial + Pnl(trades[..k]))
  }

  /** Every trade stakes the capital and all earlier profits. */
  ghost predicate Booked(st: State, initial: real, c: real) {
    && (forall k :: 0 <= k < |st.trades| ==> BookedAt(st.trades, initial, c, k))
    && (st.position.Some? ==>
          Staked(st.position.value.quantity, st.position.value.entryPrice, c, initial + Pnl(st.trades)))
  }

  lemma QuantityStaked(price: real, cash: real, c: real)
    requires 1.0 + c != 0.0
    ensures Staked(Quantity(price, cash, c), price, c, cash)
  {
    if price != 0.0 {
      var d := price * (1.0 + c);
      QuotientTimes(cash, d);
      assert cash / d * price * (1.0 + c) == cash / d * d;
    }
  }

  lemma QuotientTimes(x: real, d: real)
    requires d != 0.0
    ensures x / d * d == x
  {
  }

  lemma CloseEarned(p: Position, price: real, c: real, date: Date, cash: real)
    ensures Earned(ClosePosition(p, price, c, date, cash).0, c)
  {
    var q := p.quantity;
    assert q * c * (p.entryPrice + price) == q * p.entryPrice * c + q * price * c;
  }

  lemma OneMoreBooked(trades: seq<Trade>, t: Trade, initial: real, c: real, k: nat)
    requires k <= |trades| && (k < |trades| ==> BookedAt(trades, initial, c, k))
    requires Earned(t, c) && Staked(t.quantity, t.entryPrice, c, initial + Pnl(trades))
    ensures BookedAt(trades + [t], initial, c, k)
  {
    hide Earned, Staked, Pnl;
    assert (trades + [t])[..k] == trades[..k];
    if k == |trades| { assert trades[..k] == trades; }
  }

  lemma CloseBooked(st: State, price: real, date: Date, c: real, initial: real)
    requires Booked(st, initial, c)
    ensures Booked(Close(st, price, date, c), initial, c) && Close(st, price, date, c).position.None?
  {
    hide Earned, Staked, BookedAt, Pnl;
    if st.position.Some? {
      var t := ClosePosition(st.position.value, price, c, date, st.cash).0;
      CloseEarned(st.position.value, price, c, date, st.cash);
      forall k | 0 <= k <= |st.trades| ensures BookedAt(st.trades + [t], initial, c, k) {
        OneMoreBooked(st.trades, t, initial, c, k);
      }
    }
  }

  lemma SwitchBooked(st: State, side: TradeSide, bar: Bar, c: real, initial: real)
    requires 1.0 + c != 0.0 && Booked(st, initial, c) && Accounted(st, initial, c)
    ensures Booked(Switch(st, side, bar, c), initial, c)
  {
    hide Quantity, Close, Staked, BookedAt;
    CloseBooked(st, bar.open, bar.date, c, initial);
    CloseAccounted(st, bar.open, bar.date, c, initial);
    var flat := Close(st, bar.open, bar.date, c);
    FlatCash(flat, initial, c);
    QuantityStaked(bar.open, flat.cash, c);
  }

  lemma {:induction false} AfterBooked(series: seq<Bar>, signals: seq<SignalResult>, config: BacktestConfig, k: nat)
    requires k <= |series| && k <= |signals| + 1 && 1.0 + config.commissionRate != 0.0
    ensures Booked(After(series, signals, config, k), config.initialCapital, config.commissionRate)
  {
    hide Switch, Staked, BookedAt, Accounted;
    if k > 0 {
      AfterBooked(series, signals, config, k - 1);
      AfterAccounted(series, signals, config, k - 1);
      var st := After(series, signals, config, k - 1);
      SwitchBooked(st, Long, series[k - 1], config.commissionRate, config.initialCapital);
      SwitchBooked(st, Short, series[k - 1], config.commissionRate, config.initialCapital);
    }
  }

  /** In a whole run every trade stakes the capital and all earlier profits, and earns by its two prices. */
  lemma TradesBooked(series: seq<Bar>, signals: seq<SignalResult>, config: BacktestConfig, k: nat)
    requires 0 < |series| == |signals| && 1.0 + config.commissionRate != 0.0
    requires k < |Liquidated(series, signals, config).trades|
    ensures BookedAt(Liquidated(series, signals, config).trades, config.initialCapital, config.commissionRate, k)
  {
    hide After, Close, BookedAt;
    AfterBooked(series, signals, config, |series|);
    var last := series[|series| - 1];
    CloseBooked(After(series, signals, config, |series|), last.close, last.date, config.commissionRate,
                config.initialCapital);
  }

  // ---------- which signals open and close it ----------

  function Wanted(side: TradeSide): Signal { if side == Long then Buy else Sell }

  function Against(side: TradeSide): Signal { if side == Long then Sell else Buy }

  /** Opened at the open of bar i by the signal of the bar before. */
  ghost predicate OpenedAt(series: seq<Bar>, signals: seq<SignalResult>, side: TradeSide, price: real, date: Date,
                           i: nat) {
    && 0 < i < |series| && i <= |signals|
    && price == series[i].open && date == series[i].date && signals[i - 1].signal == Wanted(side)
  }

  /** No signal against the side from bar i on, before bar j. */
  ghost predicate Unopposed(signals: seq<SignalResult>, side: TradeSide, i: nat, j: int) {
    forall m :: i <= m < j && m < |signals| ==> signals[m].signal != Against(side)
  }

  /** Opened at bar i and closed at the open of bar j by the first signal against it. */
  ghost predicate HeldFor(series: seq<Bar>, signals: seq<SignalResult>, t: Trade, i: nat, j: nat) {
    && OpenedAt(series, signals, t.side, t.entryPrice, t.entryDate, i) && i < j < |series| && j <= |signals|
    && t.exitPrice == series[j].open && t.exitDate == series[j].date && signals[j - 1].signal == Against(t.side)
    && Unopposed(signals, t.side, i, j - 1)
  }

  ghost predicate SignalledTrade(series: seq<Bar>, signals: seq<SignalResult>, t: Trade) {
    exists i: nat, j: nat :: HeldFor(series, signals, t, i, j)
  }

  /** Open since bar i, unopposed up to bar k. */
  ghost predicate OpenSince(series: seq<Bar>, signals: seq<SignalResult>, p: Position, i: nat, k: nat) {
    OpenedAt(series, signals, p.side, p.entryPrice, p.entryDate, i) && i < k && Unopposed(signals, p.side, i, k - 1)
  }

  ghost predicate SignalledPosition(series: seq<Bar>, signals: seq<SignalResult>, p: Position, k: nat) {
    exists i: nat :: OpenSince(series, signals, p, i, k)
  }

  /** After k bars: every trade was opened and closed by signals, a position is open since one, a flat account saw
      none. */
  ghost predicate Signalled(series: seq<Bar>, signals: seq<SignalResult>, st: State, k: nat) {
    && (forall t :: t in st.trades ==> SignalledTrade(series, signals, t))
    && (st.position.Some? ==> SignalledPosition(series, signals, st.position.value, k))
    && (st.position.None? ==> st.trades == [] && forall m :: 0 <= m < k - 1 && m < |signals| ==>
      signals[m].signal == Hold)
  }

  lemma StaysOpen(series: seq<Bar>, signals: seq<SignalResult>, p: Position, k: nat)
    requires 0 < k <= |signals| && SignalledPosition(series, signals, p, k)
    requires signals[k - 1].signal != Against(p.side)
    ensures SignalledPosition(series, signals, p, k + 1)
  {
    var i: nat :| OpenSince(series, signals, p, i, k);
    assert OpenSince(series, signals, p, i, k + 1);
  }

  lemma OpenNow(series: seq<Bar>, signals: seq<SignalResult>, p: Position, k: nat)
    requires OpenedAt(series, signals, p.side, p.entryPrice, p.entryDate, k)
    ensures SignalledPosition(series, signals, p, k + 1)
  {
    assert OpenSince(series, signals, p, k, k + 1);
  }

  lemma ClosesAt(series: seq<Bar>, signals: seq<SignalResult>, st: State, k: nat, c: real)
    requires 0 < k < |series| && k <= |signals| && Signalled(series, signals, st, k) && st.position.Some?
    requires signals[k - 1].signal == Against(st.position.value.side)
    ensures forall t :: t in Close(st, series[k].open, series[k].date, c).trades ==> SignalledTrade(series, signals, t)
  {
    hide OpenedAt, Unopposed;
    var p, closed := st.position.value, Close(st, series[k].open, series[k].date, c);
    var i: nat :| OpenSince(series, signals, p, i, k);
    var t := closed.trades[|st.trades|];
    assert HeldFor(series, signals, t, i, k);
    forall u | u in closed.trades ensures SignalledTrade(series, signals, u) {
      if u !in st.trades { assert u == t; }
    }
  }

  lemma SwitchSignalled(series: seq<Bar>, signals: seq<SignalResult>, st: State, k: nat, c: real)
    requires 0 < k < |series| && k <= |signals| && Signalled(series, signals, st, k) && 1.0 + c != 0.0
    ensures Signalled(series, signals, Execute(st, signals[k - 1].signal, series[k], c), k + 1)
  {
    hide SignalledTrade, SignalledPosition, Close;
    var signal := signals[k - 1].signal;
    if st.position.Some? && signal != Against(st.position.value.side) {
      StaysOpen(series, signals, st.position.value, k);
    } else if signal != Hold {
      var side := if signal == Buy then Long else Short;
      if st.position.Some? { ClosesAt(series, signals, st, k, c); } else {
        CloseFlat(st, series[k].open, series[k].date, c);
      }
      var p := Switch(st, side, series[k], c).position.value;
      OpenNow(series, signals, p, k);
    }
  }

  lemma {:induction false} AfterSignalled(series: seq<Bar>, signals: seq<SignalResult>, config: BacktestConfig, k: nat)
    requires k <= |series| && k <= |signals| + 1 && 1.0 + config.commissionRate != 0.0
    ensures Signalled(series, signals, After(series, signals, config, k), k)
  {
    hide Execute, SignalledTrade, SignalledPosition;
    if k > 1 {
      AfterSignalled(series, signals, config, k - 1);
      SwitchSignalled(series, signals, After(series, signals, config, k - 1), k - 1, config.commissionRate);
    }
  }

  /** The trade that the end of the series closes: opened by a signal, never opposed by one that could still be
      followed, and closed at the last close. */
  ghost predicate ForcedTrade(series: seq<Bar>, signals: seq<SignalResult>, t: Trade, i: nat)
    requires |series| > 0
  {
    && OpenedAt(series, signals, t.side, t.entryPrice, t.entryDate, i) && Unopposed(signals, t.side, i, |series| - 1)
    && t.exitPrice == series[|series| - 1].close && t.exitDate == series[|series| - 1].date
  }

  /** Every trade of a run enters at the open after a signal for its side and leaves at the open after the first signal
      against it, but for a last one that the end of the series closes. */
  lemma TradesFollowSignals(series: seq<Bar>, signals: seq<SignalResult>, config: BacktestConfig, t: Trade)
    requires 0 < |series| == |signals| && 1.0 + config.commissionRate != 0.0
    requires t in Liquidated(series, signals, config).trades
    ensures SignalledTrade(series, signals, t) || exists i: nat :: ForcedTrade(series, signals, t, i)
  {
    hide After, SignalledTrade, OpenedAt, Unopposed;
    var n := |series|;
    var st := After(series, signals, config, n);
    AfterSignalled(series, signals, config, n);
    if t !in st.trades {
      var i: nat :| OpenSince(series, signals, st.position.value, i, n);
      assert ForcedTrade(series, signals, t, i);
    }
  }

  /** A run without trades has seen no signal before its last bar. */
  lemma NoTradesNoSignals(series: seq<Bar>, signals: seq<SignalResult>, config: BacktestConfig)
    requires 0 < |series| == |signals| && 1.0 + config.commissionRate != 0.0
    ensures Liquidated(series, signals, config).trades == [] <==>
              forall m :: 0 <= m < |series| - 1 ==> signals[m].signal == Hold
  {
    hide After, SignalledTrade;
    var n := |series|;
    var st := After(series, signals, config, n);
    AfterSignalled(series, signals, config, n);
    if st.position.Some? {
      var i: nat :| OpenSince(series, signals, st.position.value, i, n);
      assert signals[i - 1].signal != Hold;
    }
  }

  // ---------- buy and hold ----------

  /** Buying once and holding turns capital into capital times the rise from the second open to the last close, less
      commission on both ends. */
  lemma BuyAndHoldEarnsTheRise(sqrt: real -> real, series: seq<Bar>, params: Params, config: BacktestConfig)
    requires 1.0 + config.commissionRate != 0.0 && 0 < |series| <= MAX_BARS
    ensures var r := RunOf(sqrt, "buy_and_hold", series, params, config);
            && r.Success?
            && (|series| == 1 ==> r.value.finalEquity == config.initialCapital)
            && (|series| > 1 && series[1].open != 0.0 ==>
                  r.value.finalEquity * ((1.0 + config.commissionRate) * series[1].open)
                  == config.initialCapital * ((1.0 - config.commissionRate) * series[|series| - 1].close))
  {
    hide SharpeRatio, WinRate, Liquidated, After, Quantity;
    var n, c := |series|, config.commissionRate;
    var signals := SignalsOf(sqrt, "buy_and_hold", series, params).value;
    FinalPoint(series, signals, config);
    HeldFromSecond(series, signals, config, n);
    if n > 1 && series[1].open != 0.0 {
      var q := Quantity(series[1].open, config.initialCapital, c);
      QuantityStaked(series[1].open, config.initialCapital, c);
      LongRoundTrip(config.initialCapital, q, series[1].open, series[n - 1].close, c);
      LiquidatedLong(series, signals, config, q);
    } else {
      StayedFlat(series, signals, config);
    }
  }

  lemma {:induction false} HeldFromSecond(series: seq<Bar>, signals: seq<SignalResult>, config: BacktestConfig, k: nat)
    requires 0 < k <= |series| == |signals| && 1.0 + config.commissionRate != 0.0
    requires forall i :: 0 <= i < |signals| ==> signals[i].signal == if i == 0 then Buy else Hold
    ensures After(series, signals, config, k)
         == if k == 1 then State(config.initialCapital, None, [])
            else
              var o := OpenLong(series[1].open, config.initialCapital, config.commissionRate, series[1].date);
              State(o.1, Some(o.0), [])
  {
    hide OpenLong;
    if k > 1 { HeldFromSecond(series, signals, config, k - 1); }
  }

  lemma StayedFlat(series: seq<Bar>, signals: seq<SignalResult>, config: BacktestConfig)
    requires 0 < |series| == |signals| && 1.0 + config.commissionRate != 0.0
    ensures |series| == 1 ==> Liquidated(series, signals, config).cash == config.initialCapital
  {
    if |series| == 1 { assert After(series, signals, config, 1) == After(series, signals, config, 0); }
  }

  lemma LiquidatedLong(series: seq<Bar>, signals: seq<SignalResult>, config: BacktestConfig, q: real)
    requires 1 < |series| == |signals| && 1.0 + config.commissionRate != 0.0
    requires q == Quantity(series[1].open, config.initialCapital, config.commissionRate)
    requires After(series, signals, config, |series|)
          == var o := OpenLong(series[1].open, config.initialCapital, config.commissionRate, series[1].date);
             State(o.1, Some(o.0), [])
    ensures var c, open, close := config.commissionRate, series[1].open, series[|series| - 1].close;
            Liquidated(series, signals, config).cash
            == config.initialCapital - q * open - q * open * c + q * close - q * close * c
  {
    hide After, Quantity;
  }

  lemma LongRoundTrip(initial: real, q: real, open: real, close: real, c: real)
    requires q * open * (1.0 + c) == initial
    ensures (initial - q * open - q * open * c + q * close - q * close * c) * ((1.0 + c) * open)
         == initial * ((1.0 - c) * close)
  {
    assert initial - q * open - q * open * c == 0.0;
    assert q * close - q * close * c == q * ((1.0 - c) * close);
    assert (q * ((1.0 - c) * close)) * ((1.0 + c) * open) == (q * open * (1.0 + c)) * ((1.0 - c) * close);
  }

  // ---------- metrics ----------

  /** The win rate is the share of trades with a profit. */
  lemma WinRateCounts(trades: seq<Trade>)
    requires |trades| > 0
    ensures WinRate(trades) * (|trades| as real) == |Winners(trades)| as real
  {
    WinsCount(trades);
    QuotientTimes(Wins(trades) as real, |trades| as real);
  }

  function Winners(trades: seq<Trade>): set<nat> { set k: nat | k < |trades| && trades[k].pnl > 0.0 }

  lemma {:induction false} WinsCount(trades: seq<Trade>)
    ensures Wins(trades) == |Winners(trades)|
  {
    if |trades| > 0 {
      var last := |trades| - 1;
      WinsCount(trades[..last]);
      if trades[last].pnl > 0.0 {
        assert Winners(trades) == Winners(trades[..last]) + {last};
      } else {
        assert Winners(trades) == Winners(trades[..last]);
      }
    }
  }

  /** With the mean and the population deviation of the period returns: no ratio without returns, periods or deviation,
      and otherwise mean excess per deviation, annualised by the root of the periods. */
  lemma SharpeMeasures(sqrt: real -> real, returns': Vec, rf: real, periods: nat, mean: real, deviation: real)
    requires IsSqrt(sqrt) && |returns'| >= 2 && mean * (|returns'| as real) == Sum(returns') && deviation >= 0.0
    requires deviation * deviation * (|returns'| as real) == SampleVariance(returns') * (|returns'| as real - 1.0)
    ensures SharpeRatio(sqrt, returns', rf, periods).Some? <==> periods > 0 && deviation > 0.0
    ensures periods > 0 && deviation > 0.0 ==>
              var s := SharpeRatio(sqrt, returns', rf, periods).value;
              s * deviation * (periods as real) == (mean * (periods as real) - rf) * sqrt(periods as real)
  {
    hide IsSqrt, SumTo, DotTo, Annualised;
    var n := |returns'| as real;
    SameQuotient(Sum(returns'), n, mean);
    var d := Sub(returns', Scale(mean, Ones(|returns'|)));
    PopulationDeviation(sqrt, Dot(d, d), n, deviation, SampleVariance(returns')) by { SquaredNorm(d); }
    if periods > 0 && deviation > 0.0 { AnnualisedTimes(sqrt, mean, deviation, rf, periods); }
  }

  /** A single return has no deviation and so no ratio. */
  lemma OneReturnNoSharpe(sqrt: real -> real, r: real, rf: real, periods: nat)
    requires IsSqrt(sqrt)
    ensures SharpeRatio(sqrt, [r], rf, periods).None?
  {
    hide IsSqrt, Annualised;
    assert SumTo([r], 1) == SumTo([r], 0) + r;
    assert MeanOf([r]) == r;
    var d := Sub([r], Scale(r, Ones(1)));
    assert d[0] == 0.0;
    assert DotTo(d, d, 1) == DotTo(d, d, 0) + d[0] * d[0];
    SqrtSquared(sqrt, 0.0);
    SquareSign(sqrt(0.0), 0.0);
  }

  lemma SameQuotient(s: real, n: real, m: real)
    requires n > 0.0 && m * n == s
    ensures s / n == m
  {
  }

  lemma PopulationDeviation(sqrt: real -> real, dd: real, n: real, deviation: real, variance: real)
    requires IsSqrt(sqrt) && n >= 2.0 && dd >= 0.0 && variance == (1.0 / (n - 1.0)) * dd && deviation >= 0.0
    requires deviation * deviation * n == variance * (n - 1.0)
    ensures sqrt(dd / n) == deviation
  {
    hide IsSqrt;
    assert variance * (n - 1.0) == dd;
    SameQuotient(dd, n, deviation * deviation);
    DivSign(dd, n);
    SqrtSquared(sqrt, dd / n);
    SquareOrder(sqrt(dd / n), deviation);
  }

  lemma AnnualisedTimes(sqrt: real -> real, mean: real, std: real, rf: real, periods: nat)
    requires std > 0.0 && periods > 0
    ensures Annualised(sqrt, mean, std, rf, periods) * std * (periods as real)
         == (mean * (periods as real) - rf) * sqrt(periods as real)
  {
    var p, root := periods as real, sqrt(periods as real);
    var perPeriod := rf / p;
    QuotientTimes(rf, p);
    var excess := mean - perPeriod;
    QuotientTimes(excess, std);
    assert excess / std * root * std * p == (excess / std * std) * p * root;
    assert excess * p == mean * p - rf;
  }

  /** The period returns compound to the total return. */
  lemma {:induction false} PeriodsCompound(e: Vec, k: nat)
    requires k < |e| && forall i :: 0 <= i < |e| ==> e[i] != 0.0
    ensures Compound(e[0], PeriodReturns(e), k) == e[k]
  {
    hide TotalReturn;
    if k > 0 {
      PeriodsCompound(e, k - 1);
      QuotientTimes(e[k], e[k - 1]);
    }
  }

  /** The figures of a joined walk-forward run are those of its own curve and trades. */
  lemma JoinedMeasures(results: seq<BacktestResult>, selected: seq<ParamWindow>, config: BacktestConfig,
                       r: WalkForwardResult)
    requires Combines(results, selected, config, r)
    ensures var e := Equities(r.equityCurve);
            && r.selectedParams == selected && r.sharpe.None? && r.numberOfTrades == |r.trades|
            && (|r.trades| > 0 ==> r.winRate * (|r.trades| as real) == |Winners(r.trades)| as real)
            && (|e| > 0 && e[0] != 0.0 ==> r.totalReturn * e[0] == e[|e| - 1] - e[0])
            && (|e| > 0 && Positive(e) ==> IsWorstFall(e, -r.maxDrawdown, |e|))
  {
    hide Stitched, StitchedTrades, Arranged, Deduplicated, WinRate, IsWorstFall, MaxDrawdown, Winners;
    var e := Equities(r.equityCurve);
    if |r.trades| > 0 { WinRateCounts(r.trades); }
    if |e| > 0 && e[0] != 0.0 { QuotientTimes(e[|e| - 1], e[0]); }
    if |e| > 0 && Positive(e) { WorstOfJoined(e); }
  }

  lemma WorstOfJoined(e: Vec)
    requires |e| > 0 && Positive(e)
    ensures IsWorstFall(e, -MaxDrawdown(e, 0.0), |e|)
  {
    hide IsWorstFall, WorstTo;
    OnePassIsPairwise(e, |e|);
  }

  // ---------- resampling a run's own trades ----------

  lemma TradeMultiplies(t: Trade, c: real, money: real, money': real)
    requires 1.0 + c != 0.0 && Staked(t.quantity, t.entryPrice, c, money) && money' == money + t.pnl
    requires t.quantity == 0.0 ==> t.pnl == 0.0
    ensures money' * (1.0 + c) == money * (1.0 + c + TradeReturn(t)) || t.entryPrice == 0.0
    ensures c == 0.0 ==> money' == Grown(money, TradeReturn(t))
  {
    var cost := t.entryPrice * t.quantity;
    if cost != 0.0 {
      QuotientTimes(t.pnl, cost);
      assert cost * (1.0 + c) == money;
      assert money * (t.pnl / cost) == (1.0 + c) * (t.pnl / cost * cost);
    } else if t.entryPrice != 0.0 {
      assert t.quantity == 0.0;
    }
  }

  lemma EarnedNothing(t: Trade, c: real)
    requires Earned(t, c)
    ensures t.quantity == 0.0 ==> t.pnl == 0.0
  {
  }

  lemma {:induction false} TradesCompoundTo(trades: seq<Trade>, initial: real, k: nat)
    requires k <= |trades| && forall j :: 0 <= j < |trades| ==> BookedAt(trades, initial, 0.0, j)
    ensures Compound(initial, TradeReturns(trades), k) == initial + Pnl(trades[..k])
  {
    hide Earned, Staked, TradeReturn, Grown;
    if k > 0 {
      TradesCompoundTo(trades, initial, k - 1);
      var t := trades[k - 1];
      assert BookedAt(trades, initial, 0.0, k - 1);
      assert trades[..k] == trades[..k - 1] + [t];
      PnlAppend(trades[..k - 1], t);
      EarnedNothing(t, 0.0);
      TradeMultiplies(t, 0.0, initial + Pnl(trades[..k - 1]), initial + Pnl(trades[..k]));
    }
  }

  /** Without commission, resampling the trades of a run reports its own final equity, whatever the shuffles. */
  lemma ResamplingKeepsFinalEquity(series: seq<Bar>, signals: seq<SignalResult>, config: BacktestConfig,
                                   simulations: nat, shuffles: seq<Vec>, r: MonteCarloResult)
    requires 0 < |series| == |signals| && config.commissionRate == 0.0 && |shuffles| == simulations > 0
    requires Resampled(r, simulations, TradeReturns(Liquidated(series, signals, config).trades), config.initialCapital,
                       shuffles)
    ensures var final := FinalCurve(series, signals, config)[|series| - 1].equity;
            r.finalEquity == ConfidenceInterval(final, final)
  {
    hide After, Liquidated, FinalCurve, BookedAt, Compound;
    var trades := Liquidated(series, signals, config).trades;
    forall k | 0 <= k < |trades| ensures BookedAt(trades, config.initialCapital, 0.0, k) {
      TradesBooked(series, signals, config, k);
    }
    TradesCompoundTo(trades, config.initialCapital, |trades|);
    assert trades[..|trades|] == trades;
    MoneyConserved(series, signals, config);
  }
}
