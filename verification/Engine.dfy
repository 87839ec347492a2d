/** The backtest engine: next-bar-open execution of long, short and flat states, with commissions. */
module Engine {
  import opened Reals
  import opened Outcome
  import opened Market
  import opened Strategies

  const MAX_BARS: nat := 50000

  datatype TradeSide = Long | Short

  datatype Position = Position(side: TradeSide, entryPrice: real, quantity: real, entryDate: Date)

  datatype Trade = Trade(entryDate: Date, exitDate: Date, entryPrice: real, exitPrice: real,
                         quantity: real, side: TradeSide, pnl: real)

  datatype EquityPoint = EquityPoint(date: Date, equity: real)

  datatype BacktestConfig = BacktestConfig(initialCapital: real, commissionRate: real, periodsPerYear: nat,
                                           riskFreeRate: real)

  datatype Metrics = Metrics(maxDrawdown: real, sharpe: Option<real>, winRate: real, tradeCount: nat)

  datatype BacktestResult = BacktestResult(
    finalEquity: real, totalReturn: real, equityCurve: seq<EquityPoint>, trades: seq<Trade>, metrics: Metrics)

  // ---------- opening and closing ----------

  function Quantity(price: real, cash: real, c: real): real
    requires price != 0.0 ==> 1.0 + c != 0.0
  {
    if price != 0.0 then cash / (price * (1.0 + c)) else 0.0
  }

  function OpenLong(price: real, cash: real, c: real, date: Date): (Position, real)
    requires 1.0 + c != 0.0
  {
    var q := Quantity(price, cash, c);
    (Position(Long, price, q, date), cash - q * price - q * price * c)
  }

  function OpenShort(price: real, cash: real, c: real, date: Date): (Position, real)
    requires 1.0 + c != 0.0
  {
    var q := Quantity(price, cash, c);
    (Position(Short, price, q, date), cash + q * price - q * price * c)
  }

  function ClosePosition(pos: Position, price: real, c: real, date: Date, cash: real): (Trade, real) {
    var entryComm, exitComm := pos.quantity * pos.entryPrice * c, pos.quantity * price * c;
    var pnl := (if pos.side == Long then pos.quantity * (price - pos.entryPrice)
                else pos.quantity * (pos.entryPrice - price)) - entryComm - exitComm;
    var newCash := if pos.side == Long then cash + pos.quantity * price - exitComm
      else cash - pos.quantity * price - exitComm;
    (Trade(pos.entryDate, date, pos.entryPrice, price, pos.quantity, pos.side, pnl), newCash)
  }

  function PositionMarketValue(pos: Position, price: real): real {
    if pos.side == Long then pos.quantity * price else -pos.quantity * price
  }

  // ---------- the state machine ----------

  datatype State = State(cash: real, position: Option<Position>, trades: seq<Trade>)

  /** Close what is open, then open on the wanted side; nothing when already there. */
  function Switch(st: State, side: TradeSide, bar: Bar, c: real): State
    requires 1.0 + c != 0.0
  {
    if st.position.Some? && st.position.value.side == side then st
    else
      var closed := Close(st, bar.open, bar.date, c);
      var entry := if side == Long then OpenLong(bar.open, closed.cash, c, bar.date)
        else OpenShort(bar.open, closed.cash, c, bar.date);
      State(entry.1, Some(entry.0), closed.trades)
  }

  function Close(st: State, price: real, date: Date, c: real): State {
    if st.position.None? then st
    else
      var closed := ClosePosition(st.position.value, price, c, date, st.cash);
      State(closed.1, None, st.trades + [closed.0])
  }

  function Execute(st: State, signal: Signal, bar: Bar, c: real): State
    requires 1.0 + c != 0.0
  {
    match signal
    case Hold => st
    case Buy => Switch(st, Long, bar, c)
    case Sell => Switch(st, Short, bar, c)
  }

  /** Cash plus the marked position. */
  function Equity(st: State, price: real): real {
    if st.position.None? then st.cash else st.cash + PositionMarketValue(st.position.value, price)
  }

  /** The account after the first `k` bars: bar i executes the signal of bar i - 1 at its open. */
  function After(series: seq<Bar>, signals: seq<SignalResult>, config: BacktestConfig, k: nat): State
    requires k <= |series| && k <= |signals| + 1 && 1.0 + config.commissionRate != 0.0
  {
    if k == 0 then State(config.initialCapital, None, [])
    else
      var st := After(series, signals, config, k - 1);
      if k == 1 then st else Execute(st, signals[k - 2].signal, series[k - 1], config.commissionRate)
  }

  /** Mark-to-market points of the first `k` bars, before any liquidation. */
  function Curve(series: seq<Bar>, signals: seq<SignalResult>, config: BacktestConfig, k: nat): (r: seq<EquityPoint>)
    requires k <= |series| && k <= |signals| + 1 && 1.0 + config.commissionRate != 0.0
    ensures |r| == k
  {
    seq(k, i requires 0 <= i < k =>
      EquityPoint(series[i].date, Equity(After(series, signals, config, i + 1), series[i].close)))
  }

  /** The account after the open position is closed at the last close. */
  function Liquidated(series: seq<Bar>, signals: seq<SignalResult>, config: BacktestConfig): State
    requires 0 < |series| == |signals| && 1.0 + config.commissionRate != 0.0
  {
    var last := series[|series| - 1];
    Close(After(series, signals, config, |series|), last.close, last.date, config.commissionRate)
  }

  function FinalCurve(series: seq<Bar>, signals: seq<SignalResult>, config: BacktestConfig): (r: seq<EquityPoint>)
    requires 0 < |series| == |signals| && 1.0 + config.commissionRate != 0.0
    ensures |r| == |series|
  {
    var n := |series|;
    var curve := Curve(series, signals, config, n);
    if After(series, signals, config, n).position.None? then curve
    else curve[n - 1 := EquityPoint(curve[n - 1].date, Liquidated(series, signals, config).cash)]
  }

  // ---------- conservation of money ----------

  function Pnl(trades: seq<Trade>): real {
    if |trades| == 0 then 0.0 else Pnl(trades[..|trades| - 1]) + trades[|trades| - 1].pnl
  }

  /** Gain of an open position at `price`, net of the commission already paid to enter it. */
  function OpenGain(pos: Option<Position>, price: real, c: real): real {
    if pos.None? then 0.0
    else
      var p := pos.value;
      (if p.side == Long then p.quantity * (price - p.entryPrice) else p.quantity * (p.entryPrice - price))
        - p.quantity * p.entryPrice * c
  }

  /** Cash is initial capital plus realised profit, less (long) or plus (short) the entry value, less entry
      commission. */
  ghost predicate Accounted(st: State, initial: real, c: real) {
    match st.position
    case None => st.cash == initial + Pnl(st.trades)
    case Some(p) =>
      var value := p.quantity * p.entryPrice;
      (st.cash == initial + Pnl(st.trades) - value * c + (if p.side == Long then -value else value))
  }

  lemma PnlAppend(trades: seq<Trade>, t: Trade)
    ensures Pnl(trades + [t]) == Pnl(trades) + t.pnl
  {
    assert (trades + [t])[..|trades|] == trades;
  }

  lemma CloseAccounted(st: State, price: real, date: Date, c: real, initial: real)
    requires Accounted(st, initial, c)
    ensures Accounted(Close(st, price, date, c), initial, c) && Close(st, price, date, c).position.None?
  {
    if st.position.Some? {
      var p := st.position.value;
      PnlAppend(st.trades, ClosePosition(p, price, c, date, st.cash).0);
      assert p.quantity * (price - p.entryPrice) == p.quantity * price - p.quantity * p.entryPrice;
      assert p.quantity * (p.entryPrice - price) == p.quantity * p.entryPrice - p.quantity * price;
    }
  }

  lemma SwitchAccounted(st: State, side: TradeSide, bar: Bar, c: real, initial: real)
    requires 1.0 + c != 0.0 && Accounted(st, initial, c)
    ensures Accounted(Switch(st, side, bar, c), initial, c)
  {
    hide Quantity, Close;
    CloseAccounted(st, bar.open, bar.date, c, initial);
  }

  lemma {:induction false} AfterAccounted(series: seq<Bar>, signals: seq<SignalResult>, config: BacktestConfig, k: nat)
    requires k <= |series| && k <= |signals| + 1 && 1.0 + config.commissionRate != 0.0
    ensures Accounted(After(series, signals, config, k), config.initialCapital, config.commissionRate)
  {
    hide Accounted, Switch;
    if k == 0 {
      NothingAccounted(config);
    } else {
      AfterAccounted(series, signals, config, k - 1);
      var st := After(series, signals, config, k - 1);
      SwitchAccounted(st, Long, series[k - 1], config.commissionRate, config.initialCapital);
      SwitchAccounted(st, Short, series[k - 1], config.commissionRate, config.initialCapital);
    }
  }

  lemma NothingAccounted(config: BacktestConfig)
    ensures Accounted(State(config.initialCapital, None, []), config.initialCapital, config.commissionRate)
  {
  }

  lemma AccountedEquity(st: State, initial: real, price: real, c: real)
    requires Accounted(st, initial, c)
    ensures Equity(st, price) == initial + Pnl(st.trades) + OpenGain(st.position, price, c)
  {
    if st.position.Some? {
      var p := st.position.value;
      assert p.quantity * (price - p.entryPrice) == p.quantity * price - p.quantity * p.entryPrice;
      assert p.quantity * (p.entryPrice - price) == p.quantity * p.entryPrice - p.quantity * price;
    }
  }

  /** Every marked equity point is initial capital plus realised profit plus the open position's net gain. */
  lemma EquityExplained(series: seq<Bar>, signals: seq<SignalResult>, config: BacktestConfig, i: nat)
    requires i < |series| && i <= |signals| && 1.0 + config.commissionRate != 0.0
    ensures Curve(series, signals, config, i + 1)[i].equity
         == config.initialCapital + Pnl(After(series, signals, config, i + 1).trades)
          + OpenGain(After(series, signals, config, i + 1).position, series[i].close, config.commissionRate)
  {
    hide Accounted, OpenGain, Equity;
    AfterAccounted(series, signals, config, i + 1);
    AccountedEquity(After(series, signals, config, i + 1), config.initialCapital, series[i].close,
      config.commissionRate);
  }

  /** Final equity is initial capital plus the profit of all trades, liquidation included. */
  lemma MoneyConserved(series: seq<Bar>, signals: seq<SignalResult>, config: BacktestConfig)
    requires 0 < |series| == |signals| && 1.0 + config.commissionRate != 0.0
    ensures FinalCurve(series, signals, config)[|series| - 1].equity
         == config.initialCapital + Pnl(Liquidated(series, signals, config).trades)
  {
    hide Accounted, Close, After;
    var n := |series|;
    var st := After(series, signals, config, n);
    AfterAccounted(series, signals, config, n);
    CloseAccounted(st, series[n - 1].close, series[n - 1].date, config.commissionRate, config.initialCapital);
    FlatCash(Liquidated(series, signals, config), config.initialCapital, config.commissionRate);
    if st.position.None? {
      FlatCash(st, config.initialCapital, config.commissionRate);
      CloseFlat(st, series[n - 1].close, series[n - 1].date, config.commissionRate);
    }
  }

  lemma FlatCash(st: State, initial: real, c: real)
    requires Accounted(st, initial, c) && st.position.None?
    ensures st.cash == initial + Pnl(st.trades)
  {
  }

  lemma CloseFlat(st: State, price: real, date: Date, c: real)
    requires st.position.None?
    ensures Close(st, price, date, c) == st
  {
  }

  // ---------- the chain of trades ----------

  /** Each trade starts where and when the previous one ended, on the other side. */
  ghost predicate Chained(trades: seq<Trade>) {
    forall j :: 0 <= j < |trades| - 1 ==>
      && trades[j].exitDate == trades[j + 1].entryDate && trades[j].exitPrice == trades[j + 1].entryPrice
      && trades[j].side != trades[j + 1].side
  }

  ghost predicate Continues(t: Trade, p: Position) {
    t.exitDate == p.entryDate && t.exitPrice == p.entryPrice && t.side != p.side
  }

  /** The open position continues the chain; a flat account has never traded. */
  ghost predicate Linked(st: State) {
    && Chained(st.trades)
    && (st.position.None? ==> st.trades == [])
    && (st.position.Some? && |st.trades| > 0 ==>
          Continues(st.trades[|st.trades| - 1], st.position.value))
  }

  lemma CloseChained(st: State, price: real, date: Date, c: real)
    requires Linked(st)
    ensures Chained(Close(st, price, date, c).trades)
  {
  }

  lemma SwitchLinked(st: State, side: TradeSide, bar: Bar, c: real)
    requires 1.0 + c != 0.0 && Linked(st)
    ensures Linked(Switch(st, side, bar, c))
  {
    hide Quantity;
    CloseChained(st, bar.open, bar.date, c);
  }

  lemma {:induction false} AfterLinked(series: seq<Bar>, signals: seq<SignalResult>, config: BacktestConfig, k: nat)
    requires k <= |series| && k <= |signals| + 1 && 1.0 + config.commissionRate != 0.0
    ensures Linked(After(series, signals, config, k))
  {
    hide Switch;
    if k > 0 {
      AfterLinked(series, signals, config, k - 1);
      var st := After(series, signals, config, k - 1);
      SwitchLinked(st, Long, series[k - 1], config.commissionRate);
      SwitchLinked(st, Short, series[k - 1], config.commissionRate);
    }
  }

  /** The trades of a run, liquidation included, form one unbroken alternating chain. */
  lemma TradesChained(series: seq<Bar>, signals: seq<SignalResult>, config: BacktestConfig)
    requires 0 < |series| == |signals| && 1.0 + config.commissionRate != 0.0
    ensures Chained(Liquidated(series, signals, config).trades)
  {
    hide Linked, Chained;
    AfterLinked(series, signals, config, |series|);
    var last := series[|series| - 1];
    CloseChained(After(series, signals, config, |series|), last.close, last.date, config.commissionRate);
  }

  // ---------- solvency ----------

  /** A solvent account is flat with positive cash, long with no cash, or short holding twice the entry value. */
  ghost predicate Sound(st: State) {
    match st.position
    case None => st.cash > 0.0
    case Some(p) =>
      && p.quantity > 0.0 && p.entryPrice > 0.0
      && st.cash == if p.side == Long then 0.0 else 2.0 * (p.quantity * p.entryPrice)
  }

  /** A short entered at p is marked below 2p. */
  ghost predicate MarkedBelow(pos: Option<Position>, price: real) {
    pos.Some? && pos.value.side == Short ==> price < 2.0 * pos.value.entryPrice
  }

  /** A short entered at p is closed below 2p / (1 + c). */
  ghost predicate ClosedBelow(pos: Option<Position>, price: real, c: real) {
    pos.Some? && pos.value.side == Short ==> price * (1.0 + c) < 2.0 * pos.value.entryPrice
  }

  lemma QuantityFacts(price: real, cash: real, c: real, q: real)
    requires price > 0.0 && 0.0 <= c < 1.0 && q == Quantity(price, cash, c)
    ensures q * price + q * price * c == cash
    ensures cash > 0.0 <==> q > 0.0
  {
    var d := price * (1.0 + c);
    ProductPositive(price, 1.0 + c, d);
    DivSign(cash, d);
    assert q * d == q * price + q * price * c;
  }

  lemma OpenSound(price: real, cash: real, c: real, date: Date, side: TradeSide, trades: seq<Trade>)
    requires price > 0.0 && 0.0 <= c < 1.0 && cash > 0.0
    ensures var o := if side == Long then OpenLong(price, cash, c, date) else OpenShort(price, cash, c, date);
            Sound(State(o.1, Some(o.0), trades))
  {
    QuantityFacts(price, cash, c, Quantity(price, cash, c));
  }

  /** Closing a sound position leaves cash, positive exactly when a short is closed low enough. */
  lemma CloseSound(st: State, price: real, date: Date, c: real)
    requires Sound(st) && price > 0.0 && 0.0 <= c < 1.0
    ensures Close(st, price, date, c).cash > 0.0 <==> ClosedBelow(st.position, price, c)
  {
    if st.position.Some? {
      var p := st.position.value;
      var q := p.quantity;
      if p.side == Long {
        ProductPositive(q, price, q * price);
        ProductPositive(q * price, 1.0 - c, q * price * (1.0 - c));
        assert q * price * (1.0 - c) == q * price - q * price * c;
      } else {
        var d := 2.0 * p.entryPrice - price * (1.0 + c);
        FactorSign(q, d, q * d);
        assert q * d == 2.0 * (q * p.entryPrice) - q * price - q * price * c;
      }
    }
  }

  /** A sound account marks to positive equity exactly when its short is marked low enough. */
  lemma SoundEquity(st: State, price: real)
    requires Sound(st) && price > 0.0
    ensures Equity(st, price) > 0.0 <==> MarkedBelow(st.position, price)
  {
    if st.position.Some? {
      var p := st.position.value;
      var q := p.quantity;
      ProductPositive(q, price, q * price);
      FactorSign(q, 2.0 * p.entryPrice - price, q * (2.0 * p.entryPrice - price));
      assert q * (2.0 * p.entryPrice - price) == 2.0 * (q * p.entryPrice) - q * price;
    }
  }

  ghost predicate PositivePrices(series: seq<Bar>) {
    forall i :: 0 <= i < |series| ==> series[i].open > 0.0 && series[i].close > 0.0
  }

  /** The position that the signal at this bar would close, if any. */
  ghost function Closing(st: State, signal: Signal): Option<Position> {
    if st.position.None? || signal == Hold then None
    else if (signal == Buy) == (st.position.value.side == Long) then None
    else st.position
  }

  ghost predicate BoundedAt(series: seq<Bar>, signals: seq<SignalResult>, config: BacktestConfig, i: nat)
    requires i < |series| && i <= |signals| && 1.0 + config.commissionRate != 0.0
  {
    && (i > 0 ==>
          ClosedBelow(Closing(After(series, signals, config, i), signals[i - 1].signal), series[i].open,
                      config.commissionRate))
    && MarkedBelow(After(series, signals, config, i + 1).position, series[i].close)
  }

  /** The close that bar i's signal brings about, if any, leaves positive cash. */
  ghost predicate ClosesPositive(series: seq<Bar>, signals: seq<SignalResult>, config: BacktestConfig, i: nat)
    requires i < |series| && i <= |signals| && 1.0 + config.commissionRate != 0.0
  {
    i > 0 && Closing(After(series, signals, config, i), signals[i - 1].signal).Some? ==>
      Close(After(series, signals, config, i), series[i].open, series[i].date, config.commissionRate).cash > 0.0
  }

  ghost predicate SolventAt(series: seq<Bar>, signals: seq<SignalResult>, config: BacktestConfig, i: nat)
    requires i < |series| && i <= |signals| && 1.0 + config.commissionRate != 0.0
  {
    && Equity(After(series, signals, config, i + 1), series[i].close) > 0.0
    && ClosesPositive(series, signals, config, i)
  }

  /** Every short up to bar k - 1 is closed and marked within its bound. */
  ghost predicate ShortsBounded(series: seq<Bar>, signals: seq<SignalResult>, config: BacktestConfig, k: nat)
    requires k <= |series| && k <= |signals| + 1 && 1.0 + config.commissionRate != 0.0
  {
    forall i :: 0 <= i < k ==> BoundedAt(series, signals, config, i)
  }

  /** Every marked point of the first k bars is positive, and so is the cash left each time a signal closes a
      position. */
  ghost predicate Solvent(series: seq<Bar>, signals: seq<SignalResult>, config: BacktestConfig, k: nat)
    requires k <= |series| && k <= |signals| + 1 && 1.0 + config.commissionRate != 0.0
  {
    forall i :: 0 <= i < k ==> SolventAt(series, signals, config, i)
  }

  /** The shorts of a whole run: each within its bounds, and one still open at the end liquidated below 2p / (1 + c). */
  ghost predicate RunBounded(series: seq<Bar>, signals: seq<SignalResult>, config: BacktestConfig)
    requires 0 < |series| == |signals| && 1.0 + config.commissionRate != 0.0
  {
    var n := |series|;
    && ShortsBounded(series, signals, config, n)
    && ClosedBelow(After(series, signals, config, n).position, series[n - 1].close, config.commissionRate)
  }

  /** Every reported equity point is positive, the liquidated last one included, and every close leaves positive
      cash. */
  ghost predicate RunSolvent(series: seq<Bar>, signals: seq<SignalResult>, config: BacktestConfig)
    requires 0 < |series| == |signals| && 1.0 + config.commissionRate != 0.0
  {
    && (forall i :: 0 <= i < |series| ==> FinalCurve(series, signals, config)[i].equity > 0.0)
    && (forall i :: 0 <= i < |series| ==> ClosesPositive(series, signals, config, i))
  }

  lemma ExecuteSound(st: State, signal: Signal, bar: Bar, c: real)
    requires Sound(st) && bar.open > 0.0 && 0.0 <= c < 1.0
    requires ClosedBelow(Closing(st, signal), bar.open, c)
    ensures Sound(Execute(st, signal, bar, c))
  {
    hide OpenLong, OpenShort;
    CloseSound(st, bar.open, bar.date, c);
    if signal != Hold && !(st.position.Some? && (signal == Buy) == (st.position.value.side == Long)) {
      var closed := Close(st, bar.open, bar.date, c);
      assert closed.cash > 0.0;
      OpenSound(bar.open, closed.cash, c, bar.date, if signal == Buy then Long else Short, closed.trades);
    }
  }

  lemma {:induction false} BoundedIsSound(series: seq<Bar>, signals: seq<SignalResult>, config: BacktestConfig, k: nat)
    requires k <= |series| && k <= |signals| + 1 && 0.0 <= config.commissionRate < 1.0
    requires config.initialCapital > 0.0 && PositivePrices(series) && ShortsBounded(series, signals, config, k)
    ensures Sound(After(series, signals, config, k))
  {
    hide MarkedBelow, ClosedBelow, Closing, Execute;
    if k > 1 {
      BoundedIsSound(series, signals, config, k - 1);
      assert BoundedAt(series, signals, config, k - 1);
      ExecuteSound(After(series, signals, config, k - 1), signals[k - 2].signal, series[k - 1], config.commissionRate);
    }
  }

  /** With positive capital and prices, an account stays solvent exactly while its shorts stay within their bounds. */
  lemma {:induction false} SolventWhileBounded(series: seq<Bar>, signals: seq<SignalResult>, config: BacktestConfig,
                                               k: nat)
    requires k <= |series| && k <= |signals| + 1 && 0.0 <= config.commissionRate < 1.0
    requires config.initialCapital > 0.0 && PositivePrices(series)
    ensures Solvent(series, signals, config, k) <==> ShortsBounded(series, signals, config, k)
  {
    hide BoundedAt, SolventAt, After, Sound, PositivePrices;
    if k > 0 {
      SolventWhileBounded(series, signals, config, k - 1);
      if ShortsBounded(series, signals, config, k - 1) {
        BoundedIsSound(series, signals, config, k - 1);
        SolventStep(series, signals, config, k - 1);
      }
    }
  }

  lemma SolventStep(series: seq<Bar>, signals: seq<SignalResult>, config: BacktestConfig, i: nat)
    requires i < |series| && i <= |signals| && 0.0 <= config.commissionRate < 1.0
    requires config.initialCapital > 0.0 && PositivePrices(series) && Sound(After(series, signals, config, i))
    ensures SolventAt(series, signals, config, i) <==> BoundedAt(series, signals, config, i)
  {
    hide Execute, Close, Equity, MarkedBelow, ClosedBelow, Closing, Sound;
    var st, c := After(series, signals, config, i), config.commissionRate;
    if i == 0 {
      SoundEquity(st, series[0].close);
    } else {
      var signal := signals[i - 1].signal;
      ClosingSound(st, signal, series[i], c);
      if ClosedBelow(Closing(st, signal), series[i].open, c) {
        ExecuteSound(st, signal, series[i], c);
        SoundEquity(Execute(st, signal, series[i], c), series[i].close);
      }
    }
  }

  lemma ClosingSound(st: State, signal: Signal, bar: Bar, c: real)
    requires Sound(st) && bar.open > 0.0 && 0.0 <= c < 1.0
    ensures ClosedBelow(Closing(st, signal), bar.open, c) <==>
            (Closing(st, signal).Some? ==> Close(st, bar.open, bar.date, c).cash > 0.0)
  {
    hide Close, Sound;
    CloseSound(st, bar.open, bar.date, c);
  }

  // ---------- solvency of the reported run, liquidation included ----------

  /** The last reported point is the cash left by the liquidation. */
  lemma FinalPoint(series: seq<Bar>, signals: seq<SignalResult>, config: BacktestConfig)
    requires 0 < |series| == |signals| && 1.0 + config.commissionRate != 0.0
    ensures FinalCurve(series, signals, config)[|series| - 1].equity == Liquidated(series, signals, config).cash
    ensures forall i :: 0 <= i < |series| - 1 ==>
              FinalCurve(series, signals, config)[i].equity
                == Equity(After(series, signals, config, i + 1), series[i].close)
  {
    hide After, ClosePosition;
  }

  /** A price low enough to close a short at is low enough to mark it at. */
  lemma ClosedIsMarked(pos: Option<Position>, price: real, c: real)
    requires price > 0.0 && c >= 0.0 && ClosedBelow(pos, price, c)
    ensures MarkedBelow(pos, price)
  {
    ProductPositive(price, c, price * c);
  }

  /** The last bar: its close and the liquidation stay positive exactly within their bounds. */
  lemma LastBarSolvent(series: seq<Bar>, signals: seq<SignalResult>, config: BacktestConfig)
    requires 0 < |series| == |signals| && 0.0 <= config.commissionRate < 1.0
    requires config.initialCapital > 0.0 && PositivePrices(series)
    requires Sound(After(series, signals, config, |series| - 1))
    ensures var n := |series|;
            ClosesPositive(series, signals, config, n - 1) && Liquidated(series, signals, config).cash > 0.0
            <==> BoundedAt(series, signals, config, n - 1)
                 && ClosedBelow(After(series, signals, config, n).position, series[n - 1].close, config.commissionRate)
  {
    hide Execute, Close, Equity, MarkedBelow, ClosedBelow, Closing, Sound;
    var n, c := |series|, config.commissionRate;
    var st, last := After(series, signals, config, n - 1), series[n - 1];
    if n == 1 {
      CloseSound(st, last.close, last.date, c);
    } else {
      var signal := signals[n - 2].signal;
      ClosingSound(st, signal, last, c);
      if ClosedBelow(Closing(st, signal), last.open, c) {
        ExecuteSound(st, signal, last, c);
        CloseSound(Execute(st, signal, last, c), last.close, last.date, c);
      }
    }
    if ClosedBelow(After(series, signals, config, n).position, last.close, c) {
      ClosedIsMarked(After(series, signals, config, n).position, last.close, c);
    }
  }

  /** With positive capital and prices and a commission below one, every reported equity point and every close of a run
      is positive if and only if every short, the liquidated one included, stays within its bounds. */
  lemma SolventExactly(series: seq<Bar>, signals: seq<SignalResult>, config: BacktestConfig)
    requires 0 < |series| == |signals| && 0.0 <= config.commissionRate < 1.0
    requires config.initialCapital > 0.0 && PositivePrices(series)
    ensures RunSolvent(series, signals, config) <==> RunBounded(series, signals, config)
  {
    hide BoundedAt, After, Sound, PositivePrices, FinalCurve, Liquidated, ClosesPositive, Equity, ClosedBelow;
    var n := |series|;
    FinalPoint(series, signals, config);
    SolventWhileBounded(series, signals, config, n - 1);
    if Solvent(series, signals, config, n - 1) {
      BoundedIsSound(series, signals, config, n - 1);
      LastBarSolvent(series, signals, config);
    }
    if RunSolvent(series, signals, config) {
      forall i | 0 <= i < n - 1 ensures SolventAt(series, signals, config, i) {
        assert FinalCurve(series, signals, config)[i].equity > 0.0 && ClosesPositive(series, signals, config, i);
      }
    }
    if RunBounded(series, signals, config) {
      assert ShortsBounded(series, signals, config, n - 1);
      forall i | 0 <= i < n
        ensures FinalCurve(series, signals, config)[i].equity > 0.0 && ClosesPositive(series, signals, config, i)
      {
        if i < n - 1 { assert SolventAt(series, signals, config, i); }
      }
    }
  }
}
