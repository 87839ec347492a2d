/** Joining the out-of-sample windows of a walk-forward run into one curve that compounds. */
module Stitching {
  import opened LinearAlgebra
  import opened Arrangements
  import opened Outcome
  import opened Market
  import opened Engine
  import opened Drawdown
  import opened Backtest

  datatype ParamWindow = ParamWindow(start: Date, params: Params)

  datatype WalkForwardResult = WalkForwardResult(
    equityCurve: seq<EquityPoint>, trades: seq<Trade>, totalReturn: real, maxDrawdown: real, sharpe: Option<real>,
    numberOfTrades: nat, winRate: real, selectedParams: seq<ParamWindow>)

  // ---------- scaling ----------

  function InitialOf(r: BacktestResult, config: BacktestConfig): real {
    if |r.equityCurve| == 0 then config.initialCapital else r.equityCurve[0].equity
  }

  function FinalOf(r: BacktestResult, config: BacktestConfig): real {
    if |r.equityCurve| == 0 then InitialOf(r, config) else r.equityCurve[|r.equityCurve| - 1].equity
  }

  /** Capital brought into window `k`. */
  function Carried(results: seq<BacktestResult>, config: BacktestConfig, k: nat): real
    requires k <= |results|
    decreases k, 0
  {
    if k == 0 then config.initialCapital
    else FinalOf(results[k - 1], config) * ScaleOf(results, config, k - 1)
  }

  function ScaleOf(results: seq<BacktestResult>, config: BacktestConfig, k: nat): real
    requires k < |results|
    decreases k, 1
  {
    Ratio(Carried(results, config, k), InitialOf(results[k], config))
  }

  function Ratio(carried: real, initial: real): real { if initial == 0.0 then 0.0 else carried / initial }

  function ScaledPoint(p: EquityPoint, scale: real): EquityPoint { EquityPoint(p.date, p.equity * scale) }

  function ScaledTrade(t: Trade, scale: real): Trade { t.(pnl := t.pnl * scale) }

  function ScaledCurve(curve: seq<EquityPoint>, scale: real): (r: seq<EquityPoint>)
    ensures |r| == |curve|
  {
    seq(|curve|, i requires 0 <= i < |curve| => ScaledPoint(curve[i], scale))
  }

  function ScaledTrades(trades: seq<Trade>, scale: real): (r: seq<Trade>)
    ensures |r| == |trades|
  {
    seq(|trades|, i requires 0 <= i < |trades| => ScaledTrade(trades[i], scale))
  }

  /** The scaled points of the first `k` windows, end to end. */
  function Stitched(results: seq<BacktestResult>, config: BacktestConfig, k: nat): seq<EquityPoint>
    requires k <= |results|
  {
    if k == 0 then []
    else Stitched(results, config, k - 1) + ScaledCurve(results[k - 1].equityCurve, ScaleOf(results, config, k - 1))
  }

  function StitchedTrades(results: seq<BacktestResult>, config: BacktestConfig, k: nat): seq<Trade>
    requires k <= |results|
  {
    if k == 0 then []
    else StitchedTrades(results, config, k - 1) + ScaledTrades(results[k - 1].trades, ScaleOf(results, config, k - 1))
  }

  method ScaleCurve(curve: seq<EquityPoint>, scale: real) returns (points: seq<EquityPoint>)
    ensures points == ScaledCurve(curve, scale)
  {
    points := [];
    for j := 0 to |curve|
      invariant points == ScaledCurve(curve, scale)[..j]
    {
      points := points + [ScaledPoint(curve[j], scale)];
    }
  }

  method ScaleTrades(trades: seq<Trade>, scale: real) returns (scaled: seq<Trade>)
    ensures scaled == ScaledTrades(trades, scale)
  {
    scaled := [];
    for j := 0 to |trades|
      invariant scaled == ScaledTrades(trades, scale)[..j]
    {
      scaled := scaled + [ScaledTrade(trades[j], scale)];
    }
  }

  method ScaleWindows(results: seq<BacktestResult>, config: BacktestConfig)
    returns (curve: seq<EquityPoint>, trades: seq<Trade>)
    ensures curve == Stitched(results, config, |results|) && trades == StitchedTrades(results, config, |results|)
  {
    hide ScaledCurve, ScaledTrades;
    curve, trades := [], [];
    var cumulative := 0.0;
    for i := 0 to |results|
      invariant curve == Stitched(results, config, i) && trades == StitchedTrades(results, config, i)
      invariant i > 0 ==> cumulative == Carried(results, config, i)
    {
      var result := results[i];
      var windowInitial := if |result.equityCurve| == 0 then config.initialCapital else result.equityCurve[0].equity;
      var windowFinal := if |result.equityCurve| == 0 then windowInitial
        else result.equityCurve[|result.equityCurve| - 1].equity;
      var scale := 0.0;
      if i == 0 {
        scale := if windowInitial == 0.0 then 0.0 else config.initialCapital / windowInitial;
      } else {
        scale := if windowInitial == 0.0 then 0.0 else cumulative / windowInitial;
      }
      assert scale == ScaleOf(results, config, i);
      var points := ScaleCurve(result.equityCurve, scale);
      var scaled := ScaleTrades(result.trades, scale);
      curve, trades := curve + points, trades + scaled;
      cumulative := windowFinal * scale;
    }
  }

  // ---------- sorting and removing duplicate dates ----------

  ghost predicate SortedByDate(points: seq<EquityPoint>) {
    forall i, j :: 0 <= i < j < |points| ==> points[i].date <= points[j].date
  }

  ghost predicate StrictByDate(points: seq<EquityPoint>) {
    forall i, j :: 0 <= i < j < |points| ==> points[i].date < points[j].date
  }

  /** Any arrangement the sort may produce; points of one date may come in any order. */
  ghost predicate Arranged(points: seq<EquityPoint>, sorted: seq<EquityPoint>) {
    multiset(points) == multiset(sorted) && SortedByDate(sorted)
  }

  method Sort(points: seq<EquityPoint>) returns (sorted: seq<EquityPoint>)
    ensures Arranged(points, sorted)
  {
    sorted := [];
    for i := 0 to |points|
      invariant Arranged(points[..i], sorted)
    {
      var at: nat := |sorted|;
      while at > 0 && points[i].date < sorted[at - 1].date
        invariant at <= |sorted|
        invariant forall j :: at <= j < |sorted| ==> points[i].date < sorted[j].date
      {
        at := at - 1;
      }
      Inserted(points, sorted, i, at);
      sorted := sorted[..at] + [points[i]] + sorted[at..];
    }
    assert points[..|points|] == points;
  }

  lemma Inserted(points: seq<EquityPoint>, sorted: seq<EquityPoint>, i: nat, at: nat)
    requires i < |points| && at <= |sorted| && Arranged(points[..i], sorted)
    requires at > 0 ==> sorted[at - 1].date <= points[i].date
    requires forall j :: at <= j < |sorted| ==> points[i].date < sorted[j].date
    ensures Arranged(points[..i + 1], sorted[..at] + [points[i]] + sorted[at..])
  {
    InsertedInOrder(sorted, points[i], at);
    hide SortedByDate;
    OneMore(points, i);
    OneInserted(sorted, points[i], at);
  }

  lemma MultisetFront<T>(s: seq<T>)
    requires |s| > 0
    ensures multiset(s[..|s| - 1]) == multiset(s) - multiset{s[|s| - 1]}
  {
    assert s == s[..|s| - 1] + [s[|s| - 1]];
  }

  lemma InsertedInOrder(sorted: seq<EquityPoint>, p: EquityPoint, at: nat)
    requires SortedByDate(sorted) && at <= |sorted|
    requires at > 0 ==> sorted[at - 1].date <= p.date
    requires forall j :: at <= j < |sorted| ==> p.date < sorted[j].date
    ensures SortedByDate(sorted[..at] + [p] + sorted[at..])
  {
  }

  /** The points that differ in date from the last one kept. */
  function Deduplicated(points: seq<EquityPoint>, k: nat): (r: seq<EquityPoint>)
    requires k <= |points|
    ensures |r| <= k
  {
    if k == 0 then []
    else
      var kept := Deduplicated(points, k - 1);
      if |kept| > 0 && kept[|kept| - 1].date == points[k - 1].date then kept else kept + [points[k - 1]]
  }

  method Unique(points: seq<EquityPoint>) returns (kept: seq<EquityPoint>)
    ensures kept == Deduplicated(points, |points|)
  {
    kept := [];
    for i := 0 to |points|
      invariant kept == Deduplicated(points, i)
    {
      if |kept| == 0 || kept[|kept| - 1].date != points[i].date {
        kept := kept + [points[i]];
      }
    }
  }

  /** After sorting, the kept points have strictly increasing dates. */
  lemma {:induction false} DeduplicatedStrict(points: seq<EquityPoint>, k: nat)
    requires k <= |points| && SortedByDate(points)
    ensures StrictByDate(Deduplicated(points, k))
    ensures k > 0 ==> EndsOn(Deduplicated(points, k), points[k - 1].date)
  {
    if k > 0 {
      DeduplicatedStrict(points, k - 1);
      if k > 1 {
        assert points[k - 2].date <= points[k - 1].date;
        StrictAppend(Deduplicated(points, k - 1), points[k - 1]);
      }
    }
  }

  ghost predicate EndsOn(points: seq<EquityPoint>, date: Date) {
    |points| > 0 && points[|points| - 1].date == date
  }

  lemma StrictAppend(kept: seq<EquityPoint>, p: EquityPoint)
    requires StrictByDate(kept) && |kept| > 0 && kept[|kept| - 1].date <= p.date
    ensures kept[|kept| - 1].date < p.date ==> StrictByDate(kept + [p])
  {
  }

  ghost predicate HasDate(points: seq<EquityPoint>, date: Date) {
    exists j :: 0 <= j < |points| && points[j].date == date
  }

  /** No date is lost, and nothing is invented. */
  lemma {:induction false} DeduplicatedCovers(points: seq<EquityPoint>, k: nat, i: nat)
    requires i < k <= |points|
    ensures HasDate(Deduplicated(points, k), points[i].date)
    ensures forall j :: 0 <= j < |Deduplicated(points, k)| ==> Deduplicated(points, k)[j] in points
  {
    var before, now := Deduplicated(points, k - 1), Deduplicated(points, k);
    assert now[|now| - 1].date == points[k - 1].date;
    if i < k - 1 {
      DeduplicatedCovers(points, k - 1, i);
      var j :| 0 <= j < |before| && before[j].date == points[i].date;
      assert now[j].date == points[i].date;
    } else if k > 1 {
      DeduplicatedCovers(points, k - 1, 0);
    }
  }

  lemma {:induction false} NothingToDeduplicate(points: seq<EquityPoint>, k: nat)
    requires k <= |points| && StrictByDate(points)
    ensures Deduplicated(points, k) == points[..k]
  {
    if k > 0 { NothingToDeduplicate(points, k - 1); }
  }

  /** Points whose dates already increase have only one arrangement. */
  lemma {:induction false} ArrangedStrict(points: seq<EquityPoint>, sorted: seq<EquityPoint>)
    requires StrictByDate(points) && Arranged(points, sorted)
    ensures sorted == points
  {
    SameLength(points, sorted);
    if |points| > 0 {
      LastAgrees(points, sorted);
      MultisetFront(points);
      MultisetFront(sorted);
      FrontOrdered(points, sorted);
      hide StrictByDate, SortedByDate;
      var m := |points| - 1;
      ArrangedStrict(points[..m], sorted[..m]);
      SameEnds(points, sorted);
    }
  }

  lemma SameEnds<T>(a: seq<T>, b: seq<T>)
    requires |a| == |b| > 0 && a[..|a| - 1] == b[..|b| - 1] && a[|a| - 1] == b[|b| - 1]
    ensures a == b
  {
  }

  lemma FrontOrdered(points: seq<EquityPoint>, sorted: seq<EquityPoint>)
    requires StrictByDate(points) && SortedByDate(sorted) && |points| == |sorted| > 0
    ensures StrictByDate(points[..|points| - 1]) && SortedByDate(sorted[..|sorted| - 1])
  {
  }

  lemma LastAgrees(points: seq<EquityPoint>, sorted: seq<EquityPoint>)
    requires StrictByDate(points) && Arranged(points, sorted) && |points| == |sorted| > 0
    ensures sorted[|sorted| - 1] == points[|points| - 1]
  {
    var m := |points| - 1;
    assert points[m] in multiset(points) && sorted[m] in multiset(sorted);
    var i :| 0 <= i <= m && sorted[i] == points[m];
    var j :| 0 <= j <= m && points[j] == sorted[m];
    assert i < m ==> sorted[i].date <= sorted[m].date;
    assert points[m].date <= points[j].date;
  }

  // ---------- the combined result ----------

  function Summary(curve: seq<EquityPoint>, trades: seq<Trade>, selected: seq<ParamWindow>): WalkForwardResult {
    var e := Equities(curve);
    WalkForwardResult(curve, trades, if |e| == 0 then 0.0 else TotalReturn(e), MaxDrawdown(e, 0.0), None,
                      |trades|, WinRate(trades), selected)
  }

  /** What joining the windows may return. */
  ghost predicate Combines(results: seq<BacktestResult>, selected: seq<ParamWindow>, config: BacktestConfig,
                           r: WalkForwardResult) {
    exists sorted :: Arranged(Stitched(results, config, |results|), sorted)
      && r == Summary(Deduplicated(sorted, |sorted|), StitchedTrades(results, config, |results|), selected)
  }

  method CombineResults(results: seq<BacktestResult>, selected: seq<ParamWindow>, config: BacktestConfig)
    returns (r: Result<WalkForwardResult>)
    ensures if |results| == 0 then r.Failure? && r.error.InvalidCommand?
            else r.Success? && Combines(results, selected, config, r.value)
  {
    if |results| == 0 {
      return Failure(InvalidCommand("no out-of-sample windows were generated"));
    }
    var points, trades := ScaleWindows(results, config);
    var sorted := Sort(points);
    var curve := Unique(sorted);
    var e: Vec := [];
    for i := 0 to |curve|
      invariant e == Equities(curve)[..i]
    {
      e := e + [curve[i].equity];
    }
    assert e == Equities(curve);
    var drawdown := ComputeMaxDrawdown(e, 0.0);
    var totalReturn := 0.0;
    if |e| > 0 && e[0] != 0.0 {
      totalReturn := e[|e| - 1] / e[0] - 1.0;
    }
    var winRate := CountWins(trades);
    r := Success(WalkForwardResult(curve, trades, totalReturn, drawdown, None, |trades|, winRate, selected));
    assert r.value == Summary(Deduplicated(sorted, |sorted|), StitchedTrades(results, config, |results|), selected);
  }

  // ---------- compounding ----------

  /** What a backtest run promises of its result. */
  ghost predicate Accountable(r: BacktestResult, config: BacktestConfig) {
    && |r.equityCurve| > 0 && r.equityCurve[0].equity == config.initialCapital
    && r.equityCurve[|r.equityCurve| - 1].equity == r.finalEquity == config.initialCapital + Pnl(r.trades)
    && (config.initialCapital != 0.0 ==> r.totalReturn == r.finalEquity / config.initialCapital - 1.0)
  }

  ghost predicate AllAccountable(results: seq<BacktestResult>, config: BacktestConfig) {
    forall i :: 0 <= i < |results| ==> Accountable(results[i], config)
  }

  /** The growth of the first `k` windows compounded. */
  function Growth(results: seq<BacktestResult>, k: nat): real
    requires k <= |results|
  {
    if k == 0 then 1.0 else Growth(results, k - 1) * (1.0 + results[k - 1].totalReturn)
  }

  lemma RatioScales(c: real, g: real, carried: real)
    requires c != 0.0 && carried == c * g
    ensures Ratio(carried, c) == g && carried / c == g
  {
  }

  lemma GrowthStep(c: real, g: real, f: real, ret: real)
    requires c != 0.0 && ret == f / c - 1.0
    ensures f * g == c * (g * (1.0 + ret))
  {
  }

  /** Each window is scaled by the growth so far, so capital compounds. */
  lemma {:induction false} CapitalCompounds(results: seq<BacktestResult>, config: BacktestConfig, k: nat)
    requires k <= |results| && config.initialCapital != 0.0 && AllAccountable(results, config)
    ensures Carried(results, config, k) == config.initialCapital * Growth(results, k)
    ensures k < |results| ==> ScaleOf(results, config, k) == Growth(results, k)
  {
    hide Ratio, Carried, ScaleOf, Growth;
    if k == 0 {
      CarriedNone(results, config);
    } else {
      CapitalCompounds(results, config, k - 1);
      CapitalStep(results, config, k - 1);
    }
    if k < |results| { CapitalStep(results, config, k); }
  }

  lemma CapitalStep(results: seq<BacktestResult>, config: BacktestConfig, k: nat)
    requires k < |results| && config.initialCapital != 0.0 && AllAccountable(results, config)
    requires Carried(results, config, k) == config.initialCapital * Growth(results, k)
    ensures ScaleOf(results, config, k) == Growth(results, k)
    ensures Carried(results, config, k + 1) == config.initialCapital * Growth(results, k + 1)
  {
    hide Ratio, Carried, ScaleOf, AllAccountable;
    CarriedStep(results, config, k);
    RatioScales(config.initialCapital, Growth(results, k), Carried(results, config, k));
    GrowthStep(config.initialCapital, Growth(results, k), results[k].finalEquity, results[k].totalReturn);
  }

  lemma CarriedNone(results: seq<BacktestResult>, config: BacktestConfig)
    ensures Carried(results, config, 0) == config.initialCapital * Growth(results, 0)
  {
  }

  lemma CarriedStep(results: seq<BacktestResult>, config: BacktestConfig, k: nat)
    requires k < |results| && AllAccountable(results, config)
    ensures var r := results[k];
            && (config.initialCapital != 0.0 ==> r.totalReturn == r.finalEquity / config.initialCapital - 1.0)
            && ScaleOf(results, config, k) == Ratio(Carried(results, config, k), config.initialCapital)
            && Carried(results, config, k + 1) == r.finalEquity * ScaleOf(results, config, k)
  {
  }

  /** The curve has no jumps: each window starts at exactly the value at which the previous one ended. */
  lemma WindowsJoin(results: seq<BacktestResult>, config: BacktestConfig, k: nat)
    requires 0 < k < |results| && config.initialCapital != 0.0 && AllAccountable(results, config)
    ensures var before, next := ScaledCurve(results[k - 1].equityCurve, ScaleOf(results, config, k - 1)),
                                ScaledCurve(results[k].equityCurve, ScaleOf(results, config, k));
            |before| > 0 && |next| > 0 && next[0].equity == before[|before| - 1].equity
  {
  }

  lemma {:induction false} StitchedEnds(results: seq<BacktestResult>, config: BacktestConfig, k: nat)
    requires 0 < k <= |results| && config.initialCapital != 0.0 && AllAccountable(results, config)
    ensures var s := Stitched(results, config, k);
            |s| > 0 && s[0].equity == config.initialCapital && s[|s| - 1].equity == Carried(results, config, k)
  {
    hide Ratio, ScaleOf, Pnl;
    assert Accountable(results[k - 1], config);
    var last := ScaledCurve(results[k - 1].equityCurve, ScaleOf(results, config, k - 1));
    assert last[|last| - 1].equity == Carried(results, config, k);
    if k == 1 {
      CapitalCompounds(results, config, 0);
      assert Stitched(results, config, 1) == last;
    } else {
      StitchedEnds(results, config, k - 1);
    }
  }

  lemma {:induction false} PnlConcat(a: seq<Trade>, b: seq<Trade>)
    ensures Pnl(a + b) == Pnl(a) + Pnl(b)
  {
    if |b| == 0 {
      assert a + b == a;
    } else {
      PnlConcat(a, b[..|b| - 1]);
      assert (a + b)[..|a + b| - 1] == a + b[..|b| - 1];
    }
  }

  lemma {:induction false} PnlScaled(trades: seq<Trade>, scale: real)
    ensures Pnl(ScaledTrades(trades, scale)) == Pnl(trades) * scale
  {
    if |trades| > 0 {
      var m := |trades| - 1;
      PnlScaled(trades[..m], scale);
      assert ScaledTrades(trades, scale)[..m] == ScaledTrades(trades[..m], scale);
      assert (Pnl(trades[..m]) + trades[m].pnl) * scale == Pnl(trades[..m]) * scale + trades[m].pnl * scale;
    }
  }

  lemma ScaledGain(c: real, f: real, gain: real, scale: real, carried: real)
    requires carried == c * scale && f == c + gain
    ensures gain * scale == f * scale - carried
  {
  }

  lemma NoProfit()
    ensures Pnl([]) == 0.0
  {
  }

  /** The scaled profits of all windows add up to the growth of the stitched account. */
  lemma {:induction false} ProfitsAddUp(results: seq<BacktestResult>, config: BacktestConfig, k: nat)
    requires k <= |results| && config.initialCapital != 0.0 && AllAccountable(results, config)
    ensures Pnl(StitchedTrades(results, config, k)) == Carried(results, config, k) - config.initialCapital
  {
    hide Ratio, Growth, ScaledTrades, Pnl;
    if k == 0 {
      NoProfit();
    } else {
      ProfitsAddUp(results, config, k - 1);
      var r, scale := results[k - 1], ScaleOf(results, config, k - 1);
      assert Accountable(r, config);
      PnlConcat(StitchedTrades(results, config, k - 1), ScaledTrades(r.trades, scale));
      PnlScaled(r.trades, scale);
      CapitalCompounds(results, config, k - 1);
      ScaledGain(config.initialCapital, r.finalEquity, Pnl(r.trades), scale, Carried(results, config, k - 1));
    }
  }

  /** With increasing dates, sorting and deduplicating change nothing. */
  lemma CombinedKeepsPoints(results: seq<BacktestResult>, selected: seq<ParamWindow>, config: BacktestConfig,
                            r: WalkForwardResult)
    requires StrictByDate(Stitched(results, config, |results|)) && Combines(results, selected, config, r)
    ensures r == Summary(Stitched(results, config, |results|), StitchedTrades(results, config, |results|), selected)
  {
    hide Stitched, StitchedTrades, StrictByDate, Arranged, Summary;
    var points := Stitched(results, config, |results|);
    var sorted :| Arranged(points, sorted)
      && r == Summary(Deduplicated(sorted, |sorted|), StitchedTrades(results, config, |results|), selected);
    ArrangedStrict(points, sorted);
    NothingToDeduplicate(points, |points|);
    assert points[..|points|] == points;
  }

  lemma ReturnIsGrowth(curve: seq<EquityPoint>, c: real, g: real)
    requires |curve| > 0 && curve[0].equity == c != 0.0 && curve[|curve| - 1].equity == c * g
    ensures TotalReturn(Equities(curve)) == g - 1.0
  {
    RatioScales(c, g, curve[|curve| - 1].equity);
  }

  /** With increasing dates and capital to start from, joining the windows compounds their returns,
      keeps every point, and conserves money. */
  lemma CombinedCompounds(results: seq<BacktestResult>, selected: seq<ParamWindow>, config: BacktestConfig,
                          r: WalkForwardResult)
    requires |results| > 0 && config.initialCapital != 0.0 && AllAccountable(results, config)
    requires StrictByDate(Stitched(results, config, |results|)) && Combines(results, selected, config, r)
    ensures r.equityCurve == Stitched(results, config, |results|)
    ensures r.totalReturn == Growth(results, |results|) - 1.0
    ensures Pnl(r.trades) == r.equityCurve[|r.equityCurve| - 1].equity - config.initialCapital
  {
    hide Stitched, StitchedTrades, Accountable, StrictByDate, Combines, Pnl, Growth, Carried, WinRate, MaxDrawdown,
         TotalReturn;
    CombinedKeepsPoints(results, selected, config, r);
    StitchedEnds(results, config, |results|);
    CapitalCompounds(results, config, |results|);
    ProfitsAddUp(results, config, |results|);
    ReturnIsGrowth(Stitched(results, config, |results|), config.initialCapital, Growth(results, |results|));
  }
}
