/** Walk-forward optimization: choose parameters on each training window, trade them on the window after it. */
module WalkForward {
  import opened Outcome
  import opened Market
  import opened Strategies
  import opened Causality
  import opened Engine
  import opened Drawdown
  import opened Backtest
  import opened ParameterGrid
  import opened Stitching

  const MAX_WINDOW: nat := 10000

  datatype OptimizationMetric = ByTotalReturn | BySharpe | ByWinRate

  datatype Request = Request(strategy: string, series: seq<Bar>, grid: seq<Axis>, trainSize: nat, testSize: nat,
                             metric: OptimizationMetric, config: BacktestConfig)

  // ---------- choosing parameters ----------

  function ScoreResult(r: BacktestResult, metric: OptimizationMetric): real {
    match metric
    case BySharpe => if r.metrics.sharpe.Some? then r.metrics.sharpe.value else 0.0
    case ByWinRate => r.metrics.winRate
    case ByTotalReturn => r.totalReturn
  }

  /** A backtest of given bars with given parameters; the windows do not depend on how it works. */
  type Runner = (seq<Bar>, Params) -> Result<BacktestResult>

  function RunnerOf(sqrt: real -> real, strategy: string, config: BacktestConfig): Runner
    requires 1.0 + config.commissionRate != 0.0
  {
    (bars, params) => RunOf(sqrt, strategy, bars, params, config)
  }

  /** The score of one combination, or nothing when it does not run. */
  function ScoreOf(run: Runner, metric: OptimizationMetric, train: seq<Bar>, params: Params): Option<real> {
    var r := run(train, params);
    if r.Success? then Some(ScoreResult(r.value, metric)) else None
  }

  function Scores(run: Runner, metric: OptimizationMetric, train: seq<Bar>, combos: seq<Params>): (r: seq<Option<real>>)
    ensures |r| == |combos|
  {
    seq(|combos|, i requires 0 <= i < |combos| => ScoreOf(run, metric, train, combos[i]))
  }

  /** `i` scores at least as much as every other and more than every earlier one. */
  ghost predicate IsFirstBest(scores: seq<Option<real>>, i: nat) {
    && i < |scores| && scores[i].Some?
    && (forall j :: 0 <= j < |scores| && scores[j].Some? ==> scores[j].value <= scores[i].value)
    && (forall j :: 0 <= j < i && scores[j].Some? ==> scores[j].value < scores[i].value)
  }

  ghost predicate NoneRuns(scores: seq<Option<real>>) { forall i :: 0 <= i < |scores| ==> scores[i].None? }

  /** The index kept after scoring the first `k` combinations. */
  function BestTo(scores: seq<Option<real>>, k: nat): (r: Option<nat>)
    requires k <= |scores|
    ensures r.Some? ==> r.value < k && scores[r.value].Some?
  {
    if k == 0 then None
    else
      var best := BestTo(scores, k - 1);
      if scores[k - 1].None? then best
      else if best.None? || scores[k - 1].value > scores[best.value].value then Some(k - 1)
      else best
  }

  /** The parameters chosen on a training window. */
  function Chosen(run: Runner, metric: OptimizationMetric, train: seq<Bar>, combos: seq<Params>): Result<Params> {
    var best := BestTo(Scores(run, metric, train, combos), |combos|);
    if best.Some? then Success(combos[best.value])
    else Failure(DataQuality("no parameter combination produced a result"))
  }

  method Optimize(sqrt: real -> real, rq: Request, train: seq<Bar>, combos: seq<Params>) returns (r: Result<Params>)
    requires 1.0 + rq.config.commissionRate != 0.0
    ensures r == Chosen(RunnerOf(sqrt, rq.strategy, rq.config), rq.metric, train, combos)
  {
    hide RunOf, ScoreResult;
    ghost var run := RunnerOf(sqrt, rq.strategy, rq.config);
    ghost var scores := Scores(run, rq.metric, train, combos);
    var bestScore: real, bestParams: Params, found := 0.0, map[], false;
    for i := 0 to |combos|
      invariant found <==> BestTo(scores, i).Some?
      invariant found ==>
                  && bestParams == combos[BestTo(scores, i).value]
                  && Some(bestScore) == scores[BestTo(scores, i).value]
    {
      var result := Run(sqrt, rq.strategy, train, combos[i], rq.config);
      assert scores[i] == ScoreOf(run, rq.metric, train, combos[i]);
      if result.Success? {
        var score := ScoreResult(result.value, rq.metric);
        if !found || score > bestScore {
          bestScore, bestParams, found := score, combos[i], true;
        }
      }
    }
    if !found {
      return Failure(DataQuality("no parameter combination produced a result"));
    }
    return Success(bestParams);
  }

  lemma {:induction false} BestIsFirst(scores: seq<Option<real>>, k: nat)
    requires k <= |scores|
    ensures BestTo(scores, k).None? <==> NoneRuns(scores[..k])
    ensures BestTo(scores, k).Some? ==> IsFirstBest(scores[..k], BestTo(scores, k).value)
  {
    if k > 0 {
      BestIsFirst(scores, k - 1);
      assert scores[..k] == scores[..k - 1] + [scores[k - 1]];
    }
  }

  ghost predicate PicksFirstBest(scores: seq<Option<real>>, combos: seq<Params>, chosen: Result<Params>)
    requires |scores| == |combos|
  {
    && (chosen.Failure? <==> NoneRuns(scores))
    && (chosen.Success? ==> exists i: nat :: IsFirstBest(scores, i) && chosen.value == combos[i])
  }

  /** The choice is the first combination of maximal score among those that run; it fails only when none runs. */
  lemma ChosenIsFirstBest(run: Runner, metric: OptimizationMetric, train: seq<Bar>, combos: seq<Params>)
    ensures PicksFirstBest(Scores(run, metric, train, combos), combos, Chosen(run, metric, train, combos))
  {
    hide Scores, IsFirstBest, NoneRuns;
    var scores := Scores(run, metric, train, combos);
    BestIsFirst(scores, |scores|);
    assert scores[..|scores|] == scores;
  }

  // ---------- the windows ----------

  datatype Split = Split(train: seq<Bar>, test: seq<Bar>)

  /** Training and test windows from `start` on, as long as both fit. */
  function Splits(series: seq<Bar>, train: nat, test: nat, start: nat): seq<Split>
    requires test > 0
    decreases |series| - start
  {
    if start + train + test <= |series| then
      [SplitAt(series, train, test, start)] + Splits(series, train, test, start + test)
    else []
  }

  function SplitAt(series: seq<Bar>, train: nat, test: nat, start: nat): Split
    requires start + train + test <= |series|
  {
    Split(series[start..start + train], series[start + train..start + train + test])
  }

  datatype Window = Window(result: BacktestResult, selected: ParamWindow)

  /** Optimize on the training window, then run the test window. */
  function WindowOf(run: Runner, metric: OptimizationMetric, combos: seq<Params>, split: Split): Result<Window>
    requires |split.test| > 0
  {
    var best :- Chosen(run, metric, split.train, combos);
    var result :- run(split.test, best);
    Success(Window(result, ParamWindow(split.test[0].date, best)))
  }

  ghost predicate NoEmptyTest(splits: seq<Split>) { forall w :: 0 <= w < |splits| ==> |splits[w].test| > 0 }

  function WindowsOf(run: Runner, metric: OptimizationMetric, combos: seq<Params>, splits: seq<Split>,
                     k: nat): (r: Result<seq<Window>>)
    requires k <= |splits| && NoEmptyTest(splits)
    ensures r.Success? ==> |r.value| == k
  {
    if k == 0 then Success([])
    else
      var before :- WindowsOf(run, metric, combos, splits, k - 1);
      var window :- WindowOf(run, metric, combos, splits[k - 1]);
      Success(before + [window])
  }

  function ResultsOf(windows: seq<Window>): (r: seq<BacktestResult>)
    ensures |r| == |windows|
  {
    seq(|windows|, i requires 0 <= i < |windows| => windows[i].result)
  }

  function SelectedOf(windows: seq<Window>): (r: seq<ParamWindow>)
    ensures |r| == |windows|
  {
    seq(|windows|, i requires 0 <= i < |windows| => windows[i].selected)
  }

  /** What the constructor rejects. */
  function Rejection(rq: Request): (r: Option<Error>)
    ensures r.None? <==>
              IsBuiltin(rq.strategy) && 0 < rq.trainSize <= 10000 && 0 < rq.testSize <= 10000 && rq.grid != []
  {
    if !IsBuiltin(rq.strategy) then Some(InvalidCommand("unknown strategy"))
    else if rq.trainSize == 0 || rq.testSize == 0 then Some(InvalidCommand("train and test sizes must be positive"))
    else if rq.trainSize > MAX_WINDOW || rq.testSize > MAX_WINDOW
      then Some(InvalidCommand("train and test sizes are too large"))
    else if rq.grid == [] then Some(InvalidCommand("walk-forward requires a non-empty parameter grid"))
    else None
  }

  /** A request that gets as far as running its windows. */
  predicate Runnable(rq: Request) {
    && Rejection(rq).None? && |rq.series| >= rq.trainSize + rq.testSize
    && Size(rq.grid, |rq.grid|) <= MAX_COMBINATIONS
  }

  ghost function WindowsFor(run: Runner, rq: Request): Result<seq<Window>>
    requires Runnable(rq)
  {
    TestsNotEmpty(rq.series, rq.trainSize, rq.testSize, 0);
    var splits := Splits(rq.series, rq.trainSize, rq.testSize, 0);
    WindowsOf(run, rq.metric, Product(rq.grid, |rq.grid|), splits, |splits|)
  }

  lemma {:induction false} TestsNotEmpty(series: seq<Bar>, train: nat, test: nat, start: nat)
    requires test > 0
    ensures NoEmptyTest(Splits(series, train, test, start))
    decreases |series| - start
  {
    if start + train + test <= |series| { TestsNotEmpty(series, train, test, start + test); }
  }

  method RunWindow(sqrt: real -> real, rq: Request, combos: seq<Params>, split: Split) returns (r: Result<Window>)
    requires 1.0 + rq.config.commissionRate != 0.0 && |split.test| > 0
    ensures r == WindowOf(RunnerOf(sqrt, rq.strategy, rq.config), rq.metric, combos, split)
  {
    hide Chosen, RunOf;
    var best :- Optimize(sqrt, rq, split.train, combos);
    var result :- Run(sqrt, rq.strategy, split.test, best, rq.config);
    return Success(Window(result, ParamWindow(split.test[0].date, best)));
  }

  /** Runs every window that fits; stops at the first error. */
  method RunWindows(sqrt: real -> real, rq: Request, combos: seq<Params>)
    returns (failure: Option<Error>, results: seq<BacktestResult>, selected: seq<ParamWindow>,
      ghost windows: seq<Window>)
    requires 1.0 + rq.config.commissionRate != 0.0 && rq.testSize > 0
    requires NoEmptyTest(Splits(rq.series, rq.trainSize, rq.testSize, 0))
    ensures var splits := Splits(rq.series, rq.trainSize, rq.testSize, 0);
            var all := WindowsOf(RunnerOf(sqrt, rq.strategy, rq.config), rq.metric, combos, splits, |splits|);
            if failure.Some? then all == Failure(failure.value)
            else all == Success(windows) && results == ResultsOf(windows) && selected == SelectedOf(windows)
  {
    hide WindowOf, RunnerOf, NoEmptyTest;
    ghost var run := RunnerOf(sqrt, rq.strategy, rq.config);
    ghost var splits := Splits(rq.series, rq.trainSize, rq.testSize, 0);
    results, selected, windows := [], [], [];
    var start: nat := 0;
    while start + rq.trainSize + rq.testSize <= |rq.series|
      invariant |windows| <= |splits|
      invariant splits[|windows|..] == Splits(rq.series, rq.trainSize, rq.testSize, start)
      invariant WindowsOf(run, rq.metric, combos, splits, |windows|) == Success(windows)
      invariant results == ResultsOf(windows) && selected == SelectedOf(windows)
    {
      var train := rq.series[start..start + rq.trainSize];
      var test := rq.series[start + rq.trainSize..start + rq.trainSize + rq.testSize];
      assert splits[|windows|] == splits[|windows|..][0] == Split(train, test);
      var window := RunWindow(sqrt, rq, combos, Split(train, test));
      if window.Failure? {
        WindowsFail(run, rq.metric, combos, splits, |windows| + 1, |splits|);
        return Some(window.error), results, selected, windows;
      }
      windows := windows + [window.value];
      selected := selected + [window.value.selected];
      results := results + [window.value.result];
      start := start + rq.testSize;
    }
    failure := None;
  }

  /** What a run of a runnable request returns. */
  ghost predicate Reports(run: Runner, rq: Request, r: Result<WalkForwardResult>)
    requires Runnable(rq)
  {
    var windows := WindowsFor(run, rq);
    if windows.Failure? then r == Failure(windows.error)
    else r.Success? && Combines(ResultsOf(windows.value), SelectedOf(windows.value), rq.config, r.value)
  }

  method RunWalkForward(sqrt: real -> real, rq: Request) returns (r: Result<WalkForwardResult>)
    requires 1.0 + rq.config.commissionRate != 0.0 && DistinctKeys(rq.grid)
    ensures Rejection(rq).Some? ==> r == Failure(Rejection(rq).value)
    ensures Rejection(rq).None? && !Runnable(rq) ==> r.Failure? && r.error.InvalidCommand?
    ensures Runnable(rq) ==> Reports(RunnerOf(sqrt, rq.strategy, rq.config), rq, r)
  {
    hide Combines, WindowsOf, Product, Size, DistinctKeys, ResultsOf, SelectedOf, RunnerOf;
    var rejection := Rejection(rq);
    if rejection.Some? {
      return Failure(rejection.value);
    }
    if |rq.series| < rq.trainSize + rq.testSize {
      return Failure(InvalidCommand("series is too short for walk-forward configuration"));
    }
    var combinations :- BuildParamCombinations(rq.grid);
    ProductSize(rq.grid, |rq.grid|);
    SizeGrows(rq.grid, 0, |rq.grid|);
    assert |combinations| > 0;
    TestsNotEmpty(rq.series, rq.trainSize, rq.testSize, 0);
    AtLeastOneWindow(rq);
    var failure, results, selected, windows := RunWindows(sqrt, rq, combinations);
    if failure.Some? {
      return Failure(failure.value);
    }
    r := CombineResults(results, selected, rq.config);
  }

  /** The first failing window fails the run. */
  lemma {:induction false} WindowsFail(run: Runner, metric: OptimizationMetric, combos: seq<Params>,
                                       splits: seq<Split>, j: nat, k: nat)
    requires j <= k <= |splits| && NoEmptyTest(splits) && WindowsOf(run, metric, combos, splits, j).Failure?
    ensures WindowsOf(run, metric, combos, splits, k) == WindowsOf(run, metric, combos, splits, j)
  {
    hide WindowOf;
    if j < k { WindowsFail(run, metric, combos, splits, j, k - 1); }
  }

  // ---------- the windows tile the series ----------

  lemma OneMoreWindow(n: nat, test: nat)
    requires n > 0
    ensures (n - 1) * test + test == n * test
  {
  }

  /** Window w trains on `train` bars from start + w * test and tests on the `test` bars right after them. */
  lemma {:induction false} SplitsTile(series: seq<Bar>, train: nat, test: nat, start: nat, w: nat)
    requires test > 0 && w < |Splits(series, train, test, start)|
    ensures start + w * test + train + test <= |series|
    ensures Splits(series, train, test, start)[w] == SplitAt(series, train, test, start + w * test)
    decreases w
  {
    hide SplitAt;
    if w > 0 {
      SplitsTile(series, train, test, start + test, w - 1);
      OneMoreWindow(w, test);
      assert start + test + (w - 1) * test == start + w * test;
    } else {
      assert 0 * test == 0;
    }
  }

  /** The windows leave fewer than `test` bars over. */
  lemma {:induction false} SplitsFill(series: seq<Bar>, train: nat, test: nat, start: nat)
    requires test > 0 && start + train <= |series|
    ensures var n := |Splits(series, train, test, start)|;
            start + train + n * test <= |series| < start + train + n * test + test
    decreases |series| - start
  {
    hide SplitAt;
    if start + train + test <= |series| {
      SplitsFill(series, train, test, start + test);
      OneMoreWindow(|Splits(series, train, test, start)|, test);
    }
  }

  function Tests(splits: seq<Split>): seq<Bar> {
    if |splits| == 0 then [] else splits[0].test + Tests(splits[1..])
  }

  lemma SlicesJoin<T>(s: seq<T>, a: nat, b: nat, c: nat)
    requires a <= b <= c <= |s|
    ensures s[a..b] + s[b..c] == s[a..c]
  {
  }

  /** Laid end to end the test windows are one stretch of the series, starting right after the first training window. */
  lemma {:induction false} TestsAreContiguous(series: seq<Bar>, train: nat, test: nat, start: nat)
    requires test > 0 && start + train <= |series|
    ensures var n := |Splits(series, train, test, start)|;
            start + train + n * test <= |series|
            && Tests(Splits(series, train, test, start)) == series[start + train..start + train + n * test]
    decreases |series| - start
  {
    hide SplitAt;
    var all, at := Splits(series, train, test, start), start + train;
    SplitsFill(series, train, test, start);
    if at + test <= |series| {
      TestsAreContiguous(series, train, test, start + test);
      OneMoreWindow(|all|, test);
      assert all[1..] == Splits(series, train, test, start + test);
      FirstTest(series, train, test, start);
      SlicesJoin(series, at, at + test, at + |all| * test);
    }
  }

  lemma FirstTest(series: seq<Bar>, train: nat, test: nat, start: nat)
    requires test > 0 && start + train + test <= |series|
    ensures Splits(series, train, test, start)[0].test == series[start + train..start + train + test]
  {
  }

  // ---------- when a run succeeds ----------

  /** `run` succeeds on bars exactly with the parameters that `accepts`; the bars never matter. */
  ghost predicate Uniform(run: Runner, accepts: Params -> bool) {
    forall bars, params :: 0 < |bars| <= MAX_BARS ==> (run(bars, params).Success? <==> accepts(params))
  }

  /** Whether a strategy takes these parameters. */
  function AcceptedBy(sqrt: real -> real, strategy: string): Params -> bool {
    params => SignalsOf(sqrt, strategy, [], params).Success?
  }

  lemma RunnerUniform(sqrt: real -> real, strategy: string, config: BacktestConfig)
    requires 1.0 + config.commissionRate != 0.0 && IsBuiltin(strategy)
    ensures Uniform(RunnerOf(sqrt, strategy, config), AcceptedBy(sqrt, strategy))
  {
    hide SignalsOf, ResultOf;
    forall bars: seq<Bar>, params: Params | 0 < |bars| <= MAX_BARS
      ensures RunOf(sqrt, strategy, bars, params, config).Success? <==> SignalsOf(sqrt, strategy, [], params).Success?
    {
      SignalsCausal(sqrt, strategy, bars, params, 0);
      assert bars[..0] == [];
    }
  }

  ghost predicate SomeAccepted(accepts: Params -> bool, combos: seq<Params>) {
    exists i :: 0 <= i < |combos| && accepts(combos[i])
  }

  lemma ChoiceRuns(run: Runner, accepts: Params -> bool, metric: OptimizationMetric, bars: seq<Bar>,
                   combos: seq<Params>)
    requires Uniform(run, accepts) && 0 < |bars| <= MAX_BARS
    ensures Chosen(run, metric, bars, combos).Success? <==> SomeAccepted(accepts, combos)
    ensures Chosen(run, metric, bars, combos).Success? ==> accepts(Chosen(run, metric, bars, combos).value)
  {
    hide ScoreResult;
    var scores := Scores(run, metric, bars, combos);
    BestIsFirst(scores, |combos|);
    assert scores[..|combos|] == scores;
    forall i | 0 <= i < |combos| ensures scores[i].Some? <==> accepts(combos[i]) {
      assert scores[i] == ScoreOf(run, metric, bars, combos[i]);
    }
  }

  ghost predicate Fitting(splits: seq<Split>) {
    forall w :: 0 <= w < |splits| ==> 0 < |splits[w].test| <= MAX_BARS && 0 < |splits[w].train| <= MAX_BARS
  }

  lemma {:induction false} WindowsRun(run: Runner, accepts: Params -> bool, metric: OptimizationMetric,
                                      combos: seq<Params>, splits: seq<Split>, k: nat)
    requires Uniform(run, accepts) && k <= |splits| && Fitting(splits) && NoEmptyTest(splits)
    ensures WindowsOf(run, metric, combos, splits, k).Success? <==> k == 0 || SomeAccepted(accepts, combos)
  {
    hide SomeAccepted, Chosen;
    if k > 0 {
      WindowsRun(run, accepts, metric, combos, splits, k - 1);
      ChoiceRuns(run, accepts, metric, splits[k - 1].train, combos);
    }
  }

  lemma SplitsFit(rq: Request)
    requires Runnable(rq)
    ensures Fitting(Splits(rq.series, rq.trainSize, rq.testSize, 0))
  {
    hide Size;
    var splits := Splits(rq.series, rq.trainSize, rq.testSize, 0);
    forall w | 0 <= w < |splits| ensures 0 < |splits[w].test| <= MAX_BARS && 0 < |splits[w].train| <= MAX_BARS {
      SplitsTile(rq.series, rq.trainSize, rq.testSize, 0, w);
    }
  }

  /** A run that gets as far as its windows fails only when the strategy takes none of the combinations:
      a set that ran on one training window runs on every window. */
  lemma RunSucceedsExactly(sqrt: real -> real, rq: Request)
    requires 1.0 + rq.config.commissionRate != 0.0 && Runnable(rq)
    ensures WindowsFor(RunnerOf(sqrt, rq.strategy, rq.config), rq).Success?
       <==> SomeAccepted(AcceptedBy(sqrt, rq.strategy), Product(rq.grid, |rq.grid|))
  {
    hide SomeAccepted, WindowsOf, Uniform, RunnerOf, AcceptedBy, Product, Fitting;
    var splits := Splits(rq.series, rq.trainSize, rq.testSize, 0);
    RunnerUniform(sqrt, rq.strategy, rq.config);
    SplitsFit(rq);
    TestsNotEmpty(rq.series, rq.trainSize, rq.testSize, 0);
    AtLeastOneWindow(rq);
    WindowsRun(RunnerOf(sqrt, rq.strategy, rq.config), AcceptedBy(sqrt, rq.strategy), rq.metric,
      Product(rq.grid, |rq.grid|), splits, |splits|);
  }

  // ---------- compounding and conservation over the whole run ----------

  ghost predicate IncreasingDates(series: seq<Bar>) {
    forall i, j :: 0 <= i < j < |series| ==> series[i].date < series[j].date
  }

  /** A window's curve has one point per test bar and accounts for its capital. */
  ghost predicate WindowHolds(r: BacktestResult, test: seq<Bar>, config: BacktestConfig) {
    && Accountable(r, config)
    && |r.equityCurve| == |test| && forall i :: 0 <= i < |test| ==> r.equityCurve[i].date == test[i].date
  }

  /** An engine whose results account for the capital it starts from. */
  ghost predicate KeepsAccounts(run: Runner, config: BacktestConfig) {
    forall bars, params :: run(bars, params).Success? ==> WindowHolds(run(bars, params).value, bars, config)
  }

  lemma RunnerKeepsAccounts(sqrt: real -> real, strategy: string, config: BacktestConfig)
    requires 1.0 + config.commissionRate != 0.0
    ensures KeepsAccounts(RunnerOf(sqrt, strategy, config), config)
  {
    hide RunOf, WindowHolds;
    forall bars, params | RunOf(sqrt, strategy, bars, params, config).Success?
      ensures WindowHolds(RunOf(sqrt, strategy, bars, params, config).value, bars, config)
    {
      RunHolds(sqrt, strategy, bars, params, config);
    }
  }

  lemma RunHolds(sqrt: real -> real, strategy: string, bars: seq<Bar>, params: Params, config: BacktestConfig)
    requires 1.0 + config.commissionRate != 0.0 && RunOf(sqrt, strategy, bars, params, config).Success?
    ensures WindowHolds(RunOf(sqrt, strategy, bars, params, config).value, bars, config)
  {
    hide SignalsOf, Pnl, Chained, After, Liquidated, Equity, SharpeRatio, WinRate, MaxDrawdown;
    RunConservesMoney(sqrt, strategy, bars, params, config);
    FirstPoint(bars, SignalsOf(sqrt, strategy, bars, params).value, config);
  }

  ghost predicate AllHold(windows: seq<Window>, splits: seq<Split>, config: BacktestConfig)
    requires |windows| <= |splits|
  {
    forall w :: 0 <= w < |windows| ==> WindowHolds(windows[w].result, splits[w].test, config)
  }

  lemma {:induction false} WindowsHold(run: Runner, metric: OptimizationMetric, config: BacktestConfig,
                                       combos: seq<Params>, splits: seq<Split>, k: nat)
    requires KeepsAccounts(run, config) && k <= |splits| && NoEmptyTest(splits)
    requires WindowsOf(run, metric, combos, splits, k).Success?
    ensures AllHold(WindowsOf(run, metric, combos, splits, k).value, splits, config)
  {
    hide WindowHolds, Chosen;
    if k > 0 {
      WindowsHold(run, metric, config, combos, splits, k - 1);
      assert run(splits[k - 1].test, Chosen(run, metric, splits[k - 1].train, combos).value).Success?;
    }
  }

  /** The stitched points are dated by the test bars, one each. */
  lemma {:induction false} StitchedDates(windows: seq<Window>, rq: Request, splits: seq<Split>, k: nat)
    requires rq.testSize > 0 && rq.trainSize <= |rq.series| && splits == Splits(rq.series, rq.trainSize, rq.testSize, 0)
    requires k <= |windows| <= |splits| && AllHold(windows, splits, rq.config)
    ensures rq.trainSize + k * rq.testSize <= |rq.series|
    ensures |Stitched(ResultsOf(windows), rq.config, k)| == k * rq.testSize
    ensures forall i :: 0 <= i < k * rq.testSize ==>
              Stitched(ResultsOf(windows), rq.config, k)[i].date == rq.series[rq.trainSize + i].date
  {
    hide Accountable, ScaleOf, Splits, ResultsOf;
    if k > 0 {
      StitchedDates(windows, rq, splits, k - 1);
      SplitsTile(rq.series, rq.trainSize, rq.testSize, 0, k - 1);
      OneMoreWindow(k, rq.testSize);
      assert WindowHolds(windows[k - 1].result, splits[k - 1].test, rq.config);
      assert ResultsOf(windows)[k - 1] == windows[k - 1].result by { ResultsAt(windows, k - 1); }
    }
  }

  lemma ResultsAt(windows: seq<Window>, k: nat)
    requires k < |windows|
    ensures ResultsOf(windows)[k] == windows[k].result
  {
  }

  /** Point i of window w, at its place in the stitched curve. */
  lemma {:induction false} StitchedAt(results: seq<BacktestResult>, config: BacktestConfig, test: nat, k: nat, w: nat,
                                      i: nat)
    requires w < k <= |results| && i < test
    requires forall j :: 0 <= j < |results| ==> |results[j].equityCurve| == test
    requires forall j :: 0 <= j <= k ==> |Stitched(results, config, j)| == j * test
    ensures 0 <= w * test + i < |Stitched(results, config, k)|
    ensures Stitched(results, config, k)[w * test + i]
            == ScaledPoint(results[w].equityCurve[i], ScaleOf(results, config, w))
  {
    hide ScaleOf;
    OneMoreWindow(k, test);
    if w < k - 1 {
      StitchedAt(results, config, test, k - 1, w, i);
    }
  }

  ghost predicate Compounds(r: WalkForwardResult, windows: seq<Window>, rq: Request) {
    && |windows| > 0 && rq.trainSize + |windows| * rq.testSize <= |rq.series|
    && |r.equityCurve| == |windows| * rq.testSize > 0
    && (forall i :: 0 <= i < |r.equityCurve| ==> r.equityCurve[i].date == rq.series[rq.trainSize + i].date)
    && r.totalReturn == Growth(ResultsOf(windows), |windows|) - 1.0
    && Pnl(r.trades) == r.equityCurve[|r.equityCurve| - 1].equity - rq.config.initialCapital
  }

  lemma AllAccount(windows: seq<Window>, splits: seq<Split>, config: BacktestConfig)
    requires |windows| <= |splits| && AllHold(windows, splits, config)
    ensures AllAccountable(ResultsOf(windows), config)
  {
    hide Accountable;
    forall w | 0 <= w < |windows| ensures Accountable(ResultsOf(windows)[w], config) {
      assert WindowHolds(windows[w].result, splits[w].test, config);
    }
  }

  lemma StitchedStrict(points: seq<EquityPoint>, series: seq<Bar>, from: nat)
    requires IncreasingDates(series) && from + |points| <= |series|
    requires forall i :: 0 <= i < |points| ==> points[i].date == series[from + i].date
    ensures StrictByDate(points)
  {
  }

  lemma AtLeastOneWindow(rq: Request)
    requires Runnable(rq)
    ensures |Splits(rq.series, rq.trainSize, rq.testSize, 0)| > 0
  {
  }

  lemma StitchedJoins(windows: seq<Window>, rq: Request, splits: seq<Split>, w: nat)
    requires rq.testSize > 0 && rq.trainSize <= |rq.series| && splits == Splits(rq.series, rq.trainSize, rq.testSize, 0)
    requires 0 < w < |windows| == |splits| && AllHold(windows, splits, rq.config) && rq.config.initialCapital != 0.0
    ensures var points := Stitched(ResultsOf(windows), rq.config, |windows|);
            0 < w * rq.testSize < |points| && points[w * rq.testSize].equity == points[w * rq.testSize - 1].equity
  {
    hide Stitched, ScaleOf, Splits, AllAccountable;
    var results, n, test := ResultsOf(windows), |windows|, rq.testSize;
    AllAccount(windows, splits, rq.config);
    forall k | 0 <= k <= n ensures |Stitched(results, rq.config, k)| == k * test {
      StitchedDates(windows, rq, splits, k);
    }
    forall j | 0 <= j < n ensures |results[j].equityCurve| == test {
      SplitsTile(rq.series, rq.trainSize, test, 0, j);
      assert WindowHolds(windows[j].result, splits[j].test, rq.config);
    }
    StitchedAt(results, rq.config, test, n, w, 0);
    StitchedAt(results, rq.config, test, n, w - 1, test - 1);
    OneMoreWindow(w, test);
    WindowsJoin(results, rq.config, w);
  }

  /** With increasing dates and capital to start from, the reported curve has exactly one point per test bar and no jump
      from window to window, the total return compounds the windows' returns, and the scaled profits explain the final
      equity. */
  lemma WalkForwardCompounds(run: Runner, rq: Request, r: Result<WalkForwardResult>)
    requires Runnable(rq) && KeepsAccounts(run, rq.config) && Reports(run, rq, r) && r.Success?
    requires IncreasingDates(rq.series) && rq.config.initialCapital != 0.0
    ensures WindowsFor(run, rq).Success? && Compounds(r.value, WindowsFor(run, rq).value, rq)
    ensures forall w :: 0 < w < |WindowsFor(run, rq).value| ==> Joins(r.value, w * rq.testSize)
  {
    hide Combines, WindowsOf, AllHold, AllAccountable, KeepsAccounts, Growth, Pnl, Stitched, IncreasingDates,
         StrictByDate, Product, Size, Splits, SplitAt;
    var splits := Splits(rq.series, rq.trainSize, rq.testSize, 0);
    var windows := WindowsFor(run, rq).value;
    var n := |windows|;
    TestsNotEmpty(rq.series, rq.trainSize, rq.testSize, 0);
    AtLeastOneWindow(rq);
    WindowsHold(run, rq.metric, rq.config, Product(rq.grid, |rq.grid|), splits, |splits|);
    AllAccount(windows, splits, rq.config);
    StitchedDates(windows, rq, splits, n);
    var points := Stitched(ResultsOf(windows), rq.config, n);
    StitchedStrict(points, rq.series, rq.trainSize);
    CombinedCompounds(ResultsOf(windows), SelectedOf(windows), rq.config, r.value);
    StitchedEnds(ResultsOf(windows), rq.config, n);
    forall w | 0 < w < n ensures Joins(r.value, w * rq.testSize) {
      StitchedJoins(windows, rq, splits, w);
    }
  }

  /** The curve does not jump at point `i`. */
  ghost predicate Joins(r: WalkForwardResult, i: int) {
    0 < i < |r.equityCurve| && r.equityCurve[i].equity == r.equityCurve[i - 1].equity
  }

  // ---------- no lookahead ----------

  /** Windows that fit in the first m bars are the same whatever follows. */
  lemma {:induction false} SplitsCausal(series: seq<Bar>, train: nat, test: nat, start: nat, m: nat)
    requires test > 0 && m <= |series|
    ensures Splits(series[..m], train, test, start) <= Splits(series, train, test, start)
    decreases |series| - start
  {
    if start + train + test <= m {
      SplitsCausal(series, train, test, start + test, m);
      assert SplitAt(series[..m], train, test, start) == SplitAt(series, train, test, start);
    }
  }

  lemma {:induction false} WindowsDependOnSplits(run: Runner, metric: OptimizationMetric, combos: seq<Params>,
                                                 splits: seq<Split>, splits': seq<Split>, k: nat)
    requires k <= |splits'| && splits' <= splits && NoEmptyTest(splits) && NoEmptyTest(splits')
    ensures WindowsOf(run, metric, combos, splits', k) == WindowsOf(run, metric, combos, splits, k)
  {
    hide WindowOf;
    if k > 0 { WindowsDependOnSplits(run, metric, combos, splits, splits', k - 1); }
  }

  lemma {:induction false} WindowsGrow(run: Runner, metric: OptimizationMetric, combos: seq<Params>,
                                       splits: seq<Split>, j: nat, k: nat)
    requires j <= k <= |splits| && NoEmptyTest(splits) && WindowsOf(run, metric, combos, splits, k).Success?
    ensures WindowsOf(run, metric, combos, splits, j).Success?
    ensures WindowsOf(run, metric, combos, splits, j).value <= WindowsOf(run, metric, combos, splits, k).value
  {
    hide WindowOf;
    if j < k { WindowsGrow(run, metric, combos, splits, j, k - 1); }
  }

  /** Later bars only add windows: those that end within the first m bars keep their chosen parameters and results. */
  lemma WalkForwardCausal(run: Runner, rq: Request, m: nat)
    requires m <= |rq.series| && Runnable(rq) && Runnable(rq.(series := rq.series[..m])) && WindowsFor(run, rq).Success?
    ensures WindowsFor(run, rq.(series := rq.series[..m])).Success?
    ensures WindowsFor(run, rq.(series := rq.series[..m])).value <= WindowsFor(run, rq).value
  {
    hide WindowsOf, Product;
    var rq', combos := rq.(series := rq.series[..m]), Product(rq.grid, |rq.grid|);
    var splits, splits' := Splits(rq.series, rq.trainSize, rq.testSize, 0),
      Splits(rq'.series, rq.trainSize, rq.testSize, 0);
    TestsNotEmpty(rq.series, rq.trainSize, rq.testSize, 0);
    TestsNotEmpty(rq'.series, rq.trainSize, rq.testSize, 0);
    SplitsCausal(rq.series, rq.trainSize, rq.testSize, 0, m);
    WindowsDependOnSplits(run, rq.metric, combos, splits, splits', |splits'|);
    WindowsGrow(run, rq.metric, combos, splits, |splits'|, |splits|);
  }
}
