/** What a walk-forward run selects parameters on: the training bars of each window and nothing else. */
module Training {
  import opened Outcome
  import opened Market
  import opened Engine
  import opened ParameterGrid
  import opened Stitching
  import opened WalkForward

  /** `a` is the better result: more total return, a higher Sharpe ratio (none counting as zero) or more winning
      trades. */
  ghost predicate Better(metric: OptimizationMetric, a: BacktestResult, b: BacktestResult) {
    match metric
    case ByTotalReturn => a.totalReturn > b.totalReturn
    case ByWinRate => a.metrics.winRate > b.metrics.winRate
    case BySharpe =>
      (if a.metrics.sharpe.Some? then a.metrics.sharpe.value else 0.0)
      > if b.metrics.sharpe.Some? then b.metrics.sharpe.value else 0.0
  }

  /** `params` is a combination that runs on `bars`, and no other one does better there. */
  ghost predicate BestOn(run: Runner, metric: OptimizationMetric, bars: seq<Bar>, combos: seq<Params>, params: Params) {
    && params in combos && run(bars, params).Success?
    && forall other :: other in combos && run(bars, other).Success? ==>
         !Better(metric, run(bars, other).value, run(bars, params).value)
  }

  lemma FirstBestIsBest(run: Runner, metric: OptimizationMetric, bars: seq<Bar>, combos: seq<Params>, params: Params)
    requires PicksFirstBest(Scores(run, metric, bars, combos), combos, Success(params))
    ensures BestOn(run, metric, bars, combos, params)
  {
    var scores := Scores(run, metric, bars, combos);
    var i: nat :| IsFirstBest(scores, i) && params == combos[i];
    assert scores[i] == ScoreOf(run, metric, bars, params);
    forall other | other in combos && run(bars, other).Success?
      ensures !Better(metric, run(bars, other).value, run(bars, params).value)
    {
      var j :| 0 <= j < |combos| && combos[j] == other;
      assert scores[j] == ScoreOf(run, metric, bars, other);
    }
  }

  lemma {:induction false} WindowAt(run: Runner, metric: OptimizationMetric, combos: seq<Params>, splits: seq<Split>,
                                    k: nat, w: nat)
    requires w < k <= |splits| && NoEmptyTest(splits) && WindowsOf(run, metric, combos, splits, k).Success?
    ensures WindowOf(run, metric, combos, splits[w]) == Success(WindowsOf(run, metric, combos, splits, k).value[w])
  {
    hide WindowOf;
    if w < k - 1 { WindowAt(run, metric, combos, splits, k - 1, w); }
  }

  /** Where window w trains and tests. */
  function TrainBars(rq: Request, w: nat): seq<Bar>
    requires w * rq.testSize + rq.trainSize <= |rq.series|
  {
    rq.series[w * rq.testSize..w * rq.testSize + rq.trainSize]
  }

  function TestBars(rq: Request, w: nat): seq<Bar>
    requires w * rq.testSize + rq.trainSize + rq.testSize <= |rq.series|
  {
    rq.series[w * rq.testSize + rq.trainSize..w * rq.testSize + rq.trainSize + rq.testSize]
  }

  lemma WindowBars(run: Runner, rq: Request, w: nat)
    requires Runnable(rq) && WindowsFor(run, rq).Success? && w < |WindowsFor(run, rq).value|
    ensures w * rq.testSize + rq.trainSize + rq.testSize <= |rq.series|
    ensures |TestBars(rq, w)| > 0
    ensures WindowOf(run, rq.metric, Product(rq.grid, |rq.grid|), Split(TrainBars(rq, w), TestBars(rq, w)))
         == Success(WindowsFor(run, rq).value[w])
  {
    hide WindowOf, WindowsOf, Product, Size, Splits;
    var splits := Splits(rq.series, rq.trainSize, rq.testSize, 0);
    TestsNotEmpty(rq.series, rq.trainSize, rq.testSize, 0);
    SplitsTile(rq.series, rq.trainSize, rq.testSize, 0, w);
    WindowAt(run, rq.metric, Product(rq.grid, |rq.grid|), splits, |splits|, w);
  }

  lemma ReportedWindows(run: Runner, rq: Request, r: Result<WalkForwardResult>)
    requires Runnable(rq) && Reports(run, rq, r) && r.Success?
    ensures WindowsFor(run, rq).Success? && r.value.selectedParams == SelectedOf(WindowsFor(run, rq).value)
  {
    hide WindowsFor, Stitched, StitchedTrades, Deduplicated;
  }

  /** Window w's parameters are the first best on its training bars, among those that run there; they are dated by its
      first test bar, and they are what its test bars are run with. */
  ghost predicate SelectedAt(run: Runner, rq: Request, s: ParamWindow, result: BacktestResult, w: nat) {
    && w * rq.testSize + rq.trainSize < w * rq.testSize + rq.trainSize + rq.testSize <= |rq.series|
    && PicksFirstBest(Scores(run, rq.metric, TrainBars(rq, w), Product(rq.grid, |rq.grid|)),
                      Product(rq.grid, |rq.grid|), Success(s.params))
    && BestOn(run, rq.metric, TrainBars(rq, w), Product(rq.grid, |rq.grid|), s.params)
    && s.start == rq.series[w * rq.testSize + rq.trainSize].date
    && run(TestBars(rq, w), s.params) == Success(result)
  }

  lemma WindowSelected(run: Runner, rq: Request, w: nat)
    requires Runnable(rq) && WindowsFor(run, rq).Success? && w < |WindowsFor(run, rq).value|
    ensures var window := WindowsFor(run, rq).value[w]; SelectedAt(run, rq, window.selected, window.result, w)
  {
    hide WindowsFor, Product, Size, Scores, Chosen, PicksFirstBest, BestOn;
    WindowBars(run, rq, w);
    var combos := Product(rq.grid, |rq.grid|);
    ChosenIsFirstBest(run, rq.metric, TrainBars(rq, w), combos);
    FirstBestIsBest(run, rq.metric, TrainBars(rq, w), combos, WindowsFor(run, rq).value[w].selected.params);
  }

  /** A run of `rq` that succeeded with result `r` and a window w. */
  ghost predicate Succeeded(run: Runner, rq: Request, r: WalkForwardResult, w: nat) {
    Runnable(rq) && Reports(run, rq, Success(r)) && w < |r.selectedParams|
  }

  /** What a run reports as selected was selected on the training bars. */
  lemma SelectedOnTrainingBars(run: Runner, rq: Request, r: WalkForwardResult, w: nat) returns (result: BacktestResult)
    requires Succeeded(run, rq, r, w)
    ensures SelectedAt(run, rq, r.selectedParams[w], result, w)
  {
    hide WindowsFor, SelectedAt, Combines;
    ReportedWindows(run, rq, Success(r));
    WindowSelected(run, rq, w);
    result := WindowsFor(run, rq).value[w].result;
  }

  lemma PicksSame(scores: seq<Option<real>>, combos: seq<Params>, a: Params, b: Params)
    requires |scores| == |combos|
    requires PicksFirstBest(scores, combos, Success(a)) && PicksFirstBest(scores, combos, Success(b))
    ensures a == b
  {
    var i: nat :| IsFirstBest(scores, i) && a == combos[i];
    var j: nat :| IsFirstBest(scores, j) && b == combos[j];
    assert i == j;
  }

  /** The same training bars at window w; the requests may differ in every other bar. */
  ghost predicate SameTraining(rq: Request, rq': Request, w: nat) {
    && rq' == rq.(series := rq'.series)
    && w * rq.testSize + rq.trainSize <= |rq.series| && w * rq.testSize + rq.trainSize <= |rq'.series|
    && TrainBars(rq, w) == TrainBars(rq', w)
  }

  /** Two requests with the same training bars at window w select the same parameters there, whatever they are tested
      on. */
  lemma TrainingDecides(run: Runner, rq: Request, rq': Request, r: WalkForwardResult, r': WalkForwardResult, w: nat)
    requires Succeeded(run, rq, r, w) && Succeeded(run, rq', r', w) && SameTraining(rq, rq', w)
    ensures r.selectedParams[w].params == r'.selectedParams[w].params
  {
    hide WindowsFor, Product, Size, Scores, PicksFirstBest, BestOn, Reports, Runnable, TrainBars;
    var result := SelectedOnTrainingBars(run, rq, r, w);
    var result' := SelectedOnTrainingBars(run, rq', r', w);
    PicksSame(Scores(run, rq.metric, TrainBars(rq, w), Product(rq.grid, |rq.grid|)), Product(rq.grid, |rq.grid|),
              r.selectedParams[w].params, r'.selectedParams[w].params);
  }
}
