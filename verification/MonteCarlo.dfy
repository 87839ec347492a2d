/** Monte Carlo resampling: reshuffle a return series many times and report intervals. */
module MonteCarlo {
  import opened Reals
  import opened LinearAlgebra
  import opened Arrangements
  import opened Engine
  import opened Drawdown
  import opened RiskReturn

  const MAX_SIMULATIONS: nat := 100000

  datatype ConfidenceInterval = ConfidenceInterval(lower: real, upper: real)

  datatype MonteCarloResult = MonteCarloResult(
    simulations: nat, finalEquity: ConfidenceInterval, maxDrawdown: ConfidenceInterval, initialCapital: real)

  /** The number of simulations a simulator keeps of what it was asked for. */
  function Clamped(simulations: int): nat {
    if simulations < 0 then 0 else if simulations > MAX_SIMULATIONS then MAX_SIMULATIONS else simulations
  }

  method SimulatePath(rs: Vec, initial: real) returns (equity: real, dd: real)
    ensures equity == Compound(initial, rs, |rs|) && dd == MaxDrawdown(Path(initial, rs), initial)
  {
    hide Grown;
    equity := initial;
    var peak, worst := equity, 0.0;
    for i := 0 to |rs|
      invariant equity == Compound(initial, rs, i)
      invariant peak == PeakTo(Path(initial, rs), initial, i) && worst == WorstTo(Path(initial, rs), initial, i)
    {
      equity := Grown(equity, rs[i]);
      if equity > peak {
        peak := equity;
      }
      if peak > 0.0 {
        var fall := (peak - equity) / peak;
        if fall > worst {
          worst := fall;
        }
      }
    }
    dd := -worst;
  }

  method Percentile(values: Vec, quantile: real) returns (v: real)
    requires quantile >= 0.0
    ensures v == if |values| == 0 then 0.0 else values[QuantileIndex(quantile, |values|)]
  {
    if |values| == 0 {
      return 0.0;
    }
    var x := quantile * ((|values| - 1) as real) + 0.5;
    RoundedNonNegative(quantile, (|values| - 1) as real);
    var index := x.Floor;
    if index >= |values| {
      index := |values| - 1;
    }
    return values[index];
  }

  // ---------- what a shuffle cannot change ----------

  lemma {:induction false} CompoundPrefix(start: real, rs: Vec, m: nat, k: nat)
    requires k <= m <= |rs|
    ensures Compound(start, rs[..m], k) == Compound(start, rs, k)
  {
    if k > 0 { CompoundPrefix(start, rs, m, k - 1); }
  }

  lemma GrownCommute(e: real, a: real, b: real)
    ensures Grown(Grown(e, a), b) == Grown(Grown(e, b), a)
  {
  }

  /** A return may be taken out and compounded last. */
  lemma {:induction false} CompoundRemove(start: real, rs: Vec, j: nat)
    requires j < |rs|
    ensures Compound(start, rs, |rs|) == Grown(Compound(start, rs[..j] + rs[j + 1..], |rs| - 1), rs[j])
  {
    hide Grown;
    var last := |rs| - 1;
    var rest := rs[..j] + rs[j + 1..];
    CompoundPrefix(start, rs, last, last);
    if j == last {
      assert rest == rs[..last];
    } else {
      CompoundRemove(start, rs[..last], j);
      assert rest[..last - 1] == rs[..last][..j] + rs[..last][j + 1..];
      CompoundPrefix(start, rest, last - 1, last - 1);
      GrownCommute(Compound(start, rest, last - 1), rs[j], rs[last]);
    }
  }

  /** Final equity does not depend on the order of the returns. */
  lemma {:induction false} CompoundArranged(start: real, a: Vec, b: Vec)
    requires multiset(a) == multiset(b)
    ensures |a| == |b| && Compound(start, a, |a|) == Compound(start, b, |b|)
  {
    SameLength(a, b);
    if |a| > 0 {
      var last := |a| - 1;
      var j := FindLast(a, b);
      CompoundArranged(start, a[..last], b[..j] + b[j + 1..]);
      CompoundPrefix(start, a, last, last);
      CompoundRemove(start, b, j);
    }
  }

  lemma {:induction false} WorstNonNegative(e: Vec, start: real, k: nat)
    requires k <= |e|
    ensures WorstTo(e, start, k) >= 0.0
  {
    if k > 0 { WorstNonNegative(e, start, k - 1); }
  }

  // ---------- the simulations ----------

  function Drawdowns(shuffles: seq<Vec>, initial: real): (r: Vec)
    ensures |r| == |shuffles|
  {
    seq(|shuffles|, i requires 0 <= i < |shuffles| => MaxDrawdown(Path(initial, shuffles[i]), initial))
  }

  ghost predicate AllShuffles(rs: Vec, shuffles: seq<Vec>) {
    forall i :: 0 <= i < |shuffles| ==> multiset(shuffles[i]) == multiset(rs)
  }

  lemma QuantilesOrdered(n: nat)
    requires n > 0
    ensures QuantileIndex(0.05, n) <= QuantileIndex(0.95, n)
  {
  }

  /** What resampling reports: every shuffle ends at the same equity, so its interval is that one value; the ends of the
      drawdown interval are order statistics of the simulated drawdowns, ordered and never positive. */
  ghost predicate Resampled(r: MonteCarloResult, simulations: nat, rs: Vec, initial: real, shuffles: seq<Vec>)
    requires |shuffles| == simulations
  {
    var equity := if simulations == 0 then initial else Compound(initial, rs, |rs|);
    && r.simulations == simulations && r.initialCapital == initial
    && r.finalEquity == ConfidenceInterval(equity, equity)
    && r.maxDrawdown.lower <= r.maxDrawdown.upper <= 0.0
    && (|rs| == 0 || simulations == 0 ==> r.maxDrawdown == ConfidenceInterval(0.0, 0.0))
    && (|rs| > 0 && simulations > 0 ==>
          && IsOrderStatistic(Drawdowns(shuffles, initial), QuantileIndex(0.05, simulations), r.maxDrawdown.lower)
          && IsOrderStatistic(Drawdowns(shuffles, initial), QuantileIndex(0.95, simulations), r.maxDrawdown.upper))
  }

  lemma NothingCompounds(initial: real, rs: Vec)
    ensures |rs| == 0 ==> Compound(initial, rs, |rs|) == initial
  {
  }

  lemma AllEqual(values: Vec, sorted: Vec, x: real)
    requires multiset(sorted) == multiset(values) && forall k :: 0 <= k < |values| ==> values[k] == x
    ensures forall k :: 0 <= k < |sorted| ==> sorted[k] == x
  {
    forall k | 0 <= k < |sorted| ensures sorted[k] == x {
      assert sorted[k] in multiset(sorted);
      assert sorted[k] in values;
    }
  }

  lemma NonePositive(shuffles: seq<Vec>, initial: real, drawdowns: Vec, sorted: Vec)
    requires drawdowns == Drawdowns(shuffles, initial) && multiset(sorted) == multiset(drawdowns)
    ensures forall k :: 0 <= k < |sorted| ==> sorted[k] <= 0.0
  {
    forall k | 0 <= k < |sorted| ensures sorted[k] <= 0.0 {
      assert sorted[k] in multiset(sorted);
      assert sorted[k] in drawdowns;
      var i :| 0 <= i < |drawdowns| && drawdowns[i] == sorted[k];
      WorstNonNegative(Path(initial, shuffles[i]), initial, |shuffles[i]|);
    }
  }

  // ---------- resampling trades ----------

  function TradeReturn(t: Trade): real {
    var cost := t.entryPrice * t.quantity;
    if cost == 0.0 then 0.0 else t.pnl / cost
  }

  function TradeReturns(trades: seq<Trade>): (r: Vec)
    ensures |r| == |trades|
  {
    seq(|trades|, i requires 0 <= i < |trades| => TradeReturn(trades[i]))
  }

  lemma NoCost(t: Trade)
    requires t.entryPrice * t.quantity == 0.0
    ensures TradeReturn(t) == 0.0
  {
  }

  lemma Cost(t: Trade, cost: real)
    requires cost == t.entryPrice * t.quantity && cost != 0.0
    ensures TradeReturn(t) == t.pnl / cost
  {
  }

  /** `shuffles` are the orders in which the generator puts the returns, one per simulation. */
  class Simulator {
    const simulations: nat

    /** Keeps the requested number of simulations, within bounds. */
    constructor (requested: int)
      ensures simulations == Clamped(requested)
      ensures 0 <= requested <= 100000 ==> simulations == requested
      ensures requested < 0 ==> simulations == 0
      ensures requested > 100000 ==> simulations == 100000
    {
      var kept := if requested < 0 then 0 else requested;
      if kept > MAX_SIMULATIONS {
        kept := MAX_SIMULATIONS;
      }
      simulations := kept;
    }

    method FromReturns(rs: Vec, initial: real, shuffles: seq<Vec>) returns (r: MonteCarloResult)
      requires |shuffles| == simulations && AllShuffles(rs, shuffles)
      ensures Resampled(r, simulations, rs, initial, shuffles)
    {
      hide IsOrderStatistic, QuantileIndex, Compound;
      if |rs| == 0 || simulations == 0 {
        NothingCompounds(initial, rs);
        var whole := ConfidenceInterval(initial, initial);
        return MonteCarloResult(simulations, whole, ConfidenceInterval(0.0, 0.0), initial);
      }
      var equities, drawdowns: Vec := [], [];
      for i := 0 to simulations
        invariant |equities| == i && forall k :: 0 <= k < i ==> equities[k] == Compound(initial, rs, |rs|)
        invariant drawdowns == Drawdowns(shuffles, initial)[..i]
      {
        var equity, dd := SimulatePath(shuffles[i], initial);
        CompoundArranged(initial, rs, shuffles[i]);
        equities, drawdowns := equities + [equity], drawdowns + [dd];
      }
      var sortedEquities := Sort(equities);
      var sortedDrawdowns := Sort(drawdowns);
      AllEqual(equities, sortedEquities, Compound(initial, rs, |rs|));
      QuantilesOrdered(simulations);
      SortedPlace(drawdowns, sortedDrawdowns, QuantileIndex(0.05, simulations));
      SortedPlace(drawdowns, sortedDrawdowns, QuantileIndex(0.95, simulations));
      NonePositive(shuffles, initial, drawdowns, sortedDrawdowns);
      var lowEquity := Percentile(sortedEquities, 0.05);
      var highEquity := Percentile(sortedEquities, 0.95);
      var low := Percentile(sortedDrawdowns, 0.05);
      var high := Percentile(sortedDrawdowns, 0.95);
      var equity, drawdown := ConfidenceInterval(lowEquity, highEquity), ConfidenceInterval(low, high);
      return MonteCarloResult(simulations, equity, drawdown, initial);
    }

    method FromTrades(trades: seq<Trade>, initial: real, shuffles: seq<Vec>) returns (r: MonteCarloResult)
      requires |shuffles| == simulations && AllShuffles(TradeReturns(trades), shuffles)
      ensures Resampled(r, simulations, TradeReturns(trades), initial, shuffles)
    {
      hide Compound, TradeReturn, Resampled;
      var rs: Vec := [];
      for i := 0 to |trades|
        invariant |rs| == i && forall k :: 0 <= k < i ==> rs[k] == TradeReturn(trades[k])
      {
        var cost := trades[i].entryPrice * trades[i].quantity;
        if cost == 0.0 {
          NoCost(trades[i]);
          rs := rs + [0.0];
        } else {
          Cost(trades[i], cost);
          rs := rs + [trades[i].pnl / cost];
        }
      }
      assert rs == TradeReturns(trades);
      r := FromReturns(rs, initial, shuffles);
    }
  }

  // ---------- how bad a simulated drawdown can be ----------

  lemma {:induction false} PathPositive(initial: real, rs: Vec, k: nat)
    requires initial > 0.0 && k <= |rs| && forall i :: 0 <= i < |rs| ==> rs[i] > -1.0
    ensures Compound(initial, rs, k) > 0.0
  {
    if k > 0 {
      PathPositive(initial, rs, k - 1);
      ProductPositive(Compound(initial, rs, k - 1), 1.0 + rs[k - 1], Compound(initial, rs, k));
    }
  }

  /** While no return loses everything, a simulated drawdown is the worst fall along its path and never total. */
  lemma SimulatedDrawdown(initial: real, rs: Vec)
    requires initial > 0.0 && forall i :: 0 <= i < |rs| ==> rs[i] > -1.0
    ensures var e := [initial] + Path(initial, rs);
            Positive(e) && IsWorstFall(e, -MaxDrawdown(Path(initial, rs), initial), |e|)
            && -1.0 < MaxDrawdown(Path(initial, rs), initial)
  {
    hide IsWorstFall, WorstTo, Compound;
    var e := [initial] + Path(initial, rs);
    forall i | 0 <= i < |e| ensures e[i] > 0.0 {
      if i > 0 { PathPositive(initial, rs, i); }
    }
    StartInFront(Path(initial, rs), initial, |rs|);
    OnePassIsPairwise(e, |e|);
  }
}
