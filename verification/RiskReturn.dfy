/** Return and risk metrics of a price series. */
module RiskReturn {
  import opened Reals
  import opened LinearAlgebra
  import opened Arrangements
  import opened Outcome
  import opened Drawdown

  const VAR_QUANTILE := 0.05

  method ValidatePrices(prices: Vec) returns (e: Option<Error>)
    ensures |prices| < 2 ==> e.Some? && e.value.InsufficientData?
    ensures |prices| >= 2 && !Positive(prices) ==> e.Some? && e.value.InvalidPrices?
    ensures e.None? <==> |prices| >= 2 && Positive(prices)
  {
    if |prices| < 2 {
      return Some(InsufficientData("at least two close prices required"));
    }
    for i := 0 to |prices|
      invariant forall k :: 0 <= k < i ==> prices[k] > 0.0
    {
      if prices[i] <= 0.0 {
        return Some(InvalidPrices("price must be positive and finite"));
      }
    }
    return None;
  }

  // ---------- returns compound to prices ----------

  function Returns(prices: Vec): (r: Vec)
    requires |prices| > 0 && forall i :: 0 <= i < |prices| ==> prices[i] != 0.0
    ensures |r| == |prices| - 1
  {
    seq(|prices| - 1, i requires 0 <= i < |prices| - 1 => prices[i + 1] / prices[i] - 1.0)
  }

  method ComputeReturns(prices: Vec) returns (r: Vec)
    requires |prices| > 0 && forall i :: 0 <= i < |prices| ==> prices[i] != 0.0
    ensures r == Returns(prices)
  {
    r := [];
    for i := 1 to |prices|
      invariant r == Returns(prices)[..i - 1]
    {
      r := r + [prices[i] / prices[i - 1] - 1.0];
    }
  }

  function Grown(equity: real, r: real): real { equity * (1.0 + r) }

  /** What `start` grows to over the first `k` returns. */
  function Compound(start: real, rs: Vec, k: nat): real
    requires k <= |rs|
  {
    if k == 0 then start else Grown(Compound(start, rs, k - 1), rs[k - 1])
  }

  method CumulativeReturn(rs: Vec) returns (total: real)
    ensures total == Compound(1.0, rs, |rs|) - 1.0
  {
    var product := 1.0;
    for i := 0 to |rs|
      invariant product == Compound(1.0, rs, i)
    {
      product := Grown(product, rs[i]);
    }
    return product - 1.0;
  }

  /** The equity after each return. */
  function Path(start: real, rs: Vec): (e: Vec)
    ensures |e| == |rs|
  {
    seq(|rs|, i requires 0 <= i < |rs| => Compound(start, rs, i + 1))
  }

  lemma TelescopeStep(p: real, q: real, first: real, grown: real, r: real)
    requires p != 0.0 && first != 0.0 && grown == p / first && r == q / p - 1.0
    ensures grown * (1.0 + r) == q / first
  {
  }

  /** Compounding a price series' returns telescopes to the ratio of its prices. */
  lemma {:induction false} Telescopes(prices: Vec, k: nat)
    requires Positive(prices) && k < |prices|
    ensures Compound(1.0, Returns(prices), k) == prices[k] / prices[0]
  {
    if k > 0 {
      Telescopes(prices, k - 1);
      TelescopeStep(prices[k - 1], prices[k], prices[0], Compound(1.0, Returns(prices), k - 1), Returns(prices)[k - 1]);
    }
  }

  /** The cumulative return of a price series depends on its first and last price only. */
  lemma CumulativeIsEndToEnd(prices: Vec)
    requires Positive(prices) && |prices| > 0
    ensures Compound(1.0, Returns(prices), |prices| - 1) - 1.0 == prices[|prices| - 1] / prices[0] - 1.0
  {
    Telescopes(prices, |prices| - 1);
  }

  // ---------- drawdown ----------

  /** The loop keeps its own equity; its peak starts at 1, so it never divides by zero. */
  method MaxDrawdownOfReturns(rs: Vec) returns (dd: real)
    ensures dd == MaxDrawdown(Path(1.0, rs), 1.0)
  {
    hide Grown;
    var equity, peak, worst := 1.0, 1.0, 0.0;
    for i := 0 to |rs|
      invariant equity == Compound(1.0, rs, i)
      invariant peak == PeakTo(Path(1.0, rs), 1.0, i) >= 1.0
      invariant worst == WorstTo(Path(1.0, rs), 1.0, i)
    {
      equity := Grown(equity, rs[i]);
      if equity > peak {
        peak := equity;
      }
      var fall := (peak - equity) / peak;
      if fall > worst {
        worst := fall;
      }
    }
    dd := -worst;
  }

  lemma RelativeFall(a: real, b: real, c: real)
    requires a > 0.0 && c > 0.0
    ensures a / c > 0.0 && (a / c - b / c) / (a / c) == (a - b) / a
  {
  }

  /** The equity path of a price series is the prices themselves, counted in units of the first. */
  lemma PathIsRelative(prices: Vec)
    requires Positive(prices) && |prices| > 0
    ensures var e := [1.0] + Path(1.0, Returns(prices));
            |e| == |prices| && forall k :: 0 <= k < |prices| ==> e[k] == prices[k] / prices[0] > 0.0
  {
    forall k | 0 <= k < |prices|
      ensures ([1.0] + Path(1.0, Returns(prices)))[k] == prices[k] / prices[0] > 0.0
    {
      Telescopes(prices, k);
      DivSign(prices[k], prices[0]);
    }
  }

  /** Compounding the returns and scanning once finds the worst fall between any two prices; it is never a total
      loss. */
  lemma DrawdownIsWorstFall(prices: Vec)
    requires Positive(prices) && |prices| > 0
    ensures var dd := MaxDrawdown(Path(1.0, Returns(prices)), 1.0);
            IsWorstFall(prices, -dd, |prices|) && -1.0 < dd <= 0.0
  {
    hide Path, Returns, WorstTo, PeakTo;
    var path, n := Path(1.0, Returns(prices)), |prices|;
    var e := [1.0] + path;
    PathIsRelative(prices);
    OnePassIsPairwise(e, n);
    StartInFront(path, 1.0, n - 1);
    forall i, j | 0 <= i < n && 0 <= j < n ensures Fall(e, i, j) == Fall(prices, i, j) {
      RelativeFall(prices[i], prices[j], prices[0]);
    }
    var w := WorstTo(e, 0.0, n);
    var i, j :| 0 <= i <= j < n && Fall(e, i, j) == w;
    assert Fall(prices, i, j) == w;
  }

  // ---------- value at risk ----------

  method HistoricalVaR(rs: Vec, quantile: real) returns (v: Option<real>)
    requires quantile >= 0.0
    ensures v.None? <==> |rs| == 0
    ensures v.Some? ==> IsOrderStatistic(rs, QuantileIndex(quantile, |rs|), v.value)
  {
    if |rs| == 0 {
      return None;
    }
    var sorted := Sort(rs);
    var k := QuantileIndex(quantile, |rs|);
    SortedPlace(rs, sorted, k);
    return Some(sorted[k]);
  }

  function TailSum(rs: Vec, v: real): real {
    if |rs| == 0 then 0.0 else TailSum(rs[..|rs| - 1], v) + if rs[|rs| - 1] <= v then rs[|rs| - 1] else 0.0
  }

  lemma TailSteps(rs: Vec, i: nat, v: real)
    requires i <= |rs|
    ensures forall w :: TailSum(rs[..0], w) == 0.0 && Count(rs[..0], AtMost(w)) == 0
    ensures i < |rs| ==>
              && TailSum(rs[..i + 1], v) == TailSum(rs[..i], v) + (if rs[i] <= v then rs[i] else 0.0)
              && Count(rs[..i + 1], AtMost(v)) == Count(rs[..i], AtMost(v)) + if rs[i] <= v then 1 else 0
  {
    if i < |rs| { assert rs[..i + 1][..i] == rs[..i]; }
  }

  /** The mean of the returns that are no better than the value at risk. */
  method HistoricalCVaR(rs: Vec, quantile: real) returns (c: Option<real>, ghost v: real)
    requires quantile >= 0.0
    ensures c.None? <==> |rs| == 0
    ensures c.Some? ==> IsOrderStatistic(rs, QuantileIndex(quantile, |rs|), v)
    ensures c.Some? ==> c.value * (Count(rs, AtMost(v)) as real) == TailSum(rs, v) && c.value <= v
  {
    hide IsOrderStatistic, QuantileIndex, TailSum, Count;
    TailSteps(rs, 0, 0.0);
    var at := HistoricalVaR(rs, quantile);
    if at.None? {
      return None, 0.0;
    }
    v := at.value;
    var sum, count := 0.0, 0;
    for i := 0 to |rs|
      invariant sum == TailSum(rs[..i], v) && count == Count(rs[..i], AtMost(v))
    {
      TailSteps(rs, i, v);
      if rs[i] <= at.value {
        sum, count := sum + rs[i], count + 1;
      }
    }
    assert rs[..|rs|] == rs;
    if count == 0 {
      return None, v;
    }
    TailBelow(rs, v);
    c := Some(sum / (count as real));
    MeanBelow(sum, count as real, v);
  }

  lemma MeanBelow(sum: real, n: real, v: real)
    requires n > 0.0 && sum <= v * n
    ensures sum / n * n == sum && sum / n <= v
  {
  }

  lemma {:induction false} TailBelow(rs: Vec, v: real)
    ensures TailSum(rs, v) <= v * (Count(rs, AtMost(v)) as real)
  {
    if |rs| > 0 {
      TailBelow(rs[..|rs| - 1], v);
      var n := Count(rs[..|rs| - 1], AtMost(v));
      assert v * ((n + 1) as real) == v * (n as real) + v;
    }
  }

  function HeadSum(rs: Vec, v: real): real {
    if |rs| == 0 then 0.0 else HeadSum(rs[..|rs| - 1], v) + if rs[|rs| - 1] > v then rs[|rs| - 1] else 0.0
  }

  /** The tail and the returns above it make up all of them, and what is above it is that: nothing in the tail exceeds
      v. */
  lemma {:induction false} TailSplits(rs: Vec, v: real, k: nat)
    requires k <= |rs|
    ensures TailSum(rs[..k], v) + HeadSum(rs[..k], v) == SumTo(rs, k)
    ensures (forall i :: 0 <= i < k ==> rs[i] <= v) ==> HeadSum(rs[..k], v) == 0.0
    ensures (forall i :: 0 <= i < k ==> rs[i] > v) ==> TailSum(rs[..k], v) == 0.0
  {
    if k > 0 {
      TailSplits(rs, v, k - 1);
      assert rs[..k][..k - 1] == rs[..k - 1];
    }
  }

  // ---------- the metrics of a price series ----------

  /** The metrics that need no annualisation. */
  datatype PriceRisk = PriceRisk(cumulativeReturn: real, maxDrawdown: real, var95: real, cvar95: real)

  method CalculateRisk(prices: Vec) returns (r: Result<PriceRisk>)
    ensures |prices| < 2 ==> r.Failure? && r.error.InsufficientData?
    ensures |prices| >= 2 && !Positive(prices) ==> r.Failure? && r.error.InvalidPrices?
    ensures r.Success? <==> |prices| >= 2 && Positive(prices)
    ensures r.Success? ==> r.value.cumulativeReturn == prices[|prices| - 1] / prices[0] - 1.0
    ensures r.Success? ==> IsWorstFall(prices, -r.value.maxDrawdown, |prices|) && -1.0 < r.value.maxDrawdown <= 0.0
    ensures r.Success? ==>
              IsOrderStatistic(Returns(prices), QuantileIndex(0.05, |prices| - 1), r.value.var95)
    ensures r.Success? ==>
              r.value.cvar95 * (Count(Returns(prices), AtMost(r.value.var95)) as real)
                == TailSum(Returns(prices), r.value.var95)
    ensures r.Success? ==> r.value.cvar95 <= r.value.var95
  {
    hide Returns, IsWorstFall, Path, IsOrderStatistic, QuantileIndex, Count, TailSum, MaxDrawdown, Compound, AtMost;
    var invalid := ValidatePrices(prices);
    if invalid.Some? {
      return Failure(invalid.value);
    }
    var rs := ComputeReturns(prices);
    var cumulative := CumulativeReturn(rs);
    CumulativeIsEndToEnd(prices);
    var drawdown := MaxDrawdownOfReturns(rs);
    DrawdownIsWorstFall(prices);
    var at := HistoricalVaR(rs, VAR_QUANTILE);
    var tail, v := HistoricalCVaR(rs, VAR_QUANTILE);
    OrderStatisticUnique(rs, QuantileIndex(VAR_QUANTILE, |rs|), at.value, v);
    return Success(PriceRisk(cumulative, drawdown, at.value, tail.value));
  }
}
