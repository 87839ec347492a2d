/** Concrete inputs on which the code misses what its names promise: a max_sharpe portfolio and a Black-Litterman one
    that are not the best, volatility targets inside the attainable range that are not met, risk-parity weights of
    uneven risk, and a backtest that reports negative equity. */
module Shortfalls {
  import opened Reals
  import opened LinearAlgebra
  import opened Outcome
  import opened Market
  import opened Inverse
  import opened Covariance
  import opened TwoFunds
  import opened MaxSharpe
  import opened MeanVariance
  import opened Posterior
  import opened BlackLitterman
  import opened Strategies
  import opened Engine
  import RiskParity

  function TwoConstant(a: real, b: real): (r: Mat)
    ensures IsMat(r, 2, 2)
  {
    [[a, a], [b, b]]
  }

  function Diagonals(a: real, b: real): (r: Mat)
    ensures IsMat(r, 2, 2)
  {
    [[a, 0.0], [0.0, b]]
  }

  function Diagonal(d: real): (r: Mat)
    ensures IsMat(r, 2, 2)
  {
    Diagonals(d, d)
  }

  lemma SumOfTwo(v: Vec)
    requires |v| == 2
    ensures Sum(v) == v[0] + v[1]
  {
    assert SumTo(v, 2) == SumTo(v, 1) + v[1] && SumTo(v, 1) == SumTo(v, 0) + v[0];
  }

  lemma DotOfTwo(a: Vec, b: Vec)
    requires |a| == |b| == 2
    ensures Dot(a, b) == a[0] * b[0] + a[1] * b[1]
  {
    assert DotTo(a, b, 2) == DotTo(a, b, 1) + a[1] * b[1] && DotTo(a, b, 1) == DotTo(a, b, 0) + a[0] * b[0];
  }

  /** Two assets that never move have only the ridge as covariance. */
  lemma ConstantSeries(a: real, b: real)
    ensures var r := TwoConstant(a, b);
            IsMat(r, 2, 2) && Means(r) == [a, b] && Sigma(r) == Diagonal(COV_RIDGE)
  {
    var r := TwoConstant(a, b);
    SumOfTwo(r[0]);
    SumOfTwo(r[1]);
    assert MeanOf(r[0]) == a && MeanOf(r[1]) == b;
    var c := Centered(r, 2);
    assert c[0] == [0.0, 0.0] && c[1] == [0.0, 0.0];
    DotOfTwo([0.0, 0.0], [0.0, 0.0]);
    var cov := SampleCov(c, 2);
    assert cov[0] == [0.0, 0.0] && cov[1] == [0.0, 0.0];
    assert Ridged(cov)[0] == [COV_RIDGE, 0.0] && Ridged(cov)[1] == [0.0, COV_RIDGE];
  }

  lemma DiagonalsTimes(a: real, b: real, x: Vec)
    requires |x| == 2
    ensures MatVec(Diagonals(a, b), x) == [a * x[0], b * x[1]]
  {
    var s := Diagonals(a, b);
    DotOfTwo(s[0], x);
    DotOfTwo(s[1], x);
    var y := MatVec(s, x);
    assert y[0] == a * x[0] && y[1] == b * x[1];
  }

  lemma DiagonalForm(d: real, x: Vec)
    requires |x| == 2
    ensures IsMat(Diagonal(d), 2, 2) && MatVec(Diagonal(d), x) == [d * x[0], d * x[1]]
    ensures Quad(Diagonal(d), x) == d * (x[0] * x[0] + x[1] * x[1])
  {
    DiagonalsTimes(d, d, x);
    DotOfTwo(x, [d * x[0], d * x[1]]);
  }

  /** With equal, uncorrelated risks the minimum-variance fund splits evenly. */
  lemma EvenSplit(d: real, mv: Vec)
    requires d > 0.0 && IsMat(Diagonal(d), 2, 2) && IsMinVariance(Diagonal(d), mv)
    ensures mv == [0.5, 0.5] && Quad(Diagonal(d), mv) == d / 2.0
  {
    hide MatVec, Quad, Diagonal;
    DiagonalForm(d, mv);
    SumOfTwo(mv);
    var q := Quad(Diagonal(d), mv);
    assert Scale(q, Ones(2))[0] == q * 1.0 && Scale(q, Ones(2))[1] == q * 1.0;
    assert d * mv[0] == d * mv[1];
    FactorSign(d, mv[0] - mv[1], d * (mv[0] - mv[1]));
  }

  lemma TangencyOfTwo(d: real, a: real, b: real, ratio: real, ms: Vec)
    requires d > 0.0 && a + b > 0.0 && IsTangency(Diagonal(d), [a, b], ratio, ms)
    ensures |ms| == 2 && ms[0] * (a + b) == a && ms[1] * (a + b) == b
  {
    hide MatVec, Diagonal;
    DiagonalForm(d, ms);
    SumOfTwo(ms);
    var y := MatVec(Diagonal(d), ms);
    assert Scale(ratio, y)[0] == ratio * (d * ms[0]) && Scale(ratio, y)[1] == ratio * (d * ms[1]);
    var r := ratio * d;
    assert r * ms[0] == a && r * ms[1] == b;
    assert r * (ms[0] + ms[1]) == a + b;
    assert r == a + b;
  }

  /** The raw weights of two such assets sum to (a + b) / d. */
  lemma SumKOfTwo(d: real, a: real, b: real, mv: Vec)
    requires d > 0.0 && IsMinVariance(Diagonal(d), mv)
    ensures mv == [0.5, 0.5] && Quad(Diagonal(d), mv) == d / 2.0 > 0.0 && SumK(Diagonal(d), [a, b], mv) == (a + b) / d
  {
    hide MatVec, Quad, Diagonal;
    EvenSplit(d, mv);
    DotOfTwo(mv, [a, b]);
    HalvesCancel(a + b, d);
  }

  lemma HalvesCancel(x: real, d: real)
    requires d > 0.0
    ensures x / 2.0 / (d / 2.0) == x / d
  {
    var q, r := x / 2.0 / (d / 2.0), x / d;
    assert q * (d / 2.0) == x / 2.0 && r * d == x;
    FactorSign(d, q - r, d * (q - r));
  }

  /** Two equal, uncorrelated risks below 1e12 are not too risky to be optimised. */
  lemma NotTooRisky(d: real)
    requires 0.0 < d <= 1e12
    ensures !TooRisky(Diagonal(d))
  {
    DiagonalForm(d, [0.5, 0.5]);
    SumOfTwo([0.5, 0.5]);
    assert FullyInvested([0.5, 0.5], 2);
  }

  /** Two such series make a request that is served. */
  lemma Served(rets: Mat, a: real, b: real, d: real)
    requires |rets| == 2 && |rets[0]| >= 2 && IsMat(rets, 2, |rets[0]|)
    requires Means(rets) == [a, b] && 0.0 < d <= 1e12 && Sigma(rets) == Diagonal(d)
    ensures ValidReturns(rets, LABELS) && PositiveDefinite(Sigma(rets)) && !TooRisky(Sigma(rets))
    ensures Excess(Means(rets), 0.0) == [a, b]
  {
    hide TooRisky, Diagonal, Sigma, PositiveDefinite, Means;
    NotTooRisky(d);
    SigmaPositiveDefinite(rets);
  }

  const LABELS: seq<string> := ["first", "second"]

  // ---------- a max_sharpe portfolio that is not the best ----------

  /** Two assets that lose 1% and 2%, never moving. */
  const LOSERS: Request := Request(TwoConstant(-0.01, -0.02), LABELS, 0.0, "max_sharpe", None, None)

  /** The request is served, and some portfolio has a better Sharpe ratio than the one reported. */
  lemma MaxSharpeMisses(sqrt: real -> real, p: Portfolio)
    requires IsSqrt(sqrt)
    ensures ValidRequest(LOSERS) && !TooRisky(Sigma(LOSERS.series)) && PositiveDefinite(Sigma(LOSERS.series))
    ensures Delivered(LOSERS, sqrt, p) ==>
              exists x: Vec :: FullyInvested(x, 2)
                && Sharpe(sqrt, Sigma(LOSERS.series), Excess(Means(LOSERS.series), 0.0), x) > p.sharpeRatio
  {
    hide MatVec, Quad, Diagonal, IsSqrt, PositiveDefinite, IsTangency, Means, Sigma, Sharpe, TooRisky, IsMinVariance,
         Excess;
    var s, e := Diagonal(COV_RIDGE), [-0.01, -0.02];
    LosersValid();
    if Delivered(LOSERS, sqrt, p) {
      var mv, ms := DeliveredFunds(LOSERS, sqrt, p);
      SumKOfTwo(COV_RIDGE, -0.01, -0.02, mv);
      MaxSharpePromise(LOSERS, sqrt, p, mv, ms);
    }
  }

  lemma LosersValid()
    ensures ValidRequest(LOSERS) && Sigma(LOSERS.series) == Diagonal(COV_RIDGE) && !TooRisky(Sigma(LOSERS.series))
    ensures PositiveDefinite(Sigma(LOSERS.series)) && Excess(Means(LOSERS.series), 0.0) == [-0.01, -0.02]
  {
    hide TooRisky, Diagonal, Sigma, Means, PositiveDefinite, ValidReturns, Excess;
    ConstantSeries(-0.01, -0.02);
    Served(LOSERS.series, -0.01, -0.02, COV_RIDGE);
  }

  /** The two funds behind a delivered portfolio. */
  lemma DeliveredFunds(req: Request, sqrt: real -> real, p: Portfolio) returns (mv: Vec, ms: Vec)
    requires IsSqrt(sqrt) && ValidRequest(req) && Delivered(req, sqrt, p)
    ensures Funds(Sigma(req.series), Excess(Means(req.series), req.riskFreeRate), mv, ms)
    ensures |mv| == |ms| == |req.series|
  {
    hide Funds, OnTarget, Sigma, Means, Efficient, Excess;
    SigmaPositiveDefinite(req.series);
    var s, means := Sigma(req.series), Means(req.series);
    mv, ms :| |mv| == |ms| == |s| && Funds(s, Excess(means, req.riskFreeRate), mv, ms)
              && OnTarget(req, sqrt, s, means, mv, ms, WeightsOf(p, req.labels));
  }

  // ---------- volatility targets that are missed ----------

  /** Two assets that earn 1.01% and 1%, never moving, and a target inside the range of their funds' volatilities. */
  const STILL: Request := Request(TwoConstant(0.0101, 0.01), LABELS, 0.0, "target_volatility", None, Some(0.000070711))

  /** Two assets swinging by 200% that earn almost the same, and a target inside the range. */
  const SWINGING: Request :=
    Request(TwoSwinging(0.010000008, 0.009999992), LABELS, 0.0, "target_volatility", None, Some(1.6329931633866))

  function TwoSwinging(a: real, b: real): (r: Mat)
    ensures IsMat(r, 2, 4)
  {
    [[a + 2.0, a - 2.0, a + 2.0, a - 2.0], [b + 2.0, b + 2.0, b - 2.0, b - 2.0]]
  }

  const SWING: real := 16.0 / 3.0 + COV_RIDGE

  lemma SumOfFour(v: Vec)
    requires |v| == 4
    ensures Sum(v) == v[0] + v[1] + v[2] + v[3]
  {
    assert SumTo(v, 4) == SumTo(v, 3) + v[3] && SumTo(v, 3) == SumTo(v, 2) + v[2];
    assert SumTo(v, 2) == SumTo(v, 1) + v[1] && SumTo(v, 1) == SumTo(v, 0) + v[0];
  }

  lemma DotOfFour(a: Vec, b: Vec)
    requires |a| == |b| == 4
    ensures Dot(a, b) == a[0] * b[0] + a[1] * b[1] + a[2] * b[2] + a[3] * b[3]
  {
    assert DotTo(a, b, 4) == DotTo(a, b, 3) + a[3] * b[3] && DotTo(a, b, 3) == DotTo(a, b, 2) + a[2] * b[2];
    assert DotTo(a, b, 2) == DotTo(a, b, 1) + a[1] * b[1] && DotTo(a, b, 1) == DotTo(a, b, 0) + a[0] * b[0];
  }

  /** Out of step with each other, the two have equal variances and no covariance. */
  lemma SwingingSeries(a: real, b: real)
    ensures var r := TwoSwinging(a, b);
            Means(r) == [a, b] && Sigma(r) == Diagonal(SWING)
  {
    hide SumTo, DotTo;
    var r := TwoSwinging(a, b);
    SumOfFour(r[0]);
    SumOfFour(r[1]);
    assert MeanOf(r[0]) == a && MeanOf(r[1]) == b;
    var c := Centered(r, 4);
    var x, y := [2.0, -2.0, 2.0, -2.0], [2.0, 2.0, -2.0, -2.0];
    assert c[0] == x && c[1] == y;
    DotOfFour(x, x);
    DotOfFour(x, y);
    DotOfFour(y, x);
    DotOfFour(y, y);
    var cov := SampleCov(c, 4);
    assert cov[0] == [16.0 / 3.0, 0.0] && cov[1] == [0.0, 16.0 / 3.0];
    assert Ridged(cov)[0] == [SWING, 0.0] && Ridged(cov)[1] == [0.0, SWING];
  }

  lemma StillValid()
    ensures ValidRequest(STILL) && Sigma(STILL.series) == Diagonal(COV_RIDGE) && !TooRisky(Sigma(STILL.series))
    ensures PositiveDefinite(Sigma(STILL.series)) && Excess(Means(STILL.series), 0.0) == [0.0101, 0.01]
  {
    hide TooRisky, Diagonal, Sigma, Means, PositiveDefinite, ValidReturns, Excess;
    ConstantSeries(0.0101, 0.01);
    Served(STILL.series, 0.0101, 0.01, COV_RIDGE);
  }

  lemma SwingingValid()
    ensures ValidRequest(SWINGING) && Sigma(SWINGING.series) == Diagonal(SWING) && !TooRisky(Sigma(SWINGING.series))
    ensures PositiveDefinite(Sigma(SWINGING.series))
            && Excess(Means(SWINGING.series), 0.0) == [0.010000008, 0.009999992]
  {
    hide TooRisky, Diagonal, Sigma, Means, PositiveDefinite, ValidReturns, Excess;
    SwingingSeries(0.010000008, 0.009999992);
    Served(SWINGING.series, 0.010000008, 0.009999992, SWING);
  }

  /** The portfolios whose volatilities bound the range: the even split and the one in proportion to the returns. */
  ghost predicate StrictlyInside(req: Request, sqrt: real -> real, x: Vec)
    requires IsSqrt(sqrt) && ValidReturns(req.series, req.labels) && |req.series| == |x| == 2
             && req.targetVolatility.Some?
  {
    Vol(sqrt, Sigma(req.series), [0.5, 0.5]) < req.targetVolatility.value < Vol(sqrt, Sigma(req.series), x)
  }

  /** For two equal, uncorrelated risks the two funds are known, so an unreachable target inside the range is missed. */
  lemma UnreachableIsMissed(req: Request, sqrt: real -> real, p: Portfolio, d: real, a: real, b: real, x: Vec)
    requires IsSqrt(sqrt) && ValidRequest(req) && Delivered(req, sqrt, p) && req.objective == "target_volatility"
    requires 0.0 < d && Sigma(req.series) == Diagonal(d) && PositiveDefinite(Diagonal(d)) && |req.series| == 2
    requires Excess(Means(req.series), req.riskFreeRate) == [a, b] && a + b > 0.0 && (a + b) / d >= DEGENERACY_EPS
    requires |x| == 2 && x[0] * (a + b) == a && x[1] * (a + b) == b && StrictlyInside(req, sqrt, x)
    requires !VolatilityReachable(Vol(sqrt, Diagonal(d), [0.5, 0.5]), Vol(sqrt, Diagonal(d), x),
                                  Quad(Diagonal(d), [0.5, 0.5]), Quad(Diagonal(d), x), req.targetVolatility.value)
    ensures p.volatility != req.targetVolatility.value
  {
    hide MatVec, Quad, Diagonal, IsSqrt, PositiveDefinite, IsTangency, Means, Sigma, IsMinVariance, Excess, Vol,
         Delivered;
    var mv, ms := DeliveredFunds(req, sqrt, p);
    SumKOfTwo(d, a, b, mv);
    TangencyOfTwo(d, a, b, (a + b) / d, ms);
    SameShare(a + b, x[0], ms[0]);
    SameShare(a + b, x[1], ms[1]);
    assert ms == x;
    TargetVolatilityPromise(req, sqrt, p, mv, ms, Vol(sqrt, Diagonal(d), mv), Vol(sqrt, Diagonal(d), ms));
  }

  lemma SameShare(t: real, x: real, y: real)
    requires t > 0.0 && x * t == y * t
    ensures x == y
  {
    FactorSign(t, x - y, t * (x - y));
  }

  /** Variances less than 1e-12 apart: the request is served, the target lies inside the range, and it is missed. */
  lemma TargetVolatilityMisses(sqrt: real -> real, p: Portfolio)
    requires IsSqrt(sqrt)
    ensures ValidRequest(STILL) && !TooRisky(Sigma(STILL.series))
    ensures StrictlyInside(STILL, sqrt, [0.0101 / 0.0201, 0.01 / 0.0201])
    ensures Delivered(STILL, sqrt, p) ==> p.volatility != STILL.targetVolatility.value
  {
    hide MatVec, Quad, Diagonal, IsSqrt, PositiveDefinite, IsTangency, Means, Sigma, TooRisky, IsMinVariance, Excess,
         Vol, Delivered, ValidRequest;
    StillValid();
    var s, mv', ms' := Diagonal(COV_RIDGE), [0.5, 0.5], [0.0101 / 0.0201, 0.01 / 0.0201];
    DiagonalForm(COV_RIDGE, mv');
    DiagonalForm(COV_RIDGE, ms');
    VolSquared(sqrt, s, mv');
    VolSquared(sqrt, s, ms');
    StillSpread(Vol(sqrt, s, mv'), Vol(sqrt, s, ms'), Quad(s, mv'), Quad(s, ms'));
    if Delivered(STILL, sqrt, p) { UnreachableIsMissed(STILL, sqrt, p, COV_RIDGE, 0.0101, 0.01, ms'); }
  }

  lemma StillSpread(lo: real, hi: real, vlo: real, vhi: real)
    requires lo >= 0.0 && hi >= 0.0 && lo * lo == vlo == COV_RIDGE * (0.5 * 0.5 + 0.5 * 0.5)
    requires hi * hi == vhi == COV_RIDGE * (0.0101 / 0.0201 * (0.0101 / 0.0201) + 0.01 / 0.0201 * (0.01 / 0.0201))
    ensures lo < 0.000070711 < hi && !VolatilityReachable(lo, hi, vlo, vhi, 0.000070711)
  {
    var t := 0.000070711;
    SquareOrderOf(lo, t, vlo, t * t);
    SquareOrderOf(t, hi, t * t, vhi);
  }

  /** Variances more than 1e-12 apart but volatilities less: served, inside the range, and missed as well. */
  lemma TargetVolatilityMissesAgain(sqrt: real -> real, p: Portfolio)
    requires IsSqrt(sqrt)
    ensures ValidRequest(SWINGING) && !TooRisky(Sigma(SWINGING.series))
    ensures StrictlyInside(SWINGING, sqrt, [0.5000004, 0.4999996])
    ensures Quad(Sigma(SWINGING.series), [0.5000004, 0.4999996])
            - Quad(Sigma(SWINGING.series), [0.5, 0.5]) >= DEGENERACY_EPS
    ensures Delivered(SWINGING, sqrt, p) ==> p.volatility != SWINGING.targetVolatility.value
  {
    hide MatVec, Quad, Diagonal, IsSqrt, PositiveDefinite, IsTangency, Means, Sigma, TooRisky, IsMinVariance, Excess,
         Vol, Delivered, ValidRequest;
    SwingingValid();
    var s, mv', ms' := Diagonal(SWING), [0.5, 0.5], [0.5000004, 0.4999996];
    DiagonalForm(SWING, mv');
    DiagonalForm(SWING, ms');
    VolSquared(sqrt, s, mv');
    VolSquared(sqrt, s, ms');
    SwingingSpread(Vol(sqrt, s, mv'), Vol(sqrt, s, ms'), Quad(s, mv'), Quad(s, ms'));
    if Delivered(SWINGING, sqrt, p) { UnreachableIsMissed(SWINGING, sqrt, p, SWING, 0.010000008, 0.009999992, ms'); }
  }

  lemma SwingingSpread(lo: real, hi: real, vlo: real, vhi: real)
    requires lo >= 0.0 && hi >= 0.0 && lo * lo == vlo == SWING * (0.5 * 0.5 + 0.5 * 0.5)
    requires hi * hi == vhi == SWING * (0.5000004 * 0.5000004 + 0.4999996 * 0.4999996)
    ensures lo < 1.6329931633866 < hi && vhi - vlo >= DEGENERACY_EPS
    ensures !VolatilityReachable(lo, hi, vlo, vhi, 1.6329931633866)
  {
    var t := 1.6329931633866;
    SquareOrderOf(lo, t, vlo, t * t);
    SquareOrderOf(t, hi, t * t, vhi);
    SquareOrderOf(1.6, lo, 1.6 * 1.6, vlo);
    var top := lo + DEGENERACY_EPS;
    assert top * top == vlo + 2.0 * lo * DEGENERACY_EPS + DEGENERACY_EPS * DEGENERACY_EPS;
    SquareOrderOf(hi, top, vhi, top * top);
  }

  // ---------- a Black-Litterman portfolio that is the worst ----------

  /** Two assets that never move, and the view that the first will lose 2%. */
  const DOUBTED: BlackLittermanRequest :=
    BlackLittermanRequest(TwoConstant(0.0, 0.0), LABELS, [1.0, 1.0], [[1.0, 0.0]], [-0.02], 1.0, 1.0)

  lemma DiagonalsInverse(a: real, b: real, c: real, d: real)
    requires a * c == 1.0 && b * d == 1.0
    ensures IsInverse(Diagonals(a, b), Diagonals(c, d))
  {
    hide MatVec, Diagonals;
    UndoesDiagonals(a, b, c, d);
    UndoesDiagonals(c, d, a, b);
  }

  lemma UndoesDiagonals(a: real, b: real, c: real, d: real)
    requires a * c == 1.0 && b * d == 1.0
    ensures Undoes(Diagonals(a, b), Diagonals(c, d))
  {
    hide MatVec, Diagonals;
    forall x: Vec | |x| == 2 ensures MatVec(Diagonals(c, d), MatVec(Diagonals(a, b), x)) == x {
      DiagonalsTimes(a, b, x);
      var y := [a * x[0], b * x[1]];
      DiagonalsTimes(c, d, y);
      CancelFactor(a, c, x[0]);
      CancelFactor(b, d, x[1]);
      assert c * y[0] == x[0] && d * y[1] == x[1];
    }
  }

  lemma CancelFactor(a: real, c: real, x: real)
    requires a * c == 1.0
    ensures c * (a * x) == x
  {
    assert c * (a * x) == (a * c) * x;
  }

  lemma DoubtedValid()
    ensures ValidBlackLitterman(DOUBTED) && Sigma(DOUBTED.history) == Diagonal(COV_RIDGE)
    ensures Scaled(1.0, Sigma(DOUBTED.history)) == Diagonal(COV_RIDGE)
    ensures Prior(DOUBTED) == [COV_RIDGE / 2.0, COV_RIDGE / 2.0]
  {
    hide Sigma, Means, DotTo, SumTo;
    ConstantSeries(0.0, 0.0);
    assert DOUBTED.pMatrix[0][0] == 1.0;
    SumOfTwo([1.0, 1.0]);
    assert Normalised([1.0, 1.0]) == [0.5, 0.5];
    DiagonalForm(COV_RIDGE, [0.5, 0.5]);
    var y := [COV_RIDGE / 2.0, COV_RIDGE / 2.0];
    assert Scale(1.0, y) == y;
    var d := Diagonal(COV_RIDGE);
    assert Scale(1.0, d[0]) == d[0] && Scale(1.0, d[1]) == d[1];
    assert Scaled(1.0, d)[0] == d[0] && Scaled(1.0, d)[1] == d[1];
  }

  /** The only view weighs as much as the prior of its asset. */
  lemma DoubtedWeights(s: Vec)
    requires |s| == 1 && ViewWeights(Diagonal(COV_RIDGE), [[1.0, 0.0]], s)
    ensures s == [1e8]
  {
    DiagonalForm(COV_RIDGE, [1.0, 0.0]);
    assert [[1.0, 0.0]][0] == [1.0, 0.0];
    assert s[0] * COV_RIDGE == 1.0;
  }

  lemma OneProduct(x: Vec, y: Vec)
    requires |x| == |y| == 1
    ensures Dot(x, y) == x[0] * y[0]
  {
    assert DotTo(x, y, 1) == DotTo(x, y, 0) + x[0] * y[0];
  }

  lemma DoubtedPrecision()
    ensures MatAdd(Diagonals(1e8, 1e8), ViewPrecision([[1.0, 0.0]], [1e8], 2)) == Diagonals(2e8, 1e8)
  {
    hide DotTo;
    var p, s := [[1.0, 0.0]], [1e8];
    assert Col(p, 2, 0) == [1.0] && Col(p, 2, 1) == [0.0];
    assert Weigh(s, [1.0]) == [1e8] && Weigh(s, [0.0]) == [0.0];
    OneProduct([1e8], [1.0]);
    OneProduct([1e8], [0.0]);
    OneProduct([0.0], [1.0]);
    OneProduct([0.0], [0.0]);
    var v := ViewPrecision(p, s, 2);
    assert v[0] == [1e8, 0.0] && v[1] == [0.0, 0.0];
    var m := MatAdd(Diagonals(1e8, 1e8), v);
    assert m[0] == [2e8, 0.0] && m[1] == [0.0, 1e8];
  }

  lemma DoubtedTargets()
    ensures Comb([[1.0, 0.0]], Weigh([1e8], [-0.02]), 2) == [-2e6, 0.0]
  {
    hide DotTo;
    var p, z := [[1.0, 0.0]], Weigh([1e8], [-0.02]);
    assert z == [-2e6];
    CombEntry(p, z, 2, 0);
    CombEntry(p, z, 2, 1);
    assert Col(p, 2, 0) == [1.0] && Col(p, 2, 1) == [0.0];
    OneProduct(z, [1.0]);
    OneProduct(z, [0.0]);
    OneProduct([1.0], z);
    OneProduct([0.0], z);
  }

  const DOUBTED_MEAN: Vec := [-0.0099999975, 5e-9]

  lemma DoubtedPosterior(mu: Vec, covariance: Mat, ti: Mat, s: Vec, m1inv: Mat)
    requires ValidBlackLitterman(DOUBTED) && IsPosterior(DOUBTED, mu, covariance, ti, s, m1inv)
    ensures mu == DOUBTED_MEAN && covariance == Diagonals(1.5e-8, 2e-8)
  {
    hide MatVec, Undoes, Weigh, ViewPrecision, MatAdd, Scaled, Prior, Sigma, DotTo, Comb, Quad, Diagonals;
    DoubtedValid();
    DoubtedWeights(s);
    DiagonalsInverse(COV_RIDGE, COV_RIDGE, 1e8, 1e8);
    InverseUnique(Diagonal(COV_RIDGE), ti, Diagonals(1e8, 1e8));
    DoubtedPrecision();
    DiagonalsInverse(2e8, 1e8, 5e-9, 1e-8);
    InverseUnique(Diagonals(2e8, 1e8), m1inv, Diagonals(5e-9, 1e-8));
    DoubtedSum();
    DoubtedTargets();
    DoubtedMean(mu);
  }

  lemma DoubtedSum()
    ensures MatAdd(Diagonal(COV_RIDGE), Diagonals(5e-9, 1e-8)) == Diagonals(1.5e-8, 2e-8)
  {
    var m, r := MatAdd(Diagonal(COV_RIDGE), Diagonals(5e-9, 1e-8)), Diagonals(1.5e-8, 2e-8);
    assert m[0] == r[0] && m[1] == r[1];
  }

  lemma DoubtedMean(mu: Vec)
    requires |mu| == 2
    requires MatVec(Diagonals(2e8, 1e8), mu)
          == Add(MatVec(Diagonals(1e8, 1e8), [COV_RIDGE / 2.0, COV_RIDGE / 2.0]), [-2e6, 0.0])
    ensures mu == DOUBTED_MEAN
  {
    hide MatVec, Diagonals;
    DiagonalsTimes(2e8, 1e8, mu);
    DiagonalsTimes(1e8, 1e8, [COV_RIDGE / 2.0, COV_RIDGE / 2.0]);
    var r := Add([0.5, 0.5], [-2e6, 0.0]);
    assert r[0] == 0.5 - 2e6 && r[1] == 0.5;
    assert [2e8 * mu[0], 1e8 * mu[1]] == r;
    assert [2e8 * mu[0], 1e8 * mu[1]][0] == 2e8 * mu[0] && [2e8 * mu[0], 1e8 * mu[1]][1] == 1e8 * mu[1];
  }

  lemma DoubtedRaw(raw: Vec)
    requires IsRaw(Diagonals(1.5e-8, 2e-8), DOUBTED_MEAN, 1.0, raw)
    ensures Sum(raw) < -1.0
  {
    hide MatVec, Diagonals, Scaled;
    ScaledVec(1.0, Diagonals(1.5e-8, 2e-8), raw);
    DiagonalsTimes(1.5e-8, 2e-8, raw);
    var y := [1.5e-8 * raw[0], 2e-8 * raw[1]];
    assert Scale(1.0, y)[0] == 1.5e-8 * raw[0] && Scale(1.0, y)[1] == 2e-8 * raw[1];
    SumOfTwo(raw);
  }

  lemma DoubtedServed()
    ensures ValidBlackLitterman(DOUBTED) && Ordinary(DOUBTED) && !ZeroConfidence(DOUBTED) && !WeightsCancel(DOUBTED)
  {
    hide IsPosterior, IsRaw, Sigma, Scaled, Sum, Ordinary, Quad;
    DoubtedValid();
    OrdinaryRequest(DOUBTED);
    DiagonalForm(COV_RIDGE, [1.0, 0.0]);
    forall mu: Vec, covariance: Mat, ti: Mat, s: Vec, m1inv: Mat, raw: Vec
      | IsPosterior(DOUBTED, mu, covariance, ti, s, m1inv) && IsRaw(covariance, mu, DOUBTED.riskAversion, raw)
      ensures !Cancels(covariance, mu, DOUBTED.riskAversion, raw)
    {
      DoubtedPosterior(mu, covariance, ti, s, m1inv);
      DoubtedRaw(raw);
    }
  }

  /** The request is served, and its portfolio loses money while every other one has a better Sharpe ratio under the
      posterior, or the same. */
  lemma BlackLittermanMisses(sqrt: real -> real, r: BlackLittermanResult)
    requires IsSqrt(sqrt)
    ensures ValidBlackLitterman(DOUBTED) && Ordinary(DOUBTED) && !ZeroConfidence(DOUBTED) && !WeightsCancel(DOUBTED)
    ensures Answers(DOUBTED, r, sqrt) ==>
              var w, mu := WeightsOf(r.portfolio, LABELS), MeansOf(r, LABELS);
              && r.portfolio.expectedReturn < 0.0
              && PositiveDefinite(r.covariance) && |w| == |mu| == |r.covariance|
              && !BestSharpe(sqrt, r.covariance, mu, w) && WorstSharpe(sqrt, r.covariance, mu, w)
  {
    hide IsPosterior, IsRaw, Sigma, Scaled, Sum, Ordinary, ZeroConfidence, WeightsCancel, BestSharpe, WorstSharpe,
         PositiveDefinite, ValidBlackLitterman, IsNormalisedRaw, IsSqrt, SharpeOf, Quad;
    DoubtedServed();
    if Answers(DOUBTED, r, sqrt) {
      var mu, c := MeansOf(r, LABELS), r.covariance;
      var ti: Mat, s: Vec, m1inv: Mat, raw: Vec :|
        IsPosterior(DOUBTED, mu, c, ti, s, m1inv)
        && IsNormalisedRaw(c, mu, 1.0, raw, WeightsOf(r.portfolio, LABELS));
      RawOf(c, mu, 1.0, raw, WeightsOf(r.portfolio, LABELS));
      DoubtedPosterior(mu, c, ti, s, m1inv);
      DoubtedRaw(raw);
      ResultIsBestExactly(DOUBTED, r, sqrt, mu, c, ti, s, m1inv, raw);
      ReturnTellsBest(DOUBTED, r, sqrt, mu, c, ti, s, m1inv, raw);
    }
  }

  lemma RawOf(covariance: Mat, mu: Vec, riskAversion: real, raw: Vec, w: Vec)
    requires IsNormalisedRaw(covariance, mu, riskAversion, raw, w)
    ensures IsRaw(covariance, mu, riskAversion, raw)
  {
  }

  // ---------- risk-parity weights of uneven risk ----------

  const HEDGE: real := 0.9999982

  /** Two assets that move against each other, the second a little less. */
  const SEESAW: Mat := [[-1.0, 0.0, 1.0], [HEDGE, 0.0, -HEDGE]]

  lemma SumOfThree(v: Vec)
    requires |v| == 3
    ensures Sum(v) == v[0] + v[1] + v[2]
  {
    assert SumTo(v, 3) == SumTo(v, 2) + v[2] && SumTo(v, 2) == SumTo(v, 1) + v[1] && SumTo(v, 1) == SumTo(v, 0) + v[0];
  }

  lemma DotOfThree(a: Vec, b: Vec)
    requires |a| == |b| == 3
    ensures Dot(a, b) == a[0] * b[0] + a[1] * b[1] + a[2] * b[2]
  {
    assert DotTo(a, b, 3) == DotTo(a, b, 2) + a[2] * b[2] && DotTo(a, b, 2) == DotTo(a, b, 1) + a[1] * b[1];
    assert DotTo(a, b, 1) == DotTo(a, b, 0) + a[0] * b[0];
  }

  lemma SeesawCovariance()
    ensures IsMat(SEESAW, 2, 3) && SampleCov(Centered(SEESAW, 3), 3) == [[1.0, -HEDGE], [-HEDGE, HEDGE * HEDGE]]
  {
    hide SumTo, DotTo;
    SumOfThree(SEESAW[0]);
    SumOfThree(SEESAW[1]);
    assert MeanOf(SEESAW[0]) == 0.0 && MeanOf(SEESAW[1]) == 0.0;
    var c := Centered(SEESAW, 3);
    assert c[0] == SEESAW[0] && c[1] == SEESAW[1];
    DotOfThree(c[0], c[0]);
    DotOfThree(c[0], c[1]);
    DotOfThree(c[1], c[0]);
    DotOfThree(c[1], c[1]);
    var cov := SampleCov(c, 3);
    assert cov[0] == [1.0, -HEDGE] && cov[1] == [-HEDGE, HEDGE * HEDGE];
  }

  lemma SeesawContributions(cov: Mat, w: Vec)
    requires cov == [[1.0, -HEDGE], [-HEDGE, HEDGE * HEDGE]] && w == [0.5, 0.5]
    ensures RiskParity.Contributions(cov, w) == [0.25 * (1.0 - HEDGE), 0.25 * (HEDGE * HEDGE - HEDGE)]
    ensures Quad(cov, w) == 0.25 * ((1.0 - HEDGE) * (1.0 - HEDGE))
  {
    DotOfTwo(cov[0], w);
    DotOfTwo(cov[1], w);
    var y := MatVec(cov, w);
    assert y[0] == 0.5 * (1.0 - HEDGE) && y[1] == 0.5 * (HEDGE * HEDGE - HEDGE);
    DotOfTwo(w, y);
  }

  /** The request is served; the loop stops at once, at equal weights, with contributions 9e-7 apart. */
  lemma RiskParityStopsUneven(sqrt: real -> real, p: Portfolio, iterations: nat)
    requires IsSqrt(sqrt)
    ensures ValidReturns(SEESAW, LABELS)
            && RiskParity.TotalVariance(SampleCov(Centered(SEESAW, 3), 3)) >= DEGENERACY_EPS
    ensures RiskParity.Allocated(SEESAW, LABELS, sqrt, p, iterations) ==>
              var cov, w := SampleCov(Centered(SEESAW, 3), 3), WeightsOf(p, LABELS);
              && iterations == 0 && w == [0.5, 0.5]
              && !RiskParity.Balanced(RiskParity.Contributions(cov, w), Quad(cov, w) / 2.0, RiskParity.CONVERGENCE_TOL)
  {
    hide SumTo, DotTo, Quad, RiskParity.Contributions, RiskParity.Evened, SharpeOf, IsSqrt, SampleCov, Centered;
    SeesawCovariance();
    var cov, w := SampleCov(Centered(SEESAW, 3), 3), [0.5, 0.5];
    SumOfTwo([1.0, HEDGE * HEDGE]);
    assert seq(|cov|, i requires 0 <= i < |cov| => cov[i][i]) == [1.0, HEDGE * HEDGE];
    SeesawContributions(cov, w);
    var rc := RiskParity.Contributions(cov, w);
    assert rc[0] == 0.25 * (1.0 - HEDGE);
    assert RiskParity.EqualWeights(2) == w;
    assert RiskParity.WeightsAfter(cov, 0) == w;
    assert RiskParity.Settled(cov, w);
  }

  // ---------- a backtest that reports negative equity ----------

  /** Capital 150 at a commission of one half: a short entered at 100 and liquidated at 150. */
  lemma ShortRunBelowZero(first: Bar, last: Bar, config: BacktestConfig)
    requires first.open > 0.0 && first.close > 0.0 && last.open == 100.0 && last.close == 150.0
    requires config.initialCapital == 150.0 && config.commissionRate == 0.5
    ensures var series := [first, last];
            var signals := [SignalResult(first.date, Sell), SignalResult(last.date, Hold)];
            && Curve(series, signals, config, 2)[1].equity == 50.0
            && FinalCurve(series, signals, config)[1].equity == -25.0
            && !RunBounded(series, signals, config)
  {
    var series := [first, last];
    var signals := [SignalResult(first.date, Sell), SignalResult(last.date, Hold)];
    var start := State(150.0, None, []);
    assert After(series, signals, config, 1) == start;
    var short := Position(Short, 100.0, 1.0, last.date);
    assert After(series, signals, config, 2) == State(200.0, Some(short), []);
    FinalPoint(series, signals, config);
  }
}
