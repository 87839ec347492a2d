/** The mean-variance optimizer: its two funds, the blends between them, and what each of its four objectives
    delivers. */
module MeanVariance {
  import opened Reals
  import opened LinearAlgebra
  import opened Outcome
  import opened Inverse
  import opened Covariance
  import opened Moments
  import opened TwoFunds
  import opened MaxSharpe

  const WEIGHT_SUM_TOLERANCE: real := 1e-6

  function Pow2(n: nat): real { if n == 0 then 1.0 else 2.0 * Pow2(n - 1) }

  /** std::numeric_limits<double>::lowest(). */
  const LOWEST: real := Pow2(971) - Pow2(1024)

  datatype Request = Request(
    series: Mat, labels: seq<string>, riskFreeRate: real, objective: string,
    targetReturn: Option<real>, targetVolatility: Option<real>)

  datatype Portfolio = Portfolio(weights: map<string, real>, expectedReturn: real, volatility: real, sharpeRatio: real)

  function Clamp(v: real, min: real, max: real): real {
    if v < min then min else if v > max then max else v
  }

  function SolveQuadraticForBlend(sqrt: real -> real, a: real, b: real, c: real): real {
    var discriminant := b * b - 4.0 * a * c;
    if discriminant < 0.0 || Abs(a) < DEGENERACY_EPS then
      if Abs(b) < DEGENERACY_EPS then 0.5 else Clamp(-c / b, 0.0, 1.0)
    else
      var sqrtD := sqrt(discriminant);
      Clamp(Max((-b + sqrtD) / (2.0 * a), (-b - sqrtD) / (2.0 * a)), 0.0, 1.0)
  }

  // ---------- the target-volatility equation ----------

  lemma LargerRoot(a: real, s: real)
    requires a > 0.0 && s >= 0.0
    ensures Max((-0.0 + s) / (2.0 * a), (-0.0 - s) / (2.0 * a)) == s / (2.0 * a) >= 0.0
  {
  }

  lemma PositiveRoot(sqrt: real -> real, a: real, c: real, s: real, alpha: real)
    requires IsSqrt(sqrt) && a >= DEGENERACY_EPS && -a < c < 0.0
    requires s == sqrt(0.0 * 0.0 - 4.0 * a * c) && alpha == SolveQuadraticForBlend(sqrt, a, 0.0, c)
    ensures alpha * alpha * a == -c && 0.0 < alpha < 1.0
  {
    ProductPositive(a, -c, a * (-c));
    var disc := 0.0 * 0.0 - 4.0 * a * c;
    assert disc == 4.0 * (a * (-c));
    LargerRoot(a, s);
    RootWithin(a, c, s, disc, s / (2.0 * a));
  }

  lemma RootWithin(a: real, c: real, s: real, disc: real, root: real)
    requires a > 0.0 && -a < c < 0.0 && s >= 0.0 && s * s == disc && disc == -4.0 * a * c && root == s / (2.0 * a)
    ensures root * root * a == -c && 0.0 < root < 1.0
  {
    SquareSign(s, disc);
    ProductPositive(a, -c, a * (-c));
    DivSign(s, 2.0 * a);
    RootSquared(a, c, s, root);
    RootBelowOne(a, c, root);
  }

  lemma RootSquared(a: real, c: real, s: real, root: real)
    requires a > 0.0 && s == root * (2.0 * a) && s * s == -4.0 * a * c
    ensures root * root * a == -c
  {
  }

  lemma RootBelowOne(a: real, c: real, root: real)
    requires a > 0.0 && root > 0.0 && root * root * a == -c && -a < c
    ensures root < 1.0
  {
  }

  /** Inside the attainable range the blend hits the target exactly, or fails for a tiny spread of variances. */
  lemma TargetVolatilityHit(sqrt: real -> real, varMv: real, varMs: real, target: real, alpha: real)
    requires IsSqrt(sqrt) && varMv < target * target < varMs
    requires alpha == SolveQuadraticForBlend(sqrt, varMs - varMv, 0.0, varMv - target * target)
    ensures 0.0 <= alpha <= 1.0 && (varMs - varMv < DEGENERACY_EPS ==> alpha == 0.5)
    ensures varMv + alpha * alpha * (varMs - varMv) == target * target
       <==> varMs - varMv >= DEGENERACY_EPS || target * target - varMv == (varMs - varMv) / 4.0
  {
    var a, c := varMs - varMv, varMv - target * target;
    if a >= DEGENERACY_EPS {
      PositiveRoot(sqrt, a, c, sqrt(0.0 * 0.0 - 4.0 * a * c), alpha);
    } else {
      assert alpha == 0.5;
    }
  }

  // ---------- the request's own terms ----------

  ghost predicate ValidRequest(req: Request) { ValidReturns(req.series, req.labels) && ObjectiveError(req).None? }

  function ObjectiveError(req: Request): Option<Error> {
    if req.objective == "target_return" then
      if req.targetReturn.None? then Some(InvalidCommand("target_return must be a finite number")) else None
    else if req.objective == "target_volatility" then
      if req.targetVolatility.None? || req.targetVolatility.value < 0.0 then
        Some(InvalidCommand("target_volatility must be a finite non-negative number"))
      else None
    else if req.objective != "max_sharpe" && req.objective != "min_volatility" then
      Some(InvalidCommand("unknown objective"))
    else None
  }

  /** The weights in label order. */
  function WeightsOf(p: Portfolio, labels: seq<string>): Vec
    requires forall i :: 0 <= i < |labels| ==> labels[i] in p.weights
  {
    seq(|labels|, i requires 0 <= i < |labels| => p.weights[labels[i]])
  }

  /** No fully invested portfolio has variance 1e12 or less. */
  ghost predicate TooRisky(s: Mat)
    requires IsMat(s, |s|, |s|)
  {
    forall x: Vec :: FullyInvested(x, |s|) ==> Quad(s, x) > 1e12
  }

  ghost predicate OnTarget(req: Request, sqrt: real -> real, s: Mat, means: Vec, mv: Vec, ms: Vec, w: Vec)
    requires IsSqrt(sqrt) && PositiveDefinite(s) && ObjectiveError(req).None?
    requires |mv| == |ms| == |w| == |means| == |s|
  {
    if req.objective == "max_sharpe" then w == ms
    else if req.objective == "min_volatility" then w == mv
    else if req.objective == "target_return" then HitsReturn(means, mv, ms, w, req.targetReturn.value)
    else HitsVolatility(sqrt, s, mv, ms, w, req.targetVolatility.value)
  }

  /** The target clamped between the two funds' returns is met exactly. */
  ghost predicate HitsReturn(means: Vec, mv: Vec, ms: Vec, w: Vec, target: real)
    requires |mv| == |ms| == |w| == |means|
  {
    var lo, hi := Dot(mv, means), Dot(ms, means);
    if Abs(hi - lo) < DEGENERACY_EPS then w == mv
    else Dot(w, means) == Clamp(target, Min(lo, hi), Max(lo, hi))
  }

  /** A target strictly between the funds' volatilities is met when those are 1e-12 apart and the variances are too
      (or the target happens to be the volatility of the fixed half-way blend). */
  predicate VolatilityReachable(lo: real, hi: real, varLo: real, varHi: real, target: real) {
    && hi - lo >= DEGENERACY_EPS
    && (varHi - varLo >= DEGENERACY_EPS || target * target - varLo == (varHi - varLo) / 4.0)
  }

  /** Outside the range, or when the volatilities are less than 1e-12 apart, one of the funds; inside it the target
      exactly when it is reachable, and the half-way blend when the variances are less than 1e-12 apart. */
  ghost predicate HitsVolatility(sqrt: real -> real, s: Mat, mv: Vec, ms: Vec, w: Vec, target: real)
    requires IsSqrt(sqrt) && PositiveDefinite(s) && |mv| == |ms| == |w| == |s|
  {
    var lo, hi := Vol(sqrt, s, mv), Vol(sqrt, s, ms);
    if target <= lo || hi - lo < DEGENERACY_EPS then w == mv
    else if target >= hi then w == ms
    else
      && (Vol(sqrt, s, w) == target <==> VolatilityReachable(lo, hi, Quad(s, mv), Quad(s, ms), target))
      && (Quad(s, ms) - Quad(s, mv) < DEGENERACY_EPS ==> w == Blend(ms, mv, 0.5))
  }

  /** Excess return per unit of volatility, the lowest double when there is none. */
  function SharpeOf(expectedReturn: real, rf: real, volatility: real): real {
    if volatility > 0.0 then (expectedReturn - rf) / volatility else LOWEST
  }

  // ---------- the source's helpers ----------

  method BlendOf(a: Vec, b: Vec, alpha: real) returns (out: Vec)
    requires |a| == |b|
    ensures out == Blend(a, b, alpha)
  {
    out := [];
    for i := 0 to |a|
      invariant |out| == i && forall k :: 0 <= k < i ==> out[k] == Blend(a, b, alpha)[k]
    {
      out := out + [alpha * a[i] + (1.0 - alpha) * b[i]];
    }
  }

  method PortfolioMetrics(weights: Vec, means: Vec, cov: Mat, rf: real, sqrt: real -> real)
    returns (expectedReturn: real, volatility: real, sharpe: real)
    requires |weights| == |means| == |cov| && IsMat(cov, |cov|, |cov|)
    ensures expectedReturn == Dot(weights, means)
    ensures volatility == sqrt(Max(0.0, Quad(cov, weights)))
    ensures sharpe == SharpeOf(expectedReturn, rf, volatility)
  {
    expectedReturn := VecDot(weights, means);
    var variance := QuadraticForm(weights, cov);
    volatility := sqrt(Max(0.0, variance));
    if volatility > 0.0 {
      sharpe := (expectedReturn - rf) / volatility;
    } else {
      sharpe := LOWEST;
    }
  }

  /** Keys the weights by label and runs PortfolioResult::Validate. */
  method BuildResult(weights: Vec, labels: seq<string>, expectedReturn: real, volatility: real, sharpe: real)
    returns (r: Result<Portfolio>)
    requires |weights| == |labels| && forall i, j :: 0 <= i < j < |labels| ==> labels[i] != labels[j]
    ensures r.Success? <==> |labels| > 0 && Abs(Sum(weights) - 1.0) <= 1e-6 && volatility >= 0.0
    ensures r.Success? ==>
              && r.value.weights.Keys == (set l | l in labels)
              && WeightsOf(r.value, labels) == weights
              && r.value.expectedReturn == expectedReturn && r.value.volatility == volatility
              && r.value.sharpeRatio == sharpe
  {
    var keyed: map<string, real> := map[];
    for i := 0 to |labels|
      invariant keyed.Keys == (set k | 0 <= k < i :: labels[k])
      invariant forall k :: 0 <= k < i ==> keyed[labels[k]] == weights[k]
    {
      keyed := keyed[labels[i] := weights[i]];
    }
    assert keyed.Keys == set l | l in labels;
    if |labels| == 0 {
      return Failure(DataQuality("result contains no weights"));
    }
    var sum := SumOf(weights);
    if Abs(sum - 1.0) > WEIGHT_SUM_TOLERANCE {
      return Failure(InvalidCommand("weights do not sum to 1.0"));
    }
    if volatility < 0.0 {
      return Failure(DataQuality("volatility is non-finite or negative"));
    }
    return Success(Portfolio(keyed, expectedReturn, volatility, sharpe));
  }

  method TargetVolatilityBlend(wMs: Vec, wMv: Vec, cov: Mat, sqrt: real -> real, targetVol: real,
                               volMv: real, volMs: real)
    returns (w: Vec, ghost alpha: real)
    requires IsSqrt(sqrt) && PositiveDefinite(cov) && IsMinVariance(cov, wMv) && FullyInvested(wMs, |cov|)
    requires volMv == Vol(sqrt, cov, wMv) && volMs == Vol(sqrt, cov, wMs)
    ensures w == Blend(wMs, wMv, alpha)
    ensures HitsVolatility(sqrt, cov, wMv, wMs, w, targetVol)
  {
    hide DotTo, MatVec, SymmetricEntries, PositiveEverywhere, Add, Scale, Sub, SumTo, IsSqrt, SolveQuadraticForBlend,
         Vol, Blend, Quad;
    MinVarianceIsOptimal(cov, wMv, wMs);
    CovarianceWithMinVariance(cov, wMv, wMs);
    VolSquared(sqrt, cov, wMv);
    VolSquared(sqrt, cov, wMs);
    SquareOrderOf(volMs, volMv, Quad(cov, wMs), Quad(cov, wMv));
    BlendEnds(wMs, wMv);
    var target := Max(volMv, Min(volMs, targetVol));
    if target <= volMv || Abs(volMs - volMv) < DEGENERACY_EPS {
      return wMv, 0.0;
    }
    if target >= volMs {
      return wMs, 1.0;
    }
    var varMs := volMs * volMs;
    var varMv := volMv * volMv;
    var sigmaWmv := VecDotMat(cov, wMv);
    var covMsMv := VecDot(wMs, sigmaWmv);
    var targetVar := target * target;
    var a := varMs + varMv - 2.0 * covMsMv;
    var b := 2.0 * covMsMv - 2.0 * varMv;
    var c := varMv - targetVar;
    assert covMsMv == Quad(cov, wMv) * Sum(wMs) == Quad(cov, wMv);
    assert a == Quad(cov, wMs) - Quad(cov, wMv) && b == 0.0 && c == Quad(cov, wMv) - targetVol * targetVol;
    var root := SolveQuadraticForBlend(sqrt, a, b, c);
    alpha := root;
    w := BlendOf(wMs, wMv, root);
    BlendVariance(cov, wMv, wMs, root);
    VolSquared(sqrt, cov, w);
    TargetSquared(sqrt, Quad(cov, wMv), Quad(cov, wMs), targetVol, root, volMv, volMs, Vol(sqrt, cov, w), Quad(cov, w));
  }

  lemma BlendEnds(ms: Vec, mv: Vec)
    requires |ms| == |mv|
    ensures Blend(ms, mv, 0.0) == mv && Blend(ms, mv, 1.0) == ms
  {
  }

  lemma TargetSquared(sqrt: real -> real, varMv: real, varMs: real, target: real, alpha: real,
                      lo: real, hi: real, v: real, vv: real)
    requires IsSqrt(sqrt) && 0.0 <= lo < target < hi && v >= 0.0
    requires lo * lo == varMv && hi * hi == varMs && v * v == vv
    requires alpha == SolveQuadraticForBlend(sqrt, varMs - varMv, 0.0, varMv - target * target)
    requires vv == varMv + alpha * alpha * (varMs - varMv)
    ensures varMs - varMv < DEGENERACY_EPS ==> alpha == 0.5
    ensures v == target <==>
            varMs - varMv >= DEGENERACY_EPS || target * target - varMv == (varMs - varMv) / 4.0
  {
    SquareOrderOf(lo, target, varMv, target * target);
    SquareOrderOf(target, hi, target * target, varMs);
    TargetVolatilityHit(sqrt, varMv, varMs, target, alpha);
    SquareOrderOf(v, target, vv, target * target);
  }

  // ---------- the optimizer ----------

  lemma DegenerateIsTooRisky(s: Mat, mv: Vec, denom: real)
    requires PositiveDefinite(s) && IsMinVariance(s, mv) && 0.0 < denom && Quad(s, mv) == 1.0 / denom
    ensures denom < DEGENERACY_EPS <==> TooRisky(s)
  {
    hide DotTo, MatVec, SymmetricEntries, PositiveEverywhere, Add, Scale, Sub, SumTo, Quad;
    ReciprocalOrder(denom, DEGENERACY_EPS);
    forall x: Vec | FullyInvested(x, |s|) ensures Quad(s, x) >= Quad(s, mv) { MinVarianceIsOptimal(s, mv, x); }
    assert FullyInvested(mv, |s|);
  }

  lemma ReciprocalOrder(a: real, b: real)
    requires a > 0.0 && b > 0.0
    ensures a < b <==> 1.0 / a > 1.0 / b
  {
  }

  lemma SumKFromSolution(s: Mat, k: Vec, e: Vec, mv: Vec)
    requires PositiveDefinite(s) && |k| == |e| == |s| && MatVec(s, k) == e && IsMinVariance(s, mv) && Quad(s, mv) > 0.0
    ensures SumK(s, e, mv) == Sum(k)
  {
    hide DotTo, MatVec, SymmetricEntries, PositiveEverywhere, Add, Scale, Sub, SumTo, Quad;
    SolutionRatio(s, k, e, mv);
    QuotientOf(Quad(s, mv), Sum(k), Dot(mv, e));
  }

  lemma QuotientOf(q: real, x: real, p: real)
    requires q != 0.0 && q * x == p
    ensures p / q == x
  {
  }

  /** The two closed-form funds, or the refusal of a portfolio universe that is too volatile. */
  method FundWeights(cov: Mat, invCov: Mat, means: Vec, rf: real) returns (r: Result<(Vec, Vec)>)
    requires PositiveDefinite(cov) && IsInverse(cov, invCov) && |means| == |cov| > 0
    ensures r.Failure? ==> r.error == Internal("minimum-variance portfolio is degenerate") && TooRisky(cov)
    ensures r.Success? ==> Funds(cov, Excess(means, rf), r.value.0, r.value.1) && !TooRisky(cov)
  {
    hide DotTo, MatVec, SymmetricEntries, PositiveEverywhere, Add, Scale, Sub, SumTo, Quad, TooRisky, IsMinVariance,
         IsTangency, Undoes;
    var n := |cov|;
    var inv1 := VecDotMat(invCov, Ones(n));
    var denomMv := SumOf(inv1);
    InverseGivesMinVariance(cov, invCov);
    DegenerateIsTooRisky(cov, Scale(1.0 / denomMv, inv1), denomMv);
    if Abs(denomMv) < DEGENERACY_EPS {
      return Failure(Internal("minimum-variance portfolio is degenerate"));
    }
    var wMv := ScaleBy(inv1, 1.0 / denomMv);
    DivSign(1.0, denomMv);

    var excess := ExcessReturns(means, rf);
    var k := VecDotMat(invCov, excess);
    InverseAt(cov, invCov, excess);
    var sumK := SumOf(k);
    SumKFromSolution(cov, k, excess, wMv);
    if Abs(sumK) < DEGENERACY_EPS {
      return Success((wMv, wMv));
    }
    var wMs := ScaleBy(k, 1.0 / sumK);
    SolutionGivesTangency(cov, k, excess);
    return Success((wMv, wMs));
  }

  method ExcessReturns(means: Vec, rf: real) returns (excess: Vec)
    ensures excess == Excess(means, rf)
  {
    excess := [];
    for i := 0 to |means|
      invariant |excess| == i && forall j :: 0 <= j < i ==> excess[j] == means[j] - rf
    {
      excess := excess + [means[i] - rf];
    }
  }

  lemma ReturnHit(target: real, lo: real, hi: real, alpha: real)
    requires hi != lo && alpha == Clamp((target - lo) / (hi - lo), 0.0, 1.0)
    ensures lo + alpha * (hi - lo) == Clamp(target, Min(lo, hi), Max(lo, hi))
  {
    var d, x := hi - lo, (target - lo) / (hi - lo);
    assert x * d == target - lo;
    if d > 0.0 {
      FactorSign(d, x, target - lo);
      FactorSign(d, x - 1.0, target - hi);
    } else {
      FactorSign(-d, x, lo - target);
      FactorSign(-d, x - 1.0, hi - target);
    }
  }

  lemma BlendReturn(ms: Vec, mv: Vec, alpha: real, means: Vec)
    requires |ms| == |mv| == |means|
    ensures Dot(Blend(ms, mv, alpha), means) == Dot(mv, means) + alpha * (Dot(ms, means) - Dot(mv, means))
  {
    hide DotTo;
    DotLinearLeft(alpha, ms, 1.0 - alpha, mv, means);
  }

  method ChooseWeights(req: Request, cov: Mat, means: Vec, sqrt: real -> real, wMv: Vec, wMs: Vec)
    returns (w: Vec, ghost alpha: real)
    requires IsSqrt(sqrt) && PositiveDefinite(cov) && |means| == |cov| && ObjectiveError(req).None?
    requires Funds(cov, Excess(means, req.riskFreeRate), wMv, wMs)
    ensures w == Blend(wMs, wMv, alpha)
    ensures OnTarget(req, sqrt, cov, means, wMv, wMs, w)
  {
    hide DotTo, MatVec, SymmetricEntries, PositiveEverywhere, Add, Scale, Sub, SumTo, Quad, IsSqrt, Vol, Clamp,
         HitsVolatility, Blend, Excess;
    var retMv, volMv, sharpeMv := PortfolioMetrics(wMv, means, cov, req.riskFreeRate, sqrt);
    var retMs, volMs, sharpeMs := PortfolioMetrics(wMs, means, cov, req.riskFreeRate, sqrt);
    MetricsAreVol(sqrt, cov, wMv);
    MetricsAreVol(sqrt, cov, wMs);
    BlendEnds(wMs, wMv);
    if req.objective == "max_sharpe" {
      return wMs, 1.0;
    } else if req.objective == "min_volatility" {
      return wMv, 0.0;
    } else if req.objective == "target_return" {
      var share := 0.0;
      if Abs(retMs - retMv) >= DEGENERACY_EPS {
        share := (req.targetReturn.value - retMv) / (retMs - retMv);
        ReturnHit(req.targetReturn.value, retMv, retMs, Clamp(share, 0.0, 1.0));
      }
      share := Clamp(share, 0.0, 1.0);
      BlendReturn(wMs, wMv, share, means);
      alpha := share;
      w := BlendOf(wMs, wMv, share);
      assert Clamp(0.0, 0.0, 1.0) == 0.0 by { ClampZero(); }
    } else {
      w, alpha := TargetVolatilityBlend(wMs, wMv, cov, sqrt, req.targetVolatility.value, volMv, volMs);
    }
  }

  lemma ClampZero()
    ensures Clamp(0.0, 0.0, 1.0) == 0.0
  {
  }

  lemma MetricsAreVol(sqrt: real -> real, s: Mat, w: Vec)
    requires PositiveDefinite(s) && |w| == |s|
    ensures sqrt(Max(0.0, Quad(s, w))) == Vol(sqrt, s, w)
  {
    hide DotTo, MatVec, SymmetricEntries, PositiveEverywhere;
    QuadNonNegative(s, w);
  }

  /** Everything MeanVariance promises of a returned portfolio. */
  ghost predicate Delivered(req: Request, sqrt: real -> real, p: Portfolio)
    requires IsSqrt(sqrt) && ValidRequest(req)
  {
    var s, means := Sigma(req.series), Means(req.series);
    SigmaPositiveDefinite(req.series);
    && p.weights.Keys == (set l | l in req.labels)
    && var w := WeightsOf(p, req.labels);
       && FullyInvested(w, |s|) && Efficient(s, means, w)
       && p.expectedReturn == Dot(w, means)
       && p.volatility == Vol(sqrt, s, w) > 0.0
       && p.sharpeRatio == SharpeOf(p.expectedReturn, req.riskFreeRate, p.volatility)
       && exists mv, ms :: |mv| == |ms| == |s| && Funds(s, Excess(means, req.riskFreeRate), mv, ms)
                           && OnTarget(req, sqrt, s, means, mv, ms, w)
  }

  lemma SigmaNeverRejected(req: Request)
    requires ValidReturns(req.series, req.labels)
    ensures PositiveDefinite(Sigma(req.series)) && !NearSingular(Sigma(req.series))
  {
    hide Sigma, BoundedBelow, NearSingular;
    SigmaPositiveDefinite(req.series);
    assert |req.series| as real <= 100.0;
    BoundedBelowNotNearSingular(Sigma(req.series), COV_RIDGE);
  }

  lemma FundsInvested(s: Mat, means: Vec, rf: real, mv: Vec, ms: Vec, alpha: real, sqrt: real -> real)
    requires IsSqrt(sqrt) && PositiveDefinite(s) && |means| == |s| && Funds(s, Excess(means, rf), mv, ms)
    ensures |mv| == |ms| == |s|
    ensures FullyInvested(Blend(ms, mv, alpha), |s|) && Efficient(s, means, Blend(ms, mv, alpha))
    ensures Vol(sqrt, s, Blend(ms, mv, alpha)) > 0.0
  {
    hide DotTo, MatVec, SymmetricEntries, PositiveEverywhere, Add, Scale, Sub, SumTo, Quad, IsSqrt, Vol, Blend, Excess,
         Efficient;
    BlendIsEfficient(s, means, rf, mv, ms, alpha);
    VolPositive(sqrt, s, Blend(ms, mv, alpha));
  }

  method OptimizeValid(req: Request, sqrt: real -> real) returns (r: Result<Portfolio>)
    requires IsSqrt(sqrt) && ValidRequest(req)
    ensures if TooRisky(Sigma(req.series)) then r == Failure(Internal("minimum-variance portfolio is degenerate"))
            else r.Success? && Delivered(req, sqrt, r.value)
  {
    hide DotTo, MatVec, SymmetricEntries, PositiveEverywhere, Add, Scale, Sub, SumTo, Quad, IsSqrt, Vol, Blend, Excess,
         Sigma, TooRisky, Funds, OnTarget, Means, NearSingular, Singular, IsInverse, Efficient, WeightsOf;
    var means, cov := RidgedCovariance(req.series);
    SigmaNeverRejected(req);
    var inverted := MatInverse(cov);
    if inverted.Failure? {
      return Failure(Internal("matrix is singular or near-singular"));
    }
    var funds := FundWeights(cov, inverted.value, means, req.riskFreeRate);
    if funds.Failure? {
      return Failure(funds.error);
    }
    var (wMv, wMs) := funds.value;
    var weights, alpha := ChooseWeights(req, cov, means, sqrt, wMv, wMs);
    FundsInvested(cov, means, req.riskFreeRate, wMv, wMs, alpha, sqrt);
    MetricsAreVol(sqrt, cov, weights);
    var expectedReturn, volatility, sharpe := PortfolioMetrics(weights, means, cov, req.riskFreeRate, sqrt);
    r := BuildResult(weights, req.labels, expectedReturn, volatility, sharpe);
    assert WeightsOf(r.value, req.labels) == weights;
    assert Funds(cov, Excess(means, req.riskFreeRate), wMv, wMs);
  }

  /** The optimizer. On valid input the covariance is never rejected as singular: the only failure
      left is a universe in which every fully invested portfolio has variance above 1e12. */
  method Optimize(req: Request, sqrt: real -> real) returns (r: Result<Portfolio>)
    requires IsSqrt(sqrt)
    ensures !ValidReturns(req.series, req.labels) ==> r.Failure? && !r.error.Internal?
    ensures ValidReturns(req.series, req.labels) && ObjectiveError(req).Some? ==>
              r == Failure(ObjectiveError(req).value)
    ensures ValidRequest(req) ==>
              if TooRisky(Sigma(req.series)) then r == Failure(Internal("minimum-variance portfolio is degenerate"))
              else r.Success? && Delivered(req, sqrt, r.value)
  {
    hide Sigma, TooRisky, Delivered, Funds, Blend, OnTarget, Means;
    var invalid := ValidateReturnMatrix(req.series, req.labels);
    if invalid.Some? {
      return Failure(invalid.value);
    }
    var objection := ObjectiveError(req);
    if objection.Some? {
      return Failure(objection.value);
    }
    r := OptimizeValid(req, sqrt);
  }

  // ---------- what the reported Sharpe ratio is worth ----------

  lemma ReportedSharpe(sqrt: real -> real, s: Mat, means: Vec, rf: real, w: Vec)
    requires IsSqrt(sqrt) && PositiveDefinite(s) && |means| == |s| && FullyInvested(w, |s|) && Vol(sqrt, s, w) > 0.0
    ensures (Dot(w, means) - rf) / Vol(sqrt, s, w) == Sharpe(sqrt, s, Excess(means, rf), w)
  {
    hide DotTo, MatVec, SymmetricEntries, PositiveEverywhere, IsSqrt, Vol, Excess;
    ExcessDot(means, rf, w);
  }

  /** Whatever funds satisfy the closed forms, a delivered portfolio is on target for them: there is only one pair. */
  lemma DeliveredOnTarget(req: Request, sqrt: real -> real, p: Portfolio, mv: Vec, ms: Vec)
    requires IsSqrt(sqrt) && ValidRequest(req) && Delivered(req, sqrt, p)
    requires Funds(Sigma(req.series), Excess(Means(req.series), req.riskFreeRate), mv, ms)
    ensures PositiveDefinite(Sigma(req.series)) && |mv| == |ms| == |req.series|
    ensures OnTarget(req, sqrt, Sigma(req.series), Means(req.series), mv, ms, WeightsOf(p, req.labels))
  {
    hide DotTo, MatVec, SymmetricEntries, PositiveEverywhere, IsSqrt, Vol, Excess, Sigma, Means, Funds, Efficient,
         WeightsOf, OnTarget;
    SigmaPositiveDefinite(req.series);
    var s, means := Sigma(req.series), Means(req.series);
    var e, w := Excess(means, req.riskFreeRate), WeightsOf(p, req.labels);
    var mv', ms' :| |mv'| == |ms'| == |s| && Funds(s, e, mv', ms') && OnTarget(req, sqrt, s, means, mv', ms', w);
    FundsUnique(s, e, mv, ms, mv', ms');
  }

  lemma DeliveredFund(req: Request, sqrt: real -> real, p: Portfolio, mv: Vec, ms: Vec)
    requires IsSqrt(sqrt) && ValidRequest(req) && Delivered(req, sqrt, p) && req.objective == "max_sharpe"
    requires Funds(Sigma(req.series), Excess(Means(req.series), req.riskFreeRate), mv, ms)
    ensures PositiveDefinite(Sigma(req.series)) && FullyInvested(ms, |req.series|)
    ensures p.sharpeRatio == Sharpe(sqrt, Sigma(req.series), Excess(Means(req.series), req.riskFreeRate), ms)
  {
    hide DotTo, MatVec, SymmetricEntries, PositiveEverywhere, IsSqrt, Vol, Excess, Sigma, Means, Funds, Efficient,
         WeightsOf, Sharpe;
    SigmaPositiveDefinite(req.series);
    DeliveredOnTarget(req, sqrt, p, mv, ms);
    ReportedSharpe(sqrt, Sigma(req.series), Means(req.series), req.riskFreeRate, WeightsOf(p, req.labels));
  }

  /** No fully invested portfolio has a larger Sharpe ratio than the one reported for max_sharpe, exactly when the
      promise holds. */
  lemma MaxSharpePromise(req: Request, sqrt: real -> real, p: Portfolio, mv: Vec, ms: Vec)
    requires IsSqrt(sqrt) && ValidRequest(req) && Delivered(req, sqrt, p) && req.objective == "max_sharpe"
    requires Funds(Sigma(req.series), Excess(Means(req.series), req.riskFreeRate), mv, ms)
    ensures PositiveDefinite(Sigma(req.series))
    ensures (forall x: Vec :: FullyInvested(x, |req.series|) ==>
              Sharpe(sqrt, Sigma(req.series), Excess(Means(req.series), req.riskFreeRate), x) <= p.sharpeRatio)
       <==> SharpePromiseHolds(Sigma(req.series), Excess(Means(req.series), req.riskFreeRate), mv)
  {
    hide DotTo, MatVec, SymmetricEntries, PositiveEverywhere, IsSqrt, Vol, Excess, Sigma, Means, Delivered, Sharpe,
         NoBetter, SharpePromiseHolds;
    DeliveredFund(req, sqrt, p, mv, ms);
    var s, e := Sigma(req.series), Excess(Means(req.series), req.riskFreeRate);
    MaxSharpeExactly(sqrt, s, e, mv, ms);
    forall x: Vec | FullyInvested(x, |s|)
      ensures NoBetter(sqrt, s, e, x, ms) <==> Sharpe(sqrt, s, e, x) <= p.sharpeRatio
    {
      NoBetterIsSharpeOrder(sqrt, s, e, x, ms);
    }
  }

  // ---------- what the two targets are worth ----------

  /** A volatility target strictly between the funds' volatilities is the reported volatility if and only if it is
      reachable; any other target gives the volatility of the nearer fund. */
  lemma TargetVolatilityPromise(req: Request, sqrt: real -> real, p: Portfolio, mv: Vec, ms: Vec, lo: real, hi: real)
    requires IsSqrt(sqrt) && ValidRequest(req) && Delivered(req, sqrt, p) && req.objective == "target_volatility"
    requires Funds(Sigma(req.series), Excess(Means(req.series), req.riskFreeRate), mv, ms) && |ms| == |req.series|
    requires lo == Vol(sqrt, Sigma(req.series), mv) && hi == Vol(sqrt, Sigma(req.series), ms)
    ensures lo < req.targetVolatility.value < hi ==>
              (p.volatility == req.targetVolatility.value <==>
               VolatilityReachable(lo, hi, Quad(Sigma(req.series), mv), Quad(Sigma(req.series), ms),
                 req.targetVolatility.value))
    ensures req.targetVolatility.value <= lo ==> p.volatility == lo
    ensures req.targetVolatility.value >= hi && hi - lo >= DEGENERACY_EPS ==> p.volatility == hi
  {
    hide DotTo, MatVec, SymmetricEntries, PositiveEverywhere, IsSqrt, Vol, Excess, Sigma, Means, Funds, Efficient,
         WeightsOf, Quad;
    DeliveredOnTarget(req, sqrt, p, mv, ms);
  }

  /** A return target strictly between the funds' returns is the reported return if and only if those are 1e-12
      apart. */
  lemma TargetReturnPromise(req: Request, sqrt: real -> real, p: Portfolio, mv: Vec, ms: Vec, lo: real, hi: real)
    requires IsSqrt(sqrt) && ValidRequest(req) && Delivered(req, sqrt, p) && req.objective == "target_return"
    requires Funds(Sigma(req.series), Excess(Means(req.series), req.riskFreeRate), mv, ms)
             && |ms| == |mv| == |req.series|
    requires lo == Dot(mv, Means(req.series)) && hi == Dot(ms, Means(req.series))
    ensures Min(lo, hi) < req.targetReturn.value < Max(lo, hi) ==>
              (p.expectedReturn == req.targetReturn.value <==> Abs(hi - lo) >= DEGENERACY_EPS)
  {
    hide DotTo, MatVec, SymmetricEntries, PositiveEverywhere, IsSqrt, Vol, Excess, Sigma, Means, Funds, Efficient,
         WeightsOf, Quad;
    DeliveredOnTarget(req, sqrt, p, mv, ms);
  }

  lemma SeriesShape(req: Request)
    requires ValidReturns(req.series, req.labels)
    ensures |req.series| > 0 && |req.labels| == |req.series| && |req.series[0]| >= 2
    ensures IsMat(req.series, |req.series|, |req.series[0]|)
  {
  }

  lemma DeliveredFigures(req: Request, sqrt: real -> real, p: Portfolio)
    requires IsSqrt(sqrt) && ValidRequest(req) && Delivered(req, sqrt, p)
    ensures forall i :: 0 <= i < |req.labels| ==> req.labels[i] in p.weights
    ensures var w := WeightsOf(p, req.labels);
            && |w| == |req.series| && p.expectedReturn == Dot(w, Means(req.series))
            && p.volatility == Vol(sqrt, Sigma(req.series), w) > 0.0
            && p.sharpeRatio == SharpeOf(p.expectedReturn, req.riskFreeRate, p.volatility)
  {
    hide DotTo, MatVec, SymmetricEntries, PositiveEverywhere, IsSqrt, Vol, Excess, Sigma, Means, Funds, Efficient,
         OnTarget, Quad, Dot, Sum, WeightsOf, SharpeOf;
    SeriesShape(req);
  }

  /** What is reported is measured on the portfolio's own return series: its average, its sample variance plus the
      ridge, and their ratio over the risk-free rate. */
  lemma DeliveredMeasures(req: Request, sqrt: real -> real, p: Portfolio)
    requires IsSqrt(sqrt) && ValidRequest(req) && Delivered(req, sqrt, p)
    ensures var w, obs := WeightsOf(p, req.labels), |req.series[0]|;
            && |w| == |req.series|
            && var own := Comb(req.series, w, obs);
               && p.expectedReturn * (obs as real) == Sum(own)
               && p.volatility > 0.0 && p.volatility * p.volatility == SampleVariance(own) + 1e-8 * Dot(w, w)
               && p.sharpeRatio * p.volatility == p.expectedReturn - req.riskFreeRate
  {
    hide DotTo, MatVec, SymmetricEntries, PositiveEverywhere, IsSqrt, Vol, Sigma, Means, WeightsOf, Quad,
         SampleVariance, Comb, Sum, Dot, Delivered, SharpeOf;
    DeliveredFigures(req, sqrt, p);
    SeriesShape(req);
    RidgedMeasures(sqrt, req.series, |req.series[0]|, WeightsOf(p, req.labels), p.expectedReturn, p.volatility);
    SharpeTimes(p.expectedReturn, req.riskFreeRate, p.volatility, p.sharpeRatio);
  }

  lemma RidgedMeasures(sqrt: real -> real, rets: Mat, obs: nat, w: Vec, expectedReturn: real, volatility: real)
    requires IsSqrt(sqrt) && |rets| > 0 && |rets[0]| == obs >= 2 && IsMat(rets, |rets|, obs) && |w| == |rets|
    requires expectedReturn == Dot(w, Means(rets)) && volatility == Vol(sqrt, Sigma(rets), w)
    ensures expectedReturn * (obs as real) == Sum(Comb(rets, w, obs))
    ensures volatility * volatility == SampleVariance(Comb(rets, w, obs)) + 1e-8 * Dot(w, w)
  {
    hide DotTo, MatVec, SymmetricEntries, PositiveEverywhere, IsSqrt, Vol, Sigma, Means, Quad, SampleVariance, Comb,
         Sum, Dot, BoundedBelow;
    SigmaPositiveDefinite(rets);
    PortfolioMean(rets, obs, w);
    RidgedPortfolioVariance(rets, obs, w);
    VolSquared(sqrt, Sigma(rets), w);
  }

  lemma SharpeTimes(expectedReturn: real, rf: real, volatility: real, sharpe: real)
    requires volatility > 0.0 && sharpe == SharpeOf(expectedReturn, rf, volatility)
    ensures sharpe * volatility == expectedReturn - rf
  {
  }
}
