/** Risk parity by a damped, renormalised fixed-point iteration on risk contributions. */
module RiskParity {
  import opened Reals
  import opened LinearAlgebra
  import opened Outcome
  import opened Covariance
  import opened Moments
  import opened TwoFunds
  import opened MeanVariance

  const MAX_ITERATIONS: nat := 1000
  const CONVERGENCE_TOL: real := 1e-10
  const DAMPING: real := 0.5

  // ---------- contributions ----------

  /** rc_i = w_i (cov w)_i. */
  function Contributions(cov: Mat, w: Vec): (rc: Vec)
    requires IsMat(cov, |w|, |w|)
    ensures |rc| == |w|
  {
    seq(|w|, i requires 0 <= i < |w| => w[i] * MatVec(cov, w)[i])
  }

  lemma {:induction false} ContributionsSumTo(cov: Mat, w: Vec, k: nat)
    requires IsMat(cov, |w|, |w|) && k <= |w|
    ensures SumTo(Contributions(cov, w), k) == DotTo(w, MatVec(cov, w), k)
  {
    hide MatVec;
    if k > 0 { ContributionsSumTo(cov, w, k - 1); }
  }

  /** The contributions add up to the portfolio variance. */
  lemma ContributionsSum(cov: Mat, w: Vec)
    requires IsMat(cov, |w|, |w|)
    ensures Sum(Contributions(cov, w)) == Quad(cov, w)
  {
    ContributionsSumTo(cov, w, |w|);
  }

  ghost predicate AllPositive(w: Vec) { forall i :: 0 <= i < |w| ==> w[i] > 0.0 }

  ghost predicate Simplex(w: Vec) { AllPositive(w) && Sum(w) == 1.0 }

  ghost predicate Balanced(rc: Vec, target: real, tol: real) {
    forall i :: 0 <= i < |rc| ==> Abs(rc[i] - target) < tol
  }

  // ---------- one update ----------

  function Damped(w: real, target: real, rc: real): real {
    w + DAMPING * (w * target / Max(rc, DEGENERACY_EPS) - w)
  }

  function NextWeights(w: Vec, rc: Vec): (r: Vec)
    requires |rc| == |w| > 0
    ensures |r| == |w|
  {
    seq(|w|, i requires 0 <= i < |w| => Damped(w[i], Sum(rc) / (|w| as real), rc[i]))
  }

  /** Damping keeps at least half of every weight, whatever the sign of the contribution. */
  lemma DampedAtLeastHalf(w: real, target: real, rc: real)
    requires w > 0.0 && target >= 0.0
    ensures Damped(w, target, rc) >= w / 2.0 > 0.0
  {
  }

  lemma {:induction false} SumToMonotone(u: Vec, v: Vec, k: nat)
    requires |u| == |v| && k <= |u| && forall i :: 0 <= i < |u| ==> u[i] >= v[i] / 2.0
    ensures SumTo(u, k) >= SumTo(v, k) / 2.0
  {
    if k > 0 { SumToMonotone(u, v, k - 1); }
  }

  /** So the new total is at least one half and the degenerate-total break can never fire. */
  lemma NextTotal(w: Vec, rc: Vec)
    requires |rc| == |w| > 0 && Simplex(w) && Sum(rc) >= 0.0
    ensures AllPositive(NextWeights(w, rc)) && Sum(NextWeights(w, rc)) >= 0.5
  {
    hide Damped, SumTo;
    var target := Sum(rc) / (|w| as real);
    DivSign(Sum(rc), |w| as real);
    var next := NextWeights(w, rc);
    forall i | 0 <= i < |w| ensures next[i] >= w[i] / 2.0 > 0.0 { DampedAtLeastHalf(w[i], target, rc[i]); }
    SumToMonotone(next, w, |w|);
  }

  /** Every update stays on the open simplex. */
  lemma UpdateKeepsSimplex(w: Vec, rc: Vec)
    requires |rc| == |w| > 0 && Simplex(w) && Sum(rc) >= 0.0
    ensures Sum(NextWeights(w, rc)) >= 0.5 && Simplex(Normalised(NextWeights(w, rc)))
  {
    hide SumTo, NextWeights;
    NextTotal(w, rc);
    var next := NextWeights(w, rc);
    NormalisedSum(next);
    forall i | 0 <= i < |w| ensures Normalised(next)[i] > 0.0 { DivSign(next[i], Sum(next)); }
  }

  // ---------- fixed points ----------

  /** The contributions as an update reads them: none below the threshold. */
  function Floored(rc: Vec): (r: Vec)
    ensures |r| == |rc| && forall i :: 0 <= i < |r| ==> r[i] >= DEGENERACY_EPS
  {
    seq(|rc|, i requires 0 <= i < |rc| => Max(rc[i], DEGENERACY_EPS))
  }

  /** The factor an update multiplies a weight by. */
  function Share(target: real, floored: real): real
    requires floored != 0.0
  {
    0.5 + target / floored / 2.0
  }

  lemma SameShare(t: real, a: real, b: real)
    requires t > 0.0 && a > 0.0 && b > 0.0 && Share(t, a) == Share(t, b)
    ensures a == b
  {
  }

  lemma NextIsShare(w: Vec, rc: Vec, i: nat)
    requires |rc| == |w| > i
    ensures NextWeights(w, rc)[i] == Share(Sum(rc) / (|w| as real), Floored(rc)[i]) * w[i]
  {
  }

  /** A weight is left alone exactly when its share equals the new total. */
  lemma ShareFixed(w: Vec, rc: Vec, target: real, i: nat)
    requires |rc| == |w| > i && Simplex(w) && target == Sum(rc) / (|w| as real)
    requires Sum(NextWeights(w, rc)) >= 0.5
    ensures Normalised(NextWeights(w, rc))[i] == w[i] <==> Share(target, Floored(rc)[i]) == Sum(NextWeights(w, rc))
  {
    hide SumTo, NextWeights, Share;
    NextIsShare(w, rc, i);
    QuotientFixed(Share(target, Floored(rc)[i]), w[i], Sum(NextWeights(w, rc)));
  }

  lemma QuotientFixed(share: real, w: real, total: real)
    requires w > 0.0 && total > 0.0
    ensures share * w / total == w <==> share == total
  {
    var q := share * w / total;
    assert q * total == share * w;
    FactorSign(w, share - total, w * (share - total));
  }

  lemma {:induction false} ConstantSumTo(v: Vec, c: real, k: nat)
    requires k <= |v| && forall i :: 0 <= i < |v| ==> v[i] == c
    ensures SumTo(v, k) == c * (k as real)
  {
    if k > 0 {
      ConstantSumTo(v, c, k - 1);
      assert c * (k as real) == c * ((k - 1) as real) + c;
    }
  }

  ghost predicate AllEqual(rc: Vec) { forall i, j :: 0 <= i < |rc| && 0 <= j < |rc| ==> rc[i] == rc[j] }

  /** Equal floored contributions scale every weight by one share, which is then the new total. */
  lemma EqualSharesFixed(w: Vec, rc: Vec)
    requires |rc| == |w| > 0 && Simplex(w) && Sum(NextWeights(w, rc)) >= 0.5 && AllEqual(Floored(rc))
    ensures Normalised(NextWeights(w, rc)) == w
  {
    hide SumTo, NextWeights, Share, Normalised, Floored;
    var target := Sum(rc) / (|w| as real);
    var share, next := Share(target, Floored(rc)[0]), NextWeights(w, rc);
    forall i | 0 <= i < |w| ensures next[i] == Scale(share, w)[i] {
      NextIsShare(w, rc, i);
      assert Floored(rc)[i] == Floored(rc)[0];
    }
    assert next == Scale(share, w);
    SumScale(share, w);
    forall i | 0 <= i < |w| ensures Normalised(next)[i] == w[i] {
      assert Floored(rc)[i] == Floored(rc)[0];
      ShareFixed(w, rc, target, i);
    }
  }

  /** A portfolio is left alone by the update exactly when all its contributions, floored at 1e-12, are equal. */
  lemma FixedPointExactly(w: Vec, rc: Vec)
    requires |rc| == |w| > 0 && Simplex(w) && Sum(rc) > 0.0
    ensures Sum(NextWeights(w, rc)) >= 0.5
    ensures Normalised(NextWeights(w, rc)) == w <==> AllEqual(Floored(rc))
    ensures (forall i :: 0 <= i < |rc| ==> rc[i] >= DEGENERACY_EPS) ==> Floored(rc) == rc
  {
    hide SumTo, Damped, Share, NextWeights, Normalised;
    UpdateKeepsSimplex(w, rc);
    if AllEqual(Floored(rc)) { EqualSharesFixed(w, rc); }
    if Normalised(NextWeights(w, rc)) == w {
      var target, f := Sum(rc) / (|w| as real), Floored(rc);
      DivSign(Sum(rc), |w| as real);
      forall i, j | 0 <= i < |f| && 0 <= j < |f| ensures f[i] == f[j] {
        ShareFixed(w, rc, target, i);
        ShareFixed(w, rc, target, j);
        SameShare(target, f[i], f[j]);
      }
    }
  }

  // ---------- the loop ----------

  method RiskContributions(cov: Mat, w: Vec) returns (rc: Vec)
    requires IsMat(cov, |w|, |w|)
    ensures rc == Contributions(cov, w)
  {
    rc := [];
    for i := 0 to |w|
      invariant |rc| == i && forall k :: 0 <= k < i ==> rc[k] == Contributions(cov, w)[k]
    {
      var mrc := 0.0;
      for j := 0 to |w|
        invariant mrc == DotTo(cov[i], w, j)
      {
        mrc := mrc + cov[i][j] * w[j];
      }
      assert MatVec(cov, w)[i] == mrc;
      rc := rc + [w[i] * mrc];
    }
  }

  method IsConverged(rc: Vec, target: real) returns (converged: bool)
    ensures converged <==> Balanced(rc, target, CONVERGENCE_TOL)
  {
    converged := true;
    for i := 0 to |rc|
      invariant converged && forall k :: 0 <= k < i ==> Abs(rc[k] - target) < CONVERGENCE_TOL
    {
      if Abs(rc[i] - target) >= CONVERGENCE_TOL {
        return false;
      }
    }
  }

  method Update(w: Vec, rc: Vec, target: real) returns (next: Vec)
    requires |rc| == |w| > 0 && target == Sum(rc) / (|w| as real)
    ensures next == NextWeights(w, rc)
  {
    next := [];
    for i := 0 to |w|
      invariant |next| == i && forall k :: 0 <= k < i ==> next[k] == Damped(w[k], target, rc[k])
    {
      next := next + [w[i] + DAMPING * (w[i] * target / Max(rc[i], DEGENERACY_EPS) - w[i])];
    }
  }

  method Renormalise(next: Vec, total: real) returns (w: Vec)
    requires total == Sum(next) != 0.0
    ensures w == Normalised(next)
  {
    w := [];
    for i := 0 to |next|
      invariant |w| == i && forall k :: 0 <= k < i ==> w[k] == next[k] / total
    {
      w := w + [next[i] / total];
    }
  }

  /** How the iteration may stop before its limit: no risk left to share, or contributions equal to 1e-10. */
  ghost predicate Settled(cov: Mat, w: Vec)
    requires IsMat(cov, |w|, |w|) && |w| > 0
  {
    || Quad(cov, w) < 1e-12
    || Balanced(Contributions(cov, w), Quad(cov, w) / (|w| as real), 1e-10)
  }

  /** What stopping for lack of risk means: every contribution is tiny against its asset's own risk. */
  ghost predicate Negligible(cov: Mat, w: Vec)
    requires IsMat(cov, |w|, |w|)
  {
    && Quad(cov, w) < 1e-12
    && forall i :: 0 <= i < |w| ==>
         Contributions(cov, w)[i] * Contributions(cov, w)[i] <= w[i] * w[i] * (cov[i][i] * 1e-12)
  }

  /** A contribution is bounded by its weight, its asset's variance and the portfolio's, whatever its sign. */
  lemma ContributionBound(c: Mat, obs: nat, w: Vec, i: nat)
    requires IsMat(c, |c|, obs) && obs >= 2 && |w| == |c| && i < |c|
    ensures var cov := SampleCov(c, obs);
            && cov[i][i] >= 0.0
            && Contributions(cov, w)[i] * Contributions(cov, w)[i] <= w[i] * w[i] * (cov[i][i] * Quad(cov, w))
  {
    hide SampleCov, Quad, DotTo, MatVec;
    var cov, e := SampleCov(c, obs), Unit(|c|, i);
    CovCauchySchwarz(c, obs, e, w);
    SampleCovNonNegative(c, obs, e);
    UnitForms(cov, w, i);
    var b := Bilinear(cov, e, w);
    SquareSign(w[i], w[i] * w[i]);
    MulMonotone(b * b, cov[i][i] * Quad(cov, w), w[i] * w[i]);
    assert (w[i] * b) * (w[i] * b) == w[i] * w[i] * (b * b);
  }

  lemma UnitForms(cov: Mat, w: Vec, i: nat)
    requires IsMat(cov, |w|, |w|) && i < |w|
    ensures Quad(cov, Unit(|w|, i)) == cov[i][i]
    ensures Contributions(cov, w)[i] == w[i] * Bilinear(cov, Unit(|w|, i), w)
  {
    hide DotTo;
    var e := Unit(|w|, i);
    MatVecUnit(cov, |w|, i);
    DotComm(e, MatVec(cov, e));
    DotComm(e, MatVec(cov, w));
    DotUnit(MatVec(cov, e), i);
    DotUnit(MatVec(cov, w), i);
  }

  ghost predicate Evened(cov: Mat, w: Vec)
    requires IsMat(cov, |w|, |w|) && |w| > 0
  {
    Balanced(Contributions(cov, w), Quad(cov, w) / (|w| as real), 1e-10) || Negligible(cov, w)
  }

  /** Stopping early means that the contributions are balanced or negligible. */
  lemma SettledExactly(c: Mat, obs: nat, w: Vec)
    requires IsMat(c, |c|, obs) && obs >= 2 && |w| == |c| > 0
    ensures var cov := SampleCov(c, obs);
            Settled(cov, w) <==> Evened(cov, w)
  {
    hide SampleCov, Quad, Contributions, Balanced;
    var cov := SampleCov(c, obs);
    if Quad(cov, w) < DEGENERACY_EPS {
      forall i | 0 <= i < |w|
        ensures Contributions(cov, w)[i] * Contributions(cov, w)[i] <= w[i] * w[i] * (cov[i][i] * DEGENERACY_EPS)
      {
        ContributionBound(c, obs, w, i);
        SquareSign(w[i], w[i] * w[i]);
        MulMonotone(Quad(cov, w), DEGENERACY_EPS, cov[i][i]);
        MulMonotone(cov[i][i] * Quad(cov, w), cov[i][i] * DEGENERACY_EPS, w[i] * w[i]);
      }
    }
  }

  // ---------- when an early stop is an even one ----------

  /** No fully invested long portfolio has a variance below the threshold. */
  ghost predicate AlwaysRisky(cov: Mat)
    requires IsMat(cov, |cov|, |cov|)
  {
    forall x: Vec :: |x| == |cov| && Simplex(x) ==> Quad(cov, x) >= DEGENERACY_EPS
  }

  /** No two assets hedge each other. */
  predicate NoHedges(cov: Mat)
    requires IsMat(cov, |cov|, |cov|)
  {
    forall i, j :: 0 <= i < |cov| && 0 <= j < |cov| ==> cov[i][j] >= 0.0
  }

  lemma {:induction false} NonNegativeDotTo(a: Vec, b: Vec, k: nat)
    requires |a| == |b| && k <= |a| && forall i :: 0 <= i < |a| ==> a[i] >= 0.0 && b[i] >= 0.0
    ensures DotTo(a, b, k) >= 0.0
  {
    if k > 0 {
      NonNegativeDotTo(a, b, k - 1);
      ProductPositive(a[k - 1], b[k - 1], a[k - 1] * b[k - 1]);
    }
  }

  lemma {:induction false} EntryBelowSum(v: Vec, i: nat, k: nat)
    requires i < k <= |v| && forall j :: 0 <= j < |v| ==> v[j] >= 0.0
    ensures 0.0 <= v[i] <= SumTo(v, k)
  {
    if i < k - 1 { EntryBelowSum(v, i, k - 1); } else { NonNegativeSumOf(v, k - 1); }
  }

  lemma {:induction false} NonNegativeSumOf(v: Vec, k: nat)
    requires k <= |v| && forall j :: 0 <= j < |v| ==> v[j] >= 0.0
    ensures SumTo(v, k) >= 0.0
  {
    if k > 0 { NonNegativeSumOf(v, k - 1); }
  }

  /** Contributions that are not negative are balanced when they add up to less than the threshold. */
  lemma TinySharesBalanced(rc: Vec)
    requires |rc| > 0 && Sum(rc) < DEGENERACY_EPS && forall i :: 0 <= i < |rc| ==> rc[i] >= 0.0
    ensures Balanced(rc, Sum(rc) / (|rc| as real), CONVERGENCE_TOL)
  {
    hide SumTo;
    var n, q := |rc| as real, Sum(rc);
    NonNegativeSumOf(rc, |rc|);
    QuotientBelow(q, n, q / n);
    forall i | 0 <= i < |rc| ensures Abs(rc[i] - q / n) < CONVERGENCE_TOL {
      EntryBelowSum(rc, i, |rc|);
      CloseTogether(rc[i], q / n, q);
    }
  }

  lemma QuotientBelow(q: real, n: real, t: real)
    requires q >= 0.0 && n >= 1.0 && t == q / n
    ensures 0.0 <= t <= q
  {
    DivSign(q, n);
    assert t * n == q;
    if t > 0.0 { MulMonotone(1.0, n, t); }
  }

  lemma CloseTogether(x: real, y: real, q: real)
    requires 0.0 <= x <= q && 0.0 <= y <= q && q < DEGENERACY_EPS
    ensures Abs(x - y) < CONVERGENCE_TOL
  {
  }

  /** Without hedges, or when every portfolio carries risk, stopping early means that the contributions are balanced. */
  lemma EarlyStopBalanced(cov: Mat, w: Vec)
    requires |w| == |cov| > 0 && IsMat(cov, |cov|, |cov|) && Simplex(w) && Settled(cov, w)
    requires NoHedges(cov) || AlwaysRisky(cov)
    ensures Balanced(Contributions(cov, w), Quad(cov, w) / (|w| as real), 1e-10)
  {
    hide SumTo, Quad, DotTo, Balanced;
    if Quad(cov, w) < DEGENERACY_EPS {
      var rc := Contributions(cov, w);
      ContributionsSum(cov, w);
      forall i | 0 <= i < |w| ensures rc[i] >= 0.0 {
        NonNegativeDotTo(cov[i], w, |w|);
        ProductPositive(w[i], MatVec(cov, w)[i], rc[i]);
      }
      TinySharesBalanced(rc);
    }
  }

  // ---------- the iteration ----------

  function EqualWeights(n: nat): (w: Vec)
    requires n > 0
    ensures |w| == n && Simplex(w) && forall i :: 0 <= i < n ==> w[i] * (n as real) == 1.0
  {
    var w := seq(n, _ => 1.0 / (n as real));
    ConstantSumTo(w, 1.0 / (n as real), n);
    DivSign(1.0, n as real);
    w
  }

  /** The weights after k passes, from equal ones on; a settled portfolio stays as it is. */
  ghost function WeightsAfter(cov: Mat, k: nat): (w: Vec)
    requires |cov| > 0 && IsMat(cov, |cov|, |cov|)
    ensures |w| == |cov| && Simplex(w)
  {
    hide Simplex, Quad, Contributions, NextWeights, Normalised, Balanced;
    if k == 0 then EqualWeights(|cov|)
    else
      var w := WeightsAfter(cov, k - 1);
      if Settled(cov, w) then w
      else
        var rc := Contributions(cov, w);
        ContributionsSum(cov, w);
        UpdateKeepsSimplex(w, rc);
        Normalised(NextWeights(w, rc))
  }

  /** The pass at which the loop stops: the first settled one, or the limit. */
  ghost predicate StopsAt(cov: Mat, iterations: nat)
    requires |cov| > 0 && IsMat(cov, |cov|, |cov|)
  {
    && iterations <= 1000
    && (forall k :: 0 <= k < iterations ==> !Settled(cov, WeightsAfter(cov, k)))
    && (iterations < 1000 ==> Settled(cov, WeightsAfter(cov, iterations)))
  }

  method Iterate(cov: Mat) returns (w: Vec, ghost iterations: nat)
    requires |cov| > 0 && IsMat(cov, |cov|, |cov|)
    ensures |w| == |cov| && Simplex(w)
    ensures StopsAt(cov, iterations) && w == WeightsAfter(cov, iterations)
  {
    hide Simplex, SumTo, Quad, Contributions, NextWeights, Normalised, Balanced;
    var n := |cov|;
    w := EqualWeights(n);
    iterations := 0;
    var iter := 0;
    while iter < MAX_ITERATIONS
      invariant 0 <= iter <= MAX_ITERATIONS && iterations == iter
      invariant |w| == n && Simplex(w) && w == WeightsAfter(cov, iter)
      invariant forall k :: 0 <= k < iter ==> !Settled(cov, WeightsAfter(cov, k))
    {
      var rc := RiskContributions(cov, w);
      ContributionsSum(cov, w);
      var totalRc := SumOf(rc);
      if totalRc < DEGENERACY_EPS {
        break;
      }
      var target := totalRc / (n as real);
      var converged := IsConverged(rc, target);
      if converged {
        break;
      }
      var next := Update(w, rc, target);
      UpdateKeepsSimplex(w, rc);
      var nextTotal := SumOf(next);
      if nextTotal < DEGENERACY_EPS {
        break;
      }
      w := Renormalise(next, nextTotal);
      iter := iter + 1;
      iterations := iter;
    }
  }

  /** Summed sample variances of the assets. */
  function TotalVariance(cov: Mat): real
    requires IsMat(cov, |cov|, |cov|)
  {
    Sum(seq(|cov|, i requires 0 <= i < |cov| => cov[i][i]))
  }

  /** What a run delivers: the iteration's weights under their labels, and their metrics. */
  ghost predicate Allocated(rets: Mat, assets: seq<string>, sqrt: real -> real, p: Portfolio, iterations: nat)
    requires ValidReturns(rets, assets)
  {
    var cov := SampleCov(Centered(rets, |rets[0]|), |rets[0]|);
    && p.weights.Keys == (set l | l in assets)
    && var w := WeightsOf(p, assets);
       && StopsAt(cov, iterations) && w == WeightsAfter(cov, iterations) && Simplex(w)
       && p.expectedReturn == Dot(w, Means(rets))
       && p.volatility == sqrt(Max(0.0, Quad(cov, w)))
       && p.sharpeRatio == SharpeOf(p.expectedReturn, 0.0, p.volatility)
       && (iterations < 1000 ==> Evened(cov, w))
  }

  method Allocate(rets: Mat, assets: seq<string>, sqrt: real -> real)
    returns (r: Result<Portfolio>, ghost iterations: nat)
    requires IsSqrt(sqrt)
    ensures !ValidReturns(rets, assets) ==> r.Failure?
    ensures ValidReturns(rets, assets) ==>
              if TotalVariance(SampleCov(Centered(rets, |rets[0]|), |rets[0]|)) < DEGENERACY_EPS
              then r.Failure? && r.error.DataQuality?
              else r.Success? && Allocated(rets, assets, sqrt, r.value, iterations)
  {
    hide SumTo, Quad, Contributions, Balanced, SampleCov, Centered, Settled, MeanOf, Negligible, WeightsAfter;
    iterations := 0;
    var invalid := ValidateReturnMatrix(rets, assets);
    if invalid.Some? {
      return Failure(invalid.value), 0;
    }
    var n, obs := |rets|, |rets[0]|;
    var means := ComputeMeans(rets);
    var centered := CenterReturns(rets, means);
    var covArray := SampleCovariance(centered);
    var cov := ToMat(covArray);
    assert cov == SampleCov(centered, obs) by {
      forall i | 0 <= i < n ensures cov[i] == SampleCov(centered, obs)[i] {}
    }
    var diagonal := [];
    for i := 0 to n
      invariant |diagonal| == i && forall k :: 0 <= k < i ==> diagonal[k] == cov[k][k]
    {
      diagonal := diagonal + [cov[i][i]];
    }
    assert diagonal == seq(|cov|, i requires 0 <= i < |cov| => cov[i][i]);
    var totalVariance := SumOf(diagonal);
    if totalVariance < DEGENERACY_EPS {
      return Failure(DataQuality("all assets have zero volatility; cannot compute risk-parity weights")), 0;
    }
    var w;
    w, iterations := Iterate(cov);
    SettledExactly(centered, obs, w);
    var expectedReturn, volatility, sharpe := PortfolioMetrics(w, means, cov, 0.0, sqrt);
    SqrtSquared(sqrt, Max(0.0, Quad(cov, w)));
    r := BuildResult(w, assets, expectedReturn, volatility, sharpe);
  }

  /** What is reported is measured on the portfolio's own return series. */
  lemma AllocatedMeasures(rets: Mat, assets: seq<string>, sqrt: real -> real, p: Portfolio, iterations: nat)
    requires IsSqrt(sqrt) && ValidReturns(rets, assets) && Allocated(rets, assets, sqrt, p, iterations)
    ensures var w, obs := WeightsOf(p, assets), |rets[0]|;
            && |w| == |rets|
            && var own := Comb(rets, w, obs);
               && p.expectedReturn * (obs as real) == Sum(own)
               && p.volatility >= 0.0 && p.volatility * p.volatility == SampleVariance(own)
               && (p.volatility > 0.0 ==> p.sharpeRatio * p.volatility == p.expectedReturn)
  {
    hide DotTo, IsSqrt, Means, WeightsOf, Quad, SampleVariance, Comb, Sum, Dot, SampleCov, Centered, Evened, StopsAt,
         WeightsAfter, AllPositive;
    var w, obs := WeightsOf(p, assets), |rets[0]|;
    PortfolioMean(rets, obs, w);
    PortfolioVariance(rets, obs, w);
    SampleCovNonNegative(Centered(rets, obs), obs, w);
    SqrtSquared(sqrt, Max(0.0, Quad(SampleCov(Centered(rets, obs), obs), w)));
  }
}
