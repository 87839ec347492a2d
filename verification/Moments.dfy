/** What means and covariances say about a portfolio: its own return series has the reported mean and variance. */
module Moments {
  import opened Reals
  import opened LinearAlgebra
  import opened Covariance

  /** The variance of factor returns under the usual definition, mean removed. */
  function SampleVariance(f: Vec): real
    requires |f| >= 2
  {
    var m := MeanOf(f);
    var d := Sub(f, Scale(m, Ones(|f|)));
    (1.0 / (|f| as real - 1.0)) * Dot(d, d)
  }

  lemma {:induction false} CenteredSumTo(r: Vec, m: real, c: Vec, k: nat)
    requires |c| == |r| && k <= |r| && forall t :: 0 <= t < |r| ==> c[t] == r[t] - m
    ensures SumTo(c, k) == SumTo(r, k) - m * (k as real)
  {
    if k > 0 {
      CenteredSumTo(r, m, c, k - 1);
      assert m * (k as real) == m * ((k - 1) as real) + m;
    }
  }

  lemma CenteredSumsToZero(rets: Mat, obs: nat, i: nat)
    requires IsMat(rets, |rets|, obs) && obs > 0 && i < |rets|
    ensures Sum(Centered(rets, obs)[i]) == 0.0
  {
    var m := MeanOf(rets[i]);
    CenteredSumTo(rets[i], m, Centered(rets, obs)[i], obs);
    assert Sum(rets[i]) / (obs as real) * (obs as real) == Sum(rets[i]);
  }

  /** Factor returns have mean zero, because the series are centred. */
  lemma FactorSumsToZero(rets: Mat, obs: nat, w: Vec)
    requires IsMat(rets, |rets|, obs) && obs > 0 && |w| == |rets|
    ensures Sum(Comb(Centered(rets, obs), w, obs)) == 0.0
  {
    hide DotTo, SumTo, MatVec, Centered;
    var c := Centered(rets, obs);
    var ones := Ones(obs);
    SumIsDot(Comb(c, w, obs));
    Adjoint(c, ones, w);
    RowSumsVanish(rets, obs);
    DotToZeros(w, MatVec(c, ones), |w|);
  }

  lemma RowSumsVanish(rets: Mat, obs: nat)
    requires IsMat(rets, |rets|, obs) && obs > 0
    ensures forall i :: 0 <= i < |rets| ==> MatVec(Centered(rets, obs), Ones(obs))[i] == 0.0
  {
    hide DotTo, SumTo, Centered;
    var c := Centered(rets, obs);
    forall i | 0 <= i < |rets| ensures MatVec(c, Ones(obs))[i] == 0.0 {
      SumIsDot(c[i]);
      CenteredSumsToZero(rets, obs, i);
    }
  }

  /** The sample variance of the portfolio series with weights w is w' Cov w. */
  lemma FactorVariance(rets: Mat, obs: nat, w: Vec)
    requires IsMat(rets, |rets|, obs) && obs >= 2 && |w| == |rets|
    ensures SampleVariance(Comb(Centered(rets, obs), w, obs)) == Quad(SampleCov(Centered(rets, obs), obs), w)
  {
    hide DotTo, SumTo, MatVec, Centered, SampleCov;
    var f := Comb(Centered(rets, obs), w, obs);
    FactorSumsToZero(rets, obs, w);
    assert MeanOf(f) == 0.0;
    assert Sub(f, Scale(0.0, Ones(obs))) == f;
    CovBilinear(Centered(rets, obs), obs, w, w);
  }

  // ---------- the portfolio's own series ----------

  lemma RowMean(r: Vec)
    requires |r| > 0
    ensures Dot(r, Ones(|r|)) == |r| as real * MeanOf(r)
  {
    SumIsDot(r);
    DotComm(r, Ones(|r|));
    DivSign(Sum(r), |r| as real);
  }

  /** The weighted means are the mean of the weighted series. */
  lemma PortfolioMean(rets: Mat, obs: nat, w: Vec)
    requires IsMat(rets, |rets|, obs) && obs > 0 && |w| == |rets|
    ensures Dot(w, Means(rets)) * (obs as real) == Sum(Comb(rets, w, obs))
  {
    hide DotTo, SumTo, MeanOf, Comb;
    var n, ones := obs as real, Ones(obs);
    SumIsDot(Comb(rets, w, obs));
    Adjoint(rets, ones, w);
    DotComm(ones, Comb(rets, w, obs));
    forall i | 0 <= i < |rets| ensures MatVec(rets, ones)[i] == Scale(n, Means(rets))[i] { RowMean(rets[i]); }
    assert MatVec(rets, ones) == Scale(n, Means(rets));
    DotScale(w, n, Means(rets));
  }

  /** Centring the assets centres the portfolio. */
  lemma CenteredPortfolio(rets: Mat, obs: nat, w: Vec, t: nat)
    requires IsMat(rets, |rets|, obs) && t < obs && |w| == |rets|
    ensures Comb(Centered(rets, obs), w, obs)[t] == Comb(rets, w, obs)[t] - Dot(w, Means(rets))
  {
    hide DotTo, SumTo, MeanOf, Comb;
    var c := Centered(rets, obs);
    CombEntry(c, w, obs, t);
    CombEntry(rets, w, obs, t);
    assert Col(c, obs, t) == Sub(Col(rets, obs, t), Means(rets)) by {
      var l, r := Col(c, obs, t), Sub(Col(rets, obs, t), Means(rets));
      forall i | 0 <= i < |rets| ensures l[i] == r[i] {}
    }
    DotSub(w, Col(rets, obs, t), Means(rets));
  }

  /** The variance of the raw weighted series is w' Cov w. */
  lemma PortfolioVariance(rets: Mat, obs: nat, w: Vec)
    requires IsMat(rets, |rets|, obs) && obs >= 2 && |w| == |rets|
    ensures SampleVariance(Comb(rets, w, obs)) == Quad(SampleCov(Centered(rets, obs), obs), w)
  {
    hide DotTo, SumTo, Comb, SampleCov, Centered, Means, Quad, Dot;
    var p, c, m := Comb(rets, w, obs), Comb(Centered(rets, obs), w, obs), Dot(w, Means(rets));
    PortfolioMean(rets, obs, w);
    assert MeanOf(p) == m by { QuotientIs(Sum(p), obs as real, m); }
    var d := Sub(p, Scale(m, Ones(obs)));
    forall t | 0 <= t < obs ensures d[t] == c[t] { CenteredPortfolio(rets, obs, w, t); }
    assert d == c;
    CovBilinear(Centered(rets, obs), obs, w, w) by { hide CombTo; }
    QuadIsBilinear(SampleCov(Centered(rets, obs), obs), w);
  }

  lemma QuotientIs(s: real, n: real, m: real)
    requires n > 0.0 && m * n == s
    ensures s / n == m
  {
  }

  lemma QuadIsBilinear(m: Mat, x: Vec)
    requires IsMat(m, |x|, |x|)
    ensures Quad(m, x) == Bilinear(m, x, x)
  {
  }

  /** What a fully described portfolio reports of its own return series. */
  lemma RidgedPortfolioVariance(rets: Mat, obs: nat, w: Vec)
    requires IsMat(rets, |rets|, obs) && obs >= 2 && |w| == |rets| > 0 && obs == |rets[0]|
    ensures Quad(Sigma(rets), w) == SampleVariance(Comb(rets, w, obs)) + 1e-8 * Dot(w, w)
  {
    hide SampleCov, Centered, Quad, Comb, Dot, Ridged, SampleVariance;
    PortfolioVariance(rets, obs, w);
    RidgeQuad(SampleCov(Centered(rets, obs), obs), w);
  }
}
