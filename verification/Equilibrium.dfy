/** What the Black-Litterman prior and its uncertainty mean: the prior makes the market portfolio the best one, and the
    returned means do not depend on tau. */
module Equilibrium {
  import opened Reals
  import opened LinearAlgebra
  import opened Inverse
  import opened Covariance
  import opened Moments
  import opened TwoFunds
  import opened Posterior
  import opened BlackLitterman

  // ---------- reverse optimisation ----------

  /** Expected return less half the risk aversion times variance. */
  ghost function Utility(sigma: Mat, means: Vec, riskAversion: real, x: Vec): real
    requires IsMat(sigma, |x|, |x|) && |means| == |x|
  {
    Dot(x, means) - riskAversion / 2.0 * Quad(sigma, x)
  }

  /** Weights in proportion to the market capitalisations. */
  ghost predicate IsMarket(caps: Vec, m: Vec) {
    |m| == |caps| && forall i :: 0 <= i < |m| ==> m[i] * Sum(caps) == caps[i]
  }

  /** At the prior means no portfolio whatever has more utility than the market, and no other has as much. */
  lemma MarketIsBest(req: BlackLittermanRequest, m: Vec, x: Vec)
    requires ValidBlackLitterman(req) && IsMarket(req.marketCaps, m) && |x| == |req.history|
    ensures Utility(Sigma(req.history), Prior(req), req.riskAversion, x)
         <= Utility(Sigma(req.history), Prior(req), req.riskAversion, m)
    ensures x != m ==>
              Utility(Sigma(req.history), Prior(req), req.riskAversion, x)
              < Utility(Sigma(req.history), Prior(req), req.riskAversion, m)
  {
    hide Sigma, DotTo, SumTo, MatVec, SymmetricEntries, PositiveEverywhere, Quad, Bilinear;
    var s, delta := Sigma(req.history), req.riskAversion;
    PositiveFactors(req);
    SigmaPositiveDefinite(req.history);
    PriorTimes(req, m, x);
    PriorTimes(req, m, m);
    QuadOfDifference(s, x, m);
    QuadIsBilinear(s, m);
    var d := Sub(x, m);
    QuadNonNegative(s, d);
    if x != m {
      var i :| 0 <= i < |m| && x[i] != m[i];
      assert d[i] != 0.0;
      PositiveAt(s, d);
    }
    UtilityGap(Dot(x, Prior(req)), Dot(m, Prior(req)), delta, Quad(s, x), Bilinear(s, x, m), Quad(s, m), Quad(s, d));
  }

  /** The prior pays every portfolio risk aversion times its covariance with the market. */
  lemma PriorTimes(req: BlackLittermanRequest, m: Vec, x: Vec)
    requires ValidBlackLitterman(req) && IsMarket(req.marketCaps, m) && |x| == |req.history|
    ensures Dot(x, Prior(req)) == req.riskAversion * Bilinear(Sigma(req.history), x, m)
  {
    hide Sigma, DotTo, SumTo, MatVec;
    var caps := req.marketCaps;
    CapSumPositive(caps);
    forall i | 0 <= i < |m| ensures m[i] == Normalised(caps)[i] { ShareOf(m[i], Sum(caps), caps[i]); }
    assert m == Normalised(caps);
    DotScale(x, req.riskAversion, MatVec(Sigma(req.history), m));
  }

  lemma ShareOf(m: real, total: real, cap: real)
    requires total > 0.0 && m * total == cap
    ensures m == cap / total
  {
  }

  lemma UtilityGap(rx: real, rm: real, delta: real, qx: real, b: real, qm: real, qd: real)
    requires rx == delta * b && rm == delta * qm && delta > 0.0 && qd == qx - 2.0 * b + qm && qd >= 0.0
    ensures rx - delta / 2.0 * qx <= rm - delta / 2.0 * qm
    ensures qd > 0.0 ==> rx - delta / 2.0 * qx < rm - delta / 2.0 * qm
  {
    var h := delta / 2.0;
    ProductPositive(h, qd, h * qd);
    assert h * qd == h * qx - 2.0 * (h * b) + h * qm;
  }

  // ---------- tau scales the uncertainty and nothing else ----------

  lemma ScaledInverse(t: Mat, ti: Mat, k: real, l: real)
    requires IsInverse(t, ti) && k * l == 1.0
    ensures IsInverse(Scaled(k, t), Scaled(l, ti))
  {
    hide MatVec, Undoes, Scaled;
    UndoesScaled(t, ti, k, l);
    UndoesScaled(ti, t, l, k);
  }

  lemma UndoesScaled(a: Mat, b: Mat, k: real, l: real)
    requires IsMat(a, |a|, |a|) && IsMat(b, |a|, |a|) && Undoes(a, b) && k * l == 1.0
    ensures Undoes(Scaled(k, a), Scaled(l, b))
  {
    hide MatVec, Scaled;
    forall x: Vec | |x| == |a| ensures MatVec(Scaled(l, b), MatVec(Scaled(k, a), x)) == x {
      var y := MatVec(a, x);
      ScaledVec(k, a, x);
      ScaledVec(l, b, Scale(k, y));
      MatVecScale(b, k, y);
      ScaleInverse(l, k, x);
    }
  }

  lemma WeighScaled(l: real, s: Vec, x: Vec)
    requires |s| == |x|
    ensures Weigh(Scale(l, s), x) == Scale(l, Weigh(s, x))
  {
    forall i | 0 <= i < |s| ensures Weigh(Scale(l, s), x)[i] == Scale(l, Weigh(s, x))[i] {}
  }

  lemma ViewPrecisionScaled(p: Mat, s: Vec, n: nat, l: real)
    requires IsMat(p, |p|, n) && |s| == |p|
    ensures ViewPrecision(p, Scale(l, s), n) == Scaled(l, ViewPrecision(p, s, n))
  {
    hide DotTo, Weigh, Scale, Col;
    var v, r := ViewPrecision(p, s, n), ViewPrecision(p, Scale(l, s), n);
    forall a | 0 <= a < n ensures r[a] == Scale(l, v[a]) {
      forall b | 0 <= b < n ensures r[a][b] == l * v[a][b] {
        var x, y := Col(p, n, a), Col(p, n, b);
        WeighScaled(l, s, x);
        DotComm(Scale(l, Weigh(s, x)), y);
        DotScale(y, l, Weigh(s, x));
        DotComm(y, Weigh(s, x));
      }
      ScaleEntries(l, v[a], r[a]);
    }
  }

  lemma MatAddScaled(l: real, a: Mat, b: Mat)
    requires IsMat(a, |a|, |a|) && IsMat(b, |a|, |a|)
    ensures MatAdd(Scaled(l, a), Scaled(l, b)) == Scaled(l, MatAdd(a, b))
  {
    var x, y := MatAdd(Scaled(l, a), Scaled(l, b)), Scaled(l, MatAdd(a, b));
    forall i | 0 <= i < |a| ensures x[i] == y[i] {
      forall j | 0 <= j < |a| ensures x[i][j] == y[i][j] {
        assert l * a[i][j] + l * b[i][j] == l * (a[i][j] + b[i][j]);
      }
    }
  }

  lemma CombScaled(p: Mat, x: Vec, n: nat, l: real)
    requires IsMat(p, |p|, n) && |x| == |p|
    ensures Comb(p, Scale(l, x), n) == Scale(l, Comb(p, x, n))
  {
    hide DotTo, CombTo, Scale, Col;
    var u, v := Comb(p, Scale(l, x), n), Comb(p, x, n);
    forall j | 0 <= j < n ensures u[j] == l * v[j] {
      CombEntry(p, Scale(l, x), n, j);
      CombEntry(p, x, n, j);
      DotScale(Col(p, n, j), l, x);
    }
    ScaleEntries(l, v, u);
  }

  lemma AddScaled(l: real, a: Vec, b: Vec)
    requires |a| == |b|
    ensures Add(Scale(l, a), Scale(l, b)) == Scale(l, Add(a, b))
  {
    var x, y := Add(Scale(l, a), Scale(l, b)), Scale(l, Add(a, b));
    forall i | 0 <= i < |a| ensures x[i] == y[i] { assert l * a[i] + l * b[i] == l * (a[i] + b[i]); }
  }

  /** The normal equations scaled: the same mean solves them. */
  lemma SolvesScaled(ti: Mat, prior: Vec, p: Mat, q: Vec, s: Vec, mu: Vec, l: real)
    requires IsMat(ti, |mu|, |mu|) && |prior| == |mu| && IsMat(p, |p|, |mu|) && |q| == |s| == |p|
    requires SolvesPosterior(ti, prior, p, q, s, mu)
    ensures SolvesPosterior(Scaled(l, ti), prior, p, q, Scale(l, s), mu)
  {
    hide DotTo, MatVec, Weigh, ViewPrecision, MatAdd, Scaled, Scale, CombTo, Comb, Add;
    var n := |mu|;
    var v := ViewPrecision(p, s, n);
    ViewPrecisionScaled(p, s, n, l);
    MatAddScaled(l, ti, v);
    ScaledVec(l, MatAdd(ti, v), mu);
    ScaledVec(l, ti, prior);
    WeighScaled(l, s, q);
    CombScaled(p, Weigh(s, q), n, l);
    AddScaled(l, MatVec(ti, prior), Comb(p, Weigh(s, q), n));
  }

  lemma ViewWeightsScaled(t: Mat, p: Mat, s: Vec, k: real, l: real)
    requires IsMat(t, |t|, |t|) && IsMat(p, |p|, |t|) && |s| == |p| && ViewWeights(t, p, s) && k * l == 1.0 && l > 0.0
    requires forall i :: 0 <= i < |p| ==> k * Quad(t, p[i]) >= DEGENERACY_EPS
    ensures ViewWeights(Scaled(k, t), p, Scale(l, s))
  {
    hide Quad, Scaled;
    forall i | 0 <= i < |p|
      ensures Quad(Scaled(k, t), p[i]) == k * Quad(t, p[i]) && (l * s[i]) * (k * Quad(t, p[i])) == 1.0 && l * s[i] > 0.0
    {
      ScaledQuad(k, t, p[i]);
      var q := Quad(t, p[i]);
      assert (l * s[i]) * (k * q) == (k * l) * (s[i] * q);
      ProductPositive(l, s[i], l * s[i]);
    }
  }

  /** The same request with tau multiplied by k. */
  function Retuned(req: BlackLittermanRequest, k: real): BlackLittermanRequest { req.(tau := k * req.tau) }

  /** Multiplying tau by k leaves the posterior mean alone and multiplies what the posterior adds to the covariance by
      k. */
  lemma TauScalesUncertainty(req: BlackLittermanRequest, k: real, mu: Vec, covariance: Mat, ti: Mat, s: Vec, m1inv: Mat,
                             mu': Vec, covariance': Mat, ti': Mat, s': Vec, m1inv': Mat)
    requires ValidBlackLitterman(req) && k > 0.0 && ValidBlackLitterman(Retuned(req, k))
    requires IsPosterior(req, mu, covariance, ti, s, m1inv)
    requires IsPosterior(Retuned(req, k), mu', covariance', ti', s', m1inv')
    ensures mu' == mu
    ensures covariance == MatAdd(Sigma(req.history), m1inv)
    ensures covariance' == MatAdd(Sigma(req.history), Scaled(k, m1inv))
  {
    hide DotTo, MatVec, Undoes, Sigma, Weigh, ViewPrecision, MatAdd, Scaled, Prior, ViewWeights, Comb, Add, Quad,
         SolvesPosterior, ValidBlackLitterman, ValidViews, IsInverse, Scale;
    ShapeOf(req);
    ShapeOf(Retuned(req, k));
    var sigma, p, q := Sigma(req.history), req.pMatrix, req.qVector;
    SamePrior(req, k);
    var t, l := Scaled(req.tau, sigma), 1.0 / k;
    DivSign(1.0, k);
    ScaledTwice(k, req.tau, sigma, Retuned(req, k).tau);
    ScaledInverse(t, ti, k, l);
    WeightsAt(Scaled(k, t), t, p, s, s', k);
    ViewWeightsScaled(t, p, s, k, l);
    SolvesScaled(ti, Prior(req), p, q, s, mu, l);
    var m1 := MatAdd(ti, ViewPrecision(p, s, |t|));
    ViewPrecisionScaled(p, s, |t|, l);
    MatAddScaled(l, ti, ViewPrecision(p, s, |t|));
    ScaledInverse(m1, m1inv, l, k);
    PosteriorUnique(Retuned(req, k), mu', covariance', ti', s', m1inv',
                    mu, MatAdd(sigma, Scaled(k, m1inv)), Scaled(l, ti), Scale(l, s), Scaled(k, m1inv));
  }

  lemma ShapeOf(req: BlackLittermanRequest)
    requires ValidBlackLitterman(req)
    ensures |req.history| > 0 && |req.history[0]| >= 2 && IsMat(req.history, |req.history|, |req.history[0]|)
    ensures IsMat(req.pMatrix, |req.pMatrix|, |req.history|) && |req.qVector| == |req.pMatrix|
  {
  }

  lemma SamePrior(req: BlackLittermanRequest, k: real)
    requires ValidBlackLitterman(req) && ValidBlackLitterman(Retuned(req, k))
    ensures Prior(Retuned(req, k)) == Prior(req)
  {
  }

  lemma ScaledTwice(k: real, c: real, m: Mat, kc: real)
    requires IsMat(m, |m|, |m|) && kc == k * c
    ensures Scaled(kc, m) == Scaled(k, Scaled(c, m))
  {
    var x, y := Scaled(kc, m), Scaled(k, Scaled(c, m));
    forall i | 0 <= i < |m| ensures x[i] == y[i] {
      forall j | 0 <= j < |m| ensures x[i][j] == y[i][j] { assert (k * c) * m[i][j] == k * (c * m[i][j]); }
    }
  }

  lemma WeightsAt(kt: Mat, t: Mat, p: Mat, s: Vec, s': Vec, k: real)
    requires IsMat(t, |t|, |t|) && kt == Scaled(k, t) && IsMat(p, |p|, |t|) && |s| == |s'| == |p|
    requires ViewWeights(t, p, s) && ViewWeights(kt, p, s')
    ensures forall i :: 0 <= i < |p| ==> k * Quad(t, p[i]) >= DEGENERACY_EPS
  {
    hide Quad, Scaled;
    forall i | 0 <= i < |p| ensures k * Quad(t, p[i]) >= DEGENERACY_EPS { ScaledQuad(k, t, p[i]); }
  }
}
