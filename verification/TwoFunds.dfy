/** The two closed-form funds: the minimum-variance fund is the unique global optimum, the tangency fund has the largest
    squared Sharpe ratio, and every blend of the two is mean-variance efficient. */
module TwoFunds {
  import opened Reals
  import opened LinearAlgebra
  import opened Inverse

  const DEGENERACY_EPS: real := 1e-12

  ghost predicate FullyInvested(w: Vec, n: nat) { |w| == n && Sum(w) == 1.0 }

  // ---------- the ridge rules out singular pivots ----------

  lemma Distribute(c: real, a: real, b: real)
    ensures c * (a + b) == c * a + c * b
  {
  }

  predicate SmallSum(p: real, eps: real, k: real, q: real) { 2.0 * p <= eps * (k + q) }

  lemma {:induction false} SmallDot(x: Vec, v: Vec, eps: real, k: nat)
    requires k <= |x| == |v| && Below(v, eps)
    ensures SmallSum(DotTo(x, v, k), eps, k as real, DotTo(x, x, k))
  {
    hide SmallSum;
    if k == 0 {
      SmallBase(eps);
    } else {
      SmallDot(x, v, eps, k - 1);
      SmallStep(x[k - 1], v[k - 1], eps, (k - 1) as real, DotTo(x, v, k - 1), DotTo(x, x, k - 1),
                k as real, DotTo(x, v, k), DotTo(x, x, k));
    }
  }

  lemma SmallBase(eps: real)
    ensures SmallSum(0.0, eps, 0.0, 0.0)
  {
  }

  lemma SmallStep(x: real, v: real, eps: real, k: real, p: real, q: real, k': real, p': real, q': real)
    requires Abs(v) < eps && SmallSum(p, eps, k, q)
    requires k' == k + 1.0 && p' == p + x * v && q' == q + x * x
    ensures SmallSum(p', eps, k', q')
  {
    SmallProduct(x, v, eps);
    Distribute(eps, k + q, 1.0 + x * x);
  }

  lemma SmallProduct(x: real, v: real, eps: real)
    requires Abs(v) < eps
    ensures 2.0 * (x * v) <= eps * (1.0 + x * x)
  {
    var y := Abs(x);
    var z := (1.0 - y) * (1.0 - y);
    SquareSign(1.0 - y, z);
    assert z == 1.0 - 2.0 * y + x * x;
    MulMonotone(2.0 * y, 1.0 + x * x, eps);
    MulMonotone(Abs(v), eps, y);
    AbsProduct(x, v);
  }

  lemma AbsProduct(x: real, v: real)
    ensures x * v <= Abs(x) * Abs(v)
  {
  }

  lemma {:induction false} UnitEntryNorm(x: Vec, j: nat, k: nat)
    requires j < k <= |x| && x[j] == 1.0
    ensures DotTo(x, x, k) >= 1.0
  {
    DotToSelf(x, k - 1, 0);
    if j < k - 1 {
      UnitEntryNorm(x, j, k - 1);
      SquareSign(x[k - 1], x[k - 1] * x[k - 1]);
    }
  }

  /** A matrix bounded below by `floor` cannot fail the pivot test while n + 1 < 2 floor / 1e-15. */
  lemma BoundedBelowNotNearSingular(a: Mat, floor: real)
    requires IsMat(a, |a|, |a|) && BoundedBelow(a, floor)
    requires floor > 0.0 && PIVOT_EPS * (|a| as real + 1.0) < 2.0 * floor
    ensures !NearSingular(a)
  {
    hide DotTo, MatVec, SymmetricEntries;
    forall x: Vec, k: nat | |x| == |a| && k < |a| && x[k] == 1.0
      ensures !Below(MatVec(a, x), PIVOT_EPS)
    {
      if Below(MatVec(a, x), PIVOT_EPS) {
        SmallDot(x, MatVec(a, x), PIVOT_EPS, |a|);
        UnitEntryNorm(x, k, |a|);
        FloorTooHigh(|a| as real, floor, Dot(x, x), Quad(a, x));
      }
    }
  }

  lemma FloorTooHigh(n: real, floor: real, q: real, s: real)
    requires n >= 0.0 && q >= 1.0 && s >= floor * q && 2.0 * s <= PIVOT_EPS * (n + q)
    ensures PIVOT_EPS * (n + 1.0) >= 2.0 * floor
  {
  }

  // ---------- the minimum-variance fund ----------

  /** Every asset has the same covariance with the portfolio, namely its variance. */
  ghost predicate IsMinVariance(s: Mat, w: Vec)
    requires IsMat(s, |s|, |s|)
  {
    FullyInvested(w, |s|) && MatVec(s, w) == Scale(Quad(s, w), Ones(|s|))
  }

  /** Any portfolio's covariance with the minimum-variance fund is var_mv times its total weight. */
  lemma CovarianceWithMinVariance(s: Mat, mv: Vec, x: Vec)
    requires IsMat(s, |s|, |s|) && IsMinVariance(s, mv) && |x| == |s|
    ensures Bilinear(s, x, mv) == Quad(s, mv) * Sum(x)
  {
    hide DotTo, MatVec, SymmetricEntries, PositiveEverywhere, Add, Scale, Sub, SumTo;
    DotScale(x, Quad(s, mv), Ones(|s|));
    SumIsDot(x);
  }

  lemma FullyInvestedNonZero(w: Vec, n: nat)
    requires FullyInvested(w, n)
    ensures w != Zeros(n)
  {
    if w == Zeros(n) {
      SumIsDot(w);
      DotToZeros(Ones(n), w, n);
    }
  }

  lemma VariancePositive(s: Mat, w: Vec)
    requires PositiveDefinite(s) && FullyInvested(w, |s|)
    ensures Quad(s, w) > 0.0
  {
    hide DotTo, MatVec, SymmetricEntries, PositiveEverywhere, Add, Scale, Sub, SumTo;
    FullyInvestedNonZero(w, |s|);
    PositiveAt(s, w);
  }

  lemma QuadOfDifference(s: Mat, x: Vec, w: Vec)
    requires Symmetric(s) && |x| == |w| == |s|
    ensures Quad(s, Sub(x, w)) == Quad(s, x) - 2.0 * Bilinear(s, x, w) + Quad(s, w)
  {
    hide DotTo, MatVec, SymmetricEntries, PositiveEverywhere;
    assert Scale(1.0, x) == x && Scale(1.0, w) == w;
    QuadDifference(s, 1.0, x, 1.0, w);
  }

  /** A portfolio whose covariance with `w` equals var(w) is at least as risky as `w`, and strictly so unless equal. */
  lemma EqualCovarianceIsRiskier(s: Mat, x: Vec, w: Vec)
    requires PositiveDefinite(s) && |x| == |w| == |s| && Bilinear(s, x, w) == Quad(s, w)
    ensures Quad(s, x) >= Quad(s, w)
    ensures x != w ==> Quad(s, x) > Quad(s, w)
  {
    hide DotTo, MatVec, SymmetricEntries, PositiveEverywhere, SumTo;
    var d := Sub(x, w);
    QuadOfDifference(s, x, w);
    QuadNonNegative(s, d);
    if x != w {
      var i :| 0 <= i < |s| && x[i] != w[i];
      assert d[i] != 0.0;
      assert d != Zeros(|s|);
      PositiveAt(s, d);
    }
  }

  /** The minimum-variance fund is the unique global optimum over all fully invested portfolios. */
  lemma MinVarianceIsOptimal(s: Mat, mv: Vec, x: Vec)
    requires PositiveDefinite(s) && IsMinVariance(s, mv) && FullyInvested(x, |s|)
    ensures Quad(s, x) >= Quad(s, mv)
    ensures x != mv ==> Quad(s, x) > Quad(s, mv)
  {
    hide DotTo, MatVec, SymmetricEntries, PositiveEverywhere, Add, Scale, Sub, SumTo;
    CovarianceWithMinVariance(s, mv, x);
    EqualCovarianceIsRiskier(s, x, mv);
  }

  /** inv * 1 / (1' inv 1) is the minimum-variance fund, and its variance is 1 / (1' inv 1). */
  lemma InverseGivesMinVariance(s: Mat, inv: Mat)
    requires PositiveDefinite(s) && IsInverse(s, inv) && |s| > 0
    ensures Sum(MatVec(inv, Ones(|s|))) > 0.0
    ensures var u := MatVec(inv, Ones(|s|)); var mv := Scale(1.0 / Sum(u), u);
            IsMinVariance(s, mv) && Quad(s, mv) == 1.0 / Sum(u)
  {
    InverseAt(s, inv, Ones(|s|));
    SolutionGivesMinVariance(s, MatVec(inv, Ones(|s|)));
  }

  lemma SolutionSumPositive(s: Mat, u: Vec)
    requires PositiveDefinite(s) && |u| == |s| > 0 && MatVec(s, u) == Ones(|s|)
    ensures Sum(u) == Quad(s, u) > 0.0
  {
    hide DotTo, SymmetricEntries, PositiveEverywhere;
    SumIsDot(u);
    DotToZeros(s[0], Zeros(|s|), |s|);
    assert MatVec(s, u)[0] == 1.0;
    assert u != Zeros(|s|);
    PositiveAt(s, u);
  }

  lemma SolutionGivesMinVariance(s: Mat, u: Vec)
    requires PositiveDefinite(s) && |u| == |s| > 0 && MatVec(s, u) == Ones(|s|)
    ensures Sum(u) > 0.0
    ensures IsMinVariance(s, Scale(1.0 / Sum(u), u)) && Quad(s, Scale(1.0 / Sum(u), u)) == 1.0 / Sum(u)
  {
    hide DotTo, MatVec, SymmetricEntries, PositiveEverywhere, Add, Scale, Sub, SumTo;
    SolutionSumPositive(s, u);
    ScaledSolution(s, u, 1.0 / Sum(u));
  }

  lemma ScaledSolution(s: Mat, u: Vec, c: real)
    requires IsMat(s, |s|, |s|) && |u| == |s| && MatVec(s, u) == Ones(|s|) && c * Sum(u) == 1.0
    ensures IsMinVariance(s, Scale(c, u)) && Quad(s, Scale(c, u)) == c
  {
    hide DotTo, MatVec, SymmetricEntries, PositiveEverywhere;
    var mv := Scale(c, u);
    SumScale(c, u);
    MatVecScale(s, c, u);
    DotScale(mv, c, Ones(|s|));
    SumIsDot(mv);
    assert Sum(mv) == 1.0;
    assert Quad(s, mv) == c * 1.0;
  }

  // ---------- the tangency fund ----------

  /** The fund's covariances are proportional to the excess returns. */
  ghost predicate IsTangency(s: Mat, e: Vec, ratio: real, w: Vec)
    requires IsMat(s, |s|, |s|)
  {
    FullyInvested(w, |s|) && |e| == |s| && ratio != 0.0 && Scale(ratio, MatVec(s, w)) == e
  }

  lemma TangencyCovariance(s: Mat, e: Vec, ratio: real, ms: Vec, x: Vec)
    requires IsMat(s, |s|, |s|) && IsTangency(s, e, ratio, ms) && |x| == |s|
    ensures ratio * Bilinear(s, x, ms) == Dot(x, e)
  {
    hide DotTo, MatVec, SymmetricEntries, PositiveEverywhere, Add, Scale, Sub, SumTo;
    DotScale(x, ratio, MatVec(s, ms));
  }

  /** inv e / sum_k is the tangency fund, where sum_k = 1' inv e. */
  lemma SolutionGivesTangency(s: Mat, k: Vec, e: Vec)
    requires IsMat(s, |s|, |s|) && |k| == |e| == |s| && MatVec(s, k) == e && Sum(k) != 0.0
    ensures IsTangency(s, e, Sum(k), Scale(1.0 / Sum(k), k))
  {
    hide DotTo, MatVec, SymmetricEntries, PositiveEverywhere, Add, Scale, Sub, SumTo;
    var r := Sum(k);
    var c := 1.0 / r;
    SumScale(c, k);
    MatVecScale(s, c, k);
    ScaleInverse(r, c, e);
  }

  lemma ScaleInverse(r: real, c: real, e: Vec)
    requires r * c == 1.0
    ensures Scale(r, Scale(c, e)) == e
  {
    forall i | 0 <= i < |e| ensures Scale(r, Scale(c, e))[i] == e[i] {
      assert r * (c * e[i]) == (r * c) * e[i];
    }
  }

  lemma SolutionRatio(s: Mat, k: Vec, e: Vec, mv: Vec)
    requires Symmetric(s) && |k| == |e| == |s| && MatVec(s, k) == e && IsMinVariance(s, mv)
    ensures Quad(s, mv) * Sum(k) == Dot(mv, e)
  {
    hide DotTo, MatVec, SymmetricEntries, PositiveEverywhere, Add, Scale, Sub, SumTo;
    CovarianceWithMinVariance(s, mv, k);
    BilinearSymmetric(s, k, mv);
  }

  /** (p / u)^2 <= (g / v)^2 in terms of the variances uu and vv. */
  predicate SquaresOrdered(p: real, uu: real, g: real, vv: real) { p * p * vv <= g * g * uu }

  predicate SquaresApart(p: real, uu: real, g: real, vv: real) { p * p * vv < g * g * uu }

  lemma ScaledCauchy(r: real, b: real, qx: real, qw: real, p: real, g: real)
    requires p == r * b && g == r * qw && qw > 0.0
    requires b * b <= qx * qw
    ensures SquaresOrdered(p, qx, g, qw)
    ensures r != 0.0 && b * b < qx * qw ==> SquaresApart(p, qx, g, qw)
  {
  }

  /** No weight vector, invested or not, beats the tangency fund on squared Sharpe ratio. */
  lemma SquaredSharpeBound(s: Mat, e: Vec, ratio: real, ms: Vec, x: Vec)
    requires PositiveDefinite(s) && IsTangency(s, e, ratio, ms) && |x| == |s|
    ensures SquaresOrdered(Dot(x, e), Quad(s, x), Dot(ms, e), Quad(s, ms))
    ensures FullyInvested(x, |s|) && x != ms ==> SquaresApart(Dot(x, e), Quad(s, x), Dot(ms, e), Quad(s, ms))
  {
    hide DotTo, MatVec, SymmetricEntries, PositiveEverywhere, Add, Scale, Sub, SumTo, SquaresOrdered, SquaresApart;
    TangencyCovariance(s, e, ratio, ms, x);
    TangencyCovariance(s, e, ratio, ms, ms);
    VariancePositive(s, ms);
    CauchySchwarz(s, x, ms);
    if FullyInvested(x, |s|) && x != ms { StrictCauchySchwarz(s, x, ms); }
    ScaledCauchy(ratio, Bilinear(s, x, ms), Quad(s, x), Quad(s, ms), Dot(x, e), Dot(ms, e));
  }

  lemma StrictCauchySchwarz(s: Mat, x: Vec, w: Vec)
    requires PositiveDefinite(s) && FullyInvested(x, |s|) && FullyInvested(w, |s|) && x != w
    ensures Bilinear(s, x, w) * Bilinear(s, x, w) < Quad(s, x) * Quad(s, w)
  {
    hide DotTo, MatVec, SymmetricEntries, PositiveEverywhere, Add, Scale, Sub, SumTo;
    CauchySchwarz(s, x, w);
    VariancePositive(s, w);
    FullyInvestedNonZero(w, |s|);
    if Bilinear(s, x, w) * Bilinear(s, x, w) == Quad(s, x) * Quad(s, w) {
      CauchySchwarzEquality(s, x, w);
      EqualRays(Quad(s, w), x, Bilinear(s, x, w), w);
    }
  }

  lemma EqualRays(c: real, x: Vec, d: real, w: Vec)
    requires |x| == |w| && Sum(x) == 1.0 && Sum(w) == 1.0 && c != 0.0 && Scale(c, x) == Scale(d, w)
    ensures x == w
  {
    SumScale(c, x);
    SumScale(d, w);
    forall i | 0 <= i < |x| ensures x[i] == w[i] {
      assert Scale(c, x)[i] == Scale(d, w)[i];
      FactorSign(if c > 0.0 then c else -c, x[i] - w[i], (if c > 0.0 then c else -c) * (x[i] - w[i]));
    }
  }

  /** The sign of the tangency fund's excess return is the sign of sum_k. */
  lemma TangencySign(s: Mat, e: Vec, ratio: real, ms: Vec)
    requires PositiveDefinite(s) && IsTangency(s, e, ratio, ms)
    ensures Dot(ms, e) > 0.0 <==> ratio > 0.0
    ensures Dot(ms, e) < 0.0 <==> ratio < 0.0
  {
    hide DotTo, MatVec, SymmetricEntries, PositiveEverywhere, Add, Scale, Sub, SumTo;
    TangencyCovariance(s, e, ratio, ms, ms);
    VariancePositive(s, ms);
    FactorSign(Quad(s, ms), ratio, Dot(ms, e));
  }

  // ---------- every blend is efficient ----------

  function Blend(a: Vec, b: Vec, alpha: real): (r: Vec)
    requires |a| == |b|
    ensures |r| == |a|
  {
    Add(Scale(alpha, a), Scale(1.0 - alpha, b))
  }

  /** No fully invested portfolio with the same expected return has less variance. */
  ghost predicate Efficient(s: Mat, means: Vec, w: Vec)
    requires IsMat(s, |s|, |s|) && |means| == |w| == |s|
  {
    forall x: Vec :: FullyInvested(x, |s|) && Dot(x, means) == Dot(w, means) ==> Quad(s, x) >= Quad(s, w)
  }

  function Excess(means: Vec, rf: real): (e: Vec)
    ensures |e| == |means|
  {
    seq(|means|, i requires 0 <= i < |means| => means[i] - rf)
  }

  lemma ExcessDot(means: Vec, rf: real, x: Vec)
    requires |x| == |means|
    ensures Dot(x, Excess(means, rf)) == Dot(x, means) - rf * Sum(x)
  {
    var d := Scale(rf, Ones(|means|));
    assert Excess(means, rf) == Sub(means, d);
    DotSub(x, means, d);
    DotScale(x, rf, Ones(|means|));
    SumIsDot(x);
  }

  lemma BlendSum(a: Vec, b: Vec, alpha: real)
    requires |a| == |b|
    ensures Sum(Blend(a, b, alpha)) == alpha * Sum(a) + (1.0 - alpha) * Sum(b)
  {
    hide DotTo, SumTo, Add, Scale;
    SumLinear(alpha, a, 1.0 - alpha, b);
  }

  /** The two funds of MeanVariance, with the fall-back when sum_k is tiny. */
  ghost predicate Funds(s: Mat, e: Vec, mv: Vec, ms: Vec)
    requires IsMat(s, |s|, |s|) && |e| == |s|
  {
    && IsMinVariance(s, mv) && Quad(s, mv) > 0.0
    && if Abs(SumK(s, e, mv)) < DEGENERACY_EPS then ms == mv else IsTangency(s, e, SumK(s, e, mv), ms)
  }

  ghost function SumK(s: Mat, e: Vec, mv: Vec): real
    requires IsMat(s, |s|, |s|) && |e| == |s| == |mv| && Quad(s, mv) > 0.0
  {
    Dot(mv, e) / Quad(s, mv)
  }

  /** The two funds are determined by the covariance and the excess returns. */
  lemma FundsUnique(s: Mat, e: Vec, mv: Vec, ms: Vec, mv': Vec, ms': Vec)
    requires PositiveDefinite(s) && |e| == |s| && Funds(s, e, mv, ms) && Funds(s, e, mv', ms')
    ensures mv == mv' && ms == ms'
  {
    hide DotTo, MatVec, SymmetricEntries, PositiveEverywhere, Add, Scale, Sub, SumTo, Quad, SquaresOrdered;
    MinVarianceIsOptimal(s, mv, mv');
    MinVarianceIsOptimal(s, mv', mv);
    if Abs(SumK(s, e, mv)) >= DEGENERACY_EPS {
      SquaredSharpeBound(s, e, SumK(s, e, mv), ms, ms');
      SquaredSharpeBound(s, e, SumK(s, e, mv), ms', ms);
    }
  }

  lemma EqualExcessEqualCovariance(s: Mat, e: Vec, mv: Vec, ms: Vec, x: Vec, y: Vec)
    requires IsMat(s, |s|, |s|) && |e| == |s| && Funds(s, e, mv, ms)
    requires FullyInvested(x, |s|) && FullyInvested(y, |s|) && Dot(x, e) == Dot(y, e)
    ensures Bilinear(s, x, mv) == Bilinear(s, y, mv) && Bilinear(s, x, ms) == Bilinear(s, y, ms)
  {
    hide DotTo, MatVec, SymmetricEntries, PositiveEverywhere, Add, Scale, Sub, SumTo;
    CovarianceWithMinVariance(s, mv, x);
    CovarianceWithMinVariance(s, mv, y);
    if ms != mv {
      var r := SumK(s, e, mv);
      TangencyCovariance(s, e, r, ms, x);
      TangencyCovariance(s, e, r, ms, y);
      SameFactor(r, Bilinear(s, x, ms), Bilinear(s, y, ms));
    }
  }

  lemma CovarianceWithBlend(s: Mat, e: Vec, mv: Vec, ms: Vec, alpha: real, x: Vec, y: Vec)
    requires IsMat(s, |s|, |s|) && |e| == |s| && Funds(s, e, mv, ms)
    requires FullyInvested(x, |s|) && FullyInvested(y, |s|) && Dot(x, e) == Dot(y, e)
    ensures Bilinear(s, x, Blend(ms, mv, alpha)) == Bilinear(s, y, Blend(ms, mv, alpha))
  {
    hide DotTo, MatVec, SymmetricEntries, PositiveEverywhere, Add, Scale, Sub, SumTo;
    EqualExcessEqualCovariance(s, e, mv, ms, x, y);
    BilinearLinear(s, x, alpha, ms, 1.0 - alpha, mv);
    BilinearLinear(s, y, alpha, ms, 1.0 - alpha, mv);
  }

  lemma SameFactor(r: real, b: real, c: real)
    requires r != 0.0 && r * b == r * c
    ensures b == c
  {
  }

  lemma BlendBeats(s: Mat, means: Vec, rf: real, mv: Vec, ms: Vec, alpha: real, x: Vec)
    requires PositiveDefinite(s) && |means| == |s| && Funds(s, Excess(means, rf), mv, ms)
    requires FullyInvested(Blend(ms, mv, alpha), |s|)
    requires FullyInvested(x, |s|) && Dot(x, means) == Dot(Blend(ms, mv, alpha), means)
    ensures Quad(s, x) >= Quad(s, Blend(ms, mv, alpha))
  {
    hide DotTo, MatVec, SymmetricEntries, PositiveEverywhere, Add, Scale, Sub, SumTo;
    var w := Blend(ms, mv, alpha);
    ExcessDot(means, rf, x);
    ExcessDot(means, rf, w);
    CovarianceWithBlend(s, Excess(means, rf), mv, ms, alpha, x, w);
    EqualCovarianceIsRiskier(s, x, w);
  }

  /** Two-fund separation: every blend of the two funds is mean-variance efficient. */
  lemma BlendIsEfficient(s: Mat, means: Vec, rf: real, mv: Vec, ms: Vec, alpha: real)
    requires PositiveDefinite(s) && |means| == |s| && Funds(s, Excess(means, rf), mv, ms)
    ensures FullyInvested(Blend(ms, mv, alpha), |s|)
    ensures Efficient(s, means, Blend(ms, mv, alpha))
  {
    hide DotTo, MatVec, SymmetricEntries, PositiveEverywhere, Add, Scale, Sub, SumTo, Quad;
    BlendSum(ms, mv, alpha);
    forall x: Vec | FullyInvested(x, |s|) && Dot(x, means) == Dot(Blend(ms, mv, alpha), means)
      ensures Quad(s, x) >= Quad(s, Blend(ms, mv, alpha))
    {
      BlendBeats(s, means, rf, mv, ms, alpha, x);
    }
  }

  /** var(alpha ms + (1 - alpha) mv) = var_mv + alpha^2 (var_ms - var_mv): the cross term vanishes. */
  lemma BlendVariance(s: Mat, mv: Vec, ms: Vec, alpha: real)
    requires Symmetric(s) && IsMinVariance(s, mv) && FullyInvested(ms, |s|)
    ensures Quad(s, Blend(ms, mv, alpha)) == Quad(s, mv) + alpha * alpha * (Quad(s, ms) - Quad(s, mv))
  {
    hide DotTo, MatVec, SymmetricEntries, PositiveEverywhere, Add, Scale, Sub, SumTo;
    QuadCombination(s, alpha, ms, 1.0 - alpha, mv);
    CovarianceWithMinVariance(s, mv, ms);
    BlendPolynomial(alpha, Quad(s, ms), Quad(s, mv));
  }

  lemma BlendPolynomial(t: real, p: real, q: real)
    ensures t * t * p + 2.0 * t * (1.0 - t) * q + (1.0 - t) * (1.0 - t) * q == q + t * t * (p - q)
  {
  }
}
