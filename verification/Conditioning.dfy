/** When the pivot test cannot refuse a matrix: the covariances the models invert are bounded below, as long as the
    factors and the entries stay in an ordinary range. */
module Conditioning {
  import opened Reals
  import opened LinearAlgebra
  import opened Inverse
  import opened Covariance
  import opened TwoFunds
  import opened Posterior

  // ---------- factors ----------

  /** A factor large enough for the ridge to survive it on n assets; with at most 100 assets 1e-5 is enough. */
  predicate Clears(c: real, n: nat) { PIVOT_EPS * (n as real + 1.0) < 2.0 * (c * COV_RIDGE) }

  lemma OrdinaryFactorClears(c: real, n: nat)
    requires c >= 1e-5 && n <= MAX_ASSETS
    ensures Clears(c, n)
  {
    assert n as real <= 100.0;
  }

  /** A ridged covariance may be scaled by any factor that clears and still pass every pivot test. */
  lemma ScaledNotNearSingular(m: Mat, c: real)
    requires IsMat(m, |m|, |m|) && BoundedBelow(m, COV_RIDGE) && c > 0.0 && Clears(c, |m|)
    ensures !NearSingular(Scaled(c, m))
  {
    hide DotTo, MatVec, Quad, Scaled, NearSingular;
    forall x: Vec | |x| == |m| ensures Quad(Scaled(c, m), x) >= (c * COV_RIDGE) * Dot(x, x) {
      ScaledQuad(c, m, x);
      MulMonotone(COV_RIDGE * Dot(x, x), Quad(m, x), c);
    }
    BoundedBelowNotNearSingular(Scaled(c, m), c * COV_RIDGE);
  }

  /** Adding a matrix that is nowhere negative keeps the bound. */
  lemma SumBoundedBelow(a: Mat, b: Mat, floor: real)
    requires IsMat(a, |a|, |a|) && IsMat(b, |a|, |a|) && BoundedBelow(a, floor)
    requires forall x: Vec :: |x| == |a| ==> Quad(b, x) >= 0.0
    ensures BoundedBelow(MatAdd(a, b), floor)
  {
    hide DotTo, MatVec, Quad, MatAdd;
    forall x: Vec | |x| == |a| ensures Quad(MatAdd(a, b), x) >= floor * Dot(x, x) { MatAddQuad(a, b, x); }
  }

  // ---------- entries ----------

  /** Every entry is small enough for the inverse to pass the pivot test; on 100 assets 9e10 is small enough. */
  predicate Moderate(t: Mat) {
    forall i, j :: 0 <= i < |t| && 0 <= j < |t[i]| ==> Abs(t[i][j]) <= EntryLimit(|t|)
  }

  function EntryLimit(n: nat): (r: real)
    ensures r > 0.0
    ensures n > 0 ==> PIVOT_EPS * (n as real + 1.0) * (n as real * r) == 1.0
  {
    if n == 0 then 1e15 else
      var d := PIVOT_EPS * (n as real + 1.0);
      ProductPositive(d, n as real, d * (n as real));
      DivSign(1.0, d * (n as real));
      assert d * (n as real * (1.0 / (d * (n as real)))) == 1.0;
      1.0 / (d * (n as real))
  }

  lemma OrdinaryEntriesAreModerate(t: Mat)
    requires |t| <= MAX_ASSETS && forall i, j :: 0 <= i < |t| && 0 <= j < |t[i]| ==> Abs(t[i][j]) <= 9e10
    ensures Moderate(t)
  {
    hide EntryLimit;
    var n, r := |t| as real, EntryLimit(|t|);
    if |t| > 0 && r < 9e10 {
      var c, m := PIVOT_EPS * (n + 1.0), n * r;
      assert n <= 100.0 && c * m == 1.0;
      MulMonotone(n, 100.0, r);
      MulMonotone(m, 9e12, c);
      assert false;
    }
  }

  lemma {:induction false} RowSmall(v: Vec, b: real, k: nat)
    requires k <= |v| && forall j :: 0 <= j < |v| ==> Abs(v[j]) <= b
    ensures DotTo(v, v, k) <= k as real * (b * b)
  {
    if k > 0 {
      RowSmall(v, b, k - 1);
      SquareOrder(Abs(v[k - 1]), b);
    }
  }

  /** |t x|^2 <= n^2 b^2 |x|^2 when no entry exceeds b, one row at a time. */
  lemma {:induction false} ImageSmall(t: Mat, b: real, x: Vec, k: nat)
    requires IsMat(t, |t|, |t|) && |x| == |t| && k <= |t|
    requires forall i, j :: 0 <= i < |t| && 0 <= j < |t[i]| ==> Abs(t[i][j]) <= b
    ensures DotTo(MatVec(t, x), MatVec(t, x), k) <= k as real * (|t| as real * (b * b) * Dot(x, x))
  {
    hide DotTo, MatVec;
    var y := MatVec(t, x);
    ImageUnfold(t, x, k);
    if k > 0 {
      ImageSmall(t, b, x, k - 1);
      VecCauchySchwarz(t[k - 1], x);
      RowSmall(t[k - 1], b, |t|);
      SquaredNorm(x);
      ImageStep(Dot(t[k - 1], x), Dot(t[k - 1], t[k - 1]), |t| as real * (b * b), Dot(x, x), (k - 1) as real,
                DotTo(y, y, k - 1));
    }
  }

  lemma ImageUnfold(t: Mat, x: Vec, k: nat)
    requires IsMat(t, |t|, |t|) && |x| == |t| && k <= |t|
    ensures var y := MatVec(t, x);
            DotTo(y, y, k) == if k == 0 then 0.0 else DotTo(y, y, k - 1) + Dot(t[k - 1], x) * Dot(t[k - 1], x)
  {
  }

  lemma ImageStep(d: real, row: real, limit: real, q: real, k: real, sum: real)
    requires d * d <= row * q && row <= limit && q >= 0.0 && sum <= k * (limit * q)
    ensures sum + d * d <= (k + 1.0) * (limit * q)
  {
    MulMonotone(row, limit, q);
  }

  /** x't x <= n b |x|^2. */
  lemma QuadSmall(t: Mat, b: real, x: Vec)
    requires IsMat(t, |t|, |t|) && |x| == |t| && b >= 0.0
    requires forall i, j :: 0 <= i < |t| && 0 <= j < |t[i]| ==> Abs(t[i][j]) <= b
    ensures Quad(t, x) <= |t| as real * b * Dot(x, x)
  {
    hide DotTo, MatVec;
    var n, y := |t| as real, MatVec(t, x);
    ImageSmall(t, b, x, |t|);
    VecCauchySchwarz(x, y);
    SquaredNorm(x);
    RootBound(n, b, Dot(x, x), Dot(y, y), Dot(x, y));
  }

  lemma RootBound(n: real, b: real, q: real, yy: real, p: real)
    requires n >= 0.0 && b >= 0.0 && q >= 0.0 && yy <= n * (n * (b * b) * q) && p * p <= q * yy
    ensures p <= n * b * q
  {
    var r := n * b * q;
    ProductPositive(n, b, n * b);
    ProductPositive(n * b, q, r);
    MulMonotone(yy, n * (n * (b * b) * q), q);
    assert q * (n * (n * (b * b) * q)) == r * r;
    if p > r { SquareOrder(r, p); }
  }

  /** The inverse of a positive definite matrix with moderate entries is bounded below. */
  lemma InverseBoundedBelow(t: Mat, ti: Mat)
    requires PositiveDefinite(t) && IsInverse(t, ti) && |t| > 0 && Moderate(t)
    ensures BoundedBelow(ti, PIVOT_EPS * (|t| as real + 1.0))
  {
    hide DotTo, MatVec, Undoes, Quad, SymmetricEntries, PositiveEverywhere, Moderate, EntryLimit;
    var floor := PIVOT_EPS * (|t| as real + 1.0);
    forall x: Vec | |x| == |t| ensures Quad(ti, x) >= floor * Dot(x, x) {
      var u := MatVec(ti, x);
      InverseAt(t, ti, x);
      InverseQuad(t, ti, x);
      CauchySchwarz(t, x, u);
      QuadNonNegative(t, u);
      ModerateQuad(t, x);
      SquaredNorm(x);
      FloorOf(Dot(x, x), Quad(t, x), Quad(ti, x), |t| as real * EntryLimit(|t|), floor) by { PairingIs(t, x, u); }
    }
  }

  lemma PairingIs(t: Mat, x: Vec, u: Vec)
    requires IsMat(t, |t|, |t|) && |x| == |u| == |t| && MatVec(t, u) == x
    ensures Bilinear(t, x, u) == Dot(x, x)
  {
  }

  lemma ModerateQuad(t: Mat, x: Vec)
    requires IsMat(t, |t|, |t|) && |x| == |t| && Moderate(t)
    ensures Quad(t, x) <= |t| as real * EntryLimit(|t|) * Dot(x, x)
  {
    hide Quad;
    QuadSmall(t, EntryLimit(|t|), x);
  }

  lemma FloorOf(q: real, a: real, b: real, limit: real, floor: real)
    requires q * q <= a * b && a <= limit * q && b >= 0.0 && q >= 0.0 && floor * limit == 1.0 && floor > 0.0
    ensures b >= floor * q
  {
    if q > 0.0 {
      MulMonotone(a, limit * q, b);
      assert b * (limit * q) == q * (limit * b);
      FactorSign(q, limit * b - q, q * (limit * b - q));
      MulMonotone(q, limit * b, floor);
      assert floor * (limit * b) == b;
    }
  }

  /** The posterior precision passes every pivot test when the prior covariance has moderate entries. */
  lemma PrecisionNotNearSingular(t: Mat, ti: Mat, p: Mat, s: Vec)
    requires PositiveDefinite(t) && IsInverse(t, ti) && |t| > 0 && Moderate(t)
    requires IsMat(p, |p|, |t|) && |s| == |p| && forall i :: 0 <= i < |s| ==> s[i] > 0.0
    ensures !NearSingular(MatAdd(ti, ViewPrecision(p, s, |t|)))
  {
    hide DotTo, MatVec, Undoes, Quad, SymmetricEntries, PositiveEverywhere, Moderate, BoundedBelow, ViewPrecision,
         MatAdd, NearSingular, Weigh;
    var v := ViewPrecision(p, s, |t|);
    InverseBoundedBelow(t, ti);
    forall x: Vec | |x| == |t| ensures Quad(v, x) >= 0.0 {
      ViewQuad(p, s, x);
      WeighSquareTo(s, MatVec(p, x), |s|);
    }
    SumBoundedBelow(ti, v, PIVOT_EPS * (|t| as real + 1.0));
    BoundedBelowNotNearSingular(MatAdd(ti, v), PIVOT_EPS * (|t| as real + 1.0));
  }
}
