/** When the max_sharpe objective really returns a maximiser of the Sharpe ratio: exactly when the sum of the raw
    weights is positive enough, or vanishes while all assets have one common non-negative excess return. */
module MaxSharpe {
  import opened Reals
  import opened LinearAlgebra
  import opened TwoFunds

  ghost function Vol(sqrt: real -> real, s: Mat, x: Vec): real
    requires IsMat(s, |x|, |x|)
  {
    sqrt(Quad(s, x))
  }

  lemma VolSquared(sqrt: real -> real, s: Mat, x: Vec)
    requires IsSqrt(sqrt) && PositiveDefinite(s) && |x| == |s|
    ensures Vol(sqrt, s, x) >= 0.0 && Vol(sqrt, s, x) * Vol(sqrt, s, x) == Quad(s, x)
  {
    hide IsSqrt, DotTo, MatVec, SymmetricEntries, PositiveEverywhere;
    QuadNonNegative(s, x);
    SqrtSquared(sqrt, Quad(s, x));
  }

  /** p / u <= q / v for positive u and v, without the divisions. */
  predicate RatioOrder(p: real, u: real, q: real, v: real) { p * v <= q * u }

  /** Sharpe(x) <= Sharpe(w), cross-multiplied by the two (positive) volatilities. */
  ghost predicate NoBetter(sqrt: real -> real, s: Mat, e: Vec, x: Vec, w: Vec)
    requires IsSqrt(sqrt) && PositiveDefinite(s) && |x| == |w| == |e| == |s|
  {
    RatioOrder(Dot(x, e), Vol(sqrt, s, x), Dot(w, e), Vol(sqrt, s, w))
  }

  ghost predicate BestSharpe(sqrt: real -> real, s: Mat, e: Vec, w: Vec)
    requires IsSqrt(sqrt) && PositiveDefinite(s) && |w| == |e| == |s|
  {
    forall x: Vec :: FullyInvested(x, |s|) ==> NoBetter(sqrt, s, e, x, w)
  }

  lemma VolPositive(sqrt: real -> real, s: Mat, x: Vec)
    requires IsSqrt(sqrt) && PositiveDefinite(s) && FullyInvested(x, |s|)
    ensures Vol(sqrt, s, x) > 0.0
  {
    hide DotTo, MatVec, SymmetricEntries, PositiveEverywhere, Add, Scale, Sub, SumTo, IsSqrt, Vol;
    VariancePositive(s, x);
    VolSquared(sqrt, s, x);
    SquareSign(Vol(sqrt, s, x), Quad(s, x));
  }

  ghost function Sharpe(sqrt: real -> real, s: Mat, e: Vec, x: Vec): real
    requires IsSqrt(sqrt) && PositiveDefinite(s) && |e| == |s| && FullyInvested(x, |s|)
  {
    VolPositive(sqrt, s, x);
    Dot(x, e) / Vol(sqrt, s, x)
  }

  /** NoBetter is the comparison of the two ratios. */
  lemma NoBetterIsSharpeOrder(sqrt: real -> real, s: Mat, e: Vec, x: Vec, w: Vec)
    requires IsSqrt(sqrt) && PositiveDefinite(s) && |e| == |s|
    requires FullyInvested(x, |s|) && FullyInvested(w, |s|)
    ensures NoBetter(sqrt, s, e, x, w) <==> Sharpe(sqrt, s, e, x) <= Sharpe(sqrt, s, e, w)
  {
    hide DotTo, MatVec, SymmetricEntries, PositiveEverywhere, Add, Scale, Sub, SumTo, IsSqrt, Vol;
    VolPositive(sqrt, s, x);
    VolPositive(sqrt, s, w);
    CrossMultiply(Dot(x, e), Vol(sqrt, s, x), Dot(w, e), Vol(sqrt, s, w));
  }

  lemma CrossMultiply(p: real, u: real, q: real, v: real)
    requires u > 0.0 && v > 0.0
    ensures RatioOrder(p, u, q, v) <==> p / u <= q / v
  {
  }

  /** Comparing ratios by comparing squares. */
  lemma SquareCompare(p: real, u: real, q: real, v: real, uu: real, vv: real)
    requires u > 0.0 && v > 0.0 && uu == u * u && vv == v * v
    ensures q > 0.0 && SquaresOrdered(p, uu, q, vv) ==> RatioOrder(p, u, q, v)
    ensures q < 0.0 && SquaresApart(p, uu, q, vv) ==> !RatioOrder(p, u, q, v)
  {
  }

  /** sum_k > 0: the tangency fund maximises the Sharpe ratio. sum_k < 0: it is the unique minimiser. */
  lemma TangencyIsExtreme(sqrt: real -> real, s: Mat, e: Vec, ratio: real, ms: Vec, x: Vec)
    requires IsSqrt(sqrt) && PositiveDefinite(s) && IsTangency(s, e, ratio, ms) && FullyInvested(x, |s|)
    ensures ratio > 0.0 ==> NoBetter(sqrt, s, e, x, ms)
    ensures ratio < 0.0 && x != ms ==> !NoBetter(sqrt, s, e, x, ms)
  {
    hide DotTo, MatVec, SymmetricEntries, PositiveEverywhere, Add, Scale, Sub, SumTo, IsSqrt, Vol, Quad, SquaresOrdered,
         SquaresApart, RatioOrder;
    var p, g := Dot(x, e), Dot(ms, e);
    assert SquaresOrdered(p, Quad(s, x), g, Quad(s, ms))
           && (x != ms ==> SquaresApart(p, Quad(s, x), g, Quad(s, ms))) by {
      SquaredSharpeBound(s, e, ratio, ms, x);
    }
    assert (g > 0.0 <==> ratio > 0.0) && (g < 0.0 <==> ratio < 0.0) by { TangencySign(s, e, ratio, ms); }
    VolPositive(sqrt, s, x);
    VolPositive(sqrt, s, ms);
    VolSquared(sqrt, s, x);
    VolSquared(sqrt, s, ms);
    SquareCompare(p, Vol(sqrt, s, x), g, Vol(sqrt, s, ms), Quad(s, x), Quad(s, ms));
  }

  /** Moving weight t from asset j to asset i. */
  function Shift(w: Vec, t: real, i: nat, j: nat): Vec {
    Add(w, Scale(t, Sub(Unit(|w|, i), Unit(|w|, j))))
  }

  lemma ShiftDot(w: Vec, t: real, i: nat, j: nat, e: Vec, delta: real)
    requires i < |w| && j < |w| == |e| && delta == e[i] - e[j]
    ensures Dot(Shift(w, t, i, j), e) == Dot(w, e) + t * delta
  {
    var d := Sub(Unit(|w|, i), Unit(|w|, j));
    DotComm(Shift(w, t, i, j), e);
    DotComm(w, e);
    DotAdd(e, w, Scale(t, d));
    DotScale(e, t, d);
    DotSub(e, Unit(|w|, i), Unit(|w|, j));
    DotUnit(e, i);
    DotUnit(e, j);
  }

  lemma ShiftInvested(w: Vec, t: real, i: nat, j: nat)
    requires i < |w| && j < |w| && Sum(w) == 1.0
    ensures FullyInvested(Shift(w, t, i, j), |w|)
  {
    ShiftDot(w, t, i, j, Ones(|w|), 0.0);
    SumIsDot(w);
    SumIsDot(Shift(w, t, i, j));
  }

  /** Around the minimum-variance fund risk grows only quadratically in the shift. */
  lemma ShiftVariance(s: Mat, mv: Vec, t: real, i: nat, j: nat)
    requires Symmetric(s) && IsMinVariance(s, mv) && i < |s| && j < |s|
    ensures Quad(s, Shift(mv, t, i, j)) == Shifted(Quad(s, mv), t, Quad(s, Sub(Unit(|s|, i), Unit(|s|, j))))
  {
    hide DotTo, MatVec, SymmetricEntries, PositiveEverywhere, SumTo;
    var d := Sub(Unit(|s|, i), Unit(|s|, j));
    assert Shift(mv, t, i, j) == Add(Scale(1.0, mv), Scale(t, d));
    QuadCombination(s, 1.0, mv, t, d);
    BilinearSymmetric(s, mv, d);
    CovarianceWithMinVariance(s, mv, d);
    var ones := Ones(|s|);
    SumIsDot(d);
    DotSub(ones, Unit(|s|, i), Unit(|s|, j));
    DotUnit(ones, i);
    DotUnit(ones, j);
  }

  /** A step size at which the gain in return outweighs the added risk. */
  function Step(n: real, v: real, d: real, delta: real): real
    requires d > 0.0 && delta > 0.0
  {
    if n <= 0.0 then (1.0 - n) / delta else delta * v / (n * d)
  }

  function Shifted(v: real, t: real, d: real): real { v + t * t * d }

  lemma StepImproves(n: real, v: real, d: real, delta: real, t: real, u: real, uu: real, z: real, p: real)
    requires v > 0.0 && d > 0.0 && delta > 0.0 && t == Step(n, v, d, delta) && p == n + t * delta
    requires u > 0.0 && z > 0.0 && z * z == v && u * u == uu && uu == Shifted(v, t, d)
    ensures !RatioOrder(p, u, n, z)
  {
    if n <= 0.0 {
      assert p == 1.0;
      ProductPositive(u, -n, u * (-n));
      assert n * u == -(u * (-n));
    } else {
      ProductPositive(n, d, n * d);
      ProductPositive(delta, v, delta * v);
      DivSign(delta * v, n * d);
      StepGain(n, v, d, delta, t, p);
      ProductPositive(t, delta, t * delta);
      RootsOrdered(n, u, uu, p, z, v);
    }
  }

  lemma RootsOrdered(n: real, u: real, uu: real, p: real, z: real, zz: real)
    requires n > 0.0 && p > 0.0 && u > 0.0 && z > 0.0 && uu == u * u && zz == z * z
    requires SquaresApart(n, zz, p, uu)
    ensures !RatioOrder(p, u, n, z)
  {
  }

  lemma StepGain(n: real, v: real, d: real, delta: real, t: real, p: real)
    requires p == n + t * delta && n > 0.0 && v > 0.0 && d > 0.0 && delta > 0.0 && t > 0.0 && t * (n * d) == delta * v
    ensures SquaresApart(n, v, p, Shifted(v, t, d))
  {
    var g := n * t;
    ProductPositive(n, t, g);
    assert n * n * (t * t * d) == g * (t * (n * d)) == g * (delta * v);
    var h := t * delta;
    ProductPositive(t, delta, h);
    var k := h * h;
    SquareSign(h, k);
    ProductPositive(k, v, k * v);
    ProductPositive(n, h, n * h);
    ProductPositive(n * h, v, n * h * v);
    assert g * (delta * v) == n * h * v;
    assert (n + h) * (n + h) * v == n * n * v + 2.0 * (n * h * v) + k * v;
    assert n * n * (v + t * t * d) == n * n * v + n * n * (t * t * d);
  }

  /** If two assets have different excess returns the minimum-variance fund is not the best. */
  lemma MinVarianceBeaten(sqrt: real -> real, s: Mat, e: Vec, mv: Vec, i: nat, j: nat)
    requires IsSqrt(sqrt) && PositiveDefinite(s) && IsMinVariance(s, mv) && |e| == |s|
    requires i < |s| && j < |s| && e[i] > e[j]
    ensures !BestSharpe(sqrt, s, e, mv)
  {
    hide DotTo, MatVec, SymmetricEntries, PositiveEverywhere, IsSqrt, Vol, Step, SumTo;
    var d := Sub(Unit(|s|, i), Unit(|s|, j));
    assert d[i] == 1.0 && d != Zeros(|s|);
    VariancePositive(s, mv);
    PositiveAt(s, d);
    var t := Step(Dot(mv, e), Quad(s, mv), Quad(s, d), e[i] - e[j]);
    ShiftInvested(mv, t, i, j);
    ShiftBeats(sqrt, s, e, mv, i, j, e[i] - e[j], Quad(s, d), t);
    assert !NoBetter(sqrt, s, e, Shift(mv, t, i, j), mv);
  }

  lemma ShiftBeats(sqrt: real -> real, s: Mat, e: Vec, mv: Vec, i: nat, j: nat, delta: real, qd: real, t: real)
    requires IsSqrt(sqrt) && PositiveDefinite(s) && IsMinVariance(s, mv) && |e| == |s|
    requires i < |s| && j < |s| && delta == e[i] - e[j] > 0.0 && qd == Quad(s, Sub(Unit(|s|, i), Unit(|s|, j)))
             && qd > 0.0
    requires Quad(s, mv) > 0.0 && t == Step(Dot(mv, e), Quad(s, mv), qd, delta)
    requires FullyInvested(Shift(mv, t, i, j), |s|)
    ensures !NoBetter(sqrt, s, e, Shift(mv, t, i, j), mv)
  {
    hide DotTo, MatVec, SymmetricEntries, PositiveEverywhere, Add, Scale, Sub, SumTo, IsSqrt, Vol, Step, Shifted,
         RatioOrder, Shift;
    var x := Shift(mv, t, i, j);
    ShiftDot(mv, t, i, j, e, delta);
    ShiftVariance(s, mv, t, i, j);
    VolPositive(sqrt, s, x);
    VolPositive(sqrt, s, mv);
    VolSquared(sqrt, s, x);
    VolSquared(sqrt, s, mv);
    StepImproves(Dot(mv, e), Quad(s, mv), qd, delta, t, Vol(sqrt, s, x), Quad(s, x), Vol(sqrt, s, mv), Dot(x, e));
  }

  /** All assets earn the same excess return `c`. */
  ghost predicate Level(e: Vec, c: real) { forall i :: 0 <= i < |e| ==> e[i] == c }

  lemma LevelDot(e: Vec, c: real, x: Vec)
    requires Level(e, c) && FullyInvested(x, |e|)
    ensures Dot(x, e) == c
  {
    assert e == Scale(c, Ones(|e|));
    DotScale(x, c, Ones(|e|));
    SumIsDot(x);
  }

  lemma LevelExcess(sqrt: real -> real, s: Mat, e: Vec, c: real, mv: Vec, x: Vec)
    requires IsSqrt(sqrt) && PositiveDefinite(s) && IsMinVariance(s, mv) && |e| == |s| && Level(e, c)
    requires FullyInvested(x, |s|)
    ensures c >= 0.0 ==> NoBetter(sqrt, s, e, x, mv)
    ensures c < 0.0 && x != mv ==> !NoBetter(sqrt, s, e, x, mv)
  {
    hide DotTo, MatVec, SymmetricEntries, PositiveEverywhere, Add, Scale, Sub, SumTo, IsSqrt, Vol, RatioOrder;
    LevelDot(e, c, x);
    LevelDot(e, c, mv);
    MinVarianceIsOptimal(s, mv, x);
    VolSquared(sqrt, s, x);
    VolSquared(sqrt, s, mv);
    OrderByRisk(c, Vol(sqrt, s, x), Quad(s, x), Vol(sqrt, s, mv), Quad(s, mv));
  }

  lemma OrderByRisk(c: real, u: real, uu: real, v: real, vv: real)
    requires u >= 0.0 && v >= 0.0 && u * u == uu && v * v == vv && vv <= uu
    ensures c >= 0.0 ==> RatioOrder(c, u, c, v)
    ensures c < 0.0 && vv < uu ==> !RatioOrder(c, u, c, v)
  {
  }

  lemma OneAsset(w: Vec, x: Vec)
    requires FullyInvested(w, 1) && FullyInvested(x, 1)
    ensures w == x
  {
    assert SumTo(w, 1) == SumTo(w, 0) + w[0];
    assert SumTo(x, 1) == SumTo(x, 0) + x[0];
  }

  lemma SomeOtherPortfolio(w: Vec, n: nat) returns (x: Vec)
    requires FullyInvested(w, n) && n >= 2
    ensures FullyInvested(x, n) && x != w
  {
    x := Shift(w, 1.0, 0, 1);
    ShiftInvested(w, 1.0, 0, 1);
    assert x[0] == w[0] + 1.0;
  }

  /** The condition, in terms of the minimum-variance fund alone, under which max_sharpe keeps its promise. */
  ghost predicate SharpePromiseHolds(s: Mat, e: Vec, mv: Vec)
    requires IsMat(s, |s|, |s|) && |e| == |s| == |mv| && Quad(s, mv) > 0.0
  {
    || |s| == 1
    || SumK(s, e, mv) >= DEGENERACY_EPS
    || (Abs(SumK(s, e, mv)) < DEGENERACY_EPS && e[0] >= 0.0 && Level(e, e[0]))
  }

  lemma FallBackCase(sqrt: real -> real, s: Mat, e: Vec, mv: Vec)
    requires IsSqrt(sqrt) && PositiveDefinite(s) && IsMinVariance(s, mv) && |e| == |s| >= 2
    ensures BestSharpe(sqrt, s, e, mv) <==> e[0] >= 0.0 && Level(e, e[0])
  {
    hide DotTo, MatVec, SymmetricEntries, PositiveEverywhere, Add, Scale, Sub, SumTo, IsSqrt, Vol, NoBetter, Quad;
    if Level(e, e[0]) {
      forall x: Vec | FullyInvested(x, |s|)
        ensures e[0] >= 0.0 ==> NoBetter(sqrt, s, e, x, mv)
        ensures e[0] < 0.0 && x != mv ==> !NoBetter(sqrt, s, e, x, mv)
      {
        LevelExcess(sqrt, s, e, e[0], mv, x);
      }
      var other := SomeOtherPortfolio(mv, |s|);
      assert e[0] < 0.0 ==> !NoBetter(sqrt, s, e, other, mv);
    } else {
      var i :| 0 <= i < |e| && e[i] != e[0];
      if e[i] > e[0] { MinVarianceBeaten(sqrt, s, e, mv, i, 0); } else { MinVarianceBeaten(sqrt, s, e, mv, 0, i); }
    }
  }

  lemma TangencyCase(sqrt: real -> real, s: Mat, e: Vec, ratio: real, ms: Vec)
    requires IsSqrt(sqrt) && PositiveDefinite(s) && IsTangency(s, e, ratio, ms) && |s| >= 2
    ensures BestSharpe(sqrt, s, e, ms) <==> ratio > 0.0
  {
    hide DotTo, MatVec, SymmetricEntries, PositiveEverywhere, Add, Scale, Sub, SumTo, IsSqrt, Vol, NoBetter, Quad;
    forall x: Vec | FullyInvested(x, |s|)
      ensures ratio > 0.0 ==> NoBetter(sqrt, s, e, x, ms)
      ensures ratio < 0.0 && x != ms ==> !NoBetter(sqrt, s, e, x, ms)
    {
      TangencyIsExtreme(sqrt, s, e, ratio, ms, x);
    }
    var other := SomeOtherPortfolio(ms, |s|);
    assert ratio < 0.0 ==> !NoBetter(sqrt, s, e, other, ms);
  }

  /** The fund max_sharpe returns maximises the Sharpe ratio exactly when the promise's condition holds. */
  lemma MaxSharpeExactly(sqrt: real -> real, s: Mat, e: Vec, mv: Vec, ms: Vec)
    requires IsSqrt(sqrt) && PositiveDefinite(s) && |e| == |s| > 0 && Funds(s, e, mv, ms)
    ensures BestSharpe(sqrt, s, e, ms) <==> SharpePromiseHolds(s, e, mv)
  {
    hide DotTo, MatVec, SymmetricEntries, PositiveEverywhere, Add, Scale, Sub, SumTo, IsSqrt, Vol, Quad;
    if |s| == 1 {
      forall x: Vec | FullyInvested(x, 1) ensures NoBetter(sqrt, s, e, x, ms) { OneAsset(ms, x); }
    } else if Abs(SumK(s, e, mv)) < DEGENERACY_EPS {
      FallBackCase(sqrt, s, e, mv);
    } else {
      TangencyCase(sqrt, s, e, SumK(s, e, mv), ms);
    }
  }
}
