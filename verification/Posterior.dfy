/** The Black-Litterman posterior as a minimiser: its mean is the unique minimum of the distance from the prior plus the
    weighted view errors, which settles agreeing views, single views and uncertainty. */
module Posterior {
  import opened Reals
  import opened LinearAlgebra
  import opened Inverse

  // ---------- inverses of positive definite matrices ----------

  lemma InverseEntrySymmetric(t: Mat, ti: Mat, i: nat, j: nat)
    requires Symmetric(t) && IsInverse(t, ti) && i < |t| && j < |t|
    ensures ti[i][j] == ti[j][i]
  {
    hide DotTo, Undoes, MatVec, SymmetricEntries;
    var n := |t|;
    var u, v := MatVec(ti, Unit(n, i)), MatVec(ti, Unit(n, j));
    BilinearSymmetric(t, u, v);
    InverseAt(t, ti, Unit(n, i));
    InverseAt(t, ti, Unit(n, j));
    MatVecUnit(ti, n, i);
    MatVecUnit(ti, n, j);
    DotUnit(u, j);
    DotUnit(v, i);
  }

  /** With u = ti x: x'ti x == u't u. */
  lemma InverseQuad(t: Mat, ti: Mat, x: Vec)
    requires IsInverse(t, ti) && |x| == |t|
    ensures Quad(ti, x) == Quad(t, MatVec(ti, x))
  {
    hide DotTo, Undoes, MatVec;
    InverseAt(t, ti, x);
    DotComm(x, MatVec(ti, x));
  }

  lemma InversePositiveDefinite(t: Mat, ti: Mat)
    requires PositiveDefinite(t) && IsInverse(t, ti)
    ensures PositiveDefinite(ti)
  {
    hide DotTo, Undoes, MatVec, Quad;
    forall i, j | 0 <= i < |t| && 0 <= j < |t| ensures ti[i][j] == ti[j][i] { InverseEntrySymmetric(t, ti, i, j); }
    forall x: Vec | |x| == |t| && x != Zeros(|t|) ensures Quad(ti, x) > 0.0 {
      InverseQuad(t, ti, x);
      if MatVec(ti, x) == Zeros(|t|) { NullImage(t, ti, x); } else { PositiveAt(t, MatVec(ti, x)); }
    }
  }

  lemma NullImage(t: Mat, ti: Mat, x: Vec)
    requires IsInverse(t, ti) && |x| == |t| && MatVec(ti, x) == Zeros(|t|)
    ensures x == Zeros(|t|)
  {
    hide DotTo, Undoes;
    InverseAt(t, ti, x);
    forall i | 0 <= i < |t| ensures x[i] == 0.0 {
      DotToZeros(t[i], Zeros(|t|), |t|);
    }
  }

  // ---------- the diagonal metric of the views ----------

  /** Multiplies each entry of `x` by the matching weight. */
  function Weigh(s: Vec, x: Vec): (r: Vec)
    requires |s| == |x|
    ensures |r| == |x|
  {
    seq(|x|, i requires 0 <= i < |x| => s[i] * x[i])
  }

  lemma {:induction false} WeighCommTo(s: Vec, x: Vec, y: Vec, k: nat)
    requires |s| == |x| == |y| && k <= |x|
    ensures DotTo(Weigh(s, x), y, k) == DotTo(Weigh(s, y), x, k)
  {
    if k > 0 {
      WeighCommTo(s, x, y, k - 1);
      assert (s[k - 1] * x[k - 1]) * y[k - 1] == (s[k - 1] * y[k - 1]) * x[k - 1];
    }
  }

  lemma WeighComm(s: Vec, x: Vec, y: Vec)
    requires |s| == |x| == |y|
    ensures Dot(Weigh(s, x), y) == Dot(Weigh(s, y), x)
  {
    WeighCommTo(s, x, y, |x|);
  }

  lemma WeighAdd(s: Vec, x: Vec, y: Vec)
    requires |s| == |x| == |y|
    ensures Weigh(s, Add(x, y)) == Add(Weigh(s, x), Weigh(s, y))
  {
    var l, r := Weigh(s, Add(x, y)), Add(Weigh(s, x), Weigh(s, y));
    forall i | 0 <= i < |s| ensures l[i] == r[i] {
      assert s[i] * (x[i] + y[i]) == s[i] * x[i] + s[i] * y[i];
    }
  }

  lemma {:induction false} WeighSquareTo(s: Vec, x: Vec, k: nat)
    requires |s| == |x| && k <= |x| && forall i :: 0 <= i < |s| ==> s[i] > 0.0
    ensures DotTo(Weigh(s, x), x, k) >= 0.0
  {
    if k > 0 {
      WeighSquareTo(s, x, k - 1);
      var a, e := s[k - 1], x[k - 1];
      SquareSign(e, e * e);
      ProductPositive(a, e * e, a * (e * e));
      assert (a * e) * e == a * (e * e);
    }
  }

  /** |x + y|^2 in the weighted metric. */
  lemma WeighSquareOfSum(s: Vec, x: Vec, y: Vec)
    requires |s| == |x| == |y|
    ensures Dot(Weigh(s, Add(x, y)), Add(x, y))
         == Dot(Weigh(s, x), x) + 2.0 * Dot(Weigh(s, x), y) + Dot(Weigh(s, y), y)
  {
    hide DotTo, Undoes, Weigh;
    WeighAdd(s, x, y);
    var z := Add(x, y);
    DotAdd(Weigh(s, z), x, y);
    DotComm(Weigh(s, z), x);
    DotAdd(x, Weigh(s, x), Weigh(s, y));
    DotComm(x, Weigh(s, x));
    DotComm(x, Weigh(s, y));
    DotComm(Weigh(s, z), y);
    DotAdd(y, Weigh(s, x), Weigh(s, y));
    DotComm(y, Weigh(s, x));
    DotComm(y, Weigh(s, y));
    WeighComm(s, x, y);
  }

  // ---------- the view matrix ----------

  /** P' diag(s) P. */
  function ViewPrecision(p: Mat, s: Vec, n: nat): (v: Mat)
    requires IsMat(p, |p|, n) && |s| == |p|
    ensures IsMat(v, n, n)
  {
    seq(n, a requires 0 <= a < n => seq(n, b requires 0 <= b < n => Dot(Weigh(s, Col(p, n, a)), Col(p, n, b))))
  }

  lemma ViewRow(p: Mat, s: Vec, n: nat, a: nat)
    requires IsMat(p, |p|, n) && |s| == |p| && a < n
    ensures ViewPrecision(p, s, n)[a] == Comb(p, Weigh(s, Col(p, n, a)), n)
  {
    hide DotTo, Undoes, Weigh;
    var l, r := ViewPrecision(p, s, n)[a], Comb(p, Weigh(s, Col(p, n, a)), n);
    forall b | 0 <= b < n ensures l[b] == r[b] {
      CombEntry(p, Weigh(s, Col(p, n, a)), n, b);
      DotComm(Weigh(s, Col(p, n, a)), Col(p, n, b));
    }
  }

  /** (P' diag(s) P) x == P' (s . Px). */
  lemma ViewVec(p: Mat, s: Vec, x: Vec)
    requires IsMat(p, |p|, |x|) && |s| == |p|
    ensures MatVec(ViewPrecision(p, s, |x|), x) == Comb(p, Weigh(s, MatVec(p, x)), |x|)
  {
    hide DotTo, Undoes, Weigh;
    var n := |x|;
    var v, px := ViewPrecision(p, s, n), MatVec(p, x);
    var l, r := MatVec(v, x), Comb(p, Weigh(s, px), n);
    forall a | 0 <= a < n ensures l[a] == r[a] {
      ViewRow(p, s, n, a);
      Adjoint(p, x, Weigh(s, Col(p, n, a)));
      WeighComm(s, Col(p, n, a), px);
      CombEntry(p, Weigh(s, px), n, a);
      DotComm(Weigh(s, px), Col(p, n, a));
    }
  }

  lemma ViewSymmetric(p: Mat, s: Vec, n: nat, a: nat, b: nat)
    requires IsMat(p, |p|, n) && |s| == |p| && a < n && b < n
    ensures ViewPrecision(p, s, n)[a][b] == ViewPrecision(p, s, n)[b][a]
  {
    WeighComm(s, Col(p, n, a), Col(p, n, b));
  }

  function MatAdd(a: Mat, b: Mat): (r: Mat)
    requires IsMat(a, |a|, |a|) && IsMat(b, |a|, |a|)
    ensures IsMat(r, |a|, |a|)
  {
    seq(|a|, i requires 0 <= i < |a| => Add(a[i], b[i]))
  }

  lemma MatAddVec(a: Mat, b: Mat, x: Vec)
    requires IsMat(a, |a|, |a|) && IsMat(b, |a|, |a|) && |x| == |a|
    ensures MatVec(MatAdd(a, b), x) == Add(MatVec(a, x), MatVec(b, x))
  {
    hide DotTo;
    forall i | 0 <= i < |a| ensures MatVec(MatAdd(a, b), x)[i] == Add(MatVec(a, x), MatVec(b, x))[i] {
      DotComm(Add(a[i], b[i]), x);
      DotAdd(x, a[i], b[i]);
      DotComm(x, a[i]);
      DotComm(x, b[i]);
    }
  }

  lemma MatAddQuad(a: Mat, b: Mat, x: Vec)
    requires IsMat(a, |a|, |a|) && IsMat(b, |a|, |a|) && |x| == |a|
    ensures Quad(MatAdd(a, b), x) == Quad(a, x) + Quad(b, x)
  {
    hide DotTo, Undoes, MatVec, MatAdd;
    MatAddVec(a, b, x);
    DotAdd(x, MatVec(a, x), MatVec(b, x));
  }

  lemma MatAddPositiveDefinite(a: Mat, b: Mat)
    requires PositiveDefinite(a) && Symmetric(b) && |b| == |a|
    requires forall x: Vec :: |x| == |a| ==> Quad(b, x) >= 0.0
    ensures PositiveDefinite(MatAdd(a, b))
  {
    hide DotTo, Undoes, MatVec, Quad, PositiveEverywhere;
    var m := MatAdd(a, b);
    assert SymmetricEntries(m) by {
      forall i, j | 0 <= i < |m| && 0 <= j < |m| ensures m[i][j] == m[j][i] {
        assert a[i][j] == a[j][i] && b[i][j] == b[j][i];
      }
    }
    forall x: Vec | |x| == |m| && x != Zeros(|m|) ensures Quad(m, x) > 0.0 {
      MatAddQuad(a, b, x);
      PositiveAt(a, x);
    }
    assert PositiveEverywhere(m) by { AllPositive(m); }
  }

  lemma AllPositive(m: Mat)
    requires IsMat(m, |m|, |m|)
    requires forall x: Vec :: |x| == |m| && x != Zeros(|m|) ==> Quad(m, x) > 0.0
    ensures PositiveEverywhere(m)
  {
  }

  lemma ViewQuad(p: Mat, s: Vec, x: Vec)
    requires IsMat(p, |p|, |x|) && |s| == |p|
    ensures Quad(ViewPrecision(p, s, |x|), x) == Dot(Weigh(s, MatVec(p, x)), MatVec(p, x))
  {
    hide DotTo, Undoes, Weigh, MatVec, ViewPrecision;
    ViewVec(p, s, x);
    Adjoint(p, x, Weigh(s, MatVec(p, x)));
    DotComm(x, Comb(p, Weigh(s, MatVec(p, x)), |x|));
  }

  /** The posterior precision is positive definite. */
  lemma PrecisionPositiveDefinite(ti: Mat, p: Mat, s: Vec)
    requires PositiveDefinite(ti) && IsMat(p, |p|, |ti|) && |s| == |p| && forall i :: 0 <= i < |s| ==> s[i] > 0.0
    ensures PositiveDefinite(MatAdd(ti, ViewPrecision(p, s, |ti|)))
  {
    hide DotTo, Undoes, MatVec, Quad, Weigh, PositiveEverywhere;
    var n := |ti|;
    var v := ViewPrecision(p, s, n);
    forall a, b | 0 <= a < n && 0 <= b < n ensures v[a][b] == v[b][a] { ViewSymmetric(p, s, n, a, b); }
    forall x: Vec | |x| == n ensures Quad(v, x) >= 0.0 {
      ViewQuad(p, s, x);
      WeighSquareTo(s, MatVec(p, x), |s|);
    }
    MatAddPositiveDefinite(ti, v);
  }

  // ---------- multiples of a matrix ----------

  function Scaled(c: real, m: Mat): (r: Mat)
    requires IsMat(m, |m|, |m|)
    ensures IsMat(r, |m|, |m|)
  {
    seq(|m|, i requires 0 <= i < |m| => Scale(c, m[i]))
  }

  lemma ScaledVec(c: real, m: Mat, x: Vec)
    requires IsMat(m, |m|, |m|) && |x| == |m|
    ensures MatVec(Scaled(c, m), x) == Scale(c, MatVec(m, x))
  {
    hide DotTo, Scale;
    forall i | 0 <= i < |m| ensures MatVec(Scaled(c, m), x)[i] == c * Dot(m[i], x) {
      DotComm(Scale(c, m[i]), x);
      DotScale(x, c, m[i]);
      DotComm(x, m[i]);
    }
    ScaleEntries(c, MatVec(m, x), MatVec(Scaled(c, m), x));
  }

  lemma ScaleEntries(c: real, v: Vec, r: Vec)
    requires |v| == |r| && forall i :: 0 <= i < |v| ==> r[i] == c * v[i]
    ensures r == Scale(c, v)
  {
    forall i | 0 <= i < |v| ensures r[i] == Scale(c, v)[i] {}
  }

  lemma ScaledQuad(c: real, m: Mat, x: Vec)
    requires IsMat(m, |m|, |m|) && |x| == |m|
    ensures Quad(Scaled(c, m), x) == c * Quad(m, x)
  {
    hide DotTo, MatVec, Scaled;
    ScaledVec(c, m, x);
    DotScale(x, c, MatVec(m, x));
  }

  lemma ScaledPositiveDefinite(c: real, m: Mat)
    requires PositiveDefinite(m) && c > 0.0
    ensures PositiveDefinite(Scaled(c, m))
  {
    hide DotTo, MatVec, Quad;
    var r := Scaled(c, m);
    forall i, j | 0 <= i < |m| && 0 <= j < |m| ensures r[i][j] == r[j][i] { assert m[i][j] == m[j][i]; }
    forall x: Vec | |x| == |m| && x != Zeros(|m|) ensures Quad(r, x) > 0.0 {
      ScaledQuad(c, m, x);
      PositiveAt(m, x);
      ProductPositive(c, Quad(m, x), c * Quad(m, x));
    }
  }

  // ---------- the posterior mean ----------

  /** Distance from the prior in the prior's metric plus the weighted squared view errors. */
  function Loss(ti: Mat, prior: Vec, p: Mat, q: Vec, s: Vec, mu: Vec): real
    requires IsMat(ti, |mu|, |mu|) && |prior| == |mu| && IsMat(p, |p|, |mu|) && |q| == |s| == |p|
  {
    Quad(ti, Sub(mu, prior)) + Dot(Weigh(s, ViewError(p, q, mu)), ViewError(p, q, mu))
  }

  function ViewError(p: Mat, q: Vec, mu: Vec): (e: Vec)
    requires IsMat(p, |p|, |mu|) && |q| == |p|
    ensures |e| == |p|
  {
    Sub(MatVec(p, mu), q)
  }

  /** The source's linear system: (ti + P'WP) mu == ti prior + P'Wq. */
  ghost predicate SolvesPosterior(ti: Mat, prior: Vec, p: Mat, q: Vec, s: Vec, mu: Vec)
    requires IsMat(ti, |mu|, |mu|) && |prior| == |mu| && IsMat(p, |p|, |mu|) && |q| == |s| == |p|
  {
    MatVec(MatAdd(ti, ViewPrecision(p, s, |mu|)), mu) == Add(MatVec(ti, prior), Comb(p, Weigh(s, q), |mu|))
  }

  lemma {:induction false} CombAddTo(p: Mat, x: Vec, y: Vec, n: nat, k: nat)
    requires IsMat(p, |p|, n) && |x| == |y| == |p| && k <= |p|
    ensures CombTo(p, Add(x, y), n, k) == Add(CombTo(p, x, n, k), CombTo(p, y, n, k))
  {
    if k > 0 {
      CombAddTo(p, x, y, n, k - 1);
      var l, r := CombTo(p, Add(x, y), n, k), Add(CombTo(p, x, n, k), CombTo(p, y, n, k));
      forall j | 0 <= j < n ensures l[j] == r[j] {
        assert (x[k - 1] + y[k - 1]) * p[k - 1][j] == x[k - 1] * p[k - 1][j] + y[k - 1] * p[k - 1][j];
      }
    }
  }

  /** The gradient of the loss vanishes at the posterior mean: d'ti(mu - prior) + (Pd)'W(P mu - q) == 0. */
  lemma GradientVanishes(ti: Mat, prior: Vec, p: Mat, q: Vec, s: Vec, mu: Vec, d: Vec)
    requires IsMat(ti, |mu|, |mu|) && |prior| == |mu| == |d| && IsMat(p, |p|, |mu|) && |q| == |s| == |p|
    requires SolvesPosterior(ti, prior, p, q, s, mu)
    ensures Bilinear(ti, d, Sub(mu, prior)) + Dot(Weigh(s, ViewError(p, q, mu)), MatVec(p, d)) == 0.0
  {
    hide DotTo, Undoes, Weigh, MatVec, ViewPrecision, MatAdd, Sub, ViewError;
    var n := |mu|;
    ViewVec(p, s, mu);
    MatAddVec(ti, ViewPrecision(p, s, n), mu);
    var tm, tp := MatVec(ti, mu), MatVec(ti, prior);
    var vm, vq := Comb(p, Weigh(s, MatVec(p, mu)), n), Comb(p, Weigh(s, q), n);
    assert Add(tm, vm) == Add(tp, vq);
    DotAdd(d, tm, vm);
    DotAdd(d, tp, vq);
    ViewPairing(p, s, MatVec(p, mu), d);
    ViewPairing(p, s, q, d);
    BilinearOfDifference(ti, d, mu, prior);
    WeighOfDifference(s, MatVec(p, mu), q, MatVec(p, d));
    ErrorUnfold(p, q, mu);
  }

  lemma ErrorUnfold(p: Mat, q: Vec, mu: Vec)
    requires IsMat(p, |p|, |mu|) && |q| == |p|
    ensures ViewError(p, q, mu) == Sub(MatVec(p, mu), q)
  {
  }

  lemma ViewPairing(p: Mat, s: Vec, v: Vec, d: Vec)
    requires IsMat(p, |p|, |d|) && |s| == |v| == |p|
    ensures Dot(d, Comb(p, Weigh(s, v), |d|)) == Dot(Weigh(s, v), MatVec(p, d))
  {
    hide DotTo, Undoes, Weigh, MatVec;
    Adjoint(p, d, Weigh(s, v));
    DotComm(d, Comb(p, Weigh(s, v), |d|));
  }

  lemma BilinearOfDifference(a: Mat, d: Vec, x: Vec, y: Vec)
    requires IsMat(a, |d|, |x|) && |x| == |y|
    ensures Bilinear(a, d, Sub(x, y)) == Dot(d, MatVec(a, x)) - Dot(d, MatVec(a, y))
  {
    hide DotTo, Undoes, MatVec;
    assert Sub(x, y) == Add(Scale(1.0, x), Scale(-1.0, y));
    BilinearLinear(a, d, 1.0, x, -1.0, y);
  }

  lemma WeighOfDifference(s: Vec, x: Vec, y: Vec, z: Vec)
    requires |s| == |x| == |y| == |z|
    ensures Dot(Weigh(s, Sub(x, y)), z) == Dot(Weigh(s, x), z) - Dot(Weigh(s, y), z)
  {
    hide DotTo, Undoes, Weigh;
    WeighComm(s, Sub(x, y), z);
    WeighComm(s, x, z);
    WeighComm(s, y, z);
    DotSub(Weigh(s, z), x, y);
  }

  /** The loss rises by exactly d'(posterior precision)d when moving d away from the posterior mean. */
  lemma LossExpansion(ti: Mat, prior: Vec, p: Mat, q: Vec, s: Vec, mu: Vec, d: Vec)
    requires Symmetric(ti) && |ti| == |mu| == |prior| == |d| && IsMat(p, |p|, |mu|) && |q| == |s| == |p|
    requires SolvesPosterior(ti, prior, p, q, s, mu)
    ensures Loss(ti, prior, p, q, s, Add(mu, d))
         == Loss(ti, prior, p, q, s, mu) + Quad(MatAdd(ti, ViewPrecision(p, s, |mu|)), d)
  {
    hide DotTo, Undoes, Weigh, MatVec, ViewPrecision, MatAdd, SymmetricEntries, SolvesPosterior;
    GradientVanishes(ti, prior, p, q, s, mu, d);
    PriorPart(ti, prior, mu, d);
    ViewPart(p, q, s, mu, d);
    ViewQuad(p, s, d);
    MatAddQuad(ti, ViewPrecision(p, s, |mu|), d);
  }

  lemma PriorPart(ti: Mat, prior: Vec, mu: Vec, d: Vec)
    requires Symmetric(ti) && |ti| == |mu| == |prior| == |d|
    ensures Quad(ti, Sub(Add(mu, d), prior))
         == Quad(ti, Sub(mu, prior)) + 2.0 * Bilinear(ti, d, Sub(mu, prior)) + Quad(ti, d)
  {
    hide DotTo, Undoes, MatVec, SymmetricEntries, Quad, Bilinear;
    var e := Sub(mu, prior);
    assert Sub(Add(mu, d), prior) == Add(Scale(1.0, e), Scale(1.0, d));
    QuadCombination(ti, 1.0, e, 1.0, d);
    BilinearSymmetric(ti, e, d);
  }

  lemma ViewPart(p: Mat, q: Vec, s: Vec, mu: Vec, d: Vec)
    requires IsMat(p, |p|, |mu|) && |q| == |s| == |p| && |d| == |mu|
    ensures Dot(Weigh(s, ViewError(p, q, Add(mu, d))), ViewError(p, q, Add(mu, d)))
         == Dot(Weigh(s, ViewError(p, q, mu)), ViewError(p, q, mu))
          + 2.0 * Dot(Weigh(s, ViewError(p, q, mu)), MatVec(p, d)) + Dot(Weigh(s, MatVec(p, d)), MatVec(p, d))
  {
    hide DotTo, Undoes, Weigh, MatVec;
    assert Add(mu, d) == Add(Scale(1.0, mu), Scale(1.0, d));
    MatVecLinear(p, 1.0, mu, 1.0, d);
    assert ViewError(p, q, Add(mu, d)) == Add(ViewError(p, q, mu), MatVec(p, d));
    WeighSquareOfSum(s, ViewError(p, q, mu), MatVec(p, d));
  }

  /** The posterior mean is the unique minimiser of the loss. */
  lemma PosteriorIsUniqueMinimiser(ti: Mat, prior: Vec, p: Mat, q: Vec, s: Vec, mu: Vec, other: Vec)
    requires PositiveDefinite(ti) && |ti| == |mu| == |prior| == |other| && IsMat(p, |p|, |mu|) && |q| == |s| == |p|
    requires (forall i :: 0 <= i < |s| ==> s[i] > 0.0) && SolvesPosterior(ti, prior, p, q, s, mu)
    ensures other != mu ==> Loss(ti, prior, p, q, s, other) > Loss(ti, prior, p, q, s, mu)
  {
    hide DotTo, Undoes, Weigh, MatVec, ViewPrecision, MatAdd, SymmetricEntries, PositiveEverywhere, Loss,
         SolvesPosterior, Quad;
    if other != mu {
      var d := Sub(other, mu);
      assert other == Add(mu, d);
      LossExpansion(ti, prior, p, q, s, mu, d);
      PrecisionPositiveDefinite(ti, p, s);
      var i :| 0 <= i < |mu| && other[i] != mu[i];
      assert d[i] != 0.0;
      PositiveAt(MatAdd(ti, ViewPrecision(p, s, |mu|)), d);
    }
  }

  // ---------- consequences ----------

  /** Views that repeat the prior leave it unchanged. */
  lemma AgreeingViewsKeepPrior(ti: Mat, prior: Vec, p: Mat, s: Vec, mu: Vec)
    requires PositiveDefinite(ti) && |ti| == |mu| == |prior| && IsMat(p, |p|, |mu|) && |s| == |p|
    requires (forall i :: 0 <= i < |s| ==> s[i] > 0.0) && SolvesPosterior(ti, prior, p, MatVec(p, prior), s, mu)
    ensures mu == prior
  {
    hide DotTo, Undoes, Weigh, MatVec, ViewPrecision, MatAdd, SymmetricEntries, PositiveEverywhere, SolvesPosterior,
         Loss;
    var q := MatVec(p, prior);
    PosteriorIsUniqueMinimiser(ti, prior, p, q, s, mu, prior);
    LossAtPrior(ti, prior, p, s);
    LossNonNegative(ti, prior, p, q, s, mu);
  }

  lemma LossAtPrior(ti: Mat, prior: Vec, p: Mat, s: Vec)
    requires IsMat(ti, |prior|, |prior|) && IsMat(p, |p|, |prior|) && |s| == |p|
    ensures Loss(ti, prior, p, MatVec(p, prior), s, prior) == 0.0
  {
    hide MatVec;
    var n, k := |prior|, |p|;
    assert Sub(prior, prior) == Zeros(n);
    DotToZeros(MatVec(ti, Zeros(n)), Zeros(n), n);
    DotComm(MatVec(ti, Zeros(n)), Zeros(n));
    var e := ViewError(p, MatVec(p, prior), prior);
    assert e == Zeros(k);
    DotToZeros(Weigh(s, e), e, k);
  }

  lemma LossNonNegative(ti: Mat, prior: Vec, p: Mat, q: Vec, s: Vec, mu: Vec)
    requires PositiveDefinite(ti) && |ti| == |mu| == |prior| && IsMat(p, |p|, |mu|) && |q| == |s| == |p|
    requires forall i :: 0 <= i < |s| ==> s[i] > 0.0
    ensures Loss(ti, prior, p, q, s, mu) >= 0.0
  {
    hide DotTo, Undoes, MatVec, SymmetricEntries, PositiveEverywhere, Quad, Weigh;
    QuadNonNegative(ti, Sub(mu, prior));
    WeighSquareTo(s, ViewError(p, q, mu), |s|);
  }

  /** The posterior mean leaves the prior only along t P': mu - prior == t P' W (q - P mu). */
  lemma PosteriorTilt(t: Mat, ti: Mat, prior: Vec, p: Mat, q: Vec, s: Vec, mu: Vec, x: Vec)
    requires Symmetric(t) && IsInverse(t, ti) && |t| == |mu| == |prior| == |x| && IsMat(p, |p|, |mu|)
             && |q| == |s| == |p|
    requires SolvesPosterior(ti, prior, p, q, s, mu)
    ensures Dot(x, mu) - Dot(x, prior) == -Dot(Weigh(s, ViewError(p, q, mu)), MatVec(p, MatVec(t, x)))
  {
    hide DotTo, Undoes, MatVec, Weigh, SymmetricEntries, SolvesPosterior, ViewError, Sub;
    var d := MatVec(t, x);
    GradientVanishes(ti, prior, p, q, s, mu, d);
    var u := MatVec(ti, Sub(mu, prior));
    BilinearSymmetric(t, u, x);
    InverseAt(t, ti, Sub(mu, prior));
    DotComm(d, u);
    DotSub(x, mu, prior);
  }

  /** A single view with Omega = P t P' is met exactly halfway between the prior's view and the stated one. */
  lemma SingleViewHalfway(t: Mat, ti: Mat, prior: Vec, row: Vec, q: real, w: real, mu: Vec)
    requires Symmetric(t) && IsInverse(t, ti) && |t| == |mu| == |prior| == |row|
    requires w * Quad(t, row) == 1.0 && SolvesPosterior(ti, prior, [row], [q], [w], mu)
    ensures Dot(row, mu) == (Dot(row, prior) + q) / 2.0
  {
    hide DotTo, Undoes, MatVec, SymmetricEntries, SolvesPosterior, Weigh, ViewError, Quad;
    PosteriorTilt(t, ti, prior, [row], [q], [w], mu, row);
    OneView(row, q, w, mu, MatVec(t, row));
    HalfWay(w, Dot(row, MatVec(t, row)), Dot(row, mu), Dot(row, prior), q) by { QuadIs(t, row); }
  }

  lemma QuadIs(t: Mat, x: Vec)
    requires IsMat(t, |x|, |x|)
    ensures Quad(t, x) == Dot(x, MatVec(t, x))
  {
  }

  lemma OneView(row: Vec, q: real, w: real, mu: Vec, y: Vec)
    requires |row| == |mu| == |y|
    ensures Dot(Weigh([w], ViewError([row], [q], mu)), MatVec([row], y)) == (w * (Dot(row, mu) - q)) * Dot(row, y)
  {
    var e := ViewError([row], [q], mu);
    assert e[0] == Dot(row, mu) - q;
    var a, b := Weigh([w], e), MatVec([row], y);
    assert DotTo(a, b, 1) == DotTo(a, b, 0) + a[0] * b[0];
  }

  lemma HalfWay(w: real, omega: real, m: real, p: real, q: real)
    requires w * omega == 1.0 && m - p == -((w * (m - q)) * omega)
    ensures m == (p + q) / 2.0
  {
    assert (w * (m - q)) * omega == (w * omega) * (m - q);
  }

  /** Views never add uncertainty: x' m1inv x <= x' t x. */
  lemma ViewsReduceUncertainty(t: Mat, ti: Mat, p: Mat, s: Vec, m1inv: Mat, x: Vec)
    requires PositiveDefinite(t) && IsInverse(t, ti) && |x| == |t| && IsMat(p, |p|, |t|) && |s| == |p|
    requires forall i :: 0 <= i < |s| ==> s[i] > 0.0
    requires IsInverse(MatAdd(ti, ViewPrecision(p, s, |t|)), m1inv)
    ensures 0.0 <= Quad(m1inv, x) <= Quad(t, x)
  {
    hide DotTo, Undoes, MatVec, SymmetricEntries, PositiveEverywhere, Quad, Weigh, ViewPrecision, MatAdd;
    var u := MatVec(m1inv, x);
    var w := MatVec(ti, u);
    PrecisionSplits(t, ti, p, s, m1inv, x, u);
    CauchySchwarz(t, x, w);
    QuadNonNegative(t, w);
    QuadNonNegative(t, x);
    PairingWithInverse(t, ti, m1inv, x, u, w);
    BoundByCauchy(Quad(m1inv, x), Quad(t, x), Quad(t, w));
  }

  lemma PrecisionSplits(t: Mat, ti: Mat, p: Mat, s: Vec, m1inv: Mat, x: Vec, u: Vec)
    requires IsInverse(t, ti) && |x| == |t| && IsMat(p, |p|, |t|) && |s| == |p|
    requires forall i :: 0 <= i < |s| ==> s[i] > 0.0
    requires IsInverse(MatAdd(ti, ViewPrecision(p, s, |t|)), m1inv) && u == MatVec(m1inv, x)
    ensures Quad(m1inv, x) >= Quad(t, MatVec(ti, u))
  {
    hide DotTo, Undoes, MatVec, Quad, Weigh, ViewPrecision, MatAdd;
    var v := ViewPrecision(p, s, |t|);
    InverseQuad(MatAdd(ti, v), m1inv, x);
    MatAddQuad(ti, v, u);
    ViewQuad(p, s, u);
    WeighSquareTo(s, MatVec(p, u), |s|);
    InverseQuad(t, ti, u);
  }

  lemma PairingWithInverse(t: Mat, ti: Mat, m1inv: Mat, x: Vec, u: Vec, w: Vec)
    requires IsInverse(t, ti) && IsMat(m1inv, |t|, |t|) && |x| == |u| == |t|
    requires u == MatVec(m1inv, x) && w == MatVec(ti, u)
    ensures Bilinear(t, x, w) == Quad(m1inv, x)
  {
    hide DotTo, Undoes, MatVec;
    InverseAt(t, ti, u);
  }

  lemma BoundByCauchy(a: real, qt: real, qw: real)
    requires a * a <= qt * qw && 0.0 <= qw <= a && qt >= 0.0
    ensures a <= qt
  {
    MulMonotone(qw, a, qt);
    var d := (a - qt) * a;
    ProductPositive(a - qt, a, d);
    assert d == a * a - qt * a;
  }
}
