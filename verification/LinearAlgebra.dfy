/** Exact real vectors and matrices, the algebra the optimizers rely on: inner products as the accumulator loops compute
    them, linearity and adjoints, positive definite forms, and Cauchy-Schwarz with its equality case. */
module LinearAlgebra {
  import opened Reals

  type Vec = seq<real>
  type Mat = seq<seq<real>>

  // ---------- vectors ----------

  /** The sum of the first `k` products: the state of the accumulator loops. */
  function DotTo(a: Vec, b: Vec, k: nat): real
    requires k <= |a| && k <= |b|
  {
    if k == 0 then 0.0 else DotTo(a, b, k - 1) + a[k - 1] * b[k - 1]
  }

  function Dot(a: Vec, b: Vec): real
    requires |a| == |b|
  {
    DotTo(a, b, |a|)
  }

  function SumTo(a: Vec, k: nat): real
    requires k <= |a|
  {
    if k == 0 then 0.0 else SumTo(a, k - 1) + a[k - 1]
  }

  function Sum(a: Vec): real { SumTo(a, |a|) }

  function Add(a: Vec, b: Vec): (r: Vec)
    requires |a| == |b|
    ensures |r| == |a|
  {
    seq(|a|, i requires 0 <= i < |a| => a[i] + b[i])
  }

  function Scale(c: real, a: Vec): (r: Vec)
    ensures |r| == |a|
  {
    seq(|a|, i requires 0 <= i < |a| => c * a[i])
  }

  function Sub(a: Vec, b: Vec): (r: Vec)
    requires |a| == |b|
    ensures |r| == |a|
  {
    Add(a, Scale(-1.0, b))
  }

  function Zeros(n: nat): (r: Vec)
    ensures |r| == n
  {
    seq(n, _ => 0.0)
  }

  function Ones(n: nat): (r: Vec)
    ensures |r| == n
  {
    seq(n, _ => 1.0)
  }

  function Unit(n: nat, k: nat): (r: Vec)
    ensures |r| == n
  {
    seq(n, i => if i == k then 1.0 else 0.0)
  }

  lemma {:induction false} DotToComm(a: Vec, b: Vec, k: nat)
    requires k <= |a| && k <= |b|
    ensures DotTo(a, b, k) == DotTo(b, a, k)
  {
    if k > 0 { DotToComm(a, b, k - 1); }
  }

  lemma {:induction false} DotToCongruence(a: Vec, b: Vec, a': Vec, b': Vec, k: nat)
    requires k <= |a| && k <= |b| && k <= |a'| && k <= |b'|
    requires forall i :: 0 <= i < k ==> a[i] == a'[i] && b[i] == b'[i]
    ensures DotTo(a, b, k) == DotTo(a', b', k)
  {
    if k > 0 { DotToCongruence(a, b, a', b', k - 1); }
  }

  lemma {:induction false} DotToLinear(a: Vec, c: real, x: Vec, d: real, y: Vec, k: nat)
    requires k <= |a| && k <= |x| == |y|
    ensures DotTo(a, Add(Scale(c, x), Scale(d, y)), k) == c * DotTo(a, x, k) + d * DotTo(a, y, k)
  {
    if k > 0 {
      DotToLinear(a, c, x, d, y, k - 1);
      var p, q, r := a[k - 1], x[k - 1], y[k - 1];
      assert p * (c * q + d * r) == c * (p * q) + d * (p * r);
      var s, t := DotTo(a, x, k - 1), DotTo(a, y, k - 1);
      assert c * (s + p * q) == c * s + c * (p * q);
      assert d * (t + p * r) == d * t + d * (p * r);
    }
  }

  lemma DotComm(a: Vec, b: Vec)
    requires |a| == |b|
    ensures Dot(a, b) == Dot(b, a)
  {
    DotToComm(a, b, |a|);
  }

  lemma DotLinear(a: Vec, c: real, x: Vec, d: real, y: Vec)
    requires |a| == |x| == |y|
    ensures Dot(a, Add(Scale(c, x), Scale(d, y))) == c * Dot(a, x) + d * Dot(a, y)
  {
    DotToLinear(a, c, x, d, y, |a|);
  }

  lemma DotLinearLeft(c: real, x: Vec, d: real, y: Vec, a: Vec)
    requires |a| == |x| == |y|
    ensures Dot(Add(Scale(c, x), Scale(d, y)), a) == c * Dot(x, a) + d * Dot(y, a)
  {
    DotLinear(a, c, x, d, y);
    DotComm(a, Add(Scale(c, x), Scale(d, y)));
    DotComm(a, x);
    DotComm(a, y);
  }

  lemma DotAdd(a: Vec, x: Vec, y: Vec)
    requires |a| == |x| == |y|
    ensures Dot(a, Add(x, y)) == Dot(a, x) + Dot(a, y)
  {
    assert Add(x, y) == Add(Scale(1.0, x), Scale(1.0, y));
    DotLinear(a, 1.0, x, 1.0, y);
  }

  lemma DotSub(a: Vec, x: Vec, y: Vec)
    requires |a| == |x| == |y|
    ensures Dot(a, Sub(x, y)) == Dot(a, x) - Dot(a, y)
  {
    assert Sub(x, y) == Add(Scale(1.0, x), Scale(-1.0, y));
    DotLinear(a, 1.0, x, -1.0, y);
  }

  lemma DotScale(a: Vec, c: real, x: Vec)
    requires |a| == |x|
    ensures Dot(a, Scale(c, x)) == c * Dot(a, x)
  {
    assert Scale(c, x) == Add(Scale(c, x), Scale(0.0, x));
    DotLinear(a, c, x, 0.0, x);
  }

  lemma {:induction false} DotToZeros(a: Vec, b: Vec, k: nat)
    requires k <= |a| && k <= |b|
    requires forall i :: 0 <= i < k ==> b[i] == 0.0
    ensures DotTo(a, b, k) == 0.0
  {
    if k > 0 { DotToZeros(a, b, k - 1); }
  }

  lemma {:induction false} DotToUnit(a: Vec, n: nat, j: nat, k: nat)
    requires k <= |a| && k <= n
    ensures DotTo(a, Unit(n, j), k) == if j < k then a[j] else 0.0
  {
    if k > 0 { DotToUnit(a, n, j, k - 1); }
  }

  lemma DotUnit(a: Vec, j: nat)
    requires j < |a|
    ensures Dot(a, Unit(|a|, j)) == a[j] && Dot(Unit(|a|, j), a) == a[j]
  {
    DotToUnit(a, |a|, j, |a|);
    DotComm(a, Unit(|a|, j));
  }

  lemma {:induction false} SumToIsDot(a: Vec, n: nat, k: nat)
    requires k <= |a| && k <= n
    ensures SumTo(a, k) == DotTo(a, Ones(n), k)
  {
    if k > 0 { SumToIsDot(a, n, k - 1); }
  }

  lemma SumIsDot(a: Vec)
    ensures Sum(a) == Dot(a, Ones(|a|)) == Dot(Ones(|a|), a)
  {
    SumToIsDot(a, |a|, |a|);
    DotComm(a, Ones(|a|));
  }

  lemma {:induction false} PositiveSumTo(v: Vec, k: nat)
    requires k <= |v| && forall i :: 0 <= i < |v| ==> v[i] > 0.0
    ensures SumTo(v, k) >= 0.0 && (k > 0 ==> SumTo(v, k) > 0.0)
  {
    if k > 0 { PositiveSumTo(v, k - 1); }
  }

  lemma SumLinear(c: real, x: Vec, d: real, y: Vec)
    requires |x| == |y|
    ensures Sum(Add(Scale(c, x), Scale(d, y))) == c * Sum(x) + d * Sum(y)
  {
    var z := Add(Scale(c, x), Scale(d, y));
    SumIsDot(x);
    SumIsDot(y);
    SumIsDot(z);
    DotLinear(Ones(|x|), c, x, d, y);
  }

  lemma SumScale(c: real, x: Vec)
    ensures Sum(Scale(c, x)) == c * Sum(x)
  {
    assert Scale(c, x) == Add(Scale(c, x), Scale(0.0, x));
    SumLinear(c, x, 0.0, x);
  }

  /** Scaled so that the entries sum to one. */
  function Normalised(v: Vec): (r: Vec)
    requires Sum(v) != 0.0
    ensures |r| == |v|
  {
    seq(|v|, i requires 0 <= i < |v| => v[i] / Sum(v))
  }

  lemma NormalisedSum(v: Vec)
    requires Sum(v) != 0.0
    ensures Sum(Normalised(v)) == 1.0
  {
    hide SumTo;
    var c := 1.0 / Sum(v);
    forall i | 0 <= i < |v| ensures Normalised(v)[i] == Scale(c, v)[i] {
      assert v[i] / Sum(v) == c * v[i];
    }
    assert Normalised(v) == Scale(c, v);
    SumScale(c, v);
  }

  lemma {:induction false} DotToSelf(x: Vec, k: nat, j: nat)
    requires k <= |x|
    ensures DotTo(x, x, k) >= 0.0
    ensures j < k && x[j] != 0.0 ==> DotTo(x, x, k) > 0.0
  {
    if k > 0 {
      DotToSelf(x, k - 1, j);
      SquareSign(x[k - 1], x[k - 1] * x[k - 1]);
    }
  }

  /** |x|^2 is non-negative, and zero only at the zero vector. */
  lemma SquaredNorm(x: Vec)
    ensures Dot(x, x) >= 0.0
    ensures x != Zeros(|x|) ==> Dot(x, x) > 0.0
  {
    DotToSelf(x, |x|, 0);
    if x != Zeros(|x|) {
      var j :| 0 <= j < |x| && x[j] != 0.0;
      DotToSelf(x, |x|, j);
    }
  }

  // ---------- matrices ----------

  predicate IsMat(a: Mat, rows: nat, cols: nat) {
    |a| == rows && forall i :: 0 <= i < rows ==> |a[i]| == cols
  }

  function MatVec(a: Mat, x: Vec): (r: Vec)
    requires IsMat(a, |a|, |x|)
    ensures |r| == |a|
  {
    seq(|a|, i requires 0 <= i < |a| => Dot(a[i], x))
  }

  function Col(a: Mat, cols: nat, j: nat): (r: Vec)
    requires IsMat(a, |a|, cols) && j < cols
    ensures |r| == |a|
  {
    seq(|a|, i requires 0 <= i < |a| => a[i][j])
  }

  function Identity(n: nat): Mat { seq(n, i requires 0 <= i < n => Unit(n, i)) }

  function MatMul(a: Mat, b: Mat, cols: nat): Mat
    requires IsMat(a, |a|, |b|) && IsMat(b, |b|, cols)
  {
    seq(|a|, i requires 0 <= i < |a| => seq(cols, j requires 0 <= j < cols => Dot(a[i], Col(b, cols, j))))
  }

  ghost predicate Symmetric(a: Mat) { IsMat(a, |a|, |a|) && SymmetricEntries(a) }

  ghost predicate SymmetricEntries(a: Mat)
    requires IsMat(a, |a|, |a|)
  {
    forall i, j :: 0 <= i < |a| && 0 <= j < |a| ==> a[i][j] == a[j][i]
  }

  /** The sum of the first `k` rows of `a`, weighted by `y`: a'y accumulated row by row. */
  function CombTo(a: Mat, y: Vec, cols: nat, k: nat): (r: Vec)
    requires IsMat(a, |a|, cols) && k <= |a| == |y|
    ensures |r| == cols
  {
    if k == 0 then Zeros(cols) else Add(CombTo(a, y, cols, k - 1), Scale(y[k - 1], a[k - 1]))
  }

  function Comb(a: Mat, y: Vec, cols: nat): (r: Vec)
    requires IsMat(a, |a|, cols) && |a| == |y|
    ensures |r| == cols
  {
    CombTo(a, y, cols, |a|)
  }

  lemma {:induction false} CombToEntry(a: Mat, y: Vec, cols: nat, k: nat, j: nat)
    requires IsMat(a, |a|, cols) && k <= |a| == |y| && j < cols
    ensures CombTo(a, y, cols, k)[j] == DotTo(Col(a, cols, j), y, k)
  {
    if k > 0 { CombToEntry(a, y, cols, k - 1, j); }
  }

  lemma CombEntry(a: Mat, y: Vec, cols: nat, j: nat)
    requires IsMat(a, |a|, cols) && |a| == |y| && j < cols
    ensures Comb(a, y, cols)[j] == Dot(Col(a, cols, j), y) == Dot(y, Col(a, cols, j))
  {
    CombToEntry(a, y, cols, |a|, j);
    DotComm(Col(a, cols, j), y);
  }

  lemma {:induction false} AdjointTo(a: Mat, x: Vec, y: Vec, k: nat)
    requires IsMat(a, |a|, |x|) && k <= |a| == |y|
    ensures DotTo(y, MatVec(a, x), k) == Dot(CombTo(a, y, |x|, k), x)
  {
    if k == 0 {
      DotToZeros(x, Zeros(|x|), |x|);
      DotComm(x, Zeros(|x|));
    } else {
      AdjointTo(a, x, y, k - 1);
      var p, q := CombTo(a, y, |x|, k - 1), Scale(y[k - 1], a[k - 1]);
      DotComm(x, p);
      DotComm(x, q);
      DotComm(x, Add(p, q));
      DotAdd(x, p, q);
      DotScale(x, y[k - 1], a[k - 1]);
      DotComm(x, a[k - 1]);
    }
  }

  /** y'(Ax) == (A'y)'x. */
  lemma Adjoint(a: Mat, x: Vec, y: Vec)
    requires IsMat(a, |a|, |x|) && |a| == |y|
    ensures Dot(y, MatVec(a, x)) == Dot(Comb(a, y, |x|), x)
  {
    AdjointTo(a, x, y, |a|);
  }

  lemma SymmetricComb(a: Mat, y: Vec)
    requires Symmetric(a) && |a| == |y|
    ensures Comb(a, y, |a|) == MatVec(a, y)
  {
    forall j | 0 <= j < |a| ensures Comb(a, y, |a|)[j] == MatVec(a, y)[j] {
      CombEntry(a, y, |a|, j);
      assert Col(a, |a|, j) == a[j];
    }
  }

  lemma MatVecLinear(a: Mat, c: real, x: Vec, d: real, y: Vec)
    requires IsMat(a, |a|, |x|) && |x| == |y|
    ensures MatVec(a, Add(Scale(c, x), Scale(d, y))) == Add(Scale(c, MatVec(a, x)), Scale(d, MatVec(a, y)))
  {
    forall i | 0 <= i < |a|
      ensures MatVec(a, Add(Scale(c, x), Scale(d, y)))[i] == Add(Scale(c, MatVec(a, x)), Scale(d, MatVec(a, y)))[i]
    {
      DotLinear(a[i], c, x, d, y);
    }
  }

  lemma MatVecScale(a: Mat, c: real, x: Vec)
    requires IsMat(a, |a|, |x|)
    ensures MatVec(a, Scale(c, x)) == Scale(c, MatVec(a, x))
  {
    forall i | 0 <= i < |a| ensures MatVec(a, Scale(c, x))[i] == Scale(c, MatVec(a, x))[i] {
      DotScale(a[i], c, x);
    }
  }

  lemma MatVecUnit(a: Mat, n: nat, j: nat)
    requires IsMat(a, |a|, n) && j < n
    ensures MatVec(a, Unit(n, j)) == Col(a, n, j)
  {
    forall i | 0 <= i < |a| ensures MatVec(a, Unit(n, j))[i] == a[i][j] {
      DotUnit(a[i], j);
    }
  }

  // ---------- quadratic forms ----------

  function Bilinear(a: Mat, x: Vec, y: Vec): real
    requires IsMat(a, |x|, |y|)
  {
    Dot(x, MatVec(a, y))
  }

  function Quad(a: Mat, x: Vec): real
    requires IsMat(a, |x|, |x|)
  {
    Bilinear(a, x, x)
  }

  /** x'Ax >= floor * |x|^2 for every x: positive definite when `floor > 0`. */
  ghost predicate BoundedBelow(a: Mat, floor: real)
    requires IsMat(a, |a|, |a|)
  {
    forall x: Vec :: |x| == |a| ==> Quad(a, x) >= floor * Dot(x, x)
  }

  ghost predicate PositiveDefinite(a: Mat) { Symmetric(a) && PositiveEverywhere(a) }

  ghost predicate PositiveEverywhere(a: Mat)
    requires IsMat(a, |a|, |a|)
  {
    forall x: Vec :: |x| == |a| && x != Zeros(|a|) ==> Quad(a, x) > 0.0
  }

  lemma PositiveAt(a: Mat, x: Vec)
    requires PositiveDefinite(a) && |x| == |a| && x != Zeros(|a|)
    ensures Quad(a, x) > 0.0
  {
  }

  lemma BoundedBelowIsPositiveDefinite(a: Mat, floor: real)
    requires Symmetric(a) && floor > 0.0 && BoundedBelow(a, floor)
    ensures PositiveDefinite(a)
  {
    hide DotTo, SymmetricEntries, MatVec;
    forall x: Vec | |x| == |a| && x != Zeros(|a|) ensures Quad(a, x) > 0.0 {
      SquaredNorm(x);
      assert floor * Dot(x, x) > 0.0;
    }
  }

  lemma QuadNonNegative(a: Mat, x: Vec)
    requires PositiveDefinite(a) && |x| == |a|
    ensures Quad(a, x) >= 0.0
  {
    if x == Zeros(|a|) {
      DotToZeros(MatVec(a, x), x, |a|);
      DotComm(MatVec(a, x), x);
    } else {
      PositiveAt(a, x);
    }
  }

  lemma BilinearSymmetric(a: Mat, x: Vec, y: Vec)
    requires Symmetric(a) && |a| == |x| == |y|
    ensures Bilinear(a, x, y) == Bilinear(a, y, x)
  {
    Adjoint(a, y, x);
    SymmetricComb(a, x);
    DotComm(MatVec(a, x), y);
  }

  lemma BilinearLinear(a: Mat, z: Vec, c: real, x: Vec, d: real, y: Vec)
    requires IsMat(a, |z|, |x|) && |x| == |y|
    ensures Bilinear(a, z, Add(Scale(c, x), Scale(d, y))) == c * Bilinear(a, z, x) + d * Bilinear(a, z, y)
  {
    MatVecLinear(a, c, x, d, y);
    DotLinear(z, c, MatVec(a, x), d, MatVec(a, y));
  }

  lemma BilinearLinearLeft(a: Mat, c: real, x: Vec, d: real, y: Vec, z: Vec)
    requires IsMat(a, |x|, |z|) && |x| == |y|
    ensures Bilinear(a, Add(Scale(c, x), Scale(d, y)), z) == c * Bilinear(a, x, z) + d * Bilinear(a, y, z)
  {
    DotLinearLeft(c, x, d, y, MatVec(a, z));
  }

  lemma ExpandForm(c: real, d: real, qx: real, b: real, qy: real, xz: real, yz: real, q: real)
    requires q == c * xz + d * yz && xz == c * qx + d * b && yz == c * b + d * qy
    ensures q == c * c * qx + 2.0 * c * d * b + d * d * qy
  {
  }

  lemma QuadCombination(a: Mat, c: real, x: Vec, d: real, y: Vec)
    requires Symmetric(a) && |a| == |x| == |y|
    ensures Quad(a, Add(Scale(c, x), Scale(d, y)))
         == c * c * Quad(a, x) + 2.0 * c * d * Bilinear(a, x, y) + d * d * Quad(a, y)
  {
    hide Bilinear, Add, Scale;
    var z := Add(Scale(c, x), Scale(d, y));
    BilinearLinearLeft(a, c, x, d, y, z);
    BilinearLinear(a, x, c, x, d, y);
    BilinearLinear(a, y, c, x, d, y);
    BilinearSymmetric(a, x, y);
    ExpandForm(c, d, Quad(a, x), Bilinear(a, x, y), Quad(a, y), Bilinear(a, x, z), Bilinear(a, y, z), Quad(a, z));
  }

  /** The expansion of |cx - dy|^2 in an inner product. */
  function DifferenceForm(c: real, d: real, qx: real, b: real, qy: real): real {
    c * c * qx - 2.0 * c * d * b + d * d * qy
  }

  lemma NegateForm(c: real, d: real, nd: real, qx: real, b: real, qy: real, q: real)
    requires nd == -d && q == c * c * qx + 2.0 * c * nd * b + nd * nd * qy
    ensures q == DifferenceForm(c, d, qx, b, qy)
  {
  }

  lemma QuadDifference(a: Mat, c: real, x: Vec, d: real, y: Vec)
    requires Symmetric(a) && |a| == |x| == |y|
    ensures Quad(a, Sub(Scale(c, x), Scale(d, y)))
         == DifferenceForm(c, d, Quad(a, x), Bilinear(a, x, y), Quad(a, y))
  {
    var nd := -d;
    var left, right := Scale(-1.0, Scale(d, y)), Scale(nd, y);
    assert left == right by {
      forall i | 0 <= i < |y| ensures left[i] == right[i] { assert -1.0 * (d * y[i]) == nd * y[i]; }
    }
    QuadCombination(a, c, x, nd, y);
    NegateForm(c, d, nd, Quad(a, x), Bilinear(a, x, y), Quad(a, y), Quad(a, Sub(Scale(c, x), Scale(d, y))));
  }

  lemma DiscriminantSign(qx: real, qy: real, b: real, q: real)
    requires qy > 0.0 && q >= 0.0
    requires q == DifferenceForm(qy, b, qx, b, qy)
    ensures b * b <= qx * qy
    ensures b * b == qx * qy ==> q == 0.0
  {
  }

  lemma BilinearZero(a: Mat, x: Vec)
    requires IsMat(a, |a|, |a|) && |x| == |a|
    ensures Bilinear(a, x, Zeros(|a|)) == 0.0
  {
    var o := Zeros(|a|);
    forall i | 0 <= i < |a| ensures MatVec(a, o)[i] == 0.0 { DotToZeros(a[i], o, |a|); }
    DotToZeros(x, MatVec(a, o), |a|);
  }

  /** The part of `x` that is orthogonal to `y`, times y'Ay. */
  ghost function Residual(a: Mat, x: Vec, y: Vec): Vec
    requires IsMat(a, |a|, |a|) && |x| == |y| == |a|
  {
    Sub(Scale(Quad(a, y), x), Scale(Bilinear(a, x, y), y))
  }

  lemma ResidualQuad(a: Mat, x: Vec, y: Vec)
    requires PositiveDefinite(a) && |x| == |y| == |a| && y != Zeros(|a|)
    ensures Bilinear(a, x, y) * Bilinear(a, x, y) <= Quad(a, x) * Quad(a, y)
    ensures Bilinear(a, x, y) * Bilinear(a, x, y) == Quad(a, x) * Quad(a, y) ==> Quad(a, Residual(a, x, y)) == 0.0
  {
    hide SymmetricEntries, PositiveEverywhere, DotTo, DifferenceForm, Scale, Add, Sub, MatVec;
    PositiveAt(a, y);
    QuadDifference(a, Quad(a, y), x, Bilinear(a, x, y), y);
    QuadNonNegative(a, Residual(a, x, y));
    DiscriminantSign(Quad(a, x), Quad(a, y), Bilinear(a, x, y), Quad(a, Residual(a, x, y)));
  }

  lemma ResidualZero(a: Mat, x: Vec, y: Vec)
    requires PositiveDefinite(a) && |x| == |y| == |a| && Quad(a, Residual(a, x, y)) == 0.0
    ensures Scale(Quad(a, y), x) == Scale(Bilinear(a, x, y), y)
  {
    var l, r, z := Scale(Quad(a, y), x), Scale(Bilinear(a, x, y), y), Residual(a, x, y);
    assert z == Zeros(|a|);
    forall i | 0 <= i < |a| ensures l[i] == r[i] {
      assert z[i] == l[i] + -1.0 * r[i];
    }
  }

  /** The geometric mean is at most the arithmetic one. */
  lemma TwiceBelowSum(q: real, r: real, m: real)
    requires q >= 0.0 && r >= 0.0 && m * m <= q * r
    ensures 2.0 * m <= q + r
  {
    var u, v := q + r, 2.0 * m;
    var d := q - r;
    SquareSign(d, d * d);
    assert u * u == d * d + 4.0 * (q * r) && v * v == 4.0 * (m * m);
    if v > u { SquareOrderOf(u, v, u * u, v * v); }
  }

  lemma CrossTerm(p: real, x: real, y: real, a: real, b: real, aa: real, bb: real)
    requires x >= 0.0 && y >= 0.0 && p * p <= x * y && aa == a * a && bb == b * b
    ensures 2.0 * (p * (a * b)) <= x * bb + y * aa
  {
    SquareSign(a, aa);
    SquareSign(b, bb);
    ProductPositive(x, bb, x * bb);
    ProductPositive(y, aa, y * aa);
    ProductPositive(aa, bb, aa * bb);
    MulMonotone(p * p, x * y, aa * bb);
    var m := p * (a * b);
    Regroup(p, a, b, aa, bb);
    assert (x * bb) * (y * aa) == (aa * bb) * (x * y);
    TwiceBelowSum(x * bb, y * aa, m);
  }

  lemma Regroup(p: real, a: real, b: real, aa: real, bb: real)
    requires aa == a * a && bb == b * b
    ensures (p * (a * b)) * (p * (a * b)) == (aa * bb) * (p * p)
  {
    var c := a * b;
    assert c * c == aa * bb;
    assert (p * c) * (p * c) == (c * c) * (p * p);
  }

  lemma CauchyStep(p: real, x: real, y: real, a: real, b: real, q: real, u: real, v: real)
    requires x >= 0.0 && y >= 0.0 && p * p <= x * y
    requires q == p + a * b && u == x + a * a && v == y + b * b
    ensures q * q <= u * v
  {
    CrossTerm(p, x, y, a, b, a * a, b * b);
    ExpandSquare(p, a, b, q);
    ExpandProduct(x, y, a, b, u, v);
  }

  lemma ExpandSquare(p: real, a: real, b: real, q: real)
    requires q == p + a * b
    ensures q * q == p * p + 2.0 * (p * (a * b)) + (a * a) * (b * b)
  {
  }

  lemma ExpandProduct(x: real, y: real, a: real, b: real, u: real, v: real)
    requires u == x + a * a && v == y + b * b
    ensures u * v == x * y + (x * (b * b) + y * (a * a)) + (a * a) * (b * b)
  {
  }

  lemma DotStep(x: Vec, y: Vec, k: nat)
    requires k <= |x| == |y|
    ensures DotTo(x, y, k) == if k == 0 then 0.0 else DotTo(x, y, k - 1) + x[k - 1] * y[k - 1]
  {
  }

  lemma {:induction false} CauchySchwarzTo(x: Vec, y: Vec, k: nat)
    requires k <= |x| == |y|
    ensures DotTo(x, x, k) >= 0.0 && DotTo(y, y, k) >= 0.0
    ensures DotTo(x, y, k) * DotTo(x, y, k) <= DotTo(x, x, k) * DotTo(y, y, k)
  {
    hide DotTo;
    DotToSelf(x, k, 0);
    DotToSelf(y, k, 0);
    DotStep(x, y, k);
    DotStep(x, x, k);
    DotStep(y, y, k);
    if k > 0 {
      CauchySchwarzTo(x, y, k - 1);
      CauchyStep(DotTo(x, y, k - 1), DotTo(x, x, k - 1), DotTo(y, y, k - 1), x[k - 1], y[k - 1],
                 DotTo(x, y, k), DotTo(x, x, k), DotTo(y, y, k));
    }
  }

  /** Cauchy-Schwarz for the plain inner product. */
  lemma VecCauchySchwarz(x: Vec, y: Vec)
    requires |x| == |y|
    ensures Dot(x, y) * Dot(x, y) <= Dot(x, x) * Dot(y, y)
  {
    CauchySchwarzTo(x, y, |x|);
  }

  /** Cauchy-Schwarz in the inner product of a positive definite matrix. */
  lemma CauchySchwarz(a: Mat, x: Vec, y: Vec)
    requires PositiveDefinite(a) && |x| == |y| == |a|
    ensures Bilinear(a, x, y) * Bilinear(a, x, y) <= Quad(a, x) * Quad(a, y)
  {
    if y == Zeros(|a|) {
      BilinearZero(a, x);
      BilinearZero(a, y);
    } else {
      ResidualQuad(a, x, y);
    }
  }

  /** Equality in Cauchy-Schwarz only on the ray of `y`. */
  lemma CauchySchwarzEquality(a: Mat, x: Vec, y: Vec)
    requires PositiveDefinite(a) && |x| == |y| == |a| && y != Zeros(|a|)
    requires Bilinear(a, x, y) * Bilinear(a, x, y) == Quad(a, x) * Quad(a, y)
    ensures Scale(Quad(a, y), x) == Scale(Bilinear(a, x, y), y)
  {
    ResidualQuad(a, x, y);
    ResidualZero(a, x, y);
  }
}
