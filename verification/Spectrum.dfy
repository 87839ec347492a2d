/** How close a rotated matrix brings its basis to eigenvectors: the residual of every column, and the variance a
    direction can have beyond the columns already taken, are bounded by the squares left off the diagonal, whichever
    sweep the iteration stops at. */
module Spectrum {
  import opened Reals
  import opened LinearAlgebra
  import opened Jacobi

  // ---------- coordinates in the rotated basis ----------

  /** The coordinates of x along the columns of v. */
  function Coordinates(v: Mat, x: Vec): (u: Vec)
    requires IsMat(v, |v|, |v|) && |x| == |v|
    ensures |u| == |v|
  {
    Comb(v, x, |v|)
  }

  lemma CoordinateAt(v: Mat, x: Vec, j: nat)
    requires IsMat(v, |v|, |v|) && |x| == |v| && j < |v|
    ensures Coordinates(v, x)[j] == Dot(Col(v, |v|, j), x)
  {
    CombEntry(v, x, |v|, j);
  }

  /** An orthonormal basis gives every vector back from its coordinates. */
  lemma Recompose(v: Mat, x: Vec)
    requires IsMat(v, |v|, |v|) && OrthonormalRows(v, |v|) && |x| == |v|
    ensures MatVec(v, Coordinates(v, x)) == x
  {
    hide DotTo, Comb;
    var n, u := |v|, Coordinates(v, x);
    forall i | 0 <= i < n ensures MatVec(v, u)[i] == x[i] {
      DotComm(v[i], u);
      Adjoint(v, v[i], x);
      assert MatVec(v, v[i]) == Unit(n, i);
      DotUnit(x, i);
    }
  }

  /** Coordinates keep inner products. */
  lemma Parseval(v: Mat, x: Vec, y: Vec)
    requires IsMat(v, |v|, |v|) && OrthonormalRows(v, |v|) && |x| == |y| == |v|
    ensures Dot(x, y) == Dot(Coordinates(v, x), Coordinates(v, y))
  {
    hide DotTo, MatVec, OrthonormalRows;
    Recompose(v, y);
    Adjoint(v, Coordinates(v, y), x);
  }

  /** In the basis, m acts as the rotated matrix. */
  lemma ActsAsRotated(m: Mat, a: Mat, v: Mat, x: Vec)
    requires Symmetric(m) && Decomposes(m, a, v) && |x| == |m|
    ensures Coordinates(v, MatVec(m, x)) == MatVec(a, Coordinates(v, x))
  {
    hide DotTo, Comb, Col, SymmetricEntries, OrthonormalRows, Orthonormal, Coordinates, Off, Trace;
    var n, u := |m|, Coordinates(v, x);
    DecomposesShape(m, a, v);
    forall i | 0 <= i < n ensures Coordinates(v, MatVec(m, x))[i] == Dot(a[i], u) {
      var z := Col(v, n, i);
      CoordinateAt(v, MatVec(m, x), i);
      BilinearSymmetric(m, z, x);
      Parseval(v, x, MatVec(m, z));
      RotatedRow(m, a, v, i);
      DotComm(a[i], u);
    }
  }

  /** Row i of the rotated matrix holds the coordinates of m applied to column i. */
  lemma RotatedRow(m: Mat, a: Mat, v: Mat, i: nat)
    requires Symmetric(m) && Decomposes(m, a, v) && i < |m|
    ensures Coordinates(v, MatVec(m, Col(v, |m|, i))) == a[i]
  {
    hide DotTo, Comb, Col, SymmetricEntries, OrthonormalRows, Orthonormal, Coordinates, Off, Trace, MatVec;
    var n := |m|;
    DecomposesShape(m, a, v);
    var z := MatVec(m, Col(v, n, i));
    forall j | 0 <= j < n ensures Coordinates(v, z)[j] == a[i][j] {
      CoordinateAt(v, z, j);
      BilinearSymmetric(m, Col(v, n, j), Col(v, n, i));
    }
  }

  lemma QuadInBasis(m: Mat, a: Mat, v: Mat, x: Vec)
    requires Symmetric(m) && Decomposes(m, a, v) && |x| == |m|
    ensures Quad(m, x) == Quad(a, Coordinates(v, x))
  {
    hide DotTo, Symmetric, Orthonormal, OrthonormalRows, Pairs, MatVec, Coordinates, Off, Trace;
    DecompositionFacts(m, a, v);
    ActsAsRotated(m, a, v, x);
    Parseval(v, x, MatVec(m, x));
  }

  // ---------- rows without their diagonal entry ----------

  function OffRow(a: Mat, k: nat): (d: Vec)
    requires IsMat(a, |a|, |a|) && k < |a|
    ensures |d| == |a|
  {
    a[k][k := 0.0]
  }

  lemma {:induction false} OffRowSquares(a: Mat, k: nat, j: nat)
    requires IsMat(a, |a|, |a|) && k < |a| && j <= |a|
    ensures DotTo(OffRow(a, k), OffRow(a, k), j) == DotTo(a[k], a[k], j) - if k < j then a[k][k] * a[k][k] else 0.0
  {
    if j > 0 { OffRowSquares(a, k, j - 1); }
  }

  lemma {:induction false} ColumnInside(a: Mat, k: nat, m: nat)
    requires IsMat(a, |a|, |a|) && m <= k < |a|
    ensures ColSquares(a, k, m) <= OffTo(a, m, |a|)
  {
    if m > 0 {
      ColumnInside(a, k, m - 1);
      UpperHas(a, m - 1, k, |a|);
    }
  }

  lemma {:induction false} UpperHas(a: Mat, i: nat, j: nat, k: nat)
    requires IsMat(a, |a|, |a|) && i < j < |a| && k <= |a|
    ensures Upper(a, i, k) >= 0.0 && (j < k ==> a[i][j] * a[i][j] <= Upper(a, i, k))
  {
    if k > i + 1 {
      UpperHas(a, i, j, k - 1);
      SquareSign(a[i][k - 1], a[i][k - 1] * a[i][k - 1]);
    }
  }

  lemma {:induction false} UpperNonNegative(a: Mat, i: nat, k: nat)
    requires IsMat(a, |a|, |a|) && i < |a| && k <= |a|
    ensures Upper(a, i, k) >= 0.0
  {
    if k > i + 1 {
      UpperNonNegative(a, i, k - 1);
      SquareSign(a[i][k - 1], a[i][k - 1] * a[i][k - 1]);
    }
  }

  lemma {:induction false} OffToMonotone(a: Mat, j: nat, m: nat)
    requires IsMat(a, |a|, |a|) && j <= m <= |a|
    ensures OffTo(a, j, |a|) <= OffTo(a, m, |a|)
  {
    if j < m {
      OffToMonotone(a, j, m - 1);
      UpperNonNegative(a, m - 1, |a|);
    }
  }

  lemma {:induction false} RowTail(a: Mat, k: nat, j: nat)
    requires IsMat(a, |a|, |a|) && k < j <= |a|
    ensures DotTo(a[k], a[k], j) == DotTo(a[k], a[k], k) + a[k][k] * a[k][k] + Upper(a, k, j)
  {
    if j > k + 1 { RowTail(a, k, j - 1); }
  }

  /** One row's off-diagonal squares are within the whole off-diagonal mass. */
  lemma RowBelowOff(a: Mat, k: nat)
    requires Symmetric(a) && k < |a|
    ensures Dot(OffRow(a, k), OffRow(a, k)) <= Off(a)
  {
    hide SymmetricEntries, OffRow;
    var n := |a|;
    OffRowSquares(a, k, n);
    RowTail(a, k, n);
    RowIsColumn(a, k, k);
    ColumnInside(a, k, k);
    OffToMonotone(a, k + 1, n);
  }

  /** An off-diagonal entry is bounded by the whole off-diagonal mass. */
  lemma EntryBelowOff(a: Mat, i: nat, j: nat)
    requires Symmetric(a) && i < |a| && j < |a| && i != j
    ensures a[i][j] * a[i][j] <= Off(a)
  {
    var low, high := if i < j then i else j, if i < j then j else i;
    assert a[low][high] == a[i][j];
    UpperHas(a, low, high, |a|);
    OffToMonotone(a, 0, low);
    OffToMonotone(a, low + 1, |a|);
  }

  // ---------- eigenvectors up to the residual ----------

  /** m x - lambda x. */
  function EigenResidual(m: Mat, x: Vec, lambda: real): (r: Vec)
    requires IsMat(m, |m|, |m|) && |x| == |m|
    ensures |r| == |m|
  {
    Sub(MatVec(m, x), Scale(lambda, x))
  }

  /** Column k misses being an eigenvector, in squares, by no more than the off-diagonal mass. */
  lemma ColumnIsNearEigenvector(m: Mat, a: Mat, v: Mat, k: nat)
    requires Symmetric(m) && Decomposes(m, a, v) && k < |m|
    ensures var r := EigenResidual(m, Col(v, |m|, k), a[k][k]); Dot(r, r) <= Off(a)
  {
    hide DotTo, Symmetric, Pairs, Trace, OffRow, MatVec, Sub, Scale, Off, OrthonormalRows, Coordinates;
    DecomposesShape(m, a, v);
    var n, x := |m|, Col(v, |m|, k);
    var r := EigenResidual(m, x, a[k][k]);
    Parseval(v, r, r);
    RotatedRow(m, a, v, k);
    forall j | 0 <= j < n ensures Coordinates(v, r)[j] == OffRow(a, k)[j] {
      CoordinateAt(v, r, j);
      CoordinateAt(v, MatVec(m, x), j);
      DotSub(Col(v, n, j), MatVec(m, x), Scale(a[k][k], x));
      DotScale(Col(v, n, j), a[k][k], x);
      OffRowAt(a, k, j);
    }
    assert Coordinates(v, r) == OffRow(a, k);
    RowBelowOff(a, k);
  }

  lemma OffRowAt(a: Mat, k: nat, j: nat)
    requires IsMat(a, |a|, |a|) && k < |a| && j < |a|
    ensures OffRow(a, k)[j] == a[k][j] - a[k][k] * Delta(j, k)
  {
  }

  // ---------- the largest variance outside the columns already taken ----------

  /** The off-diagonal part of a u. */
  function Cross(a: Mat, u: Vec): (e: Vec)
    requires IsMat(a, |a|, |a|) && |u| == |a|
    ensures |e| == |a|
  {
    seq(|a|, i requires 0 <= i < |a| => Dot(OffRow(a, i), u))
  }

  lemma {:induction false} OffRowDot(a: Mat, u: Vec, i: nat, k: nat)
    requires IsMat(a, |a|, |a|) && |u| == |a| && i < |a| && k <= |a|
    ensures DotTo(a[i], u, k) == DotTo(OffRow(a, i), u, k) + if i < k then a[i][i] * u[i] else 0.0
  {
    if k > 0 { OffRowDot(a, u, i, k - 1); }
  }

  lemma {:induction false} CrossBounded(a: Mat, u: Vec, k: nat)
    requires IsMat(a, |a|, |a|) && |u| == |a| && k <= |a|
    ensures DotTo(Cross(a, u), Cross(a, u), k)
         <= (SumTo(RowSquares(a, |a|), k) - SumTo(DiagonalSquares(a), k)) * Dot(u, u)
  {
    if k > 0 {
      CrossBounded(a, u, k - 1);
      var row := OffRow(a, k - 1);
      VecCauchySchwarz(row, u);
      OffRowSquares(a, k - 1, |a|);
      AddBound(SumTo(RowSquares(a, |a|), k - 1) - SumTo(DiagonalSquares(a), k - 1), Dot(row, row), Dot(u, u));
    }
  }

  lemma AddBound(s: real, r: real, t: real)
    ensures s * t + r * t == (s + r) * t
  {
  }

  /** Weighted by the diagonal, u stays below lambda |u|^2 if every entry in use does. */
  lemma {:induction false} DiagonalBounded(a: Mat, u: Vec, lambda: real, k: nat)
    requires IsMat(a, |a|, |a|) && |u| == |a| && k <= |a|
    requires forall i :: 0 <= i < |a| ==> u[i] == 0.0 || a[i][i] <= lambda
    ensures DotTo(u, MatVec(a, u), k) <= lambda * DotTo(u, u, k) + DotTo(u, Cross(a, u), k)
  {
    hide MatVec, Cross, OffRow;
    if k > 0 {
      DiagonalBounded(a, u, lambda, k - 1);
      CrossAt(a, u, k - 1);
      EntryBounded(u[k - 1], a[k - 1][k - 1], lambda, Cross(a, u)[k - 1], MatVec(a, u)[k - 1],
                   DotTo(u, MatVec(a, u), k - 1), DotTo(u, u, k - 1), DotTo(u, Cross(a, u), k - 1));
    }
  }

  lemma CrossAt(a: Mat, u: Vec, i: nat)
    requires IsMat(a, |a|, |a|) && |u| == |a| && i < |a|
    ensures MatVec(a, u)[i] == Cross(a, u)[i] + a[i][i] * u[i]
  {
    hide OffRow;
    OffRowDot(a, u, i, |a|);
  }

  lemma EntryBounded(x: real, d: real, lambda: real, e: real, y: real, p: real, q: real, c: real)
    requires (x == 0.0 || d <= lambda) && y == e + d * x && p <= lambda * q + c
    ensures p + x * y <= lambda * (q + x * x) + (c + x * e)
  {
    SquareSign(x, x * x);
    if x != 0.0 { MulMonotone(d, lambda, x * x); }
    assert x * y == x * e + d * (x * x);
    assert lambda * (q + x * x) == lambda * q + lambda * (x * x);
  }

  /** A unit vector whose coordinates all lie where the diagonal is at most lambda has variance at most lambda, up to
      the residual. */
  lemma VarianceBounded(m: Mat, a: Mat, v: Mat, lambda: real, x: Vec)
    requires Symmetric(m) && Decomposes(m, a, v) && |x| == |m| && Dot(x, x) == 1.0
    requires forall i :: 0 <= i < |m| ==> Dot(Col(v, |m|, i), x) == 0.0 || a[i][i] <= lambda
    ensures var excess := Quad(m, x) - lambda; excess > 0.0 ==> excess * excess <= 2.0 * Off(a)
  {
    hide DotTo, SumTo, Pairs, Trace, MatVec, OrthonormalRows, Orthonormal, Coordinates, OffRow, Col, SymmetricEntries,
         Cross, Comb;
    DecomposesShape(m, a, v);
    var n, u := |m|, Coordinates(v, x);
    QuadInBasis(m, a, v, x);
    Parseval(v, x, x);
    forall i | 0 <= i < n ensures u[i] == 0.0 || a[i][i] <= lambda { CoordinateAt(v, x, i); }
    DiagonalBounded(a, u, lambda, n);
    CrossBounded(a, u, n);
    BlockSplits(a, n);
    var e := Cross(a, u);
    VecCauchySchwarz(u, e);
    ExcessSquared(Quad(m, x) - lambda, Dot(u, e), Dot(e, e), 2.0 * Off(a));
  }

  lemma ExcessSquared(excess: real, d: real, ee: real, bound: real)
    requires excess <= d && d * d <= ee <= bound
    ensures excess > 0.0 ==> excess * excess <= bound
  {
    if excess > 0.0 { SquareOrderOf(d, excess, d * d, excess * excess); }
  }
}
