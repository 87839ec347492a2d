/** Cyclic Jacobi eigendecomposition: in-place plane rotations of a symmetric matrix. */
module Jacobi {
  import opened Reals
  import opened LinearAlgebra

  const MAX_SWEEPS: nat := 100
  const OFF_EPS: real := 1e-30
  const SKIP_EPS: real := 1e-300

  // ---------- rotations as values ----------

  function RotP(c: real, s: real, x: real, z: real): real { c * x - s * z }

  function RotQ(c: real, s: real, x: real, z: real): real { s * x + c * z }

  /** Entries p and q of a vector, rotated. */
  function RotVec(x: Vec, p: nat, q: nat, c: real, s: real): (r: Vec)
    requires p < q < |x|
    ensures |r| == |x|
  {
    x[p := RotP(c, s, x[p], x[q])][q := RotQ(c, s, x[p], x[q])]
  }

  function RotCols(a: Mat, n: nat, p: nat, q: nat, c: real, s: real): (r: Mat)
    requires IsMat(a, |a|, n) && p < q < n
    ensures IsMat(r, |a|, n)
  {
    seq(|a|, k requires 0 <= k < |a| => RotVec(a[k], p, q, c, s))
  }

  function RotRowP(c: real, s: real, x: Vec, y: Vec): (r: Vec)
    requires |x| == |y|
    ensures |r| == |x|
  {
    seq(|x|, k requires 0 <= k < |x| => RotP(c, s, x[k], y[k]))
  }

  function RotRowQ(c: real, s: real, x: Vec, y: Vec): (r: Vec)
    requires |x| == |y|
    ensures |r| == |x|
  {
    seq(|x|, k requires 0 <= k < |x| => RotQ(c, s, x[k], y[k]))
  }

  /** The rotated rows as linear combinations. */
  lemma RotRowsLinear(c: real, s: real, x: Vec, y: Vec)
    requires |x| == |y|
    ensures RotRowP(c, s, x, y) == Add(Scale(c, x), Scale(-s, y))
    ensures RotRowQ(c, s, x, y) == Add(Scale(s, x), Scale(c, y))
  {
  }

  function RotRows(a: Mat, n: nat, p: nat, q: nat, c: real, s: real): (r: Mat)
    requires IsMat(a, |a|, n) && p < q < |a|
    ensures IsMat(r, |a|, n)
  {
    a[p := RotRowP(c, s, a[p], a[q])][q := RotRowQ(c, s, a[p], a[q])]
  }

  // ---------- the rotation angle ----------

  ghost predicate UnitCircle(c: real, s: real) { c * c + s * s == 1.0 }

  function Hypotenuse(sqrt: real -> real, theta: real): real { sqrt(theta * theta + 1.0) }

  function Tangent(sqrt: real -> real, theta: real): real
    requires Abs(theta) + Hypotenuse(sqrt, theta) != 0.0
  {
    (if theta >= 0.0 then 1.0 else -1.0) / (Abs(theta) + Hypotenuse(sqrt, theta))
  }

  /** t solves t^2 + 2 theta t - 1 == 0. */
  lemma TangentSolves(sqrt: real -> real, theta: real)
    requires IsSqrt(sqrt)
    ensures Abs(theta) + Hypotenuse(sqrt, theta) > 0.0
    ensures var t := Tangent(sqrt, theta); t * t + 2.0 * theta * t == 1.0
  {
  }

  lemma HypotenuseSquared(sqrt: real -> real, theta: real)
    requires IsSqrt(sqrt)
    ensures Hypotenuse(sqrt, theta) > 0.0 && Hypotenuse(sqrt, theta) * Hypotenuse(sqrt, theta) == theta * theta + 1.0
  {
  }

  /** The smaller root is taken: the rotation turns by at most 45 degrees. */
  lemma TangentAtMostOne(sqrt: real -> real, theta: real)
    requires IsSqrt(sqrt)
    ensures Abs(theta) + Hypotenuse(sqrt, theta) > 0.0 && Abs(Tangent(sqrt, theta)) <= 1.0
  {
    hide IsSqrt;
    HypotenuseSquared(sqrt, theta);
    SquareSign(theta, theta * theta);
    var r := Hypotenuse(sqrt, theta);
    SquareOrderOf(1.0, r, 1.0, r * r);
    var d := Abs(theta) + r;
    ReciprocalAtMostOne(if theta >= 0.0 then 1.0 else -1.0, d, Tangent(sqrt, theta));
  }

  lemma ReciprocalAtMostOne(g: real, d: real, t: real)
    requires (g == 1.0 || g == -1.0) && d >= 1.0 && t * d == g
    ensures Abs(t) <= 1.0
  {
    FactorSign(d, t - 1.0, d * (t - 1.0));
    FactorSign(d, t + 1.0, d * (t + 1.0));
    assert d * (t - 1.0) == g - d && d * (t + 1.0) == g + d;
  }

  /** The rotation annihilates the chosen off-diagonal entry. */
  lemma RotationZeroes(app: real, aqq: real, apq: real, theta: real, t: real, c: real, s: real)
    requires apq != 0.0 && theta * (2.0 * apq) == aqq - app && t * t + 2.0 * theta * t == 1.0 && s == t * c
    ensures c * s * (app - aqq) + (c * c - s * s) * apq == 0.0
  {
  }

  lemma CircleFromTangent(t: real, r: real, c: real, s: real)
    requires r > 0.0 && r * r == t * t + 1.0 && c == 1.0 / r && s == t * c
    ensures UnitCircle(c, s)
  {
  }

  // ---------- what a rotation keeps ----------

  function Products(x: Vec, y: Vec): (r: Vec)
    requires |x| == |y|
    ensures |r| == |x|
  {
    seq(|x|, i requires 0 <= i < |x| => x[i] * y[i])
  }

  lemma {:induction false} DotIsSumTo(x: Vec, y: Vec, k: nat)
    requires |x| == |y| && k <= |x|
    ensures DotTo(x, y, k) == SumTo(Products(x, y), k)
  {
    if k > 0 { DotIsSumTo(x, y, k - 1); }
  }

  lemma RotatedProducts(c: real, s: real, x: real, z: real, y: real, w: real)
    requires UnitCircle(c, s)
    ensures RotP(c, s, x, z) * RotP(c, s, y, w) + RotQ(c, s, x, z) * RotQ(c, s, y, w) == x * y + z * w
  {
  }

  /** A rotation keeps inner products. */
  lemma RotVecDot(x: Vec, y: Vec, p: nat, q: nat, c: real, s: real)
    requires |x| == |y| && p < q < |x| && UnitCircle(c, s)
    ensures Dot(RotVec(x, p, q, c, s), RotVec(y, p, q, c, s)) == Dot(x, y)
  {
    hide UnitCircle, RotP, RotQ, DotTo;
    var x', y' := RotVec(x, p, q, c, s), RotVec(y, p, q, c, s);
    DotIsSumTo(x, y, |x|);
    DotIsSumTo(x', y', |x|);
    SumToUpdate(Products(x, y), Products(x', y'), p, q, |x|);
    RotatedProducts(c, s, x[p], x[q], y[p], y[q]);
  }

  /** Column j of the rotated matrix in terms of the old columns. */
  lemma RotColsCol(a: Mat, n: nat, p: nat, q: nat, c: real, s: real, j: nat)
    requires IsMat(a, |a|, n) && p < q < n && j < n
    ensures Col(RotCols(a, n, p, q, c, s), n, j) ==
            if j == p then Add(Scale(c, Col(a, n, p)), Scale(-s, Col(a, n, q)))
            else if j == q then Add(Scale(s, Col(a, n, p)), Scale(c, Col(a, n, q)))
            else Col(a, n, j)
  {
    hide RotP, RotQ;
    var l := Col(RotCols(a, n, p, q, c, s), n, j);
    RotRowsLinear(c, s, Col(a, n, p), Col(a, n, q));
    var x, y := RotRowP(c, s, Col(a, n, p), Col(a, n, q)), RotRowQ(c, s, Col(a, n, p), Col(a, n, q));
    forall k | 0 <= k < |a| ensures l[k] == if j == p then x[k] else if j == q then y[k] else a[k][j] {}
  }

  // ---------- the invariant of the sweeps ----------

  ghost predicate Orthonormal(v: Mat, n: nat)
    requires IsMat(v, n, n)
  {
    forall i, j :: 0 <= i < n && 0 <= j < n ==> Dot(Col(v, n, i), Col(v, n, j)) == if i == j then 1.0 else 0.0
  }

  ghost predicate OrthonormalRows(v: Mat, n: nat)
    requires IsMat(v, n, n)
  {
    forall i, j :: 0 <= i < n && 0 <= j < n ==> Dot(v[i], v[j]) == if i == j then 1.0 else 0.0
  }

  function Diagonal(a: Mat): (d: Vec)
    requires IsMat(a, |a|, |a|)
    ensures |d| == |a|
  {
    seq(|a|, i requires 0 <= i < |a| => a[i][i])
  }

  function Trace(a: Mat): real
    requires IsMat(a, |a|, |a|)
  {
    Sum(Diagonal(a))
  }

  /** `v` is orthogonal, a == v' m v, the trace is kept and the off-diagonal mass has not grown. */
  ghost predicate Decomposes(m: Mat, a: Mat, v: Mat) {
    var n := |m|;
    && IsMat(m, n, n) && IsMat(a, n, n) && IsMat(v, n, n)
    && Orthonormal(v, n) && OrthonormalRows(v, n) && Pairs(m, a, v, v, n)
    && Trace(a) == Trace(m) && Off(a) <= Off(m)
  }

  // ---------- sums of squares ----------

  /** The squares right of the diagonal in row `i`, columns below `k`. */
  function Upper(a: Mat, i: nat, k: nat): real
    requires IsMat(a, |a|, |a|) && i < |a| && k <= |a|
  {
    if k <= i + 1 then 0.0 else Upper(a, i, k - 1) + a[i][k - 1] * a[i][k - 1]
  }

  function OffTo(a: Mat, m: nat, k: nat): real
    requires IsMat(a, |a|, |a|) && m <= |a| && k <= |a|
  {
    if m == 0 then 0.0 else OffTo(a, m - 1, k) + Upper(a, m - 1, k)
  }

  /** The off-diagonal mass the source sums: squares strictly above the diagonal. */
  function Off(a: Mat): real
    requires IsMat(a, |a|, |a|)
  {
    OffTo(a, |a|, |a|)
  }

  function RowSquares(a: Mat, k: nat): (r: Vec)
    requires IsMat(a, |a|, |a|) && k <= |a|
    ensures |r| == |a|
  {
    seq(|a|, i requires 0 <= i < |a| => DotTo(a[i], a[i], k))
  }

  function DiagonalSquares(a: Mat): (d: Vec)
    requires IsMat(a, |a|, |a|)
    ensures |d| == |a|
  {
    seq(|a|, i requires 0 <= i < |a| => a[i][i] * a[i][i])
  }

  function ColSquares(a: Mat, j: nat, m: nat): real
    requires IsMat(a, |a|, |a|) && j < |a| && m <= |a|
  {
    if m == 0 then 0.0 else ColSquares(a, j, m - 1) + a[m - 1][j] * a[m - 1][j]
  }

  lemma {:induction false} OffGrows(a: Mat, m: nat, k: nat)
    requires IsMat(a, |a|, |a|) && m <= k < |a|
    ensures OffTo(a, m, k + 1) == OffTo(a, m, k) + ColSquares(a, k, m)
  {
    if m > 0 { OffGrows(a, m - 1, k); }
  }

  lemma {:induction false} BlockGrows(a: Mat, m: nat, k: nat)
    requires IsMat(a, |a|, |a|) && m <= |a| && k < |a|
    ensures SumTo(RowSquares(a, k + 1), m) == SumTo(RowSquares(a, k), m) + ColSquares(a, k, m)
  {
    if m > 0 { BlockGrows(a, m - 1, k); }
  }

  lemma {:induction false} RowIsColumn(a: Mat, j: nat, m: nat)
    requires Symmetric(a) && j < |a| && m <= |a|
    ensures DotTo(a[j], a[j], m) == ColSquares(a, j, m)
  {
    if m > 0 { RowIsColumn(a, j, m - 1); }
  }

  /** Leading blocks: all squares == twice the upper triangle plus the diagonal. */
  lemma {:induction false} BlockSplits(a: Mat, k: nat)
    requires Symmetric(a) && k <= |a|
    ensures SumTo(RowSquares(a, k), k) == 2.0 * OffTo(a, k, k) + SumTo(DiagonalSquares(a), k)
  {
    if k > 0 {
      BlockSplits(a, k - 1);
      BlockGrows(a, k - 1, k - 1);
      OffGrows(a, k - 1, k - 1);
      RowIsColumn(a, k - 1, k - 1);
      assert RowSquares(a, k)[k - 1] == DotTo(a[k - 1], a[k - 1], k);
    }
  }

  /** Changing two entries of a vector. */
  lemma {:induction false} SumToUpdate(v: Vec, w: Vec, p: nat, q: nat, k: nat)
    requires |v| == |w| && p < q < |v| && k <= |v| && forall i :: 0 <= i < |v| && i != p && i != q ==> v[i] == w[i]
    ensures SumTo(w, k) == SumTo(v, k) + (if p < k then w[p] - v[p] else 0.0) + (if q < k then w[q] - v[q] else 0.0)
  {
    if k > 0 { SumToUpdate(v, w, p, q, k - 1); }
  }

  // ---------- one rotation ----------

  function Rotated(a: Mat, p: nat, q: nat, c: real, s: real): (r: Mat)
    requires IsMat(a, |a|, |a|) && p < q < |a|
    ensures IsMat(r, |a|, |a|)
  {
    RotRows(RotCols(a, |a|, p, q, c, s), |a|, p, q, c, s)
  }

  /** The rotated two-by-two block. */
  lemma RotatedBlock(a: Mat, p: nat, q: nat, c: real, s: real)
    requires Symmetric(a) && p < q < |a|
    ensures Rotated(a, p, q, c, s)[p][p] == RotP(c, s, RotP(c, s, a[p][p], a[p][q]), RotP(c, s, a[p][q], a[q][q]))
    ensures Rotated(a, p, q, c, s)[q][q] == RotQ(c, s, RotQ(c, s, a[p][p], a[p][q]), RotQ(c, s, a[p][q], a[q][q]))
    ensures Rotated(a, p, q, c, s)[p][q] == RotP(c, s, RotQ(c, s, a[p][p], a[p][q]), RotQ(c, s, a[p][q], a[q][q]))
    ensures forall i :: 0 <= i < |a| && i != p && i != q ==> Rotated(a, p, q, c, s)[i][i] == a[i][i]
  {
  }

  lemma BlockInvariants(c: real, s: real, x: real, z: real, y: real, x': real, z': real, y': real)
    requires UnitCircle(c, s)
    requires x' == RotP(c, s, RotP(c, s, x, y), RotP(c, s, y, z))
    requires z' == RotQ(c, s, RotQ(c, s, x, y), RotQ(c, s, y, z))
    requires y' == RotP(c, s, RotQ(c, s, x, y), RotQ(c, s, y, z))
    ensures x' + z' == x + z
    ensures x' * z' - y' * y' == x * z - y * y
    ensures y' == c * s * (x - z) + (c * c - s * s) * y
  {
    var u := c * c + s * s;
    assert x' + z' == u * x + u * z;
    assert x' * z' - y' * y' == u * u * (x * z - y * y);
  }

  /** When the new off-diagonal entry is zero the diagonal absorbs twice its old square. */
  lemma DiagonalAbsorbs(x: real, z: real, y: real, x': real, z': real)
    requires x' + z' == x + z && x' * z' == x * z - y * y
    ensures x' * x' + z' * z' == x * x + z * z + 2.0 * (y * y)
  {
  }

  lemma RotatedTrace(a: Mat, p: nat, q: nat, c: real, s: real)
    requires Symmetric(a) && p < q < |a| && UnitCircle(c, s)
    ensures Trace(Rotated(a, p, q, c, s)) == Trace(a)
  {
    hide Rotated, UnitCircle, RotP, RotQ;
    var r := Rotated(a, p, q, c, s);
    RotatedBlock(a, p, q, c, s);
    BlockInvariants(c, s, a[p][p], a[q][q], a[p][q], r[p][p], r[q][q], r[p][q]);
    SumToUpdate(Diagonal(a), Diagonal(r), p, q, |a|);
  }

  /** The total of all squares is kept. */
  lemma RotatedSquares(a: Mat, p: nat, q: nat, c: real, s: real)
    requires IsMat(a, |a|, |a|) && p < q < |a| && UnitCircle(c, s)
    ensures Sum(RowSquares(Rotated(a, p, q, c, s), |a|)) == Sum(RowSquares(a, |a|))
  {
    hide DotTo, UnitCircle, RotVec, RotP, RotQ;
    var n := |a|;
    var b, r := RotCols(a, n, p, q, c, s), Rotated(a, p, q, c, s);
    forall i | 0 <= i < n ensures RowSquares(b, n)[i] == RowSquares(a, n)[i] {
      RotVecDot(a[i], a[i], p, q, c, s);
    }
    assert RowSquares(b, n) == RowSquares(a, n);
    TwoRows(b[p], b[q], c, s);
    RotRowsLinear(c, s, b[p], b[q]);
    SumToUpdate(RowSquares(b, n), RowSquares(r, n), p, q, n);
  }

  lemma TwoRows(x: Vec, y: Vec, c: real, s: real)
    requires |x| == |y| && UnitCircle(c, s)
    ensures var x', y' := Add(Scale(c, x), Scale(-s, y)), Add(Scale(s, x), Scale(c, y));
            Dot(x', x') + Dot(y', y') == Dot(x, x) + Dot(y, y)
  {
    hide DotTo, Add, Scale, UnitCircle;
    SelfDot(x, y, c, -s);
    SelfDot(x, y, s, c);
    CircleSum(c, s, Dot(x, x), Dot(x, y), Dot(y, y));
  }

  lemma CircleSum(c: real, s: real, xx: real, xy: real, yy: real)
    requires UnitCircle(c, s)
    ensures DotForm(c, -s, xx, xy, yy) + DotForm(s, c, xx, xy, yy) == xx + yy
  {
  }

  function DotForm(c: real, d: real, xx: real, xy: real, yy: real): real {
    c * c * xx + 2.0 * c * d * xy + d * d * yy
  }

  lemma SelfDot(x: Vec, y: Vec, c: real, d: real)
    requires |x| == |y|
    ensures Dot(Add(Scale(c, x), Scale(d, y)), Add(Scale(c, x), Scale(d, y)))
         == DotForm(c, d, Dot(x, x), Dot(x, y), Dot(y, y))
  {
    hide DotTo, Add, Scale, DotForm;
    var z := Add(Scale(c, x), Scale(d, y));
    DotLinearLeft(c, x, d, y, z);
    DotLinear(x, c, x, d, y);
    DotLinear(y, c, x, d, y);
    DotComm(x, y);
    ExpandDot(c, d, Dot(x, x), Dot(x, y), Dot(y, y), Dot(z, z));
  }

  lemma ExpandDot(c: real, d: real, xx: real, xy: real, yy: real, zz: real)
    requires zz == c * (c * xx + d * xy) + d * (c * xy + d * yy)
    ensures zz == DotForm(c, d, xx, xy, yy)
  {
  }

  /** A rotation that zeroes a[p][q] lowers the off-diagonal mass by exactly a[p][q]^2. */
  lemma RotatedOff(a: Mat, p: nat, q: nat, c: real, s: real)
    requires Symmetric(a) && p < q < |a| && UnitCircle(c, s) && Symmetric(Rotated(a, p, q, c, s))
    requires Rotated(a, p, q, c, s)[p][q] == 0.0
    ensures Off(Rotated(a, p, q, c, s)) == Off(a) - a[p][q] * a[p][q]
  {
    hide DotTo, Rotated, UnitCircle, OffTo, SumTo, RotP, RotQ;
    var r := Rotated(a, p, q, c, s);
    RotatedSquares(a, p, q, c, s);
    BlockSplits(a, |a|);
    BlockSplits(r, |a|);
    RotatedBlock(a, p, q, c, s);
    BlockInvariants(c, s, a[p][p], a[q][q], a[p][q], r[p][p], r[q][q], r[p][q]);
    DiagonalAbsorbs(a[p][p], a[q][q], a[p][q], r[p][p], r[q][q]);
    SumToUpdate(DiagonalSquares(a), DiagonalSquares(r), p, q, |a|);
  }

  /** Column orthonormality survives. */
  lemma RotatedOrthonormal(v: Mat, n: nat, p: nat, q: nat, c: real, s: real)
    requires IsMat(v, n, n) && p < q < n && UnitCircle(c, s) && Orthonormal(v, n) && OrthonormalRows(v, n)
    ensures Orthonormal(RotCols(v, n, p, q, c, s), n) && OrthonormalRows(RotCols(v, n, p, q, c, s), n)
  {
    hide DotTo, RotVec;
    var w := RotCols(v, n, p, q, c, s);
    forall i, j | 0 <= i < n && 0 <= j < n
      ensures Dot(w[i], w[j]) == if i == j then 1.0 else 0.0
    {
      RotVecDot(v[i], v[j], p, q, c, s);
    }
    forall i, j | 0 <= i < n && 0 <= j < n
      ensures Dot(Col(w, n, i), Col(w, n, j)) == if i == j then 1.0 else 0.0
    {
      RotatedColumnDot(v, n, p, q, c, s, i, j);
    }
  }

  lemma RotatedColumnDot(v: Mat, n: nat, p: nat, q: nat, c: real, s: real, i: nat, j: nat)
    requires IsMat(v, n, n) && p < q < n && UnitCircle(c, s) && Orthonormal(v, n) && i < n && j < n
    ensures Dot(Col(RotCols(v, n, p, q, c, s), n, i), Col(RotCols(v, n, p, q, c, s), n, j))
            == if i == j then 1.0 else 0.0
  {
    hide DotTo, RotVec, Add, Scale, Col, RotCols;
    RotColsCol(v, n, p, q, c, s, i);
    RotColsCol(v, n, p, q, c, s, j);
    var z := Col(RotCols(v, n, p, q, c, s), n, j);
    var x, y := Col(v, n, p), Col(v, n, q);
    ColumnDot(v, n, p, q, c, s, p, j);
    ColumnDot(v, n, p, q, c, s, q, j);
    ColumnDot(v, n, p, q, c, s, i, j);
    DotLinearLeft(c, x, -s, y, z);
    DotLinearLeft(s, x, c, y, z);
  }

  /** Inner product of an old column with a rotated one. */
  lemma ColumnDot(v: Mat, n: nat, p: nat, q: nat, c: real, s: real, i: nat, j: nat)
    requires IsMat(v, n, n) && p < q < n && Orthonormal(v, n) && i < n && j < n
    ensures Dot(Col(v, n, i), Col(RotCols(v, n, p, q, c, s), n, j)) ==
            if j == p then c * Delta(i, p) - s * Delta(i, q)
            else if j == q then s * Delta(i, p) + c * Delta(i, q)
            else Delta(i, j)
  {
    hide DotTo, RotVec, Add, Scale, RotCols;
    RotColsCol(v, n, p, q, c, s, j);
    DotLinear(Col(v, n, i), c, Col(v, n, p), -s, Col(v, n, q));
    DotLinear(Col(v, n, i), s, Col(v, n, p), c, Col(v, n, q));
  }

  function Delta(i: nat, j: nat): real { if i == j then 1.0 else 0.0 }

  // ---------- conjugation ----------

  /** b[i][j] == v_i' m w_j. */
  ghost predicate Pairs(m: Mat, b: Mat, v: Mat, w: Mat, n: nat)
    requires IsMat(m, n, n) && IsMat(b, n, n) && IsMat(v, n, n) && IsMat(w, n, n)
  {
    forall i, j :: 0 <= i < n && 0 <= j < n ==> b[i][j] == Bilinear(m, Col(v, n, i), Col(w, n, j))
  }

  lemma RotColsPairs(m: Mat, a: Mat, v: Mat, n: nat, p: nat, q: nat, c: real, s: real)
    requires IsMat(m, n, n) && IsMat(a, n, n) && IsMat(v, n, n) && p < q < n && Pairs(m, a, v, v, n)
    ensures Pairs(m, RotCols(a, n, p, q, c, s), v, RotCols(v, n, p, q, c, s), n)
  {
    hide Col, RotP, RotQ, Bilinear, RotCols, Add, Scale;
    var b, w := RotCols(a, n, p, q, c, s), RotCols(v, n, p, q, c, s);
    forall i, j | 0 <= i < n && 0 <= j < n ensures b[i][j] == Bilinear(m, Col(v, n, i), Col(w, n, j)) {
      RotColsEntry(a, n, p, q, c, s, i, j);
      RotColsCol(v, n, p, q, c, s, j);
      CombineRight(m, Col(v, n, i), Col(v, n, p), Col(v, n, q), c, s);
    }
  }

  lemma RotColsEntry(a: Mat, n: nat, p: nat, q: nat, c: real, s: real, i: nat, j: nat)
    requires IsMat(a, |a|, n) && p < q < n && i < |a| && j < n
    ensures RotCols(a, n, p, q, c, s)[i][j] ==
            if j == p then RotP(c, s, a[i][p], a[i][q]) else if j == q then RotQ(c, s, a[i][p], a[i][q]) else a[i][j]
  {
  }

  lemma CombineRight(m: Mat, z: Vec, x: Vec, y: Vec, c: real, s: real)
    requires IsMat(m, |z|, |x|) && |x| == |y|
    ensures Bilinear(m, z, Add(Scale(c, x), Scale(-s, y))) == RotP(c, s, Bilinear(m, z, x), Bilinear(m, z, y))
    ensures Bilinear(m, z, Add(Scale(s, x), Scale(c, y))) == RotQ(c, s, Bilinear(m, z, x), Bilinear(m, z, y))
  {
    hide DotTo, MatVec, Bilinear;
    BilinearLinear(m, z, c, x, -s, y);
    BilinearLinear(m, z, s, x, c, y);
    assert -s * Bilinear(m, z, y) == -(s * Bilinear(m, z, y));
  }

  lemma CombineLeft(m: Mat, x: Vec, y: Vec, z: Vec, c: real, s: real)
    requires IsMat(m, |x|, |z|) && |x| == |y|
    ensures Bilinear(m, Add(Scale(c, x), Scale(-s, y)), z) == RotP(c, s, Bilinear(m, x, z), Bilinear(m, y, z))
    ensures Bilinear(m, Add(Scale(s, x), Scale(c, y)), z) == RotQ(c, s, Bilinear(m, x, z), Bilinear(m, y, z))
  {
    hide DotTo, MatVec, Bilinear;
    BilinearLinearLeft(m, c, x, -s, y, z);
    BilinearLinearLeft(m, s, x, c, y, z);
    assert -s * Bilinear(m, y, z) == -(s * Bilinear(m, y, z));
  }

  lemma RotRowsPairs(m: Mat, b: Mat, v: Mat, w: Mat, n: nat, p: nat, q: nat, c: real, s: real)
    requires IsMat(m, n, n) && IsMat(b, n, n) && IsMat(v, n, n) && IsMat(w, n, n) && p < q < n && Pairs(m, b, v, w, n)
    requires w == RotCols(v, n, p, q, c, s)
    ensures Pairs(m, RotRows(b, n, p, q, c, s), w, w, n)
  {
    hide Col, RotP, RotQ, Bilinear, RotCols, Add, Scale, RotRows;
    var a := RotRows(b, n, p, q, c, s);
    forall i, j | 0 <= i < n && 0 <= j < n ensures a[i][j] == Bilinear(m, Col(w, n, i), Col(w, n, j)) {
      RotRowsEntry(b, n, p, q, c, s, i, j);
      RotColsCol(v, n, p, q, c, s, i);
      CombineLeft(m, Col(v, n, p), Col(v, n, q), Col(w, n, j), c, s);
    }
  }

  lemma RotRowsEntry(a: Mat, n: nat, p: nat, q: nat, c: real, s: real, i: nat, j: nat)
    requires IsMat(a, |a|, n) && p < q < |a| && i < |a| && j < n
    ensures RotRows(a, n, p, q, c, s)[i][j] ==
            if i == p then RotP(c, s, a[p][j], a[q][j]) else if i == q then RotQ(c, s, a[p][j], a[q][j]) else a[i][j]
  {
  }

  lemma ConjugateSymmetric(m: Mat, a: Mat, v: Mat, n: nat)
    requires Symmetric(m) && |m| == n && IsMat(a, n, n) && IsMat(v, n, n) && Pairs(m, a, v, v, n)
    ensures Symmetric(a)
  {
    hide Col, Bilinear;
    forall i, j | 0 <= i < n && 0 <= j < n ensures a[i][j] == a[j][i] {
      BilinearSymmetric(m, Col(v, n, i), Col(v, n, j));
    }
  }

  /** One rotation that zeroes a[p][q] keeps the decomposition and removes exactly a[p][q]^2. */
  lemma DecompositionStep(m: Mat, a: Mat, v: Mat, p: nat, q: nat, c: real, s: real)
    requires Symmetric(m) && Decomposes(m, a, v) && p < q < |m| && UnitCircle(c, s)
    requires Rotated(a, p, q, c, s)[p][q] == 0.0
    ensures Decomposes(m, Rotated(a, p, q, c, s), RotCols(v, |m|, p, q, c, s))
    ensures Off(Rotated(a, p, q, c, s)) == Off(a) - a[p][q] * a[p][q]
  {
    hide Orthonormal, OrthonormalRows, Pairs, Off, Trace, UnitCircle, RotCols, RotRows, SymmetricEntries;
    var n := |m|;
    var b, w := RotCols(a, n, p, q, c, s), RotCols(v, n, p, q, c, s);
    RotColsPairs(m, a, v, n, p, q, c, s);
    RotRowsPairs(m, b, v, w, n, p, q, c, s);
    ConjugateSymmetric(m, a, v, n);
    ConjugateSymmetric(m, Rotated(a, p, q, c, s), w, n);
    RotatedOrthonormal(v, n, p, q, c, s);
    RotatedTrace(a, p, q, c, s);
    RotatedOff(a, p, q, c, s);
    SquareSign(a[p][q], a[p][q] * a[p][q]);
  }

  // ---------- the algorithm ----------

  method RotateColumns(m: array<Vec>, n: nat, p: nat, q: nat, c: real, s: real)
    requires IsMat(m[..], m.Length, n) && p < q < n
    modifies m
    ensures m[..] == RotCols(old(m[..]), n, p, q, c, s)
  {
    for k := 0 to m.Length
      invariant forall i :: 0 <= i < k ==> m[i] == RotVec(old(m[i]), p, q, c, s)
      invariant forall i :: k <= i < m.Length ==> m[i] == old(m[i])
    {
      var akp, akq := m[k][p], m[k][q];
      m[k] := m[k][p := RotP(c, s, akp, akq)];
      m[k] := m[k][q := RotQ(c, s, akp, akq)];
    }
  }

  method RotateRows(m: array<Vec>, n: nat, p: nat, q: nat, c: real, s: real)
    requires IsMat(m[..], m.Length, n) && p < q < m.Length
    modifies m
    ensures m[..] == RotRows(old(m[..]), n, p, q, c, s)
  {
    ghost var x, y := m[p], m[q];
    for k := 0 to n
      invariant |m[p]| == n && |m[q]| == n
      invariant forall i :: 0 <= i < m.Length && i != p && i != q ==> m[i] == old(m[i])
      invariant forall j :: 0 <= j < k ==> m[p][j] == RotRowP(c, s, x, y)[j] && m[q][j] == RotRowQ(c, s, x, y)[j]
      invariant forall j :: k <= j < n ==> m[p][j] == x[j] && m[q][j] == y[j]
    {
      var apk, aqk := m[p][k], m[q][k];
      m[p] := m[p][k := RotP(c, s, apk, aqk)];
      m[q] := m[q][k := RotQ(c, s, apk, aqk)];
    }
    assert m[p] == RotRowP(c, s, x, y) && m[q] == RotRowQ(c, s, x, y);
  }

  /** Cosine and sine of the rotation that annihilates a[p][q]. */
  method Angle(sqrt: real -> real, app: real, aqq: real, apq: real) returns (c: real, s: real)
    requires IsSqrt(sqrt) && apq != 0.0
    ensures UnitCircle(c, s) && c * s * (app - aqq) + (c * c - s * s) * apq == 0.0
    ensures c > 0.0 && Abs(s) <= c
  {
    hide IsSqrt, UnitCircle;
    var theta := (aqq - app) / (2.0 * apq);
    TangentSolves(sqrt, theta);
    TangentAtMostOne(sqrt, theta);
    var t := Tangent(sqrt, theta);
    SquareSign(t, t * t);
    SqrtSquared(sqrt, t * t + 1.0);
    SquareSign(sqrt(t * t + 1.0), t * t + 1.0);
    c := 1.0 / sqrt(t * t + 1.0);
    s := t * c;
    DivSign(1.0, sqrt(t * t + 1.0));
    MulMonotone(t, 1.0, c);
    MulMonotone(-1.0, t, c);
    CircleFromTangent(t, sqrt(t * t + 1.0), c, s);
    RotationZeroes(app, aqq, apq, theta, t, c, s);
  }

  lemma ZeroedEntry(a: Mat, p: nat, q: nat, c: real, s: real)
    requires Symmetric(a) && p < q < |a| && UnitCircle(c, s)
    requires c * s * (a[p][p] - a[q][q]) + (c * c - s * s) * a[p][q] == 0.0
    ensures Rotated(a, p, q, c, s)[p][q] == 0.0
  {
  }

  method Rotate(a: array<Vec>, v: array<Vec>, p: nat, q: nat, sqrt: real -> real, ghost m: Mat)
    requires IsSqrt(sqrt) && Symmetric(m) && a != v && a.Length == v.Length == |m|
    requires p < q < |m| && Decomposes(m, a[..], v[..]) && a[p][q] != 0.0
    modifies a, v
    ensures Decomposes(m, a[..], v[..]) && a[p][q] == 0.0
    ensures Off(a[..]) == old(Off(a[..])) - old(a[p][q]) * old(a[p][q])
  {
    hide Decomposes, Off, UnitCircle, RotCols, RotRows, RotP, RotQ, Orthonormal, OrthonormalRows, Pairs, IsSqrt;
    var n := a.Length;
    ghost var before, basis := a[..], v[..];
    DecomposesShape(m, before, basis);
    var c, s := Angle(sqrt, a[p][p], a[q][q], a[p][q]);
    ZeroedEntry(before, p, q, c, s);
    DecompositionStep(m, before, basis, p, q, c, s);
    RotateColumns(a, n, p, q, c, s);
    RotateRows(a, n, p, q, c, s);
    RotateColumns(v, n, p, q, c, s);
    assert a[..] == Rotated(before, p, q, c, s);
  }

  lemma DecomposesShape(m: Mat, a: Mat, v: Mat)
    requires Symmetric(m) && Decomposes(m, a, v)
    ensures IsMat(a, |m|, |m|) && IsMat(v, |m|, |m|) && Symmetric(a)
  {
    ConjugateSymmetric(m, a, v, |m|);
  }

  lemma DecompositionFacts(m: Mat, a: Mat, v: Mat)
    requires Decomposes(m, a, v)
    ensures IsMat(m, |m|, |m|) && IsMat(a, |m|, |m|) && IsMat(v, |m|, |m|)
    ensures Orthonormal(v, |m|) && OrthonormalRows(v, |m|) && Sum(Diagonal(a)) == Trace(m)
  {
  }

  // ---------- what a sweep gains ----------

  /** The pairs before (p, q), in the order of a sweep, are below the skip threshold. */
  ghost predicate TinyBefore(a: Mat, p: nat, q: nat)
    requires IsMat(a, |a|, |a|)
  {
    forall i, j :: 0 <= i < j < |a| && (i < p || (i == p && j < q)) ==> Abs(a[i][j]) < SKIP_EPS
  }

  lemma {:induction false} TinyUpper(a: Mat, i: nat, k: nat)
    requires IsMat(a, |a|, |a|) && i < |a| && k <= |a|
    requires forall j :: i < j < |a| ==> Abs(a[i][j]) < SKIP_EPS
    ensures Upper(a, i, k) <= k as real * (SKIP_EPS * SKIP_EPS)
  {
    if k > i + 1 {
      TinyUpper(a, i, k - 1);
      SquareOrder(Abs(a[i][k - 1]), SKIP_EPS);
    }
  }

  lemma {:induction false} TinyOffTo(a: Mat, m: nat)
    requires IsMat(a, |a|, |a|) && m <= |a| && TinyBefore(a, |a|, |a|)
    ensures OffTo(a, m, |a|) <= m as real * (|a| as real * (SKIP_EPS * SKIP_EPS))
  {
    if m > 0 {
      TinyOffTo(a, m - 1);
      TinyUpper(a, m - 1, |a|);
    }
  }

  /** A matrix whose every pair is skipped has converged. */
  lemma TinyHasConverged(a: Mat)
    requires IsMat(a, |a|, |a|) && |a| <= 1000000 && TinyBefore(a, |a|, |a|)
    ensures Off(a) < 1e-30
  {
    TinyOffTo(a, |a|);
    TinyTotal(|a| as real, SKIP_EPS * SKIP_EPS, Off(a));
  }

  lemma TinyTotal(n: real, e: real, off: real)
    requires 0.0 <= n <= 1e6 && 0.0 <= e <= 1e-50 && off <= n * (n * e)
    ensures off < 1e-30
  {
    var w := n * e;
    BoundedProduct(n, e, 1e6, 1e-50, w);
    BoundedProduct(n, w, 1e6, 1e-43, n * w);
  }

  lemma BoundedProduct(x: real, y: real, a: real, b: real, p: real)
    requires 0.0 <= x <= a && 0.0 <= y <= b && p == x * y
    ensures 0.0 <= p <= a * b
  {
    MulMonotone(y, b, x);
    MulMonotone(x, a, b);
  }

  lemma OffOfTwo(a: Mat)
    requires IsMat(a, 2, 2)
    ensures Off(a) == a[0][1] * a[0][1]
  {
    assert OffTo(a, 2, 2) == OffTo(a, 1, 2) + Upper(a, 1, 2) && OffTo(a, 1, 2) == OffTo(a, 0, 2) + Upper(a, 0, 2);
    assert Upper(a, 0, 2) == Upper(a, 0, 1) + a[0][1] * a[0][1];
  }

  /** How far a sweep that has reached (p, q) has come; `moved` says whether it has rotated anything. */
  ghost predicate Swept(before: Mat, a: Mat, moved: bool, p: nat, q: nat) {
    && IsMat(before, |before|, |before|) && IsMat(a, |before|, |before|)
    && Off(a) <= Off(before) && (moved ==> Off(a) < Off(before))
    && (!moved ==> a == before && TinyBefore(before, p, q))
    && (p == 0 && q <= 1 ==> !moved)
    && (|before| == 2 && moved ==> Off(a) == 0.0)
    && (|before| >= 2 && (p > 0 || q > 1) && Abs(before[0][1]) >= 1e-15 ==>
          Off(a) <= Off(before) - before[0][1] * before[0][1])
  }

  lemma SkippedPair(before: Mat, a: Mat, moved: bool, p: nat, q: nat)
    requires Swept(before, a, moved, p, q) && p < q < |before| && Abs(a[p][q]) < SKIP_EPS
    ensures Swept(before, a, moved, p, q + 1)
  {
    hide Off;
  }

  lemma RotatedPair(before: Mat, a: Mat, moved: bool, a': Mat, p: nat, q: nat)
    requires Swept(before, a, moved, p, q) && p < q < |before| && IsMat(a', |before|, |before|)
    requires Abs(a[p][q]) >= SKIP_EPS && Off(a') == Off(a) - a[p][q] * a[p][q] && a'[p][q] == 0.0
    ensures Swept(before, a', true, p, q + 1)
  {
    hide Off;
    SquareSign(a[p][q], a[p][q] * a[p][q]);
    if |before| == 2 { OffOfTwo(a'); }
  }

  /** A row is done, the next begins. */
  lemma NextRow(before: Mat, a: Mat, moved: bool, p: nat)
    requires p < |before| && Swept(before, a, moved, p, if p + 1 < |before| then |before| else p + 1)
    ensures Swept(before, a, moved, p + 1, p + 2)
  {
    hide Off;
  }

  /** What a whole sweep achieves: less mass than before unless there was next to none, the square of the first pair at
      the least, and all of it in the case of two rows. */
  ghost predicate Gains(before: Mat, a: Mat) {
    && IsMat(before, |before|, |before|) && IsMat(a, |before|, |before|)
    && Off(a) <= Off(before)
    && (Off(before) >= 1e-30 && |before| <= 1000000 ==> Off(a) < Off(before))
    && (Off(before) >= 1e-30 && |before| == 2 ==> Off(a) == 0.0)
    && (|before| >= 2 && Abs(before[0][1]) >= 1e-15 ==> Off(a) <= Off(before) - before[0][1] * before[0][1])
  }

  lemma SweepGains(before: Mat, a: Mat, moved: bool)
    requires Swept(before, a, moved, |before|, |before| + 1)
    ensures Gains(before, a)
  {
    hide Off;
    if !moved && |before| <= 1000000 { TinyHasConverged(before); }
  }

  lemma NothingSwept(a: Mat)
    requires IsMat(a, |a|, |a|)
    ensures Swept(a, a, false, 0, 1)
  {
    hide Off;
  }

  /** Every off-diagonal pair once. */
  method Sweep(a: array<Vec>, v: array<Vec>, sqrt: real -> real, ghost m: Mat)
    requires IsSqrt(sqrt) && Symmetric(m) && a != v && a.Length == v.Length == |m| && Decomposes(m, a[..], v[..])
    modifies a, v
    ensures Decomposes(m, a[..], v[..]) && Gains(old(a[..]), a[..])
  {
    hide Decomposes, Off, IsSqrt, SymmetricEntries, Swept, Gains, TinyBefore;
    ghost var before, moved := a[..], false;
    DecomposesShape(m, before, v[..]);
    NothingSwept(before);
    for p := 0 to a.Length
      invariant Decomposes(m, a[..], v[..]) && Swept(before, a[..], moved, p, p + 1)
    {
      for q := p + 1 to a.Length
        invariant Decomposes(m, a[..], v[..]) && Swept(before, a[..], moved, p, q)
      {
        DecomposesShape(m, a[..], v[..]);
        if Abs(a[p][q]) < SKIP_EPS {
          SkippedPair(before, a[..], moved, p, q);
          continue;
        }
        ghost var reached := a[..];
        Rotate(a, v, p, q, sqrt, m);
        DecomposesShape(m, a[..], v[..]);
        RotatedPair(before, reached, moved, a[..], p, q);
        moved := true;
      }
      NextRow(before, a[..], moved, p);
    }
    SweepGains(before, a[..], moved);
  }

  method OffDiagonal(a: array<Vec>) returns (off: real)
    requires IsMat(a[..], a.Length, a.Length)
    ensures off == Off(a[..])
  {
    off := 0.0;
    for p := 0 to a.Length
      invariant off == OffTo(a[..], p, a.Length)
    {
      for q := p + 1 to a.Length
        invariant off == OffTo(a[..], p, a.Length) + Upper(a[..], p, q)
      {
        off := off + a[p][q] * a[p][q];
      }
    }
  }

  lemma InitialDecomposition(m: Mat)
    requires Symmetric(m)
    ensures Decomposes(m, m, Identity(|m|))
  {
    hide DotTo;
    var n, v := |m|, Identity(|m|);
    forall i | 0 <= i < n ensures Col(v, n, i) == Unit(n, i) {}
    forall i, j | 0 <= i < n && 0 <= j < n
      ensures Dot(Unit(n, i), Unit(n, j)) == (if i == j then 1.0 else 0.0)
              && m[i][j] == Bilinear(m, Unit(n, i), Unit(n, j))
    {
      DotUnit(Unit(n, i), j);
      MatVecUnit(m, n, j);
      DotUnit(Col(m, n, j), i);
    }
  }

  /** How far the iteration gets in `sweeps` sweeps: it starts only with mass to remove, each sweep removes some, two
      rows are done in one, and it stops early only when next to nothing is left. */
  ghost predicate Progress(m: Mat, rotated: Mat, sweeps: nat)
    requires IsMat(m, |m|, |m|) && IsMat(rotated, |m|, |m|)
  {
    && sweeps <= 100 && (sweeps < 100 ==> Off(rotated) < 1e-30)
    && (sweeps == 0 <==> Off(m) < 1e-30) && (sweeps == 0 ==> rotated == m)
    && (sweeps > 0 ==> Gains(m, rotated))
    && (|m| == 2 ==> Off(rotated) < 1e-30)
  }

  /** Several sweeps, each from more than 1e-30 on, achieve what the first one does. */
  lemma GainsAdd(m: Mat, before: Mat, a: Mat)
    requires IsMat(m, |m|, |m|) && IsMat(before, |m|, |m|) && Off(before) >= 1e-30 && Gains(before, a)
    requires m == before || Gains(m, before)
    ensures Gains(m, a)
  {
    hide Off;
  }

  lemma FinalProgress(m: Mat, rotated: Mat, sweeps: nat)
    requires IsMat(m, |m|, |m|) && IsMat(rotated, |m|, |m|) && sweeps <= MAX_SWEEPS
    requires sweeps < MAX_SWEEPS ==> Off(rotated) < OFF_EPS
    requires if sweeps == 0 then rotated == m else Off(m) >= OFF_EPS && Gains(m, rotated)
    ensures Progress(m, rotated, sweeps)
  {
    hide Off;
  }

  /** At every exit, converged or not: an orthonormal basis, the rotated matrix in it, its diagonal as eigenvalues. The
      loop stops below 1e-30 or after 100 sweeps, and what it has rotated it has gained. */
  method JacobiEigen(m: Mat, sqrt: real -> real)
    returns (eigenvalues: Vec, vectors: Mat, ghost rotated: Mat, ghost sweeps: nat)
    requires IsSqrt(sqrt) && Symmetric(m)
    ensures IsMat(vectors, |m|, |m|) && Orthonormal(vectors, |m|) && OrthonormalRows(vectors, |m|)
    ensures |eigenvalues| == |m| && Sum(eigenvalues) == Trace(m)
    ensures Decomposes(m, rotated, vectors) && eigenvalues == Diagonal(rotated)
    ensures Progress(m, rotated, sweeps)
  {
    hide Decomposes, Off, SymmetricEntries, Orthonormal, OrthonormalRows, SumTo, Gains, Progress;
    var n := |m|;
    var a := new Vec[n](i requires 0 <= i < n => m[i]);
    var v := new Vec[n](i requires 0 <= i < n => Unit(n, i));
    assert a[..] == m && v[..] == Identity(n);
    InitialDecomposition(m);
    var sweep := 0;
    sweeps := MAX_SWEEPS;
    while sweep < MAX_SWEEPS
      invariant 0 <= sweep <= MAX_SWEEPS && sweeps == MAX_SWEEPS
      invariant Decomposes(m, a[..], v[..])
      invariant if sweep == 0 then a[..] == m else Off(m) >= OFF_EPS && Gains(m, a[..])
      invariant IsMat(a[..], n, n)
    {
      DecomposesShape(m, a[..], v[..]);
      var off := OffDiagonal(a);
      if off < OFF_EPS {
        sweeps := sweep;
        break;
      }
      ghost var before := a[..];
      Sweep(a, v, sqrt, m);
      DecomposesShape(m, a[..], v[..]);
      GainsAdd(m, before, a[..]);
      sweep := sweep + 1;
    }
    rotated := a[..];
    DecomposesShape(m, rotated, v[..]);
    assert Progress(m, rotated, sweeps) by { FinalProgress(m, rotated, sweeps); }
    eigenvalues := [];
    for i := 0 to n
      invariant |eigenvalues| == i && a[..] == rotated && forall k :: 0 <= k < i ==> eigenvalues[k] == rotated[k][k]
    {
      eigenvalues := eigenvalues + [a[i][i]];
    }
    vectors := v[..];
    assert eigenvalues == Diagonal(rotated);
    DecompositionFacts(m, rotated, vectors);
  }
}
