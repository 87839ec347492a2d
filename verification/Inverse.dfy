/** Gauss-Jordan inversion with partial pivoting, on the augmented rows [m | I] in place. */
module Inverse {
  import opened Reals
  import opened LinearAlgebra
  import opened Outcome

  const PIVOT_EPS: real := 1e-15

  // ---------- what the inverse means ----------

  /** `inv` undoes `m` on both sides, on every vector. */
  ghost predicate IsInverse(m: Mat, inv: Mat) {
    IsMat(m, |m|, |m|) && IsMat(inv, |m|, |m|) && Undoes(m, inv) && Undoes(inv, m)
  }

  ghost predicate Undoes(a: Mat, b: Mat)
    requires IsMat(a, |a|, |a|) && IsMat(b, |a|, |a|)
  {
    forall x: Vec {:trigger MatVec(b, MatVec(a, x))} :: |x| == |a| ==> MatVec(b, MatVec(a, x)) == x
  }

  lemma InverseAt(m: Mat, inv: Mat, x: Vec)
    requires IsInverse(m, inv) && |x| == |m|
    ensures MatVec(inv, MatVec(m, x)) == x && MatVec(m, MatVec(inv, x)) == x
  {
  }

  /** Some vector with a unit entry is sent below 1e-15, the pivot threshold, in every entry. */
  ghost predicate NearSingular(m: Mat)
    requires IsMat(m, |m|, |m|)
  {
    exists x: Vec, k: nat ::
      |x| == |m| && k < |m| && x[k] == 1.0 && Below(MatVec(m, x), 1e-15)
  }

  /** Some non-zero vector is sent to zero. */
  ghost predicate Singular(m: Mat) {
    IsMat(m, |m|, |m|) && exists x: Vec :: |x| == |m| && x != Zeros(|m|) && MatVec(m, x) == Zeros(|m|)
  }

  ghost predicate Below(v: Vec, eps: real) {
    forall i :: 0 <= i < |v| ==> Abs(v[i]) < eps
  }

  // ---------- row operations ----------

  function DivRow(row: Vec, v: real): Vec
    requires v != 0.0
  {
    seq(|row|, j requires 0 <= j < |row| => row[j] / v)
  }

  function SubRow(row: Vec, factor: real, pivot: Vec): Vec
    requires |row| == |pivot|
  {
    seq(|row|, j requires 0 <= j < |row| => row[j] - factor * pivot[j])
  }

  lemma {:induction false} DivRowDot(row: Vec, v: real, z: Vec, k: nat)
    requires v != 0.0 && k <= |row| && k <= |z|
    ensures v * DotTo(DivRow(row, v), z, k) == DotTo(row, z, k)
  {
    if k > 0 {
      DivRowDot(row, v, z, k - 1);
      var a, b, d := row[k - 1], z[k - 1], DotTo(DivRow(row, v), z, k - 1);
      assert v * (a / v) == a;
      assert v * (d + (a / v) * b) == v * d + v * (a / v) * b;
    }
  }

  lemma {:induction false} SubRowDot(row: Vec, factor: real, pivot: Vec, z: Vec, k: nat)
    requires k <= |row| == |pivot| && k <= |z|
    ensures DotTo(SubRow(row, factor, pivot), z, k) == DotTo(row, z, k) - factor * DotTo(pivot, z, k)
  {
    if k > 0 {
      SubRowDot(row, factor, pivot, z, k - 1);
      var a, p, b, d := row[k - 1], pivot[k - 1], z[k - 1], DotTo(pivot, z, k - 1);
      assert (a - factor * p) * b == a * b - factor * (p * b);
      assert factor * (d + p * b) == factor * d + factor * (p * b);
    }
  }

  // ---------- the loop invariant ----------

  /** The first `c` rows of `a` annihilate `z`. */
  ghost predicate Kills(a: Mat, c: nat, z: Vec)
    requires c <= |a| && IsMat(a, |a|, |z|)
  {
    forall i :: 0 <= i < c ==> Dot(a[i], z) == 0.0
  }

  ghost predicate Permutes(perm: seq<nat>, n: nat) {
    |perm| == n && (forall i :: 0 <= i < n ==> perm[i] < n) && (forall i :: 0 <= i < n ==> i in perm)
  }

  function Permuted(a: Mat, perm: seq<nat>): (r: Mat)
    requires |perm| == |a| && forall i :: 0 <= i < |perm| ==> perm[i] < |a|
  {
    seq(|a|, i requires 0 <= i < |a| => a[perm[i]])
  }

  /** After `c` columns the processed rows have the same solutions as the rows they came
      from, and on those solutions every other row still is the row it came from. */
  ghost predicate SameSolutions(a0: Mat, a: Mat, c: nat, width: nat)
    requires IsMat(a0, |a|, width) && IsMat(a, |a|, width) && c <= |a|
  {
    forall z: Vec :: |z| == width ==> AgreeAt(a0, a, c, z)
  }

  ghost predicate AgreeAt(a0: Mat, a: Mat, c: nat, z: Vec)
    requires IsMat(a0, |a|, |z|) && IsMat(a, |a|, |z|) && c <= |a|
  {
    && (Kills(a, c, z) <==> Kills(a0, c, z))
    && (Kills(a, c, z) ==> forall r :: c <= r < |a| ==> Dot(a[r], z) == Dot(a0[r], z))
  }

  ghost predicate UnitColumns(a: Mat, c: nat, width: nat)
    requires IsMat(a, |a|, width) && c <= width
  {
    forall i, j :: 0 <= i < |a| && 0 <= j < c ==> a[i][j] == if i == j then 1.0 else 0.0
  }

  function Swap<T>(s: seq<T>, i: nat, j: nat): (r: seq<T>)
    requires i < |s| && j < |s|
    ensures |r| == |s|
  {
    s[i := s[j]][j := s[i]]
  }

  /** `b` is `a` after normalising row `c` and clearing column `c` from every other row. */
  ghost predicate Eliminated(a: Mat, b: Mat, c: nat, width: nat) {
    && c < |a| == |b| && c < width && IsMat(a, |a|, width) && IsMat(b, |a|, width) && a[c][c] != 0.0
    && b[c] == DivRow(a[c], a[c][c])
    && forall r :: 0 <= r < |a| && r != c ==> b[r] == SubRow(a[r], a[r][c], b[c])
  }

  lemma KillsPrefix(a: Mat, b: Mat, c: nat, z: Vec)
    requires c <= |a| && c <= |b| && IsMat(a, |a|, |z|) && IsMat(b, |b|, |z|)
    requires forall i :: 0 <= i < c ==> a[i] == b[i]
    ensures Kills(a, c, z) <==> Kills(b, c, z)
  {
  }

  lemma SwapKeepsAt(a0: Mat, a: Mat, c: nat, p: nat, z: Vec)
    requires c <= p < |a| && IsMat(a0, |a|, |z|) && IsMat(a, |a|, |z|) && AgreeAt(a0, a, c, z)
    ensures AgreeAt(Swap(a0, c, p), Swap(a, c, p), c, z)
  {
    var b0, b := Swap(a0, c, p), Swap(a, c, p);
    KillsPrefix(a, b, c, z);
    KillsPrefix(a0, b0, c, z);
    if Kills(a, c, z) {
      forall r | c <= r < |b| ensures Dot(b[r], z) == Dot(b0[r], z) {
        var q := if r == c then p else if r == p then c else r;
        assert b[r] == a[q] && b0[r] == a0[q];
      }
    }
  }

  lemma SwapKeeps(a0: Mat, a: Mat, c: nat, p: nat, width: nat)
    requires c <= p < |a| && IsMat(a0, |a|, width) && IsMat(a, |a|, width)
    requires SameSolutions(a0, a, c, width)
    ensures SameSolutions(Swap(a0, c, p), Swap(a, c, p), c, width)
  {
    hide AgreeAt;
    forall z: Vec | |z| == width ensures AgreeAt(Swap(a0, c, p), Swap(a, c, p), c, z) {
      SwapKeepsAt(a0, a, c, p, z);
    }
  }

  lemma EliminatedDots(a: Mat, b: Mat, c: nat, width: nat, z: Vec)
    requires Eliminated(a, b, c, width) && |z| == width
    ensures Dot(b[c], z) == 0.0 <==> Dot(a[c], z) == 0.0
    ensures Dot(b[c], z) == 0.0 ==> forall r :: 0 <= r < |a| ==> Dot(b[r], z) == Dot(a[r], z)
  {
    hide DotTo, DivRow, SubRow;
    DivRowDot(a[c], a[c][c], z, width);
    forall r | 0 <= r < |a| && r != c ensures Dot(b[r], z) == Dot(a[r], z) - a[r][c] * Dot(b[c], z) {
      SubRowDot(a[r], a[r][c], b[c], z, width);
    }
  }

  lemma EliminationKeepsAt(a0: Mat, a: Mat, b: Mat, c: nat, z: Vec)
    requires Eliminated(a, b, c, |z|) && IsMat(a0, |a|, |z|) && AgreeAt(a0, a, c, z)
    ensures AgreeAt(a0, b, c + 1, z)
  {
    EliminatedDots(a, b, c, |z|, z);
    if Kills(b, c + 1, z) {
      assert Dot(b[c], z) == 0.0;
      assert forall i :: 0 <= i < c ==> Dot(b[i], z) == Dot(a[i], z);
      assert Kills(a, c, z);
      assert Kills(a0, c + 1, z);
    }
    if Kills(a0, c + 1, z) {
      assert Kills(a0, c, z);
      assert Dot(a[c], z) == Dot(a0[c], z) == 0.0;
      assert Kills(b, c + 1, z);
    }
  }

  lemma EliminationKeeps(a0: Mat, a: Mat, b: Mat, c: nat, width: nat)
    requires Eliminated(a, b, c, width) && IsMat(a0, |a|, width)
    requires SameSolutions(a0, a, c, width)
    ensures SameSolutions(a0, b, c + 1, width)
  {
    hide AgreeAt;
    forall z: Vec | |z| == width ensures AgreeAt(a0, b, c + 1, z) {
      EliminationKeepsAt(a0, a, b, c, z);
    }
  }

  lemma EliminationUnitColumns(a: Mat, b: Mat, c: nat, width: nat)
    requires Eliminated(a, b, c, width) && UnitColumns(a, c, width)
    ensures UnitColumns(b, c + 1, width)
  {
    assert b[c][c] == 1.0;
    forall i, j | 0 <= i < |a| && 0 <= j < c + 1 ensures b[i][j] == if i == j then 1.0 else 0.0 {
      assert j < c ==> b[c][j] == 0.0 / a[c][c];
      if i != c { assert b[i][j] == a[i][j] - a[i][c] * b[c][j]; }
    }
  }

  // ---------- reading off the answer ----------

  lemma {:induction false} DotToConcat(p: Vec, q: Vec, x: Vec, y: Vec, k: nat)
    requires |p| == |x| && |q| == |y| && k <= |q|
    ensures DotTo(p + q, x + y, |p| + k) == Dot(p, x) + DotTo(q, y, k)
  {
    if k == 0 {
      DotToCongruence(p + q, x + y, p, x, |p|);
    } else {
      DotToConcat(p, q, x, y, k - 1);
    }
  }

  function Join(l: Mat, r: Mat): Mat
    requires |l| == |r|
  {
    seq(|l|, i requires 0 <= i < |l| => l[i] + r[i])
  }

  function Augmented(m: Mat): (r: Mat)
    requires IsMat(m, |m|, |m|)
    ensures IsMat(r, |m|, 2 * |m|)
  {
    Join(m, Identity(|m|))
  }

  /** Row i of [m | I] as the swaps so far have rearranged it. */
  function Origin(m: Mat, perm: seq<nat>): (r: Mat)
    requires IsMat(m, |m|, |m|) && Permutes(perm, |m|)
    ensures IsMat(r, |m|, 2 * |m|)
  {
    Permuted(Augmented(m), perm)
  }

  lemma JoinKills(l: Mat, r: Mat, x: Vec, y: Vec)
    requires IsMat(l, |l|, |x|) && IsMat(r, |l|, |y|) && |x| == |y|
    ensures Kills(Join(l, r), |l|, x + Scale(-1.0, y)) <==> MatVec(l, x) == MatVec(r, y)
  {
    var a, z := Join(l, r), x + Scale(-1.0, y);
    var p, q := MatVec(l, x), MatVec(r, y);
    forall i | 0 <= i < |l| ensures Dot(a[i], z) == p[i] - q[i] {
      DotToConcat(l[i], r[i], x, Scale(-1.0, y), |y|);
      DotScale(r[i], -1.0, y);
    }
  }

  lemma IdentityVec(y: Vec)
    ensures MatVec(Identity(|y|), y) == y
  {
    forall i | 0 <= i < |y| ensures MatVec(Identity(|y|), y)[i] == y[i] { DotUnit(y, i); }
  }

  lemma PermutedKills(a: Mat, perm: seq<nat>, z: Vec)
    requires IsMat(a, |a|, |z|) && Permutes(perm, |a|)
    ensures Kills(Permuted(a, perm), |a|, z) <==> Kills(a, |a|, z)
  {
    var b := Permuted(a, perm);
    if Kills(b, |a|, z) {
      forall i | 0 <= i < |a| ensures Dot(a[i], z) == 0.0 {
        assert i in perm;
        var r :| 0 <= r < |perm| && perm[r] == i;
        assert b[r] == a[i];
      }
    }
  }

  /** Reduced to [I | inv], the augmented rows say x = inv y exactly when m x = y. */
  lemma ReducedSolves(m: Mat, perm: seq<nat>, inv: Mat, x: Vec, y: Vec)
    requires IsMat(m, |m|, |m|) && IsMat(inv, |m|, |m|) && Permutes(perm, |m|)
    requires SameSolutions(Origin(m, perm), Join(Identity(|m|), inv), |m|, 2 * |m|)
    requires |x| == |y| == |m|
    ensures MatVec(m, x) == y <==> x == MatVec(inv, y)
  {
    PermutedKills(Augmented(m), perm, x + Scale(-1.0, y));
    JoinKills(m, Identity(|m|), x, y);
    JoinKills(Identity(|m|), inv, x, y);
    IdentityVec(x);
    IdentityVec(y);
  }

  lemma ReducedIsInverse(m: Mat, perm: seq<nat>, inv: Mat)
    requires IsMat(m, |m|, |m|) && IsMat(inv, |m|, |m|) && Permutes(perm, |m|)
    requires SameSolutions(Origin(m, perm), Join(Identity(|m|), inv), |m|, 2 * |m|)
    ensures IsInverse(m, inv)
  {
    forall x: Vec | |x| == |m| ensures MatVec(inv, MatVec(m, x)) == x {
      ReducedSolves(m, perm, inv, x, MatVec(m, x));
    }
    forall y: Vec | |y| == |m| ensures MatVec(m, MatVec(inv, y)) == y {
      ReducedSolves(m, perm, inv, MatVec(inv, y), y);
    }
  }

  /** The combination of the first `c` unit columns that cancels column `c`. */
  function Witness(a: Mat, c: nat, n: nat): Vec
    requires c < n == |a| && IsMat(a, n, 2 * n)
  {
    seq(n, i requires 0 <= i < n => if i < c then -a[i][c] else if i == c then 1.0 else 0.0)
  }

  lemma {:induction false} WitnessDot(a: Mat, c: nat, i: nat, k: nat)
    requires i < |a| && c < k <= |a| && IsMat(a, |a|, 2 * |a|) && UnitColumns(a, c, 2 * |a|)
    ensures DotTo(a[i], Witness(a, c, |a|), k) == if i < c then 0.0 else a[i][c]
  {
    var w := Witness(a, c, |a|);
    if k == c + 1 {
      WitnessPrefix(a, c, i, c);
    } else {
      WitnessDot(a, c, i, k - 1);
    }
  }

  lemma {:induction false} WitnessPrefix(a: Mat, c: nat, i: nat, k: nat)
    requires i < |a| && k <= c < |a| && IsMat(a, |a|, 2 * |a|) && UnitColumns(a, c, 2 * |a|)
    ensures DotTo(a[i], Witness(a, c, |a|), k) == if i < k then -a[i][c] else 0.0
  {
    if k > 0 { WitnessPrefix(a, c, i, k - 1); }
  }

  lemma PaddedDot(l: Vec, r: Vec, x: Vec)
    requires |l| == |x|
    ensures Dot(l + r, x + Zeros(|r|)) == Dot(l, x)
  {
    DotToConcat(l, r, x, Zeros(|r|), |r|);
    DotToZeros(r, Zeros(|r|), |r|);
  }

  lemma WitnessDots(a: Mat, c: nat, i: nat)
    requires i < |a| && c < |a| && IsMat(a, |a|, 2 * |a|) && UnitColumns(a, c, 2 * |a|)
    ensures Dot(a[i], Witness(a, c, |a|) + Zeros(|a|)) == if i < c then 0.0 else a[i][c]
  {
    var n, x := |a|, Witness(a, c, |a|);
    assert a[i] == a[i][..n] + a[i][n..];
    PaddedDot(a[i][..n], a[i][n..], x);
    DotToCongruence(a[i][..n], x, a[i], x, n);
    WitnessDot(a, c, i, n);
  }

  /** When no pivot reaches the threshold the input itself is near singular. */
  lemma SmallPivots(m: Mat, perm: seq<nat>, a: Mat, c: nat)
    requires IsMat(m, |m|, |m|) && c < |m| && Permutes(perm, |m|)
    requires IsMat(a, |m|, 2 * |m|) && UnitColumns(a, c, 2 * |m|)
    requires SameSolutions(Origin(m, perm), a, c, 2 * |m|)
    requires forall r :: c <= r < |m| ==> Abs(a[r][c]) < PIVOT_EPS
    ensures NearSingular(m)
  {
    var n := |m|;
    var x := Witness(a, c, n);
    var z := x + Zeros(n);
    var b0 := Origin(m, perm);
    forall i | 0 <= i < n ensures Dot(a[i], z) == if i < c then 0.0 else a[i][c] { WitnessDots(a, c, i); }
    assert Kills(a, c, z) && Kills(b0, c, z);
    forall i | 0 <= i < n ensures Abs(Dot(m[i], x)) < PIVOT_EPS {
      assert i in perm;
      var r :| 0 <= r < n && perm[r] == i;
      PaddedDot(m[i], Unit(n, i), x);
      assert b0[r] == m[i] + Unit(n, i);
      assert Dot(b0[r], z) == if r < c then 0.0 else Dot(a[r], z);
    }
    assert x[c] == 1.0 && Below(MatVec(m, x), PIVOT_EPS);
  }

  // ---------- the algorithm ----------

  ghost predicate Reducing(m: Mat, perm: seq<nat>, a: Mat, c: nat) {
    && IsMat(m, |m|, |m|) && IsMat(a, |m|, 2 * |m|) && c <= |m| && Permutes(perm, |m|)
    && UnitColumns(a, c, 2 * |m|)
    && SameSolutions(Origin(m, perm), a, c, 2 * |m|)
  }

  lemma SwapPermutes(perm: seq<nat>, n: nat, c: nat, p: nat)
    requires Permutes(perm, n) && c < n && p < n
    ensures Permutes(Swap(perm, c, p), n)
  {
    var perm' := Swap(perm, c, p);
    forall i | 0 <= i < n ensures i in perm' {
      assert i in perm;
      var r :| 0 <= r < n && perm[r] == i;
      assert perm'[if r == c then p else if r == p then c else r] == i;
    }
  }

  lemma SwapOrigin(m: Mat, perm: seq<nat>, c: nat, p: nat)
    requires IsMat(m, |m|, |m|) && Permutes(perm, |m|) && c < |m| && p < |m|
    ensures Permutes(Swap(perm, c, p), |m|)
    ensures Origin(m, Swap(perm, c, p)) == Swap(Origin(m, perm), c, p)
  {
    SwapPermutes(perm, |m|, c, p);
    var l, r := Origin(m, Swap(perm, c, p)), Swap(Origin(m, perm), c, p);
    forall i | 0 <= i < |m| ensures l[i] == r[i] {}
  }

  lemma ReducingSwap(m: Mat, perm: seq<nat>, a: Mat, c: nat, p: nat)
    requires Reducing(m, perm, a, c) && c <= p < |m|
    ensures Reducing(m, Swap(perm, c, p), Swap(a, c, p), c)
  {
    hide SameSolutions, UnitColumns, Permutes, DotTo;
    SwapOrigin(m, perm, c, p);
    SwapKeeps(Origin(m, perm), a, c, p, 2 * |m|);
    SwapUnitColumns(a, c, p, 2 * |m|);
  }

  lemma SwapUnitColumns(a: Mat, c: nat, p: nat, width: nat)
    requires IsMat(a, |a|, width) && c <= p < |a| && c <= width && UnitColumns(a, c, width)
    ensures UnitColumns(Swap(a, c, p), c, width)
  {
  }

  lemma ReducingStep(m: Mat, perm: seq<nat>, a: Mat, b: Mat, c: nat)
    requires Reducing(m, perm, a, c) && c < |m| && Eliminated(a, b, c, 2 * |m|)
    ensures Reducing(m, perm, b, c + 1)
  {
    EliminationKeeps(Origin(m, perm), a, b, c, 2 * |m|);
    EliminationUnitColumns(a, b, c, 2 * |m|);
  }

  /** The row at or below `col` whose entry in column `col` is largest in magnitude. */
  method FindPivot(aug: array<Vec>, col: nat) returns (pivot: nat, maxVal: real)
    requires col < aug.Length && forall i :: 0 <= i < aug.Length ==> col < |aug[i]|
    ensures col <= pivot < aug.Length && maxVal == Abs(aug[pivot][col])
    ensures forall r :: col <= r < aug.Length ==> Abs(aug[r][col]) <= maxVal
  {
    pivot, maxVal := col, Abs(aug[col][col]);
    for row := col + 1 to aug.Length
      invariant col <= pivot < aug.Length && maxVal == Abs(aug[pivot][col])
      invariant forall r :: col <= r < row ==> Abs(aug[r][col]) <= maxVal
    {
      var v := Abs(aug[row][col]);
      if v > maxVal {
        maxVal := v;
        pivot := row;
      }
    }
  }

  method NormalizeRow(aug: array<Vec>, col: nat)
    requires col < aug.Length && col < |aug[col]| && aug[col][col] != 0.0
    modifies aug
    ensures aug[..] == old(aug[..])[col := DivRow(old(aug[col]), old(aug[col][col]))]
  {
    var pivotVal := aug[col][col];
    for j := 0 to |aug[col]|
      invariant |aug[col]| == |old(aug[col])|
      invariant forall i :: 0 <= i < aug.Length && i != col ==> aug[i] == old(aug[i])
      invariant forall k :: 0 <= k < j ==> aug[col][k] == old(aug[col][k]) / pivotVal
      invariant forall k :: j <= k < |aug[col]| ==> aug[col][k] == old(aug[col][k])
    {
      aug[col] := aug[col][j := aug[col][j] / pivotVal];
    }
    assert aug[col] == DivRow(old(aug[col]), pivotVal);
  }

  method SubtractPivotRow(aug: array<Vec>, row: nat, col: nat, factor: real)
    requires row < aug.Length && col < aug.Length && row != col && |aug[row]| == |aug[col]|
    modifies aug
    ensures aug[..] == old(aug[..])[row := SubRow(old(aug[row]), factor, old(aug[col]))]
  {
    ghost var r0, p0 := aug[row], aug[col];
    for j := 0 to |aug[row]|
      invariant |aug[row]| == |r0|
      invariant forall i :: 0 <= i < aug.Length && i != row ==> aug[i] == old(aug[i])
      invariant forall k :: 0 <= k < j ==> aug[row][k] == SubRow(r0, factor, p0)[k]
      invariant forall k :: j <= k < |aug[row]| ==> aug[row][k] == r0[k]
    {
      aug[row] := aug[row][j := aug[row][j] - factor * aug[col][j]];
    }
    assert aug[row] == SubRow(r0, factor, p0);
  }

  /** Normalises the pivot row and clears the pivot column from all other rows. */
  method EliminateColumn(aug: array<Vec>, col: nat, ghost width: nat)
    requires col < aug.Length && col < width && IsMat(aug[..], aug.Length, width) && aug[col][col] != 0.0
    modifies aug
    ensures Eliminated(old(aug[..]), aug[..], col, width)
  {
    ghost var before := aug[..];
    NormalizeRow(aug, col);
    ghost var pivotRow := aug[col];
    assert aug[..] == before[col := DivRow(before[col], before[col][col])];
    for row := 0 to aug.Length
      invariant aug[col] == pivotRow
      invariant forall r :: 0 <= r < row && r != col ==> aug[r] == SubRow(before[r], before[r][col], pivotRow)
      invariant forall r :: row <= r < aug.Length && r != col ==> aug[r] == before[r]
    {
      if row == col { continue; }
      var factor := aug[row][col];
      if factor == 0.0 {
        assert aug[row] == SubRow(before[row], factor, pivotRow);
        continue;
      }
      ghost var now := aug[..];
      SubtractPivotRow(aug, row, col, factor);
      assert aug[..] == now[row := SubRow(now[row], factor, now[col])];
    }
  }

  lemma InitiallyReducing(m: Mat)
    requires IsMat(m, |m|, |m|)
    ensures Reducing(m, seq(|m|, i => i), Augmented(m), 0)
  {
    var perm: seq<nat> := seq(|m|, i => i);
    forall i | 0 <= i < |m| ensures i in perm { assert perm[i] == i; }
    assert Origin(m, perm) == Augmented(m);
  }

  method BuildAugmented(m: Mat) returns (aug: array<Vec>)
    requires IsMat(m, |m|, |m|)
    ensures fresh(aug) && aug.Length == |m| && aug[..] == Augmented(m)
  {
    var n := |m|;
    aug := new Vec[n](i requires 0 <= i < n => m[i]);
    for i := 0 to n
      invariant forall k :: 0 <= k < i ==> aug[k] == m[k] + Unit(n, k)
      invariant forall k :: i <= k < n ==> aug[k] == m[k]
    {
      var resized := aug[i] + Zeros(n);
      aug[i] := resized[n + i := 1.0];
      assert aug[i] == m[i] + Unit(n, i);
    }
  }

  /** One pass of the outer loop: swap the pivot row up, normalise it, clear its column. */
  method PivotColumn(aug: array<Vec>, ghost m: Mat, ghost perm: seq<nat>, col: nat, pivot: nat)
    returns (ghost perm': seq<nat>)
    requires Reducing(m, perm, aug[..], col) && col <= pivot < aug.Length == |m| && aug[pivot][col] != 0.0
    modifies aug
    ensures Reducing(m, perm', aug[..], col + 1)
  {
    ghost var before := aug[..];
    if pivot != col {
      aug[col], aug[pivot] := aug[pivot], aug[col];
    }
    ghost var swapped := aug[..];
    perm' := Swap(perm, col, pivot);
    assert swapped == Swap(before, col, pivot);
    ReducingSwap(m, perm, before, col, pivot);
    EliminateColumn(aug, col, 2 * aug.Length);
    ReducingStep(m, perm', swapped, aug[..], col);
  }

  /** Copies the right block out of the reduced rows. */
  method ReadInverse(aug: array<Vec>, ghost m: Mat, ghost perm: seq<nat>) returns (inv: Mat)
    requires Reducing(m, perm, aug[..], |m|) && aug.Length == |m|
    ensures IsMat(inv, |m|, |m|) && aug[..] == Join(Identity(|m|), inv)
  {
    hide SameSolutions, DotTo;
    var n := aug.Length;
    inv := [];
    for i := 0 to n
      invariant |inv| == i && forall k :: 0 <= k < i ==> inv[k] == aug[k][n..]
    {
      inv := inv + [aug[i][n..]];
    }
    forall i | 0 <= i < n ensures aug[i] == Unit(n, i) + inv[i] {
      assert aug[i] == aug[i][..n] + inv[i];
      assert aug[i][..n] == Unit(n, i);
    }
  }

  method InvertSquare(m: Mat) returns (r: Result<Mat>)
    requires IsMat(m, |m|, |m|)
    ensures r.Success? ==> IsInverse(m, r.value)
    ensures r.Failure? ==> r.error == Internal("matrix is singular or near-singular") && NearSingular(m)
  {
    hide SameSolutions, UnitColumns, Permutes, Join, DotTo, IsInverse, NearSingular;
    var n := |m|;
    var aug := BuildAugmented(m);
    ghost var perm: seq<nat> := seq(n, i => i);
    InitiallyReducing(m);

    for col := 0 to n
      invariant Reducing(m, perm, aug[..], col)
    {
      var pivot, maxVal := FindPivot(aug, col);
      if maxVal < PIVOT_EPS {
        SmallPivots(m, perm, aug[..], col);
        return Failure(Internal("matrix is singular or near-singular"));
      }
      perm := PivotColumn(aug, m, perm, col, pivot);
    }

    var inv := ReadInverse(aug, m, perm);
    ReducedIsInverse(m, perm, inv);
    return Success(inv);
  }

  method MatInverse(m: Mat) returns (r: Result<Mat>)
    ensures m == [] ==> r == Failure(InvalidCommand("cannot invert empty matrix"))
    ensures m != [] && !IsMat(m, |m|, |m|) ==> r == Failure(InvalidCommand("matrix must be square"))
    ensures m != [] && IsMat(m, |m|, |m|) ==>
              if r.Success? then IsInverse(m, r.value)
              else r.error == Internal("matrix is singular or near-singular") && NearSingular(m)
    ensures Singular(m) ==> r.Failure?
  {
    var n := |m|;
    if n == 0 {
      return Failure(InvalidCommand("cannot invert empty matrix"));
    }
    for i := 0 to n
      invariant forall k :: 0 <= k < i ==> |m[k]| == n
    {
      if |m[i]| != n {
        return Failure(InvalidCommand("matrix must be square"));
      }
    }

    r := InvertSquare(m);
    if r.Success? { InvertibleNotSingular(m, r.value); }
  }

  // ---------- consequences ----------

  lemma ProductColumn(p: Mat, q: Mat, i: nat, j: nat)
    requires IsMat(p, |p|, |p|) && IsMat(q, |p|, |p|) && i < |p| && j < |p|
    requires MatVec(p, MatVec(q, Unit(|p|, j))) == Unit(|p|, j)
    ensures MatMul(p, q, |p|)[i][j] == Identity(|p|)[i][j]
  {
    hide DotTo;
    MatVecUnit(q, |p|, j);
    assert MatVec(p, Col(q, |p|, j))[i] == Dot(p[i], Col(q, |p|, j));
  }

  lemma ProductIdentity(p: Mat, q: Mat)
    requires IsMat(p, |p|, |p|) && IsMat(q, |p|, |p|) && Undoes(q, p)
    ensures MatMul(p, q, |p|) == Identity(|p|)
  {
    hide DotTo, MatVec;
    var n := |p|;
    var l, r := MatMul(p, q, n), Identity(n);
    forall i | 0 <= i < n ensures l[i] == r[i] {
      forall j | 0 <= j < n ensures l[i][j] == r[i][j] {
        assert MatVec(p, MatVec(q, Unit(n, j))) == Unit(n, j);
        ProductColumn(p, q, i, j);
      }
    }
  }

  /** The entry-wise reading: m * inv == I and inv * m == I. */
  lemma InverseProducts(m: Mat, inv: Mat)
    requires IsInverse(m, inv)
    ensures MatMul(m, inv, |m|) == Identity(|m|) && MatMul(inv, m, |m|) == Identity(|m|)
  {
    hide DotTo, MatVec, MatMul;
    ProductIdentity(m, inv);
    ProductIdentity(inv, m);
  }

  lemma MatVecDetermines(p: Mat, q: Mat, n: nat)
    requires IsMat(p, n, n) && IsMat(q, n, n)
    requires forall j :: 0 <= j < n ==> MatVec(p, Unit(n, j)) == MatVec(q, Unit(n, j))
    ensures p == q
  {
    hide DotTo, MatVec;
    forall i | 0 <= i < n ensures p[i] == q[i] {
      forall j | 0 <= j < n ensures p[i][j] == q[i][j] {
        MatVecUnit(p, n, j);
        MatVecUnit(q, n, j);
        assert Col(p, n, j)[i] == Col(q, n, j)[i];
      }
    }
  }

  lemma InverseUnique(m: Mat, p: Mat, q: Mat)
    requires IsInverse(m, p) && IsInverse(m, q)
    ensures p == q
  {
    hide DotTo, MatVec, Unit, Undoes;
    var n := |m|;
    forall j | 0 <= j < n ensures MatVec(p, Unit(n, j)) == MatVec(q, Unit(n, j)) {
      InverseAt(m, p, Unit(n, j));
      InverseAt(m, q, MatVec(p, Unit(n, j)));
    }
    MatVecDetermines(p, q, n);
  }

  /** An invertible matrix has no non-zero null vector, so MatInverse rejects every matrix with one. */
  lemma InverseKillsNullVectors(m: Mat, inv: Mat, x: Vec)
    requires IsInverse(m, inv) && |x| == |m| && MatVec(m, x) == Zeros(|m|)
    ensures x == Zeros(|m|)
  {
    hide Undoes, DotTo;
    InverseAt(m, inv, x);
    var y := MatVec(inv, Zeros(|m|));
    forall i | 0 <= i < |m| ensures y[i] == 0.0 {
      DotToZeros(inv[i], Zeros(|m|), |m|);
    }
    assert x == y;
  }

  lemma InvertibleNotSingular(m: Mat, inv: Mat)
    requires IsInverse(m, inv)
    ensures !Singular(m)
  {
    hide MatVec, Undoes;
    forall x: Vec | |x| == |m| && MatVec(m, x) == Zeros(|m|) ensures x == Zeros(|m|) {
      InverseKillsNullVectors(m, inv, x);
    }
  }
}
