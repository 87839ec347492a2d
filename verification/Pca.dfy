/** Principal component analysis on top of the Jacobi decomposition. */
module Pca {
  import opened Reals
  import opened LinearAlgebra
  import opened Arrangements
  import opened Outcome
  import opened Covariance
  import opened Moments
  import opened Jacobi
  import opened Spectrum

  datatype PcaResult = PcaResult(explainedRatio: Vec, loadings: Mat, factors: Mat)

  // ---------- sorting the eigenvalues ----------

  function Iota(n: nat): (r: seq<nat>)
    ensures |r| == n && forall i :: 0 <= i < n ==> r[i] == i
  {
    seq(n, i requires 0 <= i < n => i)
  }

  ghost predicate Descending(e: Vec, idx: seq<nat>)
    requires forall k :: 0 <= k < |idx| ==> idx[k] < |e|
  {
    forall j, k :: 0 <= j < k < |idx| ==> e[idx[j]] >= e[idx[k]]
  }

  /** The indices below i, arranged by falling key. */
  ghost predicate Arranged(e: Vec, idx: seq<nat>, i: nat) {
    && i <= |e| && |idx| == i && (forall k :: 0 <= k < |idx| ==> idx[k] < i)
    && multiset(idx) == multiset(Iota(i)) && Descending(e, idx)
  }

  lemma InsertionDescending(e: Vec, idx: seq<nat>, pos: nat, i: nat)
    requires pos <= |idx| && i < |e| && (forall k :: 0 <= k < |idx| ==> idx[k] < |e|) && Descending(e, idx)
    requires forall k :: 0 <= k < pos ==> e[idx[k]] >= e[i]
    requires pos < |idx| ==> e[idx[pos]] < e[i]
    ensures forall k :: 0 <= k <= |idx| ==> (idx[..pos] + [i] + idx[pos..])[k] < |e|
    ensures Descending(e, idx[..pos] + [i] + idx[pos..])
  {
  }

  lemma InsertionArranged(e: Vec, idx: seq<nat>, pos: nat, i: nat)
    requires Arranged(e, idx, i) && pos <= |idx| && i < |e|
    requires forall k :: 0 <= k < pos ==> e[idx[k]] >= e[i]
    requires pos < |idx| ==> e[idx[pos]] < e[i]
    ensures Arranged(e, idx[..pos] + [i] + idx[pos..], i + 1)
  {
    hide Iota, Descending;
    OneInserted(idx, i, pos);
    InsertionDescending(e, idx, pos, i);
    assert Iota(i + 1) == Iota(i) + [i];
  }

  /** Some arrangement of all indices with non-increasing keys. */
  method SortDescending(e: Vec) returns (idx: seq<nat>)
    ensures |idx| == |e| && forall k :: 0 <= k < |idx| ==> idx[k] < |e|
    ensures multiset(idx) == multiset(Iota(|e|))
    ensures Descending(e, idx)
  {
    hide Iota, Descending;
    idx := [];
    NothingArranged(e);
    for i := 0 to |e|
      invariant Arranged(e, idx, i)
    {
      var pos := 0;
      while pos < |idx| && e[idx[pos]] >= e[i]
        invariant 0 <= pos <= |idx| && forall k :: 0 <= k < pos ==> e[idx[k]] >= e[i]
      {
        pos := pos + 1;
      }
      InsertionArranged(e, idx, pos, i);
      idx := idx[..pos] + [i] + idx[pos..];
    }
  }

  lemma NothingArranged(e: Vec)
    ensures Arranged(e, [], 0)
  {
  }

  function SumOver(e: Vec, idx: seq<nat>): real
    requires forall k :: 0 <= k < |idx| ==> idx[k] < |e|
  {
    if |idx| == 0 then 0.0 else SumOver(e, idx[..|idx| - 1]) + e[idx[|idx| - 1]]
  }

  lemma {:induction false} SumOverRemove(e: Vec, idx: seq<nat>, j: nat)
    requires (forall k :: 0 <= k < |idx| ==> idx[k] < |e|) && j < |idx|
    ensures SumOver(e, idx) == SumOver(e, idx[..j] + idx[j + 1..]) + e[idx[j]]
  {
    var last := |idx| - 1;
    if j == last {
      assert idx[..j] + idx[j + 1..] == idx[..last];
    } else {
      SumOverRemove(e, idx[..last], j);
      var rest := idx[..j] + idx[j + 1..];
      assert rest[..|rest| - 1] == idx[..last][..j] + idx[..last][j + 1..];
    }
  }

  lemma {:induction false} SumOverMultiset(e: Vec, a: seq<nat>, b: seq<nat>)
    requires (forall k :: 0 <= k < |a| ==> a[k] < |e|) && (forall k :: 0 <= k < |b| ==> b[k] < |e|)
    requires multiset(a) == multiset(b)
    ensures SumOver(e, a) == SumOver(e, b)
  {
    SameLength(a, b);
    if |a| > 0 {
      var j := FindLast(a, b);
      SumOverMultiset(e, a[..|a| - 1], b[..j] + b[j + 1..]);
      SumOverRemove(e, b, j);
    }
  }

  lemma {:induction false} SumOverIota(e: Vec, n: nat)
    requires n <= |e|
    ensures SumOver(e, Iota(n)) == SumTo(e, n)
  {
    if n > 0 {
      SumOverIota(e, n - 1);
      assert Iota(n)[..n - 1] == Iota(n - 1);
    }
  }

  lemma {:induction false} SumOverIsSum(e: Vec, idx: seq<nat>, v: Vec, k: nat)
    requires |v| == |idx| && k <= |idx| && (forall i :: 0 <= i < |idx| ==> idx[i] < |e|)
    requires forall i :: 0 <= i < |idx| ==> v[i] == e[idx[i]]
    ensures SumTo(v, k) == SumOver(e, idx[..k])
  {
    if k > 0 {
      SumOverIsSum(e, idx, v, k - 1);
      assert idx[..k][..k - 1] == idx[..k - 1];
    }
  }

  // ---------- one component ----------

  /** The entry of largest magnitude is not negative. */
  ghost predicate SignConvention(loading: Vec) {
    exists pivot :: 0 <= pivot < |loading| && loading[pivot] >= 0.0
                    && forall i :: 0 <= i < |loading| ==> Abs(loading[i]) <= loading[pivot]
  }

  method Loading(vectors: Mat, n: nat, idx: nat) returns (loading: Vec, ghost sign: real)
    requires IsMat(vectors, n, n) && idx < n
    ensures loading == Scale(sign, Col(vectors, n, idx)) && (sign == 1.0 || sign == -1.0)
    ensures SignConvention(loading)
  {
    loading := [];
    for i := 0 to n
      invariant |loading| == i && forall k :: 0 <= k < i ==> loading[k] == vectors[k][idx]
    {
      loading := loading + [vectors[i][idx]];
    }
    assert loading == Col(vectors, n, idx);
    var pivot := 0;
    for i := 1 to n
      invariant 0 <= pivot < n && forall k :: 0 <= k < i ==> Abs(loading[k]) <= Abs(loading[pivot])
    {
      if Abs(loading[i]) > Abs(loading[pivot]) {
        pivot := i;
      }
    }
    sign := 1.0;
    if loading[pivot] < 0.0 {
      ghost var before := loading;
      for i := 0 to n
        invariant |loading| == n && forall k :: 0 <= k < n ==> loading[k] == if k < i then -before[k] else before[k]
      {
        loading := loading[i := -loading[i]];
      }
      sign := -1.0;
      forall k | 0 <= k < n ensures loading[k] == Scale(-1.0, before)[k] {}
    } else {
      forall k | 0 <= k < n ensures loading[k] == Scale(1.0, Col(vectors, n, idx))[k] {}
    }
    assert loading == Scale(sign, Col(vectors, n, idx));
    assert loading[pivot] >= 0.0;
  }

  method FactorReturns(loading: Vec, centered: Mat, obs: nat) returns (factor: Vec)
    requires IsMat(centered, |loading|, obs)
    ensures factor == Comb(centered, loading, obs)
  {
    factor := [];
    for t := 0 to obs
      invariant |factor| == t && forall k :: 0 <= k < t ==> factor[k] == Comb(centered, loading, obs)[k]
    {
      var acc := 0.0;
      for i := 0 to |loading|
        invariant acc == DotTo(loading, Col(centered, obs, t), i)
      {
        acc := acc + loading[i] * centered[i][t];
      }
      CombEntry(centered, loading, obs, t);
      factor := factor + [acc];
    }
  }

  // ---------- the components together ----------

  /** Each loading is plus or minus the matching eigenvector column. */
  ghost predicate SignedColumns(vectors: Mat, n: nat, idx: seq<nat>, signs: Vec, loadings: Mat)
    requires IsMat(vectors, n, n)
  {
    && |signs| == |loadings| <= |idx| == n && (forall k :: 0 <= k < n ==> idx[k] < n)
    && forall k :: 0 <= k < |loadings| ==>
         (signs[k] == 1.0 || signs[k] == -1.0) && loadings[k] == Scale(signs[k], Col(vectors, n, idx[k]))
  }

  lemma SignedBilinear(m: Mat, x: Vec, y: Vec, g: real, h: real)
    requires IsMat(m, |x|, |y|)
    ensures Bilinear(m, Scale(g, x), Scale(h, y)) == g * h * Bilinear(m, x, y)
  {
    hide DotTo, MatVec;
    var sx, sy := Scale(g, x), Scale(h, y);
    MatVecScale(m, h, y);
    DotScale(sx, h, MatVec(m, y));
    DotComm(sx, MatVec(m, y));
    DotScale(MatVec(m, y), g, x);
    DotComm(MatVec(m, y), x);
    assert h * (g * Bilinear(m, x, y)) == g * h * Bilinear(m, x, y);
  }

  lemma SignedDot(x: Vec, y: Vec, g: real, h: real)
    requires |x| == |y|
    ensures Dot(Scale(g, x), Scale(h, y)) == g * h * Dot(x, y)
  {
    hide DotTo;
    DotScale(Scale(g, x), h, y);
    DotComm(Scale(g, x), y);
    DotScale(y, g, x);
    DotComm(x, y);
    assert h * (g * Dot(x, y)) == g * h * Dot(x, y);
  }

  lemma DistinctIndices(idx: seq<nat>, n: nat, j: nat, k: nat)
    requires |idx| == n && multiset(idx) == multiset(Iota(n)) && j < k < n
    ensures idx[j] != idx[k]
  {
    if idx[j] == idx[k] {
      var x := idx[j];
      assert idx == idx[..j] + [x] + idx[j + 1..k] + [x] + idx[k + 1..];
      assert multiset(idx)[x] >= 2;
      IotaOnce(n, x);
    }
  }

  lemma {:induction false} IotaOnce(n: nat, x: nat)
    ensures multiset(Iota(n))[x] <= 1 && (x >= n ==> multiset(Iota(n))[x] == 0)
  {
    if n > 0 {
      IotaOnce(n - 1, x);
      assert Iota(n) == Iota(n - 1) + [n - 1];
    }
  }

  // ---------- the analysis ----------

  /** The covariance maps x to its variance times x, up to the residual. */
  ghost predicate NearEigenvector(cov: Mat, x: Vec, residual: real)
    requires IsMat(cov, |cov|, |cov|) && |x| == |cov|
  {
    var r := EigenResidual(cov, x, Quad(cov, x));
    Dot(r, r) <= residual
  }

  /** No unit vector orthogonal to the earlier loadings has more variance than loading k, up to the residual. */
  ghost predicate NearlyMaximal(cov: Mat, loadings: Mat, k: nat, residual: real)
    requires IsMat(cov, |cov|, |cov|) && IsMat(loadings, |loadings|, |cov|) && k < |loadings|
  {
    forall x: Vec :: |x| == |cov| && Dot(x, x) == 1.0 && (forall j :: 0 <= j < k ==> Dot(loadings[j], x) == 0.0) ==>
      Quad(cov, x) <= Quad(cov, loadings[k]) || Squared(Quad(cov, x) - Quad(cov, loadings[k])) <= 2.0 * residual
  }

  function Squared(x: real): real { x * x }

  ghost predicate Shaped(cov: Mat, centered: Mat, obs: nat, r: PcaResult, count: nat) {
    && IsMat(cov, |cov|, |cov|) && IsMat(centered, |cov|, obs) && obs >= 2
    && |r.explainedRatio| == count && IsMat(r.loadings, count, |cov|) && IsMat(r.factors, count, obs)
  }

  /** Component k: its loading, its factor returns and the share of the variance it explains. */
  ghost predicate IsComponent(cov: Mat, centered: Mat, obs: nat, r: PcaResult, count: nat, k: nat, residual: real)
    requires Shaped(cov, centered, obs, r, count) && k < count
  {
    && SignConvention(r.loadings[k]) && r.factors[k] == Comb(centered, r.loadings[k], obs)
    && SampleVariance(r.factors[k]) == Quad(cov, r.loadings[k]) >= 0.0
    && r.explainedRatio[k] == (if Trace(cov) > 0.0 then Quad(cov, r.loadings[k]) / Trace(cov) else 0.0)
    && NearEigenvector(cov, r.loadings[k], residual) && NearlyMaximal(cov, r.loadings, k, residual)
  }

  /** Loadings are orthonormal, uncorrelated up to the residual, and come by falling variance. */
  ghost predicate Paired(cov: Mat, x: Vec, y: Vec, j: nat, k: nat, residual: real)
    requires IsMat(cov, |cov|, |cov|) && |x| == |y| == |cov|
  {
    && Dot(x, y) == (if j == k then 1.0 else 0.0)
    && (j < k ==> Quad(cov, x) >= Quad(cov, y) && Squared(Bilinear(cov, x, y)) <= residual)
  }

  /** What the components promise at any stopping point of the iteration, with `residual` off-diagonal mass left. */
  ghost predicate Components(cov: Mat, centered: Mat, obs: nat, r: PcaResult, count: nat, residual: real) {
    && Shaped(cov, centered, obs, r, count)
    && (forall k :: 0 <= k < count ==> IsComponent(cov, centered, obs, r, count, k, residual))
    && (forall j, k :: 0 <= j < count && 0 <= k < count ==>
          Paired(cov, r.loadings[j], r.loadings[k], j, k, residual))
    && (count == |cov| && Trace(cov) > 0.0 ==> Sum(r.explainedRatio) == 1.0)
  }

  /** How much off-diagonal mass `sweeps` sweeps leave: none to speak of when they stop early or for two series, less
      than there was otherwise, by the square of the first covariance at the least. */
  ghost predicate Iterated(cov: Mat, residual: real, sweeps: nat)
    requires IsMat(cov, |cov|, |cov|)
  {
    && sweeps <= 100 && (sweeps < 100 ==> residual < 1e-30) && (sweeps == 0 <==> Off(cov) < 1e-30)
    && residual <= Off(cov) && (|cov| == 2 ==> residual < 1e-30)
    && (Off(cov) >= 1e-30 && |cov| <= 1000000 ==> residual < Off(cov))
    && (Off(cov) >= 1e-30 && |cov| >= 2 && Abs(cov[0][1]) >= 1e-15 ==> residual <= Off(cov) - cov[0][1] * cov[0][1])
  }

  lemma ProgressIterated(cov: Mat, rotated: Mat, sweeps: nat)
    requires IsMat(cov, |cov|, |cov|) && IsMat(rotated, |cov|, |cov|) && Progress(cov, rotated, sweeps)
    ensures Iterated(cov, Off(rotated), sweeps)
  {
    hide Off;
  }

  predicate ValidPca(rets: Mat, components: int) {
    0 < components <= |rets| && |rets[0]| >= 2 && IsMat(rets, |rets|, |rets[0]|)
  }

  /** The analysis. `sweeps` and `residual` say how far the iteration got. */
  method Analyse(rets: Mat, components: int, sqrt: real -> real)
    returns (r: Result<PcaResult>, ghost sweeps: nat, ghost residual: real)
    requires IsSqrt(sqrt)
    ensures r.Success? <==> ValidPca(rets, components)
    ensures r.Failure? ==> r.error.DataQuality?
    ensures r.Success? ==>
              var obs := |rets[0]|; var centered := Centered(rets, obs); var cov := SampleCov(centered, obs);
              && Components(cov, centered, obs, r.value, components, residual)
              && Iterated(cov, residual, sweeps)
  {
    hide Components, SampleCov, Centered, Off, Iterated;
    sweeps, residual := 0, 0.0;
    if |rets| == 0 {
      return Failure(DataQuality("returns matrix must contain at least one series")), 0, 0.0;
    }
    if components <= 0 || components > |rets| {
      return Failure(DataQuality("n_components out of range")), 0, 0.0;
    }
    var obs := |rets[0]|;
    if obs < 2 {
      return Failure(DataQuality("each return series must contain at least two observations")), 0, 0.0;
    }
    for i := 0 to |rets|
      invariant forall k :: 0 <= k < i ==> |rets[k]| == obs
    {
      if |rets[i]| != obs {
        return Failure(DataQuality("series lengths differ")), 0, 0.0;
      }
    }
    var result;
    result, sweeps, residual := AnalyseValid(rets, obs, components, sqrt);
    return Success(result), sweeps, residual;
  }

  method AnalyseValid(rets: Mat, obs: nat, count: nat, sqrt: real -> real)
    returns (r: PcaResult, ghost sweeps: nat, ghost residual: real)
    requires IsSqrt(sqrt) && 0 < count <= |rets| && obs >= 2 && IsMat(rets, |rets|, obs)
    ensures var centered := Centered(rets, obs); var cov := SampleCov(centered, obs);
            && Components(cov, centered, obs, r, count, residual)
            && Iterated(cov, residual, sweeps)
  {
    hide Components, SampleCov, Centered, Off, Orthonormal, OrthonormalRows, Pairs, Trace, IsSqrt, SymmetricEntries,
         SignedColumns, Descending, SignConvention, DotTo, MatVec, Quad, Bilinear, Progress, Iterated;
    var n := |rets|;
    var means := ComputeMeans(rets);
    var centered := CenterReturns(rets, means);
    var covArray := SampleCovariance(centered);
    var cov := ToMat(covArray);
    assert cov == SampleCov(centered, obs) by {
      forall i | 0 <= i < n ensures cov[i] == SampleCov(centered, obs)[i] {}
    }
    SampleCovSymmetric(centered, obs);
    var eigenvalues, vectors, rotated, sw := JacobiEigen(cov, sqrt);
    var idx := SortDescending(eigenvalues);
    var total := SumOf(eigenvalues);
    ghost var signs: Vec;
    r, signs := BuildComponents(vectors, eigenvalues, idx, total, centered, obs, count);
    sweeps, residual := sw, Off(rotated);
    DecomposesShape(cov, rotated, vectors);
    ProgressIterated(cov, rotated, sw);
    ComponentsHold(rets, obs, rotated, vectors, eigenvalues, idx, signs, r, count);
  }

  /** One pass of the component loop per requested component. */
  method BuildComponents(vectors: Mat, eigenvalues: Vec, idx: seq<nat>, total: real, centered: Mat, obs: nat,
                         count: nat)
    returns (r: PcaResult, ghost signs: Vec)
    requires IsMat(vectors, |eigenvalues|, |eigenvalues|) && IsMat(centered, |eigenvalues|, obs)
    requires |idx| == |eigenvalues| && count <= |idx| && forall k :: 0 <= k < |idx| ==> idx[k] < |eigenvalues|
    ensures |r.explainedRatio| == |r.loadings| == |r.factors| == count
    ensures SignedColumns(vectors, |eigenvalues|, idx, signs, r.loadings)
    ensures forall k :: 0 <= k < count ==>
              && SignConvention(r.loadings[k]) && r.factors[k] == Comb(centered, r.loadings[k], obs)
              && r.explainedRatio[k] == if total > 0.0 then Max(0.0, eigenvalues[idx[k]]) / total else 0.0
  {
    hide SignConvention, CombTo;
    var n := |eigenvalues|;
    var ratios: Vec, loadings: Mat, factors: Mat := [], [], [];
    signs := [];
    for k := 0 to count
      invariant |ratios| == |loadings| == |factors| == k
      invariant SignedColumns(vectors, n, idx, signs, loadings)
      invariant forall j :: 0 <= j < k ==>
                  && SignConvention(loadings[j]) && factors[j] == Comb(centered, loadings[j], obs)
                  && ratios[j] == if total > 0.0 then Max(0.0, eigenvalues[idx[j]]) / total else 0.0
    {
      var lambda := Max(0.0, eigenvalues[idx[k]]);
      ratios := ratios + [if total > 0.0 then lambda / total else 0.0];
      var loading, sign := Loading(vectors, n, idx[k]);
      var factor := FactorReturns(loading, centered, obs);
      loadings := loadings + [loading];
      factors := factors + [factor];
      signs := signs + [sign];
    }
    r := PcaResult(ratios, loadings, factors);
  }

  // ---------- why the promises hold ----------

  lemma SignSquares(g: real, h: real, b: real, m: real)
    requires (g == 1.0 || g == -1.0) && (h == 1.0 || h == -1.0) && m == g * h * b
    ensures m * m == b * b && (g == h ==> m == b)
  {
  }

  /** Pairing of two loadings in the covariance and in the plain inner product, through the rotated matrix. */
  lemma LoadingPair(cov: Mat, rotated: Mat, vectors: Mat, idx: seq<nat>, signs: Vec, loadings: Mat, j: nat, k: nat)
    requires Decomposes(cov, rotated, vectors) && SignedColumns(vectors, |cov|, idx, signs, loadings)
    requires j < |loadings| && k < |loadings| && multiset(idx) == multiset(Iota(|cov|))
    ensures |loadings[j]| == |loadings[k]| == |cov|
    ensures Dot(loadings[j], loadings[k]) == if j == k then 1.0 else 0.0
    ensures Bilinear(cov, loadings[j], loadings[k]) * Bilinear(cov, loadings[j], loadings[k])
         == rotated[idx[j]][idx[k]] * rotated[idx[j]][idx[k]]
    ensures j == k ==> Bilinear(cov, loadings[j], loadings[k]) == rotated[idx[k]][idx[k]]
  {
    hide Off, Trace, OrthonormalRows, DotTo, MatVec, Scale, Bilinear, Col;
    var n := |cov|;
    var x, y := Col(vectors, n, idx[j]), Col(vectors, n, idx[k]);
    SignedBilinear(cov, x, y, signs[j], signs[k]);
    SignedDot(x, y, signs[j], signs[k]);
    SignSquares(signs[j], signs[k], Bilinear(cov, x, y), Bilinear(cov, loadings[j], loadings[k]));
    SignSquares(signs[j], signs[k], Dot(x, y), Dot(loadings[j], loadings[k]));
    if j < k { DistinctIndices(idx, n, j, k); }
    if k < j { DistinctIndices(idx, n, k, j); }
  }

  lemma LoadingNearEigenvector(cov: Mat, rotated: Mat, vectors: Mat, idx: seq<nat>, signs: Vec, loadings: Mat, k: nat)
    requires Symmetric(cov) && Decomposes(cov, rotated, vectors) && SignedColumns(vectors, |cov|, idx, signs, loadings)
    requires k < |loadings| && multiset(idx) == multiset(Iota(|cov|))
    ensures |loadings[k]| == |cov| && NearEigenvector(cov, loadings[k], Off(rotated))
  {
    hide Symmetric, Decomposes, DotTo, MatVec, Scale, Sub, Bilinear, Col, Off, EigenResidual;
    DecompositionFacts(cov, rotated, vectors);
    LoadingPair(cov, rotated, vectors, idx, signs, loadings, k, k);
    var x, g, lambda := Col(vectors, |cov|, idx[k]), signs[k], rotated[idx[k]][idx[k]];
    ColumnIsNearEigenvector(cov, rotated, vectors, idx[k]);
    var r := EigenResidual(cov, x, lambda);
    ResidualScales(cov, x, lambda, g);
    SignedDot(r, r, g, g);
    SignSquares(g, g, Dot(r, r), Dot(Scale(g, r), Scale(g, r)));
  }

  lemma ResidualScales(m: Mat, x: Vec, lambda: real, g: real)
    requires IsMat(m, |m|, |m|) && |x| == |m|
    ensures EigenResidual(m, Scale(g, x), lambda) == Scale(g, EigenResidual(m, x, lambda))
  {
    hide MatVec;
    MatVecScale(m, g, x);
    var y, l, r := MatVec(m, x), EigenResidual(m, Scale(g, x), lambda), Scale(g, EigenResidual(m, x, lambda));
    forall i | 0 <= i < |m| ensures l[i] == r[i] {
      assert l[i] == g * y[i] + -1.0 * (lambda * (g * x[i]));
      assert r[i] == g * (y[i] + -1.0 * (lambda * x[i]));
    }
  }

  lemma LoadingNearlyMaximal(cov: Mat, rotated: Mat, vectors: Mat, idx: seq<nat>, signs: Vec, loadings: Mat, k: nat)
    requires Symmetric(cov) && Decomposes(cov, rotated, vectors) && SignedColumns(vectors, |cov|, idx, signs, loadings)
    requires IsMat(loadings, |loadings|, |cov|) && IsMat(rotated, |cov|, |cov|) && Descending(Diagonal(rotated), idx)
    requires k < |loadings| && multiset(idx) == multiset(Iota(|cov|))
    ensures NearlyMaximal(cov, loadings, k, Off(rotated))
  {
    hide Symmetric, Decomposes, DotTo, MatVec, Scale, Bilinear, Dot, Off, Descending, Col, Diagonal, SignedColumns,
         Orthonormal, OrthonormalRows, Squared;
    DecompositionFacts(cov, rotated, vectors);
    LoadingPair(cov, rotated, vectors, idx, signs, loadings, k, k);
    forall x: Vec | |x| == |cov| && Dot(x, x) == 1.0 && (forall j :: 0 <= j < k ==> Dot(loadings[j], x) == 0.0)
      ensures Quad(cov, x) <= Quad(cov, loadings[k])
              || Squared(Quad(cov, x) - Quad(cov, loadings[k])) <= 2.0 * Off(rotated)
    {
      OrthogonalVariance(cov, rotated, vectors, idx, signs, loadings, k, x);
    }
  }

  lemma OrthogonalVariance(cov: Mat, rotated: Mat, vectors: Mat, idx: seq<nat>, signs: Vec, loadings: Mat, k: nat,
                           x: Vec)
    requires Symmetric(cov) && Decomposes(cov, rotated, vectors) && SignedColumns(vectors, |cov|, idx, signs, loadings)
    requires IsMat(loadings, |loadings|, |cov|) && IsMat(rotated, |cov|, |cov|) && Descending(Diagonal(rotated), idx)
    requires k < |loadings| && multiset(idx) == multiset(Iota(|cov|))
    requires |x| == |cov| && Dot(x, x) == 1.0 && forall j :: 0 <= j < k ==> Dot(loadings[j], x) == 0.0
    ensures var lambda := rotated[idx[k]][idx[k]];
            Quad(cov, x) <= lambda || Squared(Quad(cov, x) - lambda) <= 2.0 * Off(rotated)
  {
    hide Symmetric, Decomposes, DotTo, MatVec, Scale, Bilinear, Quad, Dot, Off, Descending, Col, Diagonal, Orthonormal,
         OrthonormalRows;
    DecompositionFacts(cov, rotated, vectors);
    var n, lambda := |cov|, rotated[idx[k]][idx[k]];
    forall i | 0 <= i < n ensures Dot(Col(vectors, n, i), x) == 0.0 || rotated[i][i] <= lambda {
      var at := Position(idx, n, i);
      if at < k {
        SignedOrthogonal(Col(vectors, n, i), x, signs[at]);
      } else {
        DescendingAt(rotated, idx, k, at);
      }
    }
    VarianceBounded(cov, rotated, vectors, lambda, x);
  }

  lemma SignedOrthogonal(c: Vec, x: Vec, g: real)
    requires |c| == |x| && (g == 1.0 || g == -1.0) && Dot(Scale(g, c), x) == 0.0
    ensures Dot(c, x) == 0.0
  {
    hide DotTo, Scale;
    DotComm(Scale(g, c), x);
    DotScale(x, g, c);
    DotComm(x, c);
  }

  lemma DescendingAt(rotated: Mat, idx: seq<nat>, j: nat, k: nat)
    requires IsMat(rotated, |rotated|, |rotated|) && (forall i :: 0 <= i < |idx| ==> idx[i] < |rotated|)
    requires Descending(Diagonal(rotated), idx) && j <= k < |idx|
    ensures rotated[idx[k]][idx[k]] <= rotated[idx[j]][idx[j]]
  {
  }

  /** Where index i stands in an arrangement of all indices. */
  lemma Position(idx: seq<nat>, n: nat, i: nat) returns (at: nat)
    requires multiset(idx) == multiset(Iota(n)) && i < n
    ensures at < |idx| && idx[at] == i
  {
    assert Iota(n)[i] == i && i in multiset(Iota(n));
    assert i in multiset(idx);
    at :| at < |idx| && idx[at] == i;
  }

  /** What the loops of the analysis have built from a decomposition. */
  ghost predicate Built(rets: Mat, obs: nat, rotated: Mat, vectors: Mat, eigenvalues: Vec, idx: seq<nat>, signs: Vec,
                        r: PcaResult, count: nat)
    requires 0 < count <= |rets| && obs >= 2 && IsMat(rets, |rets|, obs)
  {
    var cov := SampleCov(Centered(rets, obs), obs);
    && Symmetric(cov) && Decomposes(cov, rotated, vectors) && eigenvalues == Diagonal(rotated)
    && SignedColumns(vectors, |rets|, idx, signs, r.loadings)
    && |idx| == |rets| && (forall k :: 0 <= k < |idx| ==> idx[k] < |rets|)
    && multiset(idx) == multiset(Iota(|rets|)) && Descending(eigenvalues, idx)
    && |r.explainedRatio| == |r.loadings| == |r.factors| == count
    && (forall k :: 0 <= k < count ==>
          && SignConvention(r.loadings[k]) && r.factors[k] == Comb(Centered(rets, obs), r.loadings[k], obs)
          && r.explainedRatio[k] == if Sum(eigenvalues) > 0.0 then Max(0.0, eigenvalues[idx[k]]) / Sum(eigenvalues)
            else 0.0)
  }

  lemma BuiltShape(rets: Mat, obs: nat, rotated: Mat, vectors: Mat, eigenvalues: Vec, idx: seq<nat>, signs: Vec,
                   r: PcaResult, count: nat)
    requires 0 < count <= |rets| && obs >= 2 && IsMat(rets, |rets|, obs)
    requires Built(rets, obs, rotated, vectors, eigenvalues, idx, signs, r, count)
    ensures Shaped(SampleCov(Centered(rets, obs), obs), Centered(rets, obs), obs, r, count)
    ensures IsMat(rotated, |rets|, |rets|) && Trace(SampleCov(Centered(rets, obs), obs)) == Sum(eigenvalues)
  {
    hide SampleCov, Centered, Off, Orthonormal, OrthonormalRows, SumTo, SignConvention, DotTo, MatVec, Pairs, Trace;
    DecompositionFacts(SampleCov(Centered(rets, obs), obs), rotated, vectors);
  }

  lemma LoadingVariance(rets: Mat, obs: nat, rotated: Mat, vectors: Mat, eigenvalues: Vec, idx: seq<nat>, signs: Vec,
                        r: PcaResult, count: nat, k: nat)
    requires 0 < count <= |rets| && obs >= 2 && IsMat(rets, |rets|, obs) && k < count
    requires Built(rets, obs, rotated, vectors, eigenvalues, idx, signs, r, count)
    ensures var cov := SampleCov(Centered(rets, obs), obs);
            |r.loadings[k]| == |cov| && Quad(cov, r.loadings[k]) == eigenvalues[idx[k]] >= 0.0
            && SampleVariance(r.factors[k]) == Quad(cov, r.loadings[k])
  {
    hide SampleCov, Centered, Off, Orthonormal, OrthonormalRows, Pairs, SumTo, SignConvention, DotTo, MatVec, Bilinear,
         CombTo, SampleVariance, SumOver;
    DecomposesShape(SampleCov(Centered(rets, obs), obs), rotated, vectors);
    LoadingPair(SampleCov(Centered(rets, obs), obs), rotated, vectors, idx, signs, r.loadings, k, k);
    SampleCovNonNegative(Centered(rets, obs), obs, r.loadings[k]);
    FactorVariance(rets, obs, r.loadings[k]);
  }

  lemma ComponentAt(rets: Mat, obs: nat, rotated: Mat, vectors: Mat, eigenvalues: Vec, idx: seq<nat>, signs: Vec,
                    r: PcaResult, count: nat, k: nat)
    requires 0 < count <= |rets| && obs >= 2 && IsMat(rets, |rets|, obs) && k < count
    requires Built(rets, obs, rotated, vectors, eigenvalues, idx, signs, r, count)
    requires Shaped(SampleCov(Centered(rets, obs), obs), Centered(rets, obs), obs, r, count)
    ensures IsComponent(SampleCov(Centered(rets, obs), obs), Centered(rets, obs), obs, r, count, k, Off(rotated))
  {
    hide SampleCov, Centered, Off, Orthonormal, OrthonormalRows, Pairs, SumTo, SignConvention, DotTo, MatVec, Bilinear,
         CombTo, SampleVariance, SumOver, NearEigenvector, NearlyMaximal, Quad, SignedColumns, Descending, Trace,
         Decomposes;
    var cov := SampleCov(Centered(rets, obs), obs);
    BuiltShape(rets, obs, rotated, vectors, eigenvalues, idx, signs, r, count);
    DecompositionFacts(cov, rotated, vectors);
    LoadingVariance(rets, obs, rotated, vectors, eigenvalues, idx, signs, r, count, k);
    LoadingNearEigenvector(cov, rotated, vectors, idx, signs, r.loadings, k);
    LoadingNearlyMaximal(cov, rotated, vectors, idx, signs, r.loadings, k);
  }

  lemma ComponentPair(rets: Mat, obs: nat, rotated: Mat, vectors: Mat, eigenvalues: Vec, idx: seq<nat>, signs: Vec,
                      r: PcaResult, count: nat, j: nat, k: nat)
    requires 0 < count <= |rets| && obs >= 2 && IsMat(rets, |rets|, obs) && j < count && k < count
    requires Built(rets, obs, rotated, vectors, eigenvalues, idx, signs, r, count)
    requires Shaped(SampleCov(Centered(rets, obs), obs), Centered(rets, obs), obs, r, count)
    ensures Paired(SampleCov(Centered(rets, obs), obs), r.loadings[j], r.loadings[k], j, k, Off(rotated))
  {
    hide SampleCov, Centered, Off, Orthonormal, OrthonormalRows, Pairs, SumTo, SignConvention, DotTo, MatVec, Bilinear,
         CombTo, SampleVariance, SumOver, Quad, Dot;
    var cov := SampleCov(Centered(rets, obs), obs);
    DecomposesShape(cov, rotated, vectors);
    LoadingPair(cov, rotated, vectors, idx, signs, r.loadings, j, k);
    if j < k {
      LoadingVariance(rets, obs, rotated, vectors, eigenvalues, idx, signs, r, count, j);
      LoadingVariance(rets, obs, rotated, vectors, eigenvalues, idx, signs, r, count, k);
      DistinctIndices(idx, |rets|, j, k);
      EntryBelowOff(rotated, idx[j], idx[k]);
    }
  }

  lemma ComponentsHold(rets: Mat, obs: nat, rotated: Mat, vectors: Mat, eigenvalues: Vec, idx: seq<nat>, signs: Vec,
                       r: PcaResult, count: nat)
    requires 0 < count <= |rets| && obs >= 2 && IsMat(rets, |rets|, obs)
    requires Built(rets, obs, rotated, vectors, eigenvalues, idx, signs, r, count)
    ensures Components(SampleCov(Centered(rets, obs), obs), Centered(rets, obs), obs, r, count, Off(rotated))
  {
    hide Built, Shaped, IsComponent, Paired, SampleCov, Centered, Off, SumTo, Trace;
    BuiltShape(rets, obs, rotated, vectors, eigenvalues, idx, signs, r, count);
    var centered := Centered(rets, obs);
    var cov := SampleCov(centered, obs);
    ShapeOf(cov, centered, obs, r, count);
    forall k | 0 <= k < count ensures IsComponent(cov, centered, obs, r, count, k, Off(rotated)) {
      ComponentAt(rets, obs, rotated, vectors, eigenvalues, idx, signs, r, count, k);
    }
    forall j, k | 0 <= j < count && 0 <= k < count
      ensures Paired(cov, r.loadings[j], r.loadings[k], j, k, Off(rotated))
    {
      ComponentPair(rets, obs, rotated, vectors, eigenvalues, idx, signs, r, count, j, k);
    }
    if count == |cov| && Trace(cov) > 0.0 {
      BuiltRatios(rets, obs, rotated, vectors, eigenvalues, idx, signs, r, count);
    }
  }

  lemma ShapeOf(cov: Mat, centered: Mat, obs: nat, r: PcaResult, count: nat)
    requires Shaped(cov, centered, obs, r, count)
    ensures IsMat(cov, |cov|, |cov|) && IsMat(centered, |cov|, obs) && obs >= 2
    ensures |r.explainedRatio| == count && IsMat(r.loadings, count, |cov|) && IsMat(r.factors, count, obs)
  {
  }

  lemma BuiltRatios(rets: Mat, obs: nat, rotated: Mat, vectors: Mat, eigenvalues: Vec, idx: seq<nat>, signs: Vec,
                    r: PcaResult, count: nat)
    requires 0 < count == |rets| && obs >= 2 && IsMat(rets, |rets|, obs)
    requires Built(rets, obs, rotated, vectors, eigenvalues, idx, signs, r, count) && Sum(eigenvalues) > 0.0
    ensures Sum(r.explainedRatio) == 1.0
  {
    hide SampleCov, Centered, Off, SumTo, SignConvention, SignedColumns, Decomposes, CombTo, SumOver, Descending;
    var cov := SampleCov(Centered(rets, obs), obs);
    DecomposesShape(cov, rotated, vectors);
    forall k | 0 <= k < count ensures eigenvalues[idx[k]] >= 0.0 {
      LoadingVariance(rets, obs, rotated, vectors, eigenvalues, idx, signs, r, count, k);
    }
    RatiosSumToOne(eigenvalues, idx, r.explainedRatio);
  }

  lemma RatiosSumToOne(e: Vec, idx: seq<nat>, ratios: Vec)
    requires |ratios| == |idx| == |e| && (forall k :: 0 <= k < |idx| ==> idx[k] < |e|)
    requires multiset(idx) == multiset(Iota(|e|)) && Sum(e) > 0.0
    requires forall k :: 0 <= k < |idx| ==> ratios[k] == Max(0.0, e[idx[k]]) / Sum(e) && e[idx[k]] >= 0.0
    ensures Sum(ratios) == 1.0
  {
    hide SumTo, SumOver;
    var total := Sum(e);
    var picked := seq(|idx|, k requires 0 <= k < |idx| => e[idx[k]]);
    SumOverMultiset(e, idx, Iota(|e|));
    SumOverIota(e, |e|);
    SumOverIsSum(e, idx, picked, |idx|);
    assert idx[..|idx|] == idx;
    var c := 1.0 / total;
    forall k | 0 <= k < |idx| ensures ratios[k] == Scale(c, picked)[k] {
      assert picked[k] / total == c * picked[k];
    }
    assert ratios == Scale(c, picked);
    SumScale(c, picked);
  }
}
