/** Means, centring and the ridged sample covariance shared by the three portfolio optimizers. */
module Covariance {
  import opened Reals
  import opened LinearAlgebra
  import opened Outcome

  const COV_RIDGE: real := 1e-8
  const MAX_ASSETS: nat := 100

  // ---------- the accumulator loops ----------

  method VecDot(a: Vec, b: Vec) returns (sum: real)
    requires |a| == |b|
    ensures sum == Dot(a, b)
  {
    sum := 0.0;
    for i := 0 to |a|
      invariant sum == DotTo(a, b, i)
    {
      sum := sum + a[i] * b[i];
    }
  }

  method VecDotMat(a: Mat, x: Vec) returns (out: Vec)
    requires IsMat(a, |a|, |x|)
    ensures out == MatVec(a, x)
  {
    out := [];
    for i := 0 to |a|
      invariant |out| == i && forall k :: 0 <= k < i ==> out[k] == Dot(a[k], x)
    {
      var sum := 0.0;
      for j := 0 to |x|
        invariant sum == DotTo(a[i], x, j)
      {
        sum := sum + a[i][j] * x[j];
      }
      out := out + [sum];
    }
  }

  lemma {:induction false} ScaledProducts(c: real, a: Vec, x: Vec, k: nat)
    requires k < |a| && k < |x|
    ensures c * DotTo(a, x, k) + c * a[k] * x[k] == c * DotTo(a, x, k + 1)
  {
  }

  method QuadraticForm(x: Vec, a: Mat) returns (result: real)
    requires IsMat(a, |x|, |x|)
    ensures result == Quad(a, x)
  {
    var n := |x|;
    result := 0.0;
    for i := 0 to n
      invariant result == DotTo(x, MatVec(a, x), i)
    {
      ghost var before := result;
      for j := 0 to n
        invariant result == before + x[i] * DotTo(a[i], x, j)
      {
        ScaledProducts(x[i], a[i], x, j);
        result := result + x[i] * a[i][j] * x[j];
      }
    }
  }

  method SumOf(values: Vec) returns (s: real)
    ensures s == Sum(values)
  {
    s := 0.0;
    for i := 0 to |values|
      invariant s == SumTo(values, i)
    {
      s := s + values[i];
    }
  }

  method ScaleBy(values: Vec, factor: real) returns (out: Vec)
    ensures out == Scale(factor, values)
  {
    out := [];
    for i := 0 to |values|
      invariant |out| == i && forall k :: 0 <= k < i ==> out[k] == Scale(factor, values)[k]
    {
      assert Scale(factor, values)[i] == values[i] * factor;
      out := out + [values[i] * factor];
    }
    assert out == Scale(factor, values);
  }

  function MeanOf(v: Vec): real
    requires |v| > 0
  {
    Sum(v) / (|v| as real)
  }

  method Mean(values: Vec) returns (m: real)
    requires |values| > 0
    ensures m == MeanOf(values)
  {
    var sum := SumOf(values);
    m := sum / (|values| as real);
  }

  // ---------- the model ----------

  /** Every series has the same length, at least two. */
  predicate ValidReturns(rets: Mat, labels: seq<string>) {
    && 0 < |rets| <= 100 && |labels| == |rets|
    && (forall i, j :: 0 <= i < j < |labels| ==> labels[i] != labels[j])
    && |rets[0]| >= 2 && IsMat(rets, |rets|, |rets[0]|)
  }

  function Means(rets: Mat): (m: Vec)
    requires forall i :: 0 <= i < |rets| ==> |rets[i]| > 0
    ensures |m| == |rets|
  {
    seq(|rets|, i requires 0 <= i < |rets| => MeanOf(rets[i]))
  }

  function Centered(rets: Mat, obs: nat): (c: Mat)
    requires IsMat(rets, |rets|, obs) && obs > 0
    ensures IsMat(c, |rets|, obs)
  {
    seq(|rets|, i requires 0 <= i < |rets| =>
      seq(obs, t requires 0 <= t < obs => rets[i][t] - MeanOf(rets[i])))
  }

  function SampleCov(c: Mat, obs: nat): (cov: Mat)
    requires IsMat(c, |c|, obs) && obs >= 2
    ensures IsMat(cov, |c|, |c|)
  {
    seq(|c|, i requires 0 <= i < |c| =>
      seq(|c|, j requires 0 <= j < |c| => Dot(c[i], c[j]) * (1.0 / (obs as real - 1.0))))
  }

  function Ridged(cov: Mat): (r: Mat)
    requires IsMat(cov, |cov|, |cov|)
    ensures IsMat(r, |cov|, |cov|)
  {
    seq(|cov|, i requires 0 <= i < |cov| => cov[i][i := cov[i][i] + COV_RIDGE])
  }

  /** The covariance the optimizers use: sample covariance plus 1e-8 on the diagonal. */
  function Sigma(rets: Mat): (s: Mat)
    requires |rets| > 0 && |rets[0]| >= 2 && IsMat(rets, |rets|, |rets[0]|)
    ensures IsMat(s, |rets|, |rets|)
  {
    Ridged(SampleCov(Centered(rets, |rets[0]|), |rets[0]|))
  }

  method ValidateReturnMatrix(rets: Mat, labels: seq<string>) returns (e: Option<Error>)
    ensures e.None? <==> ValidReturns(rets, labels)
    ensures e.Some? ==> e.value.InvalidCommand? || e.value.DataQuality?
    ensures |rets| == 0 ==> e == Some(DataQuality("returns matrix must contain at least one series"))
    ensures |rets| > MAX_ASSETS ==> e == Some(InvalidCommand("asset count exceeds maximum"))
    ensures 0 < |rets| <= MAX_ASSETS && |labels| != |rets| ==>
              e == Some(InvalidCommand("label count does not match asset count"))
    ensures 0 < |rets| <= MAX_ASSETS && |labels| == |rets|
            && (exists i, j :: 0 <= i < j < |labels| && labels[i] == labels[j]) ==>
              e == Some(InvalidCommand("duplicate label"))
    ensures e.Some? && e.value.DataQuality? && |rets| > 0 ==>
              |rets[0]| < 2 || !IsMat(rets, |rets|, |rets[0]|)
  {
    if |rets| == 0 {
      return Some(DataQuality("returns matrix must contain at least one series"));
    }
    if |rets| > MAX_ASSETS {
      return Some(InvalidCommand("asset count exceeds maximum"));
    }
    if |labels| != |rets| {
      return Some(InvalidCommand("label count does not match asset count"));
    }
    var seen: set<string> := {};
    for i := 0 to |labels|
      invariant forall l :: l in seen <==> exists k :: 0 <= k < i && labels[k] == l
      invariant forall k, j :: 0 <= k < j < i ==> labels[k] != labels[j]
    {
      if labels[i] in seen {
        return Some(InvalidCommand("duplicate label"));
      }
      seen := seen + {labels[i]};
    }
    var obs := |rets[0]|;
    if obs < 2 {
      return Some(DataQuality("each return series must contain at least two observations"));
    }
    for i := 0 to |rets|
      invariant forall k :: 0 <= k < i ==> |rets[k]| == obs
    {
      if |rets[i]| != obs {
        return Some(DataQuality("series lengths differ"));
      }
    }
    return None;
  }

  method ComputeMeans(rets: Mat) returns (means: Vec)
    requires forall i :: 0 <= i < |rets| ==> |rets[i]| > 0
    ensures means == Means(rets)
  {
    means := [];
    for i := 0 to |rets|
      invariant |means| == i && forall k :: 0 <= k < i ==> means[k] == MeanOf(rets[k])
    {
      var m := Mean(rets[i]);
      means := means + [m];
    }
  }

  method CenterReturns(rets: Mat, means: Vec) returns (centered: Mat)
    requires |rets| > 0 && |rets[0]| > 0 && IsMat(rets, |rets|, |rets[0]|)
    requires means == Means(rets)
    ensures centered == Centered(rets, |rets[0]|)
  {
    var obs := |rets[0]|;
    centered := [];
    for i := 0 to |rets|
      invariant |centered| == i && forall k :: 0 <= k < i ==> centered[k] == Centered(rets, obs)[k]
    {
      var row := [];
      for t := 0 to obs
        invariant |row| == t && forall k :: 0 <= k < t ==> row[k] == rets[i][k] - means[i]
      {
        row := row + [rets[i][t] - means[i]];
      }
      assert row == Centered(rets, obs)[i];
      centered := centered + [row];
    }
  }

  lemma SampleCovSymmetric(c: Mat, obs: nat)
    requires IsMat(c, |c|, obs) && obs >= 2
    ensures Symmetric(SampleCov(c, obs))
  {
    forall i, j | 0 <= i < |c| && 0 <= j < |c| ensures SampleCov(c, obs)[i][j] == SampleCov(c, obs)[j][i] {
      DotComm(c[i], c[j]);
    }
  }

  lemma SampleCovEntry(c: Mat, obs: nat, i: nat, j: nat, scale: real)
    requires IsMat(c, |c|, obs) && obs >= 2 && i < |c| && j < |c| && scale == 1.0 / (obs as real - 1.0)
    ensures SampleCov(c, obs)[i][j] == SampleCov(c, obs)[j][i] == DotTo(c[i], c[j], obs) * scale
  {
    hide DotTo;
    DotComm(c[i], c[j]);
  }

  /** Fills the upper triangle and mirrors it, as the source does. */
  method SampleCovariance(centered: Mat) returns (cov: array2<real>)
    requires |centered| > 0 && |centered[0]| >= 2 && IsMat(centered, |centered|, |centered[0]|)
    ensures fresh(cov) && cov.Length0 == cov.Length1 == |centered|
    ensures forall i, j :: 0 <= i < |centered| && 0 <= j < |centered| ==>
              cov[i, j] == SampleCov(centered, |centered[0]|)[i][j]
  {
    hide SampleCov;
    var n, obs := |centered|, |centered[0]|;
    var spec := SampleCov(centered, obs);
    SampleCovSymmetric(centered, obs);
    cov := new real[n, n]((i, j) => 0.0);
    var scale := 1.0 / (obs as real - 1.0);
    for i := 0 to n
      invariant forall p, q :: 0 <= p < n && 0 <= q < n && (p < i || q < i) ==> cov[p, q] == spec[p][q]
    {
      for j := i to n
        invariant forall p, q :: 0 <= p < n && 0 <= q < n && (p < i || q < i) ==> cov[p, q] == spec[p][q]
        invariant forall q :: i <= q < j ==> cov[i, q] == spec[i][q] && cov[q, i] == spec[q][i]
      {
        var sum := 0.0;
        for t := 0 to obs
          invariant sum == DotTo(centered[i], centered[j], t)
        {
          sum := sum + centered[i][t] * centered[j][t];
        }
        SampleCovEntry(centered, obs, i, j, scale);
        cov[i, j] := sum * scale;
        cov[j, i] := cov[i, j];
      }
    }
  }

  /** Rows of a square array as a matrix value. */
  method ToMat(a: array2<real>) returns (m: Mat)
    ensures IsMat(m, a.Length0, a.Length1)
    ensures forall i, j :: 0 <= i < a.Length0 && 0 <= j < a.Length1 ==> m[i][j] == a[i, j]
  {
    m := [];
    for i := 0 to a.Length0
      invariant IsMat(m, i, a.Length1)
      invariant forall p, j :: 0 <= p < i && 0 <= j < a.Length1 ==> m[p][j] == a[p, j]
    {
      var row := seq(a.Length1, j requires 0 <= j < a.Length1 reads a => a[i, j]);
      m := m + [row];
    }
  }

  /** Sample covariance with the ridge added on the diagonal. */
  method RidgedCovariance(rets: Mat) returns (means: Vec, cov: Mat)
    requires |rets| > 0 && |rets[0]| >= 2 && IsMat(rets, |rets|, |rets[0]|)
    ensures means == Means(rets) && cov == Sigma(rets)
  {
    var n := |rets|;
    means := ComputeMeans(rets);
    var centered := CenterReturns(rets, means);
    var raw := SampleCovariance(centered);
    ghost var spec := SampleCov(centered, |rets[0]|);
    for i := 0 to n
      invariant forall p, q :: 0 <= p < n && 0 <= q < n ==>
                  raw[p, q] == spec[p][q] + if p == q && p < i then COV_RIDGE else 0.0
    {
      raw[i, i] := raw[i, i] + COV_RIDGE;
    }
    cov := ToMat(raw);
    forall i | 0 <= i < n ensures cov[i] == Sigma(rets)[i] {}
  }

  // ---------- positive definiteness ----------

  /** x'Cov y is the scaled inner product of the two portfolio return series. */
  lemma CovBilinear(c: Mat, obs: nat, x: Vec, y: Vec)
    requires IsMat(c, |c|, obs) && obs >= 2 && |x| == |y| == |c|
    ensures Bilinear(SampleCov(c, obs), x, y) == (1.0 / (obs as real - 1.0)) * Dot(Comb(c, x, obs), Comb(c, y, obs))
  {
    var s := 1.0 / (obs as real - 1.0);
    var cov, w := SampleCov(c, obs), Comb(c, y, obs);
    forall i | 0 <= i < |c| ensures MatVec(cov, y)[i] == Scale(s, MatVec(c, w))[i] {
      CovRow(c, obs, i);
      DotComm(cov[i], y);
      DotScale(y, s, MatVec(c, c[i]));
      Adjoint(c, c[i], y);
      DotComm(w, c[i]);
    }
    assert MatVec(cov, y) == Scale(s, MatVec(c, w));
    DotScale(x, s, MatVec(c, w));
    Adjoint(c, w, x);
  }

  lemma CovRow(c: Mat, obs: nat, i: nat)
    requires IsMat(c, |c|, obs) && obs >= 2 && i < |c|
    ensures SampleCov(c, obs)[i] == Scale(1.0 / (obs as real - 1.0), MatVec(c, c[i]))
  {
    var s := 1.0 / (obs as real - 1.0);
    var l, r := SampleCov(c, obs)[i], Scale(s, MatVec(c, c[i]));
    forall j | 0 <= j < |c| ensures l[j] == r[j] {
      DotComm(c[i], c[j]);
    }
  }

  lemma SampleCovNonNegative(c: Mat, obs: nat, x: Vec)
    requires IsMat(c, |c|, obs) && obs >= 2 && |x| == |c|
    ensures Quad(SampleCov(c, obs), x) >= 0.0
  {
    CovBilinear(c, obs, x, x);
    var v := Comb(c, x, obs);
    SquaredNorm(v);
    ProductPositive(1.0 / (obs as real - 1.0), Dot(v, v), (1.0 / (obs as real - 1.0)) * Dot(v, v));
  }

  /** Cauchy-Schwarz for sample covariances, definite or not. */
  lemma CovCauchySchwarz(c: Mat, obs: nat, x: Vec, y: Vec)
    requires IsMat(c, |c|, obs) && obs >= 2 && |x| == |y| == |c|
    ensures Bilinear(SampleCov(c, obs), x, y) * Bilinear(SampleCov(c, obs), x, y)
         <= Quad(SampleCov(c, obs), x) * Quad(SampleCov(c, obs), y)
  {
    hide SampleCov, Bilinear, Comb, Dot;
    var u, v := Comb(c, x, obs), Comb(c, y, obs);
    CovBilinear(c, obs, x, y);
    CovBilinear(c, obs, x, x);
    CovBilinear(c, obs, y, y);
    VecCauchySchwarz(u, v);
    ScaledSquares(1.0 / (obs as real - 1.0), Dot(u, v), Dot(u, u), Dot(v, v));
  }

  lemma ScaledSquares(c: real, p: real, x: real, y: real)
    requires p * p <= x * y
    ensures (c * p) * (c * p) <= (c * x) * (c * y)
  {
    SquareSign(c, c * c);
    MulMonotone(p * p, x * y, c * c);
    assert (c * p) * (c * p) == c * c * (p * p) && (c * x) * (c * y) == c * c * (x * y);
  }

  lemma RidgeQuad(cov: Mat, x: Vec)
    requires IsMat(cov, |cov|, |cov|) && |x| == |cov|
    ensures Quad(Ridged(cov), x) == Quad(cov, x) + COV_RIDGE * Dot(x, x)
  {
    var r := Ridged(cov);
    forall i | 0 <= i < |x| ensures MatVec(r, x)[i] == Add(MatVec(cov, x), Scale(COV_RIDGE, x))[i] {
      var d := Scale(COV_RIDGE, Unit(|x|, i));
      assert r[i] == Add(cov[i], d);
      DotComm(r[i], x);
      DotAdd(x, cov[i], d);
      DotComm(x, cov[i]);
      DotScale(x, COV_RIDGE, Unit(|x|, i));
      DotUnit(x, i);
    }
    assert MatVec(r, x) == Add(MatVec(cov, x), Scale(COV_RIDGE, x));
    DotAdd(x, MatVec(cov, x), Scale(COV_RIDGE, x));
    DotScale(x, COV_RIDGE, x);
  }

  /** The ridged covariance is symmetric and at least 1e-8 times the identity. */
  lemma SigmaPositiveDefinite(rets: Mat)
    requires |rets| > 0 && |rets[0]| >= 2 && IsMat(rets, |rets|, |rets[0]|)
    ensures Symmetric(Sigma(rets)) && BoundedBelow(Sigma(rets), COV_RIDGE) && PositiveDefinite(Sigma(rets))
  {
    var obs := |rets[0]|;
    var c := Centered(rets, obs);
    var cov, s := SampleCov(c, obs), Sigma(rets);
    SampleCovSymmetric(c, obs);
    assert Symmetric(s) by {
      forall i, j | 0 <= i < |s| && 0 <= j < |s| ensures s[i][j] == s[j][i] {
        assert cov[i][j] == cov[j][i];
      }
    }
    forall x: Vec | |x| == |s| ensures Quad(s, x) >= COV_RIDGE * Dot(x, x) {
      SampleCovNonNegative(c, obs, x);
      RidgeQuad(cov, x);
    }
    BoundedBelowIsPositiveDefinite(s, COV_RIDGE);
  }
}
