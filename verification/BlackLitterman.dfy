/** The Black-Litterman model with explicit view matrices, and its one-view-per-asset front end. */
module BlackLitterman {
  import opened Reals
  import opened LinearAlgebra
  import opened Outcome
  import opened Inverse
  import opened Covariance
  import opened TwoFunds
  import opened MaxSharpe
  import opened MeanVariance
  import opened Posterior
  import opened Conditioning

  datatype BlackLittermanRequest = BlackLittermanRequest(
    history: Mat, assets: seq<string>, marketCaps: Vec, pMatrix: Mat, qVector: Vec, tau: real, riskAversion: real)

  datatype BlackLittermanResult = BlackLittermanResult(
    portfolio: Portfolio, expectedReturns: map<string, real>, covariance: Mat)

  predicate ValidViews(p: Mat, q: Vec, n: nat) {
    0 < |p| == |q| && IsMat(p, |p|, n) && forall i :: 0 <= i < |p| ==> NonZero(p[i])
  }

  predicate NonZero(row: Vec) { exists j :: 0 <= j < |row| && row[j] != 0.0 }

  predicate ValidCaps(caps: Vec, n: nat) { |caps| == n && forall i :: 0 <= i < n ==> caps[i] > 0.0 }

  predicate ValidBlackLitterman(req: BlackLittermanRequest) {
    && req.tau > 0.0 && req.riskAversion > 0.0 && ValidReturns(req.history, req.assets)
    && ValidCaps(req.marketCaps, |req.history|) && ValidViews(req.pMatrix, req.qVector, |req.history|)
  }

  method ValidateViews(p: Mat, q: Vec, n: nat) returns (e: Option<Error>)
    ensures e.None? <==> ValidViews(p, q, n)
    ensures e.Some? ==> e.value.InvalidCommand?
  {
    if |p| == 0 {
      return Some(InvalidCommand("P matrix must contain at least one view"));
    }
    if |p| != |q| {
      return Some(InvalidCommand("P row count does not match Q length"));
    }
    for i := 0 to |p|
      invariant forall k :: 0 <= k < i ==> |p[k]| == n && NonZero(p[k])
    {
      if |p[i]| != n {
        return Some(InvalidCommand("P row length does not match asset count"));
      }
      var allZero := true;
      for j := 0 to n
        invariant allZero ==> forall k :: 0 <= k < j ==> p[i][k] == 0.0
        invariant !allZero ==> NonZero(p[i])
      {
        if p[i][j] != 0.0 {
          allZero := false;
        }
      }
      if allZero {
        return Some(InvalidCommand("P row is all zeros"));
      }
    }
    return None;
  }

  method ValidateRequest(req: BlackLittermanRequest) returns (e: Option<Error>)
    ensures e.None? <==> ValidBlackLitterman(req)
    ensures e.Some? ==> e.value.InvalidCommand? || e.value.DataQuality?
  {
    if req.tau <= 0.0 {
      return Some(InvalidCommand("tau must be a positive finite number"));
    }
    if req.riskAversion <= 0.0 {
      return Some(InvalidCommand("risk_aversion must be a positive finite number"));
    }
    e := ValidateReturnMatrix(req.history, req.assets);
    if e.Some? { return; }
    var n := |req.history|;
    if |req.marketCaps| != n {
      return Some(InvalidCommand("market cap count does not match asset count"));
    }
    for i := 0 to n
      invariant forall k :: 0 <= k < i ==> req.marketCaps[k] > 0.0
    {
      if req.marketCaps[i] <= 0.0 {
        return Some(InvalidCommand("market cap must be positive and finite"));
      }
    }
    e := ValidateViews(req.pMatrix, req.qVector, n);
  }

  // ---------- matrix helpers ----------

  method MatScale(m: Mat, s: real) returns (out: Mat)
    requires IsMat(m, |m|, |m|)
    ensures out == Scaled(s, m)
  {
    out := [];
    for i := 0 to |m|
      invariant |out| == i && forall k :: 0 <= k < i ==> out[k] == Scale(s, m[k])
    {
      var row := ScaleBy(m[i], s);
      out := out + [row];
    }
  }

  method MatSum(a: Mat, b: Mat) returns (out: Mat)
    requires IsMat(a, |a|, |a|) && IsMat(b, |a|, |a|)
    ensures out == MatAdd(a, b)
  {
    out := [];
    for i := 0 to |a|
      invariant |out| == i && forall k :: 0 <= k < i ==> out[k] == Add(a[k], b[k])
    {
      var row := VecSum(a[i], b[i]);
      out := out + [row];
    }
  }

  method VecSum(a: Vec, b: Vec) returns (out: Vec)
    requires |a| == |b|
    ensures out == Add(a, b)
  {
    out := [];
    for j := 0 to |a|
      invariant |out| == j && forall k :: 0 <= k < j ==> out[k] == a[k] + b[k]
    {
      out := out + [a[j] + b[j]];
    }
  }

  // ---------- the model ----------

  /** Equilibrium returns: risk aversion times Sigma times the market-cap weights. */
  function Prior(req: BlackLittermanRequest): (pi: Vec)
    requires ValidBlackLitterman(req)
    ensures |pi| == |req.history|
  {
    CapSumPositive(req.marketCaps);
    Scale(req.riskAversion, MatVec(Sigma(req.history), Normalised(req.marketCaps)))
  }

  lemma CapSumPositive(caps: Vec)
    requires |caps| > 0 && forall i :: 0 <= i < |caps| ==> caps[i] > 0.0
    ensures Sum(caps) > 0.0
  {
    PositiveSumTo(caps, |caps|);
  }

  /** Omega is the diagonal of P (tau Sigma) P'; these are its reciprocals. */
  ghost predicate ViewWeights(t: Mat, p: Mat, s: Vec)
    requires IsMat(t, |t|, |t|) && IsMat(p, |p|, |t|) && |s| == |p|
  {
    forall i :: 0 <= i < |p| ==> Quad(t, p[i]) >= DEGENERACY_EPS && s[i] * Quad(t, p[i]) == 1.0 && s[i] > 0.0
  }

  method OmegaInverse(t: Mat, p: Mat) returns (r: Result<Vec>)
    requires PositiveDefinite(t) && IsMat(p, |p|, |t|)
    ensures r.Success? ==> |r.value| == |p| && ViewWeights(t, p, r.value)
    ensures r.Failure? ==> r.error == DataQuality("view has zero confidence")
    ensures r.Failure? ==> exists i :: 0 <= i < |p| && Quad(t, p[i]) < DEGENERACY_EPS
  {
    hide DotTo, SymmetricEntries, PositiveEverywhere, MatVec;
    var s: Vec := [];
    for i := 0 to |p|
      invariant |s| == i
      invariant forall k :: 0 <= k < i ==> Quad(t, p[k]) >= DEGENERACY_EPS && s[k] * Quad(t, p[k]) == 1.0 && s[k] > 0.0
    {
      var pSigma := VecDotMat(t, p[i]);
      var omega := VecDot(p[i], pSigma);
      QuadNonNegative(t, p[i]);
      if Abs(omega) < DEGENERACY_EPS {
        return Failure(DataQuality("view has zero confidence"));
      }
      DivSign(1.0, omega);
      s := s + [1.0 / omega];
    }
    return Success(s);
  }

  /** Accumulates P' Omega^-1 P view by view, in place. */
  method ViewMatrices(p: Mat, q: Vec, s: Vec, n: nat) returns (ptOp: Mat, ptOq: Vec)
    requires IsMat(p, |p|, n) && |q| == |s| == |p|
    ensures ptOp == ViewPrecision(p, s, n)
    ensures ptOq == Comb(p, Weigh(s, q), n)
  {
    hide ViewPrecision, Partial, DotTo, Weigh, Comb, Col;
    var op := new real[n, n]((i, j) => 0.0);
    var oq := new real[n](i => 0.0);
    NothingAdded(p, q, s, n);
    for i := 0 to |p|
      invariant forall a, b :: 0 <= a < n && 0 <= b < n ==> op[a, b] == Partial(p, s, n, a, b, i)
      invariant forall a :: 0 <= a < n ==> oq[a] == DotTo(Col(p, n, a), Weigh(s, q), i)
    {
      AddView(op, oq, p, q, s, n, i);
    }
    ptOp := ToMat(op);
    ptOq := oq[..];
    PartialIsViewPrecision(p, s, n, ptOp);
    forall a | 0 <= a < n ensures ptOq[a] == Comb(p, Weigh(s, q), n)[a] { CombEntry(p, Weigh(s, q), n, a); }
  }

  function Partial(p: Mat, s: Vec, n: nat, a: nat, b: nat, i: nat): real
    requires IsMat(p, |p|, n) && |s| == |p| && a < n && b < n && i <= |p|
  {
    DotTo(Weigh(s, Col(p, n, a)), Col(p, n, b), i)
  }

  lemma NothingAdded(p: Mat, q: Vec, s: Vec, n: nat)
    requires IsMat(p, |p|, n) && |q| == |s| == |p|
    ensures forall a, b :: 0 <= a < n && 0 <= b < n ==> Partial(p, s, n, a, b, 0) == 0.0
    ensures forall a :: 0 <= a < n ==> DotTo(Col(p, n, a), Weigh(s, q), 0) == 0.0
  {
  }

  lemma PartialIsViewPrecision(p: Mat, s: Vec, n: nat, m: Mat)
    requires IsMat(p, |p|, n) && |s| == |p| && IsMat(m, n, n)
    requires forall a, b :: 0 <= a < n && 0 <= b < n ==> m[a][b] == Partial(p, s, n, a, b, |p|)
    ensures m == ViewPrecision(p, s, n)
  {
    hide DotTo, Weigh;
    forall a | 0 <= a < n ensures m[a] == ViewPrecision(p, s, n)[a] {}
  }

  /** Adds one view's outer product and its target to the accumulators. */
  method AddView(op: array2<real>, oq: array<real>, p: Mat, q: Vec, s: Vec, n: nat, i: nat)
    requires IsMat(p, |p|, n) && |q| == |s| == |p| && i < |p|
    requires op.Length0 == op.Length1 == oq.Length == n
    requires forall a, b :: 0 <= a < n && 0 <= b < n ==> op[a, b] == Partial(p, s, n, a, b, i)
    requires forall a :: 0 <= a < n ==> oq[a] == DotTo(Col(p, n, a), Weigh(s, q), i)
    modifies op, oq
    ensures forall a, b :: 0 <= a < n && 0 <= b < n ==> op[a, b] == Partial(p, s, n, a, b, i + 1)
    ensures forall a :: 0 <= a < n ==> oq[a] == DotTo(Col(p, n, a), Weigh(s, q), i + 1)
  {
    hide Partial, DotTo, Weigh;
    var scale, target := s[i], q[i];
    for a := 0 to n
      invariant forall c, b :: 0 <= c < n && 0 <= b < n ==>
                  op[c, b] == Partial(p, s, n, c, b, if c < a then i + 1 else i)
      invariant forall c :: 0 <= c < n ==> oq[c] == DotTo(Col(p, n, c), Weigh(s, q), if c < a then i + 1 else i)
    {
      for b := 0 to n
        invariant forall c, d :: 0 <= c < n && 0 <= d < n ==>
                    op[c, d] == Partial(p, s, n, c, d, if c < a || (c == a && d < b) then i + 1 else i)
        invariant forall c :: 0 <= c < n ==> oq[c] == DotTo(Col(p, n, c), Weigh(s, q), if c < a then i + 1 else i)
      {
        PartialStep(p, s, n, a, b, i);
        op[a, b] := op[a, b] + scale * p[i][a] * p[i][b];
      }
      TargetStep(p, q, s, n, a, i);
      oq[a] := oq[a] + scale * target * p[i][a];
    }
  }

  lemma PartialStep(p: Mat, s: Vec, n: nat, a: nat, b: nat, i: nat)
    requires IsMat(p, |p|, n) && |s| == |p| && a < n && b < n && i < |p|
    ensures Partial(p, s, n, a, b, i + 1) == Partial(p, s, n, a, b, i) + s[i] * p[i][a] * p[i][b]
  {
  }

  lemma TargetStep(p: Mat, q: Vec, s: Vec, n: nat, a: nat, i: nat)
    requires IsMat(p, |p|, n) && |q| == |s| == |p| && a < n && i < |p|
    ensures DotTo(Col(p, n, a), Weigh(s, q), i + 1) == DotTo(Col(p, n, a), Weigh(s, q), i) + s[i] * q[i] * p[i][a]
  {
  }

  /** The unnormalised weights: risk aversion times covariance times raw is the mean. */
  ghost predicate IsRaw(covariance: Mat, mu: Vec, riskAversion: real, raw: Vec) {
    && IsMat(covariance, |covariance|, |covariance|) && |raw| == |covariance|
    && MatVec(Scaled(riskAversion, covariance), raw) == mu
  }

  function RawRatio(riskAversion: real, raw: Vec): real { riskAversion * Sum(raw) }

  /** Raw weights that do not cancel, scaled to sum to one. */
  ghost predicate IsNormalisedRaw(covariance: Mat, mu: Vec, riskAversion: real, raw: Vec, w: Vec) {
    && IsRaw(covariance, mu, riskAversion, raw) && Abs(Sum(raw)) >= DEGENERACY_EPS
    && w == Scale(1.0 / Sum(raw), raw) && IsTangency(covariance, mu, RawRatio(riskAversion, raw), w)
  }

  ghost predicate Cancels(covariance: Mat, mu: Vec, riskAversion: real, raw: Vec) {
    IsRaw(covariance, mu, riskAversion, raw) && Abs(Sum(raw)) < DEGENERACY_EPS
  }

  /** What a successful run returns: the posterior mean, its covariance and the raw weights scaled to sum to one. */
  ghost predicate IsPosteriorResult(req: BlackLittermanRequest, mu: Vec, covariance: Mat, w: Vec)
    requires ValidBlackLitterman(req)
  {
    exists ti: Mat, s: Vec, m1inv: Mat, raw: Vec ::
      IsPosterior(req, mu, covariance, ti, s, m1inv) && IsNormalisedRaw(covariance, mu, req.riskAversion, raw, w)
  }

  ghost predicate IsPosterior(req: BlackLittermanRequest, mu: Vec, covariance: Mat, ti: Mat, s: Vec, m1inv: Mat)
    requires ValidBlackLitterman(req)
  {
    IsPosteriorOf(Scaled(req.tau, Sigma(req.history)), Sigma(req.history), Prior(req), req.pMatrix, req.qVector,
                  mu, covariance, ti, s, m1inv)
  }

  /** Posterior mean and covariance for prior precision inv(t) = ti and view weights s. */
  ghost predicate IsPosteriorOf(t: Mat, sigma: Mat, prior: Vec, p: Mat, q: Vec,
                                mu: Vec, covariance: Mat, ti: Mat, s: Vec, m1inv: Mat)
    requires IsMat(t, |t|, |t|) && IsMat(sigma, |t|, |t|) && |prior| == |t| && IsMat(p, |p|, |t|) && |q| == |p|
  {
    hide DotTo, MatVec, Undoes, Weigh, Quad;
    && |mu| == |t| && |s| == |p| && IsMat(ti, |t|, |t|) && IsMat(m1inv, |t|, |t|) && IsMat(covariance, |t|, |t|)
    && IsInverse(t, ti) && ViewWeights(t, p, s)
    && SolvesPosterior(ti, prior, p, q, s, mu)
    && IsInverse(MatAdd(ti, ViewPrecision(p, s, |t|)), m1inv)
    && covariance == MatAdd(sigma, m1inv)
  }

  // ---------- why a valid request may still be refused ----------

  /** Some view has almost no variance under the scaled covariance. */
  ghost predicate ZeroConfidence(req: BlackLittermanRequest)
    requires ValidBlackLitterman(req)
  {
    var t := Scaled(req.tau, Sigma(req.history));
    exists i :: 0 <= i < |req.pMatrix| && Quad(t, req.pMatrix[i]) < DEGENERACY_EPS
  }

  /** The raw weights cancel. */
  ghost predicate WeightsCancel(req: BlackLittermanRequest)
    requires ValidBlackLitterman(req)
  {
    exists mu: Vec, covariance: Mat, ti: Mat, s: Vec, m1inv: Mat, raw: Vec ::
      IsPosterior(req, mu, covariance, ti, s, m1inv) && Cancels(covariance, mu, req.riskAversion, raw)
  }

  /** Factors and covariances of ordinary size; tau and risk aversion of 1e-5 and scaled covariances up to 9e10 are
      enough. */
  predicate Ordinary(req: BlackLittermanRequest)
    requires ValidBlackLitterman(req)
  {
    var n := |req.history|;
    Clears(req.tau, n) && Clears(req.riskAversion, n) && Moderate(Scaled(req.tau, Sigma(req.history)))
  }

  /** One of the three inversions meets a matrix too close to singular; each can do so only outside its ordinary
      range. */
  ghost predicate CannotInvert(req: BlackLittermanRequest)
    requires ValidBlackLitterman(req)
  {
    var t, n := Scaled(req.tau, Sigma(req.history)), |req.history|;
    || (!Clears(req.tau, n) && NearSingular(t))
    || (!Moderate(t) && exists ti: Mat, s: Vec :: PrecisionNearSingular(t, req.pMatrix, ti, s))
    || (!Clears(req.riskAversion, n) && exists mu: Vec, covariance: Mat, ti: Mat, s: Vec, m1inv: Mat ::
          IsPosterior(req, mu, covariance, ti, s, m1inv) && ScaledNearSingular(req.riskAversion, covariance))
  }

  ghost predicate ScaledNearSingular(c: real, m: Mat) { IsMat(m, |m|, |m|) && NearSingular(Scaled(c, m)) }

  ghost predicate PrecisionNearSingular(t: Mat, p: Mat, ti: Mat, s: Vec)
    requires IsMat(t, |t|, |t|) && IsMat(p, |p|, |t|)
  {
    && IsMat(ti, |t|, |t|) && |s| == |p| && IsInverse(t, ti) && ViewWeights(t, p, s)
    && NearSingular(MatAdd(ti, ViewPrecision(p, s, |t|)))
  }

  ghost predicate Refused(req: BlackLittermanRequest, e: Error)
    requires ValidBlackLitterman(req)
  {
    || (e == DataQuality("view has zero confidence") && ZeroConfidence(req))
    || (e == Internal("matrix is singular or near-singular") && CannotInvert(req))
    || (e == Internal("optimised weights sum to zero") && WeightsCancel(req))
  }

  ghost predicate NoTangency(covariance: Mat, mu: Vec, riskAversion: real, e: Error)
    requires IsMat(covariance, |covariance|, |covariance|)
  {
    || (e == Internal("matrix is singular or near-singular") && NearSingular(Scaled(riskAversion, covariance)))
    || (e == Internal("optimised weights sum to zero") && exists raw :: Cancels(covariance, mu, riskAversion, raw))
  }

  /** Weights proportional to covariance^-1 mean, scaled to sum to one. */
  method TangencyWeights(covariance: Mat, mu: Vec, riskAversion: real) returns (r: Result<Vec>)
    requires IsMat(covariance, |covariance|, |covariance|) && |mu| == |covariance| > 0 && riskAversion > 0.0
    ensures r.Success? ==> exists raw :: IsNormalisedRaw(covariance, mu, riskAversion, raw, r.value)
    ensures r.Failure? ==> NoTangency(covariance, mu, riskAversion, r.error)
  {
    hide DotTo, MatVec, IsTangency, Undoes, NearSingular, Sum, Scaled, Scale, Abs, RawRatio;
    var a := MatScale(covariance, riskAversion);
    var inverted := MatInverse(a);
    if inverted.Failure? {
      return Failure(inverted.error);
    }
    var raw := VecDotMat(inverted.value, mu);
    InverseAt(a, inverted.value, mu);
    var sum := SumOf(raw);
    if Abs(sum) < DEGENERACY_EPS {
      assert Cancels(covariance, mu, riskAversion, raw);
      return Failure(Internal("optimised weights sum to zero"));
    }
    NotTiny(sum);
    var w := ScaleBy(raw, 1.0 / sum);
    RawGivesTangency(covariance, mu, riskAversion, raw, sum);
    assert IsNormalisedRaw(covariance, mu, riskAversion, raw, w);
    return Success(w);
  }

  /** The normalised raw weights are the tangency fund, at a ratio with the sign of their sum. */
  lemma RawGivesTangency(c: Mat, mu: Vec, delta: real, raw: Vec, sum: real)
    requires IsRaw(c, mu, delta, raw) && delta > 0.0 && sum == Sum(raw) && sum != 0.0
    ensures IsTangency(c, mu, RawRatio(delta, raw), Scale(1.0 / sum, raw))
  {
    hide DotTo, MatVec, IsTangency, Sum, Scaled, Scale, IsRaw;
    RawSolves(c, mu, delta, raw);
    ScaledTangency(c, mu, raw, delta, sum, RawRatio(delta, raw));
  }

  lemma RawSolves(c: Mat, mu: Vec, delta: real, raw: Vec)
    requires IsRaw(c, mu, delta, raw)
    ensures IsMat(c, |c|, |c|) && |mu| == |raw| == |c| && Scale(delta, MatVec(c, raw)) == mu
  {
    hide DotTo, MatVec, Scaled, Scale;
    ScaledVec(delta, c, raw);
  }

  lemma NotTiny(x: real)
    requires Abs(x) >= DEGENERACY_EPS
    ensures x != 0.0
  {
  }

  lemma ScaledTangency(c: Mat, mu: Vec, raw: Vec, delta: real, sum: real, ratio: real)
    requires IsMat(c, |c|, |c|) && |mu| == |raw| == |c| && delta > 0.0 && sum == Sum(raw) && sum != 0.0
    requires Scale(delta, MatVec(c, raw)) == mu && ratio == delta * sum
    ensures IsTangency(c, mu, ratio, Scale(1.0 / sum, raw))
  {
    hide DotTo, MatVec, SumTo;
    var d := 1.0 / sum;
    SumScale(d, raw);
    MatVecScale(c, d, raw);
    var v := MatVec(c, raw);
    var l := Scale(ratio, Scale(d, v));
    forall i | 0 <= i < |c| ensures l[i] == mu[i] {
      assert (delta * sum) * (d * v[i]) == delta * (sum * d) * v[i];
      assert mu[i] == delta * v[i];
    }
    NonZeroProduct(delta, sum);
  }

  lemma NonZeroProduct(a: real, b: real)
    requires a > 0.0 && b != 0.0
    ensures a * b != 0.0
  {
  }

  method PriorReturns(req: BlackLittermanRequest, cov: Mat) returns (pi: Vec)
    requires ValidBlackLitterman(req) && cov == Sigma(req.history)
    ensures pi == Prior(req)
  {
    hide Sigma;
    CapSumPositive(req.marketCaps);
    var capSum := SumOf(req.marketCaps);
    var wMkt: Vec := [];
    for i := 0 to |req.marketCaps|
      invariant |wMkt| == i && forall k :: 0 <= k < i ==> wMkt[k] == req.marketCaps[k] / capSum
    {
      wMkt := wMkt + [req.marketCaps[i] / capSum];
    }
    assert wMkt == Normalised(req.marketCaps);
    var sigmaW := VecDotMat(cov, wMkt);
    pi := ScaleBy(sigmaW, req.riskAversion);
  }

  /** The posterior mean and covariance, by two matrix inversions. */
  method PosteriorMoments(req: BlackLittermanRequest, cov: Mat)
    returns (r: Result<(Vec, Mat)>, ghost ti: Mat, ghost s: Vec, ghost m1inv: Mat)
    requires ValidBlackLitterman(req) && cov == Sigma(req.history)
    ensures r.Failure? ==> Refused(req, r.error)
    ensures r.Success? ==> |r.value.0| == |req.history| && IsMat(r.value.1, |req.history|, |req.history|)
    ensures r.Success? ==> IsPosterior(req, r.value.0, r.value.1, ti, s, m1inv)
  {
    hide DotTo, MatVec, Undoes, Sigma, Weigh, ViewPrecision, MatAdd, Scaled, SymmetricEntries, PositiveEverywhere,
         Prior, BoundedBelow, NearSingular, Quad, Moderate, Clears, WeightsCancel;
    ti, s, m1inv := [], [], [];
    SigmaPositiveDefinite(req.history);
    var n := |req.history|;
    var pi := PriorReturns(req, cov);
    var tauSigma := MatScale(cov, req.tau);
    ScaledPositiveDefinite(req.tau, cov);
    var omegaInv := OmegaInverse(tauSigma, req.pMatrix);
    if omegaInv.Failure? {
      return Failure(omegaInv.error), ti, s, m1inv;
    }
    s := omegaInv.value;
    var ptOp, ptOq := ViewMatrices(req.pMatrix, req.qVector, omegaInv.value, n);
    var tauSigmaInv := MatInverse(tauSigma);
    if tauSigmaInv.Failure? {
      if Clears(req.tau, n) { ScaledNotNearSingular(cov, req.tau); }
      return Failure(tauSigmaInv.error), ti, s, m1inv;
    }
    ti := tauSigmaInv.value;
    var m1 := MatSum(tauSigmaInv.value, ptOp);
    var m1Inv := MatInverse(m1);
    if m1Inv.Failure? {
      if Moderate(tauSigma) { PrecisionNotNearSingular(tauSigma, ti, req.pMatrix, s); }
      assert PrecisionNearSingular(tauSigma, req.pMatrix, ti, s);
      return Failure(m1Inv.error), ti, s, m1inv;
    }
    m1inv := m1Inv.value;
    var m2Part := VecDotMat(tauSigmaInv.value, pi);
    var m2 := VecSum(m2Part, ptOq);
    var mu := VecDotMat(m1Inv.value, m2);
    InverseAt(m1, m1Inv.value, m2);
    var sigmaBl := MatSum(cov, m1Inv.value);
    return Success((mu, sigmaBl)), ti, s, m1inv;
  }

  /** A successful run returns the posterior and its tangency portfolio; a valid request is refused only for the stated
      reasons. */
  method Optimise(req: BlackLittermanRequest, sqrt: real -> real) returns (r: Result<BlackLittermanResult>)
    requires IsSqrt(sqrt)
    ensures !ValidBlackLitterman(req) ==> r.Failure? && (r.error.InvalidCommand? || r.error.DataQuality?)
    ensures ValidBlackLitterman(req) && r.Failure? ==> Refused(req, r.error)
    ensures ValidBlackLitterman(req) && (ZeroConfidence(req) || WeightsCancel(req)) ==> r.Failure?
    ensures ValidBlackLitterman(req) && Ordinary(req) ==> (r.Failure? <==> ZeroConfidence(req) || WeightsCancel(req))
    ensures r.Success? ==> ValidBlackLitterman(req) && Answers(req, r.value, sqrt)
  {
    hide ValidBlackLitterman, Answers, Refused, ZeroConfidence, WeightsCancel, Ordinary;
    var objection := ValidateRequest(req);
    if objection.Some? {
      return Failure(objection.value);
    }
    r := OptimiseValid(req, sqrt);
    if r.Success? { AnswersAreAccepted(req, r.value, sqrt); } else if Ordinary(req) { OrdinaryInverts(req, r.error); }
  }

  /** The posterior means in label order. */
  function MeansOf(r: BlackLittermanResult, assets: seq<string>): Vec
    requires forall i :: 0 <= i < |assets| ==> assets[i] in r.expectedReturns
  {
    seq(|assets|, i requires 0 <= i < |assets| => r.expectedReturns[assets[i]])
  }

  /** The result names every asset and holds the posterior, its tangency weights and their return and volatility. */
  ghost predicate Answers(req: BlackLittermanRequest, r: BlackLittermanResult, sqrt: real -> real)
    requires ValidBlackLitterman(req)
  {
    && r.portfolio.weights.Keys == r.expectedReturns.Keys == (set l | l in req.assets)
    && var w, mu := WeightsOf(r.portfolio, req.assets), MeansOf(r, req.assets);
       && IsPosteriorResult(req, mu, r.covariance, w)
       && r.portfolio.expectedReturn == Dot(w, mu)
       && IsMat(r.covariance, |w|, |w|) && |r.covariance| == |w|
       && r.portfolio.volatility == sqrt(Max(0.0, Quad(r.covariance, w)))
       && r.portfolio.sharpeRatio == SharpeOf(r.portfolio.expectedReturn, 0.0, r.portfolio.volatility)
  }

  lemma {:induction false} SameReciprocals(t: Mat, p: Mat, s: Vec, s': Vec)
    requires IsMat(t, |t|, |t|) && IsMat(p, |p|, |t|) && |s| == |p| == |s'|
    requires ViewWeights(t, p, s) && ViewWeights(t, p, s')
    ensures s == s'
  {
    hide Quad;
    forall i | 0 <= i < |s| ensures s[i] == s'[i] { SameReciprocal(Quad(t, p[i]), s[i], s'[i]); }
  }

  lemma SameReciprocal(q: real, a: real, b: real)
    requires a * q == 1.0 && b * q == 1.0
    ensures a == b
  {
    assert a == a * (b * q) == (a * q) * b == b;
  }

  /** A request has one posterior. */
  lemma PosteriorUnique(req: BlackLittermanRequest, mu: Vec, covariance: Mat, ti: Mat, s: Vec, m1inv: Mat,
                        mu': Vec, covariance': Mat, ti': Mat, s': Vec, m1inv': Mat)
    requires ValidBlackLitterman(req)
    requires IsPosterior(req, mu, covariance, ti, s, m1inv) && IsPosterior(req, mu', covariance', ti', s', m1inv')
    ensures mu == mu' && covariance == covariance'
  {
    hide DotTo, MatVec, Undoes, Sigma, Weigh, ViewPrecision, MatAdd, Scaled, Prior, ViewWeights, Comb, Add, Quad;
    var t := Scaled(req.tau, Sigma(req.history));
    InverseUnique(t, ti, ti');
    SameReciprocals(t, req.pMatrix, s, s');
    var precision := MatAdd(ti, ViewPrecision(req.pMatrix, s, |t|));
    InverseUnique(precision, m1inv, m1inv');
    InverseAt(precision, m1inv, mu);
    InverseAt(precision, m1inv, mu');
  }

  /** A positive definite system has one solution. */
  lemma SolutionUnique(a: Mat, x: Vec, y: Vec)
    requires PositiveDefinite(a) && |x| == |y| == |a| && MatVec(a, x) == MatVec(a, y)
    ensures x == y
  {
    hide DotTo, MatVec, SymmetricEntries, PositiveEverywhere;
    var d := Sub(x, y);
    BilinearOfDifference(a, d, x, y);
    if x != y {
      var i :| 0 <= i < |a| && x[i] != y[i];
      assert d[i] != 0.0;
      PositiveAt(a, d);
    }
  }

  lemma RawUnique(covariance: Mat, mu: Vec, riskAversion: real, raw: Vec, raw': Vec)
    requires PositiveDefinite(covariance) && riskAversion > 0.0
    requires IsRaw(covariance, mu, riskAversion, raw) && IsRaw(covariance, mu, riskAversion, raw')
    ensures raw == raw'
  {
    hide DotTo, MatVec, SymmetricEntries, PositiveEverywhere, Scaled;
    ScaledPositiveDefinite(riskAversion, covariance);
    SolutionUnique(Scaled(riskAversion, covariance), raw, raw');
  }

  /** A request with a result has no view without variance, and its weights do not cancel. */
  lemma AnswersAreAccepted(req: BlackLittermanRequest, r: BlackLittermanResult, sqrt: real -> real)
    requires ValidBlackLitterman(req) && Answers(req, r, sqrt)
    ensures !ZeroConfidence(req) && !WeightsCancel(req)
  {
    hide DotTo, MatVec, Sigma, Scaled, Quad, IsRaw, Sum, Abs, IsPosterior, ValidReturns, ValidViews, ValidCaps, Max;
    var mu, covariance := MeansOf(r, req.assets), r.covariance;
    var ti: Mat, s: Vec, m1inv: Mat, raw: Vec :|
      IsPosterior(req, mu, covariance, ti, s, m1inv)
      && IsNormalisedRaw(covariance, mu, req.riskAversion, raw, WeightsOf(r.portfolio, req.assets));
    ViewsConfident(req, mu, covariance, ti, s, m1inv);
    PosteriorBoundedBelow(req, mu, covariance, ti, s, m1inv);
    forall mu': Vec, covariance': Mat, ti': Mat, s': Vec, m1inv': Mat, raw': Vec
      | IsPosterior(req, mu', covariance', ti', s', m1inv') && IsRaw(covariance', mu', req.riskAversion, raw')
      ensures !Cancels(covariance', mu', req.riskAversion, raw')
    {
      PosteriorUnique(req, mu, covariance, ti, s, m1inv, mu', covariance', ti', s', m1inv');
      RawUnique(covariance, mu, req.riskAversion, raw, raw');
    }
  }

  lemma ViewsConfident(req: BlackLittermanRequest, mu: Vec, covariance: Mat, ti: Mat, s: Vec, m1inv: Mat)
    requires ValidBlackLitterman(req) && IsPosterior(req, mu, covariance, ti, s, m1inv)
    ensures !ZeroConfidence(req)
  {
    hide DotTo, MatVec, Sigma, Scaled, Quad, Undoes, MatAdd, ViewPrecision, SolvesPosterior, Prior;
  }

  lemma OrdinaryInverts(req: BlackLittermanRequest, e: Error)
    requires ValidBlackLitterman(req) && Ordinary(req) && Refused(req, e)
    ensures ZeroConfidence(req) || WeightsCancel(req)
  {
    hide NearSingular, Clears, Moderate, Sigma, Scaled, ZeroConfidence, WeightsCancel, IsPosterior;
  }

  method KeyMeans(assets: seq<string>, mu: Vec) returns (keyed: map<string, real>)
    requires |mu| == |assets| && forall i, j :: 0 <= i < j < |assets| ==> assets[i] != assets[j]
    ensures keyed.Keys == (set l | l in assets) && forall i :: 0 <= i < |assets| ==> keyed[assets[i]] == mu[i]
  {
    keyed := map[];
    for i := 0 to |assets|
      invariant keyed.Keys == (set k | 0 <= k < i :: assets[k])
      invariant forall k :: 0 <= k < i ==> keyed[assets[k]] == mu[k]
    {
      keyed := keyed[assets[i] := mu[i]];
    }
    assert keyed.Keys == set l | l in assets;
  }

  method OptimiseValid(req: BlackLittermanRequest, sqrt: real -> real) returns (r: Result<BlackLittermanResult>)
    requires ValidBlackLitterman(req) && IsSqrt(sqrt)
    ensures r.Failure? ==> Refused(req, r.error)
    ensures r.Success? ==> Answers(req, r.value, sqrt)
  {
    hide DotTo, MatVec, Undoes, Sigma, ViewPrecision, MatAdd, Scaled, Prior, SolvesPosterior, IsTangency, ViewWeights,
         IsInverse, IsPosterior, IsRaw, Refused, Quad, IsSqrt, Sum, NearSingular, Scale, RawRatio;
    var means, cov := RidgedCovariance(req.history);
    var moments, ti, s, m1inv := PosteriorMoments(req, cov);
    if moments.Failure? {
      return Failure(moments.error);
    }
    var (mu, sigmaBl) := moments.value;
    var tangency := TangencyWeights(sigmaBl, mu, req.riskAversion);
    if tangency.Failure? {
      TangencyRefused(req, mu, sigmaBl, ti, s, m1inv, tangency.error);
      return Failure(tangency.error);
    }
    var w := tangency.value;
    ghost var raw :| IsNormalisedRaw(sigmaBl, mu, req.riskAversion, raw, w);
    TangencyShape(sigmaBl, mu, RawRatio(req.riskAversion, raw), w);
    var expectedReturn, volatility, sharpe := PortfolioMetrics(w, mu, sigmaBl, 0.0, sqrt);
    SqrtSquared(sqrt, Max(0.0, Quad(sigmaBl, w)));
    var keyed := KeyMeans(req.assets, mu);
    var portfolio := BuildResult(w, req.assets, expectedReturn, volatility, sharpe);
    var result := BlackLittermanResult(portfolio.value, keyed, sigmaBl);
    assert MeansOf(result, req.assets) == mu && WeightsOf(portfolio.value, req.assets) == w;
    return Success(result);
  }

  lemma PosteriorBoundedBelow(req: BlackLittermanRequest, mu: Vec, covariance: Mat, ti: Mat, s: Vec, m1inv: Mat)
    requires ValidBlackLitterman(req) && IsPosterior(req, mu, covariance, ti, s, m1inv)
    ensures |covariance| == |req.history| && Symmetric(covariance) && BoundedBelow(covariance, COV_RIDGE)
    ensures PositiveDefinite(covariance)
  {
    hide DotTo, MatVec, Undoes, Sigma, Weigh, ViewPrecision, MatAdd, Scaled, SymmetricEntries, PositiveEverywhere,
         Prior, SolvesPosterior, BoundedBelow, Quad;
    var sigma := Sigma(req.history);
    var t := Scaled(req.tau, sigma);
    SigmaPositiveDefinite(req.history);
    ScaledPositiveDefinite(req.tau, sigma);
    InversePositiveDefinite(t, ti);
    PrecisionPositiveDefinite(ti, req.pMatrix, s);
    InversePositiveDefinite(MatAdd(ti, ViewPrecision(req.pMatrix, s, |t|)), m1inv);
    forall x: Vec | |x| == |sigma| ensures Quad(m1inv, x) >= 0.0 { QuadNonNegative(m1inv, x); }
    SumBoundedBelow(sigma, m1inv, COV_RIDGE);
    MatAddPositiveDefinite(sigma, m1inv);
  }

  lemma TangencyRefused(req: BlackLittermanRequest, mu: Vec, covariance: Mat, ti: Mat, s: Vec, m1inv: Mat, e: Error)
    requires ValidBlackLitterman(req) && IsPosterior(req, mu, covariance, ti, s, m1inv)
    requires IsMat(covariance, |covariance|, |covariance|) && NoTangency(covariance, mu, req.riskAversion, e)
    ensures Refused(req, e)
  {
    hide ValidBlackLitterman, IsPosterior, IsRaw, NearSingular, Scaled, SumTo, Clears, Moderate, ZeroConfidence, Sigma;
    PosteriorBoundedBelow(req, mu, covariance, ti, s, m1inv);
    if e == Internal("matrix is singular or near-singular") {
      if Clears(req.riskAversion, |req.history|) {
        PositiveFactors(req);
        ScaledNotNearSingular(covariance, req.riskAversion);
      }
      assert ScaledNearSingular(req.riskAversion, covariance);
    } else {
      var raw :| Cancels(covariance, mu, req.riskAversion, raw);
    }
  }

  lemma PositiveFactors(req: BlackLittermanRequest)
    requires ValidBlackLitterman(req)
    ensures req.riskAversion > 0.0 && req.tau > 0.0 && |req.history| > 0
  {
  }

  lemma TangencyShape(c: Mat, mu: Vec, ratio: real, w: Vec)
    requires IsMat(c, |c|, |c|) && IsTangency(c, mu, ratio, w)
    ensures |w| == |c| && Sum(w) == 1.0
  {
  }

  // ---------- one view per asset ----------

  datatype SimplifiedRequest = SimplifiedRequest(
    history: Mat, assets: seq<string>, marketCaps: map<string, real>, views: seq<(string, real)>, tau: real,
    riskAversion: real)

  /** Row i is the unit vector of the first asset labelled as view i, and q its stated return. */
  ghost predicate UnitViews(assets: seq<string>, views: seq<(string, real)>, p: Mat, q: Vec) {
    |p| == |q| == |views| && forall i :: 0 <= i < |views| ==> IsUnitView(assets, views[i], p[i], q[i])
  }

  ghost predicate IsUnitView(assets: seq<string>, view: (string, real), row: Vec, q: real) {
    && q == view.1
    && exists j: nat ::
         j < |assets| && assets[j] == view.0 && view.0 !in assets[..j] && row == Unit(|assets|, j)
  }

  method BuildViews(assets: seq<string>, views: seq<(string, real)>) returns (r: Result<(Mat, Vec)>)
    ensures r.Success? <==> forall i :: 0 <= i < |views| ==> views[i].0 in assets
    ensures r.Success? ==> UnitViews(assets, views, r.value.0, r.value.1)
    ensures r.Failure? ==> r.error == InvalidCommand("unknown view asset")
  {
    var rows: Mat, q: Vec := [], [];
    for i := 0 to |views|
      invariant forall k :: 0 <= k < i ==> views[k].0 in assets
      invariant UnitViews(assets, views[..i], rows, q)
    {
      var idx := 0;
      while idx < |assets| && assets[idx] != views[i].0
        invariant 0 <= idx <= |assets| && views[i].0 !in assets[..idx]
      {
        idx := idx + 1;
      }
      if idx == |assets| {
        return Failure(InvalidCommand("unknown view asset"));
      }
      var row := Zeros(|assets|)[idx := 1.0];
      assert row == Unit(|assets|, idx);
      rows := rows + [row];
      q := q + [views[i].1];
    }
    assert views[..|views|] == views;
    return Success((rows, q));
  }

  method OrderCaps(assets: seq<string>, caps: map<string, real>) returns (r: Result<Vec>)
    ensures r.Success? <==> forall i :: 0 <= i < |assets| ==> assets[i] in caps && caps[assets[i]] > 0.0
    ensures r.Success? ==> |r.value| == |assets| && forall i :: 0 <= i < |assets| ==> r.value[i] == caps[assets[i]]
    ensures r.Failure? ==> r.error.InvalidCommand?
  {
    var ordered: Vec := [];
    for i := 0 to |assets|
      invariant |ordered| == i
      invariant forall k :: 0 <= k < i ==> assets[k] in caps && caps[assets[k]] > 0.0 && ordered[k] == caps[assets[k]]
    {
      if assets[i] !in caps {
        return Failure(InvalidCommand("missing market cap for asset"));
      }
      if caps[assets[i]] <= 0.0 {
        return Failure(InvalidCommand("market cap must be positive and finite"));
      }
      ordered := ordered + [caps[assets[i]]];
    }
    return Success(ordered);
  }

  ghost predicate Expands(req: SimplifiedRequest, full: BlackLittermanRequest) {
    && full.history == req.history && full.assets == req.assets && full.tau == req.tau
    && full.riskAversion == req.riskAversion
    && |full.marketCaps| == |req.assets|
    && (forall i :: 0 <= i < |req.assets| ==>
          req.assets[i] in req.marketCaps && full.marketCaps[i] == req.marketCaps[req.assets[i]])
    && UnitViews(req.assets, req.views, full.pMatrix, full.qVector)
  }

  /** What the front end itself asks for. */
  predicate ValidSimplified(req: SimplifiedRequest) {
    && |req.assets| > 0 && |req.views| > 0 && req.tau > 0.0 && req.riskAversion > 0.0
    && (forall i :: 0 <= i < |req.assets| ==> req.assets[i] in req.marketCaps && req.marketCaps[req.assets[i]] > 0.0)
    && (forall i :: 0 <= i < |req.views| ==> req.views[i].0 in req.assets)
  }

  method OptimiseSimplified(req: SimplifiedRequest, sqrt: real -> real)
    returns (r: Result<BlackLittermanResult>, ghost full: BlackLittermanRequest)
    requires IsSqrt(sqrt)
    ensures |req.assets| == 0 ==> r == Failure(DataQuality("labels must not be empty"))
    ensures |req.assets| > 0 && |req.views| == 0 ==>
              r == Failure(InvalidCommand("at least one expert view is required"))
    ensures !ValidSimplified(req) ==> r.Failure? && (r.error.InvalidCommand? || r.error.DataQuality?)
    ensures ValidSimplified(req) && !ValidBlackLitterman(full) ==>
              r.Failure? && (r.error.InvalidCommand? || r.error.DataQuality?)
    ensures ValidSimplified(req) ==>
              && Expands(req, full)
              && if r.Success? then ValidBlackLitterman(full) && Answers(full, r.value, sqrt)
                 else ValidBlackLitterman(full) ==> Refused(full, r.error)
    ensures ValidSimplified(req) && ValidBlackLitterman(full) && (ZeroConfidence(full) || WeightsCancel(full)) ==>
              r.Failure?
    ensures ValidSimplified(req) && ValidBlackLitterman(full) && Ordinary(full) ==>
              (r.Failure? <==> ZeroConfidence(full) || WeightsCancel(full))
  {
    hide ValidBlackLitterman, Answers, Refused, UnitViews, ZeroConfidence, WeightsCancel, Ordinary;
    full := BlackLittermanRequest([], [], [], [], [], 0.0, 0.0);
    if |req.assets| == 0 {
      return Failure(DataQuality("labels must not be empty")), full;
    }
    if |req.views| == 0 {
      return Failure(InvalidCommand("at least one expert view is required")), full;
    }
    if req.tau <= 0.0 {
      return Failure(InvalidCommand("tau must be a positive finite number")), full;
    }
    if req.riskAversion <= 0.0 {
      return Failure(InvalidCommand("risk_aversion must be a positive finite number")), full;
    }
    var caps := OrderCaps(req.assets, req.marketCaps);
    if caps.Failure? {
      return Failure(caps.error), full;
    }
    var views := BuildViews(req.assets, req.views);
    if views.Failure? {
      return Failure(views.error), full;
    }
    var expanded := BlackLittermanRequest(
      req.history, req.assets, caps.value, views.value.0, views.value.1, req.tau, req.riskAversion);
    full := expanded;
    r := Optimise(expanded, sqrt);
  }

  // ---------- what a refusal means ----------

  /** tau and risk aversion of at least 1e-5 and scaled covariances of at most 9e10 rule out every failed inversion. */
  lemma OrdinaryRequest(req: BlackLittermanRequest)
    requires ValidBlackLitterman(req) && req.tau >= 1e-5 && req.riskAversion >= 1e-5
    requires var t := Scaled(req.tau, Sigma(req.history));
             forall i, j :: 0 <= i < |t| && 0 <= j < |t[i]| ==> Abs(t[i][j]) <= 9e10
    ensures Ordinary(req) && !CannotInvert(req)
  {
    hide Clears, Moderate, Sigma, Scaled, NearSingular, IsPosterior, Abs;
    OrdinaryFactorClears(req.tau, |req.history|);
    OrdinaryFactorClears(req.riskAversion, |req.history|);
    OrdinaryEntriesAreModerate(Scaled(req.tau, Sigma(req.history)));
  }

  /** The ridge gives every view of squared length 1e-4 / tau a variance; one-asset views have squared length one. */
  lemma LongViewsConfident(req: BlackLittermanRequest)
    requires ValidBlackLitterman(req)
    requires forall i :: 0 <= i < |req.pMatrix| ==>
               req.tau * (COV_RIDGE * Dot(req.pMatrix[i], req.pMatrix[i])) >= DEGENERACY_EPS
    ensures !ZeroConfidence(req)
  {
    hide Sigma, Scaled, Dot, MatVec, Quad, SymmetricEntries, PositiveEverywhere;
    SigmaPositiveDefinite(req.history);
    var sigma := Sigma(req.history);
    forall i | 0 <= i < |req.pMatrix| ensures Quad(Scaled(req.tau, sigma), req.pMatrix[i]) >= DEGENERACY_EPS {
      var row := req.pMatrix[i];
      ScaledQuad(req.tau, sigma, row);
      MulMonotone(COV_RIDGE * Dot(row, row), Quad(sigma, row), req.tau);
    }
  }

  /** One-asset views always carry variance when tau is at least 1e-4. */
  lemma SimplifiedConfident(req: SimplifiedRequest, full: BlackLittermanRequest)
    requires Expands(req, full) && ValidBlackLitterman(full) && full.tau >= 1e-4
    ensures !ZeroConfidence(full)
  {
    hide Dot, Sigma, Unit, ZeroConfidence, ValidReturns;
    forall i | 0 <= i < |full.pMatrix|
      ensures full.tau * (COV_RIDGE * Dot(full.pMatrix[i], full.pMatrix[i])) >= DEGENERACY_EPS
    {
      assert IsUnitView(req.assets, req.views[i], full.pMatrix[i], full.qVector[i]);
      var j: nat :| j < |req.assets| && full.pMatrix[i] == Unit(|req.assets|, j);
      UnitNorm(|req.assets|, j);
    }
    LongViewsConfident(full);
  }

  lemma UnitNorm(n: nat, j: nat)
    requires j < n
    ensures Dot(Unit(n, j), Unit(n, j)) == 1.0
  {
    DotUnit(Unit(n, j), j);
  }

  // ---------- what a result means ----------

  /** Whatever the views, the returned mean is the unique minimiser of prior distance plus view errors. */
  lemma ResultIsMinimiser(req: BlackLittermanRequest, mu: Vec, covariance: Mat, ti: Mat, s: Vec, m1inv: Mat, other: Vec)
    requires ValidBlackLitterman(req) && IsPosterior(req, mu, covariance, ti, s, m1inv)
    requires |other| == |req.history| && other != mu
    ensures |mu| == |req.history| && |s| == |req.pMatrix| && IsMat(ti, |mu|, |mu|)
    ensures Loss(ti, Prior(req), req.pMatrix, req.qVector, s, other)
            > Loss(ti, Prior(req), req.pMatrix, req.qVector, s, mu)
  {
    hide DotTo, MatVec, Undoes, Sigma, Weigh, ViewPrecision, MatAdd, Scaled, SymmetricEntries, PositiveEverywhere,
         Prior, Loss, SolvesPosterior, BoundedBelow, Quad;
    SigmaPositiveDefinite(req.history);
    ScaledPositiveDefinite(req.tau, Sigma(req.history));
    InversePositiveDefinite(Scaled(req.tau, Sigma(req.history)), ti);
    PosteriorIsUniqueMinimiser(ti, Prior(req), req.pMatrix, req.qVector, s, mu, other);
  }

  /** One view on one asset: its posterior return is the midpoint of the equilibrium return and the view, whatever tau
      is. */
  lemma SingleAssetViewHalfway(req: BlackLittermanRequest, mu: Vec, covariance: Mat, ti: Mat, s: Vec, m1inv: Mat,
                               j: nat)
    requires ValidBlackLitterman(req) && IsPosterior(req, mu, covariance, ti, s, m1inv)
    requires j < |req.history| && req.pMatrix == [Unit(|req.history|, j)]
    ensures |mu| == |req.history| && mu[j] == (Prior(req)[j] + req.qVector[0]) / 2.0
  {
    hide DotTo, MatVec, Undoes, Sigma, Weigh, ViewPrecision, MatAdd, Scaled, SymmetricEntries, PositiveEverywhere,
         Prior, SolvesPosterior, BoundedBelow, Quad;
    var t := Scaled(req.tau, Sigma(req.history));
    SigmaPositiveDefinite(req.history);
    ScaledPositiveDefinite(req.tau, Sigma(req.history));
    assert s == [s[0]] && req.qVector == [req.qVector[0]];
    SingleViewHalfway(t, ti, Prior(req), req.pMatrix[0], req.qVector[0], s[0], mu);
    DotUnit(mu, j);
    DotUnit(Prior(req), j);
  }

  /** The returned portfolio has the best Sharpe ratio under the posterior exactly when there is one asset or the raw
      weights, which the request determines, sum to more than zero; when they sum to less no portfolio is worse. */
  lemma ResultIsBestExactly(req: BlackLittermanRequest, r: BlackLittermanResult, sqrt: real -> real, mu: Vec,
                            covariance: Mat, ti: Mat, s: Vec, m1inv: Mat, raw: Vec)
    requires IsSqrt(sqrt) && ValidBlackLitterman(req) && Answers(req, r, sqrt)
    requires IsPosterior(req, mu, covariance, ti, s, m1inv) && IsRaw(covariance, mu, req.riskAversion, raw)
    ensures var w := WeightsOf(r.portfolio, req.assets);
            && mu == MeansOf(r, req.assets) && covariance == r.covariance
            && PositiveDefinite(covariance) && |w| == |mu| == |covariance|
            && (BestSharpe(sqrt, covariance, mu, w) <==> |req.history| == 1 || Sum(raw) > 0.0)
            && (Sum(raw) < 0.0 ==> WorstSharpe(sqrt, covariance, mu, w))
  {
    hide DotTo, MatVec, Sigma, Scaled, Quad, IsRaw, Sum, IsPosterior, ValidReturns, ValidViews, ValidCaps, Max, IsSqrt,
         SymmetricEntries, PositiveEverywhere, IsTangency, BoundedBelow, BestSharpe, WorstSharpe, RawRatio, Scale, Dot,
         SharpeOf, IsPosteriorResult, Abs;
    PositiveFactors(req);
    var w := WeightsOf(r.portfolio, req.assets);
    OwnRaw(req, r, sqrt, mu, covariance, ti, s, m1inv, raw);
    PosteriorBoundedBelow(req, mu, covariance, ti, s, m1inv);
    RatioSign(req.riskAversion, raw);
    BestExactly(sqrt, covariance, mu, RawRatio(req.riskAversion, raw), w);
  }

  /** The raw weights behind a result are those of the request's posterior. */
  lemma OwnRaw(req: BlackLittermanRequest, r: BlackLittermanResult, sqrt: real -> real, mu: Vec, covariance: Mat,
               ti: Mat, s: Vec, m1inv: Mat, raw: Vec)
    requires ValidBlackLitterman(req) && Answers(req, r, sqrt)
    requires IsPosterior(req, mu, covariance, ti, s, m1inv) && IsRaw(covariance, mu, req.riskAversion, raw)
    ensures mu == MeansOf(r, req.assets) && covariance == r.covariance
    ensures IsMat(covariance, |covariance|, |covariance|)
    ensures IsTangency(covariance, mu, RawRatio(req.riskAversion, raw), WeightsOf(r.portfolio, req.assets))
  {
    hide DotTo, MatVec, Sigma, Scaled, Quad, IsRaw, Sum, Abs, IsPosterior, ValidReturns, ValidViews, ValidCaps, Max,
         IsTangency, RawRatio, Scale, Dot, SharpeOf;
    var mu', c' := MeansOf(r, req.assets), r.covariance;
    var ti': Mat, s': Vec, m1inv': Mat, raw': Vec :|
      IsPosterior(req, mu', c', ti', s', m1inv')
      && IsNormalisedRaw(c', mu', req.riskAversion, raw', WeightsOf(r.portfolio, req.assets));
    PosteriorUnique(req, mu, covariance, ti, s, m1inv, mu', c', ti', s', m1inv');
    PosteriorBoundedBelow(req, mu, covariance, ti, s, m1inv);
    RawUnique(covariance, mu, req.riskAversion, raw, raw');
  }

  lemma RatioSign(riskAversion: real, raw: Vec)
    requires riskAversion > 0.0
    ensures RawRatio(riskAversion, raw) > 0.0 <==> Sum(raw) > 0.0
    ensures RawRatio(riskAversion, raw) < 0.0 <==> Sum(raw) < 0.0
  {
    FactorSign(riskAversion, Sum(raw), RawRatio(riskAversion, raw));
  }

  /** The reported return has the sign of that sum, so it tells the best portfolio from the worst. */
  lemma ReturnTellsBest(req: BlackLittermanRequest, r: BlackLittermanResult, sqrt: real -> real, mu: Vec,
                        covariance: Mat, ti: Mat, s: Vec, m1inv: Mat, raw: Vec)
    requires ValidBlackLitterman(req) && Answers(req, r, sqrt)
    requires IsPosterior(req, mu, covariance, ti, s, m1inv) && IsRaw(covariance, mu, req.riskAversion, raw)
    ensures r.portfolio.expectedReturn > 0.0 <==> Sum(raw) > 0.0
    ensures r.portfolio.expectedReturn < 0.0 <==> Sum(raw) < 0.0
  {
    hide DotTo, MatVec, Sigma, Scaled, Quad, IsRaw, Sum, IsPosterior, ValidReturns, ValidViews, ValidCaps, Max,
         SymmetricEntries, PositiveEverywhere, IsTangency, BoundedBelow, RawRatio, Scale, Dot, SharpeOf,
         IsPosteriorResult;
    OwnRaw(req, r, sqrt, mu, covariance, ti, s, m1inv, raw);
    PosteriorBoundedBelow(req, mu, covariance, ti, s, m1inv);
    RatioSign(req.riskAversion, raw);
    TangencySign(covariance, mu, RawRatio(req.riskAversion, raw), WeightsOf(r.portfolio, req.assets));
  }

  ghost predicate WorstSharpe(sqrt: real -> real, s: Mat, e: Vec, w: Vec)
    requires IsSqrt(sqrt) && PositiveDefinite(s) && |w| == |e| == |s|
  {
    forall x: Vec :: FullyInvested(x, |s|) ==> NoBetter(sqrt, s, e, w, x)
  }

  lemma BestExactly(sqrt: real -> real, c: Mat, mu: Vec, ratio: real, w: Vec)
    requires IsSqrt(sqrt) && PositiveDefinite(c) && IsTangency(c, mu, ratio, w) && |c| > 0
    ensures |w| == |mu| == |c|
    ensures BestSharpe(sqrt, c, mu, w) <==> |c| == 1 || ratio > 0.0
    ensures ratio < 0.0 ==> WorstSharpe(sqrt, c, mu, w)
  {
    hide DotTo, MatVec, SymmetricEntries, PositiveEverywhere, Quad, Vol, IsSqrt, NoBetter, SumTo;
    if |c| == 1 {
      forall x: Vec | FullyInvested(x, 1) ensures NoBetter(sqrt, c, mu, x, w) {
        OneAsset(w, x);
        NotBetterIsWorse(sqrt, c, mu, x, w);
      }
    } else {
      TangencyCase(sqrt, c, mu, ratio, w);
    }
    if ratio < 0.0 {
      forall x: Vec | FullyInvested(x, |c|) ensures NoBetter(sqrt, c, mu, w, x) {
        TangencyIsExtreme(sqrt, c, mu, ratio, w, x);
        NotBetterIsWorse(sqrt, c, mu, w, x);
      }
    }
  }

  lemma NotBetterIsWorse(sqrt: real -> real, s: Mat, e: Vec, w: Vec, x: Vec)
    requires IsSqrt(sqrt) && PositiveDefinite(s) && |w| == |x| == |e| == |s|
    requires x == w || !NoBetter(sqrt, s, e, x, w)
    ensures NoBetter(sqrt, s, e, w, x)
  {
    hide DotTo, Dot, Quad, Vol, IsSqrt, PositiveEverywhere, SymmetricEntries, RatioOrder;
    OrderIsTotal(Dot(x, e), Vol(sqrt, s, x), Dot(w, e), Vol(sqrt, s, w));
  }

  lemma OrderIsTotal(p: real, u: real, q: real, v: real)
    ensures RatioOrder(p, u, q, v) || RatioOrder(q, v, p, u)
    ensures p == q && u == v ==> RatioOrder(p, u, q, v)
  {
  }
}
