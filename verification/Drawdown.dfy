/** The running-peak drawdown loop shared by the engine, walk-forward, Monte Carlo and risk metrics. */
module Drawdown {
  import opened Reals
  import opened LinearAlgebra

  /** The peak after the first `k` values, starting from `start`. */
  function PeakTo(e: Vec, start: real, k: nat): real
    requires k <= |e|
  {
    if k == 0 then start else Max(PeakTo(e, start, k - 1), e[k - 1])
  }

  /** The worst fall below the running peak so far, as a fraction of that peak. */
  function WorstTo(e: Vec, start: real, k: nat): real
    requires k <= |e|
  {
    if k == 0 then 0.0
    else
      var worst, peak := WorstTo(e, start, k - 1), PeakTo(e, start, k);
      if peak > 0.0 then Max(worst, (peak - e[k - 1]) / peak) else worst
  }

  function MaxDrawdown(e: Vec, start: real): real { -WorstTo(e, start, |e|) }

  method ComputeMaxDrawdown(e: Vec, start: real) returns (dd: real)
    ensures dd == MaxDrawdown(e, start)
  {
    var peak, worst := start, 0.0;
    for i := 0 to |e|
      invariant peak == PeakTo(e, start, i) && worst == WorstTo(e, start, i)
    {
      if e[i] > peak {
        peak := e[i];
      }
      if peak > 0.0 {
        var fall := (peak - e[i]) / peak;
        if fall > worst {
          worst := fall;
        }
      }
    }
    dd := -worst;
  }

  // ---------- the pairwise reading ----------

  function Fall(e: Vec, i: nat, j: nat): real
    requires i < |e| && j < |e| && e[i] != 0.0
  {
    (e[i] - e[j]) / e[i]
  }

  ghost predicate Positive(e: Vec) { forall i :: 0 <= i < |e| ==> e[i] > 0.0 }

  /** `w` is the largest fall from any value to a later one. */
  ghost predicate IsWorstFall(e: Vec, w: real, k: nat)
    requires Positive(e) && k <= |e|
  {
    && (forall i, j :: 0 <= i <= j < k ==> Fall(e, i, j) <= w)
    && (exists i, j :: 0 <= i <= j < k && Fall(e, i, j) == w)
  }

  lemma {:induction false} PeakIsMax(e: Vec, k: nat) returns (i: nat)
    requires Positive(e) && 0 < k <= |e|
    ensures i < k && PeakTo(e, 0.0, k) == e[i] && forall j :: 0 <= j < k ==> e[j] <= e[i]
  {
    if k == 1 {
      i := 0;
    } else {
      var before := PeakIsMax(e, k - 1);
      i := if e[before] < e[k - 1] then k - 1 else before;
    }
  }

  /** Falling to `x` from a higher peak is at least as bad. */
  lemma HigherPeak(a: real, b: real, x: real)
    requires 0.0 < a <= b && x > 0.0
    ensures (a - x) / a <= (b - x) / b < 1.0
  {
    DivSign(x, a);
    DivSign(x, b);
    OneMinus(a, x);
    OneMinus(b, x);
    var p, q := x / a, x / b;
    MulMonotone(a, b, p);
    assert b * (p - q) == b * p - q * b;
    FactorSign(b, p - q, b * (p - q));
  }

  lemma OneMinus(a: real, x: real)
    requires a > 0.0
    ensures (a - x) / a == 1.0 - x / a
  {
    var q, p := (a - x) / a, x / a;
    assert q * a == a - x && p * a == x;
    assert a * (q - (1.0 - p)) == q * a - a + p * a;
    FactorSign(a, q - (1.0 - p), a * (q - (1.0 - p)));
  }

  /** The one-pass loop finds the worst pair, and never a total loss. */
  lemma {:induction false} OnePassIsPairwise(e: Vec, k: nat)
    requires Positive(e) && 0 < k <= |e|
    ensures IsWorstFall(e, WorstTo(e, 0.0, k), k)
    ensures 0.0 <= WorstTo(e, 0.0, k) < 1.0
  {
    var p := PeakIsMax(e, k);
    HigherPeak(e[p], e[p], e[k - 1]);
    var last := k - 1;
    forall i | 0 <= i < k ensures Fall(e, i, last) <= Fall(e, p, last) < 1.0 { HigherPeak(e[i], e[p], e[last]); }
    assert Fall(e, k - 1, k - 1) == 0.0;
    if k == 1 {
      assert WorstTo(e, 0.0, 1) == Fall(e, 0, 0);
    } else {
      OnePassIsPairwise(e, k - 1);
      var w, now := WorstTo(e, 0.0, k - 1), Fall(e, p, k - 1);
      assert WorstTo(e, 0.0, k) == Max(w, now);
      if w < now {
        assert Fall(e, p, k - 1) == WorstTo(e, 0.0, k);
      } else {
        var i, j :| 0 <= i <= j < k - 1 && Fall(e, i, j) == w;
        assert Fall(e, i, j) == WorstTo(e, 0.0, k);
      }
    }
  }

  /** Starting the peak at a positive value is the same as putting that value in front of the curve. */
  lemma {:induction false} StartInFront(e: Vec, start: real, k: nat)
    requires start > 0.0 && k <= |e|
    ensures PeakTo([start] + e, 0.0, k + 1) == PeakTo(e, start, k) > 0.0
    ensures WorstTo([start] + e, 0.0, k + 1) == WorstTo(e, start, k) >= 0.0
  {
    if k == 0 {
      assert PeakTo([start] + e, 0.0, 1) == Max(PeakTo([start] + e, 0.0, 0), ([start] + e)[0]);
      assert (start - start) / start == 0.0;
    } else {
      StartInFront(e, start, k - 1);
      assert ([start] + e)[k] == e[k - 1];
    }
  }
}
