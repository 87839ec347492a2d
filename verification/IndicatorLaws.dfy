/** Laws of the indicators that do not mention how they are computed: averages lie between the values averaged, follow a
    straight line at a known distance, mirror mirrored prices, and add up. */
module IndicatorLaws {
  import opened Reals
  import opened LinearAlgebra
  import opened Covariance
  import opened Moments
  import opened Outcome
  import opened Market
  import opened Indicators

  // ---------- averages ----------

  ghost predicate Within(v: Vec, lo: real, hi: real) { forall i :: 0 <= i < |v| ==> lo <= v[i] <= hi }

  lemma {:induction false} SumWithin(v: Vec, lo: real, hi: real, k: nat)
    requires k <= |v| && Within(v, lo, hi)
    ensures lo * (k as real) <= SumTo(v, k) <= hi * (k as real)
  {
    if k > 0 {
      SumWithin(v, lo, hi, k - 1);
      assert lo * (k as real) == lo * ((k - 1) as real) + lo && hi * (k as real) == hi * ((k - 1) as real) + hi;
    }
  }

  lemma QuotientWithin(s: real, n: real, lo: real, hi: real, q: real)
    requires n > 0.0 && lo * n <= s <= hi * n && q == s / n
    ensures q * n == s && lo <= q <= hi
  {
    assert q * n == s;
    if q < lo { ProductPositive(lo - q, n, (lo - q) * n); }
    if q > hi { ProductPositive(q - hi, n, (q - hi) * n); }
  }

  lemma MeanWithin(v: Vec, lo: real, hi: real)
    requires |v| > 0 && Within(v, lo, hi)
    ensures MeanOf(v) * (|v| as real) == Sum(v) && lo <= MeanOf(v) <= hi
  {
    SumWithin(v, lo, hi, |v|);
    QuotientWithin(Sum(v), |v| as real, lo, hi, MeanOf(v));
  }

  lemma MeanTimes(v: Vec)
    requires |v| > 0
    ensures MeanOf(v) * (|v| as real) == Sum(v)
  {
  }

  /** The moving average exists from bar period - 1 on, averages the last `period` closes and lies between them. */
  lemma SmaLaw(closes: Vec, period: nat, i: nat, lo: real, hi: real)
    requires i < |closes|
    ensures SmaAt(closes, period, i).Some? <==> 0 < period <= i + 1
    ensures 0 < period <= i + 1 ==>
              SmaAt(closes, period, i).value * (period as real) == Sum(closes[i + 1 - period..i + 1])
    ensures 0 < period <= i + 1 && Within(closes[i + 1 - period..i + 1], lo, hi) ==>
              lo <= SmaAt(closes, period, i).value <= hi
  {
    hide SumTo;
    if 0 < period <= i + 1 {
      var window := closes[i + 1 - period..i + 1];
      MeanTimes(window);
      if Within(window, lo, hi) { MeanWithin(window, lo, hi); }
    }
  }

  // ---------- the exponential average ----------

  lemma EmaStep(prev: real, x: real, period: nat)
    ensures EmaNext(prev, x, period) * (period as real + 1.0) == 2.0 * x + (period as real - 1.0) * prev
  {
    var n, k := (period + 1) as real, 2.0 / ((period + 1) as real);
    assert n == period as real + 1.0 && k * n == 2.0;
    assert ((x - prev) * k + prev) * n == (x - prev) * (k * n) + prev * n;
  }

  lemma FactorWithin(n: real, r: real, lo: real, hi: real, a: real, b: real, c: real)
    requires n > 0.0 && a == lo * n && b == r * n && c == hi * n && a <= b <= c
    ensures lo <= r <= hi
  {
    FactorSign(n, r - lo, n * (r - lo));
    FactorSign(n, hi - r, n * (hi - r));
  }

  lemma WeightedWithin(p: real, x: real, prev: real, r: real, lo: real, hi: real)
    requires p >= 1.0 && lo <= x <= hi && lo <= prev <= hi && r * (p + 1.0) == 2.0 * x + (p - 1.0) * prev
    ensures lo <= r <= hi
  {
    MulMonotone(lo, prev, p - 1.0);
    MulMonotone(prev, hi, p - 1.0);
    assert lo * (p + 1.0) == 2.0 * lo + (p - 1.0) * lo && hi * (p + 1.0) == 2.0 * hi + (p - 1.0) * hi;
    FactorWithin(p + 1.0, r, lo, hi, lo * (p + 1.0), r * (p + 1.0), hi * (p + 1.0));
  }

  /** The exponential average starts with a plain mean, then weighs the new close twice against period - 1 times itself,
      and lies between the closes so far. */
  lemma {:induction false} EmaLaw(closes: Vec, period: nat, i: nat, lo: real, hi: real)
    requires 0 < period <= i + 1 <= |closes| && Within(closes[..i + 1], lo, hi)
    ensures lo <= EmaLevel(closes, period, i) <= hi
    ensures i + 1 == period ==> EmaLevel(closes, period, i) * (period as real) == Sum(closes[..period])
    ensures i + 1 > period ==>
              EmaLevel(closes, period, i) * (period as real + 1.0)
              == 2.0 * closes[i] + (period as real - 1.0) * EmaLevel(closes, period, i - 1)
  {
    hide SumTo, EmaNext, MeanOf;
    if i + 1 == period {
      MeanWithin(closes[..period], lo, hi);
    } else {
      assert Within(closes[..i], lo, hi) by {
        forall j | 0 <= j < i ensures lo <= closes[..i][j] <= hi { assert closes[..i + 1][j] == closes[..i][j]; }
      }
      EmaLaw(closes, period, i - 1, lo, hi);
      var prev := EmaLevel(closes, period, i - 1);
      EmaStep(prev, closes[i], period);
      assert closes[..i + 1][i] == closes[i];
      WeightedWithin(period as real, closes[i], prev, EmaLevel(closes, period, i), lo, hi);
    }
  }

  /** Closes on a straight line. */
  ghost predicate IsRamp(closes: Vec, a: real, b: real) {
    forall i :: 0 <= i < |closes| ==> closes[i] == a + b * (i as real)
  }

  /** How far an average over `period` bars trails the line. */
  function Trail(b: real, period: nat): real { b * (period as real - 1.0) / 2.0 }

  lemma {:induction false} RampSum(closes: Vec, a: real, b: real, from: nat, k: nat)
    requires IsRamp(closes, a, b) && from + k <= |closes|
    ensures SumTo(closes[from..], k) == (k as real) * (a + b * (from as real) + b * (k as real - 1.0) / 2.0)
  {
    if k > 0 {
      RampSum(closes, a, b, from, k - 1);
      var n, f := k as real, from as real;
      assert closes[from..][k - 1] == closes[from + k - 1] == a + b * (f + n - 1.0);
      RampStep(a, b, f, n);
    }
  }

  lemma RampStep(a: real, b: real, f: real, n: real)
    ensures (n - 1.0) * (a + b * f + b * (n - 2.0) / 2.0) + (a + b * (f + n - 1.0))
            == n * (a + b * f + b * (n - 1.0) / 2.0)
  {
  }

  lemma RampMean(closes: Vec, a: real, b: real, from: nat, period: nat)
    requires IsRamp(closes, a, b) && 0 < period && from + period <= |closes|
    ensures MeanOf(closes[from..from + period]) == closes[from + period - 1] - Trail(b, period)
  {
    hide SumTo;
    var window, n := closes[from..from + period], period as real;
    RampSum(closes, a, b, from, period);
    PrefixSum(closes[from..], window, period);
    var m := a + b * (from as real) + b * (n - 1.0) / 2.0;
    SameQuotient(Sum(window), n, m);
    assert closes[from + period - 1] == a + b * (from as real + n - 1.0);
  }

  lemma {:induction false} PrefixSum(v: Vec, w: Vec, k: nat)
    requires k <= |v| && k <= |w| && forall i :: 0 <= i < k ==> v[i] == w[i]
    ensures SumTo(v, k) == SumTo(w, k)
  {
    if k > 0 { PrefixSum(v, w, k - 1); }
  }

  lemma SameQuotient(s: real, n: real, m: real)
    requires n > 0.0 && s == n * m
    ensures s / n == m
  {
  }

  /** On a straight line both averages trail the close by slope times (period - 1) / 2, from their first value on. */
  lemma {:induction false} AveragesTrail(closes: Vec, a: real, b: real, period: nat, i: nat)
    requires IsRamp(closes, a, b) && 0 < period <= i + 1 <= |closes|
    ensures SmaAt(closes, period, i) == EmaAt(closes, period, i) == Some(closes[i] - Trail(b, period))
  {
    hide MeanOf, Trail, EmaNext;
    RampMean(closes, a, b, i + 1 - period, period);
    assert closes[i + 1 - period..i + 1 - period + period] == closes[i + 1 - period..i + 1];
    if i + 1 == period {
      assert closes[..period] == closes[0..period];
    } else {
      AveragesTrail(closes, a, b, period, i - 1);
      assert closes[i] == closes[i - 1] + b by { assert b * (i as real) == b * ((i - 1) as real) + b; }
      EmaStep(closes[i - 1] - Trail(b, period), closes[i], period);
      TrailStep(closes[i - 1], b, period, EmaLevel(closes, period, i));
    }
  }

  lemma TrailStep(x: real, b: real, period: nat, r: real)
    requires r * (period as real + 1.0) == 2.0 * (x + b) + (period as real - 1.0) * (x - Trail(b, period))
    ensures r == x + b - Trail(b, period)
  {
    var n, t := period as real, Trail(b, period);
    assert 2.0 * t == b * (n - 1.0);
    assert (x + b - t) * (n + 1.0) == 2.0 * (x + b) + (n - 1.0) * (x - t);
    SameFactorOf(n + 1.0, r, x + b - t);
  }

  lemma SameFactorOf(n: real, x: real, y: real)
    requires n > 0.0 && x * n == y * n
    ensures x == y
  {
    FactorSign(n, x - y, n * (x - y));
  }

  // ---------- the average of a line with missing values ----------

  /** Missing before `start`, then the values v. */
  ghost predicate StartsAt(vals: seq<Option<real>>, start: nat, v: Vec) {
    && |vals| == start + |v|
    && (forall k :: 0 <= k < start ==> vals[k] == None)
    && (forall k :: 0 <= k < |v| ==> vals[start + k] == Some(v[k]))
  }

  /** The state of the average after k entries of such a line. */
  ghost predicate StateIs(st: OptEma, v: Vec, start: nat, period: nat, k: nat)
    requires period > 0 && k <= start + |v|
  {
    if k < start + period then st == OptEma(None, if k <= start then [] else v[..k - start])
    else st.level == Some(EmaLevel(v, period, k - 1 - start))
  }

  lemma StateStep(st: OptEma, v: Vec, start: nat, period: nat, k: nat)
    requires period > 0 && k < start + |v| && StateIs(st, v, start, period, k)
    ensures StateIs(OptEmaStep(st, if k < start then None else Some(v[k - start]), period), v, start, period, k + 1)
  {
    hide MeanOf, EmaNext;
    if k >= start {
      assert v[..k + 1 - start] == v[..k - start] + [v[k - start]];
      if k <= start { assert v[..k - start] == []; }
    }
  }

  lemma {:induction false} OptEmaStateIs(vals: seq<Option<real>>, start: nat, v: Vec, period: nat, k: nat)
    requires StartsAt(vals, start, v) && period > 0 && k <= |vals|
    ensures StateIs(OptEmaState(vals, period, k), v, start, period, k)
  {
    hide OptEmaStep, EmaLevel;
    if k > 0 {
      OptEmaStateIs(vals, start, v, period, k - 1);
      StateStep(OptEmaState(vals, period, k - 1), v, start, period, k - 1);
      if k > start { assert vals[k - 1] == vals[start + (k - 1 - start)]; }
    }
  }

  /** Averaging a line that starts late is averaging its values: missing for period - 1 of them, then their average. */
  lemma OptEmaIsEma(vals: seq<Option<real>>, start: nat, v: Vec, period: nat, i: nat)
    requires StartsAt(vals, start, v) && i < |vals|
    ensures OptEmaAt(vals, period, i) == if i < start then None else EmaAt(v, period, i - start)
  {
    hide MeanOf, EmaNext;
    if period > 0 && i >= start {
      assert vals[i] == vals[start + (i - start)];
      OptEmaStateIs(vals, start, v, period, i + 1);
    }
  }

  /** The first bar with a MACD value. */
  function MacdStart(fast: nat, slow: nat): nat {
    var p := if fast < slow then slow else fast;
    if p == 0 then 0 else p - 1
  }

  /** The MACD is fast less slow average where both exist, its signal the average of what there is of it, and the
      histogram their difference. */
  lemma MacdLaw(closes: Vec, fast: nat, slow: nat, signal: nat, v: Vec, i: nat)
    requires fast > 0 && slow > 0 && i < |closes| && MacdStart(fast, slow) <= |closes|
    requires |v| == |closes| - MacdStart(fast, slow)
    requires forall k :: 0 <= k < |v| ==>
               v[k] == EmaLevel(closes, fast, MacdStart(fast, slow) + k)
                 - EmaLevel(closes, slow, MacdStart(fast, slow) + k)
    ensures var start := MacdStart(fast, slow);
            && MacdAt(closes, fast, slow, i) == (if i < start then None else Some(v[i - start]))
            && MacdSignalAt(closes, fast, slow, signal, i) == (if i < start then None else EmaAt(v, signal, i - start))
            && HistogramAt(closes, fast, slow, signal, i)
               == (if i < start || signal == 0 || i - start + 1 < signal then None
                   else Some(v[i - start] - EmaLevel(v, signal, i - start)))
  {
    hide EmaLevel;
    var start, line := MacdStart(fast, slow), MacdLine(closes, fast, slow);
    forall k | 0 <= k < |closes| ensures line[k] == if k < start then None else Some(v[k - start]) {
      if k >= start { assert v[k - start] == EmaLevel(closes, fast, k) - EmaLevel(closes, slow, k); }
    }
    OptEmaIsEma(line, start, v, signal, i);
  }

  /** On a straight line the MACD is slope times half the difference of the periods. */
  lemma MacdTrails(closes: Vec, a: real, b: real, fast: nat, slow: nat, i: nat)
    requires IsRamp(closes, a, b) && 0 < fast <= i + 1 && 0 < slow <= i + 1 <= |closes|
    ensures MacdAt(closes, fast, slow, i) == Some(b * (slow as real - fast as real) / 2.0)
  {
    AveragesTrail(closes, a, b, fast, i);
    AveragesTrail(closes, a, b, slow, i);
  }

  // ---------- relative strength ----------

  lemma SmoothTimes(prev: real, x: real, period: nat)
    requires period > 0
    ensures Smooth(prev, x, period) * (period as real) == prev * (period as real - 1.0) + x
  {
    var n, s := period as real, prev * ((period - 1) as real) + x;
    assert s / n * n == s;
  }

  lemma {:induction false} NetSum(closes: Vec, period: nat, k: nat)
    requires k <= period < |closes|
    ensures SumTo(Gains(closes, period), k) - SumTo(Losses(closes, period), k) == closes[k] - closes[0]
  {
    if k > 0 { NetSum(closes, period, k - 1); }
  }

  /** The rise of the close, smoothed: first the mean change, then period - 1 parts of it to one of the last change. */
  lemma NetGain(closes: Vec, period: nat, i: nat)
    requires 0 < period <= i < |closes|
    ensures var n := period as real; var net := AvgGain(closes, period, i) - AvgLoss(closes, period, i);
            if i == period then net * n == closes[period] - closes[0]
            else net * n == (AvgGain(closes, period, i - 1) - AvgLoss(closes, period, i - 1)) * (n - 1.0)
                          + (closes[i] - closes[i - 1])
  {
    hide SumTo, MeanOf, Smooth;
    if i == period {
      NetSum(closes, period, period);
      MeanTimes(Gains(closes, period));
      MeanTimes(Losses(closes, period));
    } else {
      SmoothTimes(AvgGain(closes, period, i - 1), Gain(Change(closes, i - 1)), period);
      SmoothTimes(AvgLoss(closes, period, i - 1), Loss(Change(closes, i - 1)), period);
    }
  }

  /** Only rises count as gains: without any the average gain is zero, and without falls so is the average loss. */
  lemma {:induction false} OneSided(closes: Vec, period: nat, i: nat)
    requires 0 < period <= i < |closes|
    ensures (forall k :: 0 <= k < i ==> closes[k] <= closes[k + 1]) ==> AvgLoss(closes, period, i) == 0.0
    ensures (forall k :: 0 <= k < i ==> closes[k] >= closes[k + 1]) ==> AvgGain(closes, period, i) == 0.0
  {
    hide MeanOf, Smooth;
    if i == period {
      if forall k :: 0 <= k < i ==> closes[k] <= closes[k + 1] { ZeroMean(Losses(closes, period)); }
      if forall k :: 0 <= k < i ==> closes[k] >= closes[k + 1] { ZeroMean(Gains(closes, period)); }
    } else {
      OneSided(closes, period, i - 1);
      SmoothZero(period);
      assert closes[i - 1] <= closes[i - 1 + 1] || closes[i - 1] >= closes[i - 1 + 1];
    }
  }

  lemma SmoothZero(period: nat)
    requires period > 0
    ensures Smooth(0.0, 0.0, period) == 0.0
  {
  }

  lemma ZeroMean(v: Vec)
    requires |v| > 0 && forall i :: 0 <= i < |v| ==> v[i] == 0.0
    ensures MeanOf(v) == 0.0
  {
    MeanWithin(v, 0.0, 0.0);
  }

  /** The index is the share of gains in all movement, in percent. */
  lemma RsiShare(g: real, l: real)
    requires g >= 0.0 && l >= 0.0 && g + l > 0.0
    ensures RsiValue(g, l) * (g + l) == 100.0 * g
  {
    if l > 0.0 {
      var rs := g / l;
      DivSign(g, l);
      assert rs * l == g;
      var q := 100.0 / (1.0 + rs);
      assert q * (1.0 + rs) == 100.0;
      assert q * (l + rs * l) == 100.0 * l by { assert q * (l * (1.0 + rs)) == l * (q * (1.0 + rs)); }
    }
  }

  lemma {:induction false} MirrorAverages(closes: Vec, other: Vec, mid: real, period: nat, i: nat)
    requires |other| == |closes| && 0 < period <= i < |closes|
    requires forall k :: 0 <= k < |closes| ==> other[k] == mid - closes[k]
    ensures AvgGain(other, period, i) == AvgLoss(closes, period, i)
    ensures AvgLoss(other, period, i) == AvgGain(closes, period, i)
  {
    hide MeanOf, Smooth;
    if i == period {
      assert Gains(other, period) == Losses(closes, period);
      assert Losses(other, period) == Gains(closes, period);
    } else {
      MirrorAverages(closes, other, mid, period, i - 1);
    }
  }

  /** Mirrored prices have the complementary index. */
  lemma RsiMirrors(closes: Vec, other: Vec, mid: real, period: nat, i: nat)
    requires |other| == |closes| && 0 < period <= i < |closes|
    requires forall k :: 0 <= k < |closes| ==> other[k] == mid - closes[k]
    requires AvgGain(closes, period, i) + AvgLoss(closes, period, i) > 0.0
    ensures RsiAt(closes, period, i).value + RsiAt(other, period, i).value == 100.0
  {
    hide AvgGain, AvgLoss, RsiValue;
    MirrorAverages(closes, other, mid, period, i);
    var g, l := AvgGain(closes, period, i), AvgLoss(closes, period, i);
    RsiShare(g, l);
    RsiShare(l, g);
    Complement(RsiValue(g, l), RsiValue(l, g), g, l);
  }

  lemma Complement(a: real, b: real, g: real, l: real)
    requires g + l > 0.0 && a * (g + l) == 100.0 * g && b * (l + g) == 100.0 * l
    ensures a + b == 100.0
  {
    var t := g + l;
    assert (a + b) * t == a * t + b * t;
    SameFactorOf(t, a + b, 100.0);
  }

  // ---------- bands ----------

  /** Each band is the moving average shifted by `width` sample standard deviations of the same closes. */
  lemma BandLaw(sqrt: real -> real, closes: Vec, period: nat, width: real, i: nat)
    requires IsSqrt(sqrt) && i < |closes|
    ensures BandAt(sqrt, closes, period, width, i).Some? <==> 0 < period <= i + 1
    ensures 0 < period <= i + 1 ==>
              var window := closes[i + 1 - period..i + 1];
              var sd := SampleStdDev(sqrt, window);
              && BandAt(sqrt, closes, period, width, i).value == SmaAt(closes, period, i).value + width * sd
              && sd >= 0.0 && sd * sd == if period == 1 then 0.0 else SampleVariance(window)
  {
    hide MeanOf, IsSqrt;
    if 1 < period <= i + 1 { DeviationSquared(sqrt, closes[i + 1 - period..i + 1]); }
  }

  lemma DeviationSquared(sqrt: real -> real, v: Vec)
    requires IsSqrt(sqrt) && |v| >= 2
    ensures SampleStdDev(sqrt, v) >= 0.0 && SampleStdDev(sqrt, v) * SampleStdDev(sqrt, v) == SampleVariance(v)
  {
    hide MeanOf, IsSqrt, DotTo;
    var d := Sub(v, Scale(MeanOf(v), Ones(|v|)));
    SquaredNorm(d);
    DivSign(Dot(d, d), (|v| - 1) as real);
    SqrtSquared(sqrt, Dot(d, d) / ((|v| - 1) as real));
    ReciprocalTimes(Dot(d, d), |v| as real - 1.0);
  }

  lemma ReciprocalTimes(x: real, n: real)
    requires n > 0.0
    ensures (1.0 / n) * x == x / n
  {
  }

  // ---------- ranges and volume ----------

  /** The true range is the range of the bar stretched to the previous close. */
  lemma TrueRangeLaw(bar: Bar, prev: Bar)
    requires bar.low <= bar.high
    ensures TrueRange(bar, prev) == Max(bar.high, prev.close) - Min(bar.low, prev.close) >= 0.0
  {
  }

  ghost predicate RangesWithin(series: seq<Bar>, i: nat, lo: real, hi: real)
    requires i < |series|
  {
    forall k :: 0 < k <= i ==> lo <= TrueRange(series[k], series[k - 1]) <= hi
  }

  /** The average true range starts with a plain mean, then takes one part of the new range to period - 1 of itself. */
  lemma AtrSteps(series: seq<Bar>, period: nat, i: nat)
    requires 0 < period <= i < |series|
    ensures i == period ==> AtrLevel(series, period, i) * (period as real) == Sum(TrueRanges(series, period))
    ensures i > period ==>
              AtrLevel(series, period, i) * (period as real)
              == AtrLevel(series, period, i - 1) * (period as real - 1.0) + TrueRange(series[i], series[i - 1])
  {
    hide SumTo, MeanOf, Smooth, TrueRange, Sum;
    if i == period {
      MeanTimes(TrueRanges(series, period));
    } else {
      SmoothTimes(AtrLevel(series, period, i - 1), TrueRange(series[i], series[i - 1]), period);
    }
  }

  lemma AtrSeed(series: seq<Bar>, period: nat)
    requires 0 < period < |series|
    ensures AtrLevel(series, period, period) == MeanOf(TrueRanges(series, period))
  {
  }

  /** It lies between the true ranges so far. */
  lemma {:induction false} AtrWithin(series: seq<Bar>, period: nat, i: nat, lo: real, hi: real)
    requires 0 < period <= i < |series| && RangesWithin(series, i, lo, hi)
    ensures lo <= AtrLevel(series, period, i) <= hi
  {
    hide SumTo, MeanOf, Smooth, TrueRange, Sum, AtrLevel;
    if i == period {
      AtrSeed(series, period);
      MeanWithin(TrueRanges(series, period), lo, hi);
    } else {
      AtrWithin(series, period, i - 1, lo, hi);
      AtrSteps(series, period, i);
      SmoothWithin(period as real, TrueRange(series[i], series[i - 1]), AtrLevel(series, period, i - 1),
                   AtrLevel(series, period, i), lo, hi);
    }
  }

  lemma SmoothWithin(n: real, x: real, prev: real, r: real, lo: real, hi: real)
    requires n >= 1.0 && lo <= x <= hi && lo <= prev <= hi && r * n == prev * (n - 1.0) + x
    ensures lo <= r <= hi
  {
    MulMonotone(lo, prev, n - 1.0);
    MulMonotone(prev, hi, n - 1.0);
    assert lo * n == lo * (n - 1.0) + lo && hi * n == hi * (n - 1.0) + hi;
    FactorWithin(n, r, lo, hi, lo * n, r * n, hi * n);
  }

  /** Volume counts for on a rise and against on a fall; mirrored closes mirror everything after the first bar. */
  lemma {:induction false} ObvLaw(series: seq<Bar>, other: seq<Bar>, mid: real, i: nat)
    requires |other| == |series| && i < |series|
    requires forall k :: 0 <= k < |series| ==>
               other[k].close == mid - series[k].close && other[k].volume == series[k].volume
    ensures ObvAt(series, 0) == series[0].volume as real
    ensures ObvAt(series, i) + ObvAt(other, i) == 2.0 * (series[0].volume as real)
    ensures i > 0 ==> var step := ObvAt(series, i) - ObvAt(series, i - 1);
              && (series[i].close > series[i - 1].close ==> step == series[i].volume as real)
              && (series[i].close == series[i - 1].close ==> step == 0.0)
              && (series[i].close < series[i - 1].close ==> step == -(series[i].volume as real))
  {
    if i > 0 { ObvLaw(series, other, mid, i - 1); }
  }

  ghost predicate TypicalWithin(series: seq<Bar>, k: nat, lo: real, hi: real)
    requires k <= |series|
  {
    forall i :: 0 <= i < k ==>
      3.0 * lo <= series[i].high + series[i].low + series[i].close <= 3.0 * hi && series[i].volume >= 0
  }

  lemma {:induction false} CumWithin(series: seq<Bar>, k: nat, lo: real, hi: real)
    requires k <= |series| && TypicalWithin(series, k, lo, hi)
    ensures lo * CumVolume(series, k) <= CumTpVolume(series, k) <= hi * CumVolume(series, k)
  {
    if k > 0 {
      CumWithin(series, k - 1, lo, hi);
      var b := series[k - 1];
      var tp, v, c := (b.high + b.low + b.close) / 3.0, b.volume as real, CumVolume(series, k - 1);
      MulMonotone(lo, tp, v);
      MulMonotone(tp, hi, v);
      assert lo * (c + v) == lo * c + lo * v && hi * (c + v) == hi * c + hi * v;
    }
  }

  lemma {:induction false} EvenVolume(series: seq<Bar>, k: nat, volume: int)
    requires k <= |series| && forall i :: 0 <= i < k ==> series[i].volume == volume
    ensures CumVolume(series, k) == (k as real) * (volume as real)
    ensures 3.0 * CumTpVolume(series, k) == (volume as real) * TypicalTotal(series, k)
  {
    if k > 0 {
      EvenVolume(series, k - 1, volume);
      var b := series[k - 1];
      var v, x := volume as real, b.high + b.low + b.close;
      assert 3.0 * (x / 3.0 * v) == v * x;
      assert (k as real) * v == ((k - 1) as real) * v + v;
      assert v * (TypicalTotal(series, k - 1) + x) == v * TypicalTotal(series, k - 1) + v * x;
    }
  }

  /** Highs, lows and closes of the first k bars, added up. */
  function TypicalTotal(series: seq<Bar>, k: nat): real
    requires k <= |series|
  {
    if k == 0 then 0.0
    else TypicalTotal(series, k - 1) + (series[k - 1].high + series[k - 1].low + series[k - 1].close)
  }

  /** The volume-weighted price exists once there is volume and lies between the typical prices so far. */
  lemma VwapWithin(series: seq<Bar>, i: nat, lo: real, hi: real)
    requires i < |series| && TypicalWithin(series, i + 1, lo, hi)
    ensures VwapAt(series, i).Some? <==> exists k :: 0 <= k <= i && series[k].volume > 0
    ensures VwapAt(series, i).Some? ==> lo <= VwapAt(series, i).value <= hi
  {
    hide CumVolume, CumTpVolume;
    CumWithin(series, i + 1, lo, hi);
    VolumeSigns(series, i + 1);
    var v, t := CumVolume(series, i + 1), CumTpVolume(series, i + 1);
    if v > 0.0 { QuotientWithin(t, v, lo, hi, t / v); }
  }

  /** It is the plain mean of the typical prices when all bars trade alike. */
  lemma VwapEven(series: seq<Bar>, i: nat, volume: int)
    requires i < |series| && volume != 0 && forall k :: 0 <= k <= i ==> series[k].volume == volume
    ensures VwapAt(series, i).Some?
    ensures VwapAt(series, i).value * (3.0 * ((i + 1) as real)) == TypicalTotal(series, i + 1)
  {
    hide CumVolume, CumTpVolume, TypicalTotal;
    EvenVolume(series, i + 1, volume);
    var v, t, n := CumVolume(series, i + 1), CumTpVolume(series, i + 1), (i + 1) as real;
    NonZeroTotal(n, volume as real, v);
    PlainMean(t / v, v, t, n, volume as real, TypicalTotal(series, i + 1));
  }

  lemma NonZeroTotal(n: real, volume: real, v: real)
    requires n > 0.0 && volume != 0.0 && v == n * volume
    ensures v != 0.0
  {
  }

  lemma PlainMean(q: real, v: real, t: real, n: real, volume: real, total: real)
    requires v != 0.0 && q * v == t && v == n * volume && 3.0 * t == volume * total
    ensures q * (3.0 * n) == total
  {
    assert volume != 0.0;
    assert volume * (q * (3.0 * n)) == 3.0 * (q * (n * volume)) == volume * total;
    if volume > 0.0 { SameFactorOf(volume, q * (3.0 * n), total); } else {
      SameFactorOf(-volume, q * (3.0 * n), total);
    }
  }

  lemma {:induction false} VolumeSigns(series: seq<Bar>, k: nat)
    requires k <= |series| && forall i :: 0 <= i < k ==> series[i].volume >= 0
    ensures CumVolume(series, k) >= 0.0
    ensures CumVolume(series, k) > 0.0 <==> exists i :: 0 <= i < k && series[i].volume > 0
  {
    if k > 0 { VolumeSigns(series, k - 1); }
  }
}
