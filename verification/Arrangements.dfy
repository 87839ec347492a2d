/** Rearranging sequences: sorting, and what no rearrangement changes. */
module Arrangements {
  import opened LinearAlgebra

  lemma SameLength<T>(a: seq<T>, b: seq<T>)
    requires multiset(a) == multiset(b)
    ensures |a| == |b|
  {
    assert |multiset(a)| == |multiset(b)|;
  }

  lemma OneMore<T>(s: seq<T>, i: nat)
    requires i < |s|
    ensures multiset(s[..i + 1]) == multiset(s[..i]) + multiset{s[i]}
  {
    assert s[..i + 1] == s[..i] + [s[i]];
  }

  lemma OneInserted<T>(s: seq<T>, p: T, at: nat)
    requires at <= |s|
    ensures multiset(s[..at] + [p] + s[at..]) == multiset(s) + multiset{p}
  {
    assert s == s[..at] + s[at..];
  }

  lemma RemoveAt<T>(s: seq<T>, j: nat)
    requires j < |s|
    ensures multiset(s[..j] + s[j + 1..]) == multiset(s) - multiset{s[j]}
  {
    assert s == s[..j] + [s[j]] + s[j + 1..];
  }

  /** Where the last element of `a` sits in `b`. */
  lemma FindLast<T>(a: seq<T>, b: seq<T>) returns (j: nat)
    requires |a| > 0 && multiset(a) == multiset(b)
    ensures j < |b| && b[j] == a[|a| - 1]
    ensures multiset(a[..|a| - 1]) == multiset(b[..j] + b[j + 1..])
  {
    var last := |a| - 1;
    assert a[last] in multiset(b);
    j :| 0 <= j < |b| && b[j] == a[last];
    assert a[..last] + a[last + 1..] == a[..last];
    RemoveAt(a, last);
    RemoveAt(b, j);
  }

  // ---------- sorting numbers ----------

  ghost predicate Sorted(s: Vec) { forall i, j :: 0 <= i < j < |s| ==> s[i] <= s[j] }

  method Sort(values: Vec) returns (sorted: Vec)
    ensures Sorted(sorted) && multiset(sorted) == multiset(values) && |sorted| == |values|
  {
    sorted := [];
    for i := 0 to |values|
      invariant Sorted(sorted) && multiset(sorted) == multiset(values[..i])
    {
      var at: nat := |sorted|;
      while at > 0 && values[i] < sorted[at - 1]
        invariant at <= |sorted| && forall j :: at <= j < |sorted| ==> values[i] < sorted[j]
      {
        at := at - 1;
      }
      InsertedSorted(sorted, values[i], at);
      OneInserted(sorted, values[i], at);
      OneMore(values, i);
      sorted := sorted[..at] + [values[i]] + sorted[at..];
    }
    assert values[..|values|] == values;
    SameLength(sorted, values);
  }

  lemma InsertedSorted(s: Vec, x: real, at: nat)
    requires Sorted(s) && at <= |s|
    requires at > 0 ==> s[at - 1] <= x
    requires forall j :: at <= j < |s| ==> x < s[j]
    ensures Sorted(s[..at] + [x] + s[at..])
  {
  }

  // ---------- order statistics ----------

  function Count(s: Vec, keep: real -> bool): nat {
    if |s| == 0 then 0 else Count(s[..|s| - 1], keep) + if keep(s[|s| - 1]) then 1 else 0
  }

  function Less(v: real): real -> bool { x => x < v }

  function AtMost(v: real): real -> bool { x => x <= v }

  lemma {:induction false} CountRemove(s: Vec, keep: real -> bool, j: nat)
    requires j < |s|
    ensures Count(s, keep) == Count(s[..j] + s[j + 1..], keep) + if keep(s[j]) then 1 else 0
  {
    var last := |s| - 1;
    var rest := s[..j] + s[j + 1..];
    if j == last {
      assert rest == s[..last];
    } else {
      CountRemove(s[..last], keep, j);
      assert rest[..|rest| - 1] == s[..last][..j] + s[..last][j + 1..];
    }
  }

  lemma {:induction false} CountArranged(a: Vec, b: Vec, keep: real -> bool)
    requires multiset(a) == multiset(b)
    ensures Count(a, keep) == Count(b, keep)
  {
    SameLength(a, b);
    if |a| > 0 {
      var j := FindLast(a, b);
      CountArranged(a[..|a| - 1], b[..j] + b[j + 1..], keep);
      CountRemove(b, keep, j);
    }
  }

  lemma {:induction false} CountOnlyBefore(s: Vec, keep: real -> bool, k: nat)
    requires k <= |s| && forall i :: k <= i < |s| ==> !keep(s[i])
    ensures Count(s, keep) <= k
    decreases |s|
  {
    if |s| > 0 { CountOnlyBefore(s[..|s| - 1], keep, if k < |s| then k else |s| - 1); }
  }

  lemma {:induction false} CountAllBefore(s: Vec, keep: real -> bool, k: nat)
    requires k <= |s| && forall i :: 0 <= i < k ==> keep(s[i])
    ensures k <= Count(s, keep)
    decreases |s|
  {
    if |s| > 0 { CountAllBefore(s[..|s| - 1], keep, if k < |s| then k else |s| - 1); }
  }

  lemma {:induction false} CountMonotone(s: Vec, p: real -> bool, q: real -> bool)
    requires forall x :: p(x) ==> q(x)
    ensures Count(s, p) <= Count(s, q)
  {
    if |s| > 0 { CountMonotone(s[..|s| - 1], p, q); }
  }

  /** `v` is the value at place `k` when `s` is put in order: at most k values are below it, more than k at most it. */
  ghost predicate IsOrderStatistic(s: Vec, k: nat, v: real) {
    v in s && Count(s, Less(v)) <= k < Count(s, AtMost(v))
  }

  lemma SortedPlace(s: Vec, sorted: Vec, k: nat)
    requires Sorted(sorted) && multiset(sorted) == multiset(s) && k < |sorted|
    ensures IsOrderStatistic(s, k, sorted[k])
  {
    var v := sorted[k];
    CountOnlyBefore(sorted, Less(v), k);
    CountAllBefore(sorted, AtMost(v), k + 1);
    CountArranged(sorted, s, Less(v));
    CountArranged(sorted, s, AtMost(v));
    assert v in multiset(sorted);
  }

  lemma OrderStatisticUnique(s: Vec, k: nat, u: real, v: real)
    requires IsOrderStatistic(s, k, u) && IsOrderStatistic(s, k, v)
    ensures u == v
  {
    if u < v {
      CountMonotone(s, AtMost(u), Less(v));
    } else if v < u {
      CountMonotone(s, AtMost(v), Less(u));
    }
  }

  /** The rounded position of a quantile among `n` sorted values, kept in range. */
  function QuantileIndex(quantile: real, n: nat): (k: nat)
    requires n > 0 && quantile >= 0.0
    ensures k < n
  {
    var x := quantile * ((n - 1) as real) + 0.5;
    RoundedNonNegative(quantile, (n - 1) as real);
    if x.Floor < n then x.Floor else n - 1
  }

  lemma RoundedNonNegative(q: real, m: real)
    requires q >= 0.0 && m >= 0.0
    ensures q * m + 0.5 >= 0.0 && (q * m + 0.5).Floor >= 0
  {
  }

  /** The place is the nearest one to the quantile of the way from the first to the last. */
  lemma QuantileNearest(quantile: real, n: nat)
    requires n > 0 && 0.0 <= quantile <= 1.0
    ensures var k, x := QuantileIndex(quantile, n) as real, quantile * ((n - 1) as real); x - 0.5 < k <= x + 0.5
  {
    var m := (n - 1) as real;
    var x := quantile * m;
    QuantileBelow(quantile, m, x);
    assert (x + 0.5).Floor < n;
  }

  lemma QuantileBelow(q: real, m: real, x: real)
    requires 0.0 <= q <= 1.0 && m >= 0.0 && x == q * m
    ensures 0.0 <= x <= m
  {
  }
}
