/** Walk-forward parameter grids: every way of choosing one value per parameter. */
module ParameterGrid {
  import opened Outcome
  import opened Market

  const MAX_COMBINATIONS: nat := 10000

  /** One entry of the grid map; a grid lists its entries in the map's iteration order. */
  datatype Axis = Axis(key: string, values: seq<real>)

  ghost predicate DistinctKeys(grid: seq<Axis>) {
    forall i, j :: 0 <= i < j < |grid| ==> grid[i].key != grid[j].key
  }

  function Variants(base: Params, key: string, values: seq<real>): (r: seq<Params>)
    ensures |r| == |values|
  {
    seq(|values|, v requires 0 <= v < |values| => base[key := values[v]])
  }

  function Extended(bases: seq<Params>, key: string, values: seq<real>): seq<Params> {
    if |bases| == 0 then [] else Extended(bases[..|bases| - 1], key, values) + Variants(bases[|bases| - 1], key, values)
  }

  /** The combinations of the first `k` axes; an axis without values is left out. */
  function Product(grid: seq<Axis>, k: nat): seq<Params>
    requires k <= |grid|
  {
    if k == 0 then [map[]]
    else if grid[k - 1].values == [] then Product(grid, k - 1)
    else Extended(Product(grid, k - 1), grid[k - 1].key, grid[k - 1].values)
  }

  function Size(grid: seq<Axis>, k: nat): nat
    requires k <= |grid|
  {
    if k == 0 then 1
    else if grid[k - 1].values == [] then Size(grid, k - 1) else Size(grid, k - 1) * |grid[k - 1].values|
  }

  /** The combinations, unless there are too many. */
  method BuildParamCombinations(grid: seq<Axis>) returns (r: Result<seq<Params>>)
    requires DistinctKeys(grid)
    ensures r.Success? <==> Size(grid, |grid|) <= 10000
    ensures r.Success? ==> r.value == Product(grid, |grid|)
    ensures r.Failure? ==> r.error.InvalidCommand?
  {
    var combinations: seq<Params> := [map[]];
    for i := 0 to |grid|
      invariant combinations == Product(grid, i)
      invariant Size(grid, i) <= MAX_COMBINATIONS
    {
      ProductSize(grid, i + 1);
      if grid[i].values == [] {
        continue;
      }
      var extended: seq<Params> := [];
      for b := 0 to |combinations|
        invariant extended == Extended(combinations[..b], grid[i].key, grid[i].values)
      {
        ghost var before := extended;
        for v := 0 to |grid[i].values|
          invariant extended == before + Variants(combinations[b], grid[i].key, grid[i].values)[..v]
        {
          extended := extended + [combinations[b][grid[i].key := grid[i].values[v]]];
        }
        assert combinations[..b + 1][..b] == combinations[..b];
      }
      assert combinations[..|combinations|] == combinations;
      combinations := extended;
      if |combinations| > MAX_COMBINATIONS {
        SizeGrows(grid, i + 1, |grid|);
        return Failure(InvalidCommand("parameter grid produces too many combinations"));
      }
    }
    return Success(combinations);
  }

  lemma {:induction false} ExtendedSize(bases: seq<Params>, key: string, values: seq<real>)
    ensures |Extended(bases, key, values)| == |bases| * |values|
  {
    if |bases| > 0 {
      var m := |bases| - 1;
      ExtendedSize(bases[..m], key, values);
      assert (m + 1) * |values| == m * |values| + |values|;
    }
  }

  lemma {:induction false} ProductSize(grid: seq<Axis>, k: nat)
    requires k <= |grid|
    ensures |Product(grid, k)| == Size(grid, k)
  {
    hide Extended;
    if k > 0 {
      ProductSize(grid, k - 1);
      if grid[k - 1].values != [] { ExtendedSize(Product(grid, k - 1), grid[k - 1].key, grid[k - 1].values); }
    }
  }

  lemma {:induction false} SizeGrows(grid: seq<Axis>, j: nat, k: nat)
    requires j <= k <= |grid|
    ensures 0 < Size(grid, j) <= Size(grid, k)
    decreases k
  {
    if k > 0 {
      SizeGrows(grid, if j < k then j else k - 1, k - 1);
      if grid[k - 1].values != [] { AtLeast(Size(grid, k - 1), |grid[k - 1].values|); }
    }
  }

  lemma AtLeast(a: nat, b: nat)
    requires a > 0 && b > 0
    ensures a * b >= a
  {
  }

  // ---------- exactly the Cartesian product ----------

  /** One grid value for every axis that has values, and nothing else. */
  ghost predicate IsChoice(grid: seq<Axis>, k: nat, p: Params)
    requires k <= |grid|
  {
    && (forall i :: 0 <= i < k && grid[i].values != [] ==> grid[i].key in p && p[grid[i].key] in grid[i].values)
    && (forall key :: key in p ==> exists i :: 0 <= i < k && grid[i].values != [] && grid[i].key == key)
  }

  /** Every produced set adds one of the values to one of the bases. */
  lemma {:induction false} MemberSplits(bases: seq<Params>, key: string, values: seq<real>, p: Params)
    returns (b: Params, v: real)
    requires p in Extended(bases, key, values)
    ensures b in bases && v in values && p == b[key := v]
  {
    var m := |bases| - 1;
    var last := Variants(bases[m], key, values);
    if p in last {
      var i :| 0 <= i < |last| && last[i] == p;
      b, v := bases[m], values[i];
    } else {
      b, v := MemberSplits(bases[..m], key, values, p);
    }
  }

  lemma {:induction false} MemberBuilt(bases: seq<Params>, key: string, values: seq<real>, b: Params, v: real)
    requires b in bases && v in values
    ensures b[key := v] in Extended(bases, key, values)
  {
    var m := |bases| - 1;
    if b in bases[..m] {
      MemberBuilt(bases[..m], key, values, b, v);
    } else {
      assert b == bases[m];
      var i :| 0 <= i < |values| && values[i] == v;
      assert Variants(b, key, values)[i] == b[key := v];
    }
  }

  lemma ChoiceExtends(grid: seq<Axis>, k: nat, b: Params, v: real)
    requires k < |grid| && DistinctKeys(grid) && IsChoice(grid, k, b) && v in grid[k].values
    ensures IsChoice(grid, k + 1, b[grid[k].key := v])
  {
  }

  lemma ChoiceRestricts(grid: seq<Axis>, k: nat, p: Params)
    requires k < |grid| && DistinctKeys(grid) && IsChoice(grid, k + 1, p) && grid[k].values != []
    ensures IsChoice(grid, k, p - {grid[k].key})
    ensures grid[k].key in p && p == (p - {grid[k].key})[grid[k].key := p[grid[k].key]]
  {
  }

  lemma ChoiceSkips(grid: seq<Axis>, k: nat, p: Params)
    requires k < |grid| && grid[k].values == []
    ensures IsChoice(grid, k + 1, p) <==> IsChoice(grid, k, p)
  {
  }

  lemma {:induction false} ProductChoice(grid: seq<Axis>, k: nat, p: Params)
    requires k <= |grid| && DistinctKeys(grid) && p in Product(grid, k)
    ensures IsChoice(grid, k, p)
  {
    hide IsChoice, Extended;
    if k == 0 {
      NoAxes(grid, p);
    } else if grid[k - 1].values == [] {
      ProductChoice(grid, k - 1, p);
      ChoiceSkips(grid, k - 1, p);
    } else {
      var b, v := MemberSplits(Product(grid, k - 1), grid[k - 1].key, grid[k - 1].values, p);
      ProductChoice(grid, k - 1, b);
      ChoiceExtends(grid, k - 1, b, v);
    }
  }

  lemma {:induction false} ChoiceInProduct(grid: seq<Axis>, k: nat, p: Params)
    requires k <= |grid| && DistinctKeys(grid) && IsChoice(grid, k, p)
    ensures p in Product(grid, k)
  {
    hide IsChoice, Extended;
    if k == 0 {
      NoAxes(grid, p);
    } else if grid[k - 1].values == [] {
      ChoiceSkips(grid, k - 1, p);
      ChoiceInProduct(grid, k - 1, p);
    } else {
      var key := grid[k - 1].key;
      ChoiceRestricts(grid, k - 1, p);
      PickedValue(grid, k - 1, p);
      ChoiceInProduct(grid, k - 1, p - {key});
      MemberBuilt(Product(grid, k - 1), key, grid[k - 1].values, p - {key}, p[key]);
    }
  }

  lemma NoAxes(grid: seq<Axis>, p: Params)
    ensures IsChoice(grid, 0, p) <==> p == map[]
  {
  }

  /** A parameter set is produced if and only if it picks one value from each axis that has values. */
  lemma ProductIsCartesian(grid: seq<Axis>, k: nat, p: Params)
    requires k <= |grid| && DistinctKeys(grid)
    ensures p in Product(grid, k) <==> IsChoice(grid, k, p)
  {
    hide IsChoice, Product;
    if p in Product(grid, k) { ProductChoice(grid, k, p); }
    if IsChoice(grid, k, p) { ChoiceInProduct(grid, k, p); }
  }

  lemma PickedValue(grid: seq<Axis>, k: nat, p: Params)
    requires k < |grid| && grid[k].values != [] && IsChoice(grid, k + 1, p)
    ensures grid[k].key in p && p[grid[k].key] in grid[k].values
  {
  }

  // ---------- and each combination once ----------

  ghost predicate Distinct<T>(s: seq<T>) {
    forall i, j :: 0 <= i < j < |s| ==> s[i] != s[j]
  }

  lemma {:induction false} ExtendedDistinct(bases: seq<Params>, key: string, values: seq<real>)
    requires Distinct(bases) && Distinct(values)
    requires forall b :: b in bases ==> key !in b
    ensures Distinct(Extended(bases, key, values))
  {
    if |bases| > 0 {
      var m := |bases| - 1;
      var base, front := bases[m], bases[..m];
      ExtendedDistinct(front, key, values);
      var before, last := Extended(front, key, values), Variants(base, key, values);
      forall i, j | 0 <= i < j < |values| ensures last[i] != last[j] {
        assert last[i][key] == values[i] && last[j][key] == values[j];
      }
      forall i, j | 0 <= i < |before| && 0 <= j < |last| ensures before[i] != last[j] {
        var b, v := MemberSplits(front, key, values, before[i]);
        var at :| 0 <= at < m && front[at] == b;
        assert b == bases[at] && b != base && b in bases && base in bases;
        assert b[key := v] - {key} == b && last[j] - {key} == base;
      }
    }
  }

  /** With no value listed twice, no combination is produced twice. */
  lemma {:induction false} ProductDistinct(grid: seq<Axis>, k: nat)
    requires k <= |grid| && DistinctKeys(grid)
    requires forall i :: 0 <= i < |grid| ==> Distinct(grid[i].values)
    ensures Distinct(Product(grid, k))
  {
    if k > 0 {
      ProductDistinct(grid, k - 1);
      var axis, bases := grid[k - 1], Product(grid, k - 1);
      if axis.values != [] {
        forall b | b in bases ensures axis.key !in b {
          ProductIsCartesian(grid, k - 1, b);
        }
        ExtendedDistinct(bases, axis.key, axis.values);
      }
    }
  }
}
