/** Statistic: a training-metric accumulator. With a window size of 0 or less
    it keeps a weighted mean of everything seen; with a positive window size it
    keeps a running mean for the first `winsz` samples and an exponential moving
    average with rate 1/winsz after that. */
module TrainingStatistic {
  import opened Outcomes

  /** Sum of a sequence. */
  function Sum(xs: seq<real>): real {
    if xs == [] then 0.0 else Sum(xs[..|xs| - 1]) + xs[|xs| - 1]
  }

  /** Sum of `vs[i] * ws[i]`. */
  function WeightedSum(vs: seq<real>, ws: seq<real>): real
    requires |vs| == |ws|
  {
    if vs == [] then 0.0
    else WeightedSum(vs[..|vs| - 1], ws[..|ws| - 1]) + vs[|vs| - 1] * ws[|ws| - 1]
  }

  /** Arithmetic mean of a non-empty sequence. */
  function Mean(xs: seq<real>): real
    requires xs != []
  {
    Sum(xs) / |xs| as real
  }

  /** The windowed-mode total after the updates `vs`, with window size `k`. */
  function Smoothed(vs: seq<real>, k: int): real
    requires k > 0
  {
    if vs == [] then 0.0
    else
      var t := Smoothed(vs[..|vs| - 1], k);
      var cnt := |vs|;
      if cnt > k then t + (vs[cnt - 1] - t) / k as real
      else t + (vs[cnt - 1] - t) / cnt as real
  }

  // Facts about real products and quotients. Z3 reasons reliably about
  // products of plain variables only, so each helper takes plain variables.

  /** Equal multiples of a non-zero number have equal factors. */
  lemma CancelFactor(p: real, q: real, n: real)
    requires n != 0.0 && p * n == q * n
    ensures p == q
  {
    assert p == p * n / n && q == q * n / n;
  }

  /** Adding one more value `v` to `m` values of mean `S / m` and taking the
      step `(v - t) / (m + 1)` gives the mean of all `m + 1` values. */
  lemma MeanStep(sum: real, m: real, v: real)
    requires m >= 1.0
    ensures sum / m + (v - sum / m) / (m + 1.0) == (sum + v) / (m + 1.0)
  {
    var n := m + 1.0;
    var t := sum / m;
    assert t * m == sum;
    var x := (v - t) / n;
    assert x * n == v - t;
    var y := (sum + v) / n;
    assert y * n == sum + v;
    assert t * n == t * m + t;
    var p := t + x;
    assert p * n == t * n + x * n;
    CancelFactor(p, y, n);
  }

  /** Dividing by `d >= 1` moves a number towards zero without crossing it. */
  lemma DivShrinks(u: real, d: real)
    requires d >= 1.0
    ensures 0.0 <= u ==> 0.0 <= u / d <= u
    ensures u <= 0.0 ==> u <= u / d <= 0.0
  {
    var x := u / d;
    assert x * d == u;
    if 0.0 <= u {
      assert 0.0 <= x;
      assert x * 1.0 <= x * d;
    } else {
      assert x <= 0.0;
      assert x * d <= x * 1.0;
    }
  }

  /** One update `t + (v - t) / d` with `d >= 1` moves `t` towards `v` without overshooting. */
  lemma StepBounded(t: real, v: real, d: real, lo: real, hi: real)
    requires lo <= t <= hi && lo <= v <= hi && d >= 1.0
    ensures lo <= t + (v - t) / d <= hi
  {
    var u := v - t;
    DivShrinks(u, d);
  }

  /** Within the window, the windowed total is the arithmetic mean of the values seen. */
  lemma {:induction false} SmoothedIsMeanInWindow(vs: seq<real>, k: int)
    requires 0 < |vs| <= k
    ensures Smoothed(vs, k) == Mean(vs)
  {
    var n := |vs|;
    var init := vs[..n - 1];
    var v := vs[n - 1];
    if n == 1 {
      assert init == [];
      assert Smoothed(vs, k) == 0.0 + (v - 0.0) / 1.0;
      assert Sum(vs) == 0.0 + v;
    } else {
      SmoothedIsMeanInWindow(init, k);
      var m := (n - 1) as real;
      var sum := Sum(init);
      assert Smoothed(init, k) == sum / m;
      MeanStep(sum, m, v);
      assert Smoothed(vs, k) == sum / m + (v - sum / m) / (m + 1.0);
      assert Sum(vs) == sum + v;
    }
  }

  /** In windowed mode the total stays within the range of the values seen. */
  lemma {:induction false} SmoothedBounded(vs: seq<real>, k: int, lo: real, hi: real)
    requires k > 0 && vs != []
    requires forall i :: 0 <= i < |vs| ==> lo <= vs[i] <= hi
    ensures lo <= Smoothed(vs, k) <= hi
  {
    var n := |vs|;
    var init := vs[..n - 1];
    var v := vs[n - 1];
    if n == 1 {
      assert init == [];
      assert Smoothed(vs, k) == 0.0 + (v - 0.0) / 1.0;
    } else {
      assert forall i :: 0 <= i < |init| ==> init[i] == vs[i];
      SmoothedBounded(init, k, lo, hi);
      var t := Smoothed(init, k);
      var d := if n > k then k as real else n as real;
      StepBounded(t, v, d, lo, hi);
      assert Smoothed(vs, k) == t + (v - t) / d;
    }
  }

  /** With every weight 1, the weighted sum is the plain sum and the weights sum to the count. */
  lemma {:induction false} UnitWeights(vs: seq<real>, ws: seq<real>)
    requires |vs| == |ws|
    requires forall i :: 0 <= i < |ws| ==> ws[i] == 1.0
    ensures WeightedSum(vs, ws) == Sum(vs)
    ensures Sum(ws) == |ws| as real
  {
    if vs != [] {
      UnitWeights(vs[..|vs| - 1], ws[..|ws| - 1]);
    }
  }

  /** Fed the same values with weight 1, the two modes agree while the window
      is not yet full: both read the arithmetic mean. */
  lemma ModesAgreeInWindow(vs: seq<real>, ws: seq<real>, k: int)
    requires |vs| == |ws| && 0 < |vs| <= k
    requires forall i :: 0 <= i < |ws| ==> ws[i] == 1.0
    ensures Sum(ws) != 0.0
    ensures WeightedSum(vs, ws) / Sum(ws) == Smoothed(vs, k) == Mean(vs)
  {
    UnitWeights(vs, ws);
    SmoothedIsMeanInWindow(vs, k);
  }

  /** Appending `x` adds `x` to the sum. */
  lemma SumStep(xs: seq<real>, x: real)
    ensures Sum(xs + [x]) == Sum(xs) + x
  {
    var ys := xs + [x];
    assert ys[..|ys| - 1] == xs;
  }

  /** Appending value `v` with weight `w` adds `v * w` to the weighted sum. */
  lemma WeightedSumStep(vs: seq<real>, ws: seq<real>, v: real, w: real)
    requires |vs| == |ws|
    ensures WeightedSum(vs + [v], ws + [w]) == WeightedSum(vs, ws) + v * w
  {
    var vs', ws' := vs + [v], ws + [w];
    assert vs'[..|vs'| - 1] == vs && ws'[..|ws'| - 1] == ws;
  }

  /** One more observation moves the windowed total by `1 / cnt` of the gap
      to it inside the window, by `1 / k` of the gap after. */
  lemma WindowedStep(vs: seq<real>, v: real, k: int)
    requires k > 0
    ensures var t, cnt := Smoothed(vs, k), |vs| + 1;
      Smoothed(vs + [v], k) == if cnt > k then t + (v - t) / k as real else t + (v - t) / cnt as real
  {
    var vs' := vs + [v];
    assert vs'[..|vs'| - 1] == vs;
  }

  class Statistic {
    /** Window size, fixed at construction; `winsz <= 0` selects cumulative mode. */
    const winsz: int
    var cnt: nat
    /** Accumulated weight; cumulative mode only. */
    var weight: real
    var total: real
    /** The values and weights passed to `Update`, oldest first. */
    ghost var values: seq<real>
    ghost var weights: seq<real>

    ghost predicate Valid()
      reads this
    {
      && cnt == |values| == |weights|
      && (winsz <= 0 ==> weight == Sum(weights) && total == WeightedSum(values, weights))
      && (winsz > 0 ==> weight == 0.0 && total == Smoothed(values, winsz))
    }

    constructor (winsz: int := 0)
      ensures Valid()
      ensures this.winsz == winsz && cnt == 0 && weight == 0.0 && total == 0.0
      ensures values == [] && weights == []
    {
      this.winsz := winsz;
      cnt, weight, total := 0, 0.0, 0.0;
      values, weights := [], [];
    }

    /** Records one observation. `w` only matters in cumulative mode. */
    method Update(val: real, w: real := 1.0)
      requires Valid()
      modifies this
      ensures Valid()
      ensures cnt == old(cnt) + 1
      ensures values == old(values) + [val] && weights == old(weights) + [w]
      ensures winsz <= 0 ==> weight == old(weight) + w && total == old(total) + val * w
      ensures winsz > 0 ==> weight == old(weight)
      ensures winsz > 0 && cnt > winsz ==> total == old(total) + (val - old(total)) / winsz as real
      ensures winsz > 0 && cnt <= winsz ==> total == old(total) + (val - old(total)) / cnt as real
    {
      var n := cnt + 1;
      var newWeight, newTotal := weight, total;
      if winsz <= 0 {
        newWeight, newTotal := weight + w, total + val * w;
        SumStep(weights, w);
        WeightedSumStep(values, weights, val, w);
      } else if n > winsz {
        newTotal := total + (val - total) / winsz as real;
        WindowedStep(values, val, winsz);
      } else {
        newTotal := total + (val - total) / n as real;
        WindowedStep(values, val, winsz);
      }
      cnt, weight, total := n, newWeight, newTotal;
      values, weights := values + [val], weights + [w];
    }

    /** The current reading (`float(self)`): the weighted mean in cumulative
        mode, which raises ZeroDivisionError while the weights sum to 0; the
        running total in windowed mode, which is the arithmetic mean of the
        values seen while at most `winsz` have been seen. */
    function Value(): (r: Result<real>)
      reads this
      requires Valid()
      ensures winsz <= 0 ==> (r.Err? <==> Sum(weights) == 0.0)
      ensures winsz <= 0 && r.Err? ==> r.error == ZeroDivisionError
      ensures winsz <= 0 && r.Ok? ==> r.value == WeightedSum(values, weights) / Sum(weights)
      ensures winsz > 0 ==> r.Ok?
      ensures winsz > 0 && 0 < cnt <= winsz ==> r.value == Mean(values)
    {
      if winsz <= 0 then
        if weight == 0.0 then Err(ZeroDivisionError) else Ok(total / weight)
      else
        assert 0 < cnt <= winsz ==> total == Mean(values) by {
          if 0 < cnt <= winsz { SmoothedIsMeanInWindow(values, winsz); }
        }
        Ok(total)
    }
  }

  /** Cumulative mode fed 1, 2, 3 with the default weight reads 2. */
  method CumulativeExample() returns (v: Result<real>)
    ensures v == Ok(2.0)
  {
    var s := new Statistic();
    s.Update(1.0);
    s.Update(2.0);
    s.Update(3.0);
    v := s.Value();
  }

  /** Windowed mode with window 2 fed 10, 20, 30 reads 10, then 15, then 22.5. */
  method WindowedExample() returns (a: real, b: real, c: real)
    ensures a == 10.0 && b == 15.0 && c == 22.5
  {
    var s := new Statistic(2);
    s.Update(10.0);
    a := s.total;
    s.Update(20.0);
    b := s.total;
    s.Update(30.0);
    c := s.total;
  }
}
