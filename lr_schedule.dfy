/** adjust_learning_rate: a linear warmup followed by polynomial decay, written
    back to the arguments object and broadcast to every optimizer parameter group. */
module LrSchedule {
  import opened Outcomes

  /** `b ** e` for a natural exponent. */
  function Pow(b: real, e: nat): real {
    if e == 0 then 1.0 else b * Pow(b, e - 1)
  }

  /** Python's `max(x, 0.)`. */
  function ClampAtZero(x: real): real {
    if x > 0.0 then x else 0.0
  }

  /** The schedule hyper-parameters and the iteration counter, as read from `args`. */
  datatype Schedule = Schedule(
    curIter: int,
    warmupIters: int,
    warmupLr: real,
    lr: real,
    maxIters: int,
    lrPow: nat)

  /** Warmup phase: linear interpolation from `warmupLr` towards `lr`. */
  function WarmupLine(s: Schedule): real
    requires s.warmupIters != 0
  {
    var frac := s.curIter as real / s.warmupIters as real;
    var step := s.lr - s.warmupLr;
    s.warmupLr + step * frac
  }

  /** Decay phase: `lr` scaled by `max(1 - frac, 0) ** lrPow`. */
  function DecayCurve(s: Schedule): real
    requires s.maxIters != s.warmupIters
  {
    var frac := (s.curIter as real - s.warmupIters as real) / (s.maxIters - s.warmupIters) as real;
    s.lr * Pow(ClampAtZero(1.0 - frac), s.lrPow)
  }

  /** The value adjust_learning_rate stores in `args.running_lr`, or the
      ZeroDivisionError it raises: in the warmup branch when `warmup_iters` is 0
      (only reachable with a negative iteration), in the decay branch when
      `max_iters == warmup_iters`. */
  function RunningLr(s: Schedule): (r: Result<real>)
    ensures r.Err? <==> (s.curIter < 0 && s.warmupIters == 0) || (s.warmupIters <= s.curIter && s.maxIters == s.warmupIters)
    ensures r.Err? ==> r.error == ZeroDivisionError
  {
    if s.curIter < s.warmupIters then
      if s.warmupIters == 0 then Err(ZeroDivisionError) else Ok(WarmupLine(s))
    else
      if s.maxIters == s.warmupIters then Err(ZeroDivisionError) else Ok(DecayCurve(s))
  }

  // Facts about real products. Z3 reasons reliably about products of plain
  // variables only, so each helper takes plain variables and the callers pass
  // named values rather than compound expressions.

  /** Scaling a non-negative amount by a factor in [0, 1] keeps it in [0, amount];
      strictly below a positive amount when the factor is below 1. */
  lemma ScaledDown(d: real, f: real)
    requires 0.0 <= d && 0.0 <= f <= 1.0
    ensures 0.0 <= d * f <= d
    ensures 0.0 < d && f < 1.0 ==> d * f < d
  {
    assert d * f <= d * 1.0;
  }

  /** Multiplying by a non-negative factor preserves `<=`. */
  lemma MulMonotone(x: real, y: real, f: real)
    requires x <= y && 0.0 <= f
    ensures x * f <= y * f
  {
  }

  /** With `f` in [0, 1), the gap `y - x` shrinks when both ends are scaled by `f`. */
  lemma MulShrinks(x: real, y: real, f: real)
    requires x < y && 0.0 <= f < 1.0
    ensures y * f - x * f < y - x
  {
    var g := 1.0 - f;
    assert x * g < y * g;
    assert x * g == x - x * f;
    assert y * g == y - y * f;
  }

  /** `a + (b - a) * f` with `f` in [0, 1) lies between `a` and `b`, and is not `b` unless `a` is. */
  lemma Interpolate(a: real, b: real, f: real)
    requires 0.0 <= f < 1.0
    ensures a <= b ==> a <= a + (b - a) * f <= b
    ensures b <= a ==> b <= a + (b - a) * f <= a
    ensures a != b ==> a + (b - a) * f != b
  {
    if a < b {
      MulMonotone(a, b, f);
      MulShrinks(a, b, f);
    } else if b < a {
      MulMonotone(b, a, f);
      MulShrinks(b, a, f);
    }
  }

  /** `c / w` lies in [0, 1) when `0 <= c < w`. */
  lemma FractionBelowOne(c: real, w: real)
    requires 0.0 <= c < w
    ensures 0.0 <= c / w < 1.0
  {
    assert c / w * w == c;
  }

  /** Division by a positive number preserves `<=`. */
  lemma DivMonotone(x: real, y: real, d: real)
    requires x <= y && 0.0 < d
    ensures x / d <= y / d
  {
    assert x / d * d == x && y / d * d == y;
  }

  /** `n / d >= 1` when `0 < d <= n`. */
  lemma RatioAtLeastOne(n: real, d: real)
    requires 0.0 < d <= n
    ensures n / d >= 1.0
  {
    assert n / d * d == n;
  }

  /** A power of a base in [0, 1] stays in [0, 1]. */
  lemma {:induction false} PowUnitInterval(b: real, e: nat)
    requires 0.0 <= b <= 1.0
    ensures 0.0 <= Pow(b, e) <= 1.0
  {
    if e > 0 {
      var p := Pow(b, e - 1);
      PowUnitInterval(b, e - 1);
      ScaledDown(p, b);
      assert 0.0 <= p * b <= p;
      assert Pow(b, e) == p * b;
    }
  }

  /** On non-negative bases, `b ** e` is non-decreasing in `b`. */
  lemma {:induction false} PowMonotone(a: real, b: real, e: nat)
    requires 0.0 <= a <= b
    ensures 0.0 <= Pow(a, e) <= Pow(b, e)
  {
    if e > 0 {
      var pa, pb := Pow(a, e - 1), Pow(b, e - 1);
      PowMonotone(a, b, e - 1);
      assert 0.0 <= pa <= pb;
      assert a * pa <= a * pb;
      assert a * pb <= b * pb;
      assert 0.0 <= a * pa;
      assert Pow(a, e) == a * pa && Pow(b, e) == b * pb;
    }
  }

  /** One to any power is one. */
  lemma {:induction false} PowOfOne(e: nat)
    ensures Pow(1.0, e) == 1.0
  {
    if e > 0 {
      PowOfOne(e - 1);
    }
  }

  /** At iteration 0 of a warmup, the rate is the warmup rate. */
  lemma WarmupStart(s: Schedule)
    requires s.curIter == 0 < s.warmupIters
    ensures RunningLr(s) == Ok(s.warmupLr)
  {
  }

  /** During warmup the rate lies between `warmupLr` and `lr` and, unless the
      two are equal, has not yet reached `lr`. */
  lemma WarmupBetween(s: Schedule)
    requires 0 <= s.curIter < s.warmupIters
    ensures RunningLr(s).Ok?
    ensures s.warmupLr <= s.lr ==> s.warmupLr <= RunningLr(s).value <= s.lr
    ensures s.lr <= s.warmupLr ==> s.lr <= RunningLr(s).value <= s.warmupLr
    ensures s.warmupLr != s.lr ==> RunningLr(s).value != s.lr
  {
    var frac := s.curIter as real / s.warmupIters as real;
    var a, b := s.warmupLr, s.lr;
    FractionBelowOne(s.curIter as real, s.warmupIters as real);
    Interpolate(a, b, frac);
    assert RunningLr(s).value == a + (b - a) * frac;
  }

  /** With `warmupLr <= lr`, the warmup ramp never goes down. */
  lemma WarmupMonotone(s: Schedule, t: Schedule)
    requires t == s.(curIter := t.curIter)
    requires 0 <= s.curIter <= t.curIter < s.warmupIters
    requires s.warmupLr <= s.lr
    ensures RunningLr(s).Ok? && RunningLr(t).Ok?
    ensures RunningLr(s).value <= RunningLr(t).value
  {
    var w := s.warmupIters as real;
    var fs := s.curIter as real / w;
    var ft := t.curIter as real / w;
    DivMonotone(s.curIter as real, t.curIter as real, w);
    var step := s.lr - s.warmupLr;
    MulMonotone(fs, ft, step);
    assert RunningLr(s).value == s.warmupLr + step * fs;
    assert RunningLr(t).value == s.warmupLr + step * ft;
  }

  /** The two phases meet at `cur_iter == warmup_iters`: the warmup line, when
      there is one, would reach `lr` there, and the decay phase starts at `lr`,
      also when there is no warmup at all. */
  lemma PhasesMeet(s: Schedule)
    requires s.curIter == s.warmupIters
    requires s.maxIters != s.warmupIters
    ensures s.warmupIters != 0 ==> WarmupLine(s) == s.lr
    ensures RunningLr(s) == Ok(s.lr)
  {
    var d := (s.maxIters - s.warmupIters) as real;
    if s.warmupIters != 0 {
      var w := s.warmupIters as real;
      assert w / w == 1.0;
      var step := s.lr - s.warmupLr;
      assert WarmupLine(s) == s.warmupLr + step * 1.0;
      assert s.curIter as real - w == 0.0;
    } else {
      assert s.curIter as real - s.warmupIters as real == 0.0;
    }
    assert 0.0 / d == 0.0;
    assert ClampAtZero(1.0 - 0.0) == 1.0;
    PowOfOne(s.lrPow);
    assert DecayCurve(s) == s.lr * Pow(1.0, s.lrPow);
  }

  /** In the decay phase, with a non-negative target rate and a budget beyond
      the warmup, the rate lies in [0, lr]. */
  lemma DecayBounded(s: Schedule)
    requires s.warmupIters <= s.curIter && s.warmupIters < s.maxIters
    requires 0.0 <= s.lr
    ensures RunningLr(s).Ok?
    ensures 0.0 <= RunningLr(s).value <= s.lr
  {
    var n := s.curIter as real - s.warmupIters as real;
    var d := (s.maxIters - s.warmupIters) as real;
    var frac := n / d;
    assert 0.0 <= frac by {
      assert frac * d == n;
    }
    var base := ClampAtZero(1.0 - frac);
    var scale := Pow(base, s.lrPow);
    var lr := s.lr;
    PowUnitInterval(base, s.lrPow);
    ScaledDown(lr, scale);
    assert RunningLr(s).value == lr * scale;
  }

  /** Once the iteration budget is spent the rate is exactly 0 (for a positive exponent). */
  lemma DecayReachesZero(s: Schedule)
    requires s.warmupIters < s.maxIters <= s.curIter
    requires s.lrPow > 0
    ensures RunningLr(s) == Ok(0.0)
  {
    var n := s.curIter as real - s.warmupIters as real;
    var d := (s.maxIters - s.warmupIters) as real;
    RatioAtLeastOne(n, d);
    assert ClampAtZero(1.0 - n / d) == 0.0;
    var p := Pow(0.0, s.lrPow - 1);
    assert Pow(0.0, s.lrPow) == 0.0 * p == 0.0;
    assert DecayCurve(s) == s.lr * Pow(ClampAtZero(1.0 - n / d), s.lrPow);
  }

  /** With a non-negative target rate, the decay phase never goes up. */
  lemma DecayMonotone(s: Schedule, t: Schedule)
    requires t == s.(curIter := t.curIter)
    requires s.warmupIters <= s.curIter <= t.curIter && s.warmupIters < s.maxIters
    requires 0.0 <= s.lr
    ensures RunningLr(s).Ok? && RunningLr(t).Ok?
    ensures RunningLr(t).value <= RunningLr(s).value
  {
    var d := (s.maxIters - s.warmupIters) as real;
    var ns := s.curIter as real - s.warmupIters as real;
    var nt := t.curIter as real - s.warmupIters as real;
    DivMonotone(ns, nt, d);
    var bs, bt := ClampAtZero(1.0 - ns / d), ClampAtZero(1.0 - nt / d);
    PowMonotone(bt, bs, s.lrPow);
    var ps, pt := Pow(bs, s.lrPow), Pow(bt, s.lrPow);
    var lr := s.lr;
    MulMonotone(pt, ps, lr);
    assert RunningLr(s).value == lr * ps;
    assert RunningLr(t).value == lr * pt;
  }

  /** With non-negative rates and a budget beyond the warmup, no iteration
      (however far past the budget) yields a negative rate. */
  lemma NeverNegative(s: Schedule)
    requires 0 <= s.curIter && s.warmupIters < s.maxIters
    requires 0.0 <= s.warmupLr && 0.0 <= s.lr
    ensures RunningLr(s).Ok? && RunningLr(s).value >= 0.0
  {
    if s.curIter < s.warmupIters {
      WarmupBetween(s);
    } else {
      DecayBounded(s);
    }
  }

  /** Warmup from 0 to 0.1 over 100 iterations, then linear decay to 0 at iteration 1000. */
  lemma ExampleSchedule()
    ensures var s := Schedule(0, 100, 0.0, 0.1, 1000, 1);
      && RunningLr(s) == Ok(0.0)
      && RunningLr(s.(curIter := 50)) == Ok(0.05)
      && RunningLr(s.(curIter := 100)) == Ok(0.1)
      && RunningLr(s.(curIter := 550)) == Ok(0.05)
      && RunningLr(s.(curIter := 1000)) == Ok(0.0)
      && RunningLr(s.(curIter := 5000)) == Ok(0.0)
  {
    var s := Schedule(0, 100, 0.0, 0.1, 1000, 1);
    PhasesMeet(s.(curIter := 100));
    assert (550.0 - 100.0) / 900.0 == 0.5;
    assert Pow(0.5, 1) == 0.5;
  }

  /** The arguments object: schedule settings read by the scheduler, and the
      `running_lr` field it writes. */
  class Args {
    var curIter: int
    var warmupIters: int
    var warmupLr: real
    var lr: real
    var maxIters: int
    var lrPow: nat
    var runningLr: real

    constructor (s: Schedule, runningLr: real)
      ensures Config() == s && this.runningLr == runningLr
    {
      curIter, warmupIters, warmupLr := s.curIter, s.warmupIters, s.warmupLr;
      lr, maxIters, lrPow := s.lr, s.maxIters, s.lrPow;
      this.runningLr := runningLr;
    }

    function Config(): Schedule
      reads this
    {
      Schedule(curIter, warmupIters, warmupLr, lr, maxIters, lrPow)
    }
  }

  /** One optimizer parameter group as the scheduler sees it: its learning rate and
      its other settings by name. `ParamGrouping.ParamGroup` is the same dict as
      `group_weight` builds it, from its tensors and weight decay. */
  datatype ParamGroup = ParamGroup(lr: real, options: map<string, real>)

  class Optimizer {
    const paramGroups: array<ParamGroup>

    constructor (groups: seq<ParamGroup>)
      ensures paramGroups[..] == groups && fresh(paramGroups)
    {
      paramGroups := new ParamGroup[|groups|](i requires 0 <= i < |groups| => groups[i]);
    }
  }

  /** Computes the running rate from `args`, stores it in `args.running_lr` and
      sets it as the learning rate of every parameter group; on ZeroDivisionError
      nothing is written. */
  method AdjustLearningRate(optimizer: Optimizer, args: Args) returns (r: Result<()>)
    modifies args`runningLr, optimizer.paramGroups
    ensures args.Config() == old(args.Config())
    ensures r.Ok? <==> RunningLr(args.Config()).Ok?
    ensures r.Err? ==> r.error == ZeroDivisionError
    ensures r.Err? ==> args.runningLr == old(args.runningLr) && unchanged(optimizer.paramGroups)
    ensures r.Ok? ==> args.runningLr == RunningLr(args.Config()).value
    ensures r.Ok? ==> forall i :: 0 <= i < optimizer.paramGroups.Length ==>
      optimizer.paramGroups[i] == old(optimizer.paramGroups[i]).(lr := args.runningLr)
  {
    var s := args.Config();
    var running := RunningLr(s);
    if running.Err? {
      return Err(running.error);
    }
    args.runningLr := running.value;
    assert args.Config() == s;
    var groups := optimizer.paramGroups;
    for i := 0 to groups.Length
      invariant args.runningLr == running.value && args.Config() == s
      invariant forall j :: 0 <= j < i ==> groups[j] == old(groups[j]).(lr := args.runningLr)
      invariant forall j :: i <= j < groups.Length ==> groups[j] == old(groups[j])
    {
      groups[i] := groups[i].(lr := args.runningLr);
    }
    r := Ok(());
  }
}
