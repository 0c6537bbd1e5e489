# Training-loop helpers of pytorch-layoutnet, modelled in Dafny

`utils.py` holds three independent helpers that a training loop calls:

- `group_weight` walks every layer of a model. It puts the weights of Linear and
  convolution layers into a "decay" parameter group. It puts their biases, and the
  weights and biases of batch-norm layers, into a "no-decay" group whose weight decay
  is 0. It then asserts that the two groups together hold as many tensors as the model
  has parameters.
- `adjust_learning_rate` computes the current learning rate: a linear warmup from
  `warmup_lr` to `lr`, then polynomial decay `lr * max(1 - frac, 0) ** lr_pow`. It
  stores the rate in `args.running_lr` and writes it to every optimizer parameter group.
- `Statistic` is an accumulator for a logged metric. With `winsz <= 0` it keeps a
  weighted mean. With `winsz > 0` it keeps the running mean of the first `winsz`
  samples and an exponential moving average with rate `1 / winsz` after that.

The project has one module per helper and one shared module:

- `outcomes.dfy` (`Outcomes`): the two Python exceptions the helpers can raise
  (`AssertionError`, `ZeroDivisionError`), returned as `Err` values of a `Result`.
- `param_groups.dfy` (`ParamGrouping`): the model is a sequence of `Layer` values,
  `Linear(hasBias) | Conv(hasBias) | BatchNorm(hasWeight, hasBias) | Other(nParams)`.
  A tensor is identified by its layer's index and its slot (weight, bias, or the
  k-th tensor of an unclassified layer). `GroupWeight` is the appending loop, proved
  against the functions `Decay` and `NoDecay`. The lemmas say where each tensor lands
  and when the assertion holds.
- `lr_schedule.dfy` (`LrSchedule`): `RunningLr` is the formula over `real`.
  `AdjustLearningRate` writes the rate into an `Args` object and into every element of
  the optimizer's `paramGroups` array. The lemmas cover the warmup and decay phases.
- `statistic.dfy` (`TrainingStatistic`): the `Statistic` class with fields `winsz`,
  `cnt`, `weight` and `total`. Ghost fields record the values and weights seen. `Valid()`
  ties the fields to spec functions of that history: `Sum` and `WeightedSum` in
  cumulative mode, and `Smoothed` in windowed mode. `Value()` stands for `__float__`.

Linear and convolution biases go to the no-decay group (utils.py:14-15, 18-19).
`Linear` and `Conv` always own a weight, because utils.py:13 and :17 append it
unconditionally; only the bias may be absent.

## Model

| member | source | states |
|---|---|---|
| `ParamGrouping.GroupWeight` | utils.py:4-27 | Succeeds exactly when the decay and no-decay groups together have as many tensors as the model has parameters; otherwise fails with AssertionError. On success it returns exactly two groups: the decay group with the optimizer's default weight decay, then the no-decay group with weight decay 0. The group contents are the layer-by-layer `Decay` and `NoDecay` sequences. |
| `ParamGrouping.LayerParams` | utils.py:26 | A layer's own parameters are exactly the slots it owns (`HasSlot`), all tagged with that layer's index. |
| `ParamGrouping.ParamsMembership` | utils.py:26 | A tensor is a model parameter exactly when its layer index is in range and that layer owns its slot. |
| `ParamGrouping.DecayMembership` | utils.py:12-19 | A tensor is in the decay group if and only if it is the weight of a Linear or Conv layer. |
| `ParamGrouping.NoDecayMembership` | utils.py:12-24 | A tensor is in the no-decay group if and only if it is the bias of a Linear or Conv layer that has one, or the weight or bias that a batch-norm layer has. |
| `ParamGrouping.GroupsDisjointAndTrainable` | utils.py:11-24 | No tensor is in both groups. Every grouped tensor is a real parameter of a Linear, Conv or batch-norm layer, so layers of any other kind add nothing. |
| `ParamGrouping.GroupedCount` | utils.py:11-26 | The sizes of the two groups plus the tensors of unclassified layers add up to the model's parameter count. |
| `ParamGrouping.UnclassifiedZero` | utils.py:11-24 | The unclassified-tensor count is zero if and only if no layer of another kind owns a tensor. |
| `ParamGrouping.AssertionHoldsIff` | utils.py:26 | The count assertion holds if and only if every layer that owns a tensor is a Linear, Conv or batch-norm layer. |
| `ParamGrouping.NothingDropped` | utils.py:26 | When the count assertion holds, every model parameter is in the decay group or in the no-decay group. |
| `LrSchedule.RunningLr` | utils.py:30-38 | Raises ZeroDivisionError exactly when the warmup branch divides by `warmup_iters == 0` (a negative iteration) or the decay branch divides by `max_iters - warmup_iters == 0`. |
| `LrSchedule.PowUnitInterval` | utils.py:37 | A power of a base in [0, 1] stays in [0, 1]. |
| `LrSchedule.PowMonotone` | utils.py:37 | On non-negative bases the power is non-decreasing in the base. |
| `LrSchedule.PowOfOne` | utils.py:37 | One raised to any exponent is one. |
| `LrSchedule.WarmupStart` | utils.py:31-34 | At iteration 0 of a non-empty warmup the rate is `warmup_lr`. |
| `LrSchedule.WarmupBetween` | utils.py:31-34 | For `0 <= cur_iter < warmup_iters` the rate is defined and lies between `warmup_lr` and `lr`, and it differs from `lr` unless `warmup_lr == lr`. |
| `LrSchedule.WarmupMonotone` | utils.py:31-34 | With `warmup_lr <= lr`, a later warmup iteration never has a smaller rate. |
| `LrSchedule.PhasesMeet` | utils.py:31-38 | At `cur_iter == warmup_iters`, with `max_iters != warmup_iters`, the decay phase yields exactly `lr`, also when there is no warmup; with a warmup, its line reaches `lr` there too, so the schedule is continuous. |
| `LrSchedule.DecayBounded` | utils.py:35-38 | In the decay phase, with `max_iters > warmup_iters` and `lr >= 0`, the rate is defined and lies in [0, lr]. |
| `LrSchedule.DecayReachesZero` | utils.py:36-38 | With `max_iters > warmup_iters` and a positive exponent, the rate is exactly 0 from `cur_iter >= max_iters` on. |
| `LrSchedule.DecayMonotone` | utils.py:36-38 | With `lr >= 0`, a later decay iteration never has a larger rate. |
| `LrSchedule.NeverNegative` | utils.py:30-38 | With non-negative rates, a start at iteration 0 or later and `max_iters > warmup_iters`, no iteration yields an error or a negative rate, however far past the budget. |
| `LrSchedule.ExampleSchedule` | utils.py:30-38 | Warmup 0 to 0.1 over 100 iterations and linear decay to 1000 gives 0, 0.05, 0.1, 0.05 and 0 at iterations 0, 50, 100, 550 and 1000, and 0 at iteration 5000. |
| `LrSchedule.AdjustLearningRate` | utils.py:30-41 | On success `args.running_lr` is the computed rate and every parameter group's `lr` is that rate, with all its other settings unchanged. On ZeroDivisionError neither `args` nor any group changes. The schedule settings in `args` are never modified. |
| `TrainingStatistic.Statistic.constructor` | utils.py:49-53 | A new statistic has the given window size, count 0, weight 0, total 0 and an empty history. |
| `TrainingStatistic.Statistic.Update` | utils.py:55-63 | Increases `cnt` by exactly 1 and appends the observation to the history, preserving `Valid()`. Cumulative mode adds `w` to `weight` and `val * w` to `total`. Windowed mode leaves `weight` alone and ignores `w`: `total` moves `1/cnt` of the way to `val` while `cnt <= winsz`, and `1/winsz` of the way after. |
| `TrainingStatistic.Statistic.Value` | utils.py:68-72 | Cumulative mode reads the weighted mean `sum(val*w) / sum(w)` of the history, and raises ZeroDivisionError exactly when the weights sum to 0. Windowed mode always reads a value, and while `0 < cnt <= winsz` that value is the arithmetic mean of the values seen. |
| `TrainingStatistic.SmoothedIsMeanInWindow` | utils.py:60-63 | After at most `winsz` updates, the windowed total equals the arithmetic mean of the values seen. |
| `TrainingStatistic.SmoothedBounded` | utils.py:60-63 | The windowed total always lies within any range that holds every value seen. |
| `TrainingStatistic.UnitWeights` | utils.py:57-59 | With every weight 1, the weighted sum is the plain sum and the weights sum to the number of updates. |
| `TrainingStatistic.ModesAgreeInWindow` | utils.py:55-72 | Fed the same values with weight 1, cumulative mode and windowed mode read the same arithmetic mean while at most `winsz` values have been seen. |
| `TrainingStatistic.CumulativeExample` | utils.py:55-72 | Cumulative mode fed 1, 2 and 3 with the default weight reads 2. |
| `TrainingStatistic.WindowedExample` | utils.py:55-63 | Windowed mode with `winsz = 2` fed 10, 20 and 30 has total 10, then 15, then 22.5. |

## Left out

- `RunningLr`: the exponent `lr_pow` is a natural number (`Pow` is repeated multiplication). A fractional exponent such as 0.9 has no counterpart over Dafny's `real`, so the decay curve is modelled only for integer exponents.
- Real arithmetic replaces Python floats throughout. Rounding, infinities and NaN are not modelled.
- The torch module tree is replaced by the flat sequence that `module.modules()` yields, and `isinstance` by the `Layer` variants. Subclass dispatch is not modelled.
- Tensors shared between layers are not modelled. `module.parameters()` counts a shared tensor once, while the groups can hold it twice.
- `Statistic.__str__` (`'%.6f'` formatting) is not modelled: it only renders a float as a string.
- `args` is modelled by its schedule fields and `running_lr`, and an optimizer parameter group by its `lr` plus a map of other numeric settings. Nothing else about the optimizer or `args` is modelled.
