# Incremental Gaussian mixture and grid world, in Dafny

This project models three pieces of a small C++ reinforcement-learning
library. It proves properties of each model.

- **The incremental Gaussian-mixture regressor** (`GaussianMixture`).
  - Its state is seven parallel, append-only arrays: means, covariances,
    inverse covariances, values ("weights"), mixing weights ("probabilities"),
    accumulated responsibilities ("sprobabilities") and density
    normalisations.
  - `setValue(x, y)` runs a novelty test. If no cluster claims `x`, it appends
    a new cluster. Otherwise it pulls the cluster with the greatest evidence
    towards `(x, y)`.
  - `value(x)` blends the stored values, weighted by the responsibilities.
- **The grid world** (`GridWorld`). An agent moves on a `width x height` grid
  that holds one obstacle and one goal. Each step returns the new position, an
  end-of-episode flag and a reward.
- **Two routines of the abstract world** (`AbstractWorld`):
  - `updateMinMax`, the running per-component bounds of the visited states;
  - the roulette-wheel action selection inside `run`.

## Files

| file | module | contents |
|---|---|---|
| `linearalgebra.dfy` | `LinearAlgebra` | vectors and matrices over `real`; left-to-right sums (the order of `std::accumulate`); `ArgMax` with `std::max_element` semantics |
| `mixture.dfy` | `Mixture` | the mixture state as a datatype; the specification functions `SetValueSpec`, `Created` and `Reused`; lemmas; the class `GaussianMixture` |
| `world.dfy` | `World` | `Widen` (the effect of `updateMinMax`) with its lemmas; the class `AbstractWorld`; roulette selection |
| `grid.dfy` | `Grid` | `Point`, `Action`, `StepRule` with its lemmas; the class `GridWorld` |

### How the model is built

**Numerics.** The floating-point numerics are modelled as a value
`Numerics(exp, pow, sqrtOfNorm, inverse)` of function type:
- `exp`, `pow` and `sqrtOfNorm` return positive reals;
- `WellFormed` says that `inverse` maps an `n x n` matrix to an `n x n`
  matrix.

Nothing else is assumed about them.

**The mixture class.** The methods of `GaussianMixture` run the same loops and
updates as the C++ code. Each one ties its result, or the new state `View()`,
to a specification function. The properties are proved as lemmas about those
functions.

**Inheritance.** `GridWorld` extends `AbstractWorld` in the C++ code. Here it
holds an `AbstractWorld` built with 4 actions.

`AbstractWorld.numActions` is a constant field set by the constructor. It plays
the role of `numActions()`.

### Mixing weights after a creation

A new cluster gets the mixing weight `1 / sum_sp`, and each older cluster
`sprob / (sum_sp + 1)` (gaussianmixture.cpp:59, 64-67). Here `sum_sp` is 1
for an empty mixture, else the total pseudo-count `S`. `CreationMixingTotal`
shows the consequence: after a creation in a non-empty mixture the mixing
weights sum to `S/(S+1) + 1/S`, which is greater than 1. The model keeps
these weights as the code computes them.

### `value()` on an empty mixture

It returns 0: its loop over the clusters runs zero times.

## Model

| member | source | states |
|---|---|---|
| Mixture.ProbabilityOfInput | functionapproximators/gaussianmixture.cpp:103-112 | the density of a cluster at x (normalisation times exp of minus half the quadratic form in the inverse covariance) is positive |
| Mixture.Evidences | functionapproximators/gaussianmixture.cpp:114-123 | one evidence (density times mixing weight) per cluster, independent of the target |
| Mixture.EvidenceSumPositive | functionapproximators/gaussianmixture.cpp:114-123 | in a valid mixture every evidence is positive, so the evidence sum is positive whenever a cluster exists |
| Mixture.Responsibilities | functionapproximators/gaussianmixture.cpp:133-142 | one responsibility per evidence, each evidence times the reciprocal of their total |
| Mixture.ResponsibilitiesDistribution | functionapproximators/gaussianmixture.cpp:133-142 | non-negative evidences with a positive sum normalise to values in [0, 1] that sum to exactly 1 |
| Mixture.ProbabilitiesOfClusters | functionapproximators/gaussianmixture.cpp:133-142 | the buffer loop returns exactly the normalised responsibilities, for an empty buffer too |
| Mixture.PredictionBounds | functionapproximators/gaussianmixture.cpp:16-28 | the responsibility-weighted blend lies between the least and the greatest stored value |
| Mixture.SumSp | functionapproximators/gaussianmixture.cpp:33 | sum_sp is at least 1 and at least every single pseudo-count |
| Mixture.Responsibility | functionapproximators/gaussianmixture.cpp:70-78 | the winner's normalised responsibility proba lies in (0, 1] |
| Mixture.LearningFactor | functionapproximators/gaussianmixture.cpp:82-83 | proba / (sprobability + proba) lies in [0, 1), positive when proba is |
| Mixture.LearningFactorDecreasing | functionapproximators/gaussianmixture.cpp:82-83 | for the same proba, a cluster with more accumulated responsibility takes a strictly smaller step |
| Mixture.CovarianceStep | functionapproximators/gaussianmixture.cpp:92-97 | the covariance update keeps the D x D shape |
| Mixture.CovarianceStepConvex | functionapproximators/gaussianmixture.cpp:92-97 | each entry becomes (1 - lf) cov + lf d d^T, so a symmetric covariance stays symmetric |
| Mixture.ScaledIdentity | functionapproximators/gaussianmixture.cpp:50 | the initial covariance varInitial * I is a symmetric D x D matrix |
| Mixture.CreatedValid | functionapproximators/gaussianmixture.cpp:49-68 | creation keeps all seven arrays the same length and every cluster valid (shapes, mixing weight in (0, 1], positive normalisation, pseudo-count >= 1), and fixes the dimension to the input's |
| Mixture.ReusedValid | functionapproximators/gaussianmixture.cpp:69-100 | reuse keeps the lengths, the dimension and every cluster valid |
| Mixture.SetValueValid | functionapproximators/gaussianmixture.cpp:30-101 | every setValue keeps the mixture invariant, with the dimension set by the first input |
| Mixture.NoveltyDecision | functionapproximators/gaussianmixture.cpp:38-47 | a cluster is appended iff no evidence exceeds normalisation times novelty; otherwise the count stays; an empty mixture always gains its first cluster |
| Mixture.NoveltyIgnoresTarget | functionapproximators/gaussianmixture.cpp:114-123 | the decision does not depend on the target (the penalty is never used) |
| Mixture.CreationAppends | functionapproximators/gaussianmixture.cpp:55-68 | creation appends mean x, covariance varInitial * I, value target, pseudo-count 1 and mixing weight 1 / sum_sp; older entries keep mean, covariances, value and pseudo-count, and their mixing weight becomes pseudo-count / (sum_sp + 1) |
| Mixture.FirstUpdate | functionapproximators/gaussianmixture.cpp:33-61 | the first update yields one cluster with mean x, value target, pseudo-count 1 and mixing weight 1 |
| Mixture.CreationMixingTotal | functionapproximators/gaussianmixture.cpp:59-68 | after a creation in a non-empty mixture the mixing weights sum to S/(S+1) + 1/S, which exceeds 1 |
| Mixture.ReuseTouchesOnlyWinner | functionapproximators/gaussianmixture.cpp:76-99 | the winner is the lowest index of greatest raw evidence; the count is unchanged and every other cluster keeps all seven entries |
| Mixture.ReuseUpdatesWinner | functionapproximators/gaussianmixture.cpp:78-91 | the winner's pseudo-count grows by proba; lf = proba / new pseudo-count lies in (0, 1); its mixing weight is its pseudo-count over the new total; its value moves towards the target without passing it; its mean moves by lf (x - mean) |
| Mixture.WeightStep | functionapproximators/gaussianmixture.cpp:91 | v + lf (target - v) with lf in [0, 1] lies between v and target |
| Mixture.WinnerStepUpdates | functionapproximators/gaussianmixture.cpp:82-91 | for any responsibility in (0, 1]: the pseudo-count grows by it and the total with it, lf lies in (0, 1), the mixing weight is the new share, the value moves towards the target without passing it, the mean moves by lf (x - mean) |
| Mixture.ReuseFixedPoint | functionapproximators/gaussianmixture.cpp:84-97 | an observation equal to the winner's mean and value leaves both unchanged and only scales the covariance by 1 - lf |
| Mixture.GaussianMixture.constructor | functionapproximators/gaussianmixture.cpp:10-14 | stores varInitial and novelty; the mixture starts empty and valid |
| Mixture.GaussianMixture.ProbabilitiesOfInputs | functionapproximators/gaussianmixture.cpp:114-123 | the loop fills the buffer with exactly the evidences |
| Mixture.GaussianMixture.ProbabilitiesOfClustersOf | functionapproximators/gaussianmixture.cpp:125-131 | evidences then normalisation give the responsibilities, with a non-zero evidence sum whenever a cluster exists |
| Mixture.GaussianMixture.Value | functionapproximators/gaussianmixture.cpp:16-28 | the accumulation loop returns the blend, bounded by the least and greatest stored value, and 0 for an empty mixture |
| Mixture.GaussianMixture.SetValue | functionapproximators/gaussianmixture.cpp:30-101 | the new state is SetValueSpec of the old one, and the invariant is kept |
| Mixture.GaussianMixture.IsNovelInput | functionapproximators/gaussianmixture.cpp:42-47 | the loop asks for a new cluster exactly when no cluster's evidence exceeds its normalisation times the novelty |
| Mixture.GaussianMixture.CreateCluster | functionapproximators/gaussianmixture.cpp:49-68 | the pushes and the rescaling loop produce exactly the appended state |
| Mixture.GaussianMixture.RescaleMixingWeights | functionapproximators/gaussianmixture.cpp:63-68 | the first count mixing weights become pseudo-count times 1 / (sum_sp + 1), the rest stay |
| Mixture.GaussianMixture.UpdateWinner | functionapproximators/gaussianmixture.cpp:80-99 | the in-place writes produce exactly the winner update |
| LinearAlgebra.ArgMax | functionapproximators/gaussianmixture.cpp:76-77 | the index of a maximal entry, with every earlier entry strictly smaller |
| LinearAlgebra.DotBetween | functionapproximators/gaussianmixture.cpp:23-25 | a blend with non-negative coefficients r of values in [lo, hi] lies in [lo Sum(r), hi Sum(r)] |
| World.WidenFirst | world/abstractworld.cpp:200-204 | the first call stores the state as both bounds |
| World.WidenEncloses | world/abstractworld.cpp:200-210 | after any call each component of the state lies between its bounds |
| World.WidenValid | world/abstractworld.cpp:203-209 | lower <= upper component by component is preserved |
| World.WidenMonotone | world/abstractworld.cpp:206-209 | once set, the bounds keep their length, the lower bound never rises and the upper bound never falls |
| World.WidenIdempotent | world/abstractworld.cpp:206-209 | a second call with the same state changes nothing |
| World.Track | world/abstractworld.cpp:198-211 | successive calls on states of dimension d leave bounds of length d |
| World.TrackIsTight | world/abstractworld.cpp:198-211 | after a run of calls each bound is the least (greatest) value of its component over all states seen: it encloses them all and is attained |
| World.AbstractWorld.constructor | world/abstractworld.cpp:34-42 | numActions is the argument; the bounds start empty |
| World.AbstractWorld.UpdateMinMax | world/abstractworld.cpp:198-211 | the element loop leaves exactly Widen of the old bounds, and the bounds stay ordered |
| World.Rnd | world/abstractworld.cpp:77 | the draw k / 65536 lies in [0, 1) |
| World.SelectAction | world/abstractworld.cpp:76-87 | the loop returns an action below n that is the roulette selection for the draw |
| World.SelectionUnique | world/abstractworld.cpp:79-87 | at most one action is a selection for a given draw |
| World.SelectionMonotone | world/abstractworld.cpp:79-87 | a larger draw never selects an earlier action |
| World.AccMonotone | world/abstractworld.cpp:82 | with non-negative values, cumulative probabilities do not decrease |
| World.SelectionInterval | world/abstractworld.cpp:79-87 | with non-negative values, action a is selected iff the draw lies in [Acc(a-1), Acc(a)), the first slice starting at 0 and the last open above |
| World.ZeroProbabilityNotChosen | world/abstractworld.cpp:81-86 | an action of probability zero other than the last is never selected |
| Grid.ActionCodeRoundTrip | world/gridworld.h:17-22 | codes 0..3 and the four actions correspond one to one; codes from 4 on are no action |
| Grid.Candidate | world/gridworld.cpp:65-84 | a code from 4 on leaves the position; codes 0..3 aim at a neighbouring cell |
| Grid.StepOutcomes | world/gridworld.cpp:88-104 | reward 10 iff finished (then at the goal); -10 iff the candidate is off the grid or the obstacle and not the goal (position kept); -1 iff the agent moved to a free cell |
| Grid.FinishedIffAtGoal | world/gridworld.cpp:88-104 | starting off the goal, finished iff the new position is the goal |
| Grid.BlockedAtGoal | world/gridworld.cpp:88-97 | at the goal, a refused move leaves the agent on the goal with finished false |
| Grid.StepKeepsSafe | world/gridworld.cpp:88-104 | from the goal or a free in-grid cell, every step leads to the goal or a free in-grid cell, at most one cell away |
| Grid.EncodeState | world/gridworld.cpp:109-115 | the encoded state has two components |
| Grid.EncodeRoundTrip | world/gridworld.cpp:109-115 | the position can be read back from its encoding |
| Grid.GridWorld.constructor | world/gridworld.cpp:27-42 | four actions, the layout, and the current position set to initial |
| Grid.GridWorld.InitialState | world/gridworld.cpp:44-47 | returns [x, y] of the initial position |
| Grid.GridWorld.Reset | world/gridworld.cpp:49-58 | a stochastic world moves initial to a cell of the grid; every world returns to initial |
| Grid.GridWorld.Step | world/gridworld.cpp:60-107 | the position, flag and reward are StepRule's; the state is [x, y] of the new position; safe positions stay safe |

## Left out

- Floating point: all quantities are `real`, with no rounding, overflow, NaN
  or infinity. A `float` sum or product that rounds is exact here. In
  particular `exp` is positive here, while `std::exp` underflows to 0 for an
  input far from every cluster; `value()` then multiplies 0 by the infinite
  reciprocal of the zero sum (gaussianmixture.cpp:137-140) and returns NaN.
  The bounds stated by `PredictionBounds`, `EvidenceSumPositive` and
  `Mixture.GaussianMixture.Value` hold for the real-number model only.
- The numerics of the clusters: `std::exp`, `std::pow(2 pi, D/2)`,
  `std::sqrt(covariance.norm())` and Eigen's `inverse()` are parameters of the
  model. Only positivity, and the shape of the inverse, are assumed. The
  quadratic form is computed exactly.
- Mixture.ProbabilitiesOfClusters: the source takes `1 / proba_x`
  unconditionally. For an empty mixture the sum is 0, and the reciprocal
  (infinity in `float`) is never read. The model uses 0 there and requires a
  non-zero sum whenever there is an evidence.
- Mixture.GaussianMixture.constructor and Mixture.GaussianMixture.SetValue:
  the zero-covariance case is outside the model. With `varInitial == 0`, or
  an empty first input, the new covariance `varInitial * I` has norm 0, and
  the source divides by `std::sqrt(0)`; a negative `varInitial` can reach a
  zero covariance through later winner updates. In `float` that gives an
  infinite normalisation. The model's `sqrtOfNorm` is assumed positive on
  every matrix, so every normalisation is positive and finite, and the
  positivity stated by `EvidenceSumPositive` and `ReuseUpdatesWinner` rests
  on that assumption.
- Mixture.GaussianMixture.SetValue: requires, once the mixture is not empty,
  an input of the mixture's dimension (`Accepts`). The source checks nothing:
  a mismatched input reaches `input - _means[cluster]`, where Eigen's size
  assertion fails, or the behaviour is undefined when assertions are off.
- Mixture.GaussianMixture.Value: requires an input of the mixture's dimension
  once it is not empty, for the same reason as `SetValue`.
- Mixture.GaussianMixture.ProbabilitiesOfInputs and
  Mixture.GaussianMixture.ProbabilitiesOfClustersOf: the same requirement on
  the input's dimension, for the same reason.
- The penalty in `probabilitiesOfInputs` is computed and discarded. It is not
  modelled, nor is its division by `max(value, cluster_value)`, nor the NaN
  target that `value()` passes.
- The `alloca` scratch buffers become sequences.
- `int D` and `float(D)` conversions are exact.
- The rest of `AbstractWorld::run` is not modelled: episodes, the model and
  learning calls, batching and console output. Neither is `plotModel`, which
  writes files for gnuplot.
- `std::rand()` is not modelled. Its draws become parameters: `k` for the
  roulette, `rndX` and `rndY` for a stochastic reset.
- World.SelectAction: requires `n >= 1`, because `valueSize() - 1` on an
  unsigned `n = 0` wraps around. It also requires at least `n - 1` values.
- World.AbstractWorld.UpdateMinMax: requires a later state to be no longer
  than the stored bounds, because the source would index past their end.
- Grid.GridWorld.Reset: requires a non-zero width and height in a stochastic
  world, because `% 0` is undefined in C++.
- Grid coordinates are unbounded integers. The 32-bit `int` overflow of
  `pos.x += 1` and the signed/unsigned comparison `pos.x >= _width` are not
  modelled; the latter is only reached once `pos.x >= 0`.
- `float(point.x)` is exact here, as it is in C++ for coordinates up to
  2^24 in magnitude.
- world/oneofnworld.h and model/perceptronmodel.h are not part of this model.
  The first declares a world without showing its behaviour. The second wraps
  an external neural-network library.
