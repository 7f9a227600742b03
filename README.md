# Hénon and Lorenz-63 supermodels in Dafny

This project models the numerical core of two chaotic-system "supermodel" demos.
In a supermodel, several imperfect models of one system are coupled by linear
correction terms. Their states are averaged to estimate the true system.
All arithmetic is over exact Dafny `real`s.

- `params.dfy` (module `Params`): the parameter records `HModel`, `HCoeffs`,
  `LModel` and `LCoeffs` as immutable datatypes. The Python keyword defaults
  become constructor defaults. The two sample coupling sets are the constants
  `LCoeffs1` and `LCoeffs2`. Every field is assigned once, at construction, as
  in the source classes: datatype values cannot be changed afterwards.
- `henon.dfy` (module `Henon`): the Hénon step `Step` (`henon`) and the coupled
  step `CoupledStep` (`henon_coupled`). The methods `Trajectory` and
  `CoupledTrajectory` are the loops of `plot_system` and
  `plot_coupled_system`: they fill freshly allocated arrays of length
  `NIter + 1` (10000 + 1) from the state (0.1, 0.3). `Average`, `Midpoint` and `Supermodel` are the supermodel mean.
  The methods are proved against the ghost functions `Iterate` (k steps of
  the map), `LiteralOrbit` (the coupled generator as written) and
  `CoupledOrbit` (the coupled generator with each subsystem fed its own state).
- `lorenz.dfy` (module `Lorenz`): the right-hand sides `Derivative` (`lorenz`)
  and `CoupledDerivative` (`lorenz_coupled`). `AverageSubsystems` is the
  averaging loop of `integrate_coupled_system`. It runs over a list of solver
  outputs, each a matrix whose rows have 9 columns, as the loop `for si in s`
  does. `CoupledDerivative` is written as three blocks built by
  `PulledDerivative`, one per subsystem, in the same order and with the same
  expressions as the source's three groups of lines, including dy written as
  x·(b − z) − y.

Two points where the model follows the code's exact behaviour:
- `zip` truncates to the shorter input, so `Average` is as long as the shorter
  input and does not require equal lengths.
- The coupled generator feeds subsystem 2's previous state into both input
  slots (henon_map.py:80), which looks like a transcription slip (see
  Findings). `CoupledTrajectory` and `Supermodel` reproduce it.

## Model

| member | source | states |
|---|---|---|
| `Params.HModelDefaults` | params.py:7-9 | `HModel()` is a = 1.4, b = 0.3; an argument supplied alone or together is stored unchanged and the other keeps its default |
| `Params.HCoeffsDefaults` | params.py:15-19 | `HCoeffs()` is the zero coupling; any one coefficient supplied alone is stored unchanged and the other three are 0; all four supplied are stored unchanged |
| `Params.LModelDefaults` | params.py:25-28 | `LModel()` is a = 10, b = 28, c = 2.667; any one value supplied alone is stored unchanged and the others keep their defaults; all three supplied are stored unchanged |
| `Params.SampleCoefficients` | params.py:35-64 | the sample sets hold the literal values (e.g. `LCoeffs2.cy21 = 0.00`, `LCoeffs2.cz12 = 3000.95`); neither is the zero coupling, and the two differ |
| `Henon.Step` | henon_map.py:10-19 | the input can be read back from the output (x′, y′): b·x = y′ and y = x′ − 1 + a·x², so for b ≠ 0 x = y′/b and the step is one-to-one (see `StepInvertible`) |
| `Henon.Iterate` | henon_map.py:53-55 | the i-th state of the loop from a start point; a fixed point of the map stays where it is at every iteration |
| `Henon.StepInvertible` | henon_map.py:10-19 | for b ≠ 0 the Hénon step is a bijection: `Step(p) == q` exactly when `p` is the preimage `Unstep(q)` = (q.y/b, q.x − 1 + a·(q.y/b)²) |
| `Henon.StepFixedPoint` | henon_map.py:17-19 | p is a fixed point of the step exactly when y = b·x and a·x² + (1 − b)·x = 1 |
| `Henon.CoupledStep` | henon_map.py:22-37 | `henon_coupled` on (x1, y1, x2, y2): two subsystems with the same model and the same state stay in the same state, whatever the coefficients |
| `Henon.CoupledStepUncoupled` | henon_map.py:30-37 | with all four coefficients zero, the coupled step is `henon` applied to (x1, y1) under model 1 and to (x2, y2) under model 2 |
| `Henon.CoupledStepSynchronized` | henon_map.py:31-35 | when (x1, y1) = (x2, y2) every coupling term vanishes, whatever the coefficients |
| `Henon.CoupledStepSwap` | henon_map.py:30-37 | swapping the subsystems, the two models and the coefficient labels swaps the result of the coupled step |
| `Henon.Trajectory` | henon_map.py:50-55 | both arrays are freshly allocated and distinct, have length N_ITER + 1, start at (0.1, 0.3), and entry i + 1 is `henon` of entry i; entry i is the i-th iterate of the map from (0.1, 0.3) |
| `Henon.CoupledTrajectory` | henon_map.py:73-81 | four freshly allocated, pairwise distinct arrays of length N_ITER + 1 starting at (0.1, 0.3, 0.1, 0.3); entry i + 1 is the coupled step of (xs2[i], ys2[i], xs2[i], ys2[i]); (xs2, ys2) is the plain orbit of model 2 |
| `Henon.LiteralOrbit` | henon_map.py:78-81 | the i-th state of the loop as written, started at (0.1, 0.3, 0.1, 0.3); with two identical models the subsystems agree at every index, whatever the coefficients |
| `Henon.CoupledOrbit` | henon_map.py:78-81 | the i-th state of the loop with each subsystem fed its own state; with two identical models the subsystems agree at every index, whatever the coefficients |
| `Henon.LiteralOrbitFollowsModel2` | henon_map.py:78-81 | under the literal feed, subsystem 2 is the uncoupled orbit of model 2, and subsystem 1 at i + 1 is model 1's step from subsystem 2 at i |
| `Henon.LiteralOrbitIgnoresCoeffs` | henon_map.py:78-81 | under the literal feed, the coupled trajectory is the same for any two sets of coupling coefficients |
| `Henon.LiteralFeedCounterexample` | henon_map.py:79-81 | with models (1.4, 0.3) and (0, 0) and zero coupling, subsystem 1 at step 2 under the literal feed differs from the own-state feed |
| `Henon.LiteralMidpoint` | henon_map.py:78-85 | under the literal feed, the supermodel point at step k > 0 is the mean of model 1's and model 2's steps from model 2's orbit at k − 1 |
| `Henon.LiteralSupermodelSwapCounterexample` | henon_map.py:78-85 | under the literal feed, with models (1.4, 0.3) and (0, 0) and zero coupling, relabelling the subsystems, models and coefficients changes the supermodel point at step 2 |
| `Henon.SwapEstimates` | henon_map.py:84-85 | the two step-2 supermodel x values of that example are −0.183 and −0.1276572 |
| `Henon.Midpoint` | henon_map.py:84-85 | the supermodel point is equidistant from the two subsystems in x and in y, and equals their state when they agree |
| `Henon.MidpointSwap` | henon_map.py:84-85 | the supermodel point does not depend on which subsystem is called 1 |
| `Henon.Average` | henon_map.py:84-85 | as long as the shorter input (pairs formed as by `zip`); entry k is (u[k] + v[k])·0.5 and lies between u[k] and v[k] |
| `Henon.AverageSymmetric` | henon_map.py:84-85 | averaging is unchanged by swapping the two subsystems' arrays |
| `Henon.AverageSelf` | henon_map.py:84-85 | averaging an array with itself gives it back |
| `Henon.Supermodel` | henon_map.py:73-85 | the averaged output has N_ITER + 1 entries, starts at (0.1, 0.3), entry i is the midpoint of the literal coupled state i, and entry i + 1 is the midpoint of model 1's and model 2's steps from model 2's orbit at i, so it does not depend on the coefficients |
| `Henon.CoupledOrbitUncoupled` | henon_map.py:30-37 | with the own-state feed and zero coupling, each subsystem follows its own model's orbit |
| `Henon.CoupledOrbitSwap` | henon_map.py:30-37 | with the own-state feed, relabelling the models and coefficients consistently relabels the whole coupled orbit |
| `Henon.SymmetricSupermodelSwap` | henon_map.py:84-85 | with the own-state feed, the supermodel point at every step is unchanged by relabelling the subsystems consistently |
| `Henon.SymmetricCoupledTrajectory` | henon_map.py:73-81 | the corrected generator: four freshly allocated, pairwise distinct arrays; entry i + 1 is the coupled step of entry i; with zero coupling each subsystem's arrays are its own model's orbit |
| `Henon.SymmetricSupermodel` | henon_map.py:84-85 | the corrected supermodel: N_ITER + 1 midpoints of the own-state coupled orbit, starting at (0.1, 0.3), unchanged by consistent relabelling |
| `Lorenz.Derivative` | lorenz63.py:10-19 | three components; for a ≠ 0 dx is zero exactly on the plane x = y; on the z axis (x = y = 0) dx and dy are zero, so the z axis is invariant |
| `Lorenz.DerivativeAutonomous` | lorenz63.py:10-19 | `lorenz` gives the same derivative at every time t0 |
| `Lorenz.DerivativeEquilibrium` | lorenz63.py:16-19 | for a ≠ 0 the derivative is zero exactly when x = y, x·(b − 1 − z) = 0 and x² = c·z |
| `Lorenz.DerivativeHalfTurn` | lorenz63.py:16-19 | the derivative at (−x, −y, z) is (−dx, −dy, dz) |
| `Lorenz.DyForms` | lorenz63.py:43 | the coupled form x·(b − z) − y of dy equals the single-system form b·x − y − x·z |
| `Lorenz.PulledDerivative` | lorenz63.py:42-52 | one subsystem's three coupled components: component k is the subsystem's own `lorenz` component k plus ku[k]·(u[k] − own[k]) + kv[k]·(v[k] − own[k]), the pulls towards the two other subsystems |
| `Lorenz.CoupledDerivative` | lorenz63.py:31-54 | nine components in three blocks: block i is subsystem i's pulled derivative under model i, pulled towards subsystem j with (cxij, cyij, czij) and towards subsystem k with (cxik, cyik, czik), in source order |
| `Lorenz.PulledDerivativeUnpulled` | lorenz63.py:42-52 | one subsystem's three coupled components are its own `lorenz` derivative when both pull strengths are zero or both other subsystems are in its state |
| `Lorenz.CoupledDerivativeUncoupled` | lorenz63.py:31-54 | with all 18 coefficients zero, the 9 components are subsystem 1's, 2's and 3's own `lorenz` derivatives, in that order, each under its own model |
| `Lorenz.CoupledDerivativeSynchronized` | lorenz63.py:42-52 | when the three subsystem states are equal, every coupling term vanishes for any coefficients |
| `Lorenz.Mean3` | lorenz63.py:65-67 | the deviations from the three-way mean sum to zero, and three equal values are their own mean |
| `Lorenz.BlockMeans` | lorenz63.py:65-67 | one mean per row; entry k is the mean of columns j, j + 3 and j + 6 of row k |
| `Lorenz.Concatenated` | lorenz63.py:63-71 | the accumulated means of every solver output in turn: one mean per time sample, summed over the outputs |
| `Lorenz.ConcatenatedSingle` | lorenz63.py:62-71 | with the single solver output the code produces, the result is that output's row means, one per time sample |
| `Lorenz.AverageSubsystems` | lorenz63.py:63-71 | xs, ys, zs are the concatenated column means of every solver output; for one output each is as long as its row count and entry k averages columns 0/3/6, 1/4/7 and 2/5/8 of row k |
| `Lorenz.Mean3Permuted` | lorenz63.py:65-67 | rearranging a row's three subsystem blocks leaves each component's mean unchanged |
| `Lorenz.BlockMeansPermuted` | lorenz63.py:65-67 | the averaged output is invariant under any permutation of the three subsystems' column blocks |
| `Lorenz.BlockMeansAgreeing` | lorenz63.py:65-67 | at a row where the three subsystems agree, the averaged (x, y, z) is their common state |

## Left out

- `integrate_system` and the solver call in `integrate_coupled_system` (lorenz63.py:22-28, 62) call a foreign adaptive floating-point ODE solver. `AverageSubsystems` takes the solver output as a parameter instead.
- The seeded random initial conditions (lorenz63.py:24-25, 59-60) come from a hidden global generator, so they are not modelled.
- All plotting is rendering and I/O: `add_subplot`, `plot`, `set_title`, `hide_grid`, `plt.show`, the plotting halves of the `plot_system` functions, and the `__main__` demo blocks.
- Floating point is not modelled: rounding, NaN and infinity propagation, and bit-exactness between the two written forms of dy. The model computes over exact reals.
- The attractor's boundedness, and how close a supermodel comes to the true model, are empirical facts of chaotic dynamics that the code does not promise.
- The models lists: `CoupledStep` and `CoupledDerivative` require at least two (resp. three) models. The source reads `models[0]`, `models[1]` (and `models[2]`) and fails with an index error on a shorter list; extra entries are ignored, as in the model.
- Python's integer defaults (`HCoeffs` zeros, `LModel` a = 10 and b = 28) are modelled as the equal reals.

## Findings

| source | as written | input that shows it | evidently intended | confidence | as-written member | corrected member |
|---|---|---|---|---|---|---|
| henon_map.py:80 | the coupled step is fed `(xs2[i], ys2[i], xs2[i], ys2[i])`, so both subsystems start every step from subsystem 2's state; every coupling term is then zero and `coeffs` has no effect | models `HModel()` and `HModel(a=0, b=0)`, `HCoeffs()`: xs1[2] is −1.366 where the own-state iteration gives −1.2853144; any two coefficient sets give identical arrays; relabelling the subsystems with the same models changes the supermodel x at step 2 from −0.183 to −0.1276572 | feed `(xs1[i], ys1[i], xs2[i], ys2[i])`, so each subsystem steps from its own state and the coefficients couple them | medium, not executed | `Henon.CoupledTrajectory` (with `Henon.LiteralOrbitIgnoresCoeffs`, `Henon.LiteralFeedCounterexample`, `Henon.LiteralSupermodelSwapCounterexample`) | `Henon.SymmetricCoupledTrajectory` (with `Henon.CoupledOrbitUncoupled`, `Henon.CoupledOrbitSwap`, `Henon.SymmetricSupermodel`) |

`Supermodel` keeps the feed as written, so that it computes what the code
computes. `SymmetricSupermodel` is the same supermodel over the corrected generator.
