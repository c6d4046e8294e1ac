# Self-organizing map trainer, modelled in Dafny

This project models the training core of a small self-organizing map (SOM)
written in Python with numpy: the class `SelfOrganizingMap` in `som.py`, its
constructor and its `train` method.

The map keeps a `width × height × 3` array of prototype vectors ("weights").
Training runs `max_iterations` passes over the samples. Each pass first
computes a decayed neighbourhood radius and learning rate from the pass
number. Then, for every sample in input order, it

1. finds the best-matching unit (BMU): the cell whose prototype has the least
   squared Euclidean distance to the sample, via `argmin` over the flattened
   distance table and `unravel_index`, so ties go to the first cell in
   row-major order;
2. takes the square window of half-width `int(radius) + 1` around the BMU,
   clipped to the grid;
3. moves every prototype of the window toward the sample by
   `rate · exp(-d² / (2·radius²)) · (sample − prototype)`, where `d²` is the
   cell's squared grid distance to the BMU, in place, before the next sample's
   search.

The project has four modules:

- `Arith` (`arith.dfy`): small facts about products and quotients of reals
  and integers, each proved on its own.
- `Decay` (`decay.dfy`): the time constant, the decayed radius and rate, and
  the influence. `exp` and `log` are parameters of type `real -> real`. The
  predicates `ExpFacts` and `LogFacts` list all that is assumed about them:
  exp(0) = 1, exp is monotone, exp maps non-positive reals into (0, 1], and
  log is positive above 1.
- `SomSpec` (`som_spec.dfy`): the training step as functions on grid values
  (`seq<seq<seq<real>>>`): squared distance, argmin, unravel, BMU, window,
  cell update, slice update, one step, one pass, all passes. It also holds the
  properties proved about them.
- `Som` (`som.dfy`): the class. It keeps the weights in an `array3<real>`,
  which the methods update in place with the loops of the source. Each method
  is proved to leave exactly the grid that the `SomSpec` functions compute.

The trainer validates nothing. There is no error for empty input, a sample
of the wrong length, non-positive sizes or iteration counts, or an initial
radius of 1 or less. The model follows the code. With `max_iterations ≤ 0`,
`range` is empty and training returns the grid unchanged. With no samples,
every pass leaves the grid unchanged.

## Model

| member | source | states |
|---|---|---|
| Som.SelfOrganizingMap.constructor | som.py:22-41 | stores width, height, max_iterations and the initial rate; the initial radius is max(width, height) / 2; allocates a fresh width × height × 3 array holding the given initial grid |
| Som.SelfOrganizingMap.Train | som.py:43-89 | the array keeps its shape, is the object returned, and holds exactly `Trained` of the old grid: max(max_iterations, 0) passes with the decay constant max_iterations / log(radius0) |
| Som.SelfOrganizingMap.TrainIteration | som.py:60-65 | one outer iteration: radius and rate come from the iteration index alone, and the same pair serves every sample of the pass |
| Som.SelfOrganizingMap.TrainPass | som.py:65-87 | the samples are taken in input order, each applied to the grid the previous one left (the array ends at `Pass` of its old grid) |
| Som.SelfOrganizingMap.TrainOnSample | som.py:65-87 | the BMU is searched in the current weights and the in-place window update leaves exactly `Step` of the old grid |
| Som.SelfOrganizingMap.UpdateWindowInPlace | som.py:85-87 | every window cell becomes w + rate·influence·(s − w), computed from its own old value; every cell outside the window keeps its old value |
| Decay.TimeConstant | som.py:55 | the decay constant is positive exactly when there is a pass to run (max_iterations > 0), given radius0 > 1 |
| Decay.DecayFactor | som.py:62-63 | exp(-iteration / time_constant) is 1 at iteration 0 and lies in (0, 1] |
| Decay.Radius | som.py:62 | the radius of a pass starts at radius0 and stays in (0, radius0] |
| Decay.Rate | som.py:63 | the rate of a pass starts at rate0 and, for rate0 ≥ 0, stays in [0, rate0] (positive when rate0 is) |
| Decay.DecayFactorMonotone | som.py:62-63 | the decay factor of a later pass is never larger |
| Decay.ScheduleMonotone | som.py:62-63 | radius and rate of a later pass are never larger than those of an earlier one |
| Decay.Influence | som.py:82 | the influence lies in (0, 1] and is exactly 1 at squared grid distance 0 |
| Decay.InfluenceMonotone | som.py:81-82 | a cell farther from the BMU never gets more influence |
| SomSpec.Max | som.py:40 | Python's `max` of two integers: the result is one of them and at least both |
| SomSpec.Min | som.py:72 | Python's `min` of two integers: the result is one of them and at most both |
| SomSpec.Trunc | som.py:71-74 | Python `int()` on a float truncates toward zero: the bracketing facts for both signs |
| SomSpec.SqDist | som.py:67 | the squared Euclidean distance is non-negative |
| SomSpec.Move | som.py:85-86 | the update built component by component from `Toward`, w + a·(s − w): for a step in [0, 1] every component lands between its old value and the sample's; a step of 1 reaches the sample, a step of 0 changes nothing |
| SomSpec.StepBetween | som.py:85-86 | one component's update with a step in [0, 1] stays between the old value and the sample's |
| SomSpec.MoveScalesDistance | som.py:85-86 | moving a vector by step a toward s scales its squared distance to s by (1 − a)² |
| SomSpec.Unravel | som.py:68 | `unravel_index` gives a cell inside the grid whose row-major flat index `Flat`, x·height + y, is the given index |
| SomSpec.FlatOrder | som.py:67-68 | flat order is row-major order (smaller x first, then smaller y), and distinct cells have distinct flat indices |
| SomSpec.FlatUnravel | som.py:67-68 | flattening and `unravel_index` are inverse on the grid |
| SomSpec.Distances | som.py:67 | the summed squared differences, flattened, hold at each cell's flat index that cell's distance to the sample |
| SomSpec.ArgMin | som.py:67 | `argmin` returns an index of a least element, and every earlier element is strictly larger (first occurrence) |
| SomSpec.ArgMinFrom | som.py:67 | the scan keeps the first least element of the prefix seen so far |
| SomSpec.Bmu | som.py:67-68 | the BMU is inside the grid, no cell is closer to the sample, and every cell before it in row-major order is strictly farther |
| SomSpec.BestDist | som.py:67 | the BMU's distance is the least distance of any cell, and some cell attains it |
| SomSpec.NeighbourhoodWindow | som.py:71-74 | the bounds use `Max`/`Min` (Python's max/min, each proved to return one argument and bound both); the clipped window never leaves the grid, holds exactly the cells within int(radius) + 1 of the BMU on both axes, and holds the BMU itself |
| SomSpec.SqGridDist | som.py:81 | the squared grid distance is 0 exactly at the BMU |
| SomSpec.CellUpdate | som.py:81-86 | an updated vector has 3 components; for a rate in [0, 1] none overshoots the sample; the BMU moves by exactly rate·(s − w) |
| SomSpec.UpdateWindow | som.py:77-87 | the slice update keeps the grid shape, replaces every window cell by its update and keeps every other cell |
| SomSpec.Step | som.py:67-87 | one sample's update keeps the shape, moves the BMU by exactly rate·(s − w), changes nothing outside the BMU's window, and with a rate in [0, 1] no component overshoots the sample |
| SomSpec.StepFromCells | som.py:77-87 | a grid whose window cells hold the per-component updates and whose other cells are unchanged equals `Step` |
| SomSpec.Pass | som.py:65-87 | a pass keeps the grid shape |
| SomSpec.PassAppend | som.py:65-87 | a pass over a ++ b is a pass over a followed by a pass over b: updates are applied sample by sample, each before the next search |
| SomSpec.Passes | som.py:60-87 | the passes keep the grid shape |
| SomSpec.Trained | som.py:55-89 | training keeps the grid shape and leaves the grid unchanged when max_iterations ≤ 0 |
| SomSpec.StepBringsBestCloser | som.py:67-86 | after a step with a rate in [0, 1] the closest prototype is at least as close to the sample, and strictly closer when the rate is positive and the sample was not matched exactly |
| SomSpec.StepStaysInUnitBox | som.py:85-86 | a step with a rate in [0, 1] keeps every component of a unit-box grid in [0, 1] when the sample is in [0, 1] |
| SomSpec.PassStaysInUnitBox | som.py:65-87 | a pass keeps a unit-box grid in the unit box for samples in [0, 1] |
| SomSpec.PassesStayInUnitBox | som.py:60-87 | all passes keep a unit-box grid in the unit box for an initial rate in [0, 1] |
| SomSpec.TrainedStaysInUnitBox | som.py:41-89 | training a grid drawn from [0, 1) on samples in [0, 1] with an initial rate in [0, 1] leaves every component in [0, 1] |
| SomSpec.UpdateInOrder | som.py:85-87 | updating cells one at a time in a chosen order keeps the grid shape |
| SomSpec.CellUpdateIsLocal | som.py:85-86 | a cell's new vector depends on its own old vector only, not on any other cell |
| SomSpec.UpdateInOrderCells | som.py:85-87 | updating distinct cells one at a time gives each listed cell its update from the original grid and leaves the others alone |
| SomSpec.UpdateOrderIrrelevant | som.py:85-87 | visiting the window's cells one at a time in any order gives the same grid as the slice update |

## Left out

- Random initialisation (som.py:41): the constructor takes the initial grid as an argument instead of drawing it from `np.random.random`. The unit-box lemmas take "every component in [0, 1]" as the property of that draw.
- `exp` and `log` are parameters constrained by `ExpFacts` and `LogFacts`, not computed. Floating-point rounding, overflow and NaN are not modelled; the arithmetic is exact over `real`.
- Som.SelfOrganizingMap.Train: requires an initial radius above 1. For grids no larger than 2 × 2, `log(radius0) ≤ 0`, and the source then divides by zero or decays with a negative time constant (the radius grows). That behaviour is not modelled.
- Som.SelfOrganizingMap.Train: requires a non-empty grid. On an empty grid, numpy's `argmin` raises `ValueError` at the first sample; the exception is not modelled.
- Som.SelfOrganizingMap.Train: requires every sample to have exactly 3 components. numpy would broadcast a 1-component sample and raise on other lengths; neither is modelled.
- Som.SelfOrganizingMap.constructor: requires non-negative sizes, since `np.random.random` raises `ValueError` on a negative shape; the exception is not modelled. A non-integer `max_iterations` is not modelled.
- The cached coordinate tables `grid_x`, `grid_y` (som.py:58) and the neighbourhood slices of them (som.py:77-78) are the cell indices themselves; the model uses x and y directly.
- The command-line driver (`main.py`: argument parsing, logging, timing, image output) and the loaders (`utils.py`: CSV reading, min-max normalisation, YAML configuration) are I/O and are not part of this model.
- Decay.ScheduleMonotone: states non-increase only. A strict decrease would need exp to be strictly monotone, which `ExpFacts` does not assume.
