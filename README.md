# LunarLander MuZero configuration: exploration-temperature schedule

This project models the decision logic of the LunarLander game configuration
of a MuZero-style learner (`games/lunarlander.py`). It has two parts.

- `config.dfy`, module `LunarLanderConfig`. The configuration record is
  built once and never changed, so it is a value. It holds three fields:
  the observation shape, the action space and the training budget
  `training_steps`. `Valid` is the record's invariant: the counts are
  positive and the action space is the non-empty, zero-based, contiguous
  list `[i for i in range(n)]`. `Default` is the record that `__init__`
  builds: shape 8, actions `[0, 1, 2, 3]`, 700 training steps.
- `temperature.dfy`, module `Temperature`. `VisitSoftmaxTemperature` is the
  schedule `visit_softmax_temperature_fn`, written as the source writes it.
  It compares `trained_steps` with 0.25, 0.5 and 0.75 of `training_steps`
  and returns 1000, 1, 0.5 or 0.1. The comparisons use exact `real`
  arithmetic. `num_moves` is accepted and ignored.

The schedule has an independent reference definition, `MarksReached`. It
counts how many quarter-marks of the budget the step count has reached,
using integers only (`k * n <= 4 * t`). `TemperatureIsBandTemperature`
proves that for a positive budget the schedule returns the entry of the
decreasing table `[1000, 1, 0.5, 0.1]` at that count. Monotonicity follows
from this: the count never decreases as training advances, and the table
only goes down.

## Model

| member | source | states |
|---|---|---|
| `LunarLanderConfig.Range` | games/lunarlander.py:12 | the comprehension `[i for i in range(n)]` has length n and holds `i` at index `i` |
| `LunarLanderConfig.Default` | games/lunarlander.py:11-40 | the default record is valid, with observation shape 8, actions `[0, 1, 2, 3]` and 700 training steps |
| `LunarLanderConfig.ContiguousActions` | games/lunarlander.py:12 | a zero-based contiguous action list has no duplicates and contains exactly the actions `0 .. len - 1` |
| `LunarLanderConfig.DefaultActionSpace` | games/lunarlander.py:12 | the default action space has 4 entries, no duplicates, and contains exactly 0, 1, 2 and 3 |
| `Temperature.VisitSoftmaxTemperature` | games/lunarlander.py:57-72 | the result is positive and is one of 1000, 1, 0.5 and 0.1, as the docstring's "Positive float" promises |
| `Temperature.MarksReached` | games/lunarlander.py:65-72 | the reference count of quarter-marks reached among the first k is at most k |
| `Temperature.MarksReachedMonotone` | games/lunarlander.py:65-72 | more trained steps never reach fewer quarter-marks |
| `Temperature.MarksReachedBands` | games/lunarlander.py:65-72 | for a positive budget, the count is 0, 1, 2 or 3 exactly when `4t` lies below n, in [n, 2n), in [2n, 3n) or at or above 3n |
| `Temperature.QuarterThreshold` | games/lunarlander.py:65-69 | the real comparison `t < (k/4) * n` is equivalent to the integer comparison `4t < k * n` |
| `Temperature.TemperatureIsBandTemperature` | games/lunarlander.py:65-72 | for a positive budget, the schedule equals the entry of `[1000, 1, 0.5, 0.1]` at the reference count of marks reached |
| `Temperature.ExplorationBand` | games/lunarlander.py:65-66 | the result is 1000 exactly when `trained_steps < 0.25 * training_steps`; for a positive budget every negative step count gets 1000 |
| `Temperature.ProportionalBand` | games/lunarlander.py:67-68 | the result is 1 exactly when `0.25 * training_steps <= trained_steps < 0.5 * training_steps` |
| `Temperature.ModeratelyGreedyBand` | games/lunarlander.py:69-70 | the result is 0.5 exactly when `0.5 * training_steps <= trained_steps < 0.75 * training_steps` |
| `Temperature.NearGreedyBand` | games/lunarlander.py:71-72 | for a positive budget the result is 0.1 exactly when `trained_steps >= 0.75 * training_steps`, including every step count at or beyond the budget |
| `Temperature.IndependentOfNumMoves` | games/lunarlander.py:57-72 | two calls that differ only in `num_moves` return the same temperature |
| `Temperature.TemperaturesDecreasing` | games/lunarlander.py:65-72 | the four returned constants strictly decrease from band to band |
| `Temperature.GreedierAsTrainingProgresses` | games/lunarlander.py:58-72 | the temperature never increases as `trained_steps` grows, whatever `num_moves` and whatever the budget |
| `Temperature.NonIncreasingOverRun` | games/lunarlander.py:58-72 | along a run whose step counts ascend, the temperatures never increase |
| `Temperature.DefaultSchedule` | games/lunarlander.py:65-72 | with the default budget of 700, steps 0 and 174 give 1000, 175 and 349 give 1, 350 and 524 give 0.5, 525 and 699 give 0.1 |

## Left out

- The `Game` class (games/lunarlander.py:75-113). It passes calls through to the external `gym` LunarLander simulation, whose physics, seeding, reset and step behaviour are not visible. The `numpy` flattening of observations is a library call, and the blocking console prompt in `render` is I/O.
- Device selection (games/lunarlander.py:39). It calls `torch.cuda.is_available()`, whose result depends on the machine.
- The stored constants that nothing in this file interprets are not fields of the model. These are the seed, `num_actors`, `max_moves`, `num_simulations` and `discount`. They also include the Dirichlet and UCB constants, the known value bounds, the network sizes and `results_path`. So are the batch, unroll, test, checkpoint, window and `td_steps` settings, and the learning-rate, momentum and weight-decay constants.
- VisitSoftmaxTemperature: the source compares an int against a float with Python's exact mixed comparison. The model computes the three thresholds `0.25 * training_steps`, `0.5 * training_steps` and `0.75 * training_steps` exactly as reals. The source computes them as doubles. All three are exact when `3 * |training_steps|` is at most 2^53. Beyond that, `0.75 * training_steps` can round, and so can the conversion of `training_steps` to a float. Then the source can put a step count in a different band than the model does.
- VisitSoftmaxTemperature: when `|training_steps|` is too large for a double (about 2^1024 or more), the source raises `OverflowError` on converting it to a float. The model has no error path and returns a temperature for every budget.
- VisitSoftmaxTemperature: the returned 0.1 is the real number one tenth. The source returns the nearest binary double. The source also returns 1000 and 1 as Python ints and 0.5 and 0.1 as floats. The model returns all four as reals.
