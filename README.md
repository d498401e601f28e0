# Physarum trail simulator: a verified model

This project models the agent–field loop of `mold_simulator`, a slime-mold (Physarum) simulator.

- A swarm of particles moves over a toroidal trail map.
- In every step, each particle does three things:
  - it senses the trail at three points ahead of it (forward, left and right);
  - it steers by a fixed priority rule and moves one `speed` with its position wrapped onto the torus;
  - it deposits 5.0 into the cell under it.
- After all particles, the map decays by a factor and diffuses once by a five-point stencil whose neighbours wrap around the torus.
- An optional metric tracker then logs two things: the entropy of the normalised map, and the mean distance the particles moved since its last log.
- A run repeats step-then-render, keeping one frame per step.

Grid cells and positions are Dafny `real`s, not float32/float64. Dimensions and indices are `int`s.

Each piece of the model has two forms.

- **A value-level specification.**
  - Grids and deposits are in `Grids`.
  - The particle state and steering rule are in `Agents`.
  - The tracker state is in `Metrics`.
  - A whole step and a whole run are in `Worlds`.
- **An imperative class that updates its state in place as the program does, proved against that specification.** Where the classes differ from the program, "## Left out" says so: the mean displacement of an empty swarm (see also "## Findings"), the aggregate of no trials or of ragged trials, and the entropy of a zero-sum grid.
  - `TrailMaps.TrailMap` holds a `height x width` `array2<real>`. Its `Update` scales the array in place, computes the stencil into a fresh array from the decayed values, and then adds it back.
  - `Particles.Particle` reassigns `x`, `y` and `angle`. Its `Deposit` writes into the shared array.
  - `Metrics.MetricTracker` reassigns its logs, its baseline and its archives.
  - `Simulators.Simulator` loops over its particles and over the requested frames.
- Each method's `ensures` ties the new state to a function of the old state. The properties the program promises are then proved about those functions.

Each particle senses the deposits of every particle before it in the same step. The loop at `mold_simulator/simulator.py:42-44` runs `update` then `deposit` for each particle in list order on the shared grid, and takes no start-of-step snapshot, so neither does the model.

- `Worlds.Moves` and `Worlds.Interleaved` state this order.
- `Simulators.Simulator.Step` is proved to perform it.

The source validates no configuration: sizes, decay and diffusion rate are taken as given. The model does not validate them either; each member states the conditions it needs in its `requires`.

Everything the source takes from NumPy's transcendental functions is a parameter of the model. `Numeric.Math` bundles `cos`, `sin`, `ln` and `sqrt` as arbitrary functions. Every property holds whatever they are. The random turn `np.random.uniform(-turn_angle, turn_angle)` is a `jitter` argument, one per particle per step. `Agents.SteerBounded` shows that a sample in that range changes the heading by at most the turn angle.

## Model

| member | source | states |
|---|---|---|
| Numeric.Trunc | mold_simulator/particle.py:42-45 | Python's `int()` truncates toward zero: the result lies within one of the argument, on the argument's side of zero |
| Numeric.RealModIsRemainder | mold_simulator/particle.py:71-72 | the float `%` with a positive modulus, taken by whole turns, is `v - m * floor(v / m)`, Python's remainder |
| Numeric.PrevIsMod | mold_simulator/trailmap.py:36-37 | the neighbour a roll by +1 brings to index `i` is `(i - 1) % n` |
| Numeric.NextIsMod | mold_simulator/trailmap.py:36-37 | the neighbour a roll by -1 brings to index `i` is `(i + 1) % n` |
| Numeric.SumRoll | mold_simulator/trailmap.py:36-37 | `np.roll` by one place either way keeps the sum of a sequence |
| Grids.RollRowsIsRoll | mold_simulator/trailmap.py:36 | the axis-0 roll of the grid moves whole rows around the cycle |
| Grids.RollColsIsRoll | mold_simulator/trailmap.py:37 | the axis-1 roll of the grid rolls every row around the cycle |
| Grids.TotalRollRows | mold_simulator/trailmap.py:36 | rolling rows keeps the grid total |
| Grids.TotalRollCols | mold_simulator/trailmap.py:37 | rolling columns keeps the grid total |
| Grids.TotalLaplacian | mold_simulator/trailmap.py:35-39 | the wrapped stencil term sums to zero over the torus |
| Grids.TotalUpdated | mold_simulator/trailmap.py:31-39 | one update multiplies the grid total by exactly `decay`, for every diffusion rate |
| Grids.LaplacianAt | mold_simulator/trailmap.py:35-39 | each stencil cell is up + down + left + right - 4 * cell, with neighbours taken modulo height and width |
| Grids.LaplacianWrapsAtCorner | mold_simulator/trailmap.py:35-39 | at cell (0, 0) the neighbours are the last row and the last column: indices wrap, they never clamp |
| Grids.UpdatedAt | mold_simulator/trailmap.py:31-39 | each updated cell is the decayed cell plus `rate` times the stencil of the fully decayed grid; no partly updated cell is read |
| Grids.UpdatedNonNegative | mold_simulator/trailmap.py:32-39 | with `decay >= 0`, `0 <= rate <= 1/4` and non-negative cells, every cell is still non-negative after an update |
| Grids.UpdatedUniform | mold_simulator/trailmap.py:31-39 | an update of a uniform grid of value `v` is the uniform grid of value `v * decay` |
| Grids.DiffusedUniform | mold_simulator/trailmap.py:35-39 | diffusion leaves a uniform grid as it is |
| Grids.UpdatedIdentity | mold_simulator/trailmap.py:31-39 | with decay 1 and rate 0 an update changes nothing |
| Grids.Deposited | mold_simulator/trailmap.py:52 | `grid[i, j] += a` grows cell `(i, j)` by `a` and leaves every other cell unchanged |
| Grids.DepositsCommute | mold_simulator/trailmap.py:52 | two deposits commute, whatever cells they hit |
| Grids.DepositsMerge | mold_simulator/trailmap.py:52 | depositing `a` then `b` in one cell equals depositing `a + b` there |
| Grids.TotalDeposited | mold_simulator/trailmap.py:52 | a deposit adds exactly its amount to the grid total |
| Grids.DepositedNonNegative | mold_simulator/trailmap.py:52 | a non-negative deposit keeps a non-negative grid non-negative |
| Grids.WrapIsMod | mold_simulator/trailmap.py:50-51 | wrapping by whole turns of `n` is Python's `t % n` for positive `n` |
| Grids.WrapIndex | mold_simulator/trailmap.py:50-51 | `int(v) % n` is always in `[0, n)` and is `int(v)` itself when that is in range |
| Grids.WrapIndexNearZero | mold_simulator/trailmap.py:50-51 | truncation comes before wrapping, so any coordinate in `(-1, 1)` lands in cell 0 |
| Grids.ClampIndex | mold_simulator/trailmap.py:62-63 | `int(np.clip(v, 0, n - 1))` is always in `[0, n)` |
| Grids.ClampIndexCases | mold_simulator/trailmap.py:62-63 | below the grid the index is 0, above it `n - 1`, in between the whole part: clamping, not wrapping |
| TrailMaps.TrailMap.constructor | mold_simulator/trailmap.py:10-24 | the grid is `height x width` with every cell 0.1; the dimensions and both rates are stored as given |
| TrailMaps.TrailMap.Update | mold_simulator/trailmap.py:26-39 | the array afterwards holds `Updated` of the array before: decay in place, then the stencil of the decayed array added |
| TrailMaps.ScaleInPlace | mold_simulator/trailmap.py:32 | `grid *= decay` scales every cell of the array in place |
| TrailMaps.LaplacianOf | mold_simulator/trailmap.py:35-39 | builds the rolled stencil into a fresh array, reading the input array only |
| TrailMaps.AddScaledInPlace | mold_simulator/trailmap.py:35 | `grid += rate * lap` adds the scaled stencil array cell by cell |
| TrailMaps.TrailMap.Deposit | mold_simulator/trailmap.py:41-52 | `amount` is added to cell `(int(y) % height, int(x) % width)` and no other cell changes |
| TrailMaps.TrailMap.GetConcentration | mold_simulator/trailmap.py:54-64 | returns the cell at the clamped indices for any coordinates; a function of the grid only, so it changes nothing |
| Agents.SensorCell | mold_simulator/particle.py:42-45 | the sensed cell lies in `[0, height - 1] x [0, width - 1]` whatever the position, heading and sensor distance |
| Agents.SenseIsConcentration | mold_simulator/particle.py:42-46 | on the map's own grid, sensing reads what `get_concentration` reads at the sensor point |
| Agents.SteerRule | mold_simulator/particle.py:61-68 | the four steering cases in priority order: forward strictly strongest keeps the heading; else left > right turns by `-turn`; else right > left by `+turn`; else by the sample |
| Agents.SteerUsesJitterOnlyOnTie | mold_simulator/particle.py:61-68 | two samples steer differently if and only if the readings tie and the samples differ |
| Agents.SteerMirror | mold_simulator/particle.py:61-68 | swapping the left and right readings, and negating the sample, negates the turn |
| Agents.SteerBounded | mold_simulator/particle.py:61-68 | with a sample drawn in `uniform(-turn, turn)`'s range, one steering changes the heading by at most `abs(turn)` |
| Agents.Moved | mold_simulator/particle.py:70-72 | after the move `0 <= x < width` and `0 <= y < height`, the heading is the steered one, and no parameter changes |
| Agents.MoveInsideIsUnwrapped | mold_simulator/particle.py:71-72 | a move that stays inside an axis is not wrapped on that axis |
| Agents.AgentUpdated | mold_simulator/particle.py:48-72 | `update` gives a position on the torus with the steered heading and leaves speed, sensor distance, sensor angle and turn angle unchanged |
| Agents.DepositedByEffect | mold_simulator/particle.py:81-83 | a particle's deposit adds exactly 5.0 to cell `(int(y) % rows, int(x) % cols)`, leaves every other cell, and adds 5.0 to the total |
| Particles.Particle.constructor | mold_simulator/particle.py:11-30 | the particle holds the given position, heading, speed and sensor parameters, with defaults 5, `pi / 4` and 0.3 |
| Particles.Particle.Sense | mold_simulator/particle.py:32-46 | reads the trail at the clamped sensor cell; a function of the particle and the grid only |
| Particles.Particle.Update | mold_simulator/particle.py:48-72 | the new state is `AgentUpdated` of the old one on the grid as it is; the grid is not modified |
| Particles.Particle.Deposit | mold_simulator/particle.py:74-83 | the grid afterwards is the old grid with 5.0 more in the wrapped cell under the particle |
| Metrics.Positions | mold_simulator/metric_tracker.py:42 | one `(x, y)` per particle, in list order |
| Metrics.SumFlatten | mold_simulator/metric_tracker.py:37 | `np.sum` over the flattened grid is the grid total |
| Metrics.NormalisedIsDistribution | mold_simulator/metric_tracker.py:37 | dividing a non-negative sequence by its positive sum gives entries in `[0, 1]` that sum to 1 |
| Metrics.SumPositive | mold_simulator/metric_tracker.py:38 | `prob[prob > 0]` of a non-negative sequence keeps its sum |
| Metrics.EntropyInputIsDistribution | mold_simulator/metric_tracker.py:36-38 | for a non-negative grid with a positive total, the kept probabilities are in `(0, 1]` and sum to 1 |
| Metrics.AsWrittenFailsOnlyOnEmptySwarm | mold_simulator/metric_tracker.py:48-50 | the displacement as written fails exactly for an empty swarm and otherwise equals the corrected mean |
| Metrics.EmptySwarmRaises | mold_simulator/metric_tracker.py:42-50 | with no particles the source's norm raises, and the corrected mean is 0 |
| Metrics.UniformShift | mold_simulator/metric_tracker.py:48-50 | if every particle moved by the same vector, the mean displacement is that vector's norm |
| Metrics.Started | mold_simulator/metric_tracker.py:20-23 | `start_new_trial` empties both logs and clears the baseline; the archived trials are untouched |
| Metrics.Displaced | mold_simulator/metric_tracker.py:41-50 | without a baseline the result is 0; either way the baseline becomes the current positions |
| Metrics.Logged | mold_simulator/metric_tracker.py:25-30 | `log_metrics` appends exactly one entropy and one displacement and keeps the archives |
| Metrics.Finalized | mold_simulator/metric_tracker.py:32-34 | `finalize_trial` appends a copy of each log to its archive; the logs and the baseline stay |
| Metrics.BalancedPreserved | mold_simulator/metric_tracker.py:20-34 | starting, logging and finalising keep the two logs, and the two archives trial by trial, of equal length |
| Metrics.TrialLogs | mold_simulator/metric_tracker.py:20-50 | after a fresh start and `n` logs: `n` entries each; entry `k` is the entropy of grid `k`; the first displacement is 0; every later one is measured from the previous call's positions |
| Metrics.MeanAcross | mold_simulator/metric_tracker.py:65-71 | the elementwise mean over trials has one entry per step; no trials or ragged trials are errors |
| Metrics.MeanOfIdenticalTrials | mold_simulator/metric_tracker.py:65-69 | when every archived trial holds the same sequence, the elementwise mean is that sequence |
| Metrics.AggregateStats | mold_simulator/metric_tracker.py:61-73 | the two means exist exactly when both archives average, and are then the two elementwise means; otherwise the error of the first archive that fails |
| Metrics.MetricTracker.constructor | mold_simulator/metric_tracker.py:13-18 | empty archives, empty logs, no baseline |
| Metrics.MetricTracker.StartNewTrial | mold_simulator/metric_tracker.py:20-23 | the new state is `Started` of the old one |
| Metrics.MetricTracker.ComputeAvgDisplacement | mold_simulator/metric_tracker.py:41-50 | returns `Displaced`'s value and leaves `Displaced`'s state |
| Metrics.MetricTracker.LogMetrics | mold_simulator/metric_tracker.py:25-30 | the new state is `Logged` of the old one for the particles' positions and the map's grid |
| Metrics.MetricTracker.FinalizeTrial | mold_simulator/metric_tracker.py:32-34 | the new state is `Finalized` of the old one |
| Metrics.MetricTracker.GetAggregateStats | mold_simulator/metric_tracker.py:61-73 | succeeds exactly when both archives average, with the two elementwise means as its value; otherwise the error of the first archive that fails |
| Worlds.DepositsTotal | mold_simulator/simulator.py:42-44 | the deposits of `n` particles add exactly `5.0 * n` to the grid total and keep a non-negative grid non-negative |
| Worlds.MovesInterleaved | mold_simulator/simulator.py:42-44 | `Moves` is an interleaved order: particle `k` senses the start grid plus the deposits of particles `0 .. k - 1`, already moved |
| Worlds.InterleavedUnique | mold_simulator/simulator.py:42-44 | any sequence of turns with that interleaving is `Moves`: the order determines the result |
| Worlds.StepWith | mold_simulator/simulator.py:42-48 | after the turns: the moved particles, the field decayed and diffused once after all deposits, the log if a tracker is present |
| Worlds.Stepped | mold_simulator/simulator.py:35-48 | a step keeps the particle count, the field's shape and rates, the frames, and whether there is a tracker |
| Worlds.StepTotal | mold_simulator/simulator.py:42-45 | over one step with `n` particles the grid total goes from `T` to `decay * (T + 5.0 * n)` |
| Worlds.StepNonNegative | mold_simulator/simulator.py:42-45 | with `decay >= 0` and `0 <= rate <= 1/4` a step keeps every cell non-negative |
| Worlds.StepLogsOnce | mold_simulator/simulator.py:47-48 | with a tracker, a step appends exactly one entropy, of the updated field, and one displacement; the archives stay |
| Worlds.StepWithoutParticles | mold_simulator/simulator.py:42-48 | with no particles, a step is exactly one field update plus one log of the empty swarm |
| Worlds.Rendered | mold_simulator/simulator.py:72-77 | `render_frame` appends one frame, the log-scaled current field, and changes nothing else |
| Worlds.Ran | mold_simulator/simulator.py:59-67 | a run keeps the particle count, the field's shape and rates, and whether there is a tracker |
| Worlds.RanLast | mold_simulator/simulator.py:59-67 | the last round of a run is one step followed by one render |
| Worlds.RunFrameCount | mold_simulator/simulator.py:59-67 | a run of `n` steps keeps the frames it had and adds exactly `n` |
| Worlds.RunFrameAt | mold_simulator/simulator.py:59-77 | frame `k` of a run is the log-scaled field right after step `k` |
| Worlds.RunLogCount | mold_simulator/simulator.py:59-67 | with a tracker, a run of `n` steps adds exactly `n` entries to each log |
| Worlds.RunWithoutParticlesFromUniform | mold_simulator/simulator.py:42-67 | without particles, a uniform field of value `v` is after `n` steps the uniform field `v * decay^n` |
| Simulators.SteppedInStages | mold_simulator/simulator.py:42-48 | a step is the particle loop, then the field update, then the log, in that order |
| Simulators.Simulator.constructor | mold_simulator/simulator.py:19-33 | the simulator keeps the given particles, map and tracker, copies the map's width and height, and has no frames; it is valid exactly when the map is non-empty, the particles are distinct and a tracker's baseline fits the swarm, and it starts from the world of those parts |
| Simulators.Simulator.MoveParticles | mold_simulator/simulator.py:42-44 | the particles become `Moves` of their old states on the old grid, the grid carries their deposits, and the tracker is untouched |
| Simulators.Simulator.MoveSwarm | mold_simulator/simulator.py:42-44 | the whole state after the particle loop is `AfterMoves` of the state before |
| Simulators.Simulator.Diffuse | mold_simulator/simulator.py:45 | one field update; particles, tracker and frames untouched |
| Simulators.Simulator.LogStep | mold_simulator/simulator.py:47-48 | a present tracker logs once; particles and field are only read |
| Simulators.Simulator.Step | mold_simulator/simulator.py:35-48 | the state after `step` is `Stepped` of the state before: the interleaved particle loop, one update, at most one log |
| Simulators.Simulator.RenderFrame | mold_simulator/simulator.py:72-77 | one more frame, the log-scaled grid; nothing else changes |
| Simulators.Simulator.Round | mold_simulator/simulator.py:66-67 | one loop pass of `run`: a step and then a render |
| Simulators.Simulator.Run | mold_simulator/simulator.py:50-67 | the state after `run(n_frames)` is `Ran` over `max(n_frames, 0)` rounds of step-then-render |
| Simulators.MoveAll | mold_simulator/simulator.py:42-44 | the loop over the particle list, in place: the states become `Moves` of the old states, the array holds their deposits |
| Simulators.TakeTurn | mold_simulator/simulator.py:43-44 | `update` then `deposit` of particle `i`: only its state changes, and the array gets its deposit at its new position |

## Left out

- Floating point: cells, positions and angles are exact reals. float32 rounding of the grid and the float `%` edge case (a tiny negative coordinate modulo `width` rounding up to `width`) are not modelled.
- `cos`, `sin`, `log1p`, `log` and `sqrt` are the arbitrary functions of `Numeric.Math`. The entropy value, the norm of a displacement and the pixels of a frame are stated only up to those functions.
- `np.random.uniform` is not modelled. Its samples are the `jitter` and `jitterss` arguments. `Simulators.Simulator.Run` takes one sample per particle per step, and jitters outside the uniform range are not excluded.
- `Agents.QuarterPi`: the default sensor angle is the double `np.pi / 4` evaluates to, written as an exact decimal. It is not π/4.
- The terminal spinner of `Simulator.run` (mold_simulator/simulator.py:57-70) is left out because it is output only.
- `Simulator.save_gif` and the pixel values of `render_frame` (video encoding) are left out. `Simulators.Simulator.RenderFrame` keeps the frame count and states each frame as `log1p` of the grid through `Numeric.Math.ln`.
- Standard deviations in `get_aggregate_stats` (they need `sqrt`) are left out. `Metrics.AggregateStats` keeps the two means only.
- `MetricTracker.save_to_csv` is left out because it is file output.
- `simulate.py` (trial orchestration, random initialisation, file and plot output) is not part of this model.
- `main.py` (command-line entry point) is not part of this model.
- `mold_simulator/graph_factory.py` (plotting) is not part of this model.
- `Metrics.MeanAcross`, `Metrics.AggregateStats` and `Metrics.MetricTracker.GetAggregateStats`: no trials is `Failure(NoTrials)` where NumPy returns `nan` with a warning. Trials of unequal lengths are `Failure(RaggedTrials)` where NumPy builds an object array or raises.
- `Metrics.Entropy`, and so `Metrics.Logged` and `Metrics.MetricTracker.LogMetrics`: a grid that sums to zero has entropy 0.
  - For an all-zero grid the source returns `-0.0`, equal as a number.
  - For a zero-sum grid with negative cells the source divides by zero and returns an infinity or `nan`. No run whose decay is non-negative and whose rate is in `[0, 1/4]` reaches such a grid.
- `Metrics.MetricTracker.ComputeAvgDisplacement`, `Metrics.MetricTracker.LogMetrics`, `Metrics.Displaced`, `Metrics.Logged` and the tracker clause of `Simulators.Simulator.Valid` require the baseline, if any, to hold one position per particle. With mismatched lengths NumPy broadcasts or raises. The simulator never changes its particle list, and `simulate.py` calls `start_new_trial` before building each simulator, so every call meets this.
- `Simulators.Simulator.Step` requires the particles to be distinct objects. The source allows the same particle object twice in the list, and then it moves twice.
- `Simulators.Simulator.Step` requires a trail map at least one cell wide and one high.
  - With particles and an empty map, the source raises an `IndexError` in `sense`: `np.clip(..., 0, -1)` gives index -1 into an empty array (mold_simulator/particle.py:44-46).
  - With no particles, `step` on an empty map does not raise in the source, since `np.roll` and the entropy accept an empty array. The model excludes that run.
- `TrailMaps.TrailMap.Deposit` requires a non-empty map, because the source's `%` by zero raises on an empty one.
- `Particles.Particle.Deposit` requires a non-empty array, because the source's `%` by zero at mold_simulator/particle.py:81-82 raises a `ZeroDivisionError` on an empty one.
- `TrailMaps.TrailMap.GetConcentration` requires a non-empty map, because the source reads outside an empty one.
- `TrailMaps.TrailMap.constructor` requires non-negative dimensions. NumPy raises for negative ones.
- `Particles.Particle.Update` requires the `width` and `height` it is given to fit inside the array. The source would index out of range or wrap to a negative index.
- `Particles.Particle.Sense` has the same requirement as `Update`.
- `Metrics.Displaced`, `Metrics.MetricTracker.ComputeAvgDisplacement`, `Metrics.MetricTracker.LogMetrics` and `Simulators.Simulator.Step` use the corrected mean displacement, which is 0 for an empty swarm. The source raises an axis error there on every log after the first of a trial (mold_simulator/metric_tracker.py:48); the Findings row gives both halves.
- `Worlds.ParticleTurn` leaves a particle as it is on a grid smaller than the simulator's bounds. This only makes the turn total; no step reaches that case.
- `Numeric.RealMod` and `Grids.Wrap` are defined by whole turns of the modulus. `Numeric.RealModIsRemainder` and `Grids.WrapIsMod` prove them equal to Python's `%`.

## Findings

| source | as written | input that shows it | evidently intended | confidence | as-written member | corrected member |
|---|---|---|---|---|---|---|
| mold_simulator/metric_tracker.py:42-50 | with no particles `np.array([])` is one-dimensional, so `np.linalg.norm(..., axis=1)` raises an axis error on every log after the first of a trial | a simulator with an empty particle list and a tracker, stepped twice | the mean displacement of an empty swarm is 0, as the first log of a trial returns, so that a step without particles is one field update plus one log | not executed; high | Metrics.MeanDisplacementAsWritten (shown by Metrics.EmptySwarmRaises) | Metrics.MeanDisplacement (Metrics.AsWrittenFailsOnlyOnEmptySwarm, Worlds.StepWithoutParticles) |
