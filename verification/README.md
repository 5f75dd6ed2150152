# Pendulum-on-cart lab toolkit: a Dafny model of its core

This project models the computational core of a control-engineering lab toolkit built around
one experiment: a pendulum hanging from a cable on a moving cart. The core has three parts.

- The **state-derivative function** of the nonlinear pendulum-on-cart system.
  - States: cable-length rate L, cart velocity X, cable length l, angular rate phi, angle varphi, cart position x.
  - Inputs: two commands. Outputs: cart position, cable length, scaled angle in degrees.
  - There are two copies: the current one in `systems/single_pendulum_nonlinear.py` and an older one inside `experiments/simulate_system.py`.
- The **objective function** of the parameter fit (`experiments/parameter_optimization.py`).
  - It simulates every recorded episode with a candidate parameter vector.
  - It returns the weighted mean absolute error between the simulated and measured outputs, or a fixed penalty of 1000 when a simulation fails.
- Two **small helpers**: the `smooth_step` ramp and the `add_prefix` template filter.

Everything is pure and sequential. Floats are modelled as `real`.

Modules, one per source file plus shared pieces:

| module | file | what it holds |
|---|---|---|
| `Wrappers` | wrappers.dfy | `Option` and a failure-compatible `Result` |
| `Units` | units.dfy | degrees/radians conversion with pi as the double's decimal value |
| `Parameters` | parameters.dfy | the parameter record and the `params.get(key, default)` merge |
| `Dynamics` | dynamics.dfy | safety clamp, the three shared denominators, the numerators term by term, the vector field |
| `SinglePendulum` | single_pendulum.dfy | `system` and `output` of `single_pendulum_nonlinear.py` |
| `SimulateSystem` | simulate_system.dfy | `smooth_step` and the older `system`/`output` copy |
| `Objective` | objective.dfy | `objective_function`: masking, initial state, parameter mapping, penalty, error sum, records |
| `Utils` | utils.dfy | `add_prefix` |

How the model represents what it cannot compute:

- **Trigonometry.** `sin(varphi)` and `cos(varphi)` are two reals `s` and `c`. The vector field evaluates the denominators exactly as written. Only the lemmas that need it assume `s*s + c*c == 1`.
- **Division by zero.** Where a shared denominator is zero, the vector field returns `None`. The source then produces a non-finite value instead.
- **The solver.** `ct.input_output_response` is a function parameter. It receives the call's arguments: the time grid, the input rows, the initial state and the parameter dict. It returns the output rows, `RuntimeError`, or another exception.
- **Uncaught exceptions.** Exceptions that `objective_function` does not catch become `Failure` results of an `Error` datatype. These are a missing key, a short list, a numpy shape mismatch, or a solver exception other than `RuntimeError`.
- **Sums over one denominator.** The source writes each acceleration as `term/D + term/D + ...`. The model sums the numerator terms and divides once. In exact arithmetic the two forms are equal.
- **The episode loop.** The model computes each episode's outcome: an exception, a failed simulation, or a contribution. The loop then reads the outcomes in order and stops at the first one that does not complete. No step has side effects, so the result matches the source's early `return`.

Two details of the code shape the model:

- The older system copy lacks exactly the `g * l_0` gravity terms of the current one. One numerator definition with a `restGravity` switch serves both copies.
- Building the initial state assigns component 2 to itself, `initial_conditions[2] = initial_conditions[2]`. That statement is modelled as what it does: it raises `IndexError` when there are fewer than three state keys, and otherwise changes nothing.

## Model

| member | source | states |
|---|---|---|
| Units.Degrees | labor_regelungstechnik/systems/single_pendulum_nonlinear.py:373 | `np.degrees` keeps the sign of the angle and maps 0 to 0 |
| Units.Radians | labor_regelungstechnik/experiments/parameter_optimization.py:81 | `np.radians` keeps the sign of the angle and maps 0 to 0 |
| Units.DegreesRadiansRoundTrip | labor_regelungstechnik/experiments/parameter_optimization.py:81 | degrees and radians are inverse conversions, in both orders |
| Parameters.Resolve | labor_regelungstechnik/systems/single_pendulum_nonlinear.py:8-19 | each parameter read by name is the caller's value when the dict has it, the default otherwise |
| Parameters.ToOverrides | labor_regelungstechnik/systems/single_pendulum_nonlinear.py:8-19 | the dict that names all eleven parameters, each with its value |
| Parameters.Lookup | labor_regelungstechnik/systems/single_pendulum_nonlinear.py:8-19 | `params.get(key, default)`: the caller's value when the dict has the key, the default otherwise |
| Parameters.ResolveNoOverrides | labor_regelungstechnik/systems/single_pendulum_nonlinear.py:8-19 | an empty dict yields the defaults unchanged |
| Parameters.ResolveFullOverrides | labor_regelungstechnik/systems/single_pendulum_nonlinear.py:8-19 | a dict naming every parameter fixes the result whatever the defaults |
| Parameters.ResolveOneOverride | labor_regelungstechnik/systems/single_pendulum_nonlinear.py:8-19 | overriding one key changes that parameter and no other |
| Dynamics.Unpack | labor_regelungstechnik/systems/single_pendulum_nonlinear.py:22-27 | the state list is read in the order L, X, l, phi, varphi, x |
| Dynamics.Clamp | labor_regelungstechnik/systems/single_pendulum_nonlinear.py:32-36 | a command passes unchanged when the position is within [lo, hi], bounds included, and is 0 outside |
| Dynamics.EffectiveCommands | labor_regelungstechnik/systems/single_pendulum_nonlinear.py:29-36 | v_x = k_vx*u[0] and v_l = k_vl*u[1] while x and l are inside their limits; each is 0 when its axis is outside |
| Dynamics.CommandsDependOnPositionsOnly | labor_regelungstechnik/systems/single_pendulum_nonlinear.py:32-36 | the clamp depends only on the positions x and l, never on rates or angle |
| Dynamics.DenL | labor_regelungstechnik/systems/single_pendulum_nonlinear.py:41-43 | the denominator shared by every term of d_L, term for term as written, with sin(varphi) and cos(varphi) as s and c |
| Dynamics.DenX | labor_regelungstechnik/systems/single_pendulum_nonlinear.py:161-163 | the denominator shared by every term of d_X, term for term as written |
| Dynamics.DenPhi | labor_regelungstechnik/systems/single_pendulum_nonlinear.py:195-201 | the denominator shared by every term of d_phi, term for term as written |
| Dynamics.NumL | labor_regelungstechnik/systems/single_pendulum_nonlinear.py:41-160 | the numerators of the 31 terms of d_L in source order; 30 without the g*l_0 term |
| Dynamics.NumX | labor_regelungstechnik/systems/single_pendulum_nonlinear.py:161-193 | the numerators of the 11 terms of d_X in source order; 10 without the g*l_0 term |
| Dynamics.NumPhi | labor_regelungstechnik/systems/single_pendulum_nonlinear.py:195-344 | the numerators of the 25 terms of d_phi in source order; 22 without the g*l_0 terms |
| Dynamics.Assemble | labor_regelungstechnik/systems/single_pendulum_nonlinear.py:41-348 | the derivative exists exactly when no denominator is 0; each of d_L, d_X, d_phi times its denominator gives back its numerator; d_l = L, d_varphi = phi, d_x = X |
| Dynamics.VectorField | labor_regelungstechnik/systems/single_pendulum_nonlinear.py:41-348 | defined exactly when the three denominators of the equations are nonzero; 6 components, with d_l = L, d_varphi = phi, d_x = X |
| Dynamics.Accelerations | labor_regelungstechnik/systems/single_pendulum_nonlinear.py:41-344 | where defined, d_L = NumL/DenL, d_X = NumX/DenX and d_phi = NumPhi/DenPhi |
| Dynamics.DenLClosedForm | labor_regelungstechnik/systems/single_pendulum_nonlinear.py:41-43 | on the unit circle the d_L denominator is -(l+l_0)*m_y*(m_x+m_y) |
| Dynamics.DenXClosedForm | labor_regelungstechnik/systems/single_pendulum_nonlinear.py:161-163 | on the unit circle the d_X denominator is -(l+l_0)*(m_x+m_y) |
| Dynamics.DenPhiClosedForm | labor_regelungstechnik/systems/single_pendulum_nonlinear.py:195-201 | on the unit circle the d_phi denominator is -(l+l_0)^2*m_y*(m_x+m_y) |
| Dynamics.DivisibleIff | labor_regelungstechnik/systems/single_pendulum_nonlinear.py:41-201 | on the unit circle all three denominators are nonzero iff l+l_0, m_y and m_x+m_y are nonzero |
| Dynamics.NumeratorsVanishAtRest | labor_regelungstechnik/systems/single_pendulum_nonlinear.py:41-344 | with L = X = phi = 0, no command and sin(varphi) = 0, all three numerators are 0 |
| Dynamics.FieldZeroAtRest | labor_regelungstechnik/systems/single_pendulum_nonlinear.py:41-348 | at that rest point, with nonzero denominators, the derivative is the zero vector |
| Dynamics.RestGravityVanishesWithoutRestLength | labor_regelungstechnik/experiments/simulate_system.py:72-374 | with l_0 = 0 the older equations, which lack the g*l_0 terms, equal the current ones |
| SinglePendulum.SystemParams | labor_regelungstechnik/systems/single_pendulum_nonlinear.py:8-19 | the gains default to k_vx = 3.6 and k_vl = -1.65 unless overridden; an empty dict gives all defaults |
| SinglePendulum.ClampedCommands | labor_regelungstechnik/systems/single_pendulum_nonlinear.py:29-36 | v_x passes on 0 <= x <= 2.5 and is 0 outside; v_l passes on 0 <= l <= 1.3 and is 0 outside |
| SinglePendulum.System | labor_regelungstechnik/systems/single_pendulum_nonlinear.py:6-348 | defined exactly when the resolved parameters give nonzero denominators; 6 components with d_l = L, d_varphi = phi, d_x = X |
| SinglePendulum.SystemAccelerations | labor_regelungstechnik/systems/single_pendulum_nonlinear.py:6-348 | where `system` is defined, d_L, d_X and d_phi are the numerators with the g*l_0 terms over their denominators, under the resolved parameters and clamped commands |
| SinglePendulum.SystemDefinedIff | labor_regelungstechnik/systems/single_pendulum_nonlinear.py:41-201 | on the unit circle `system` is defined iff l+l_0, m_y and m_x+m_y are nonzero |
| SinglePendulum.DefaultsDefined | labor_regelungstechnik/systems/single_pendulum_nonlinear.py:8-201 | with the default parameters `system` is defined for every cable length above -0.23 |
| SinglePendulum.SystemEquilibrium | labor_regelungstechnik/systems/single_pendulum_nonlinear.py:41-348 | at rest, hanging straight, with zero effective commands, the derivative is the zero vector |
| SinglePendulum.ZeroInputsZeroCommands | labor_regelungstechnik/systems/single_pendulum_nonlinear.py:29-36 | zero raw inputs give zero effective commands at every position |
| SinglePendulum.SystemTimeInvariant | labor_regelungstechnik/systems/single_pendulum_nonlinear.py:6-348 | the derivative does not depend on t |
| SinglePendulum.Output | labor_regelungstechnik/systems/single_pendulum_nonlinear.py:351-373 | three outputs: x, l, and k_phi times varphi in degrees, with k_phi defaulting to 0.5 |
| SinglePendulum.OutputReadsPositionsOnly | labor_regelungstechnik/systems/single_pendulum_nonlinear.py:351-373 | `output` ignores t, L, X, phi and the inputs |
| SinglePendulum.OutputAngleRecoversState | labor_regelungstechnik/systems/single_pendulum_nonlinear.py:363-373 | dividing by k_phi and converting to radians recovers varphi |
| SimulateSystem.Ramp | labor_regelungstechnik/experiments/simulate_system.py:27-29 | the ramp starts at the initial level, ends at the final level and stays between them, strictly inside the open interval |
| SimulateSystem.RatioBounds | labor_regelungstechnik/experiments/simulate_system.py:28 | the elapsed fraction is 0 at t_start, 1 at t_stop and within [0, 1] in between |
| SimulateSystem.SmoothStep | labor_regelungstechnik/experiments/simulate_system.py:19-32 | initial value before t_start; final value after t_stop; strictly between the levels inside; None exactly at a breakpoint of a non-inverted interval |
| SimulateSystem.SmoothStepMonotone | labor_regelungstechnik/experiments/simulate_system.py:27-29 | a rising step rises monotonically inside the ramp |
| SimulateSystem.SmoothStepBreakpointsUndefined | labor_regelungstechnik/experiments/simulate_system.py:19-32 | with the default arguments, t = 0 and t = 1 both give None |
| SimulateSystem.SmoothStepInclusive | labor_regelungstechnik/experiments/simulate_system.py:19-32 | corrected step: a value for every t, equal to the ramp on the closed interval, always between the two levels |
| SimulateSystem.SmoothStepInclusiveAtBreakpoints | labor_regelungstechnik/experiments/simulate_system.py:19-32 | the corrected step is the initial level at t_start and the final level at t_stop |
| SimulateSystem.SmoothStepInclusiveAgrees | labor_regelungstechnik/experiments/simulate_system.py:19-32 | wherever `smooth_step` returns a value, the corrected step returns the same value |
| SimulateSystem.VariantParams | labor_regelungstechnik/experiments/simulate_system.py:42-52 | the older copy's gains default to k_vx = 4 and k_vl = 2 |
| SimulateSystem.VariantCommands | labor_regelungstechnik/experiments/simulate_system.py:62-69 | v_x passes on 0 <= x <= 2.6 and is 0 outside; v_l passes on 0.1 <= l <= 1.2 and is 0 outside |
| SimulateSystem.VariantSystem | labor_regelungstechnik/experiments/simulate_system.py:40-376 | defined exactly when the denominators are nonzero; 6 components with d_l = L, d_varphi = phi, d_x = X |
| SimulateSystem.VariantAccelerations | labor_regelungstechnik/experiments/simulate_system.py:40-376 | where the older `system` is defined, d_L, d_X and d_phi are the numerators without the g*l_0 terms over their denominators, under its own parameters and clamp |
| SimulateSystem.VariantDefinedIff | labor_regelungstechnik/experiments/simulate_system.py:72-372 | on the unit circle the older copy is defined iff l+l_0, m_y and m_x+m_y are nonzero |
| SimulateSystem.VariantEquilibrium | labor_regelungstechnik/experiments/simulate_system.py:72-376 | at rest, hanging straight, with zero effective commands, the older derivative is the zero vector |
| SimulateSystem.VariantOutput | labor_regelungstechnik/experiments/simulate_system.py:378-398 | three outputs: x, l, and the angle in degrees unscaled, so converting back recovers varphi |
| Utils.PrefixEach | labor_regelungstechnik/utils.py:31-32 | same length as the input list; element i is prefix + inp[i] |
| Utils.AddPrefix | labor_regelungstechnik/utils.py:27-32 | a string gives prefix + inp; a list gives a list of the same length with prefix + inp[i] at position i |
| Utils.StripPrefix | labor_regelungstechnik/utils.py:27-32 | removing the prefix keeps the shape: a string stays a string, a list keeps its length |
| Utils.AddPrefixStartsWith | labor_regelungstechnik/utils.py:32 | every string of the result starts with the prefix |
| Utils.StripAddPrefix | labor_regelungstechnik/utils.py:27-32 | removing the prefix again recovers the argument |
| Utils.AddPrefixTwice | labor_regelungstechnik/utils.py:27-32 | prefixing with p and then q equals prefixing once with q + p |
| Utils.AddPrefixEmptyList | labor_regelungstechnik/utils.py:32 | an empty list maps to an empty list |
| Objective.Mask | labor_regelungstechnik/experiments/parameter_optimization.py:61-69 | length min(\|ts\|, \|values\|); sample i is 0 when ts[i] < delay and values[i] otherwise |
| Objective.MaskAfterDelayIsIdentity | labor_regelungstechnik/experiments/parameter_optimization.py:63-67 | a channel whose timestamps are all at or after the delay is unchanged |
| Objective.BuildInputs | labor_regelungstechnik/experiments/parameter_optimization.py:59-69 | fails with KeyError exactly when a zipped key is missing; otherwise one masked channel per (key, delay) pair |
| Objective.RawInitialState | labor_regelungstechnik/experiments/parameter_optimization.py:71-78 | one entry per state key: 0 for None, sample 3 of the named channel; fails exactly when a key is missing or its channel has under 4 samples |
| Objective.InitialState | labor_regelungstechnik/experiments/parameter_optimization.py:71-81 | needs at least 5 state keys; component 4 is converted from degrees to radians, every other component is unchanged |
| Objective.ParamMap | labor_regelungstechnik/experiments/parameter_optimization.py:83-91 | None gives an empty dict; a vector gives exactly m_x, m_y, c_varphi from positions 0, 1, 2; a vector shorter than 3 raises |
| Objective.ParamMapResolves | labor_regelungstechnik/experiments/parameter_optimization.py:84-91 | the system then sees m_x, m_y, c_varphi from the vector and every other parameter at its default |
| Objective.ParamMapNoneResolves | labor_regelungstechnik/experiments/parameter_optimization.py:84-85 | without a vector the system sees its defaults |
| Objective.AbsDiff | labor_regelungstechnik/experiments/parameter_optimization.py:109-110 | numpy broadcasting: defined exactly when the lengths match or one side has length 1; equal lengths give |a_i - b_i| entry by entry, and a length-one side is repeated against every entry of the other, so the result has the other side's length; the entries are non-negative, and all 0 when the two lists are equal |
| Objective.Abs | labor_regelungstechnik/experiments/parameter_optimization.py:110 | the absolute value is non-negative and is 0 only for 0 |
| Sums.Sum | labor_regelungstechnik/experiments/parameter_optimization.py:110 | the sum of non-negative samples is non-negative, and the sum of zeros is 0 |
| Objective.Mean | labor_regelungstechnik/experiments/parameter_optimization.py:110 | the mean of non-negative samples is non-negative, and the mean of zeros is 0 |
| Objective.WeightedError | labor_regelungstechnik/experiments/parameter_optimization.py:110 | weight * mean \|measured - simulated\| is non-negative for a non-negative weight and 0 when the two lists are equal |
| Objective.Terms | labor_regelungstechnik/experiments/parameter_optimization.py:108-113 | one share per channel pair of a record: share k is weight k times the mean absolute difference of pair k |
| Objective.RecordErrorCons | labor_regelungstechnik/experiments/parameter_optimization.py:108-110 | the error recomputed from a record is the first channel's share plus the error of the remaining channels |
| Objective.ScoreChannel | labor_regelungstechnik/experiments/parameter_optimization.py:108-110 | one channel's term is defined exactly when the channel exists, broadcasts and is nonempty, and is then weight * mean \|measured - simulated\|; a missing key raises KeyError and a bad shape raises; an empty comparison gives NaN in the source, modelled as EmptyChannel |
| Objective.Compare | labor_regelungstechnik/experiments/parameter_optimization.py:107-113 | over the zip of keys, weights and rows: parallel measured/simulated lists of the zip's length; error >= 0 for non-negative weights; error 0 when every simulated list equals its measured one |
| Objective.CompareError | labor_regelungstechnik/experiments/parameter_optimization.py:107-113 | the error accumulated over the zipped channels equals the error recomputed from the measured and simulated lists it keeps |
| Objective.Prepare | labor_regelungstechnik/experiments/parameter_optimization.py:55-103 | the solver receives the episode's timestamps, the masked inputs, the initial state and the parameter dict; it is reached exactly when each of those steps succeeds, and a missing timestamps channel raises first |
| Objective.EvalEpisode | labor_regelungstechnik/experiments/parameter_optimization.py:52-113 | a failure to set up the call propagates; the pass yields None exactly when the solver raises RuntimeError on that call; any other solver exception fails with that episode's index; a completed episode records its timestamps and parallel measured/simulated lists |
| Objective.EpisodeSolved | labor_regelungstechnik/experiments/parameter_optimization.py:93-113 | when the solver returns rows y, the episode completes exactly when every zipped channel compares; measured k is the episode's channel outputKeys[k], simulated k is y[k], and the error is the one the record gives back |
| Objective.CompletedEpisode | labor_regelungstechnik/experiments/parameter_optimization.py:107-113 | a completed episode's error equals the error recomputed from its record |
| Objective.RunFrom | labor_regelungstechnik/experiments/parameter_optimization.py:49-113 | the loop completes only when every episode completed, with one record per index equal to that episode's record; the total is >= 0 when every contribution is, and 0 when every record matches and each matching episode contributes 0 |
| Objective.RunCompletesIff | labor_regelungstechnik/experiments/parameter_optimization.py:52-113 | the loop completes exactly when every episode from the start index on completes |
| Objective.RunTotal | labor_regelungstechnik/experiments/parameter_optimization.py:51-110 | a completed loop's total is the sum of the episode errors in order |
| Objective.ObjectiveFunction | labor_regelungstechnik/experiments/parameter_optimization.py:40-119 | records come back only when requested, keyed by exactly the episode indices; with non-negative weights the score is >= 0 |
| Objective.ScoreWhenAllComplete | labor_regelungstechnik/experiments/parameter_optimization.py:49-119 | when every episode completes, the result is the sum of the episode errors, with the records exactly when they were requested |
| Objective.ReturnedRecords | labor_regelungstechnik/experiments/parameter_optimization.py:49-116 | returned record j is the record episode j's evaluation produced, with that episode's timestamps and parallel measured/simulated lists |
| Objective.ErrorsFromRecords | labor_regelungstechnik/experiments/parameter_optimization.py:110-116 | summing completed episodes' errors and summing the errors recomputed from their records agree |
| Objective.ScoreFromRecords | labor_regelungstechnik/experiments/parameter_optimization.py:107-116 | the error returned with the records is the sum of the errors recomputed from the records |
| Objective.DivergedIff | labor_regelungstechnik/experiments/parameter_optimization.py:93-105 | the loop stops at a failed simulation exactly when some episode's simulation fails and every earlier episode completed |
| Objective.PenaltyOnFailedSimulation | labor_regelungstechnik/experiments/parameter_optimization.py:93-105 | when the solver raises RuntimeError on episode k's call and every earlier episode completed, the result is exactly the bare number 1000; earlier error is discarded, even when records were requested |
| Objective.PerfectFitScoresZero | labor_regelungstechnik/experiments/parameter_optimization.py:107-119 | when every simulated list equals its measured list, the score is 0 |
| Objective.NoEpisodesScoreZero | labor_regelungstechnik/experiments/parameter_optimization.py:49-52 | with no episodes the score is 0, or 0 with empty records, whatever the parameter vector |
| Objective.DefaultInputs | labor_regelungstechnik/experiments/parameter_optimization.py:41-69 | by default x_const_mess is masked before 0.3 s and y_const_mess before 0.1 s |
| Objective.DefaultInitialState | labor_regelungstechnik/experiments/parameter_optimization.py:43-81 | by default the initial state is [0, 0, y_out_mess[3], 0, radians(phi_out_mess[3]), x_out_mess[3]] |

## Left out

- ODE integration (`ct.input_output_response`, `NonlinearIOSystem`): a foreign numerical solver. The objective takes it as a function parameter. Which inputs make it raise, such as an input row shorter than the time grid, is up to that parameter.
- Dynamics.VectorField: the contract does not give d_L, d_X and d_phi. Dynamics.Accelerations states them. A contract that multiplies by the numerator polynomials costs the solver too much.
- SinglePendulum.System: the contract does not give d_L, d_X and d_phi. SinglePendulum.SystemAccelerations states them, for the same reason.
- SimulateSystem.VariantSystem: the contract does not give d_L, d_X and d_phi. SimulateSystem.VariantAccelerations states them, for the same reason.
- Objective.Compare: the contract does not give the error's value. Objective.CompareError states it as the sum of the channel terms recomputed from the kept lists.
- Objective.EvalEpisode: the contract does not give the record contents or the error's value. Objective.EpisodeSolved and Objective.CompletedEpisode state them.
- Objective.RunFrom: the contract does not give the total's value or that a loop of completing episodes completes. Objective.RunCompletesIff and Objective.RunTotal state them.
- Objective.ObjectiveFunction: the contract does not give the score's value or the record contents. Objective.ScoreWhenAllComplete, Objective.ReturnedRecords and Objective.ScoreFromRecords state them.
- `sin`, `cos` and the value of pi: trigonometry is given as the reals `s`, `c`. Pi is the double-precision constant. Float rounding, NaN and infinity are not modelled.
- Division by zero in the equations: the source yields non-finite numbers there. The model returns `None`.
- The NaN that `np.mean` returns for an empty comparison is modelled as the `EmptyChannel` failure. A real-valued model cannot carry NaN. The model therefore stops at that episode. The source keeps looping with a NaN total: a later `RuntimeError` gives 1000 in the source and `EmptyChannel` in the model, and without one the source returns NaN. This cannot happen with the default arguments, since every default output channel is also read for the initial state and so has at least four samples.
- Parameter defaults that `output` reads but never uses (m_x, m_y, g, and the rest) are not modelled. Only k_phi affects the result.
- The symbolic derivation and code generation (`variational_modelling.py`): they need a computer-algebra engine.
- LaTeX/Jinja rendering and the `pdflatex` subprocess (`utils.py` lines 17-25 and 40-72), and the template test: template and file I/O.
- `extract_measurements.py`: it reads a binary recording, scrapes signal names and plots them. It holds no segmentation logic.
- Experiment bookkeeping: JSON loading, plotting, the Nelder–Mead `minimize` call (unreachable after `sys.exit(0)`), and the experiment runner.
- The simulation run at the end of `simulate_system.py` (a fixed time grid, step inputs and a plot): a solver call plus plotting.

## Findings

| source | as written | input that shows it | evidently intended | confidence | as-written member | corrected member |
|---|---|---|---|---|---|---|
| labor_regelungstechnik/experiments/simulate_system.py:19-32 | the three branches test t < t_start, t_start < t < t_stop and t > t_stop, so no branch covers t == t_start or t == t_stop and the function returns None | `smooth_step(0)` or `smooth_step(1)` with the default arguments | a step defined for every t, with the breakpoints included in the ramp, continuous at both ends | high (not executed) | SimulateSystem.SmoothStepBreakpointsUndefined | SimulateSystem.SmoothStepInclusive |
