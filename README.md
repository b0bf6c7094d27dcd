# Longitudinal autopilot core, modelled in Dafny

This project models the matrix and loop logic of a small aircraft
autopilot study. The aircraft's longitudinal dynamics are a six-state
linear model. The states are velocity, flight-path angle, angle of attack,
pitch rate, pitch angle and altitude. There is one input, the elevator.
The model covers:

- **Modal extraction.** The phugoid reduction keeps states 0..1 and the
  short-period reduction keeps states 2..3. Each copies a 2 x 2 block of
  `A` and a 2 x 1 block of `B`, and adds two unit observation rows and a
  zero feed-through. A second file also defines a `Phugoid` class, but it
  takes the short-period block.
- **Pitch-rate feedback.** The autopilot drops the velocity state to get a
  five-state plant. It then closes a loop on pitch rate (state 2) with the
  gain `Kr = -0.33057`: `A' = A - Kr * B @ Cq`, `B' = Kr * B`,
  `D' = Kr * D`.
- **Saturation root finder.** The residual is max(step response) minus the
  angle-of-attack limit. The derivative is a forward difference. A Newton
  loop searches for the flight-path-angle command that just reaches the
  limit.

Matrices are `seq<seq<real>>` and arithmetic is exact. numpy slicing is
modelled with Python's clipping rules and returns a copy.

Files and modules:

- `matrices.dfy` (`Matrices`): the numpy operations used by the code, and
  their entry-wise lemmas.
- `test_matrices.dfy` (`TestMatrices`): the literal model from the
  `__main__` blocks.
- `phugoid_model.dfy`, `short_period_model.dfy`, `legacy_phugoid_model.dfy`:
  one module per modal-extraction file.
- `autopilot.dfy` (`Autopilot`): the plant and the pitch-rate loop.
- `root_finding.dfy` (`RootFinding`): the residual, the forward difference
  and the Newton loop. The loop is an imperative `method`, proved against
  the orbit function `Iterate`.

`autopilot.py` closes only the pitch-rate loop; it has no flight-path-angle
or altitude loop. The Newton loop runs while `|x1 - x0| > eps`, so a
distance of exactly `eps` ends it.

## Model

| member | source | states |
|---|---|---|
| `PhugoidModel.NewPhugoid` | src/flight_dynamics/Phugoid.py:6-12 | the two observation rows are the unit rows for state 0 and state 1; the feed-through is the 1 x 1 zero |
| `PhugoidModel.PhugoidBlocks` | src/flight_dynamics/Phugoid.py:7-8 | for any n x n model with n >= 2, `Ap` is 2 x 2 with `Ap[i][j] == A[i][j]` and `Bp` is 2 x 1 with `Bp[i][0] == B[i][0]` |
| `PhugoidModel.PhugoidObservations` | src/flight_dynamics/Phugoid.py:10-11 | `Cpv @ x` is the velocity `x[0]` and `Cpg @ x` is the flight-path angle `x[1]` of any phugoid state column |
| `PhugoidModel.PhugoidOfTestModel` | src/flight_dynamics/Phugoid.py:84-99 | on the literal test model, `Ap = [[-0.034, -0.0237], [0.0461, 0]]` and `Bp = [[0], [0.1785]]` |
| `ShortPeriodModel.NewShortPeriod` | src/flight_dynamics/ShortPeriod.py:8-14 | the observation rows are the unit rows for angle of attack and pitch rate; the feed-through is the 1 x 1 zero |
| `ShortPeriodModel.ShortPeriodBlocks` | src/flight_dynamics/ShortPeriod.py:9-10 | for any n x n model with n >= 4, `As[i][j] == A[i+2][j+2]` (2 x 2) and `Bs[i][0] == B[i+2][0]` (2 x 1) |
| `ShortPeriodModel.ShortPeriodObservations` | src/flight_dynamics/ShortPeriod.py:12-13 | `Csa @ x` is the angle of attack `x[0]` and `Csq @ x` is the pitch rate `x[1]` |
| `ShortPeriodModel.ShortPeriodOfTestModel` | src/flight_dynamics/ShortPeriod.py:104-119 | on the literal test model, `As = [[-1.2484, 1], [-50.2354, -0.6048]]` and `Bs = [[-0.1785], [-31.4385]]` |
| `LegacyPhugoidModel.NewLegacyPhugoid` | src/flight_dynamics/phugoid.py:6-12 | `Csa` and `Csq` are the unit rows for the two retained states; `Ds` is the 1 x 1 zero |
| `LegacyPhugoidModel.LegacyPhugoidBlocks` | src/flight_dynamics/phugoid.py:7-8 | despite the class name, `As[i][j] == A[i+2][j+2]` and `Bs[i][0] == B[i+2][0]` |
| `LegacyPhugoidModel.LegacyIsShortPeriod` | src/flight_dynamics/phugoid.py:7-12 | for every `A` and `B`, all five fields equal those of the short-period reduction |
| `LegacyPhugoidModel.LegacyIsNotPhugoid` | src/flight_dynamics/phugoid.py:7 | on the literal test model its `As` differs from the phugoid block `Ap` |
| `Autopilot.NewAutoPilot` | src/autopilot/autopilot.py:10-13 | the stored `A` has one row fewer and `A'[i][j] == A[i+1][j+1]`; the stored `B` is `B` without row 0; `D` is the 1 x 1 zero |
| `Autopilot.AutoPilotShape` | src/autopilot/autopilot.py:11-12 | for a 6 x 6 `A` and a 6 x 1 `B`, the plant is 5 x 5 / 5 x 1 with entries shifted by one |
| `Autopilot.QRow` | src/autopilot/autopilot.py:16 | `Cq` is the 1 x 5 unit row with its 1 at index 2 |
| `Autopilot.QRowSelectsPitchRate` | src/autopilot/autopilot.py:16 | `Cq @ x` is the pitch rate `x[2]` of any plant state column |
| `Autopilot.CloseLoop` | src/autopilot/autopilot.py:19-21 | for any gain, the closed loop is 5 x 5 / 5 x 1 and its `C` is the same `Cq` used to form `A'` |
| `Autopilot.CloseLoopState` | src/autopilot/autopilot.py:19 | `A'[i][j] == A[i][j] - k * B[i] * Cq[j]` for every entry |
| `Autopilot.CloseLoopEntries` | src/autopilot/autopilot.py:19-21 | only column 2 of `A` changes, to `A[i][2] - k * B[i]`; `B'[i] == k * B[i]`; `D' == k * D` |
| `Autopilot.ComputeQFeedback` | src/autopilot/autopilot.py:15-30 | with the tuned `Kr`, the returned tuple is `(Aq, Bq, Cq, Dq)` with `Aq` changed in column 2 only, `Bq == Kr * B`, `Dq == Kr * D` |
| `Autopilot.ZeroFeedThrough` | src/autopilot/autopilot.py:13-21 | a zero 1 x 1 `D` gives a zero 1 x 1 `Dq` |
| `Autopilot.ZeroGainIsOpenLoop` | src/autopilot/autopilot.py:19 | with gain 0 the closed-loop state matrix is the plant's |
| `Autopilot.QFeedbackOfModel` | src/autopilot/autopilot.py:10-30 | from the six-state model, `Aq[i][j] == A[i+1][j+1]` off column 2, `Aq[i][2] == A[i+1][3] - Kr * B[i+1]`, `Bq[i] == Kr * B[i+1]`, `Dq` zero |
| `RootFinding.MaxUpTo` | src/autopilot/root_finding.py:13 | the result is one of the samples and no sample exceeds it |
| `RootFinding.Residual` | src/autopilot/root_finding.py:13 | defined exactly for a non-empty response; equals some `s[k] - alphaMax` that is >= every `s[i] - alphaMax` |
| `RootFinding.ResidualNonPositive` | src/autopilot/root_finding.py:13 | the residual is <= 0 iff every sample is <= `alphaMax` |
| `RootFinding.Saturation` | src/autopilot/root_finding.py:11-14 | the residual of `gamma` times the unit response: some `gamma * u[k] - alphaMax` that bounds all the others |
| `RootFinding.ScaledMax` | src/autopilot/root_finding.py:12-13 | for `gamma >= 0` the peak of the scaled response is `gamma` times the unit peak |
| `RootFinding.SaturationAffine` | src/autopilot/root_finding.py:11-14 | for `gamma >= 0`, saturation is `gamma * max(u) - alphaMax` |
| `RootFinding.Derivative` | src/autopilot/root_finding.py:16-18 | needs `h != 0`; slope times `h` is `f(x0 + h) - f(x0)` |
| `RootFinding.DerivativeOfLine` | src/autopilot/root_finding.py:17 | the forward difference of a line is its slope, for any non-zero step |
| `RootFinding.Newton` | src/autopilot/root_finding.py:20-29 | starts from `(0, seed)` with count 0; every pair before the returned count still moves by more than `Eps`; the returned root is `x1` of the orbit at that count; `Converged` iff that pair is within `Eps`; `ZeroSlope` only on a zero slope; `OutOfFuel` only at the fuel bound; a seed further than `Eps` from 0 means at least one update before convergence |
| `RootFinding.IterateStep` | src/autopilot/root_finding.py:26-28 | each update moves the old `x1` into `x0` and happens only with a non-zero slope; `f(x0) == (x0 - x1) * df(f, x0, Eps)` |
| `RootFinding.StoppedResidual` | src/autopilot/root_finding.py:25-27 | where the loop stops after at least one update, `abs(f(x0)) <= Eps * abs(df(f, x0, Eps))` |
| `RootFinding.NewtonOnLine` | src/autopilot/root_finding.py:20-29 | on a function that is a line from some point on, the forward-difference loop is at the root after one update, and after the second it is at the root within tolerance |
| `RootFinding.SaturationSearch` | src/autopilot/root_finding.py:11-29 | for a positive unit peak `M`, `alphaMax >= 0` and a seed >= 0, the orbit is `(seed, alphaMax / M)` after one update and `(alphaMax / M, alphaMax / M)` after two, and that command makes the residual exactly 0 |
| `RootFinding.SaturationSlope` | src/autopilot/root_finding.py:16-18 | for every command `x >= 0`, the forward difference of the saturation residual with step `Eps` is the unit peak `M` |
| `RootFinding.SaturationCommand` | src/autopilot/root_finding.py:11-29 | Newton on the saturation residual with the forward difference, from a seed above `Eps` and with two updates allowed, returns `Converged` after one or two updates with root `alphaMax / M`, where the residual is exactly 0 |

## Left out

- The python-control and sisopy31 calls are not modelled: `ss`, `tf`,
  `ss2tf`, `damp`, `dcgain`, `step`, `step_info`, `interp1d`. They are
  foreign numeric libraries for transfer functions, eigenvalues and ODE
  simulation. `compute_q_feedback` does not return eigenvalues, damping,
  frequencies or the transfer function in this model.
- `compute_eigen` in the lower-case `phugoid.py` is left out. It is a
  floating-point eigen-decomposition.
- All `plot` methods, `savefig`, printing and `__str__` are left out. They
  are matplotlib, text formatting and file I/O.
- The step-response simulation in `saturation` is replaced by its samples,
  which are an input. `gamma * SS_sat` scales the system's output, so its
  step response is modelled as `gamma` times the sampled unit response.
  The model relies on that scaling.
- Floating point is not modelled; arithmetic is exact `real`. numpy would
  turn a zero slope into `inf` or `NaN` and continue. The model stops with
  the `ZeroSlope` status instead.
- RootFinding.Newton: the source loop has no iteration cap. The model
  allows at most `fuel` updates and reports `OutOfFuel` when they run out.
  What happens after that many updates is not modelled.
- RootFinding.Newton: the seed `pi / 6` is not rational, so the seed is a
  parameter.
- RootFinding.Derivative: a zero step is excluded by a precondition. With a
  Python-float `f` a zero step raises `ZeroDivisionError`; with the numpy
  residual of `saturation` it returns NaN. The loop always passes `Eps`,
  which is not zero.
- `f` and `df` are parameters of `newton`, as in the source. The model
  does not fix the caller's choice. `NewtonOnLine`, `SearchOnRay`,
  `SaturationSearch` and `SaturationCommand` take `df` to be the forward
  difference.
- `Autopilot.CloseLoop` requires a 5 x 5 plant and a 5 x 1 input. Other
  shapes would make numpy raise or broadcast. Broadcasting is not
  modelled.
- numpy slices are views that share storage with the parent matrix.
  Extraction is modelled as copying, so the parent is left unchanged by
  construction.
- The trim solver, the state-space builder and the flight-path-angle and
  altitude loops described for the system are not modelled.
  `src/aircraft/aircraft.py` is not part of this model, and the two outer
  loops do not appear in `autopilot.py`.
- `main.py` is orchestration only. `report_generator.py`, `ironman.py` and
  `main_style.py` are PDF and plot styling. None of them is modelled.
