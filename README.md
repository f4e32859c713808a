# Transverse feedback damper

A model of the transverse damper of xheadtail (`xheadtail/transverse_damper.py`).
The damper is a collective beam element. On every call to `track`, it kicks
the transverse momenta of a particle bunch. It takes the mean `px` over the
particles that are still alive (`state > 0`). It subtracts `gain * sin(phase)`
times that mean from every alive particle's `px`. When `beta` is non-zero, it
also subtracts `gain * cos(phase) * mean(x) / beta`. It then does the same on
the vertical plane. The damper's parameters are:
- a gain per plane, also set through the damping time `2 / gain`;
- a phase per plane, stored as its sine and cosine;
- a beta per plane.

Layout:
- `wrappers.dfy` (`Wrappers`): `Option`, `Result` and `Outcome`. These stand
  for Python's `None` and for the exceptions the damper raises.
- `damper_parameters.dfy` (`DamperParameters`): the pure parameter model. It
  holds the damping-time/gain conversions and the resolution of a plane's
  gain at construction. It also holds the phase pair and the error kinds.
- `kick_spec.dfy` (`KickSpec`): the kick as a function on sequences: the
  masked mean and the shift of the active entries. It holds the lemmas about
  lost particles, the centroid and the quarter-turn phase.
- `particle_ensemble.dfy` (`ParticleEnsemble`): the part of the host particle
  container that the damper uses. This is a class with the coordinate arrays,
  the `state` array and the "lost particles are hidden" flag. It also holds
  the two array kernels the kick runs: a masked mean and an in-place masked
  subtraction.
- `transverse_damper.dfy` (`Damper`): the `TransverseDamper` class. It has
  the construction, the damping-time and phase setters, the deprecated
  `dampingrate_*` properties, the kick on a hidden view, and the
  hide/track/unhide wrapper.

All arithmetic is over `real`. The hidden view of the host container is
modelled as the mask `state > 0`. A kernel that runs on the hidden view sees
exactly the active particles. Three edge cases are handled as follows:
- An empty active set is a precondition here, not an error. The code takes
  a NaN mean and subtracts it from an empty view, so no momentum changes.
- A zero damping time given to the constructor is ignored, as the code's
  truthiness test does. The setter refuses zero.
- The wrapper does not unhide on an error path, since the code has no
  `try`/`finally`. In this model the kick cannot fail.

## Model

| member | source | states |
|---|---|---|
| `DamperParameters.GainOfDampingTime` | xheadtail/transverse_damper.py:73-80 | The damping-time setter fails exactly on a zero damping time, with the zero-damping-time error of that plane. `None` gives gain 0. Any other `t` gives a non-zero gain `g` with `g * t == 2`. |
| `DamperParameters.DampingTimeOfGain` | xheadtail/transverse_damper.py:67-71 | The damping-time getter returns `None` exactly when the gain is 0. Otherwise it returns a non-zero `t` with `t * gain == 2`. |
| `DamperParameters.DampingTimeRoundTrip` | xheadtail/transverse_damper.py:67-80 | Setting any damping time other than 0 succeeds. Reading it back through the getter returns the value set, and `None` reads back as `None`. |
| `DamperParameters.GainRoundTrip` | xheadtail/transverse_damper.py:67-80 | Every gain, including the disabling gain 0, comes back unchanged when its damping time is read and then set. |
| `DamperParameters.InitialGainAsWritten` | xheadtail/transverse_damper.py:35-48 | The constructor as written fails exactly when a truthy damping time comes with a gain argument, with that plane's conflict error. A truthy damping time on its own goes through the setter and reads back unchanged. When the damping time is falsy, the gain is 0 whatever gain argument was passed. |
| `DamperParameters.GainArgumentIgnored` | xheadtail/transverse_damper.py:35-48 | As written, `gain_x=0.2` on its own leaves the plane disabled: gain 0, damping time `None`. |
| `DamperParameters.InitialGainVersionsAgree` | xheadtail/transverse_damper.py:35-48 | The constructor as written and the corrected one give the same result on every input except a non-zero gain passed without a truthy damping time. |
| `DamperParameters.InitialGain` | xheadtail/transverse_damper.py:35-48 | The corrected constructor fails exactly when a truthy damping time comes with a gain argument, with that plane's conflict error. A given gain is stored as given. A given damping time reads back unchanged. With neither, the plane is disabled. |
| `KickSpec.KickAxis` | xheadtail/transverse_damper.py:55-66 | The kick of one plane keeps the number of particles, and every lost particle (`state <= 0`) keeps its momentum. |
| `KickSpec.KickAxisPointwise` | xheadtail/transverse_damper.py:55-66 | After the kick, a lost particle (`state <= 0`) keeps its momentum, and so does every particle on a disabled plane. On an enabled plane, every active particle loses the same amount: `gain*sin*mean(p)`, plus `gain*cos*mean(q)/beta` when beta is non-zero. |
| `KickSpec.ShiftMean` | xheadtail/transverse_damper.py:56-60 | Subtracting `d` from every active momentum lowers the active mean by exactly `d`. |
| `KickSpec.CentroidAfterKick` | xheadtail/transverse_damper.py:55-66 | The kick lowers the active mean momentum by the resistive and reactive terms. For a resistive damper (sin = 1, beta = 0), the mean is multiplied by `1 - gain`. |
| `KickSpec.QuarterPhaseIgnoresBeta` | xheadtail/transverse_damper.py:58-60 | At a phase of 90 or 270 degrees (cos = 0), the kick does not depend on beta. |
| `KickSpec.KickAxisAppendLost` | tests/test_damper.py:86-98 | Appending lost particles leaves the active count unchanged. The kicked momenta of the original particles stay the same, and the appended momenta are untouched. |
| `KickSpec.KickAxisIgnoresLost` | xheadtail/transverse_damper.py:10-18 | The active particles, taken in order, end up exactly as they would if the lost particles were not in the ensemble at all. |
| `KickSpec.ResistiveScenario` | tests/test_damper.py:6-46 | Damping time 10 gives gain 0.2. With `px = [1, 2, 3]`, every particle loses 0.4, giving `[0.6, 1.6, 2.6]`. Three appended lost particles with `px = 1000` keep that value. |
| `ParticleEnsemble.MaskedMean` | xheadtail/transverse_damper.py:56-57 | The one-pass reduction over the arrays returns the mean of the active entries. |
| `ParticleEnsemble.SubtractFromActive` | xheadtail/transverse_damper.py:56-57 | The in-place `-=` on the hidden view: the array becomes the old array with `d` subtracted from the active entries only. |
| `ParticleEnsemble.Particles.HideLostParticles` | xheadtail/transverse_damper.py:15 | Hiding sets the ensemble's flag and records one hide. |
| `ParticleEnsemble.Particles.UnhideLostParticles` | xheadtail/transverse_damper.py:17 | Unhiding clears the flag and records one unhide. |
| `Damper.KickPlane` | xheadtail/transverse_damper.py:55-60 | The kick of one plane, in place: the momentum array becomes the kick of its old contents, given the position array and the states. |
| `Damper.TransverseDamper.Create` | xheadtail/transverse_damper.py:35-51 | Construction fails exactly when a plane has both a truthy damping time and a gain, and reports the x plane first. On success, the damper is fresh, its phase pairs are valid, and each plane holds the gain resolved by the corrected `InitialGain`, the given phase pair and the given beta. |
| `Damper.TransverseDamper.DampingTime` | xheadtail/transverse_damper.py:67-86 | The getter on either plane is `None` exactly when that plane's gain is 0. Otherwise its product with the gain is 2. |
| `Damper.TransverseDamper.SetDampingTime` | xheadtail/transverse_damper.py:73-95 | The setter fails exactly on zero, and then changes nothing. Otherwise only that plane's gain changes, and the getter reads back the value set. The other plane is untouched. |
| `Damper.TransverseDamper.SetPhase` | xheadtail/transverse_damper.py:101-113 | The sine and cosine of one plane are stored together, the pair stays valid, and nothing else changes. |
| `Damper.TransverseDamper.DampingRate` | xheadtail/transverse_damper.py:115-128 | Reading `dampingrate_x` or `dampingrate_y` always fails with the deprecation error of that plane. |
| `Damper.TransverseDamper.SetDampingRate` | xheadtail/transverse_damper.py:120-133 | Writing `dampingrate_x` or `dampingrate_y` always fails with the deprecation error. The method has no modifies clause, so no state changes. |
| `Damper.TransverseDamper.TrackVisible` | xheadtail/transverse_damper.py:54-66 | On a hidden view, `px` becomes the x-plane kick of the old `px`, computed from `x`, the states and the x parameters only. `py` becomes the y-plane kick from `y` and the y parameters only. |
| `Damper.TransverseDamper.Track` | xheadtail/transverse_damper.py:10-18 | Gives the same momenta as the kick on the hidden view, with `x`, `y` and `state` unchanged. The hidden flag ends as it was found. The ensemble sees a hide and an unhide exactly when the flag was initially clear, and no toggle otherwise. |
| `Damper.ResistiveTestScenario` | tests/test_damper.py:6-26 | Through `Create` and `Track`: a damper of damping time 10 on x has gain 0.2, turns `px = [1, 2, 3]` into `[0.6, 1.6, 2.6]`, and leaves `py = [3, 4, 5]` unchanged. |
| `Damper.AxisIndependenceScenario` | tests/test_damper.py:31-32 | On two copies of any ensemble with at least one active particle, a damper on both planes gives the same `px` as a damper with the same x parameters and a disabled y plane, and the latter leaves `py` unchanged. |
| `Damper.LostParticlesTestScenario` | tests/test_damper.py:34-46 | Through `Create` and `Track`: with three lost particles appended (`px = 1000`, `py = 2000`), the active `px` become `[0.6, 1.6, 2.6]` as before and all lost momenta keep their values. |

## Left out

- Phase getters `phi_x`/`phi_y` (lines 97-99, 106-108): `arctan2` has no counterpart over the reals, so the degrees are not reconstructed.
- Damper.TransverseDamper.SetPhase: takes the sine and cosine of the angle instead of the angle in degrees. There is no trigonometry over the reals. The requirement `sin^2 + cos^2 == 1` stands in for "computed from an angle".
- Damper.TransverseDamper.Create: takes the phases as (sine, cosine) pairs, for the same reason.
- Damper.TransverseDamper.Create: works out each gain with the corrected `InitialGain`. The source as written drops a lone gain argument, so there the plane keeps gain 0 (`InitialGainAsWritten`; see "## Findings").
- Floating point: all arithmetic is over `real`. The tests' `1e-13`/`1e-14` tolerances are rounding artefacts and have no counterpart here.
- Damper.TransverseDamper.Track: requires at least one active particle when a plane is enabled. With none, the source takes a NaN mean and subtracts it from an empty view, so no momentum changes; the model does not cover that case.
- DamperParameters.InitialGainAsWritten: treats the conflict check as always enabled. The source checks it with an `assert` (lines 41, 46), which Python's `-O` removes; then a truthy damping time together with a gain argument succeeds and the damping time sets the gain. `Damper.TransverseDamper.Create` fails on that input in every case.
- Host framework: the `xt.BeamElement` base class, `xo` field storage, `iscollective` and the compute contexts are not modelled (lines 5-7, 20-33, 38). `beta_x`/`beta_y` reach the element through its keyword arguments and are plain constructor parameters here.
- Direct assignment of `gain_*` and `beta_*` as attributes: these are plain fields of the class, and no separate setter is modelled.
- `hide_lost_particles`/`unhide_lost_particles` belong to the particle container, which is not part of this model. They are a flag plus a visibility log here. The container's reordering of lost particles behind the active ones is not modelled, and the view is the mask `state > 0`.
- Serialisation and copying (`to_dict`/`from_dict`/`copy`) come from the host framework, which is not part of this model.
- The unused imports of `scipy.special.k0` and `scipy.constants` (lines 2-3) are left out, and so are `setup.py` and the LHC example script (packaging, file I/O, plotting).
- Damper.AxisIndependenceScenario: checks the x plane only. The y plane is symmetric, through the second ensures clause of `Track`.

## Findings

| source | as written | input that shows it | evidently intended | confidence | as-written member | corrected member |
|---|---|---|---|---|---|---|
| xheadtail/transverse_damper.py:35-48 | `gain_x`/`gain_y` are named parameters of `__init__`. They are never stored and are not forwarded to the base class, so the plane keeps its zero default gain. | `TransverseDamper(gain_x=0.2)` ends with `gain_x == 0` and `damping_time_x is None` | A gain given without a damping time is stored as the plane's gain. The assertion message says either of the two may be passed. | medium, not executed (assumes the host element zero-initialises fields missing from its keyword arguments) | `DamperParameters.InitialGainAsWritten`, `DamperParameters.GainArgumentIgnored` | `DamperParameters.InitialGain`, `Damper.TransverseDamper.Create` |
