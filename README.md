# Drone altitude control simulator: particle environment and PID controller

This project models the two stateful components of the drone altitude control
simulator over exact reals and proves what they promise.

- `ParticleEnv` (`particle_env.dfy`, module `ParticleEnvModel`) is a 2-D point
  particle in a box. Each `step`:
  - clamps the vertical thrust to `[minThrust, maxThrust]`;
  - records the clamped thrust in an action history of at most 100 entries;
  - forms the net force from gravity, a one-sided floor spring, friction and
    the action;
  - advances velocity and then position by semi-implicit Euler;
  - reports a noisy position quantised to 0.1, and whether the particle has
    left the open box `(-edge, edge) x (0, 2 edge)`.
- `PID` (`pid.dfy`, module `PidModel`) is a controller. Each `update`:
  - smooths the measurement with an exponential moving average (EMA);
  - accumulates and hard-clamps the integral;
  - smooths the derivative of the smoothed measurement;
  - adds a feed-forward term on the setpoint's rate of change;
  - returns `Kp·error + Ki·integral·0.1 − Kd·derivative + kFF·ff`.
- `numeric.dfy` (module `Numeric`) holds the arithmetic helpers: `Math.min`,
  `Math.max` and the max-of-min clamp, which both components use, and
  `Math.round` (halves toward +∞), which only the environment's observation
  uses.

Both classes are imperative Dafny classes whose fields mirror the JavaScript
fields. Each method's `modifies` clause names exactly the fields the source
assigns, so every other field is provably unchanged:

- `ParticleEnv.Reset` keeps `actionHistory`.
- `PID.Reset` keeps `previousDerivative` and every gain.
- `PID.Update` keeps every gain, limit and smoothing factor.

Each method's `ensures` ties the new state to pure specification functions:
`ClampAction`, `PushBounded`, `NetForce`, `Acceleration`, `Observe` and `Done`
for the environment, and `Next` and `Response` for the controller. The lemmas
beside those functions prove the source's promises.

Two inputs are made explicit:

- The wall clock (`performance.now()`) becomes a time-step argument `dt`. The
  controller requires `dt > 0`, because `update` divides by it.
- The two Gaussian sensor draws of `_getObs` become a `noise` vector argument.

`null` initial fields (`dt`, `action`, `force`) are modelled as `Option.None`.
Two-element arrays are modelled as the value type `Vec2`.

A worked scenario: a fall from `(0, 2)` with a zero command, `mass = 1` and
`dt = 0.1`. The code clamps the command up to `minThrust = 0.98`, so the net
force is `-8.82`, the velocity `-0.882` and the height `1.9118`
(`FallFromRestForce` and `FallFromRestStep`).

## Model

| member | source | states |
|---|---|---|
| Numeric.Clamp | pid.js:34 | `Math.max(Math.min(x, hi), lo)` is at least `lo`; it is at most `hi` when `lo <= hi`; it is `x` inside the bounds, `lo` below them and `hi` above them; when the bounds cross, the lower bound wins |
| Numeric.Round | particleEnv.js:81 | `Math.round(y)` is an integer in `(y - 1/2, y + 1/2]` |
| Numeric.RoundUnique | particleEnv.js:81 | every integer in that window is `Math.round(y)`, so halves round up |
| ParticleEnvModel.ClampAction | particleEnv.js:41 | the horizontal action passes through; the vertical one is at least `minThrust`, and at most `maxThrust` when `minThrust <= maxThrust`; it is unchanged inside the range, raised to `minThrust` below it and cut to `maxThrust` above it |
| ParticleEnvModel.PushBounded | particleEnv.js:42-45 | the history stays within capacity and grows by one only below capacity; its newest entry is the pushed value; every other entry is an entry of the old history, in order, at the same distance from the newest end |
| ParticleEnvModel.PushBoundedEvictsOnlyOldest | particleEnv.js:42-45 | below capacity the push appends; at capacity exactly the oldest entry is removed and the rest keep their order |
| ParticleEnvModel.HistoryLength | particleEnv.js:42-45 | from a history within capacity, after any number of steps it holds `min(old + pushed, 100)` entries |
| ParticleEnvModel.HistoryHoldsLatest | particleEnv.js:42-45 | after any number of steps, the i-th newest entry is the i-th latest clamped thrust; once the pushes run out it reaches back into the starting history |
| ParticleEnvModel.SpringPushesUp | particleEnv.js:49-51 | the spring is one-sided: it vanishes at or above `radius`; with `k >= 0` it is never negative, and it is strictly positive below `radius` when `k > 0` |
| ParticleEnvModel.SpringLinearInDepth | particleEnv.js:49-51 | below `radius` the spring grows linearly with depth: a lower particle is pushed harder |
| ParticleEnvModel.ActionEntersForceUnchanged | particleEnv.js:47-57 | two actions in the same state give net forces that differ by exactly the difference of the actions, on both axes |
| ParticleEnvModel.AccelerationTimesMass | particleEnv.js:60 | the acceleration times the mass is the net force |
| ParticleEnvModel.SemiImplicitDisplacement | particleEnv.js:61-64 | position moves by the old velocity times `dt` plus the acceleration times `dt²`, because velocity is updated first; with `dt = 0` neither velocity nor position changes |
| ParticleEnvModel.Quantise | particleEnv.js:81 | each observed component, times 10, is an integer, and it lies in `(v − 0.05, v + 0.05]` around the noisy value `v` |
| ParticleEnvModel.QuantiseUnique | particleEnv.js:81 | a multiple of 0.1 in that window is the observed value |
| ParticleEnvModel.QuantiseIdempotent | particleEnv.js:81 | quantising an observed value again changes nothing |
| ParticleEnvModel.Done | particleEnv.js:69-70 | `done` holds exactly when the position is outside the open box `(−edge, edge) × (0, 2 edge)`; points on the boundary count as out |
| ParticleEnvModel.ParticleEnv.constructor | particleEnv.js:2-22 | a new environment has no `dt`, action or force, is at rest at the origin, and has an empty history |
| ParticleEnvModel.ParticleEnv.Reset | particleEnv.js:24-32 | the position becomes `initPosition`, or `(0, 2 radius)` when none is given; the velocity becomes zero; the observation is taken at the new position; only position and velocity change, so the action history is kept |
| ParticleEnvModel.ParticleEnv.Step | particleEnv.js:34-73 | `step` records `dt` and the clamped action; it pushes the clamped thrust through the bounded history and keeps the history bound; the force is the net force of the old state; velocity is updated by acceleration·dt and then position by the new velocity·dt; observation and `done` are taken at the new position |
| ParticleEnvModel.ParticleEnv.GetObs | particleEnv.js:75-82 | the observation is the noisy position quantised per axis |
| ParticleEnvModel.FallFromRestForce | particleEnv.js:41-60 | for a fall from `(0, 2)` with zero command and `mass = 1`: the thrust is raised to 0.98, the net force and acceleration are `(0, −8.82)`, and height 1.9118 is still inside the box |
| ParticleEnvModel.FallFromRestStep | particleEnv.js:41-64 | starting from `(0, 2)` at rest with a zero command, the model's clamp, net force, acceleration and velocity-then-position update give velocity `(0, −0.882)` and position `(0, 1.9118)` after 0.1 s |
| ParticleEnvModel.HoverScenario | particleEnv.js:47-64 | above the floor and without friction, a thrust equal to the weight gives zero force and leaves a resting particle where it is |
| PidModel.Ema | pid.js:29-30 | with smoothing 0 the average is the new value; with smoothing 1 it is the previous value; equal inputs give that value |
| PidModel.EmaBetween | pid.js:29-30 | with smoothing in `[0, 1]` the smoothed value lies between the raw and previous values |
| PidModel.Rate | pid.js:36 | the rate times `dt` is the change; no change gives rate 0 |
| PidModel.RateSign | pid.js:36 | the rate is positive exactly when the value rose |
| PidModel.Next | pid.js:29-47 | after `update`, `previousSetpoint` is the new setpoint; the integral is in `[−integralLimit, integralLimit]` when the limit is non-negative; the new `previousMeasurement` is the raw value when `αm = 0` and lies between raw and previous when `0 <= αm <= 1`; when the smoothed measurement equals the previous one (a held raw value, or any raw value when `αm = 1`), `previousMeasurement` stays put and `previousDerivative` becomes `αd · previousDerivative` |
| PidModel.IntegralTermBounded | pid.js:33-44 | after any update, the integral term of the output, `Ki · integral · 0.1`, is at most the magnitude of `Ki` times the magnitude of `integralLimit` times 0.1, because the integral is clamped before the output is formed; with a negative limit the crossed clamp pins the integral at `−integralLimit` |
| PidModel.SteadySetpointNoFeedForward | pid.js:42-44 | with the setpoint unchanged, the feed-forward term drops out of the output |
| PidModel.NoDerivativeKick | pid.js:29-38 | the setpoint does not affect the smoothed measurement or the smoothed derivative, because the derivative is taken on the measurement |
| PidModel.ProportionalOnly | pid.js:29-44 | with only `Kp` nonzero and no measurement smoothing, the output is `Kp · (setpoint − measured)` |
| PidModel.ProportionalScenario | pid.js:24-50 | `Kp = 1`, reset state, measurement 5 and setpoint 10 give output 5 |
| PidModel.HeldMeasurementDamps | pid.js:29-38 | when the smoothed measurement equals the previous one and `0 <= αd < 1`, one update strictly shrinks a nonzero smoothed derivative and keeps a zero one at zero |
| PidModel.RunKeepsIntegralBounded | pid.js:33-34 | over any sequence of updates with fixed gains, an integral that starts within the limits stays within them |
| PidModel.HeldMeasurementDecay | pid.js:29-40 | over n updates each of which leaves the smoothed measurement at its previous value, `previousMeasurement` never moves, and the smoothed derivative is the starting derivative multiplied by `αd` n times |
| PidModel.DecayIsPow | pid.js:37-38 | n held updates multiply the derivative by `αd^n` |
| PidModel.DecayBound | pid.js:37-38 | with `0 <= αd < 1`, after n held updates the derivative's magnitude never grows, and shrinks at least by a factor `1 + n(1 − αd)` |
| PidModel.DecaySettles | pid.js:37-38 | with `0 <= αd < 1`, the held-measurement derivative falls below any `eps > 0` once `n(1 − αd)·eps` reaches its starting magnitude |
| PidModel.PID.constructor | pid.js:2-15 | the gains are stored as given; integral and all previous values start at 0 |
| PidModel.PID.Reset | pid.js:17-22 | the integral becomes 0 and the previous measurement and setpoint take the given values (default 0); only those three fields change, so `previousDerivative` and the gains are kept |
| PidModel.PID.Update | pid.js:24-50 | the new state is `Next` of the old state and the return value is `Response`; only the four state fields change, so gains, limit and smoothing factors are never modified |

## Left out

- `render`, `_drawGraph` and `_drawArrow` are not modelled; they only draw on a canvas.
- `_randomGaussian` (Box–Muller with `Math.random`, `log`, `sqrt`, `cos`) is not modelled. Its two draws are the `noise` argument of `Reset`, `Step` and `GetObs`. Nothing is claimed about the noise distribution or `sensorStd`.
- The clock fields `t0` and `performance.now()` are not modelled. The elapsed time is the `dt` argument.
- main.js is not part of this model. It is DOM, slider and animation-loop glue.
- IEEE-754 effects are not modelled: rounding error, overflow, and the `Infinity`/`NaN` that `update` produces when `dt = 0`. The model works over exact reals. Called before `reset`, `update` and `step` subtract a `null` start time, which JavaScript reads as 0, so the first step spans the whole time since page load; the `dt` argument covers that case.
- PidModel.PID.Update: requires `dt > 0`. The source divides by `dt` with no guard.
- Aliasing is not modelled. `step` writes the clamp into the caller's `action` array, and `reset` keeps the caller's `initPosition` array as its position. Both are modelled as values.
- PidModel.PID.Update: its contract states the new state and output through `Next` and `Response`, not field by field. The field-level facts are proved about `Next` and `Response`.
- PidModel.Run and PidModel.RunKeepsIntegralBounded: gains are held fixed across a sequence of updates. In the running application, main.js may change them between ticks.
