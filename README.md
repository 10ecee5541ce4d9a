# Self-balancing machine: controllers and tick physics

A Dafny model of the two pieces of logic in the inverted-pendulum-on-a-wheel
simulation (LuckySan/controlling_fun):

- `controllers.dfy`, module `Controllers`: the proportional, PI and PID
  controllers of `src/Controller.py`. Each is a class whose gains are `const`
  fields fixed by the constructor. The PI and PID controllers also have
  mutable accumulators (`integral`, `previousError`) that only
  `ControlTorque` changes. The per-call rules are the methods' postconditions.
  Repeated calls are stated in two ways. The folds `Integral` and `PIDAfter`
  run the same per-call update over a sequence of inputs, and induction lemmas
  say what they compute. `RepeatPI` and `RepeatPID` call a fresh object n
  times and prove that its state matches the folds.
- `simulation.py`'s tick, module `Simulation`. The script's module-level
  variables `theta`, `theta_dot`, `time` and `tipped` become the fields of
  class `Sim`. `Sim.Tick` is the body of `if not tipped:` and is proved to
  perform the value-level `Step`. `Sim.RunTicks` is the `while running` loop
  with one corrective torque per tick. The lemmas about `Run`, a sequence of
  `Step`s, cover the one-way tipping flag, the frozen tipped state and the
  clock.

All floating-point quantities are `real`. The constants (`M_BODY`, `L_BODY`,
`G`, `DT`, `MAX_ANGLE_TIPPING_RAD`, `MAX_WHEEL_TORQUE`) are fields of a
`Params` value required to be positive. `SourceParams` pins them to the
script's values. `math.sin` is the parameter `sin: real -> real`, about which
nothing is assumed.

Notes on the code:

- The proportional term is `+K_p * theta` (src/Controller.py:46), so a
  positive gain pushes the body away from upright. The same sign holds in the
  PI and PID controllers (src/Controller.py:79, 117).
- `time` advances on the tipping tick too (src/simulation.py:101 runs after the
  tipping check at lines 97-99) and then stays fixed, so it ends one `DT` past
  the time printed at the tip.
- The integration is semi-implicit Euler: the angle is advanced with the
  velocity already updated on the same tick (src/simulation.py:93-94).
- The state is the angle and its velocity only; there is no horizontal
  position or velocity. The corrective torque is a hard-coded `-100.0`
  (src/simulation.py:77), and no controller is called. The model keeps the
  corrective torque as an input of `Tick`.

## Model

| member | source | states |
|---|---|---|
| `Controllers.ProportionalController.constructor` | src/Controller.py:31-32 | the gain is the one given |
| `Controllers.ProportionalController.ControlTorque` | src/Controller.py:34-47 | the torque is exactly `K_p * theta` (error against goal 0, positive sign); `dt` has no influence and no field changes |
| `Controllers.PIController.constructor` | src/Controller.py:60-63 | the gains are the ones given and a fresh controller has `integral == 0` |
| `Controllers.PIController.ControlTorque` | src/Controller.py:65-80 | only `integral` changes, to `integral + theta * dt`; the torque is `K_p * theta + K_i * integral'` using the already advanced integral |
| `Controllers.PIDController.constructor` | src/Controller.py:95-100 | the gains are the ones given and a fresh controller has `integral == 0` and `previous_error == 0` |
| `Controllers.PIDController.ControlTorque` | src/Controller.py:102-119 | only `integral` and `previous_error` change: `integral' == integral + theta * dt`, `previous_error' == theta`; the torque adds `K_d` times the guarded derivative against the old previous error, and with `dt <= 0` it is `K_p * theta + K_i * integral'` |
| `Controllers.Derivative` | src/Controller.py:116 | with `dt <= 0` the derivative is 0 (no division); with `dt > 0` it is the quotient, stated without division as `d * dt == error - previous_error`; an unchanged error gives 0 |
| `Controllers.Error` | src/Controller.py:44-45 | the goal is upright (0.0), so the error a controller acts on is the angle itself |
| `Controllers.Accumulate` | src/Controller.py:76-78 | one call adds `theta * dt` to the integral accumulator |
| `Controllers.IntegralAppend` | src/Controller.py:78 | accumulating two runs of calls in turn equals accumulating their concatenation |
| `Controllers.IntegralFromStart` | src/Controller.py:78 | the integral after a run is its starting value plus what the run adds, whatever that start was |
| `Controllers.IntegralOfRepeat` | src/Controller.py:78 | n calls with fixed `theta` and `dt` add exactly `n * theta * dt` to the integral |
| `Controllers.PIDUpdate` | src/Controller.py:113-118 | one PID call advances the integral as the PI controller does and sets `previous_error` to the call's angle |
| `Controllers.PIDAfterAppend` | src/Controller.py:115-118 | the PID accumulators after two runs in turn equal those after their concatenation |
| `Controllers.PIDIntegralIsPIIntegral` | src/Controller.py:115 | the PID integral accumulates exactly as the PI integral does |
| `Controllers.PIDRemembersLastError` | src/Controller.py:118 | after one or more calls, `previous_error` is the angle of the last call, whatever the time steps |
| `Controllers.PIDAfterRepeat` | src/Controller.py:99-118 | n calls from fresh accumulators with fixed `theta`, `dt` leave `integral == n * theta * dt` and `previous_error == theta` (0 when n is 0) |
| `Controllers.RepeatPI` | src/Controller.py:60-80 | a fresh PI object called n times with fixed `theta`, `dt` ends with `integral == n * theta * dt` (the `Integral` fold), and its k-th answer (from 0) is `SteadyTorque(k + 1)`, that is `K_p * theta + K_i * (k + 1) * theta * dt` |
| `Controllers.PIDRepeatCall` | src/Controller.py:113-119 | the (i+1)-th call on a fresh PID controller with fixed `theta`, `dt` moves the accumulators one step along the `PIDAfter` fold; the first call's answer includes `K_d` times the derivative against 0, and every later answer has no derivative term (the steady torque with `i + 1` calls integrated) |
| `Controllers.RepeatPID` | src/Controller.py:95-119 | a fresh PID object called n times with fixed `theta`, `dt` ends in the `PIDAfter` state with `integral == n * theta * dt` and `previous_error == theta`. Only the first answer has a derivative term, taken against 0; every later answer is `SteadyTorque(k + 1)`, that is `K_p * theta + K_i * (k + 1) * theta * dt` |
| `Simulation.Inertia` | src/simulation.py:7-9 | `I_BODY == M_BODY * L_BODY^2 / 3` is strictly positive, so the division in the acceleration step is defined |
| `Simulation.SourceParamsAreValid` | src/simulation.py:7-17 | the script's constants are all positive and give `I_BODY == 0.75` |
| `Simulation.CopySign` | src/simulation.py:84 | the result has the magnitude of the first argument and the sign of the second |
| `Simulation.Clamp` | src/simulation.py:82-84 | the clamped torque is within `±MAX_WHEEL_TORQUE`, has the sign of the request, equals the request when it is within the limit, and has magnitude exactly the limit otherwise |
| `Simulation.ClampIdempotent` | src/simulation.py:82-84 | clamping an already clamped torque changes nothing |
| `Simulation.SourceTorqueUnclamped` | src/simulation.py:77-84 | the script's `-100.0` request sits on the limit and passes through unchanged |
| `Simulation.GravityTorque` | src/simulation.py:74 | with positive constants, gravity's torque has the sign of `sin(theta)`: it pulls the body further the way it leans and is zero when `sin(theta)` is |
| `Simulation.AngularAcceleration` | src/simulation.py:87-90 | the angular acceleration times `I_BODY` is gravity torque plus clamped corrective torque |
| `Simulation.Initial` | src/simulation.py:22-23 | definition: the state before the first tick is the given angle, zero velocity, `time == 0` and not tipped (src/simulation.py:64-65); `Sim.constructor` is proved to produce it |
| `Simulation.Step` | src/simulation.py:72-101 | a tipped body is left as it is; otherwise the clock advances by `DT` (on the tipping tick too), velocity changes by acceleration times `DT`, and `tipped` afterwards holds exactly when `abs(theta') > MAX_ANGLE_TIPPING_RAD` |
| `Simulation.StepIsSemiImplicit` | src/simulation.py:93-94 | the angle is advanced with the new velocity: it differs from a forward-Euler step by exactly `acceleration * DT^2` |
| `Simulation.Run` | src/simulation.py:67-101 | definition: the `while running` loop on values, one `Step` per corrective torque in order; its properties are the lemmas below and `Sim.RunTicks` is proved to compute it |
| `Simulation.RunAppend` | src/simulation.py:67-101 | running two command sequences in turn equals running their concatenation |
| `Simulation.TippedIsFrozen` | src/simulation.py:72 | once `tipped`, any number of ticks leaves `theta`, `theta_dot`, `time` and `tipped` unchanged |
| `Simulation.TippedStaysTipped` | src/simulation.py:64-98 | `tipped` never returns to false: after a run has tipped, further ticks change nothing |
| `Simulation.UprightRunTime` | src/simulation.py:65-101 | a run that ends untipped started untipped and advanced the clock by exactly `n * DT` |
| `Simulation.TickAfterUprightRun` | src/simulation.py:72-101 | a tick that begins untipped advances the clock by exactly `DT`, whether or not it tips |
| `Simulation.TimeCountsRunningTicks` | src/simulation.py:97-101 | n ticks that all begin untipped advance the clock by `n * DT`, the tick that tips included |
| `Simulation.TimeBounds` | src/simulation.py:101 | over n ticks the clock never decreases and gains at most `n * DT` |
| `Simulation.Sim.constructor` | src/simulation.py:63-65 | the initial state is the given angle, zero velocity, time 0, not tipped |
| `Simulation.Sim.Tick` | src/simulation.py:72-101 | the new state is `Step` of the old one. When tipped, nothing changes. Otherwise the velocity is updated first, then the angle with the new velocity; `tipped` is set exactly when `abs(theta') > MAX_ANGLE_TIPPING_RAD`; `time` advances by `DT` |
| `Simulation.Sim.RunTicks` | src/simulation.py:67-101 | after the loop the state is `Run` of the initial state over the command sequence |

## Left out

- The abstract `Controller` base class (src/Controller.py:3-21): it only fixes the `control_torque(theta, dt)` signature, which the three classes share; Dafny traits are not used in this model.
- Default arguments: the Python constructors default the gains to 800, 50 and 10, and `ProportionalController.control_torque` defaults `dt` to `None`; Dafny has no default arguments, so gains and `dt` are always passed (the proportional controller ignores `dt`).
- IEEE floating-point rounding, overflow, NaN and negative zero: all arithmetic is over `real`.
- `math.sin` is the uninterpreted parameter `sin`; `math.radians` and the irrational value pi/2 of `MAX_ANGLE_TIPPING_RAD` are replaced by a positive parameter (bracketed in `SourceParams`).
- The random initial angle (src/simulation.py:21-22) is the constructor parameter `theta0`.
- The `print` calls (src/simulation.py:25, 99) are logging. The tip report prints `time` before the tick's increment, one `DT` less than the final `time`.
- All pygame code (window, drawing, fonts, event polling, `clock.tick`, quitting): presentation and I/O; the loop is modelled as a finite command sequence.
- Numerical-analysis claims (energy drift of the undriven pendulum, closed-loop stabilisation with PID gains): the code promises none of them, and with an uninterpreted `sin` none of them can be proved.
- Horizontal position and velocity, keyboard commands, and any link between the controllers and the tick: none of these exists in the code.
