# simpleWT-gym in Dafny

A model of simpleWT-gym, a small simulator of a 3.2 m wind turbine with a DC
generator, and of two reinforcement-learning environments built on it.

The model has three layers.

- **Turbine dynamics.** `WindTurbineDynamics.wind_turbine_ode` is the
  right-hand side of the four-state differential equation (rotor speed w,
  armature current Ia, pitch, pitch rate). It does the following:
  - clips w to [2.5, 50], pitch to [0, 90] degrees and the wind speed to
    [1.8, 25];
  - runs the first-order pitch actuator, whose rate saturates at 5 degrees
    per second;
  - computes the tip-speed ratio, lambda_i, the power coefficient Cp
    (clipped to [0, 1]) and the mechanical torque;
  - applies the linear generator equations of `RotorDynamics`;
  - overwrites twelve diagnostic fields.
  Everything is over exact reals. pi, `exp` and the non-integer power
  `pitch ** 2.14` are uninterpreted. They are held in a `Math` record:
  pi and `exp` are only known to be positive, and the power is arbitrary.
- **Simulator.** `WindTurbineSimulator.step` advances the state by one step
  dt = 0.01 s through an integrator it is given. That integrator is
  `solve_ivp` with RK45, abstracted as a function field. Each step
  replaces the state, advances the clock and appends one log entry stamped
  with the pre-step time.
- **Gyms.** `SimpleWtGym7` and `SimpleWtGym2` map a normalised action to
  a pitch reference, run the simulator, and return an observation, the
  reward (minus the squared speed error) and the termination flag.
  - Gym 7 clips the reference to [0, 90] degrees. It holds each action for
    `int(control_time_step / dt)` simulator steps and has a burn-in loop.
  - Gym 2 does not clip. It takes one simulator step per action.

Files are laid out as follows.

- `numerics.dfy`: `Numerics` (numpy's `clip`, Python's `int()`, radians,
  the square penalty, and the `Math` record) and `Wrappers` (the `Result` and `StepResult`
  types).
- `rotor_dynamics.dfy`: `RotorDynamics`, the generator constants and
  equations.
- `wt_dynamics.dfy`: `WtDynamics`, the aerodynamics, both actuators, the
  right-hand side as the pure function `Derivative`, and the class
  `WindTurbineDynamics`. That class's method `WindTurbineOde` updates the
  diagnostic fields and is proved equal to `Derivative`.
- `wt_simulator.dfy`: `WtSimulator`, the class `WindTurbineSimulator`.
- `gym7.dfy`: `Gym7`, the functions and lemmas of the newer environment,
  and `Gym7Env`, its class `SimpleWtGym7`.
- `gym2.dfy`: `Gym2`, the older environment.

## Behaviour of the code worth knowing

- A failed integration is only logged: the integrator's final state is
  taken all the same and the clock advances, so
  `WtSimulator.WindTurbineSimulator.Step` has no failure path.
- The pitch is clipped to [0, 90] degrees before use, but the pitch
  reference is not. It is fed unclipped to the actuator and recorded as
  given, which `WtDynamics.DerivativeProperties` states.
- lambda_i is not clipped. Its denominators are positive on clipped inputs
  (`WtDynamics.DenominatorsPositive`), so no evaluation divides by zero.
- The right-hand side always uses the first-order actuator; the call of
  the second-order one is commented out.
- The diagnostics are fields of the dynamics object, overwritten by each
  evaluation. The model keeps those fields, and `WtDynamics.Derivative`
  gives the same values as a record.

## Model

| member | source | states |
|---|---|---|
| Numerics.Clip | src/simpleWT_gym/wt_dynamics.py:102-104 | the result of numpy's clip lies in [lo, hi]; it is x inside the interval and the nearer bound outside it |
| Numerics.ClipIdempotent | src/simpleWT_gym/wt_dynamics.py:102-104 | clipping an already clipped value changes nothing |
| Numerics.Trunc | src/simpleWT_gym/simple_wt_gym_7.py:57 | Python's int() on a real truncates toward zero: floor for non-negative arguments, ceiling for negative ones |
| Numerics.Radians | src/simpleWT_gym/simple_wt_gym_7.py:109-110 | np.radians maps 0 to 0 and a positive angle to a positive one |
| Numerics.NegSquareZeroIff | src/simpleWT_gym/simple_wt_gym_7.py:81-84 | minus a square is 0 exactly at 0 and negative elsewhere |
| Numerics.ScaledActionBound | src/simpleWT_gym/simple_wt_gym_7.py:113 | for a normalised action abs(a) <= 1, abs(a * k * c) <= k * abs(c); for c > 0 the product has the sign of a |
| RotorDynamics.WOde | src/simpleWT_gym/wt_dynamics.py:201-206 | J * dw/dt = Tm - Tem - Kf * w; the rotor is steady exactly when Tm balances Tem plus friction and accelerates exactly when Tm exceeds it |
| RotorDynamics.IaOde | src/simpleWT_gym/wt_dynamics.py:214-220 | La * dIa/dt = Ea - (Ra + Rl) * Ia; the current is steady exactly when Ea equals the drop over both resistances and rises exactly when Ea exceeds it |
| RotorDynamics.Tem | src/simpleWT_gym/wt_dynamics.py:209-211 | the electrical torque Kg * Kphi * Ia has the sign of Ia and is 0 exactly when no current flows |
| RotorDynamics.Ea | src/simpleWT_gym/wt_dynamics.py:228-230 | the back EMF Kg * Kphi * w has the sign of w and is 0 exactly at standstill |
| RotorDynamics.TorqueAndEmfShareCoefficient | src/simpleWT_gym/wt_dynamics.py:209-211 | tem and Ea are the same linear map with coefficient Kg * Kphi, applied to Ia and to w (also models lines 228-230) |
| RotorDynamics.Power | src/simpleWT_gym/wt_dynamics.py:222-225 | power is never negative; it is 8 * Ia^2 for abs(Ia) <= 30 and 240 * abs(Ia) beyond that |
| RotorDynamics.PowerKnee | src/simpleWT_gym/wt_dynamics.py:196-198 | the knee at abs(Ia) = 30 is Vnom / Rl; both branches give Vnom * 30 there, so the literal 240 agrees with Vnom |
| RotorDynamics.PowerMonotone | src/simpleWT_gym/wt_dynamics.py:222-225 | power is even in Ia and does not decrease when abs(Ia) grows |
| WtDynamics.Area | src/simpleWT_gym/wt_dynamics.py:64 | the rotor area pi * R^2 is positive |
| WtDynamics.TipSpeedRatio | src/simpleWT_gym/wt_dynamics.py:158-160 | tsr * v = w * R |
| WtDynamics.TipSpeedRatioLinear | src/simpleWT_gym/wt_dynamics.py:158-160 | the tip-speed ratio is linear in w |
| WtDynamics.LambdaI | src/simpleWT_gym/wt_dynamics.py:147-149 | lambda_i is the reciprocal of 1/(tsr + c8) - c9/(pitch^3 + 1) |
| WtDynamics.LambdaIBounds | src/simpleWT_gym/wt_dynamics.py:147-149 | when tsr + c8 > 0 and pitch >= 0, the inverse exceeds 1/(tsr + c8) > 0, so 0 < lambda_i < tsr + c8 |
| WtDynamics.Cp | src/simpleWT_gym/wt_dynamics.py:152-155 | Cp lies in [0, 1] whatever the formula gives, and equals the formula when the formula is in range |
| WtDynamics.Tm | src/simpleWT_gym/wt_dynamics.py:142-144 | Tm * w is the share Cp of the wind power rho * A * v^3 / 2; Tm is 0 when Cp is 0 |
| WtDynamics.CpZeroWhenBracketNonPositive | src/simpleWT_gym/wt_dynamics.py:152-155 | since exp is positive, Cp is 0 whenever the bracket of the formula is not positive |
| WtDynamics.MechanicalTorqueBounds | src/simpleWT_gym/wt_dynamics.py:142-144 | for Cp in [0, 1] and v, w > 0, 0 <= Tm <= rho * A * v^3 / (2 w) |
| WtDynamics.PitchActuatorOde | src/simpleWT_gym/wt_dynamics.py:163-170 | the first output is the incoming pitch rate; 2 * d2pitch + dpitch = -0.15 * (pitch - pitch_ref) |
| WtDynamics.MaxPitchRate | src/simpleWT_gym/wt_dynamics.py:180 | the saturation rate radians(5) is positive |
| WtDynamics.PitchActuatorOde1stOrder | src/simpleWT_gym/wt_dynamics.py:172-184 | the second derivative is 0; dpitch = clip((pitch_ref - pitch) / 0.2, -radians(5), radians(5)), so abs(dpitch) <= radians(5); dpitch is 0 exactly when pitch_ref = pitch and positive exactly when pitch_ref > pitch; there is no saturation in the linear band |
| WtDynamics.PitchMax | src/simpleWT_gym/wt_dynamics.py:103 | the upper pitch bound deg2rad(90) is positive |
| WtDynamics.ClampedInRange | src/simpleWT_gym/wt_dynamics.py:101-104 | after clipping, w is in [2.5, 50], pitch in [0, pi/2] and the wind speed in [1.8, 25] |
| WtDynamics.Derivative | src/simpleWT_gym/wt_dynamics.py:91-139 | the third component of the result is the recorded pitch rate and the fourth is 0; the recorded pitch_ref and Ia are the inputs' own, unclipped |
| WtDynamics.TipSpeedRatioFloor | src/simpleWT_gym/wt_dynamics.py:102-107 | on clipped inputs the tip-speed ratio is at least 2.5 * R / 25 |
| WtDynamics.DenominatorsPositive | src/simpleWT_gym/wt_dynamics.py:101-115 | on clipped inputs every denominator is positive: v, 2w, tsr + c8, pitch^3 + 1 and the inverse of lambda_i; hence lambda_i > 0 |
| WtDynamics.DerivativeProperties | src/simpleWT_gym/wt_dynamics.py:91-139 | one evaluation records the clipped w and pitch and the unclipped pitch_ref and Ia; Cp is in [0, 1]; lambda_i and the tip-speed ratio are positive; Tm and power are non-negative; tem, Ea and power follow the generator equations; the result is [(Tm - Tem - Kf w)/J, (Ea - (Ra + Rl) Ia)/La, dpitch, 0] with abs(dpitch) <= radians(5), and dpitch is 0 exactly when pitch_ref equals the clipped pitch |
| WtDynamics.DerivativeIgnoresPitchRate | src/simpleWT_gym/wt_dynamics.py:96-110 | the incoming pitch rate x[3] never influences the evaluation, because the first-order actuator ignores it |
| WtDynamics.PitchAtRestOnReference | src/simpleWT_gym/wt_dynamics.py:163-184 | at rest on a reference already in range, both pitch derivatives of the ODE are 0, and so is the second-order actuator's |
| WtDynamics.DrivetrainEquilibrium | src/simpleWT_gym/wt_dynamics.py:117-120 | dIa/dt = 0 exactly when Ea = (Ra + Rl) * Ia, and dw/dt = 0 exactly when Tm = Tem + Kf * w, on the clipped speed |
| WtDynamics.WindTurbineDynamics.constructor | src/simpleWT_gym/wt_dynamics.py:50-88 | x0 = [40, 30, 0, 0], and the diagnostic fields start at their initial values |
| WtDynamics.WindTurbineDynamics.WindTurbineOde | src/simpleWT_gym/wt_dynamics.py:91-139 | returns the derivative vector of Derivative and overwrites all twelve diagnostic fields with the values it records |
| WtSimulator.Final | src/simpleWT_gym/wt_dynamics.py:22 | the new state is one of the integrator's output states, its last column |
| WtSimulator.Clock | src/simpleWT_gym/wt_dynamics.py:27 | the clock after k steps of dt > 0 never lies before the start, and lies at least one dt after it once a step is taken |
| WtSimulator.ClockLinear | src/simpleWT_gym/wt_dynamics.py:27 | adding dt k times to t gives t + k * dt |
| WtSimulator.RunStepsCompose | src/simpleWT_gym/wt_dynamics.py:19-28 | running n steps and then k more from where they end is the same as running n + k steps |
| WtSimulator.StepLog | src/simpleWT_gym/wt_dynamics.py:30-33 | n steps with logging on append exactly n log entries |
| WtSimulator.StepLogEntries | src/simpleWT_gym/wt_dynamics.py:19-33 | the k-th of n consecutive entries is stamped t + k * dt, the time at which that step starts, and holds the diagnostics that step leaves |
| WtSimulator.ClockCompose | src/simpleWT_gym/wt_dynamics.py:27 | counting n steps and then k more is counting n + k steps |
| WtSimulator.StepAtCompose | src/simpleWT_gym/wt_dynamics.py:19-28 | the k-th step after the first n is the (n + k)-th step from the start |
| WtSimulator.StepDiagCompose | src/simpleWT_gym/wt_dynamics.py:19-28 | the diagnostics of the k-th step after the first n are those of the (n + k)-th step |
| WtSimulator.RunExtends | src/simpleWT_gym/wt_dynamics.py:19-28 | k >= 1 more steps after the first n extend their clock, state and last diagnostics to those of n + k steps |
| WtSimulator.StepExtendsRun | src/simpleWT_gym/wt_dynamics.py:19-33 | one more step after the first i (none included) leaves the simulator where i + 1 steps take it (`WtSimulator.Advanced`): clock, state, diagnostics and log |
| WtSimulator.WindTurbineSimulator.constructor | src/simpleWT_gym/wt_dynamics.py:8-17 | a fresh dynamics object; x = x0, ti = 0, logging on, and an empty log |
| WtSimulator.WindTurbineSimulator.Step | src/simpleWT_gym/wt_dynamics.py:19-28 | ti grows by exactly dt; x becomes the integrator's final state and is returned; the diagnostics are those of the integrator's last evaluation, so pitch_ref is the input's; with logging on, the log grows by exactly one entry stamped with the pre-step ti; a failed integration is not reported |
| WtSimulator.WindTurbineSimulator.LogCallback | src/simpleWT_gym/wt_dynamics.py:30-47 | appends one entry with the current ti and diagnostics when logging is on, and changes nothing otherwise |
| Gym7.PitchIncrement | src/simpleWT_gym/simple_wt_gym_7.py:113 | for abs(action) <= 1, abs(increment) <= radians(5) * abs(control_time_step); a zero action gives no increment; for a positive control step the increment has the action's sign |
| Gym7.NewPitch | src/simpleWT_gym/simple_wt_gym_7.py:109-115 | the new reference lies in [0, pi/2]; it is pitch_ref + increment when that is in range, and the violated bound otherwise |
| Gym7.ReferenceRateLimited | src/simpleWT_gym/simple_wt_gym_7.py:106-119 | from a reference in range, the clipped reference moves by no more than the increment, so by at most radians(5) * control_time_step for a unit action |
| Gym7.Observation | src/simpleWT_gym/simple_wt_gym_7.py:127-135 | the observation is [wg_nom - w, pitch, Vx, pitch_ref] in that order |
| Gym7.Reward | src/simpleWT_gym/simple_wt_gym_7.py:81-84 | the reward is never positive, and it is 0 exactly when the speed error is 0 |
| Gym7.RewardPeaksAtNominalSpeed | src/simpleWT_gym/simple_wt_gym_7.py:81-84 | the reward of a state's observation is 0 exactly at the nominal speed, and no state scores better than one at the nominal speed |
| Gym7.ControlSteps | src/simpleWT_gym/simple_wt_gym_7.py:53-57 | int(control_time_step / dt) is at least 1 exactly when control_time_step >= dt, and the steps never cover more than abs(control_time_step) |
| Gym7.StepsBelow | src/simpleWT_gym/simple_wt_gym_7.py:76 | while the clock after j steps of dt > 0 is still before the target, j is at most floor((target - t0) / dt), so the burn-in loop terminates |
| Gym7.ZeroActionKeepsPitch | src/simpleWT_gym/simple_wt_gym_7.py:106-119 | a zero action maps a reference already in [0, pi/2] to itself, so every burn-in step after the first commands the pitch the first one did |
| Gym7.BurnInNext | src/simpleWT_gym/simple_wt_gym_7.py:75-79 | one more control step, taken before burn_in_time after none or after j simulator steps, leaves clock, state, diagnostics, observation and both logs where j + n simulator steps take them (`Gym7.BurnInAfter`) |
| Gym7Env.SimpleWtGym7.MapOutputs | src/simpleWT_gym/simple_wt_gym_7.py:127-135 | the observation of a state is [wg_nom - w, pitch, Vx, the simulator's pitch_ref], and its reward is 0 exactly when w is wg_nom |
| Gym7Env.SimpleWtGym7.DoTerminate | src/simpleWT_gym/simple_wt_gym_7.py:86-92 | the episode is over exactly when ti >= t_max |
| Gym7Env.SimpleWtGym7.constructor | src/simpleWT_gym/simple_wt_gym_7.py:16-40 | stores the parameters, Vx = Vx_0, logging on with an empty log, a zero pitch increment, and a fresh simulator at x0 |
| Gym7Env.SimpleWtGym7.MapInputs | src/simpleWT_gym/simple_wt_gym_7.py:106-119 | records the increment and returns [clipped new pitch, Vx] with Vx unchanged |
| Gym7Env.SimpleWtGym7.ControlStep | src/simpleWT_gym/simple_wt_gym_7.py:53-60 | runs exactly n = int(control_time_step / dt) simulator steps with the same input: the state returned and held by the simulator is that of n integrator runs in a row, ti grows to ti + n * dt, the diagnostics are those of the last run, and with logging on the simulator log grows by the n entries of those runs, the k-th stamped ti + k * dt; with n = 0, `state` is unbound and a failure is returned with the simulator untouched |
| Gym7Env.SimpleWtGym7.LogCallback | src/simpleWT_gym/simple_wt_gym_7.py:137-159 | appends one entry when logging is on, and changes nothing otherwise. The entry holds the time, the increment, the eleven diagnostic fields the source logs (all but the power), Vx, the commanded pitch and the observation |
| Gym7Env.SimpleWtGym7.Step | src/simpleWT_gym/simple_wt_gym_7.py:42-51 | stores the mapped action, runs one control step, and stores its state and the observation of it; the simulator's pitch_ref is the clipped reference in [0, pi/2]; returns (observation, reward, ti >= t_max), so an episode already over stays over, and logs once; when the control step fails, no state, clock, log or observation changes, only the action and the increment |
| Gym7Env.SimpleWtGym7.BurnInStep | src/simpleWT_gym/simple_wt_gym_7.py:76-78 | one pass of the burn-in loop, `step` with a zero action: it fails exactly when a control step runs no simulator step, and otherwise leaves the environment where j + n simulator steps with the zero-action input take it |
| Gym7Env.SimpleWtGym7.RunBurnIn | src/simpleWT_gym/simple_wt_gym_7.py:75-79 | steps with a zero action while ti < burn_in_time. It counts k control steps of n = int(control_time_step / dt) simulator steps each. k = 0 exactly when ti >= burn_in_time already, and then nothing changes. Otherwise (`Gym7.BurnedIn`) the clock was before burn_in_time when the k-th step began and reached it after it. The clock, state and diagnostics are those of k * n integrator runs with the input [clipped old pitch_ref, Vx]. The reference, action and a zero increment are stored, and the observation of the final state is returned and stored. The simulator log grows by k * n entries and the environment log by one entry per control step (`Gym7.BurnInLog`). When a control step runs no simulator step, the first one fails with nothing changed |
| Gym7Env.SimpleWtGym7.Reset | src/simpleWT_gym/simple_wt_gym_7.py:62-79 | builds a fresh simulator at x0 with ti = 0, sets Vx = Vx_0 plus the wind draw, observes x0 and runs the burn-in. With burn_in_time <= 0, the result is the observation of x0 and the action, increment and log are unchanged. Otherwise the burn-in runs k control steps commanding the initial pitch throughout, with the clock, state, diagnostics, observation and logs that `Gym7.BurnedIn` gives for k * n steps from x0 at time 0. It fails exactly when a control step would run no simulator step |
| Gym2.PitchIncrement | src/simpleWT_gym/simple_wt_gym_2.py:87 | for abs(action) <= 1, abs(increment) <= radians(2) * abs(dt); a zero action gives no increment; for dt > 0 the increment has the action's sign |
| Gym2.ReferenceNotClamped | src/simpleWT_gym/simple_wt_gym_2.py:85-89 | there is no clip: a full negative action from a zero reference gives a negative reference, and a full positive one from pi/2 gives more than pi/2 |
| Gym2.Observation | src/simpleWT_gym/simple_wt_gym_2.py:95-101 | the observation is [wg_nom - w, pitch, Vx] in that order |
| Gym2.Reward | src/simpleWT_gym/simple_wt_gym_2.py:55-58 | the reward is never positive, and it is 0 exactly when the speed error is 0 |
| Gym2.RewardPeaksAtNominalSpeed | src/simpleWT_gym/simple_wt_gym_2.py:55-58 | the reward of a state's observation is 0 exactly at the nominal speed, and no state scores better than one at the nominal speed |
| Gym2.SimpleWtGym2.MapOutputs | src/simpleWT_gym/simple_wt_gym_2.py:95-101 | the observation of a state is [wg_nom - w, pitch, Vx], and its reward is 0 exactly when w is wg_nom |
| Gym2.SimpleWtGym2.DoTerminate | src/simpleWT_gym/simple_wt_gym_2.py:60-66 | the episode is over exactly when ti >= t_max |
| Gym2.SimpleWtGym2.constructor | src/simpleWT_gym/simple_wt_gym_2.py:15-34 | stores the parameters, a zero pitch increment, and a fresh simulator at x0 |
| Gym2.SimpleWtGym2.MapInputs | src/simpleWT_gym/simple_wt_gym_2.py:80-93 | records the increment and returns [pitch_ref + increment, Vx], unclipped, with Vx unchanged |
| Gym2.SimpleWtGym2.Step | src/simpleWT_gym/simple_wt_gym_2.py:36-45 | exactly one simulator step: ti grows by dt, the state is the integrator's final state, the diagnostics are those of its last evaluation, the simulator log grows by one entry stamped with the pre-step ti, and the simulator's pitch_ref becomes the old one plus the increment; returns (observation, reward, ti >= t_max), so an episode already over stays over |
| Gym2.SimpleWtGym2.Reset | src/simpleWT_gym/simple_wt_gym_2.py:47-53 | a fresh simulator at x0 with ti = 0, and the observation of x0 |

## Left out

- The RK45 integration is not modelled. `solve_ivp` is a foreign library with adaptive, floating-point error control, so it is a function-typed parameter of the simulator. It is given the `Math` record and the input, which fix the right-hand side. It returns a non-empty list of states, a success flag and the last state at which it evaluated the right-hand side. Its output is not proved to solve the equation.
- The diagnostic fields after a step are modelled by replaying the integrator's last evaluation. Every evaluation overwrites all twelve fields, so this gives the same fields.
- IEEE doubles are not modelled; everything is over exact reals. So `int(control_time_step / dt)` is exact truncation, and a float quotient such as 0.2 / 0.01 may round differently.
- pi, `np.exp` and `pitch ** c5` are uninterpreted. Nothing is proved about actual Cp or lambda_i values beyond the clips.
- The `logging.*` calls are not modelled.
- The gym spaces (`set_spaces`, `gym.spaces.Box`) are not modelled.
- `random_wind` is not modelled. It draws from `np.random`, so `Gym7Env.SimpleWtGym7.Reset` takes the draw as a parameter.
- The logging of `SimpleWtGym2` is not modelled. Its `log_callback` filters on the float modulo `ti % 0.1 < 0.01`, whose outcome depends on rounding.
- The gym constructors take every parameter explicitly. The source's defaults are not modelled: Vx = 18, wg_nom = 40, t_max = 40, burn_in_time = 0 and control_time_step = 0.2 for gym 7 (simple_wt_gym_7.py:16), and Vx = 18, wg_nom = 0.79, t_max = 40 for gym 2 (simple_wt_gym_2.py:15). The parameters the source accepts and ignores (inputFileName, Tem_ini, Pitch_ini, pg_nom, logging_level) are dropped.
- WtDynamics.TipSpeedRatio: requires v != 0. Called on its own with v = 0, the source raises ZeroDivisionError (numpy: inf or nan), which is not modelled; inside the right-hand side the clipped v is at least 1.8.
- WtDynamics.LambdaI: requires tsr + c8, pitch^3 + 1 and the bracket to be non-zero, for the same reason; on clipped inputs all three are positive (`WtDynamics.DenominatorsPositive`).
- WtDynamics.Cp: requires lambda_i != 0, for the same reason; lambda_i is positive on clipped inputs.
- WtDynamics.Tm: requires w != 0, for the same reason; the clipped w is at least 2.5.
- In both gyms, `reset` and `__init__` are merged. Each constructor builds the simulator that `reset` would, so `step` before `reset`, which raises AttributeError in the source, is not modelled.
- Gym7Env.SimpleWtGym7.RunBurnIn: the simulator's own log is stated only as growing by k * n entries, not entry by entry. `Gym7Env.SimpleWtGym7.Step` states those entries for each control step.
- Gym7Env.SimpleWtGym7.Reset: the same holds for the simulator log after the burn-in, which has k * n entries.
- The second-order actuator is modelled but not used by the ODE, as in the source, where its call is commented out.
- `WtDynamics.MechanicalTorqueBounds` needs v > 0 as well as w > 0, because v^3 has the sign of v. The clipped wind speed of an evaluation always satisfies it.
- The legacy `src/wt_dynamics.py` and `src/simple_wt_gym.py` are broken and are not part of this model.
- `src/simpleWT_gym/simple_wt_gym_4.py` is not part of this model. It repeats the reward and termination above with a pass-through `map_inputs`.
- The driver scripts under `example/` are not part of this model.
