/**
 * `SimpleWtGym7`: a control environment over the simulator. The action is a
 * normalised pitch increment (1 stands for 5 degrees per second) added to the
 * last pitch reference and clipped to [0, 90] degrees; one environment step
 * holds that input for control_time_step seconds of simulation. The
 * observation is (speed error, pitch, wind speed, pitch reference) and the
 * reward is minus the squared speed error.
 */
module Gym7 {
  import opened Numerics
  import opened Wrappers
  import opened WtDynamics
  import opened WtSimulator

  datatype Obs = Obs(errorWg: real, pitch: real, vx: real, pitchRef: real)

  /** `control_step` ran no simulator step, so its `state` was never bound. */
  datatype GymError = StateUnbound

  /** One entry of the environment's log: the time, the pitch increment, the
      dynamics' diagnostic fields except the power, the wind speed, the
      commanded pitch and the observation. */
  datatype GymLogEntry = GymLogEntry(
    time: real, pitchIncrement: real,
    cp: real, lambdaI: real, lambda: real, tem: real, tm: real, ia: real, ea: real,
    w: real, pitch: real, dpitch: real, pitchRef: real,
    vx: real, actionPitch: real, obs: Obs)

  /** The entry `log_callback` appends, given the diagnostics it reads. */
  function GymEntry(time: real, inc: real, d: Diagnostics, vx: real, actionPitch: real, obs: Obs): GymLogEntry
  {
    GymLogEntry(time, inc, d.cp, d.lambdaI, d.lambda, d.tem, d.tm, d.ia, d.ea,
                d.w, d.pitch, d.dpitch, d.pitchRef, vx, actionPitch, obs)
  }

  /** The increment of the pitch reference for a normalised action. */
  function PitchIncrement(m: Math, action: real, controlTimeStep: real): (inc: real)
    ensures Abs(action) <= 1.0 ==> Abs(inc) <= MaxPitchRate(m) * Abs(controlTimeStep)
    ensures action == 0.0 ==> inc == 0.0
    ensures controlTimeStep > 0.0 ==> (inc > 0.0 <==> action > 0.0)
  {
    var inc := action * Radians(m, 5.0) * controlTimeStep;
    ScaledActionBound(action, MaxPitchRate(m), controlTimeStep);
    inc
  }

  /** The new pitch reference: the old one plus the increment, clipped to [0, pi/2]. */
  function NewPitch(m: Math, pitchRef: real, inc: real): (p: real)
    ensures 0.0 <= p <= PitchMax(m)
    ensures 0.0 <= pitchRef + inc <= PitchMax(m) ==> p == pitchRef + inc
    ensures pitchRef + inc > PitchMax(m) ==> p == PitchMax(m)
    ensures pitchRef + inc < 0.0 ==> p == 0.0
  {
    Clip(pitchRef + inc, 0.0, PitchMax(m))
  }

  /** From a reference already in range, the clipped reference moves by no
      more than the increment, so by at most 5 degrees per second of
      control time for a unit action. */
  lemma ReferenceRateLimited(m: Math, pitchRef: real, action: real, controlTimeStep: real)
    requires 0.0 <= pitchRef <= PitchMax(m) && Abs(action) <= 1.0
    ensures var inc := PitchIncrement(m, action, controlTimeStep);
      Abs(NewPitch(m, pitchRef, inc) - pitchRef) <= Abs(inc) <= MaxPitchRate(m) * Abs(controlTimeStep)
  {
    var inc := PitchIncrement(m, action, controlTimeStep);
    var p := NewPitch(m, pitchRef, inc);
    if pitchRef + inc > PitchMax(m) {
      assert 0.0 <= p - pitchRef <= inc;
    } else if pitchRef + inc < 0.0 {
      assert inc <= p - pitchRef <= 0.0;
    }
  }

  /** `map_outputs` on a state, given wg_nom, Vx and the recorded pitch
      reference: [wg_nom - w, pitch, Vx, pitch_ref]. */
  function Observation(wgNom: real, vx: real, pitchRef: real, s: State): (obs: Obs)
    ensures wgNom - obs.errorWg == s.w
    ensures obs.pitch == s.pitch && obs.vx == vx && obs.pitchRef == pitchRef
  {
    Obs(wgNom - s.w, s.pitch, vx, pitchRef)
  }

  /** `reward`: minus the squared speed error, never positive and 0 exactly
      when there is no speed error. */
  function Reward(obs: Obs): (r: real)
    ensures r <= 0.0
    ensures r == 0.0 <==> obs.errorWg == 0.0
  {
    NegSquareZeroIff(obs.errorWg);
    NegSquare(obs.errorWg)
  }

  /** The reward of an observation of state s is 0 exactly at the nominal
      speed, and no state scores better than one there. */
  lemma RewardPeaksAtNominalSpeed(wgNom: real, vx: real, pitchRef: real, s: State)
    ensures Reward(Observation(wgNom, vx, pitchRef, s)) == 0.0 <==> s.w == wgNom
    ensures forall t: State :: Reward(Observation(wgNom, vx, pitchRef, t)) <= Reward(Observation(wgNom, vx, pitchRef, s.(w := wgNom)))
  {
  }

  /** How many simulator steps `control_step` runs: int(control_time_step / dt). */
  function ControlSteps(controlTimeStep: real, dt: real): (n: int)
    requires dt > 0.0
    ensures n >= 1 <==> controlTimeStep >= dt
    ensures n >= 0 ==> n as real * dt <= Abs(controlTimeStep)
  {
    var q := controlTimeStep / dt;
    var n := Trunc(q);
    assert dt * q == controlTimeStep;
    assert n >= 0 ==> n as real * dt <= Abs(controlTimeStep) by {
      if n >= 0 && controlTimeStep >= 0.0 {
        calc {
          n as real * dt;
        ==
          dt * (n as real);
        <= { MulMono(dt, n as real, q); }
          dt * q;
        ==
          controlTimeStep;
        }
      }
    }
    assert n >= 1 ==> controlTimeStep >= dt by {
      if n >= 1 {
        calc {
          controlTimeStep;
        ==
          dt * q;
        >= { MulMono(dt, 1.0, q); }
          dt * 1.0;
        ==
          dt;
        }
      }
    }
    assert controlTimeStep >= dt ==> n >= 1 by {
      if controlTimeStep >= dt {
        calc {
          q;
        ==
          (1.0 / dt) * controlTimeStep;
        >= { MulMono(1.0 / dt, dt, controlTimeStep); }
          (1.0 / dt) * dt;
        ==
          1.0;
        }
      }
    }
    n
  }

  /** While the clock after j steps of length dt from t0 is still before
      the target time, j is at most the whole number of steps that fit
      between t0 and the target: the burn-in loop cannot run forever. */
  lemma StepsBelow(t0: real, dt: real, j: nat, target: real)
    requires dt > 0.0 && Clock(t0, dt, j) < target
    ensures j <= ((target - t0) / dt).Floor
  {
    ClockLinear(t0, dt, j);
    var q := (target - t0) / dt;
    calc {
      j as real;
    ==
      (1.0 / dt) * (j as real * dt);
    < { MulStrict(1.0 / dt, j as real * dt, target - t0); }
      (1.0 / dt) * (target - t0);
    ==
      q;
    }
  }

  /** A zero action leaves a reference already in [0, pi/2] where it is, so
      every burn-in step after the first commands the same pitch. */
  lemma ZeroActionKeepsPitch(m: Math, pitchRef: real)
    ensures NewPitch(m, NewPitch(m, pitchRef, 0.0), 0.0) == NewPitch(m, pitchRef, 0.0)
    ensures 0.0 <= pitchRef <= PitchMax(m) ==> NewPitch(m, pitchRef, 0.0) == pitchRef
  {
    var p := NewPitch(m, pitchRef, 0.0);
    assert p + 0.0 == p;
  }

  /**
   * The environment log of a burn-in whose control steps are n >= 1
   * simulator steps each, all with input u, from state x at time t, up to
   * the control step that ends after j simulator steps: one entry per
   * control step, ending after j, j - n, j - 2n, ... steps, oldest first,
   * each stamped with the clock then, with a zero increment, the
   * diagnostics of the last simulator step, the commanded pitch and the
   * observation of the state reached.
   */
  function BurnInLog(integ: Integrator, m: Math, u: Input, t: real, x: State, dt: real, n: nat,
                     wgNom: real, vx: real, j: nat): (log: seq<GymLogEntry>)
    requires n >= 1
  {
    if j < n then []
    else
      BurnInLog(integ, m, u, t, x, dt, n, wgNom, vx, j - n)
      + [GymEntry(Clock(t, dt, j), 0.0, StepDiag(integ, m, u, t, x, dt, j - 1), vx, u.pitchRef,
                  Observation(wgNom, vx, u.pitchRef, RunSteps(integ, m, u, t, x, dt, j)))]
  }

  /**
   * Where burn-in control steps of n simulator steps each, j >= n
   * simulator steps in all, with input u throughout, take the run that
   * starts at time t0 in state x0: the clock t (and the one before the last
   * control step, still short of the burn-in time), the state x, the
   * diagnostics d, the observation o, the simulator's log slog grown from
   * slog0 by one entry per simulator step when it logs, and the
   * environment's log glog grown from glog0 by BurnInLog when it logs.
   */
  ghost predicate BurnInAfter(integ: Integrator, m: Math, u: Input, t0: real, x0: State, dt: real, n: int,
                              j: nat, wgNom: real, burnInTime: real,
                              t: real, x: State, d: Diagnostics, o: Obs,
                              logging: bool, slog0: seq<LogEntry>, slog: seq<LogEntry>,
                              glogging: bool, glog0: seq<GymLogEntry>, glog: seq<GymLogEntry>)
  {
    && n >= 1 && j >= n
    && Clock(t0, dt, j - n) < burnInTime
    && t == Clock(t0, dt, j)
    && x == RunSteps(integ, m, u, t0, x0, dt, j)
    && d == StepDiag(integ, m, u, t0, x0, dt, j - 1)
    && o == Observation(wgNom, u.windSpeed, u.pitchRef, x)
    && slog0 <= slog && |slog| == |slog0| + (if logging then j else 0)
    && glog == glog0 + (if glogging then BurnInLog(integ, m, u, t0, x0, dt, n, wgNom, u.windSpeed, j) else [])
  }

  /**
   * Burn-in is over after k >= 1 control steps of n simulator steps each:
   * the clock was still before the burn-in time when the k-th began and
   * has reached it after it, and everything stands where k * n simulator
   * steps with input u take it (BurnInAfter).
   */
  ghost predicate BurnedIn(integ: Integrator, m: Math, u: Input, t0: real, x0: State, dt: real, n: int,
                           k: nat, wgNom: real, burnInTime: real,
                           t: real, x: State, d: Diagnostics, o: Obs,
                           logging: bool, slog0: seq<LogEntry>, slog: seq<LogEntry>,
                           glogging: bool, glog0: seq<GymLogEntry>, glog: seq<GymLogEntry>)
  {
    && k >= 1 && n >= 1 && burnInTime <= t
    && BurnInAfter(integ, m, u, t0, x0, dt, n, k * n, wgNom, burnInTime, t, x, d, o,
                   logging, slog0, slog, glogging, glog0, glog)
  }

  /** One more control step of n >= 1 simulator steps with input u, taken
      while the clock is before the burn-in time, after none (j = 0) or
      after j >= n simulator steps of them, leaves behind what j + n
      simulator steps of them do. */
  lemma BurnInNext(integ: Integrator, m: Math, u: Input, t0: real, x0: State, dt: real, n: nat,
                   j: nat, wgNom: real, burnInTime: real,
                   t: real, x: State, d: Diagnostics, o: Obs,
                   t': real, x': State, d': Diagnostics, o': Obs,
                   logging: bool, slog0: seq<LogEntry>, slog: seq<LogEntry>, slog': seq<LogEntry>,
                   glogging: bool, glog0: seq<GymLogEntry>, glog: seq<GymLogEntry>, glog': seq<GymLogEntry>)
    requires n >= 1 && t < burnInTime
    requires j == 0 ==> t == t0 && x == x0 && slog == slog0 && glog == glog0
    requires j > 0 ==>
      BurnInAfter(integ, m, u, t0, x0, dt, n, j, wgNom, burnInTime, t, x, d, o,
                  logging, slog0, slog, glogging, glog0, glog)
    requires Advanced(integ, m, u, t, x, dt, n, logging, slog, t', x', d', slog')
    requires o' == Observation(wgNom, u.windSpeed, u.pitchRef, x')
    requires glog' == if glogging then glog + [GymEntry(t', 0.0, d', u.windSpeed, u.pitchRef, o')] else glog
    ensures BurnInAfter(integ, m, u, t0, x0, dt, n, j + n, wgNom, burnInTime, t', x', d', o',
                        logging, slog0, slog', glogging, glog0, glog')
  {
    assert t == Clock(t0, dt, j) && x == RunSteps(integ, m, u, t0, x0, dt, j);
    RunExtends(integ, m, u, t0, x0, dt, j, n, t, x, t', x', d');
    BurnInLogNext(integ, m, u, t0, x0, dt, n, wgNom, u.windSpeed, j);
  }

  /** The burn-in log after j + n steps is the one after j steps and the
      entry of the control step that ends at step j + n. */
  lemma BurnInLogNext(integ: Integrator, m: Math, u: Input, t: real, x: State, dt: real, n: nat,
                      wgNom: real, vx: real, j: nat)
    requires n >= 1
    ensures BurnInLog(integ, m, u, t, x, dt, n, wgNom, vx, j + n)
         == BurnInLog(integ, m, u, t, x, dt, n, wgNom, vx, j)
            + [GymEntry(Clock(t, dt, j + n), 0.0, StepDiag(integ, m, u, t, x, dt, j + n - 1), vx, u.pitchRef,
                        Observation(wgNom, vx, u.pitchRef, RunSteps(integ, m, u, t, x, dt, j + n)))]
  {
  }

}

/**
 * The environment object itself: its state and the methods `step`,
 * `control_step`, `reset` and `run_burn_in` update it with, specified by
 * the functions and lemmas of Gym7.
 */
module Gym7Env {
  import opened Numerics
  import opened Wrappers
  import opened WtDynamics
  import opened WtSimulator
  import opened Gym7

  class SimpleWtGym7 {
    const math: Math
    const integrator: Integrator
    const controlTimeStep: real
    const vx0: real
    const wgNom: real
    const tMax: real
    const burnInTime: real

    var vx: real
    var enableMyLog: bool
    var myLog: seq<GymLogEntry>
    var pitchIncrement: real
    var wtSim: WindTurbineSimulator
    var state: State
    var actions: Input
    var obs: Obs

    /** `__init__`, with the simulator that `reset` builds already in place. */
    constructor (m: Math, solver: Integrator, vx: real, wgNom: real, tMax: real,
                 burnInTime: real, controlTimeStep: real)
      ensures math == m && integrator == solver
      ensures this.controlTimeStep == controlTimeStep && vx0 == vx && this.vx == vx
      ensures this.wgNom == wgNom && this.tMax == tMax && this.burnInTime == burnInTime
      ensures enableMyLog && myLog == [] && pitchIncrement == 0.0
      ensures fresh(wtSim) && fresh(wtSim.wt) && wtSim.ti == 0.0 && wtSim.x == X0
      ensures wtSim.wt.pitchRef == X0.pitch && wtSim.wt.math == m
    {
      math := m;
      integrator := solver;
      this.controlTimeStep := controlTimeStep;
      vx0 := vx;
      this.vx := vx;
      this.wgNom := wgNom;
      this.tMax := tMax;
      this.burnInTime := burnInTime;
      enableMyLog := true;
      myLog := [];
      pitchIncrement := 0.0;
      wtSim := new WindTurbineSimulator(m, solver);
      state := X0;
      actions := Input(X0.pitch, vx);
      obs := Observation(wgNom, vx, X0.pitch, X0);
    }

    /** `map_outputs`: the observation of a state under this gym's wg_nom
        and Vx and the simulator's last pitch reference; its reward is 0
        exactly at the nominal speed. */
    function MapOutputs(outputs: State): (o: Obs)
      reads this, wtSim, wtSim.wt
      ensures o.errorWg == wgNom - outputs.w && o.pitch == outputs.pitch
      ensures o.vx == vx && o.pitchRef == wtSim.wt.pitchRef
      ensures Reward(o) == 0.0 <==> outputs.w == wgNom
    {
      Observation(wgNom, vx, wtSim.wt.pitchRef, outputs)
    }

    /** `do_terminate`: the episode ends once the clock reaches t_max. */
    function DoTerminate(): (done: bool)
      reads this, wtSim
      ensures done <==> wtSim.ti >= tMax
    {
      wtSim.ti >= tMax
    }

    /** `map_inputs`: records the increment and returns [new_pitch, Vx]. */
    method MapInputs(action: real) returns (inp: Input)
      modifies this`pitchIncrement
      ensures pitchIncrement == PitchIncrement(math, action, controlTimeStep)
      ensures inp == Input(NewPitch(math, wtSim.wt.pitchRef, pitchIncrement), vx)
    {
      pitchIncrement := PitchIncrement(math, action, controlTimeStep);
      var newPitch := NewPitch(math, wtSim.wt.pitchRef, pitchIncrement);
      inp := Input(newPitch, vx);
    }

    /** `control_step`: int(control_time_step / dt) simulator steps with the
        same input, returning the last state; with none, `state` is unbound. */
    method ControlStep(inp: Input) returns (res: Result<State, GymError>)
      modifies wtSim, wtSim.wt
      ensures var n := ControlSteps(controlTimeStep, wtSim.dt);
        && (res.Failure? <==> n < 1)
        && (res.Failure? ==> wtSim.ti == old(wtSim.ti) && wtSim.x == old(wtSim.x)
                             && wtSim.myLog == old(wtSim.myLog) && wtSim.wt.Diag() == old(wtSim.wt.Diag()))
        && (res.Success? ==>
              && res.value == wtSim.x
              && Advanced(wtSim.solveIvp, wtSim.wt.math, inp, old(wtSim.ti), old(wtSim.x), wtSim.dt, n,
                          wtSim.enableMyLog, old(wtSim.myLog), wtSim.ti, wtSim.x, wtSim.wt.Diag(), wtSim.myLog)
              && wtSim.wt.pitchRef == inp.pitchRef)
      ensures wtSim.enableMyLog == old(wtSim.enableMyLog)
    {
      var steps := ControlSteps(controlTimeStep, wtSim.dt);
      if steps < 1 {
        return Failure(StateUnbound);
      }
      ghost var integ, m, dt := wtSim.solveIvp, wtSim.wt.math, wtSim.dt;
      ghost var t0, x0, log0 := wtSim.ti, wtSim.x, wtSim.myLog;
      ghost var logging := wtSim.enableMyLog;
      var last := wtSim.x;
      var i: nat := 0;
      while i < steps
        invariant i <= steps
        invariant wtSim.enableMyLog == logging && last == wtSim.x
        invariant i == 0 ==> wtSim.ti == t0 && wtSim.x == x0 && wtSim.myLog == log0
        invariant i >= 1 ==>
          && Advanced(integ, m, inp, t0, x0, dt, i, logging, log0, wtSim.ti, wtSim.x, wtSim.wt.Diag(), wtSim.myLog)
          && wtSim.wt.pitchRef == inp.pitchRef
      {
        ghost var t, x, d, log, run := wtSim.ti, wtSim.x, wtSim.wt.Diag(), wtSim.myLog, wtSim.Integrate(inp);
        last := wtSim.Step(inp);
        StepExtendsRun(integ, m, inp, t0, x0, dt, i, log0, logging, t, x, d, log,
                       run, wtSim.ti, wtSim.x, wtSim.myLog, wtSim.wt.Diag());
        i := i + 1;
      }
      return Success(last);
    }

    /** `log_callback`. */
    method LogCallback()
      modifies this`myLog
      ensures myLog == if enableMyLog
        then old(myLog) + [GymEntry(wtSim.ti, pitchIncrement, wtSim.wt.Diag(), vx, actions.pitchRef, obs)]
        else old(myLog)
    {
      if enableMyLog {
        myLog := myLog + [GymEntry(wtSim.ti, pitchIncrement, wtSim.wt.Diag(), vx, actions.pitchRef, obs)];
      }
    }

    /** `step(action)`: map the action, hold it for one control step, observe,
        reward, test for termination and log. */
    method Step(action: real) returns (res: Result<StepResult<Obs>, GymError>)
      modifies this, wtSim, wtSim.wt
      ensures wtSim == old(wtSim) && vx == old(vx) && enableMyLog == old(enableMyLog)
      ensures wtSim.enableMyLog == old(wtSim.enableMyLog)
      ensures pitchIncrement == PitchIncrement(math, action, controlTimeStep)
      ensures actions == Input(NewPitch(math, old(wtSim.wt.pitchRef), pitchIncrement), vx)
      ensures var n := ControlSteps(controlTimeStep, wtSim.dt);
        && (res.Failure? <==> n < 1)
        && (res.Failure? ==> wtSim.ti == old(wtSim.ti) && wtSim.x == old(wtSim.x)
                             && wtSim.wt.Diag() == old(wtSim.wt.Diag()) && wtSim.myLog == old(wtSim.myLog)
                             && myLog == old(myLog) && state == old(state) && obs == old(obs))
        && (res.Success? ==>
              && Advanced(wtSim.solveIvp, wtSim.wt.math, actions, old(wtSim.ti), old(wtSim.x), wtSim.dt, n,
                          wtSim.enableMyLog, old(wtSim.myLog), wtSim.ti, wtSim.x, wtSim.wt.Diag(), wtSim.myLog)
              && state == wtSim.x
              && wtSim.wt.pitchRef == actions.pitchRef
              && 0.0 <= wtSim.wt.pitchRef <= PitchMax(math)
              && obs == Observation(wgNom, vx, actions.pitchRef, state)
              && res.value == StepResult(obs, Reward(obs), wtSim.ti >= tMax)
              && (old(wtSim.ti) >= tMax ==> res.value.done)
              && myLog == if enableMyLog
                 then old(myLog) + [GymEntry(wtSim.ti, pitchIncrement, wtSim.wt.Diag(), vx, actions.pitchRef, obs)]
                 else old(myLog))
    {
      actions := MapInputs(action);
      var st := ControlStep(actions);
      if st.Failure? {
        return Failure(st.error);
      }
      state := st.value;
      obs := MapOutputs(state);
      var reward := Reward(obs);
      var done := DoTerminate();
      LogCallback();
      return Success(StepResult(obs, reward, done));
    }

    /**
     * One pass of the `run_burn_in` loop, `step` with a zero action, seen as
     * the control step after the first j simulator steps of a burn-in that
     * started at time t0 in state x0 and commands u throughout: it fails only
     * when a control step runs no simulator step, and otherwise leaves behind
     * what j + n simulator steps do.
     */
    method BurnInStep(ghost n: int, ghost j: nat, ghost t0: real, ghost x0: State, ghost u: Input,
                      ghost slog0: seq<LogEntry>, ghost glog0: seq<GymLogEntry>)
      returns (res: Result<StepResult<Obs>, GymError>)
      modifies this, wtSim, wtSim.wt
      requires n == ControlSteps(controlTimeStep, wtSim.dt)
      requires wtSim.ti < burnInTime && u == Input(NewPitch(math, wtSim.wt.pitchRef, 0.0), vx)
      requires j == 0 ==> wtSim.ti == t0 && wtSim.x == x0 && wtSim.myLog == slog0 && myLog == glog0
      requires j > 0 ==>
        BurnInAfter(wtSim.solveIvp, wtSim.wt.math, u, t0, x0, wtSim.dt, n,
                    j, wgNom, burnInTime, wtSim.ti, wtSim.x, wtSim.wt.Diag(), obs,
                    wtSim.enableMyLog, slog0, wtSim.myLog, enableMyLog, glog0, myLog)
      ensures wtSim == old(wtSim) && vx == old(vx)
      ensures enableMyLog == old(enableMyLog) && wtSim.enableMyLog == old(wtSim.enableMyLog)
      ensures res.Failure? <==> n < 1
      ensures res.Failure? ==>
        j == 0 && wtSim.ti == old(wtSim.ti) && wtSim.x == old(wtSim.x) && state == old(state)
        && obs == old(obs) && myLog == old(myLog) && wtSim.myLog == old(wtSim.myLog)
      ensures res.Success? ==>
        && BurnInAfter(wtSim.solveIvp, wtSim.wt.math, u, t0, x0, wtSim.dt, n,
                       j + n, wgNom, burnInTime,
                       wtSim.ti, wtSim.x, wtSim.wt.Diag(), obs,
                       wtSim.enableMyLog, slog0, wtSim.myLog, enableMyLog, glog0, myLog)
        && state == wtSim.x && wtSim.wt.pitchRef == u.pitchRef && actions == u
        && pitchIncrement == 0.0 && res.value.obs == obs
    {
      ghost var t, x, d, ob := wtSim.ti, wtSim.x, wtSim.wt.Diag(), obs;
      ghost var slog, glog := wtSim.myLog, myLog;
      res := Step(0.0);
      if res.Failure? {
        return;
      }
      assert actions == u;
      BurnInNext(wtSim.solveIvp, wtSim.wt.math, u, t0, x0, wtSim.dt, n,
                 j, wgNom, burnInTime, t, x, d, ob, wtSim.ti, wtSim.x, wtSim.wt.Diag(), obs,
                 wtSim.enableMyLog, slog0, slog, wtSim.myLog, enableMyLog, glog0, glog, myLog);
    }

    /**
     * `run_burn_in`: step with a zero action while the clock is before
     * burn_in_time. The ghost k counts the control steps taken: none when the
     * clock has already reached burn_in_time, otherwise exactly as many as
     * it takes to reach it, each commanding the reference a zero action
     * keeps.
     */
    method RunBurnIn(obs0: Obs) returns (res: Result<Obs, GymError>, ghost k: nat)
      modifies this, wtSim, wtSim.wt
      ensures wtSim == old(wtSim) && vx == old(vx)
      ensures enableMyLog == old(enableMyLog) && wtSim.enableMyLog == old(wtSim.enableMyLog)
      ensures res.Failure? <==> old(wtSim.ti) < burnInTime && ControlSteps(controlTimeStep, wtSim.dt) < 1
      ensures res.Failure? ==>
        k == 0 && wtSim.ti == old(wtSim.ti) && wtSim.x == old(wtSim.x) && state == old(state)
        && obs == old(obs) && myLog == old(myLog) && wtSim.myLog == old(wtSim.myLog)
      ensures k == 0 <==> old(wtSim.ti) >= burnInTime || res.Failure?
      ensures k == 0 && res.Success? ==>
        res.value == obs0 && wtSim.ti == old(wtSim.ti) && wtSim.x == old(wtSim.x)
        && wtSim.wt.Diag() == old(wtSim.wt.Diag()) && wtSim.myLog == old(wtSim.myLog)
        && state == old(state) && obs == old(obs) && actions == old(actions)
        && pitchIncrement == old(pitchIncrement) && myLog == old(myLog)
      ensures k >= 1 ==>
        var u := Input(NewPitch(math, old(wtSim.wt.pitchRef), 0.0), vx);
        && res.Success?
        && BurnedIn(wtSim.solveIvp, wtSim.wt.math, u, old(wtSim.ti), old(wtSim.x), wtSim.dt,
                    ControlSteps(controlTimeStep, wtSim.dt), k, wgNom, burnInTime,
                    wtSim.ti, wtSim.x, wtSim.wt.Diag(), obs,
                    wtSim.enableMyLog, old(wtSim.myLog), wtSim.myLog, enableMyLog, old(myLog), myLog)
        && state == wtSim.x && wtSim.wt.pitchRef == u.pitchRef && actions == u
        && pitchIncrement == 0.0 && res.value == obs
    {
      ghost var t0, x0, p0 := wtSim.ti, wtSim.x, wtSim.wt.pitchRef;
      ghost var slog0, glog0 := wtSim.myLog, myLog;
      ghost var u := Input(NewPitch(math, p0, 0.0), vx);
      ghost var n := ControlSteps(controlTimeStep, wtSim.dt);
      ghost var bound := ((burnInTime - t0) / wtSim.dt).Floor;
      ghost var j: nat := 0;
      var o := obs0;
      k := 0;
      while wtSim.ti < burnInTime
        invariant wtSim == old(wtSim) && vx == old(vx)
        invariant enableMyLog == old(enableMyLog) && wtSim.enableMyLog == old(wtSim.enableMyLog)
        invariant j == k * n
        invariant k == 0 ==>
          wtSim.ti == t0 && wtSim.x == x0 && wtSim.wt.pitchRef == p0 && o == obs0
          && wtSim.wt.Diag() == old(wtSim.wt.Diag()) && wtSim.myLog == slog0
          && state == old(state) && obs == old(obs) && actions == old(actions)
          && pitchIncrement == old(pitchIncrement) && myLog == glog0
        invariant k >= 1 ==>
          && BurnInAfter(wtSim.solveIvp, wtSim.wt.math, u, t0, x0, wtSim.dt, n,
                         j, wgNom, burnInTime, wtSim.ti, wtSim.x, wtSim.wt.Diag(), obs,
                         wtSim.enableMyLog, slog0, wtSim.myLog, enableMyLog, glog0, myLog)
          && state == wtSim.x && wtSim.wt.pitchRef == u.pitchRef && actions == u
          && pitchIncrement == 0.0 && o == obs
        decreases bound - j
      {
        StepsBelow(t0, wtSim.dt, j, burnInTime);
        ZeroActionKeepsPitch(math, p0);
        var r := BurnInStep(n, j, t0, x0, u, slog0, glog0);
        if r.Failure? {
          return Failure(r.error), k;
        }
        o := r.value.obs;
        assert (k + 1) * n == j + n;
        j := j + n;
        k := k + 1;
      }
      return Success(o), k;
    }

    /** `reset`: a fresh simulator, the wind drawn anew (the random draw from
        [-0.15, 0.15) is a parameter), the initial observation, then burn-in.
        The burn-in commands the initial pitch 0 throughout. */
    method Reset(windDraw: real) returns (res: Result<Obs, GymError>, ghost k: nat)
      modifies this
      ensures fresh(wtSim) && fresh(wtSim.wt) && wtSim.wt.math == math && wtSim.solveIvp == integrator
      ensures vx == vx0 + windDraw
      ensures enableMyLog == old(enableMyLog) && wtSim.enableMyLog
      ensures res.Failure? <==> 0.0 < burnInTime && ControlSteps(controlTimeStep, wtSim.dt) < 1
      ensures res.Failure? ==> k == 0 && wtSim.ti == 0.0 && state == X0 && myLog == old(myLog) && wtSim.myLog == []
      ensures k == 0 <==> burnInTime <= 0.0 || res.Failure?
      ensures k == 0 && res.Success? ==>
        res.value == obs == Observation(wgNom, vx, X0.pitch, X0) && wtSim.ti == 0.0 && state == wtSim.x == X0
        && wtSim.myLog == [] && actions == old(actions) && pitchIncrement == old(pitchIncrement)
        && myLog == old(myLog)
      ensures k >= 1 ==>
        var u := Input(X0.pitch, vx);
        && res.Success?
        && BurnedIn(integrator, math, u, 0.0, X0, wtSim.dt, ControlSteps(controlTimeStep, wtSim.dt), k,
                    wgNom, burnInTime, wtSim.ti, wtSim.x, wtSim.wt.Diag(), obs,
                    true, [], wtSim.myLog, enableMyLog, old(myLog), myLog)
        && state == wtSim.x && wtSim.wt.pitchRef == X0.pitch && actions == u
        && pitchIncrement == 0.0 && res.value == obs
    {
      wtSim := new WindTurbineSimulator(math, integrator);
      state := wtSim.wt.x0;
      vx := vx0 + windDraw;
      obs := MapOutputs(state);
      ZeroActionKeepsPitch(math, X0.pitch);
      res, k := RunBurnIn(obs);
      if res.Success? {
        obs := res.value;
      }
    }
  }
}
