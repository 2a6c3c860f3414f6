/**
 * `SimpleWtGym2`: the earlier control environment. The action is a
 * normalised pitch increment (1 stands for 2 degrees per second) added to
 * the last pitch reference with no clipping; one environment step is one
 * simulator step. The observation is (speed error, pitch, wind speed) and the
 * reward is minus the squared speed error.
 */
module Gym2 {
  import opened Numerics
  import opened Wrappers
  import opened WtDynamics
  import opened WtSimulator

  datatype Obs = Obs(errorWg: real, pitch: real, vx: real)

  /** The increment of the pitch reference for a normalised action over one
      simulator step dt: at most 2 degrees per second for a unit action. */
  function PitchIncrement(m: Math, action: real, dt: real): (inc: real)
    ensures Abs(action) <= 1.0 ==> Abs(inc) <= Radians(m, 2.0) * Abs(dt)
    ensures action == 0.0 ==> inc == 0.0
    ensures dt > 0.0 ==> (inc > 0.0 <==> action > 0.0)
  {
    var inc := action * Radians(m, 2.0) * dt;
    ScaledActionBound(action, Radians(m, 2.0), dt);
    inc
  }

  /** Without the clip, a reference may leave [0, pi/2]: a full negative action
      from a zero reference asks for a negative pitch, and a full positive one
      from pi/2 for more than pi/2. */
  lemma ReferenceNotClamped(m: Math, dt: real)
    requires dt > 0.0
    ensures 0.0 + PitchIncrement(m, -1.0, dt) < 0.0
    ensures PitchMax(m) + PitchIncrement(m, 1.0, dt) > PitchMax(m)
  {
  }

  /** `map_outputs` on a state, given wg_nom and Vx. */
  function Observation(wgNom: real, vx: real, s: State): (obs: Obs)
    ensures wgNom - obs.errorWg == s.w
    ensures obs.pitch == s.pitch && obs.vx == vx
  {
    Obs(wgNom - s.w, s.pitch, vx)
  }

  /** `reward`: minus the squared speed error, never positive and 0 exactly
      when there is no speed error. */
  function Reward(obs: Obs): (r: real)
    ensures r <= 0.0
    ensures r == 0.0 <==> obs.errorWg == 0.0
  {
    NegSquareZeroIff(obs.errorWg);
    NegSquare(obs.errorWg)
  }

  /** The reward of an observation of state s is 0 exactly at the nominal
      speed, and no state scores better than one there. */
  lemma RewardPeaksAtNominalSpeed(wgNom: real, vx: real, s: State)
    ensures Reward(Observation(wgNom, vx, s)) == 0.0 <==> s.w == wgNom
    ensures forall t: State :: Reward(Observation(wgNom, vx, t)) <= Reward(Observation(wgNom, vx, s.(w := wgNom)))
  {
    NegSquareZeroIff(Observation(wgNom, vx, s).errorWg);
    NegSquareZeroIff(Observation(wgNom, vx, s.(w := wgNom)).errorWg);
  }

  class SimpleWtGym2 {
    const math: Math
    const integrator: Integrator
    const vx: real
    const wgNom: real
    const tMax: real

    var pitchIncrement: real
    var wtSim: WindTurbineSimulator
    var state: State

    /** `__init__`, with the simulator that `reset` builds already in place. */
    constructor (m: Math, solver: Integrator, vx: real, wgNom: real, tMax: real)
      ensures math == m && integrator == solver
      ensures this.vx == vx && this.wgNom == wgNom && this.tMax == tMax
      ensures pitchIncrement == 0.0
      ensures fresh(wtSim) && fresh(wtSim.wt) && wtSim.ti == 0.0 && wtSim.x == X0
      ensures wtSim.wt.pitchRef == X0.pitch && wtSim.wt.math == m && state == X0
    {
      math := m;
      integrator := solver;
      this.vx := vx;
      this.wgNom := wgNom;
      this.tMax := tMax;
      pitchIncrement := 0.0;
      wtSim := new WindTurbineSimulator(m, solver);
      state := X0;
    }

    /** `map_outputs`: the observation of a state under this gym's wg_nom
        and Vx; its reward is 0 exactly at the nominal speed. */
    function MapOutputs(outputs: State): (o: Obs)
      reads this
      ensures o.errorWg == wgNom - outputs.w && o.pitch == outputs.pitch && o.vx == vx
      ensures Reward(o) == 0.0 <==> outputs.w == wgNom
    {
      Observation(wgNom, vx, outputs)
    }

    /** `do_terminate`: the episode ends once the clock reaches t_max. */
    function DoTerminate(): (done: bool)
      reads this, wtSim
      ensures done <==> wtSim.ti >= tMax
    {
      wtSim.ti >= tMax
    }

    /** `map_inputs`: records the increment and returns [pitch_ref + increment, Vx]. */
    method MapInputs(action: real) returns (inp: Input)
      modifies this`pitchIncrement
      ensures pitchIncrement == PitchIncrement(math, action, wtSim.dt)
      ensures inp == Input(wtSim.wt.pitchRef + pitchIncrement, vx)
    {
      pitchIncrement := PitchIncrement(math, action, wtSim.dt);
      var newPitch := wtSim.wt.pitchRef + pitchIncrement;
      inp := Input(newPitch, vx);
    }

    /** `step(action)`: map the action, one simulator step, observe, reward
        and test for termination. */
    method Step(action: real) returns (res: StepResult<Obs>)
      modifies this, wtSim, wtSim.wt
      ensures wtSim == old(wtSim) && wtSim.enableMyLog == old(wtSim.enableMyLog)
      ensures pitchIncrement == PitchIncrement(math, action, wtSim.dt)
      ensures var inp := Input(old(wtSim.wt.pitchRef) + pitchIncrement, vx);
        && wtSim.ti == old(wtSim.ti) + wtSim.dt
        && state == wtSim.x == Final(old(wtSim.Integrate(inp)))
        && wtSim.wt.Diag() == StepDiag(wtSim.solveIvp, wtSim.wt.math, inp, old(wtSim.ti), old(wtSim.x), wtSim.dt, 0)
        && wtSim.myLog == if wtSim.enableMyLog
           then old(wtSim.myLog) + [LogEntry(old(wtSim.ti), wtSim.wt.Diag())]
           else old(wtSim.myLog)
      ensures wtSim.wt.pitchRef == old(wtSim.wt.pitchRef) + pitchIncrement
      ensures res == StepResult(Observation(wgNom, vx, state), Reward(Observation(wgNom, vx, state)),
                                wtSim.ti >= tMax)
      ensures old(wtSim.ti) >= tMax ==> res.done
    {
      var actions := MapInputs(action);
      state := wtSim.Step(actions);
      var obs := MapOutputs(state);
      var reward := Reward(obs);
      var done := DoTerminate();
      return StepResult(obs, reward, done);
    }

    /** `reset`: a fresh simulator and the observation of its initial state. */
    method Reset() returns (obs: Obs)
      modifies this
      ensures fresh(wtSim) && fresh(wtSim.wt) && wtSim.wt.math == math
      ensures wtSim.ti == 0.0 && wtSim.x == X0 && wtSim.wt.pitchRef == X0.pitch
      ensures wtSim.solveIvp == integrator && wtSim.enableMyLog && wtSim.myLog == []
      ensures state == X0 && obs == Observation(wgNom, vx, X0)
      ensures pitchIncrement == old(pitchIncrement)
    {
      wtSim := new WindTurbineSimulator(math, integrator);
      state := wtSim.wt.x0;
      obs := MapOutputs(state);
    }
  }
}
