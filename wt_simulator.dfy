/**
 * `WindTurbineSimulator`: owns the state x and the clock ti, and advances
 * them by one macro step dt per call, through an integrator it is given.
 */
module WtSimulator {
  import opened Numerics
  import opened WtDynamics

  /**
   * What the integrator reports about one run: the states at its output
   * times (never empty; the last is the state at the end of the interval),
   * whether it succeeded, and the state at which it evaluated the
   * right-hand side last.
   */
  datatype IvpResult = IvpResult(ys: seq<State>, success: bool, lastEval: State)

  type Solution = s: IvpResult | |s.ys| > 0
    witness IvpResult([X0], true, X0)

  /**
   * `solve_ivp` (RK45) applied to `wind_turbine_ode` with `args=(u,)`: it
   * integrates t, x |-> Derivative(m, x, u).dxdt over [t0, tf] from x0. The
   * right-hand side is fixed by (m, u), so the integrator is given those.
   */
  type Integrator = (Math, Input, real, real, State) -> Solution

  function Final(s: Solution): (x: State)
    ensures x in s.ys
  {
    s.ys[|s.ys| - 1]
  }

  /** One entry of `myLog`: the time stamp and the recorded diagnostics. */
  datatype LogEntry = LogEntry(time: real, diag: Diagnostics)

  /** The simulator clock after k steps of length dt from time t: each step
      adds dt to it. */
  function Clock(t: real, dt: real, k: nat): (c: real)
    ensures dt > 0.0 ==> c >= t
    ensures dt > 0.0 && k >= 1 ==> c >= t + dt
  {
    if k == 0 then t else Clock(t, dt, k - 1) + dt
  }

  /** The accumulated clock is the start time plus k times dt. */
  lemma {:induction false} ClockLinear(t: real, dt: real, k: nat)
    ensures Clock(t, dt, k) == t + k as real * dt
  {
    if k > 0 {
      ClockLinear(t, dt, k - 1);
      assert (k - 1) as real * dt + dt == k as real * dt;
    }
  }

  /** Counting n steps and then k more is counting n + k steps. */
  lemma {:induction false} ClockCompose(t: real, dt: real, n: nat, k: nat)
    ensures Clock(t, dt, n + k) == Clock(Clock(t, dt, n), dt, k)
  {
    if k > 0 {
      ClockCompose(t, dt, n, k - 1);
    }
  }

  /**
   * n consecutive steps of length dt with the same input, from state x at
   * time t: RunSteps is the state after them, StepAt(k) the integrator's run
   * for the k-th of them (counting from 0), StepLog the entries they log.
   */
  function RunSteps(integ: Integrator, m: Math, u: Input, t: real, x: State, dt: real, n: nat): (y: State)
    decreases n, 0
  {
    if n == 0 then x else Final(StepAt(integ, m, u, t, x, dt, n - 1))
  }

  function StepAt(integ: Integrator, m: Math, u: Input, t: real, x: State, dt: real, k: nat): (s: Solution)
    decreases k, 1
  {
    var tk := Clock(t, dt, k);
    integ(m, u, tk, tk + dt, RunSteps(integ, m, u, t, x, dt, k))
  }

  /** What an evaluation of the right-hand side in state x leaves recorded
      in the dynamics object. */
  const Recorded: (Math, State, Input) -> Diagnostics := (m: Math, x: State, u: Input) => Derivative(m, x, u).diag

  /** The diagnostics after the k-th step: those of its last evaluation. */
  function StepDiag(integ: Integrator, m: Math, u: Input, t: real, x: State, dt: real, k: nat): (d: Diagnostics)
  {
    Recorded(m, StepAt(integ, m, u, t, x, dt, k).lastEval, u)
  }

  /**
   * A simulator that stood at time t0 in state x0 with log log0 has taken
   * n >= 1 steps with input u: its clock t, state x and recorded
   * diagnostics d are those the run reaches, and when logging its log has
   * grown by one entry per step.
   */
  ghost predicate Advanced(integ: Integrator, m: Math, u: Input, t0: real, x0: State, dt: real, n: nat,
                           logging: bool, log0: seq<LogEntry>,
                           t: real, x: State, d: Diagnostics, log: seq<LogEntry>)
  {
    && n >= 1
    && t == Clock(t0, dt, n)
    && x == RunSteps(integ, m, u, t0, x0, dt, n)
    && d == StepDiag(integ, m, u, t0, x0, dt, n - 1)
    && log == log0 + (if logging then StepLog(integ, m, u, t0, x0, dt, n) else [])
  }

  /** One entry per step, stamped with the clock at which the step starts. */
  function StepLog(integ: Integrator, m: Math, u: Input, t: real, x: State, dt: real, n: nat): (log: seq<LogEntry>)
    ensures |log| == n
  {
    if n == 0 then []
    else StepLog(integ, m, u, t, x, dt, n - 1)
         + [LogEntry(Clock(t, dt, n - 1), StepDiag(integ, m, u, t, x, dt, n - 1))]
  }

  /** The k-th of the n entries is stamped with the time t + k * dt at which
      that step starts and holds the diagnostics that step leaves behind. */
  lemma {:induction false} StepLogEntries(integ: Integrator, m: Math, u: Input, t: real, x: State, dt: real, n: nat)
    ensures forall k :: 0 <= k < n ==>
      StepLog(integ, m, u, t, x, dt, n)[k] == LogEntry(t + k as real * dt, StepDiag(integ, m, u, t, x, dt, k))
  {
    if n > 0 {
      StepLogEntries(integ, m, u, t, x, dt, n - 1);
      var log, prev := StepLog(integ, m, u, t, x, dt, n), StepLog(integ, m, u, t, x, dt, n - 1);
      forall k | 0 <= k < n
        ensures log[k] == LogEntry(t + k as real * dt, StepDiag(integ, m, u, t, x, dt, k))
      {
        if k < n - 1 {
          assert log[k] == prev[k];
        } else {
          ClockLinear(t, dt, k);
        }
      }
    }
  }

  /** One more step of the simulator, after none or after the first i
      steps, leaves it where i + 1 steps take it. */
  lemma StepExtendsRun(integ: Integrator, m: Math, u: Input, t0: real, x0: State, dt: real, i: nat,
                       log0: seq<LogEntry>, logging: bool, t: real, x: State, d: Diagnostics, log: seq<LogEntry>,
                       run: Solution, t': real, x': State, log': seq<LogEntry>, d': Diagnostics)
    requires i == 0 ==> t == t0 && x == x0 && log == log0
    requires i >= 1 ==> Advanced(integ, m, u, t0, x0, dt, i, logging, log0, t, x, d, log)
    requires run == integ(m, u, t, t + dt, x)
    requires t' == t + dt && x' == Final(run) && d' == Derivative(m, run.lastEval, u).diag
    requires log' == (if logging then log + [LogEntry(t, d')] else log)
    ensures Advanced(integ, m, u, t0, x0, dt, i + 1, logging, log0, t', x', d', log')
  {
    assert t == Clock(t0, dt, i) && x == RunSteps(integ, m, u, t0, x0, dt, i);
    assert log == log0 + (if logging then StepLog(integ, m, u, t0, x0, dt, i) else []);
    StepExtendsEach(integ, m, u, t0, x0, dt, i, log0, logging, t, x, log, run, t', x', log', d');
  }

  /** StepExtendsRun for the clock, the state, the diagnostics and the log
      one by one. */
  lemma StepExtendsEach(integ: Integrator, m: Math, u: Input, t0: real, x0: State, dt: real, i: nat,
                        log0: seq<LogEntry>, logging: bool, t: real, x: State, log: seq<LogEntry>,
                        run: Solution, t': real, x': State, log': seq<LogEntry>, d': Diagnostics)
    requires t == Clock(t0, dt, i) && x == RunSteps(integ, m, u, t0, x0, dt, i)
    requires log == log0 + (if logging then StepLog(integ, m, u, t0, x0, dt, i) else [])
    requires run == integ(m, u, t, t + dt, x)
    requires t' == t + dt && x' == Final(run) && d' == Derivative(m, run.lastEval, u).diag
    requires log' == (if logging then log + [LogEntry(t, d')] else log)
    ensures t' == Clock(t0, dt, i + 1) && x' == RunSteps(integ, m, u, t0, x0, dt, i + 1)
    ensures d' == StepDiag(integ, m, u, t0, x0, dt, i)
    ensures log' == log0 + (if logging then StepLog(integ, m, u, t0, x0, dt, i + 1) else [])
  {
    assert run == StepAt(integ, m, u, t0, x0, dt, i);
    if logging {
      assert StepLog(integ, m, u, t0, x0, dt, i + 1) == StepLog(integ, m, u, t0, x0, dt, i) + [LogEntry(t, d')];
    }
  }

  /** Running n steps and then k more is running n + k steps. */
  lemma {:induction false} RunStepsCompose(integ: Integrator, m: Math, u: Input, t: real, x: State, dt: real, n: nat, k: nat)
    ensures RunSteps(integ, m, u, t, x, dt, n + k)
         == RunSteps(integ, m, u, Clock(t, dt, n), RunSteps(integ, m, u, t, x, dt, n), dt, k)
  {
    if k > 0 {
      RunStepsCompose(integ, m, u, t, x, dt, n, k - 1);
      ClockCompose(t, dt, n, k - 1);
    }
  }

  /** The k-th step after the first n is the (n + k)-th step. */
  lemma StepAtCompose(integ: Integrator, m: Math, u: Input, t: real, x: State, dt: real, n: nat, k: nat)
    ensures StepAt(integ, m, u, t, x, dt, n + k)
         == StepAt(integ, m, u, Clock(t, dt, n), RunSteps(integ, m, u, t, x, dt, n), dt, k)
  {
    ClockCompose(t, dt, n, k);
    RunStepsCompose(integ, m, u, t, x, dt, n, k);
  }

  /** The diagnostics of the k-th step after the first n are those of the
      (n + k)-th step. */
  lemma StepDiagCompose(integ: Integrator, m: Math, u: Input, t: real, x: State, dt: real, n: nat, k: nat)
    ensures StepDiag(integ, m, u, t, x, dt, n + k)
         == StepDiag(integ, m, u, Clock(t, dt, n), RunSteps(integ, m, u, t, x, dt, n), dt, k)
  {
    StepAtCompose(integ, m, u, t, x, dt, n, k);
  }

  /** k >= 1 more steps after the first n extend the clock, the state and the
      last diagnostics of the first n to those of n + k steps. */
  lemma RunExtends(integ: Integrator, m: Math, u: Input, t0: real, x0: State, dt: real, n: nat, k: nat,
                   t: real, x: State, t': real, x': State, d': Diagnostics)
    requires k >= 1
    requires t == Clock(t0, dt, n) && x == RunSteps(integ, m, u, t0, x0, dt, n)
    requires t' == Clock(t, dt, k) && x' == RunSteps(integ, m, u, t, x, dt, k)
    requires d' == StepDiag(integ, m, u, t, x, dt, k - 1)
    ensures t' == Clock(t0, dt, n + k) && x' == RunSteps(integ, m, u, t0, x0, dt, n + k)
    ensures d' == StepDiag(integ, m, u, t0, x0, dt, n + k - 1)
  {
    ClockCompose(t0, dt, n, k);
    RunStepsCompose(integ, m, u, t0, x0, dt, n, k);
    assert n + k - 1 == n + (k - 1);
    StepDiagCompose(integ, m, u, t0, x0, dt, n, k - 1);
  }

  class WindTurbineSimulator {
    const dt: real := 0.01                // macro time step [s]
    const wt: WindTurbineDynamics
    const solveIvp: Integrator
    var x: State
    var ti: real
    var enableMyLog: bool
    var myLog: seq<LogEntry>

    constructor (m: Math, integrator: Integrator)
      ensures fresh(wt) && wt.math == m && wt.x0 == X0 && wt.Diag() == InitialDiagnostics
      ensures solveIvp == integrator
      ensures x == X0 && ti == 0.0 && enableMyLog && myLog == []
    {
      wt := new WindTurbineDynamics(m);
      solveIvp := integrator;
      x := X0;
      ti := 0.0;
      enableMyLog := true;
      myLog := [];
    }

    /** The integrator's run for one step from the current state. */
    function Integrate(u: Input): Solution
      reads this
    {
      solveIvp(wt.math, u, ti, ti + dt, x)
    }

    /**
     * `step(u)`: integrate over [ti, ti + dt], take the final state, log,
     * advance the clock. A failed integration is not reported: its final
     * state is taken all the same. The diagnostic fields are those of the
     * integrator's last right-hand-side evaluation; every evaluation
     * overwrites all of them, so replaying that one evaluation leaves them
     * exactly as the integrator would.
     */
    method Step(u: Input) returns (xNew: State)
      modifies this, wt
      ensures ti == old(ti) + dt
      ensures x == Final(old(Integrate(u))) && xNew == x
      ensures wt.Diag() == Derivative(wt.math, old(Integrate(u)).lastEval, u).diag
      ensures wt.pitchRef == u.pitchRef
      ensures enableMyLog == old(enableMyLog)
      ensures myLog == if enableMyLog then old(myLog) + [LogEntry(old(ti), wt.Diag())] else old(myLog)
    {
      var tf := ti + dt;
      var solution := solveIvp(wt.math, u, ti, tf, x);
      var _ := wt.WindTurbineOde(ti, solution.lastEval, u);
      x := Final(solution);
      LogCallback();
      ti := tf;
      xNew := x;
    }

    /** `log_callback`: append the current diagnostics, stamped with ti. */
    method LogCallback()
      modifies this`myLog
      ensures myLog == if enableMyLog then old(myLog) + [LogEntry(ti, wt.Diag())] else old(myLog)
    {
      if enableMyLog {
        myLog := myLog + [LogEntry(ti, wt.Diag())];
      }
    }
  }
}
