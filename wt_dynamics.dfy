/**
 * The turbine's aerodynamic rotor and pitch actuator (`WindTurbineDynamics`)
 * and the right-hand side of the differential equation that couples them to
 * the generator. The state is (w, Ia, pitch, dpitch), the input
 * (pitch_ref, wind_speed).
 */
module WtDynamics {
  import opened Numerics
  import RotorDynamics

  // Cp coefficients
  const C1: real := 0.73
  const C2: real := 151.0
  const C3: real := 0.58
  const C4: real := 0.002
  const C5: real := 2.14
  const C6: real := 13.2
  const C7: real := 18.4
  const C8: real := -0.02
  const C9: real := -0.003
  const Rho: real := 1.223          // air density [kg/m^3]
  const R: real := 3.2 * 0.98       // rotor radius [m]

  const Tau: real := 0.2            // first-order actuator time constant [s]

  datatype State = State(w: real, ia: real, pitch: real, dpitch: real)

  datatype Input = Input(pitchRef: real, windSpeed: real)

  /** The initial state x0 = [w0, Ia0, pitch0, dpitchdt0]. */
  const X0: State := State(40.0, 30.0, 0.0, 0.0)

  /** The values one evaluation of the right-hand side records. */
  datatype Diagnostics = Diagnostics(
    cp: real, lambdaI: real, lambda: real, tem: real, tm: real, ia: real,
    ea: real, w: real, pitch: real, dpitch: real, pitchRef: real, power: real)

  /** The diagnostics a freshly built `WindTurbineDynamics` holds. */
  const InitialDiagnostics: Diagnostics :=
    Diagnostics(0.0, 0.0, 0.0, 0.0, 0.0, X0.ia, 0.0, X0.w, X0.pitch, 0.0, X0.pitch, 0.0)

  /** One evaluation: the derivative vector and what it recorded. */
  datatype Evaluation = Evaluation(dxdt: State, diag: Diagnostics)

  /** Rotor swept area pi * R^2. */
  function Area(m: Math): (a: real)
    ensures a > 0.0
  {
    m.pi * R * R
  }

  function Cube(x: real): (c: real)
    ensures x > 0.0 ==> c > 0.0
    ensures x == 0.0 ==> c == 0.0
  {
    x * x * x
  }

  // ---------------------------------------------------------------- aerodynamics

  /** Tip-speed ratio w * R / v. */
  function TipSpeedRatio(v: real, w: real): (tsr: real)
    requires v != 0.0
    ensures tsr * v == w * R
  {
    w * R / v
  }

  /** The quantity whose inverse is lambda_i. */
  function LambdaIInverse(tsr: real, pitch: real): (inv: real)
    requires tsr + C8 != 0.0 && Cube(pitch) + 1.0 != 0.0
  {
    1.0 / (tsr + C8) - C9 / (Cube(pitch) + 1.0)
  }

  /** lambda_i = (1/(tsr + c8) - c9/(pitch^3 + 1))^(-1). */
  function LambdaI(tsr: real, pitch: real): (li: real)
    requires tsr + C8 != 0.0 && Cube(pitch) + 1.0 != 0.0
    requires LambdaIInverse(tsr, pitch) != 0.0
    ensures li * LambdaIInverse(tsr, pitch) == 1.0
  {
    1.0 / LambdaIInverse(tsr, pitch)
  }

  /** The unclipped power-coefficient formula. */
  function CpFormula(m: Math, li: real, pitch: real): (cp: real)
    requires li != 0.0
  {
    C1 * (C2 / li - C3 * pitch - C4 * m.pow(pitch, C5) - C6) * m.exp(-(C7 / li))
  }

  /** Power coefficient: the formula clipped to [0, 1]. */
  function Cp(m: Math, li: real, pitch: real): (cp: real)
    requires li != 0.0
    ensures 0.0 <= cp <= 1.0
    ensures 0.0 <= CpFormula(m, li, pitch) <= 1.0 ==> cp == CpFormula(m, li, pitch)
  {
    Clip(CpFormula(m, li, pitch), 0.0, 1.0)
  }

  /** Mechanical torque Cp * rho * A * v^3 / (2 w): the torque whose power
      Tm * w is the captured share Cp of the wind power rho * A * v^3 / 2. */
  function Tm(m: Math, cp: real, v: real, w: real): (tm: real)
    requires w != 0.0
    ensures tm * w == cp * (0.5 * Rho * Area(m) * Cube(v))
    ensures cp == 0.0 ==> tm == 0.0
  {
    (cp * Rho * Area(m) * Cube(v)) / (2.0 * w)
  }

  // ---------------------------------------------------------------- pitch actuator

  /** Second-order actuator (not wired into the ODE):
      returns (dpitch, d2pitch). */
  function PitchActuatorOde(pitch: real, dpitch: real, pitchRef: real): (r: (real, real))
    ensures r.0 == dpitch
    ensures 2.0 * r.1 + dpitch == -0.15 * (pitch - pitchRef)
  {
    (dpitch, (-dpitch - 0.15 * (pitch - pitchRef)) / 2.0)
  }

  /** Largest pitch rate of the first-order actuator, 5 degrees per second. */
  function MaxPitchRate(m: Math): (r: real)
    ensures r > 0.0
  {
    Radians(m, 5.0)
  }

  /** First-order actuator: rate (pitch_ref - pitch) / tau saturated at
      +-5 degrees per second; the second derivative is 0. */
  function PitchActuatorOde1stOrder(m: Math, pitch: real, dpitch: real, pitchRef: real): (r: (real, real))
    ensures r.1 == 0.0
    ensures r.0 == Clip((pitchRef - pitch) / Tau, -MaxPitchRate(m), MaxPitchRate(m))
    ensures Abs(r.0) <= MaxPitchRate(m)
    ensures r.0 == 0.0 <==> pitchRef == pitch
    ensures r.0 > 0.0 <==> pitchRef > pitch
    ensures Abs(pitchRef - pitch) <= Tau * MaxPitchRate(m) ==> r.0 * Tau == pitchRef - pitch
  {
    var rate := 1.0 / Tau * (pitchRef - pitch);
    var maxRate := Radians(m, 5.0);
    (Clip(rate, -maxRate, maxRate), 0.0)
  }

  // ---------------------------------------------------------------- the ODE

  /** The clipping bounds applied before anything is computed. */
  const WMin: real := 2.5
  const WMax: real := 50.0
  const VMin: real := 1.8
  const VMax: real := 25.0

  function PitchMax(m: Math): (r: real)
    ensures r > 0.0
  {
    Radians(m, 90.0)
  }

  /** The clipped rotor speed, pitch and wind speed the evaluation uses. */
  predicate InClampedRange(m: Math, w: real, pitch: real, v: real)
  {
    WMin <= w <= WMax && 0.0 <= pitch <= PitchMax(m) && VMin <= v <= VMax
  }

  /** Every denominator of the aerodynamic formulas is positive once the
      inputs are clipped: v, tsr + c8, pitch^3 + 1, the inverse of lambda_i
      (so lambda_i itself) and 2 w. */
  lemma DenominatorsPositive(m: Math, w: real, pitch: real, v: real)
    requires InClampedRange(m, w, pitch, v)
    ensures v > 0.0 && 2.0 * w > 0.0
    ensures TipSpeedRatio(v, w) + C8 > 0.0
    ensures Cube(pitch) + 1.0 >= 1.0
    ensures LambdaIInverse(TipSpeedRatio(v, w), pitch) > 0.0
    ensures LambdaI(TipSpeedRatio(v, w), pitch) > 0.0
  {
    var tsr := TipSpeedRatio(v, w);
    TipSpeedRatioFloor(v, w);
    assert Cube(pitch) >= 0.0 by { assert pitch * pitch >= 0.0; }
    LambdaIBounds(tsr, pitch);
  }

  /** On clipped inputs the tip-speed ratio is at least 2.5 * R / 25. */
  lemma TipSpeedRatioFloor(v: real, w: real)
    requires WMin <= w && 0.0 < v <= VMax
    ensures TipSpeedRatio(v, w) >= WMin * R / VMax
  {
    var tsr := TipSpeedRatio(v, w);
    assert tsr > 0.0;
    calc {
      tsr * VMax;
    >= { MulMono(tsr, v, VMax); }
      tsr * v;
    ==
      w * R;
    >=
      WMin * R;
    }
  }

  /** Whenever tsr + c8 > 0 and pitch >= 0, lambda_i lies strictly between
      0 and tsr + c8 (because c9 < 0). */
  lemma LambdaIBounds(tsr: real, pitch: real)
    requires tsr + C8 > 0.0 && Cube(pitch) >= 0.0
    ensures LambdaIInverse(tsr, pitch) > 1.0 / (tsr + C8) > 0.0
    ensures 0.0 < LambdaI(tsr, pitch) < tsr + C8
  {
    var a, b := tsr + C8, Cube(pitch) + 1.0;
    var inv := LambdaIInverse(tsr, pitch);
    assert -C9 / b > 0.0;
    assert inv > 1.0 / a > 0.0;
    var li := LambdaI(tsr, pitch);
    assert li * inv == 1.0;
    assert li > 0.0;
    MulStrict(li, 1.0 / a, inv);
    assert li / a < 1.0;
  }

  lemma ClampedInRange(m: Math, x: State, u: Input)
    ensures InClampedRange(m, Clip(x.w, WMin, WMax),
                          Clip(x.pitch, 0.0, PitchMax(m)),
                          Clip(u.windSpeed, VMin, VMax))
  {
  }

  /** The right-hand side `wind_turbine_ode`: clip w, pitch and wind speed,
      run the first-order actuator, the aerodynamics and the generator
      equations, and return [dw, dIa, dpitch, d2pitch] with what was recorded.
      Its properties are stated by DerivativeProperties. */
  function Derivative(m: Math, x: State, u: Input): (e: Evaluation)
    ensures e.dxdt.pitch == e.diag.dpitch && e.dxdt.dpitch == 0.0
    ensures e.diag.pitchRef == u.pitchRef && e.diag.ia == x.ia
  {
    var w := Clip(x.w, WMin, WMax);
    var pitch := Clip(x.pitch, 0.0, PitchMax(m));
    var v := Clip(u.windSpeed, VMin, VMax);
    ClampedInRange(m, x, u);
    DenominatorsPositive(m, w, pitch, v);
    var tsr := TipSpeedRatio(v, w);
    var act := PitchActuatorOde1stOrder(m, pitch, x.dpitch, u.pitchRef);
    var li := LambdaI(tsr, pitch);
    var cp := Cp(m, li, pitch);
    var tm := Tm(m, cp, v, w);
    var tem := RotorDynamics.Tem(x.ia);
    var ea := RotorDynamics.Ea(w);
    var dIadt := RotorDynamics.IaOde(x.ia, ea);
    var dwdt := RotorDynamics.WOde(w, tm, tem);
    var power := RotorDynamics.Power(x.ia);
    Evaluation(State(dwdt, dIadt, act.0, act.1),
               Diagnostics(cp, li, tsr, tem, tm, x.ia, ea, w, pitch, act.0, u.pitchRef, power))
  }

  /** What one evaluation guarantees: the clipped values it uses and records,
      the unclipped pitch_ref and Ia, Cp in [0, 1], positive lambda_i and
      tip-speed ratio, non-negative Tm and power, the saturated pitch rate,
      and the returned vector [dw, dIa, dpitch, d2pitch]. */
  lemma DerivativeProperties(m: Math, x: State, u: Input)
    ensures var e := Derivative(m, x, u);
      && WMin <= e.diag.w <= WMax && e.diag.w == Clip(x.w, WMin, WMax)
      && 0.0 <= e.diag.pitch <= PitchMax(m) && e.diag.pitch == Clip(x.pitch, 0.0, PitchMax(m))
      && e.diag.pitchRef == u.pitchRef && e.diag.ia == x.ia
      && 0.0 <= e.diag.cp <= 1.0 && e.diag.lambdaI > 0.0 && e.diag.lambda > 0.0
      && e.diag.tm >= 0.0 && e.diag.power >= 0.0
      && e.diag.tem == RotorDynamics.Tem(x.ia) && e.diag.ea == RotorDynamics.Ea(e.diag.w)
      && e.diag.power == RotorDynamics.Power(x.ia)
      && e.dxdt.w == (e.diag.tm - e.diag.tem - RotorDynamics.Kf * e.diag.w) / RotorDynamics.J
      && e.dxdt.ia == (e.diag.ea - (RotorDynamics.Ra + RotorDynamics.Rl) * x.ia) / RotorDynamics.La
      && e.dxdt.pitch == e.diag.dpitch && Abs(e.dxdt.pitch) <= MaxPitchRate(m)
      && (e.dxdt.pitch == 0.0 <==> u.pitchRef == e.diag.pitch)
      && e.dxdt.dpitch == 0.0
  {
    var w := Clip(x.w, WMin, WMax);
    var pitch := Clip(x.pitch, 0.0, PitchMax(m));
    var v := Clip(u.windSpeed, VMin, VMax);
    ClampedInRange(m, x, u);
    DenominatorsPositive(m, w, pitch, v);
    var li := LambdaI(TipSpeedRatio(v, w), pitch);
    MechanicalTorqueBounds(m, Cp(m, li, pitch), v, w);
  }

  /** Tm lies between 0 and the torque of the whole wind power,
      rho * A * v^3 / (2 w), whenever Cp is in [0, 1] and v, w > 0. */
  lemma MechanicalTorqueBounds(m: Math, cp: real, v: real, w: real)
    requires 0.0 <= cp <= 1.0 && v > 0.0 && w > 0.0
    ensures 0.0 <= Tm(m, cp, v, w) <= Tm(m, 1.0, v, w)
  {
    var k := Rho * Area(m) * Cube(v);
    assert Cube(v) > 0.0 by { assert v * v > 0.0; }
    assert k > 0.0;
    assert cp * k <= k;
    assert Tm(m, cp, v, w) == (cp * k) / (2.0 * w);
    assert Tm(m, 1.0, v, w) == k / (2.0 * w);
  }

  /** `tip_speed_ratio` is linear in w. */
  lemma TipSpeedRatioLinear(v: real, w: real, k: real)
    requires v != 0.0
    ensures TipSpeedRatio(v, k * w) == k * TipSpeedRatio(v, w)
    ensures TipSpeedRatio(v, 2.0 * w) == 2.0 * TipSpeedRatio(v, w)
  {
  }

  /** Cp is 0 whenever the bracket of the formula is not positive
      (exp is positive). */
  lemma CpZeroWhenBracketNonPositive(m: Math, li: real, pitch: real)
    requires li != 0.0
    requires C2 / li - C3 * pitch - C4 * m.pow(pitch, C5) - C6 <= 0.0
    ensures Cp(m, li, pitch) == 0.0
  {
    var bracket := C2 / li - C3 * pitch - C4 * m.pow(pitch, C5) - C6;
    var e := m.exp(-(C7 / li));
    assert e > 0.0;
    assert C1 * bracket <= 0.0;
    assert CpFormula(m, li, pitch) == (C1 * bracket) * e;
    assert CpFormula(m, li, pitch) <= 0.0;
  }

  /** The fourth state component never influences the evaluation: the
      first-order actuator ignores the incoming pitch rate. */
  lemma DerivativeIgnoresPitchRate(m: Math, x: State, u: Input, d: real)
    ensures Derivative(m, x.(dpitch := d), u) == Derivative(m, x, u)
  {
  }

  /** The actuators are at rest on the reference: with pitch_ref equal to a
      pitch already in range both pitch derivatives are 0. */
  lemma PitchAtRestOnReference(m: Math, x: State, u: Input)
    requires 0.0 <= x.pitch <= PitchMax(m) && u.pitchRef == x.pitch
    ensures Derivative(m, x, u).dxdt.pitch == 0.0
    ensures Derivative(m, x, u).dxdt.dpitch == 0.0
    ensures PitchActuatorOde(x.pitch, 0.0, u.pitchRef).1 == 0.0
  {
  }

  /** The derivative of Ia vanishes when Ia is Ea / (Ra + Rl) on the clipped
      speed, and the rotor speed is steady when Tm balances Tem and friction. */
  lemma DrivetrainEquilibrium(m: Math, x: State, u: Input)
    ensures var e := Derivative(m, x, u);
      (e.dxdt.ia == 0.0 <==> e.diag.ea == (RotorDynamics.Ra + RotorDynamics.Rl) * x.ia) &&
      (e.dxdt.w == 0.0 <==> e.diag.tm == e.diag.tem + RotorDynamics.Kf * e.diag.w)
  {
    var e := Derivative(m, x, u);
    assert e.dxdt.ia == RotorDynamics.IaOde(x.ia, e.diag.ea);
    assert e.dxdt.w == RotorDynamics.WOde(e.diag.w, e.diag.tm, e.diag.tem);
  }

  // ---------------------------------------------------------------- the object

  /**
   * `WindTurbineDynamics`: the right-hand side with its twelve diagnostic
   * fields, each overwritten by every evaluation.
   */
  class WindTurbineDynamics {
    const math: Math
    const x0: State

    var cp: real
    var lambdaI: real
    var labmda: real      // tip-speed ratio
    var tem: real
    var tm: real
    var ia: real
    var ea: real
    var w: real
    var pitch: real
    var dptich: real      // pitch rate
    var pitchRef: real
    var power: real

    function Diag(): Diagnostics
      reads this
    {
      Diagnostics(cp, lambdaI, labmda, tem, tm, ia, ea, w, pitch, dptich, pitchRef, power)
    }

    constructor (m: Math)
      ensures math == m && x0 == X0 && Diag() == InitialDiagnostics
    {
      math := m;
      x0 := X0;
      cp, lambdaI, labmda, tem, tm := 0.0, 0.0, 0.0, 0.0, 0.0;
      ia, ea, w, pitch := X0.ia, 0.0, X0.w, X0.pitch;
      dptich, pitchRef, power := 0.0, X0.pitch, 0.0;
    }

    /** `wind_turbine_ode(t, x, u)`; `t` is not used. */
    method WindTurbineOde(t: real, x: State, u: Input) returns (dxdt: State)
      modifies this
      ensures dxdt == Derivative(math, x, u).dxdt
      ensures Diag() == Derivative(math, x, u).diag
    {
      var wc := Clip(x.w, WMin, WMax);
      var pc := Clip(x.pitch, 0.0, PitchMax(math));
      var v := Clip(u.windSpeed, VMin, VMax);
      ClampedInRange(math, x, u);
      DenominatorsPositive(math, wc, pc, v);
      var tsr := TipSpeedRatio(v, wc);
      var act := PitchActuatorOde1stOrder(math, pc, x.dpitch, u.pitchRef);
      var li := LambdaI(tsr, pc);
      var cpv := Cp(math, li, pc);
      var tmv := Tm(math, cpv, v, wc);
      var temv := RotorDynamics.Tem(x.ia);
      var eav := RotorDynamics.Ea(wc);
      var dIadt := RotorDynamics.IaOde(x.ia, eav);
      var dwdt := RotorDynamics.WOde(wc, tmv, temv);
      var pw := RotorDynamics.Power(x.ia);

      cp, lambdaI, labmda, tem, tm := cpv, li, tsr, temv, tmv;
      ia, ea, w, pitch := x.ia, eav, wc, pc;
      dptich, pitchRef, power := act.0, u.pitchRef, pw;

      dxdt := State(dwdt, dIadt, act.0, act.1);
    }
  }
}
