/**
 * The generator side of the turbine (`RotorDynamics`): the rotor-speed and
 * armature-current equations, electrical torque, back EMF and the electrical
 * power delivered to the load. The class only holds constants, so each of
 * its methods is a function here.
 */
module RotorDynamics {
  import opened Numerics

  const J: real := 6.53       // rotor inertia [kg m^2]
  const Kf: real := 0.025     // friction constant [N m s/rad]
  const Kg: real := 23.31     // generator constant
  const Kphi: real := 0.264   // magnetic flux coupling [V s/rad]
  const La: real := 0.0135    // armature inductance 13.5e-3 [H]
  const Vnom: real := 240.0   // nominal voltage [V]; set but not read by `power`
  const Ra: real := 0.275     // armature resistance [Ohm]
  const Rl: real := 8.0       // load resistance [Ohm]

  /** Rotor speed equation: the shaft accelerates exactly when the
      aerodynamic torque exceeds electrical torque plus friction. */
  function WOde(w: real, tm: real, tem: real): (dwdt: real)
    ensures dwdt == 0.0 <==> tm == tem + Kf * w
    ensures dwdt > 0.0 <==> tm > tem + Kf * w
    ensures J * dwdt == tm - tem - Kf * w
  {
    (tm - tem - Kf * w) / J
  }

  /** Electrical torque, linear in the armature current: it has the sign of
      the current and opposes the rotor only while current flows. */
  function Tem(ia: real): (tem: real)
    ensures tem > 0.0 <==> ia > 0.0
    ensures tem == 0.0 <==> ia == 0.0
  {
    Kg * Kphi * ia
  }

  /** Back EMF, linear in the rotor speed and with its sign. */
  function Ea(w: real): (ea: real)
    ensures ea > 0.0 <==> w > 0.0
    ensures ea == 0.0 <==> w == 0.0
  {
    Kg * Kphi * w
  }

  /** Armature current equation (the load carries V = Rl * Ia): the current
      is steady exactly when the EMF equals the drop over both resistances. */
  function IaOde(ia: real, ea: real): (diadt: real)
    ensures diadt == 0.0 <==> ea == (Ra + Rl) * ia
    ensures diadt > 0.0 <==> ea > (Ra + Rl) * ia
    ensures La * diadt == ea - (Ra + Rl) * ia
  {
    (ea - (Ra + Rl) * ia) / La
  }

  /** Electrical power: the load voltage Rl * Ia is clipped to the literal
      +-240 V, so the power is quadratic up to |Ia| = 30 A and linear beyond. */
  function Power(ia: real): (p: real)
    ensures p >= 0.0
    ensures Abs(ia) <= 30.0 ==> p == Rl * ia * ia
    ensures Abs(ia) > 30.0 ==> p == 240.0 * Abs(ia)
  {
    var v := Clip(Rl * ia, -240.0, 240.0);
    v * ia
  }

  /** `tem` and `Ea` share the coefficient Kg * Kphi. */
  lemma TorqueAndEmfShareCoefficient(a: real, b: real)
    ensures Tem(a) == Ea(a)
    ensures Tem(a + b) == Tem(a) + Tem(b) && Ea(a + b) == Ea(a) + Ea(b)
    ensures Tem(a) == Kg * Kphi * a
  {
  }

  /** The saturation knee is at Vnom / Rl: the two branches of `Power` meet
      there and the literal 240 agrees with Vnom. */
  lemma PowerKnee()
    ensures Vnom / Rl == 30.0
    ensures Power(30.0) == Vnom * 30.0 && Power(-30.0) == Vnom * 30.0
  {
  }

  /** Power is even and does not decrease with |Ia|. */
  lemma PowerMonotone(a: real, b: real)
    requires Abs(a) <= Abs(b)
    ensures Power(a) <= Power(b)
    ensures Power(-a) == Power(a)
  {
    PowerOfMagnitude(a);
    PowerOfMagnitude(b);
    PowerOfMagnitude(-a);
    KneeMonotone(Abs(a), Abs(b));
  }

  /** The power as a function of |Ia| alone. */
  function KneeCurve(x: real): (p: real)
  {
    if x <= 30.0 then Rl * (x * x) else 240.0 * x
  }

  lemma PowerOfMagnitude(a: real)
    ensures Power(a) == KneeCurve(Abs(a))
  {
    assert a * a == Abs(a) * Abs(a);
  }

  lemma KneeMonotone(x: real, y: real)
    requires 0.0 <= x <= y
    ensures KneeCurve(x) <= KneeCurve(y)
  {
    if y <= 30.0 {
      MulMono(x, x, y);
      MulMono(y, x, y);
      assert x * y == y * x;
    } else if x <= 30.0 {
      assert x * x <= 30.0 * x <= 900.0;
    }
  }
}
