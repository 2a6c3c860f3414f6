/**
 * Numeric helpers shared by the turbine model and its gym wrappers:
 * numpy's `clip`, Python's `int()` on a real, degree/radian conversion and
 * the transcendental operations the model needs but never evaluates.
 */
module Numerics {

  type PosReal = r: real | r > 0.0 witness 1.0

  /**
   * The transcendental operations of the model, left uninterpreted:
   * `pi` (inside `np.radians`, `np.deg2rad` and the rotor area) is only known
   * to be positive, `exp` only to be positive, and `pow` (the non-integer
   * power `pitch ** c5`) is arbitrary.
   */
  datatype Math = Math(pi: PosReal, exp: real -> PosReal, pow: (real, real) -> real)

  function Min(a: real, b: real): (m: real)
    ensures m <= a && m <= b && (m == a || m == b)
  {
    if a <= b then a else b
  }

  function Max(a: real, b: real): (m: real)
    ensures m >= a && m >= b && (m == a || m == b)
  {
    if a >= b then a else b
  }

  function Abs(a: real): (r: real)
    ensures r >= 0.0 && (r == a || r == -a)
  {
    if a >= 0.0 then a else -a
  }

  /** numpy's `clip(x, lo, hi)`, that is `min(max(x, lo), hi)`. */
  function Clip(x: real, lo: real, hi: real): (r: real)
    ensures lo <= hi ==> lo <= r <= hi
    ensures lo <= x <= hi ==> r == x
    ensures hi < x ==> r == hi
    ensures x < lo <= hi ==> r == lo
  {
    Min(Max(x, lo), hi)
  }

  lemma ClipIdempotent(x: real, lo: real, hi: real)
    requires lo <= hi
    ensures Clip(Clip(x, lo, hi), lo, hi) == Clip(x, lo, hi)
  {
  }

  /** Python's `int(r)` on a real: truncation toward zero. */
  function Trunc(r: real): (n: int)
    ensures 0.0 <= r ==> 0 <= n && n as real <= r < n as real + 1.0
    ensures r < 0.0 ==> n <= 0 && n as real - 1.0 < r <= n as real
  {
    if r >= 0.0 then r.Floor else -((-r).Floor)
  }

  /** Minus the square, the shape of both gyms' rewards: never positive, and
      0 exactly at 0. */
  function NegSquare(e: real): (r: real)
    ensures r <= 0.0
  {
    -(e * e)
  }

  lemma NegSquareZeroIff(e: real)
    ensures NegSquare(e) == 0.0 <==> e == 0.0
    ensures e != 0.0 ==> NegSquare(e) < 0.0
  {
    if e != 0.0 {
      calc {
        NegSquare(e);
      ==
        -(e * e);
      < { NegatedSquareNegative(e); }
        0.0;
      }
    }
  }

  lemma NegatedSquareNegative(e: real)
    requires e != 0.0
    ensures -(e * e) < 0.0
  {
    if e < 0.0 {
      MulPos(-e, -e);
      assert e * e == (-e) * (-e);
    } else {
      MulPos(e, e);
    }
  }

  lemma MulPos(a: real, b: real)
    requires a > 0.0 && b > 0.0
    ensures a * b > 0.0
  {
  }

  /** Multiplying by a non-negative factor keeps the order. */
  lemma MulMono(k: real, x: real, y: real)
    requires k >= 0.0 && x <= y
    ensures k * x <= k * y
  {
  }

  /** Multiplying by a positive factor keeps the strict order. */
  lemma MulStrict(k: real, x: real, y: real)
    requires k > 0.0 && x < y
    ensures k * x < k * y
  {
  }

  /** A normalised action a scales a rate k over a time c: |a * k * c| <= k * |c|
      when |a| <= 1, and for c > 0 the product has the sign of a. */
  lemma ScaledActionBound(a: real, k: real, c: real)
    requires k > 0.0
    ensures Abs(a) <= 1.0 ==> Abs(a * k * c) <= k * Abs(c)
    ensures c > 0.0 ==> (a * k * c > 0.0 <==> a > 0.0)
  {
    assert Abs(a * k * c) == Abs(a) * (k * Abs(c));
    if Abs(a) <= 1.0 {
      assert Abs(a) * (k * Abs(c)) <= 1.0 * (k * Abs(c));
    }
  }

  /** `np.radians(deg)` and `np.deg2rad(deg)`. */
  function Radians(m: Math, deg: real): (r: real)
    ensures deg > 0.0 ==> r > 0.0
    ensures deg == 0.0 ==> r == 0.0
  {
    deg * m.pi / 180.0
  }
}

/** The result types the gym wrappers return. */
module Wrappers {

  datatype Result<T, E> = Success(value: T) | Failure(error: E)

  /** What a gym's `step` returns: the observation, the reward and whether
      the episode is over. */
  datatype StepResult<O> = StepResult(obs: O, reward: real, done: bool)
}
