/** Spin intent and the rotation it drives.

    Angles are measured in half-turns (units of pi radians): the spin
    velocity of 180 degrees per second is 1 half-turn per second and the
    wrap-around modulus two_pi is 2. The source integrates in `f32`; the
    model uses exact `real` arithmetic. */
module Spin {

  /** The four spin-intent flags of the renderer. */
  datatype SpinFlags = SpinFlags(hNeg: bool, hPos: bool, vNeg: bool, vPos: bool)

  const NoSpin := SpinFlags(false, false, false, false)

  /** Spin velocity, in half-turns per second (180 degrees per second). */
  const SpinVelocity: real := 1.0

  /** A full turn, in half-turns. */
  const TwoPi: real := 2.0

  /** Net spin direction of one axis: +1 for the positive flag, -1 for the negative one. */
  function NetSpin(neg: bool, pos: bool): (r: int)
    ensures -1 <= r <= 1
    ensures r == 0 <==> neg == pos
    ensures r == 1 <==> pos && !neg
    ensures r == -1 <==> neg && !pos
  {
    (if pos then 1 else 0) - (if neg then 1 else 0)
  }

  /** `d` is a whole number of turns. */
  predicate WholeTurns(d: real) {
    (d / TwoPi).Floor as real * TwoPi == d
  }

  lemma WholeTurnsOfInt(k: int)
    ensures WholeTurns((k as real) * TwoPi)
  {
    assert (k as real) * TwoPi / TwoPi == k as real;
  }

  /** Integer part of `x`, rounded toward zero. */
  function Trunc(x: real): (n: int)
    ensures x >= 0.0 ==> 0 <= n && n as real <= x < n as real + 1.0
    ensures x < 0.0 ==> n <= 0 && n as real - 1.0 < x <= n as real
  {
    if x >= 0.0 then x.Floor else -((-x).Floor)
  }

  /** The `f32` remainder `a % TwoPi`: truncated division, so the result
      keeps the sign of `a` (a negative angle stays negative). */
  function WrapAngle(a: real): (r: real)
    // strictly inside one turn, on the same side of zero as `a`
    ensures -TwoPi < r < TwoPi
    ensures a >= 0.0 ==> r >= 0.0
    ensures a <= 0.0 ==> r <= 0.0
    // differs from `a` by a whole number of turns
    ensures WholeTurns(a - r)
    // an angle already inside one turn is left as it is
    ensures -TwoPi < a < TwoPi ==> r == a
  {
    var k := Trunc(a / TwoPi);
    WholeTurnsOfInt(k);
    assert -TwoPi < a < TwoPi ==> k == 0;
    a - (k as real) * TwoPi
  }

  /** New angle after `frameTime` milliseconds of spinning in direction `spin`. */
  function Advance(angle: real, spin: int, frameTime: nat): (r: real)
    requires -1 <= spin <= 1
    ensures -TwoPi < r < TwoPi
    ensures WholeTurns(angle + SpinVelocity * (spin as real) * (frameTime as real / 1000.0) - r)
  {
    WrapAngle(angle + SpinVelocity * (spin as real) * (frameTime as real / 1000.0))
  }

  /** An elapsed time of zero leaves an angle that is already inside one turn unchanged. */
  lemma AdvanceZeroTime(angle: real, spin: int)
    requires -1 <= spin <= 1
    requires -TwoPi < angle < TwoPi
    ensures Advance(angle, spin, 0) == angle
  {
  }

  /** When both flags of an axis are set, or both are clear, its angle does not move. */
  lemma CancellingFlagsHold(angle: real, neg: bool, pos: bool, frameTime: nat)
    requires neg == pos
    requires -TwoPi < angle < TwoPi
    ensures Advance(angle, NetSpin(neg, pos), frameTime) == angle
  {
  }

  /** A non-negative angle spun forward stays in [0, TwoPi): the wrap keeps the sign. */
  lemma ForwardSpinStaysNonNegative(angle: real, frameTime: nat)
    requires 0.0 <= angle
    ensures 0.0 <= Advance(angle, 1, frameTime) < TwoPi
  {
  }
}
