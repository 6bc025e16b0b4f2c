/**
 * The tilt-controlled gravity flow: device orientation in degrees becomes a gravity vector
 * for the badge simulation. With orientation, each component is the sine of the tilt,
 * clamped to [-1, 1], or NaN for a tilt that is missing; without it, the flow answers the
 * fixed downward gravity (0, 1).
 * Neither path asks for a re-simulation. The flow never calls the language-model prompt
 * defined beside it.
 *
 * `Math.sin` is a parameter: the model says nothing about its values beyond what a lemma
 * requires of it.
 */
module StackTilt {
  import opened Common

  /** `Math.PI` as a double. */
  const Pi: real := 3.141592653589793

  /** The flow's input: the left-right and front-back tilt in degrees, and whether orientation is available. */
  datatype TiltInput = TiltInput(tiltLR: Option<real>, tiltFB: Option<real>, hasDeviceOrientation: bool)

  /** A JavaScript number as far as the flow needs it: a finite value, or NaN. */
  datatype Number = Finite(value: real) | NaN

  /** The flow's output. */
  datatype Gravity = Gravity(gravityX: Number, gravityY: Number, shouldResimulate: bool)

  function Min(a: real, b: real): real { if a <= b then a else b }
  function Max(a: real, b: real): real { if a >= b then a else b }

  /** `Math.max(-1, Math.min(1, v))` on a finite value. */
  function Clamp(v: real): (r: real)
    ensures -1.0 <= r <= 1.0
    ensures -1.0 <= v <= 1.0 ==> r == v
    ensures v > 1.0 ==> r == 1.0
    ensures v < -1.0 ==> r == -1.0
  {
    Max(-1.0, Min(1.0, v))
  }

  /** Clamping twice is clamping once. */
  lemma ClampIdempotent(v: real)
    ensures Clamp(Clamp(v)) == Clamp(v)
  {
  }

  /** Clamping keeps order and sign: a larger input never gives a smaller output, and the sign survives. */
  lemma ClampMonotoneAndSignPreserving(v: real, w: real)
    requires v <= w
    ensures Clamp(v) <= Clamp(w)
    ensures (Clamp(v) > 0.0 <==> v > 0.0) && (Clamp(v) < 0.0 <==> v < 0.0)
  {
  }

  /** Degrees to radians, `deg * Math.PI / 180`. */
  function Radians(deg: real): real {
    deg * Pi / 180.0
  }

  /**
   * One gravity component, `Math.max(-1, Math.min(1, Math.sin(tilt! * Math.PI / 180)))`. A
   * missing tilt reads as `undefined`, the product is NaN, and NaN passes through the sine and
   * both clamps.
   */
  function Component(tilt: Option<real>, sin: real -> real): (n: Number)
    ensures n == NaN <==> tilt.None?
    ensures tilt.Some? ==> n == Finite(Clamp(sin(Radians(tilt.value))))
  {
    match tilt
    case None => NaN
    case Some(deg) => Finite(Clamp(sin(Radians(deg))))
  }

  /** The fixed answer without device orientation. */
  const Fallback: Gravity := Gravity(Finite(0.0), Finite(1.0), false)

  /**
   * `tiltControlledGravityFlow`. With orientation each component is the clamped sine of its
   * tilt; the input schema lets a tilt be missing even then, and that component comes out NaN.
   * Without orientation the answer is the fixed downward gravity.
   */
  function TiltControlledGravity(input: TiltInput, sin: real -> real): (g: Gravity)
    ensures !g.shouldResimulate
    ensures input.hasDeviceOrientation ==>
      g.gravityX == Component(input.tiltLR, sin) && g.gravityY == Component(input.tiltFB, sin)
    ensures !input.hasDeviceOrientation ==> g == Fallback
  {
    if input.hasDeviceOrientation then
      Gravity(Component(input.tiltLR, sin), Component(input.tiltFB, sin), false)
    else
      Fallback
  }

  /**
   * Every finite component lies in [-1, 1], and the answer is finite exactly when orientation
   * is missing or both tilts are given.
   */
  lemma GravityFiniteExactlyWithTilts(input: TiltInput, sin: real -> real)
    ensures var g := TiltControlledGravity(input, sin);
      (g.gravityX.Finite? ==> -1.0 <= g.gravityX.value <= 1.0) &&
      (g.gravityY.Finite? ==> -1.0 <= g.gravityY.value <= 1.0) &&
      (g.gravityX.Finite? && g.gravityY.Finite? <==>
        !input.hasDeviceOrientation || (input.tiltLR.Some? && input.tiltFB.Some?))
  {
  }

  /**
   * A 90-degree right tilt held flat front-to-back gives full-scale sideways gravity and
   * none forwards, for any sine that is 1 at a right angle and 0 at zero.
   */
  lemma RightAngleIsFullScale(sin: real -> real)
    requires sin(Radians(90.0)) == 1.0 && sin(Radians(0.0)) == 0.0
    ensures TiltControlledGravity(TiltInput(Some(90.0), Some(0.0), true), sin) ==
      Gravity(Finite(1.0), Finite(0.0), false)
  {
  }

  /** A sine value already in range passes through unchanged; a right tilt (positive sine) gives positive gravityX. */
  lemma InRangeSineIsKept(input: TiltInput, sin: real -> real)
    requires input.hasDeviceOrientation && input.tiltLR.Some?
    ensures var s, gx := sin(Radians(input.tiltLR.value)), TiltControlledGravity(input, sin).gravityX;
      gx.Finite? &&
      (-1.0 <= s <= 1.0 ==> gx.value == s) &&
      (s > 0.0 <==> gx.value > 0.0)
  {
  }
}
