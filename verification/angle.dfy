/** Angles stored in radians with a degree view: the `Angle` class without its trigonometry. */
module Angles {

  type PositiveReal = r: real | r > 0.0 witness 1.0

  /** `Math.PI`. Only its positivity matters to the properties below, so its value is left open. */
  const PI: PositiveReal

  /** An angle; the source keeps the radian value and derives degrees on demand. */
  datatype Angle = Angle(radianAngle: real)

  /** `Angle.degToRad`. */
  function DegToRad(deg: real): (rad: real)
    ensures RadToDeg(rad) == deg
  {
    (deg * PI) / 180.0
  }

  /** `Angle.radToDeg`. */
  function RadToDeg(rad: real): (deg: real)
    ensures (deg < 0.0 <==> rad < 0.0) && (deg == 0.0 <==> rad == 0.0)
  {
    (rad * 180.0) / PI
  }

  /** The `degreeAngle` getter. */
  function DegreeAngle(a: Angle): real
  {
    RadToDeg(a.radianAngle)
  }

  /** `valueOf()`: what JavaScript's relational operators compare. */
  function ValueOf(a: Angle): real
  {
    a.radianAngle
  }

  /** `Angle.fromDeg`: the angle whose degree view is `deg`. */
  function FromDeg(deg: real): (a: Angle)
    ensures DegreeAngle(a) == deg
  {
    Angle(DegToRad(deg))
  }

  /** `Angle.fromRad`: the angle whose radian view is `rad`. */
  function FromRad(rad: real): (a: Angle)
    ensures a.radianAngle == rad && ValueOf(a) == rad
  {
    Angle(rad)
  }

  /** `a.addDeg(deg)`: turns `a` by `deg` degrees. */
  function AddDeg(a: Angle, deg: real): (b: Angle)
    ensures DegreeAngle(b) == DegreeAngle(a) + deg
  {
    Angle(a.radianAngle + DegToRad(deg))
  }

  /** `a.addRad(rad)`: turns `a` by `rad` radians. */
  function AddRad(a: Angle, rad: real): (b: Angle)
    ensures b.radianAngle == a.radianAngle + rad
    ensures DegreeAngle(b) == DegreeAngle(a) + RadToDeg(rad)
  {
    Angle(a.radianAngle + rad)
  }

  /** Converting radians to degrees and back is exact. */
  lemma DegRadRoundTrip(rad: real)
    ensures DegToRad(RadToDeg(rad)) == rad
  {
  }

  /** Comparing angles by `valueOf()` orders them exactly as their degree views. */
  lemma ValueOfOrdersByDegrees(a: Angle, b: Angle)
    ensures ValueOf(a) < ValueOf(b) <==> DegreeAngle(a) < DegreeAngle(b)
    ensures ValueOf(a) == ValueOf(b) <==> DegreeAngle(a) == DegreeAngle(b)
  {
    var d := b.radianAngle - a.radianAngle;
    assert DegreeAngle(b) - DegreeAngle(a) == RadToDeg(d);
  }
}
