/** Angle unit conversion as done by `np.degrees` and `np.radians`, in exact real arithmetic. */
module Units {

  /** The double-precision value of pi, written as the decimal it prints as. */
  const Pi: real := 3.141592653589793

  /** Radians to degrees. */
  function Degrees(rad: real): (deg: real)
    ensures rad == 0.0 <==> deg == 0.0
    ensures rad > 0.0 <==> deg > 0.0
  {
    rad * 180.0 / Pi
  }

  /** Degrees to radians. */
  function Radians(deg: real): (rad: real)
    ensures deg == 0.0 <==> rad == 0.0
    ensures deg > 0.0 <==> rad > 0.0
  {
    deg * Pi / 180.0
  }

  /** The two conversions are inverse to each other. */
  lemma DegreesRadiansRoundTrip(x: real)
    ensures Radians(Degrees(x)) == x
    ensures Degrees(Radians(x)) == x
  {
  }
}
