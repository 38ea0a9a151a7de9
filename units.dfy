/** Unit conversions shared by the mechanisms and the swerve drive. */
module Units {
  /** `Math.PI`, as the double literal Java uses. */
  const Pi: real := 3.141592653589793

  /** Meters per inch, as WPILib's `Units.inchesToMeters` uses it. */
  const MetersPerInch: real := 0.0254

  function InchesToMeters(inches: real): real {
    inches * MetersPerInch
  }

  /** `Math.toRadians`. */
  function ToRadians(degrees: real): (r: real)
    ensures degrees == 180.0 ==> r == Pi
    ensures degrees == 0.0 ==> r == 0.0
    ensures (degrees < 0.0) == (r < 0.0)
  {
    degrees * (Pi / 180.0)
  }

  function Abs(x: real): real {
    if x < 0.0 then -x else x
  }
}
