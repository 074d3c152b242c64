/** Simulation-wide constants and temperature unit conversion. */
module Units {

  /** Length of one simulation step, in hours. */
  const TimeStep: real := 1.0

  /** Offset between the Celsius and Kelvin scales. */
  const KelvinOffset: real := 273.15

  /** Converts a temperature in degrees Celsius to kelvin. */
  function Kelvin(c: real): (k: real)
    ensures Celsius(k) == c
    ensures k > c
  {
    c + KelvinOffset
  }

  /** Converts a temperature in kelvin to degrees Celsius. */
  function Celsius(k: real): (c: real)
    ensures c < k
  {
    k - KelvinOffset
  }

  /** Scaling a quantity by a fraction in [0, 1] keeps it between 0 and itself. */
  lemma ScaleDown(f: real, x: real)
    requires 0.0 <= f <= 1.0 && 0.0 <= x
    ensures 0.0 <= f * x <= x
  {
  }

  /** The two conversions are mutually inverse. */
  lemma KelvinCelsiusRoundTrip(t: real)
    ensures Celsius(Kelvin(t)) == t
    ensures Kelvin(Celsius(t)) == t
  {
  }
}
