/** `millidegreeCelsiusToFahrenheit` of src/App.js, over exact reals: the source multiplies IEEE doubles,
    whose rounding is not modelled. */
module Conversion {

  /** Degrees Fahrenheit of a reading in thousandths of a degree Celsius. */
  function MillidegreeCelsiusToFahrenheit(millidegreesCelsius: real): (fahrenheit: real)
    ensures FahrenheitToMillidegreeCelsius(fahrenheit) == millidegreesCelsius
    ensures millidegreesCelsius > 0.0 <==> fahrenheit > 32.0
  {
    var celsius := millidegreesCelsius * 0.001;
    (celsius * 9.0 / 5.0) + 32.0
  }

  /** The reference inverse: thousandths of a degree Celsius of a Fahrenheit temperature. */
  function FahrenheitToMillidegreeCelsius(fahrenheit: real): real {
    (fahrenheit - 32.0) * 5.0 / 9.0 * 1000.0
  }

  /** The conversion and its inverse undo each other, in both orders. */
  lemma ConversionRoundTrip(m: real, f: real)
    ensures FahrenheitToMillidegreeCelsius(MillidegreeCelsiusToFahrenheit(m)) == m
    ensures MillidegreeCelsiusToFahrenheit(FahrenheitToMillidegreeCelsius(f)) == f
  {
  }

  /** The conversion is strictly increasing: it preserves the order of readings in both directions. */
  lemma ConversionStrictlyIncreasing(a: real, b: real)
    ensures a < b <==> MillidegreeCelsiusToFahrenheit(a) < MillidegreeCelsiusToFahrenheit(b)
    ensures a == b <==> MillidegreeCelsiusToFahrenheit(a) == MillidegreeCelsiusToFahrenheit(b)
  {
  }

  /** Freezing, boiling, a room reading of 23 degrees Celsius, and the point where both scales agree. */
  lemma ConversionFixedPoints()
    ensures MillidegreeCelsiusToFahrenheit(0.0) == 32.0
    ensures MillidegreeCelsiusToFahrenheit(100000.0) == 212.0
    ensures MillidegreeCelsiusToFahrenheit(23000.0) == 73.4
    ensures MillidegreeCelsiusToFahrenheit(-40000.0) == -40.0
  {
  }
}
