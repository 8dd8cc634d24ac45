/** The unit conversions the receive loop applies before storing a reading. */
module Units {
  import opened Rounding

  /** Miles per hour in one metre per second, as the source writes it. */
  const MphPerMps: real := 2.23694

  function MpsToMph(mps: real): real {
    mps * MphPerMps
  }

  /** `(c * 9/5) + 32` */
  function CelsiusToFahrenheit(c: real): real {
    c * 9.0 / 5.0 + 32.0
  }

  /**
   * The stored gust and temperature follow their readings: a stronger wind or
   * a warmer reading is never stored as a smaller value.
   */
  lemma DisplayedValuesMonotone(x: real, y: real)
    requires x <= y
    ensures RoundTo2(MpsToMph(x)) <= RoundTo2(MpsToMph(y))
    ensures RoundTo2(CelsiusToFahrenheit(x)) <= RoundTo2(CelsiusToFahrenheit(y))
  {
    RoundTo2Monotone(MpsToMph(x), MpsToMph(y));
    RoundTo2Monotone(CelsiusToFahrenheit(x), CelsiusToFahrenheit(y));
  }

  /** Reference values: 10 m/s shows as 22.37 mph; 0, 20 and 100 degrees C show as 32, 68 and 212 degrees F. */
  lemma DisplayedReferenceValues()
    ensures RoundTo2(MpsToMph(10.0)) == 22.37
    ensures RoundTo2(CelsiusToFahrenheit(0.0)) == 32.0
    ensures RoundTo2(CelsiusToFahrenheit(20.0)) == 68.0
    ensures RoundTo2(CelsiusToFahrenheit(100.0)) == 212.0
  {
    RoundTo2Unique(MpsToMph(10.0), 2237);
    RoundTo2Unique(CelsiusToFahrenheit(0.0), 3200);
    RoundTo2Unique(CelsiusToFahrenheit(20.0), 6800);
    RoundTo2Unique(CelsiusToFahrenheit(100.0), 21200);
  }
}
