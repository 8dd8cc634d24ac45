/**
 * `get_cardinal_direction`: a bearing in degrees becomes the name of the
 * nearest of the 16 compass points, `round(degrees / 22.5) % 16`, where
 * `round` breaks ties towards even and `%` is never negative for a positive
 * divisor (so negative bearings wrap round as well).
 */
module Compass {
  import opened Rounding

  const CardinalNames: seq<string> :=
    ["N", "NNE", "NE", "ENE", "E", "ESE", "SE", "SSE",
     "S", "SSW", "SW", "WSW", "W", "WNW", "NW", "NNW"]

  /** Degrees between neighbouring compass points. */
  const SectorWidth: real := 22.5

  function CardinalIndex(degrees: real): (i: int)
    ensures 0 <= i < |CardinalNames|
  {
    RoundHalfEven(degrees / SectorWidth) % 16
  }

  /** `get_cardinal_direction(degrees)` */
  function CardinalDirection(degrees: real): (name: string)
    ensures name in CardinalNames
  {
    CardinalNames[CardinalIndex(degrees)]
  }

  /**
   * The name is that of compass point `k` (taken round the circle) whenever
   * `k` is `degrees / 22.5` rounded half to even.
   */
  lemma NearestPoint(degrees: real, k: int)
    requires IsRoundHalfEven(degrees / SectorWidth, k)
    ensures CardinalDirection(degrees) == CardinalNames[k % 16]
  {
    RoundHalfEvenUnique(degrees / SectorWidth, k);
  }

  /** A bearing strictly within half a sector of point `k` gets the name of point `k`. */
  lemma WithinSector(k: int, offset: real)
    requires -SectorWidth / 2.0 < offset < SectorWidth / 2.0
    ensures CardinalDirection(k as real * SectorWidth + offset) == CardinalNames[k % 16]
  {
    assert (k as real * SectorWidth + offset) / SectorWidth == k as real + offset / SectorWidth;
    NearestPoint(k as real * SectorWidth + offset, k);
  }

  /** Sixteen sectors make a full turn: adding or removing 16 from the ratio keeps the index. */
  lemma IndexPeriodic(x: real)
    ensures RoundHalfEven(x + 16.0) % 16 == RoundHalfEven(x) % 16
    ensures RoundHalfEven(x - 16.0) % 16 == RoundHalfEven(x) % 16
  {
    var n := RoundHalfEven(x);
    RoundHalfEvenShift(x, 8);
    RoundHalfEvenShift(x, -8);
    assert (n + 16) % 16 == n % 16;
    assert (n - 16) % 16 == n % 16;
  }

  /** One full turn, in either direction, does not change the name. */
  lemma FullTurn(degrees: real)
    ensures CardinalDirection(degrees + 360.0) == CardinalDirection(degrees)
    ensures CardinalDirection(degrees - 360.0) == CardinalDirection(degrees)
  {
    var x := degrees / SectorWidth;
    assert (degrees + 360.0) / SectorWidth == x + 16.0;
    assert (degrees - 360.0) / SectorWidth == x - 16.0;
    IndexPeriodic(x);
  }

  /** Helper for the named bearings below: the name at `degrees` is `name` when it is that of the nearest point. */
  lemma NameAt(degrees: real, k: int, name: string)
    requires IsRoundHalfEven(degrees / SectorWidth, k) && CardinalNames[k % 16] == name
    ensures CardinalDirection(degrees) == name
  {
    NearestPoint(degrees, k);
  }

  /** Bearings on compass points get those points' names. */
  lemma NamedBearings()
    ensures CardinalDirection(0.0) == "N"
    ensures CardinalDirection(22.5) == "NNE"
    ensures CardinalDirection(180.0) == "S"
  {
    NameAt(0.0, 0, "N");
    NameAt(22.5, 1, "NNE");
    NameAt(180.0, 8, "S");
  }

  /** Bearings near a full turn, and just below zero, wrap round: 15.96 and 16 become index 0, -1 becomes 15. */
  lemma WrapAround()
    ensures CardinalDirection(359.0) == "N"
    ensures CardinalDirection(360.0) == "N"
    ensures CardinalDirection(-22.5) == "NNW"
  {
    NameAt(359.0, 16, "N");
    NameAt(360.0, 16, "N");
    NameAt(-22.5, -1, "NNW");
  }

  /** Bearings exactly halfway between two points go to the even index: 0.5 to 0, 1.5 to 2, 15.5 to 16 (N). */
  lemma HalfwayBearings()
    ensures CardinalDirection(11.25) == "N"
    ensures CardinalDirection(33.75) == "NE"
    ensures CardinalDirection(348.75) == "N"
  {
    NameAt(11.25, 0, "N");
    NameAt(33.75, 2, "NE");
    NameAt(348.75, 16, "N");
  }
}
