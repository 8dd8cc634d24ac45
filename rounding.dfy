/**
 * Python's built-in `round`, on exact reals: `round(x)` goes to the nearest
 * integer and breaks ties towards the even one; `round(x, 2)` does the same
 * at the second decimal place.
 */
module Rounding {

  /** `n` is an integer nearest to `x`, and the even one when `x` lies halfway between two. */
  predicate IsRoundHalfEven(x: real, n: int) {
    var d := n as real - x;
    -0.5 <= d <= 0.5 && ((d == 0.5 || d == -0.5) ==> n % 2 == 0)
  }

  /** `r` has at most two decimal places. */
  predicate IsHundredths(r: real) {
    (r * 100.0).Floor as real == r * 100.0
  }

  /** `round(x)` */
  function RoundHalfEven(x: real): (n: int)
    ensures IsRoundHalfEven(x, n)
  {
    var f := x.Floor;
    var frac := x - f as real;
    if frac < 0.5 then f
    else if frac > 0.5 then f + 1
    else if f % 2 == 0 then f
    else f + 1
  }

  /** The characterisation above pins `round(x)` down: no other integer satisfies it. */
  lemma RoundHalfEvenUnique(x: real, n: int)
    requires IsRoundHalfEven(x, n)
    ensures RoundHalfEven(x) == n
  {
    var m := RoundHalfEven(x);
    assert -1.0 <= (n - m) as real <= 1.0;
  }

  /** Shifting by a whole even number shifts `round(x)` by the same amount. */
  lemma RoundHalfEvenShift(x: real, k: int)
    ensures RoundHalfEven(x + (2 * k) as real) == RoundHalfEven(x) + 2 * k
  {
    var n := RoundHalfEven(x);
    assert (n + 2 * k) % 2 == n % 2;
    RoundHalfEvenUnique(x + (2 * k) as real, n + 2 * k);
  }

  /** `round` never reverses the order of two values. */
  lemma RoundHalfEvenMonotone(x: real, y: real)
    requires x <= y
    ensures RoundHalfEven(x) <= RoundHalfEven(y)
  {
  }

  /** `round(x, 2)` */
  function RoundTo2(x: real): (r: real)
    ensures IsHundredths(r)
    ensures -0.005 <= r - x <= 0.005
  {
    var n := RoundHalfEven(x * 100.0);
    assert (n as real / 100.0) * 100.0 == n as real;
    n as real / 100.0
  }

  /** `round(x, 2) == n / 100` exactly when `n` is `x * 100` rounded half to even. */
  lemma RoundTo2Unique(x: real, n: int)
    requires IsRoundHalfEven(x * 100.0, n)
    ensures RoundTo2(x) == n as real / 100.0
  {
    RoundHalfEvenUnique(x * 100.0, n);
  }

  /** A value that already has two decimals is left as it is. */
  lemma RoundTo2Idempotent(x: real)
    requires IsHundredths(x)
    ensures RoundTo2(x) == x
  {
    var n := (x * 100.0).Floor;
    assert IsRoundHalfEven(x * 100.0, n);
    RoundTo2Unique(x, n);
  }

  /** `round(_, 2)` never reverses the order of two values. */
  lemma RoundTo2Monotone(x: real, y: real)
    requires x <= y
    ensures RoundTo2(x) <= RoundTo2(y)
  {
    RoundHalfEvenMonotone(x * 100.0, y * 100.0);
  }
}
