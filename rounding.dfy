/**
 * Python's built-in `round(x, places)`, stated on exact reals: the result is the
 * multiple of 10^-places nearest to `x`, ties going to the even multiple.
 */
module Rounding {

  function Pow10(n: nat): (p: nat)
    ensures p >= 1
  {
    if n == 0 then 1 else 10 * Pow10(n - 1)
  }

  /** 10^places as a real, the factor that turns `places` decimals into an integer. */
  function Scale(places: nat): (s: real)
    ensures s >= 1.0
  {
    Pow10(places) as real
  }

  /** `x` has at most `places` digits after the decimal point. */
  predicate HasPlaces(x: real, places: nat)
  {
    (x * Scale(places)).Floor as real == x * Scale(places)
  }

  /** The integer nearest to `y`, ties going to the even one. */
  function NearestEven(y: real): (k: int)
    ensures -0.5 <= k as real - y <= 0.5
    ensures (k as real - y == 0.5 || y - k as real == 0.5) ==> k % 2 == 0
  {
    var f := y.Floor;
    var d := y - f as real;
    if d < 0.5 then f
    else if d > 0.5 then f + 1
    else if f % 2 == 0 then f
    else f + 1
  }

  function Round(x: real, places: nat): real
  {
    NearestEven(x * Scale(places)) as real / Scale(places)
  }

  /** An integer number of 10^-places steps has `places` decimals. */
  lemma IntegerOverScale(k: int, places: nat)
    ensures (k as real / Scale(places)) * Scale(places) == k as real
    ensures HasPlaces(k as real / Scale(places), places)
  {
  }

  /**
   * The rounded value has `places` decimals and lies within half a step
   * (half of 10^-places) of `x`.
   */
  lemma RoundSpec(x: real, places: nat)
    ensures HasPlaces(Round(x, places), places)
    ensures -0.5 <= (Round(x, places) - x) * Scale(places) <= 0.5
  {
    var k := NearestEven(x * Scale(places));
    IntegerOverScale(k, places);
    calc {
      (Round(x, places) - x) * Scale(places);
      (k as real / Scale(places)) * Scale(places) - x * Scale(places);
      k as real - x * Scale(places);
    }
  }

  /** A value that already has `places` decimals is left unchanged. */
  lemma RoundExact(x: real, places: nat)
    requires HasPlaces(x, places)
    ensures Round(x, places) == x
  {
  }
}
