/**
 * The unit and direction converters of
 * frontend/src/services/weatherService.ts: `degToCompass` and
 * `convertTemperature`. Numbers are exact reals; `Math.round` rounds to the
 * nearest integer with halves going up, that is floor(x + 1/2).
 */
module Converters {
  import opened Wrappers

  /** `Math.round`. */
  function Round(x: real): (n: int)
    ensures x - 0.5 < n as real <= x + 0.5
  {
    (x + 0.5).Floor
  }

  /** Rounding never reverses the order of two numbers. */
  lemma RoundMonotone(x: real, y: real)
    requires x <= y
    ensures Round(x) <= Round(y)
  {
    assert Round(x) as real < Round(y) as real + 1.0;
  }

  /** JavaScript's `%` on integers: the remainder takes the sign of the
      dividend (a negative dividend that is a multiple of `n` gives -0, which
      indexes an array like 0). */
  function JsRem(a: int, n: int): (r: int)
    requires n > 0
    ensures a >= 0 ==> 0 <= r < n
    ensures a < 0 ==> -n < r <= 0
    ensures exists q: int :: a == q * n + r
  {
    if a < 0 then
      var q := (-a) / n;
      assert -a == q * n + (-a) % n;
      assert a == (-q) * n + -((-a) % n);
      -((-a) % n)
    else
      assert a == (a / n) * n + a % n;
      a % n
  }

  /** The eight compass points, clockwise from north, 45 degrees apart. */
  const Directions: seq<string> := ["N", "NE", "E", "SE", "S", "SW", "W", "NW"]

  /** `degToCompass`: `directions[Math.round(deg / 45) % 8]`, which is
      `undefined` when the index is negative. */
  function DegToCompass(deg: real): (r: Option<string>)
    ensures r.Some? ==> r.value in Directions
    ensures deg >= -22.5 ==> r.Some?
  {
    var i := JsRem(Round(deg / 45.0), 8);
    if 0 <= i then Some(Directions[i]) else None
  }

  /** A heading within 22.5 degrees of the k-th point (the lower edge
      included) is labelled with that point. */
  lemma {:induction false} CompassSector(deg: real, k: nat)
    requires 45.0 * k as real - 22.5 <= deg < 45.0 * k as real + 22.5
    ensures DegToCompass(deg) == Some(Directions[k % 8])
  {
    var n := Round(deg / 45.0);
    assert k as real - 0.5 <= deg / 45.0 < k as real + 0.5;
    assert n == k;
  }

  /** Every heading from -22.5 degrees up has a label; in particular every
      heading in [0, 360]. */
  lemma CompassDefined(deg: real)
    requires deg >= -22.5
    ensures DegToCompass(deg).Some? && DegToCompass(deg).value in Directions
  {
    assert deg / 45.0 >= -0.5;
  }

  /** A heading and the same heading one turn later get the same label. */
  lemma CompassPeriodic(deg: real)
    requires deg >= -22.5
    ensures DegToCompass(deg + 360.0) == DegToCompass(deg)
  {
    var n := Round(deg / 45.0);
    assert (deg + 360.0) / 45.0 == deg / 45.0 + 8.0;
    assert Round((deg + 360.0) / 45.0) == n + 8;
    CompassDefined(deg);
    assert n >= 0;
    assert (n + 8) % 8 == n % 8;
  }

  /** Below -22.5 degrees there is no turn-wrapping: the index is negative and
      the label undefined, unless the rounded index is a multiple of 8. */
  lemma CompassNegative(deg: real)
    requires deg < -22.5
    ensures DegToCompass(deg).None? <==> Round(deg / 45.0) % 8 != 0
  {
    assert Round(deg / 45.0) < 0;
  }

  /** The labels at the cardinal edges and the boundaries. */
  lemma CompassLandmarks()
    ensures DegToCompass(0.0) == Some("N") && DegToCompass(360.0) == Some("N")
    ensures DegToCompass(22.4) == Some("N") && DegToCompass(22.5) == Some("NE")
    ensures DegToCompass(44.0) == Some("NE") && DegToCompass(270.0) == Some("W")
    ensures DegToCompass(-22.5) == Some("N") && DegToCompass(-360.0) == Some("N")
    ensures DegToCompass(-90.0) == None
  {
    CompassSector(0.0, 0);
    CompassSector(360.0, 8);
    CompassSector(22.4, 0);
    CompassSector(22.5, 1);
    CompassSector(44.0, 1);
    CompassSector(270.0, 6);
    assert Round(-22.5 / 45.0) == 0;
    assert Round(-360.0 / 45.0) == -8;
    assert Round(-90.0 / 45.0) == -2;
  }

  /** The unit the temperatures are shown in. */
  datatype TemperatureUnit = C | F

  /** `convertTemperature`: from Celsius to the unit asked for, rounded to
      the nearest whole degree. */
  function ConvertTemperature(temp: real, to: TemperatureUnit): (r: int)
    ensures to == F ==> temp * 9.0 / 5.0 + 32.0 - 0.5 < r as real <= temp * 9.0 / 5.0 + 32.0 + 0.5
    ensures to == C ==> temp - 0.5 < r as real <= temp + 0.5
  {
    if to == F then Round(temp * 9.0 / 5.0 + 32.0) else Round(temp)
  }

  /** A warmer temperature never shows as a lower number, in either unit. */
  lemma ConvertMonotone(t: real, u: real, to: TemperatureUnit)
    requires t <= u
    ensures ConvertTemperature(t, to) <= ConvertTemperature(u, to)
  {
    if to == F {
      RoundMonotone(t * 9.0 / 5.0 + 32.0, u * 9.0 / 5.0 + 32.0);
    } else {
      RoundMonotone(t, u);
    }
  }

  /** Whole Celsius degrees are shown as they are. */
  lemma ConvertCelsiusWhole(n: int)
    ensures ConvertTemperature(n as real, C) == n
  {
  }

  /** Freezing, boiling and the point where both scales meet. */
  lemma ConvertLandmarks()
    ensures ConvertTemperature(0.0, F) == 32
    ensures ConvertTemperature(100.0, F) == 212
    ensures ConvertTemperature(-40.0, F) == -40
    ensures ConvertTemperature(20.0, C) == 20
  {
  }
}
