/**
 * The classification helpers of frontend/src/utils/weatherIcons.tsx: which
 * icon an OpenWeatherMap icon code is drawn with, and which colour classes a
 * temperature (in the unit shown) is painted with.
 */
module WeatherIcons {

  /** The icons `getWeatherIcon` draws with. */
  datatype WeatherIcon = Sun | CloudSun | Cloud | CloudDrizzle | CloudRain | CloudLightning | CloudSnow | CloudFog

  /** `iconCode.slice(0, 2)`: the condition part of an icon code such as
      "10d", without the day/night letter; shorter codes are kept whole. */
  function Condition(code: string): (c: string)
    ensures |c| == if |code| < 2 then |code| else 2
    ensures c == code[..|c|]
  {
    if |code| < 2 then code else code[..2]
  }

  /** `getWeatherIcon`: the icon chosen for an icon code. */
  function WeatherIconFor(code: string): (icon: WeatherIcon)
    ensures Condition(code) in KnownConditions ==> icon == KnownConditions[Condition(code)]
    ensures Condition(code) !in KnownConditions ==> icon == Sun
  {
    match Condition(code)
    case "01" => Sun
    case "02" | "03" => CloudSun
    case "04" => Cloud
    case "09" => CloudDrizzle
    case "10" => CloudRain
    case "11" => CloudLightning
    case "13" => CloudSnow
    case "50" => CloudFog
    case _ => Sun
  }

  /** The conditions the switch names, with their icons. */
  const KnownConditions: map<string, WeatherIcon> :=
    map["01" := Sun, "02" := CloudSun, "03" := CloudSun, "04" := Cloud, "09" := CloudDrizzle,
        "10" := CloudRain, "11" := CloudLightning, "13" := CloudSnow, "50" := CloudFog]

  /** Only the first two characters count: the day and night variants of a
      code ("10d", "10n") are drawn alike. */
  lemma IconIgnoresDayNight(a: string, b: string)
    requires |a| >= 2 && |b| >= 2 && a[..2] == b[..2]
    ensures WeatherIconFor(a) == WeatherIconFor(b)
  {
    assert Condition(a) == Condition(b);
  }

  /** Few clouds ("02") and scattered clouds ("03") share the sun-behind-cloud icon. */
  lemma FewAndScatteredCloudsAlike(code: string)
    requires Condition(code) == "02" || Condition(code) == "03"
    ensures WeatherIconFor(code) == CloudSun
  {
  }

  /** The sun is drawn for clear sky and for every condition the switch does
      not name, and for nothing else. */
  lemma SunForClearOrUnknown(code: string)
    ensures WeatherIconFor(code) == Sun <==> Condition(code) == "01" || Condition(code) !in KnownConditions
  {
  }

  /** The upper edges of the temperature bands, each belonging to the band
      below it. */
  const TempThresholds: seq<real> := [0.0, 10.0, 20.0, 30.0]

  /** The background classes of the bands, coldest first. */
  const BackgroundClasses: seq<string> := ["bg-blue-100", "bg-blue-50", "bg-yellow-50", "bg-orange-50", "bg-red-50"]

  /** The text classes of the bands, coldest first. */
  const TextClasses: seq<string> := ["text-blue-700", "text-blue-600", "text-yellow-600", "text-orange-600", "text-red-600"]

  /** How many of the thresholds lie strictly below `t`. */
  function CountBelow(ths: seq<real>, t: real): (n: nat)
    ensures n <= |ths|
  {
    if ths == [] then 0 else (if ths[0] < t then 1 else 0) + CountBelow(ths[1..], t)
  }

  /** The band a temperature falls in: the number of band edges it exceeds. */
  function TempBand(t: real): nat {
    CountBelow(TempThresholds, t)
  }

  /** The band, counted edge by edge. */
  lemma TempBandByEdges(t: real)
    ensures TempBand(t) == (if t <= 0.0 then 0 else if t <= 10.0 then 1 else if t <= 20.0 then 2
                            else if t <= 30.0 then 3 else 4)
  {
    assert [30.0][1..] == [];
    assert CountBelow([30.0], t) == if 30.0 < t then 1 else 0;
    assert [20.0, 30.0][1..] == [30.0];
    assert CountBelow([20.0, 30.0], t) == (if 20.0 < t then 1 else 0) + CountBelow([30.0], t);
    assert [10.0, 20.0, 30.0][1..] == [20.0, 30.0];
    assert CountBelow([10.0, 20.0, 30.0], t) == (if 10.0 < t then 1 else 0) + CountBelow([20.0, 30.0], t);
    assert TempThresholds[1..] == [10.0, 20.0, 30.0];
  }

  /** `getTempColorClass`. */
  function TempColorClass(temp: real): (c: string)
    ensures c == BackgroundClasses[TempBand(temp)]
  {
    TempBandByEdges(temp);
    if temp <= 0.0 then "bg-blue-100"
    else if temp <= 10.0 then "bg-blue-50"
    else if temp <= 20.0 then "bg-yellow-50"
    else if temp <= 30.0 then "bg-orange-50"
    else "bg-red-50"
  }

  /** `getTempTextColorClass`. */
  function TempTextColorClass(temp: real): (c: string)
    ensures c == TextClasses[TempBand(temp)]
  {
    TempBandByEdges(temp);
    if temp <= 0.0 then "text-blue-700"
    else if temp <= 10.0 then "text-blue-600"
    else if temp <= 20.0 then "text-yellow-600"
    else if temp <= 30.0 then "text-orange-600"
    else "text-red-600"
  }

  /** Every temperature falls in exactly one of five bands, (-inf, 0], (0, 10],
      (10, 20], (20, 30] and (30, +inf): each upper edge is inclusive. */
  lemma TempBandBounds(t: real)
    ensures TempBand(t) < |BackgroundClasses|
    ensures TempBand(t) == 0 || TempThresholds[TempBand(t) - 1] < t
    ensures TempBand(t) == |TempThresholds| || t <= TempThresholds[TempBand(t)]
  {
    TempBandByEdges(t);
  }

  /** Counting edges below is monotone in the temperature. */
  lemma {:induction false} CountBelowMonotone(ths: seq<real>, t: real, u: real)
    requires t <= u
    ensures CountBelow(ths, t) <= CountBelow(ths, u)
  {
    if ths != [] {
      CountBelowMonotone(ths[1..], t, u);
    }
  }

  /** A warmer temperature never falls in a colder band. */
  lemma TempBandMonotone(t: real, u: real)
    requires t <= u
    ensures TempBand(t) <= TempBand(u)
  {
    CountBelowMonotone(TempThresholds, t, u);
  }

  /** The two class helpers use the same bands: two temperatures share a
      background class exactly when they share a text class, exactly when they
      fall in the same band. */
  lemma ColorClassesAgree(t: real, u: real)
    ensures TempColorClass(t) == TempColorClass(u) <==> TempBand(t) == TempBand(u)
    ensures TempTextColorClass(t) == TempTextColorClass(u) <==> TempBand(t) == TempBand(u)
  {
    TempBandBounds(t);
    TempBandBounds(u);
  }
}
