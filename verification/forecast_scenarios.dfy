/**
 * Worked forecasts for concrete sample lists, following
 * frontend/src/services/weatherService.ts as written.
 */
module ForecastScenarios {
  import opened Wrappers
  import opened WeatherTypes
  import opened ForecastGrouping
  import opened ForecastNormalizing

  function Sample(dt: int, tempMin: int, tempMax: int): RawSample {
    RawSample(dt, tempMin, tempMax, "10d", "light rain")
  }

  function Day(date: int, day: string, minTemp: int, maxTemp: int): ForecastDay {
    ForecastDay(date, day, minTemp, maxTemp, "10d", "light rain")
  }

  /** Five samples of Thursday 1970-01-01, spanning 10 to 18 degrees. */
  const FirstDaySamples: seq<RawSample> :=
    [Sample(0, 14, 15), Sample(10800, 10, 12), Sample(21600, 12, 18), Sample(32400, 16, 17), Sample(43200, 13, 14)]

  /** Four samples of the Friday after, spanning 12 to 20 degrees. */
  const SecondDaySamples: seq<RawSample> :=
    [Sample(86400, 12, 13), Sample(97200, 15, 20), Sample(108000, 14, 16), Sample(118800, 13, 19)]

  lemma FirstDayOpened()
    ensures Group(FirstDaySamples[..3]) == Grouping(map[0 := Day(0, "Thursday", 10, 18)], [0], {0})
  {
    var s := FirstDaySamples;
    assert s[..1] == [] + [s[0]];
    GroupSnoc([], s[0]);
    assert Group(s[..1]) == Grouping(map[0 := Day(0, "Thursday", 14, 15)], [0], {0});
    assert s[..2] == s[..1] + [s[1]];
    GroupSnoc(s[..1], s[1]);
    assert Group(s[..2]) == Grouping(map[0 := Day(0, "Thursday", 10, 15)], [0], {0});
    assert s[..3] == s[..2] + [s[2]];
    GroupSnoc(s[..2], s[2]);
  }

  lemma FirstDayGrouped()
    ensures Group(FirstDaySamples) == Grouping(map[0 := Day(0, "Thursday", 10, 18)], [0], {0})
  {
    var s := FirstDaySamples;
    FirstDayOpened();
    assert s[..4] == s[..3] + [s[3]];
    GroupSnoc(s[..3], s[3]);
    assert Group(s[..4]) == Group(s[..3]);
    assert s == s[..4] + [s[4]];
    GroupSnoc(s[..4], s[4]);
  }

  lemma SecondDayOpened()
    ensures Group(FirstDaySamples + SecondDaySamples[..2]) ==
              Grouping(map[0 := Day(0, "Thursday", 10, 18), 1 := Day(86400, "Friday", 12, 20)], [0, 1], {0, 1})
  {
    FirstDayGrouped();
    var p, t := FirstDaySamples, SecondDaySamples;
    var m := map[0 := Day(0, "Thursday", 10, 18), 1 := Day(86400, "Friday", 12, 20)];
    assert p + t[..1] == p + [t[0]];
    GroupSnoc(p, t[0]);
    assert Group(p + t[..1]) == Grouping(m[1 := Day(86400, "Friday", 12, 13)], [0, 1], {0, 1});
    assert p + t[..2] == (p + t[..1]) + [t[1]];
    GroupSnoc(p + t[..1], t[1]);
  }

  lemma SecondDayGrouped()
    ensures Group(FirstDaySamples + SecondDaySamples) ==
              Grouping(map[0 := Day(0, "Thursday", 10, 18), 1 := Day(86400, "Friday", 12, 20)], [0, 1], {0, 1})
  {
    SecondDayOpened();
    var p, t := FirstDaySamples, SecondDaySamples;
    assert p + t[..3] == (p + t[..2]) + [t[2]];
    GroupSnoc(p + t[..2], t[2]);
    assert Group(p + t[..3]) == Group(p + t[..2]);
    assert p + t == (p + t[..3]) + [t[3]];
    GroupSnoc(p + t[..3], t[3]);
  }

  /** The two recorded days, in date order. */
  lemma TwoDaysSorted()
    ensures SortedDays(FirstDaySamples + SecondDaySamples) ==
              [Day(0, "Thursday", 10, 18), Day(86400, "Friday", 12, 20)]
  {
    SecondDayGrouped();
    var e0, e1 := Day(0, "Thursday", 10, 18), Day(86400, "Friday", 12, 20);
    assert Values(map[0 := e0, 1 := e1], [0, 1]) == [e0, e1];
    assert [e0, e1][..1] == [e0];
    assert SortByDate([e0]) == [e0];
    assert SortByDate([e0, e1]) == [e0, e1];
  }

  /** Two days are padded with a copy of the second, two days later. */
  lemma TwoDaysPadded()
    ensures Normalized([Day(0, "Thursday", 10, 18), Day(86400, "Friday", 12, 20)]) ==
              Ok([Day(0, "Thursday", 10, 18), Day(86400, "Friday", 12, 20), Day(259200, "Sunday", 12, 20)])
  {
    var e0, e1, e2 := Day(0, "Thursday", 10, 18), Day(86400, "Friday", 12, 20), Day(259200, "Sunday", 12, 20);
    assert Synthesized(e1, 2) == e2;
    assert PadFrom([e0, e1, e2], e1) == [e0, e1, e2];
    assert PadFrom([e0, e1], e1) == [e0, e1, e2];
  }

  /** Nine three-hourly samples over two calendar days. The third forecast day
      is a copy of the second, dated two days after it (the array holds two
      days when the copy is pushed): a Sunday after a Friday. */
  lemma TwoDayScenario()
    ensures Forecast(FirstDaySamples + SecondDaySamples) ==
              Ok([Day(0, "Thursday", 10, 18), Day(86400, "Friday", 12, 20), Day(259200, "Sunday", 12, 20)])
  {
    TwoDaysSorted();
    TwoDaysPadded();
  }

  /** Once three days are recorded, a later sample of the first day is
      skipped too: its colder minimum and warmer maximum are lost. */
  lemma LateSampleOfRecordedDaySkipped()
    ensures var samples := [Sample(0, 20, 25), Sample(86400, 18, 22), Sample(172800, 17, 21), Sample(3600, 5, 30)];
            0 in Group(samples).days && Group(samples).days[0] == Day(0, "Thursday", 20, 25)
  {
    var s := [Sample(0, 20, 25), Sample(86400, 18, 22), Sample(172800, 17, 21), Sample(3600, 5, 30)];
    assert s[..1] == [] + [s[0]];
    GroupSnoc([], s[0]);
    assert s[..2] == s[..1] + [s[1]];
    GroupSnoc(s[..1], s[1]);
    assert s[..3] == s[..2] + [s[2]];
    GroupSnoc(s[..2], s[2]);
    assert |Group(s[..3]).seen| == 3 && Group(s[..3]).days[0] == Day(0, "Thursday", 20, 25);
    assert s == s[..3] + [s[3]];
    GroupSnoc(s[..3], s[3]);
  }
}
