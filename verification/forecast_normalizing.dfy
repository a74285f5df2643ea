/**
 * `normalizeForecastDays` (frontend/src/services/weatherService.ts): the
 * sorted days are brought to exactly three, by pushing copies of the last day
 * onto the same array or by taking the first three. Also the forecast part of
 * `fetchWeatherByCity` as a whole: group, sort, normalise.
 */
module ForecastNormalizing {
  import opened Wrappers
  import opened WeatherTypes
  import opened ForecastGrouping

  /** The number of days the forecast always shows. */
  const ForecastLength: nat := 3

  /** What `normalizeForecastDays` throws: with no day at all, `lastDay` is
      undefined and reading its `date` fails. */
  datatype NormalizeError = NoLastDay

  /** A JavaScript array of forecast days: `push` grows it in place, `slice`
      copies a part of it into a new array. */
  class ForecastArray {
    var items: seq<ForecastDay>

    constructor (items: seq<ForecastDay>)
      ensures this.items == items
    {
      this.items := items;
    }

    method Push(d: ForecastDay)
      modifies this
      ensures items == old(items) + [d]
    {
      items := items + [d];
    }

    /** `slice(0, n)`, which stops at the end of the array. */
    method SlicePrefix(n: nat) returns (a: ForecastArray)
      ensures fresh(a)
      ensures a.items == if n <= |items| then items[..n] else items
    {
      a := new ForecastArray(if n <= |items| then items[..n] else items);
    }
  }

  /** The day pushed at position `offset`: the last day's temperatures, icon and
      description, dated `offset` days after it. */
  function Synthesized(last: ForecastDay, offset: int): (d: ForecastDay)
    ensures d.minTemp == last.minTemp && d.maxTemp == last.maxTemp
    ensures d.icon == last.icon && d.description == last.description
    ensures d.date - last.date == offset * SecondsPerDay && d.day == DayName(d.date)
  {
    var date := AddDays(last.date, offset);
    last.(date := date, day := DayName(date))
  }

  /** What the padding loop leaves behind: `days` followed by copies of `last`,
      each dated by the length of the array when it was pushed. */
  function PadFrom(days: seq<ForecastDay>, last: ForecastDay): (r: seq<ForecastDay>)
    ensures |r| == if |days| < ForecastLength then ForecastLength else |days|
    ensures r[..|days|] == days
    ensures forall i :: |days| <= i < |r| ==> r[i] == Synthesized(last, i)
    decreases ForecastLength - |days|
  {
    if |days| >= ForecastLength then days
    else PadFrom(days + [Synthesized(last, |days|)], last)
  }

  /** The value `normalizeForecastDays` returns for `days`: exactly three days
      whenever there is at least one, the real days first and in place, then
      copies of the last real day; an error when there is none. */
  function Normalized(days: seq<ForecastDay>): (r: Result<seq<ForecastDay>, NormalizeError>)
    ensures r.Ok? <==> days != []
    ensures r.Ok? ==> |r.value| == ForecastLength
    ensures r.Ok? ==> forall i :: 0 <= i < |days| && i < ForecastLength ==> r.value[i] == days[i]
    ensures r.Ok? ==> forall i :: |days| <= i < ForecastLength ==> r.value[i] == Synthesized(days[|days| - 1], i)
  {
    if |days| == ForecastLength then Ok(days)
    else if |days| < ForecastLength then
      if days == [] then Err(NoLastDay) else Ok(PadFrom(days, days[|days| - 1]))
    else Ok(days[..ForecastLength])
  }

  /** `normalizeForecastDays`: three days are returned as they are, fewer are
      padded by pushing onto the caller's own array, more are cut to a new
      array of the first three, and none makes it throw. */
  method NormalizeForecastDays(days: ForecastArray) returns (r: Result<ForecastArray, NormalizeError>)
    modifies days
    ensures r.Ok? <==> Normalized(old(days.items)).Ok?
    ensures r.Ok? ==> r.value.items == Normalized(old(days.items)).value
    ensures |old(days.items)| <= ForecastLength && r.Ok? ==> r.value == days
    ensures |old(days.items)| > ForecastLength ==> r.Ok? && fresh(r.value) && unchanged(days)
    ensures |old(days.items)| == ForecastLength || r.Err? ==> unchanged(days)
  {
    if |days.items| == ForecastLength {
      return Ok(days);
    }
    if |days.items| < ForecastLength {
      if days.items == [] {
        return Err(NoLastDay);
      }
      var lastDay := days.items[|days.items| - 1];
      var lastDate := lastDay.date;
      while |days.items| < ForecastLength
        invariant PadFrom(days.items, lastDay) == PadFrom(old(days.items), lastDay)
        decreases ForecastLength - |days.items|
      {
        var newDate := AddDays(lastDate, |days.items|);
        days.Push(lastDay.(date := newDate, day := DayName(newDate)));
      }
      return Ok(days);
    }
    var firstThree := days.SlicePrefix(ForecastLength);
    return Ok(firstThree);
  }

  /** The forecast `fetchWeatherByCity` returns for a list of samples. */
  function Forecast(samples: seq<RawSample>): (r: Result<seq<ForecastDay>, NormalizeError>)
    ensures r.Ok? ==> |r.value| == ForecastLength
    ensures r.Err? ==> r.error == NoLastDay && SortedDays(samples) == []
  {
    Normalized(SortedDays(samples))
  }

  /** Lines 56-93 of `fetchWeatherByCity`: group, sort, normalise. */
  method ProcessForecast(samples: seq<RawSample>) returns (r: Result<seq<ForecastDay>, NormalizeError>)
    ensures r == Forecast(samples)
  {
    var grouped, keyOrder := GroupByDay(samples);
    GroupOnePerDay(samples);
    var sorted := SortByDate(Values(grouped, keyOrder));
    assert sorted == SortedDays(samples);
    var forecastDays := new ForecastArray(sorted);
    var normalized := NormalizeForecastDays(forecastDays);
    if normalized.Ok? {
      r := Ok(normalized.value.items);
    } else {
      r := Err(normalized.error);
      assert normalized.error == NoLastDay && Normalized(sorted) == Err(NoLastDay);
    }
  }

  /** Each pushed day copies the last real day's temperatures, icon and
      description, and lies as many calendar days after it as the array was
      long when it was pushed: one real day is followed by the next two days,
      two real days by the day two days after the second. */
  lemma PaddedDayCopiesLast(days: seq<ForecastDay>, i: nat)
    requires 0 < |days| <= i < ForecastLength
    ensures var d, last := Normalized(days).value[i], days[|days| - 1];
            && d.minTemp == last.minTemp && d.maxTemp == last.maxTemp
            && d.icon == last.icon && d.description == last.description
            && d.date == last.date + i * SecondsPerDay
            && DayKeyOf(d.date) == DayKeyOf(last.date) + i
            && d.day == DayName(d.date)
  {
    AddDaysShiftsKey(days[|days| - 1].date, i);
  }

  /** Normalising an already normalised forecast changes nothing. */
  lemma NormalizeIdempotent(days: seq<ForecastDay>)
    requires days != []
    ensures Normalized(Normalized(days).value) == Normalized(days)
  {
  }

  /** A non-empty sample list records at least one day. */
  lemma NonEmptyGroups(samples: seq<RawSample>)
    requires samples != []
    ensures |Group(samples).days| >= 1
  {
    var k := DayKeyOf(samples[0].dt);
    assert samples[..0] == [];
    assert Processed(samples, 0);
    GroupKeys(samples, k);
    assert {k} <= Group(samples).days.Keys;
    assert |Group(samples).days| == |Group(samples).days.Keys|;
  }

  /** Days in strictly ascending order of date and of calendar day. */
  ghost predicate StrictlyAscending(days: seq<ForecastDay>) {
    forall i, j :: 0 <= i < j < |days| ==>
      days[i].date < days[j].date && DayKeyOf(days[i].date) < DayKeyOf(days[j].date)
  }

  /** Padding keeps ascending days ascending: every pushed day lies after the
      last real day and after the day pushed before it. */
  lemma NormalizedAscending(days: seq<ForecastDay>)
    requires days != [] && |days| <= ForecastLength && StrictlyAscending(days)
    ensures Normalized(days).Ok? && StrictlyAscending(Normalized(days).value)
  {
    var r, n, last := Normalized(days).value, |days|, days[|days| - 1];
    forall i, j | 0 <= i < j < ForecastLength
      ensures r[i].date < r[j].date && DayKeyOf(r[i].date) < DayKeyOf(r[j].date)
    {
      if j >= n {
        AddDaysShiftsKey(last.date, j);
        if i >= n {
          AddDaysShiftsKey(last.date, i);
        } else if i < n - 1 {
          assert r[i] == days[i] && r[n - 1] == last;
        }
      }
    }
  }

  /** Up to three days are kept in place and every padded day copies the last
      of them. */
  lemma NormalizedKeepsLast(days: seq<ForecastDay>)
    requires 1 <= |days| <= ForecastLength
    ensures Normalized(days).Ok?
    ensures forall i :: 0 <= i < |days| ==> Normalized(days).value[i] == days[i]
    ensures forall i :: |days| <= i < ForecastLength ==>
              Normalized(days).value[i] == Synthesized(Normalized(days).value[|days| - 1], i)
  {
    var r := Normalized(days).value;
    assert r[|days| - 1] == days[|days| - 1];
  }

  /** The forecast has exactly three days whenever there is at least one
      sample, and fails on none; its first days are the recorded days, in
      order, and the rest copy the last of them. */
  lemma ForecastShape(samples: seq<RawSample>)
    ensures Forecast(samples).Ok? <==> samples != []
    ensures Forecast(samples).Ok? ==> |Forecast(samples).value| == ForecastLength
    ensures Forecast(samples).Ok? ==>
              var n := |Group(samples).days|;
              && 1 <= n <= ForecastLength
              && (forall i :: 0 <= i < n ==> Forecast(samples).value[i] in Group(samples).days.Values)
              && (forall i :: n <= i < ForecastLength ==>
                    Forecast(samples).value[i] == Synthesized(Forecast(samples).value[n - 1], i))
  {
    var sd := SortedDays(samples);
    SortedDaysAscending(samples);
    if samples == [] {
      assert sd == [];
    } else {
      NonEmptyGroups(samples);
      NormalizedKeepsLast(sd);
      var r := Normalized(sd).value;
      forall i | 0 <= i < |sd|
        ensures r[i] in Group(samples).days.Values
      {
        assert r[i] == sd[i] && sd[i] in sd;
      }
    }
  }

  /** The three forecast days are in strictly ascending order of date and of
      calendar day, padded days included. */
  lemma ForecastAscending(samples: seq<RawSample>)
    requires samples != []
    ensures Forecast(samples).Ok? && StrictlyAscending(Forecast(samples).value)
  {
    SortedDaysAscending(samples);
    NonEmptyGroups(samples);
    NormalizedAscending(SortedDays(samples));
  }
}
