/**
 * The forecast grouping loop of `fetchWeatherByCity`
 * (frontend/src/services/weatherService.ts): raw three-hourly samples are
 * bucketed by calendar day into a record keyed by day, the first sample of a
 * day fixes that day's entry, later samples of the same day widen its
 * temperature range, and once three distinct days are recorded every further
 * sample is skipped. The buckets are then sorted by date.
 */
module ForecastGrouping {
  import opened WeatherTypes

  /** Once this many distinct days are recorded, every later sample is skipped. */
  const MaxDays: nat := 3

  /** The state of the grouping loop: the `groupedForecast` record keyed by day,
      the order in which that record acquired its keys (the order
      `Object.values` enumerates it in), and the `uniqueDays` set. */
  datatype Grouping = Grouping(days: map<DayKey, ForecastDay>, order: seq<DayKey>, seen: set<DayKey>)

  const Start: Grouping := Grouping(map[], [], {})

  /** `Math.min` and `Math.max` on two temperatures. */
  function Min(a: int, b: int): int { if a <= b then a else b }

  function Max(a: int, b: int): int { if a <= b then b else a }

  /** The entry the first sample of a day creates. */
  function FirstEntry(s: RawSample): ForecastDay {
    ForecastDay(s.dt, DayName(s.dt), s.tempMin, s.tempMax, s.icon, s.description)
  }

  /** One iteration of the loop over the forecast list. */
  function Step(g: Grouping, s: RawSample): Grouping {
    var key := DayKeyOf(s.dt);
    if |g.seen| >= MaxDays then g
    else if key !in g.days then
      Grouping(g.days[key := FirstEntry(s)], g.order + [key], g.seen + {key})
    else
      var d := g.days[key];
      Grouping(g.days[key := d.(minTemp := Min(d.minTemp, s.tempMin), maxTemp := Max(d.maxTemp, s.tempMax))],
               g.order, g.seen)
  }

  /** The loop's state after it has gone over `samples` in order. */
  function Group(samples: seq<RawSample>): Grouping
  {
    if samples == [] then Start
    else Step(Group(samples[..|samples| - 1]), samples[|samples| - 1])
  }

  /** The loop itself: the record of days and the order of its keys. */
  method GroupByDay(samples: seq<RawSample>) returns (grouped: map<DayKey, ForecastDay>, keyOrder: seq<DayKey>)
    ensures grouped == Group(samples).days && keyOrder == Group(samples).order
  {
    grouped := map[];
    keyOrder := [];
    var uniqueDays: set<DayKey> := {};
    for i := 0 to |samples|
      invariant Grouping(grouped, keyOrder, uniqueDays) == Group(samples[..i])
    {
      assert samples[..i + 1][..i] == samples[..i];
      var item := samples[i];
      var dateKey := DayKeyOf(item.dt);
      if |uniqueDays| >= MaxDays {
        continue;
      }
      if dateKey !in grouped {
        grouped := grouped[dateKey := FirstEntry(item)];
        keyOrder := keyOrder + [dateKey];
        uniqueDays := uniqueDays + {dateKey};
      } else {
        grouped := grouped[dateKey := grouped[dateKey].(minTemp := Min(grouped[dateKey].minTemp, item.tempMin))];
        grouped := grouped[dateKey := grouped[dateKey].(maxTemp := Max(grouped[dateKey].maxTemp, item.tempMax))];
      }
    }
    assert samples[..|samples|] == samples;
  }

  /** The loop's invariant: the record and the set hold the same days, the key
      order lists each of them once, there are at most three, and each entry is
      filed under the day of its own date. */
  ghost predicate Wf(g: Grouping) {
    && g.seen == g.days.Keys
    && |g.order| == |g.seen| <= MaxDays
    && (forall i :: 0 <= i < |g.order| ==> g.order[i] in g.days)
    && (forall k :: k in g.days ==> k in g.order)
    && (forall i, j :: 0 <= i < j < |g.order| ==> g.order[i] != g.order[j])
    && (forall k :: k in g.days ==> DayKeyOf(g.days[k].date) == k)
  }

  lemma StepKeepsWf(g: Grouping, s: RawSample)
    requires Wf(g)
    ensures Wf(Step(g, s))
    ensures |g.seen| <= |Step(g, s).seen|
  {
    var key := DayKeyOf(s.dt);
    if |g.seen| < MaxDays {
      if key !in g.days {
        InsertKeepsWf(g, key, FirstEntry(s));
      } else {
        var d := g.days[key];
        var d' := d.(minTemp := Min(d.minTemp, s.tempMin), maxTemp := Max(d.maxTemp, s.tempMax));
        assert Step(g, s) == Grouping(g.days[key := d'], g.order, g.seen);
        assert d'.date == d.date;
      }
    }
  }

  lemma InsertKeepsWf(g: Grouping, key: DayKey, d: ForecastDay)
    requires Wf(g) && |g.seen| < MaxDays && key !in g.days && DayKeyOf(d.date) == key
    ensures Wf(Grouping(g.days[key := d], g.order + [key], g.seen + {key}))
  {
    assert |g.seen + {key}| == |g.seen| + 1;
  }

  /** Grouping yields at most one entry per day and at most three entries, and
      the record's key order lists exactly its keys, each once. */
  lemma {:induction false} GroupOnePerDay(samples: seq<RawSample>)
    ensures Wf(Group(samples))
    ensures |Group(samples).days| <= MaxDays
    ensures forall k :: k in Group(samples).days <==> k in Group(samples).order
    ensures forall i, j :: 0 <= i < j < |Group(samples).order| ==> Group(samples).order[i] != Group(samples).order[j]
  {
    if samples != [] {
      GroupOnePerDay(samples[..|samples| - 1]);
      StepKeepsWf(Group(samples[..|samples| - 1]), samples[|samples| - 1]);
    }
  }

  /** The number of recorded days never shrinks as more samples are read. */
  lemma {:induction false} SeenGrows(samples: seq<RawSample>, j: nat)
    requires j <= |samples|
    ensures |Group(samples[..j]).seen| <= |Group(samples).seen|
    decreases |samples|
  {
    if j < |samples| {
      var p := samples[..|samples| - 1];
      assert samples[..j] == p[..j];
      SeenGrows(p, j);
      GroupOnePerDay(p);
      StepKeepsWf(Group(p), samples[|samples| - 1]);
    } else {
      assert samples[..j] == samples;
    }
  }

  /** Sample `j` is read into the record: fewer than three days were recorded
      when the loop reached it. */
  ghost predicate Processed(samples: seq<RawSample>, j: int) {
    0 <= j < |samples| && |Group(samples[..j]).seen| < MaxDays
  }

  /** Reading one more sample is one more step of the loop. */
  lemma GroupSnoc(p: seq<RawSample>, x: RawSample)
    ensures Group(p + [x]) == Step(Group(p), x)
  {
    assert (p + [x])[..|p|] == p;
  }

  /** Appending a sample does not change whether sample `j` was processed. */
  lemma ProcessedSnocAt(p: seq<RawSample>, x: RawSample, j: int)
    requires 0 <= j < |p|
    ensures Processed(p + [x], j) <==> Processed(p, j)
    ensures (p + [x])[j] == p[j]
  {
    assert (p + [x])[..j] == p[..j];
  }

  /** Appending a sample does not change which earlier samples were processed. */
  lemma ProcessedPrefix(p: seq<RawSample>, x: RawSample)
    ensures forall j :: 0 <= j < |p| ==> (Processed(p + [x], j) <==> Processed(p, j)) && (p + [x])[j] == p[j]
    ensures Processed(p + [x], |p|) <==> |Group(p).seen| < MaxDays
    ensures Group(p + [x]) == Step(Group(p), x)
  {
    forall j | 0 <= j < |p|
      ensures (Processed(p + [x], j) <==> Processed(p, j)) && (p + [x])[j] == p[j]
    {
      ProcessedSnocAt(p, x, j);
    }
    GroupSnoc(p, x);
  }

  /** Before the cap is reached, every sample read so far was processed. */
  lemma AllProcessedBeforeCap(samples: seq<RawSample>)
    requires |Group(samples).seen| < MaxDays
    ensures forall j :: 0 <= j < |samples| ==> Processed(samples, j)
  {
    forall j | 0 <= j < |samples|
      ensures Processed(samples, j)
    {
      SeenGrows(samples, j);
    }
  }

  /** A day is recorded exactly when some processed sample falls on it. */
  lemma {:induction false} GroupKeys(samples: seq<RawSample>, k: DayKey)
    ensures k in Group(samples).days <==> exists j :: Processed(samples, j) && DayKeyOf(samples[j].dt) == k
  {
    if samples != [] {
      var p, x := samples[..|samples| - 1], samples[|samples| - 1];
      assert samples == p + [x];
      GroupKeys(p, k);
      ProcessedPrefix(p, x);
      if k in Group(samples).days && k !in Group(p).days {
        assert Processed(samples, |p|) && DayKeyOf(samples[|p|].dt) == k;
      }
    }
  }

  /** Once three days are recorded, the loop's state stays as it is. */
  lemma {:induction false} CapFreezes(samples: seq<RawSample>, rest: seq<RawSample>)
    requires |Group(samples).seen| >= MaxDays
    ensures Group(samples + rest) == Group(samples)
  {
    if rest == [] {
      assert samples + rest == samples;
    } else {
      var r, y := rest[..|rest| - 1], rest[|rest| - 1];
      assert samples + rest == (samples + r) + [y];
      CapFreezes(samples, r);
      GroupSnoc(samples + r, y);
    }
  }

  /** Once three days are recorded, no further sample changes anything:
      not even a sample of a day that is already recorded. */
  lemma {:induction false} SkippedAfterCap(samples: seq<RawSample>, rest: seq<RawSample>)
    requires |Group(samples).seen| >= MaxDays
    ensures Group(samples + rest) == Group(samples)
    ensures forall j :: |samples| <= j < |samples + rest| ==> !Processed(samples + rest, j)
  {
    CapFreezes(samples, rest);
    forall j | |samples| <= j < |samples + rest|
      ensures !Processed(samples + rest, j)
    {
      assert (samples + rest)[..j][..|samples|] == samples;
      SeenGrows((samples + rest)[..j], |samples|);
    }
  }

  /** The index of the first sample that falls on day `k` (or the length when
      none does). */
  function FirstOfDay(samples: seq<RawSample>, k: DayKey): (j: nat)
    ensures j <= |samples|
    ensures forall i :: 0 <= i < j ==> DayKeyOf(samples[i].dt) != k
    ensures j < |samples| ==> DayKeyOf(samples[j].dt) == k
  {
    if samples == [] then 0
    else if DayKeyOf(samples[0].dt) == k then 0
    else 1 + FirstOfDay(samples[1..], k)
  }

  lemma {:induction false} FirstOfDaySnoc(p: seq<RawSample>, x: RawSample, k: DayKey)
    ensures FirstOfDay(p, k) < |p| ==> FirstOfDay(p + [x], k) == FirstOfDay(p, k)
    ensures FirstOfDay(p, k) == |p| && DayKeyOf(x.dt) == k ==> FirstOfDay(p + [x], k) == |p|
  {
    if p != [] {
      assert (p + [x])[1..] == p[1..] + [x];
      FirstOfDaySnoc(p[1..], x, k);
    }
  }

  /** A later sample of a recorded day leaves its date, label, icon and description alone. */
  lemma StepKeepsLabels(g: Grouping, s: RawSample, k: DayKey)
    requires k in g.days
    ensures k in Step(g, s).days
    ensures var d, e := g.days[k], Step(g, s).days[k];
            d.date == e.date && d.day == e.day && d.icon == e.icon && d.description == e.description
  {
    var key := DayKeyOf(s.dt);
    if |g.seen| < MaxDays && key in g.days && key == k {
      var d := g.days[key];
      assert Step(g, s).days[k] == d.(minTemp := Min(d.minTemp, s.tempMin), maxTemp := Max(d.maxTemp, s.tempMax));
    }
  }

  /** While the cap is not reached, a day that is not recorded has no sample yet. */
  lemma NoEarlierSampleOfNewDay(p: seq<RawSample>, k: DayKey)
    requires |Group(p).seen| < MaxDays && k !in Group(p).days
    ensures FirstOfDay(p, k) == |p|
  {
    GroupKeys(p, k);
    AllProcessedBeforeCap(p);
    assert forall j :: 0 <= j < |p| ==> DayKeyOf(p[j].dt) != k;
  }

  /** The first sample of a recorded day is processed and fixes the entry's
      date (that sample's own timestamp), weekday label, icon and description. */
  lemma {:induction false} GroupFirstSampleFixes(samples: seq<RawSample>, k: DayKey)
    requires k in Group(samples).days
    ensures FirstOfDay(samples, k) < |samples| && Processed(samples, FirstOfDay(samples, k))
    ensures var d, s := Group(samples).days[k], samples[FirstOfDay(samples, k)];
            d.date == s.dt && d.day == DayName(s.dt) && d.icon == s.icon && d.description == s.description
  {
    var p, x := samples[..|samples| - 1], samples[|samples| - 1];
    assert samples == p + [x];
    ProcessedPrefix(p, x);
    if k in Group(p).days {
      GroupFirstSampleFixes(p, k);
      FirstOfDaySnoc(p, x, k);
      StepKeepsLabels(Group(p), x, k);
    } else {
      NoEarlierSampleOfNewDay(p, k);
      FirstOfDaySnoc(p, x, k);
    }
  }

  /** What one step does to the entry of day `k`: a processed sample of that
      day widens an existing entry or creates it, anything else leaves it alone. */
  lemma StepEntry(g: Grouping, s: RawSample, k: DayKey)
    requires k in Step(g, s).days
    ensures var hit := |g.seen| < MaxDays && DayKeyOf(s.dt) == k;
            && (k !in g.days ==> hit && Step(g, s).days[k] == FirstEntry(s))
            && (k in g.days && hit ==>
                  Step(g, s).days[k] == g.days[k].(minTemp := Min(g.days[k].minTemp, s.tempMin),
                                                   maxTemp := Max(g.days[k].maxTemp, s.tempMax)))
            && (k in g.days && !hit ==> Step(g, s).days[k] == g.days[k])
  {
  }

  /** A processed sample of a day lies within that day's recorded range. */
  lemma {:induction false} GroupBounds(samples: seq<RawSample>, k: DayKey)
    requires k in Group(samples).days
    ensures forall j :: Processed(samples, j) && DayKeyOf(samples[j].dt) == k ==>
              Group(samples).days[k].minTemp <= samples[j].tempMin &&
              samples[j].tempMax <= Group(samples).days[k].maxTemp
  {
    var p, x := samples[..|samples| - 1], samples[|samples| - 1];
    assert samples == p + [x];
    GroupSnoc(p, x);
    StepEntry(Group(p), x, k);
    var d := Group(samples).days[k];
    forall j | Processed(samples, j) && DayKeyOf(samples[j].dt) == k
      ensures d.minTemp <= samples[j].tempMin && samples[j].tempMax <= d.maxTemp
    {
      if j < |p| {
        ProcessedSnocAt(p, x, j);
        GroupKeys(p, k);
        GroupBounds(p, k);
      } else {
        assert p + [x] == samples && samples[..|p|] == p;
      }
    }
  }

  /** The recorded minimum is the `temp_min` of some processed sample of the day. */
  lemma {:induction false} GroupMinAttained(samples: seq<RawSample>, k: DayKey)
    requires k in Group(samples).days
    ensures exists j :: Processed(samples, j) && DayKeyOf(samples[j].dt) == k &&
              Group(samples).days[k].minTemp == samples[j].tempMin
  {
    var p, x := samples[..|samples| - 1], samples[|samples| - 1];
    assert samples == p + [x];
    GroupSnoc(p, x);
    StepEntry(Group(p), x, k);
    var d := Group(samples).days[k];
    assert Processed(samples, |p|) <==> |Group(p).seen| < MaxDays by {
      assert samples[..|p|] == p;
    }
    if k in Group(p).days {
      GroupMinAttained(p, k);
      var j :| Processed(p, j) && DayKeyOf(p[j].dt) == k && Group(p).days[k].minTemp == p[j].tempMin;
      ProcessedSnocAt(p, x, j);
      if d.minTemp != p[j].tempMin {
        assert d.minTemp == samples[|p|].tempMin;
      }
    } else {
      assert d.minTemp == samples[|p|].tempMin;
    }
  }

  /** The recorded maximum is the `temp_max` of some processed sample of the day. */
  lemma {:induction false} GroupMaxAttained(samples: seq<RawSample>, k: DayKey)
    requires k in Group(samples).days
    ensures exists j :: Processed(samples, j) && DayKeyOf(samples[j].dt) == k &&
              Group(samples).days[k].maxTemp == samples[j].tempMax
  {
    var p, x := samples[..|samples| - 1], samples[|samples| - 1];
    assert samples == p + [x];
    GroupSnoc(p, x);
    StepEntry(Group(p), x, k);
    var d := Group(samples).days[k];
    assert Processed(samples, |p|) <==> |Group(p).seen| < MaxDays by {
      assert samples[..|p|] == p;
    }
    if k in Group(p).days {
      GroupMaxAttained(p, k);
      var j :| Processed(p, j) && DayKeyOf(p[j].dt) == k && Group(p).days[k].maxTemp == p[j].tempMax;
      ProcessedSnocAt(p, x, j);
      if d.maxTemp != p[j].tempMax {
        assert d.maxTemp == samples[|p|].tempMax;
      }
    } else {
      assert d.maxTemp == samples[|p|].tempMax;
    }
  }

  /** Each recorded day's range is exactly the range of the samples that were
      processed for it: the minimum of their `temp_min` and the maximum of their
      `temp_max`, each attained by one of them. */
  lemma GroupAggregates(samples: seq<RawSample>, k: DayKey)
    requires k in Group(samples).days
    ensures forall j :: Processed(samples, j) && DayKeyOf(samples[j].dt) == k ==>
              Group(samples).days[k].minTemp <= samples[j].tempMin &&
              samples[j].tempMax <= Group(samples).days[k].maxTemp
    ensures exists j :: Processed(samples, j) && DayKeyOf(samples[j].dt) == k &&
              Group(samples).days[k].minTemp == samples[j].tempMin
    ensures exists j :: Processed(samples, j) && DayKeyOf(samples[j].dt) == k &&
              Group(samples).days[k].maxTemp == samples[j].tempMax
  {
    GroupBounds(samples, k);
    GroupMinAttained(samples, k);
    GroupMaxAttained(samples, k);
  }

  /** The third recorded day closes the record, so it holds the temperatures of
      its first sample only, whatever samples of that day follow. */
  lemma {:induction false} ThirdDayFromFirstSampleOnly(samples: seq<RawSample>)
    requires |Group(samples).order| == MaxDays
    ensures var k := Group(samples).order[MaxDays - 1];
            && k in Group(samples).days
            && FirstOfDay(samples, k) < |samples|
            && Group(samples).days[k] == FirstEntry(samples[FirstOfDay(samples, k)])
  {
    var p, x := samples[..|samples| - 1], samples[|samples| - 1];
    assert samples == p + [x];
    GroupSnoc(p, x);
    GroupOnePerDay(p);
    var g := Group(p);
    if |g.order| == MaxDays {
      assert Group(samples) == g;
      ThirdDayFromFirstSampleOnly(p);
      var k := g.order[MaxDays - 1];
      FirstOfDaySnoc(p, x, k);
      assert samples[FirstOfDay(p, k)] == p[FirstOfDay(p, k)];
    } else {
      var k := DayKeyOf(x.dt);
      assert |g.seen| < MaxDays && k !in g.days;
      assert Group(samples) == Grouping(g.days[k := FirstEntry(x)], g.order + [k], g.seen + {k});
      NoEarlierSampleOfNewDay(p, k);
      FirstOfDaySnoc(p, x, k);
    }
  }

  /** `Object.values(groupedForecast)`: the entries, in the order the record
      acquired its keys. */
  function Values(days: map<DayKey, ForecastDay>, order: seq<DayKey>): (r: seq<ForecastDay>)
    requires forall i :: 0 <= i < |order| ==> order[i] in days
    ensures |r| == |order|
    ensures forall i :: 0 <= i < |order| ==> r[i] == days[order[i]]
    ensures forall d :: d in r ==> d in days.Values
  {
    seq(|order|, i requires 0 <= i < |order| => days[order[i]])
  }

  ghost predicate SortedByDate(xs: seq<ForecastDay>) {
    forall i, j :: 0 <= i < j < |xs| ==> xs[i].date <= xs[j].date
  }

  /** Inserts `d` after every entry dated no later than it, so that the sort
      below is stable, like `Array.prototype.sort`. */
  function InsertByDate(d: ForecastDay, xs: seq<ForecastDay>): (r: seq<ForecastDay>)
    ensures multiset(r) == multiset(xs) + multiset{d}
  {
    if xs == [] then [d]
    else if d.date < xs[0].date then [d] + xs
    else
      assert xs == [xs[0]] + xs[1..];
      [xs[0]] + InsertByDate(d, xs[1..])
  }

  /** An entry dated no later than every entry of a sorted list can go first. */
  lemma ConsKeepsSorted(x: ForecastDay, ys: seq<ForecastDay>)
    requires SortedByDate(ys)
    requires forall j :: 0 <= j < |ys| ==> x.date <= ys[j].date
    ensures SortedByDate([x] + ys)
  {
    var r := [x] + ys;
    forall i, j | 0 <= i < j < |r|
      ensures r[i].date <= r[j].date
    {
      assert r[j] == ys[j - 1];
      if i > 0 {
        assert r[i] == ys[i - 1];
      }
    }
  }

  /** The entries of an insertion are the inserted one and the old ones. */
  lemma InsertMembers(d: ForecastDay, xs: seq<ForecastDay>, j: int)
    requires 0 <= j < |InsertByDate(d, xs)|
    ensures InsertByDate(d, xs)[j] == d || exists k :: 0 <= k < |xs| && xs[k] == InsertByDate(d, xs)[j]
  {
    var e := InsertByDate(d, xs)[j];
    assert e in multiset(InsertByDate(d, xs));
    if e != d {
      assert e in multiset(xs);
      assert e in xs;
    }
  }

  /** Inserting into a list sorted by date keeps it sorted. */
  lemma {:induction false} InsertKeepsSorted(d: ForecastDay, xs: seq<ForecastDay>)
    requires SortedByDate(xs)
    ensures SortedByDate(InsertByDate(d, xs))
  {
    if xs == [] {
    } else if d.date < xs[0].date {
      ConsKeepsSorted(d, xs);
    } else {
      var tail := xs[1..];
      var rest := InsertByDate(d, tail);
      InsertKeepsSorted(d, tail);
      forall j | 0 <= j < |rest|
        ensures xs[0].date <= rest[j].date
      {
        InsertMembers(d, tail, j);
        if rest[j] != d {
          var k :| 0 <= k < |tail| && tail[k] == rest[j];
          assert xs[k + 1] == rest[j];
        }
      }
      ConsKeepsSorted(xs[0], rest);
    }
  }

  /** `.sort((a, b) => a.date - b.date)`: the entries in ascending date order. */
  function SortByDate(xs: seq<ForecastDay>): (r: seq<ForecastDay>)
    ensures SortedByDate(r)
    ensures multiset(r) == multiset(xs)
  {
    if xs == [] then []
    else
      assert xs == xs[..|xs| - 1] + [xs[|xs| - 1]];
      InsertKeepsSorted(xs[|xs| - 1], SortByDate(xs[..|xs| - 1]));
      InsertByDate(xs[|xs| - 1], SortByDate(xs[..|xs| - 1]))
  }

  /** No two entries fall on the same day. */
  ghost predicate DistinctDays(xs: seq<ForecastDay>) {
    forall i, j :: 0 <= i < j < |xs| ==> DayKeyOf(xs[i].date) != DayKeyOf(xs[j].date)
  }

  lemma {:induction false} InsertKeepsDistinct(d: ForecastDay, xs: seq<ForecastDay>)
    requires SortedByDate(xs) && DistinctDays(xs)
    requires forall e :: e in xs ==> DayKeyOf(e.date) != DayKeyOf(d.date)
    ensures DistinctDays(InsertByDate(d, xs))
  {
    if xs != [] && d.date >= xs[0].date {
      var rest := InsertByDate(d, xs[1..]);
      InsertKeepsDistinct(d, xs[1..]);
      forall j | 0 <= j < |rest|
        ensures DayKeyOf(xs[0].date) != DayKeyOf(rest[j].date)
      {
        assert rest[j] in multiset(rest);
        assert rest[j] == d || rest[j] in xs[1..];
      }
      assert InsertByDate(d, xs) == [xs[0]] + rest;
    }
  }

  lemma {:induction false} SortKeepsDistinct(xs: seq<ForecastDay>)
    requires DistinctDays(xs)
    ensures DistinctDays(SortByDate(xs))
  {
    if xs != [] {
      var p, x := xs[..|xs| - 1], xs[|xs| - 1];
      SortKeepsDistinct(p);
      var sp := SortByDate(p);
      assert forall e :: e in sp ==> e in multiset(sp);
      assert forall e :: e in sp ==> e in p;
      InsertKeepsDistinct(x, sp);
    }
  }

  /** The grouped days, sorted by date. */
  function SortedDays(samples: seq<RawSample>): seq<ForecastDay>
  {
    GroupOnePerDay(samples);
    SortByDate(Values(Group(samples).days, Group(samples).order))
  }

  /** The values of the loop's record hold each recorded entry exactly once. */
  lemma ValuesOfWf(g: Grouping)
    requires Wf(g)
    ensures |Values(g.days, g.order)| == |g.days|
    ensures DistinctDays(Values(g.days, g.order))
    ensures forall d :: d in Values(g.days, g.order) <==> d in g.days.Values
  {
    assert |g.days| == |g.days.Keys|;
    forall k | k in g.days
      ensures g.days[k] in Values(g.days, g.order)
    {
      assert k in g.order;
      var i :| 0 <= i < |g.order| && g.order[i] == k;
      assert Values(g.days, g.order)[i] == g.days[k];
    }
  }

  lemma SortKeepsElements(xs: seq<ForecastDay>)
    ensures |SortByDate(xs)| == |xs|
    ensures forall d :: d in SortByDate(xs) <==> d in xs
  {
    var r := SortByDate(xs);
    assert |multiset(r)| == |multiset(xs)|;
    forall d
      ensures d in r <==> d in xs
    {
      assert d in r <==> d in multiset(r);
      assert d in xs <==> d in multiset(xs);
    }
  }

  lemma SortedDistinctAscending(r: seq<ForecastDay>)
    requires SortedByDate(r) && DistinctDays(r)
    ensures forall i, j :: 0 <= i < j < |r| ==> r[i].date < r[j].date && DayKeyOf(r[i].date) < DayKeyOf(r[j].date)
  {
    forall i, j | 0 <= i < j < |r|
      ensures r[i].date < r[j].date && DayKeyOf(r[i].date) < DayKeyOf(r[j].date)
    {
      DayKeyMonotone(r[i].date, r[j].date);
    }
  }

  /** After the sort the grouped days are exactly the recorded entries, one per
      day, at most three, in strictly ascending order of date and of day. */
  lemma SortedDaysAscending(samples: seq<RawSample>)
    ensures |SortedDays(samples)| == |Group(samples).days| <= MaxDays
    ensures forall d :: d in SortedDays(samples) <==> d in Group(samples).days.Values
    ensures forall i, j :: 0 <= i < j < |SortedDays(samples)| ==>
              SortedDays(samples)[i].date < SortedDays(samples)[j].date &&
              DayKeyOf(SortedDays(samples)[i].date) < DayKeyOf(SortedDays(samples)[j].date)
  {
    GroupOnePerDay(samples);
    var vs := Values(Group(samples).days, Group(samples).order);
    ValuesOfWf(Group(samples));
    SortKeepsElements(vs);
    SortKeepsDistinct(vs);
    SortedDistinctAscending(SortByDate(vs));
  }
}
