/**
 * The records the frontend exchanges (frontend/src/types/weather.ts) and the
 * calendar helpers the forecast code takes from date-fns.
 *
 * Timestamps are whole seconds since the Unix epoch. Calendar days are UTC
 * days: the day key of a timestamp is its day number since 1970-01-01.
 */
module WeatherTypes {

  const SecondsPerDay: int := 86400

  /** One three-hourly entry of the provider's forecast list, already parsed:
      `dt`, `main.temp_min`, `main.temp_max`, `weather[0].icon`, `weather[0].description`. */
  datatype RawSample = RawSample(dt: int, tempMin: int, tempMax: int, icon: string, description: string)

  /** `ForecastDay`: the date (a timestamp, not a midnight), its weekday label,
      the day's temperature range and the condition shown for it. */
  datatype ForecastDay = ForecastDay(date: int, day: string, minTemp: int, maxTemp: int,
                                     icon: string, description: string)

  /** The calendar day a timestamp falls in. */
  type DayKey = int

  function DayKeyOf(t: int): DayKey
  {
    t / SecondsPerDay
  }

  /** A timestamp lies within the day its key names. */
  lemma DayKeyBounds(t: int)
    ensures DayKeyOf(t) * SecondsPerDay <= t < (DayKeyOf(t) + 1) * SecondsPerDay
  {
  }

  /** Day keys never decrease as time goes on. */
  lemma DayKeyMonotone(t: int, u: int)
    requires t <= u
    ensures DayKeyOf(t) <= DayKeyOf(u)
  {
  }

  /** Moving a timestamp by whole days moves its day key by as many days. */
  function AddDays(t: int, n: int): int
  {
    t + n * SecondsPerDay
  }

  lemma AddDaysShiftsKey(t: int, n: int)
    ensures DayKeyOf(AddDays(t, n)) == DayKeyOf(t) + n
  {
  }

  /** Weekday labels, starting from the weekday of 1970-01-01 (a Thursday). */
  const WeekdayNames: seq<string> :=
    ["Thursday", "Friday", "Saturday", "Sunday", "Monday", "Tuesday", "Wednesday"]

  /** `formatDayName`: the English weekday of a timestamp. */
  function DayName(t: int): (name: string)
    ensures name in WeekdayNames
  {
    WeekdayNames[DayKeyOf(t) % 7]
  }
}
