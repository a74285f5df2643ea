# Weather app forecast core in Dafny

This project models the only part of the weather lookup app that has real logic: the frontend's
forecast normaliser and its small conversion and classification helpers. The normaliser lives in
`frontend/src/services/weatherService.ts` and turns the provider's three-hourly forecast samples
into exactly three forecast days. It works in four steps:

- it buckets samples by calendar day in a record keyed by day, with a set of the days seen;
- the first sample of a day fixes that day's entry;
- later samples of the same day widen its minimum and maximum temperature;
- once three days are recorded, every further sample is skipped.

The buckets are then sorted by date and passed to `normalizeForecastDays`. That function returns
three days as they are. It pads fewer days by pushing copies of the last day onto the same array,
and it cuts more days to the first three. The helpers are `degToCompass`, `convertTemperature`,
and the icon and colour-class choices of `frontend/src/utils/weatherIcons.tsx`.

Modules and files:

- `wrappers.dfy` (`Wrappers`): `Option` (JavaScript's `undefined`) and `Result` (a thrown error).
- `weather_types.dfy` (`WeatherTypes`): the raw sample and `ForecastDay` records. It also holds the
  calendar helpers: the day key of a timestamp, adding whole days, and the weekday label.
- `forecast_grouping.dfy` (`ForecastGrouping`): the grouping loop as a method (`GroupByDay`). It is
  proved against the function `Group`, which folds one loop step at a time. Lemmas state what
  `Group` yields. The sort by date comes after the loop.
- `forecast_normalizing.dfy` (`ForecastNormalizing`): `normalizeForecastDays` as a method on a
  growable array object (`ForecastArray`, whose `Push` updates it in place). It is proved against
  the function `Normalized`. The module also holds the whole forecast pipeline (`ProcessForecast`
  and `Forecast`) and the properties of its output.
- `forecast_scenarios.dfy` (`ForecastScenarios`): worked sample lists.
- `converters.dfy` (`Converters`): `degToCompass` and `convertTemperature`.
- `weather_icons.dfy` (`WeatherIcons`): `getWeatherIcon`, `getTempColorClass` and
  `getTempTextColorClass`.

Representation choices:

- Timestamps are whole seconds since the epoch.
- A calendar day is a UTC day number: `dt / 86400`.
- "Add n days" adds `n * 86400`.
- The weekday label is the English weekday of that UTC day.
- Forecast temperatures are integers, because only their order matters.
- The converters and the colour bands take exact reals. `Math.round(x)` is `floor(x + 1/2)`.
- JavaScript's `%` keeps the sign of the dividend.
- The grouping record is a `map` from day to entry. Beside it, a sequence holds the order in which
  the record acquired its keys. That is the order `Object.values` enumerates such keys in.

The model follows the code where the code's behaviour differs from what one would expect of a
"group into days, pad to three" routine:

- The cap test `uniqueDays.size >= 3` comes before the day lookup. So once three days exist, every
  later sample is skipped, including later samples of days already recorded. The third day
  therefore holds only its first sample's temperatures (`ThirdDayFromFirstSampleOnly`,
  `LateSampleOfRecordedDaySkipped`).
- With no day at all, `normalizeForecastDays` reads `.date` of `undefined` and throws. The model
  returns `Err(NoLastDay)`, not an empty forecast.
- A pushed day is dated "last real date + current array length" days. One real day is followed by
  the next two days. Two real days are followed by a day two days after the second, so one
  calendar day is skipped (`PaddedDayCopiesLast`, `TwoDayScenario`).
- `degToCompass` does not reduce the heading modulo 360. Below -22.5 degrees the index is negative
  and the label is `undefined`, unless the rounded index is a multiple of 8 (then it is -0, which
  reads `"N"`). For example, -90 gives `undefined`, while 270 gives `"W"`.

## Model

| member | source | states |
|---|---|---|
| `WeatherTypes.DayKeyBounds` | frontend/src/services/weatherService.ts:61-62 | a timestamp lies inside the calendar day its key names |
| `WeatherTypes.DayName` | frontend/src/services/weatherService.ts:164-172 | the weekday label is one of the seven weekday names |
| `WeatherTypes.AddDaysShiftsKey` | frontend/src/services/weatherService.ts:133-134 | adding n days to a date moves its calendar day by exactly n |
| `ForecastGrouping.GroupByDay` | frontend/src/services/weatherService.ts:57-86 | the loop's record of days and its key order are those of `Group`, one loop step per sample (invariant: the loop state equals `Group` of the prefix read) |
| `ForecastGrouping.GroupOnePerDay` | frontend/src/services/weatherService.ts:57-86 | at most one entry per calendar day and at most three entries; the record and the `uniqueDays` set hold the same days; the key order lists each day once; each entry is filed under its own date's day |
| `ForecastGrouping.SeenGrows` | frontend/src/services/weatherService.ts:64-75 | the number of recorded days never shrinks as the loop goes on |
| `ForecastGrouping.StepEntry` | frontend/src/services/weatherService.ts:64-85 | one iteration: a sample read before the cap creates its day's entry or widens it with `Math.min`/`Math.max`; every other entry, and every entry once the cap is reached, stays as it was |
| `ForecastGrouping.GroupKeys` | frontend/src/services/weatherService.ts:64-75 | a day is recorded if and only if some sample processed before the cap falls on it |
| `ForecastGrouping.SkippedAfterCap` | frontend/src/services/weatherService.ts:64 | once three days are recorded, further samples change nothing and none of them is processed, even those of recorded days |
| `ForecastGrouping.FirstOfDay` | frontend/src/services/weatherService.ts:66 | the index found is the first sample on the given day, or the list length when there is none |
| `ForecastGrouping.GroupFirstSampleFixes` | frontend/src/services/weatherService.ts:66-75 | the first sample of a recorded day is processed and fixes the entry's date (its own timestamp, not midnight), weekday label, icon and description |
| `ForecastGrouping.GroupAggregates` | frontend/src/services/weatherService.ts:70-84 | a day's minTemp is at most every processed `temp_min` of that day and equals one of them; maxTemp is at least every processed `temp_max` and equals one of them |
| `ForecastGrouping.ThirdDayFromFirstSampleOnly` | frontend/src/services/weatherService.ts:64-75 | when three days are recorded, the third entry is exactly the entry its first sample created |
| `ForecastGrouping.Values` | frontend/src/services/weatherService.ts:89 | `Object.values` gives, at each position i, the entry of the i-th key in the order the record acquired its keys, and nothing else |
| `ForecastGrouping.ValuesOfWf` | frontend/src/services/weatherService.ts:57-89 | for the loop's record, the values hold every recorded entry exactly once: as many as there are days, each recorded entry present, no two on the same day |
| `ForecastGrouping.InsertByDate` | frontend/src/services/weatherService.ts:89-90 | an insertion holds the old entries and exactly one more, the inserted one |
| `ForecastGrouping.InsertKeepsSorted` | frontend/src/services/weatherService.ts:89-90 | inserting into a date-sorted list keeps it sorted |
| `ForecastGrouping.SortByDate` | frontend/src/services/weatherService.ts:89-90 | the result is sorted by date and is a permutation of the input |
| `ForecastGrouping.SortedDaysAscending` | frontend/src/services/weatherService.ts:88-90 | the sorted buckets are exactly the recorded entries, at most three, in strictly ascending order of date and of calendar day |
| `ForecastNormalizing.ForecastArray.Push` | frontend/src/services/weatherService.ts:136-140 | `push` appends one day to the same array |
| `ForecastNormalizing.ForecastArray.SlicePrefix` | frontend/src/services/weatherService.ts:145 | `slice(0, n)` gives a new array of the first n days, or of all of them when there are fewer |
| `ForecastNormalizing.Synthesized` | frontend/src/services/weatherService.ts:133-140 | a pushed record copies the last day's temperatures, icon and description; its date is `offset` whole days after the last day's, and its label is the weekday of that date |
| `ForecastNormalizing.PadFrom` | frontend/src/services/weatherService.ts:132-141 | padding reaches length three, keeps the existing days in place, and puts at each new position i a copy of the last day dated i days after it |
| `ForecastNormalizing.Normalized` | frontend/src/services/weatherService.ts:125-146 | succeeds if and only if there is at least one day; then exactly three days; the first min(n, 3) input days kept in place; the rest are copies of the last real day |
| `ForecastNormalizing.NormalizeForecastDays` | frontend/src/services/weatherService.ts:125-146 | returns the `Normalized` days; three days come back as the same unchanged array; fewer are padded in the caller's array, which is returned; more give a fresh array and leave the input untouched; none is an error with the array untouched |
| `ForecastNormalizing.PaddedDayCopiesLast` | frontend/src/services/weatherService.ts:129-141 | a pushed day copies the last real day's minTemp, maxTemp, icon and description and is dated as many days later as the array was long at the push (one real day: +1 and +2; two: +2) |
| `ForecastNormalizing.NormalizeIdempotent` | frontend/src/services/weatherService.ts:125-126 | normalising a normalised forecast returns it unchanged |
| `ForecastNormalizing.NormalizedAscending` | frontend/src/services/weatherService.ts:128-142 | padding strictly ascending days keeps all three strictly ascending by date and calendar day |
| `ForecastNormalizing.NonEmptyGroups` | frontend/src/services/weatherService.ts:60-75 | a non-empty sample list records at least one day |
| `ForecastNormalizing.ForecastShape` | frontend/src/services/weatherService.ts:56-93 | the forecast succeeds if and only if there is a sample; it then has exactly three days; the first are the recorded entries and the rest copy the last of them |
| `ForecastNormalizing.ForecastAscending` | frontend/src/services/weatherService.ts:88-93 | the three forecast days are strictly ascending by date and by calendar day, padded days included |
| `ForecastNormalizing.Forecast` | frontend/src/services/weatherService.ts:56-93 | a successful forecast has exactly three days; the only failure is the missing last day, when no day was recorded |
| `ForecastNormalizing.ProcessForecast` | frontend/src/services/weatherService.ts:56-93 | grouping, sorting and normalising give `Forecast` of the samples |
| `ForecastScenarios.TwoDayScenario` | frontend/src/services/weatherService.ts:56-146 | nine samples over two days (10..18 and 12..20 degrees) give those two days and, third, a copy of the second dated two days after it |
| `ForecastScenarios.LateSampleOfRecordedDaySkipped` | frontend/src/services/weatherService.ts:64 | a colder and warmer sample of the first day that arrives after the third day is ignored |
| `Converters.Round` | frontend/src/services/weatherService.ts:175 | `Math.round` gives the integer within half of x, halves going up |
| `Converters.RoundMonotone` | frontend/src/services/weatherService.ts:175 | rounding preserves order |
| `Converters.JsRem` | frontend/src/services/weatherService.ts:151 | `%` gives the remainder of truncating division: the dividend minus the remainder is a multiple of n, and the remainder lies in [0, n) for a non-negative dividend and in (-n, 0] for a negative one |
| `Converters.DegToCompass` | frontend/src/services/weatherService.ts:149-152 | the label, when there is one, is one of the eight compass points, and every heading from -22.5 degrees up has one |
| `Converters.CompassSector` | frontend/src/services/weatherService.ts:149-152 | a heading in [45k - 22.5, 45k + 22.5) is labelled with point k mod 8 |
| `Converters.CompassDefined` | frontend/src/services/weatherService.ts:149-152 | every heading from -22.5 up, so every heading in [0, 360], has one of the eight labels |
| `Converters.CompassPeriodic` | frontend/src/services/weatherService.ts:149-152 | from -22.5 up, adding a full turn does not change the label |
| `Converters.CompassNegative` | frontend/src/services/weatherService.ts:149-152 | below -22.5 the label is undefined if and only if the rounded index is not a multiple of 8 |
| `Converters.CompassLandmarks` | frontend/src/services/weatherService.ts:149-152 | 0 and 360 give N, 22.4 gives N, 22.5 and 44 give NE, 270 gives W, -22.5 and -360 give N, -90 is undefined |
| `Converters.ConvertTemperature` | frontend/src/services/weatherService.ts:174-176 | for F, the integer within half a degree of t * 9/5 + 32; for C, the integer within half a degree of t |
| `Converters.ConvertMonotone` | frontend/src/services/weatherService.ts:174-176 | both units are monotone non-decreasing in the temperature |
| `Converters.ConvertCelsiusWhole` | frontend/src/services/weatherService.ts:175 | a whole Celsius temperature is shown unchanged |
| `Converters.ConvertLandmarks` | frontend/src/services/weatherService.ts:174-176 | 0 C is 32 F, 100 C is 212 F, -40 C is -40 F, and 20 C stays 20 |
| `WeatherIcons.Condition` | frontend/src/utils/weatherIcons.tsx:17 | the condition is the code's first two characters, or the whole code when shorter |
| `WeatherIcons.WeatherIconFor` | frontend/src/utils/weatherIcons.tsx:14-40 | the icon is the switch's entry for the code's condition, and the sun for any condition the switch does not name |
| `WeatherIcons.IconIgnoresDayNight` | frontend/src/utils/weatherIcons.tsx:15-17 | codes with the same first two characters, such as "10d" and "10n", choose the same icon |
| `WeatherIcons.FewAndScatteredCloudsAlike` | frontend/src/utils/weatherIcons.tsx:22-24 | conditions "02" and "03" both choose CloudSun |
| `WeatherIcons.SunForClearOrUnknown` | frontend/src/utils/weatherIcons.tsx:20-38 | the sun is chosen if and only if the condition is "01" or unrecognised |
| `WeatherIcons.TempColorClass` | frontend/src/utils/weatherIcons.tsx:43-49 | the background class is that of the temperature's band, where the band counts the edges 0, 10, 20, 30 lying strictly below it |
| `WeatherIcons.TempTextColorClass` | frontend/src/utils/weatherIcons.tsx:52-58 | the text class is that of the same band |
| `WeatherIcons.TempBandBounds` | frontend/src/utils/weatherIcons.tsx:43-58 | every temperature lies in exactly one of the five bands (-inf, 0], (0, 10], (10, 20], (20, 30], (30, +inf), each upper edge inclusive |
| `WeatherIcons.CountBelowMonotone` | frontend/src/utils/weatherIcons.tsx:43-58 | counting the edges below a temperature is monotone in it |
| `WeatherIcons.TempBandMonotone` | frontend/src/utils/weatherIcons.tsx:43-58 | a warmer temperature never falls in a colder band |
| `WeatherIcons.ColorClassesAgree` | frontend/src/utils/weatherIcons.tsx:43-58 | two temperatures share a background class if and only if they share a text class, if and only if they share a band |

## Left out

- `fetchApi`, the geocoding and weather requests, and the building of `WeatherData` from the current conditions (frontend/src/services/weatherService.ts:9-54, 95-121): these are network I/O and JSON handling. The logging calls are side effects only.
- `formatDateToHumanReadable` (frontend/src/services/weatherService.ts:154-162): its output depends on the locale and time zone.
- `formatDayName` is modelled as the English weekday of a UTC day. Its error branch, which returns "", cannot arise, because dates here are always valid integers.
- Time zones: `startOfDay`, `format` and `setDate` work in the browser's local time, and `setDate` is aware of daylight saving. The model uses UTC days of exactly 86400 seconds.
- Floating point: forecast temperatures are integers, and the converters compute on exact reals. Binary rounding of `temp * 9 / 5 + 32` is not modelled.
- Malformed samples: the model takes samples that are already parsed records with integer fields.
  - In the source, a missing `main` throws only for a sample read before the cap (weatherService.ts:64 skips later ones before reading `item.main`).
  - A missing `weather[0]` throws only for the first sample of a day (lines 72-73).
  - The model has neither error path.
- Out-of-range timestamps: a `dt` that is missing, or whose time lies outside JavaScript's `Date` range (more than 8.64e12 seconds from the epoch), makes `format` on line 62 throw a `RangeError`. This happens before the cap test, so even a sample that would be skipped throws. The model accepts every integer `dt`.
- `Converters.DegToCompass`: a missing or `NaN` heading (`current.wind.deg`, line 102) gives `undefined` in the source whatever its value. Headings here are exact reals, so the model returns `None` only below -22.5 degrees.
- `getWeatherIcon` returns a JSX element. The model gives only the chosen icon, not the element's `size` or colour `className`. A code that is not a string is not modelled.
- `WeatherIcons.TempColorClass`, `WeatherIcons.TempTextColorClass`: the temperatures are exact reals, so a JavaScript `NaN` is not modelled. `NaN` fails every comparison and would fall to the hottest band.
- `ForecastGrouping.SortByDate`: this is an insertion sort, stable like `Array.prototype.sort`. The comparator's subtraction of millisecond times is modelled as a comparison of dates. Since the recorded dates are all distinct, the result does not depend on stability.
- Aliasing beyond `normalizeForecastDays`: in the source, the only array that is mutated is the fresh one built from `Object.values`. `ProcessForecast` likewise builds a fresh `ForecastArray`.
- React components, the PHP backend (proxy routes and stub controllers) and the CORS and Vite configuration: these are rendering, HTTP and configuration, with no logic to model.
