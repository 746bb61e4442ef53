# spray-forecast: the spraying-suitability evaluator in Dafny

This project models the evaluator of spray-forecast. The evaluator reads an
hourly weather forecast series. For each hour it decides whether pesticide
or fertilizer can be sprayed, and it produces:

- a weather-condition label (heavy rain, light rain, clear, cloudy);
- a GREEN/YELLOW/RED status;
- the reasons for that status, in rule order;
- recommendations: foliar fertilizer in calm air inside a spray window, and
  insecticide within six hours after rain;
- warnings: rain later the same day (wash-off risk), and a run of at least
  three hours at 30 °C or more later the same day (burn risk).

Files:

- `config.dfy` (module `Config`): the thresholds of `config.py` as one
  constant record, `Default`.
- `spray.dfy` (module `Spray`): the model of `logic/spray.py`.
  - Time is whole seconds. An entry's local time is its UTC time plus the
    fixed JST offset of nine hours. The local hour is `(t % 86400) / 3600`
    and the calendar day is `t / 86400`.
  - The pure helpers are functions: the classifier, the spray window, and
    the day bounds.
  - The three scans are methods with loops, each proved against a
    specification predicate. `RainLaterToday` and `RecentRain` are
    existentials. `SustainedHeat` says that a hot run of the required
    length exists.
  - The evaluator is the method `Judge`, proved equal to the ghost
    function `Evaluate`. `JudgmentFor` gives the judgment of one entry in
    declarative form.
  - The loop body of `judge` is two methods. `ApplyHourRules` runs the
    status, reason and foliar rules, appending and overwriting in place.
    `JudgeHour` runs those rules, then the three scans.
- `spray_properties.dfy` (module `SprayProperties`): lemmas about
  `Evaluate`:
  - the rule set of one judgment;
  - exactly one judgment per entry at local hours 4–23, in input order;
  - time order on a sorted series;
  - what the scans mean on a time-ordered series.

The series is a `seq`, which is a value. `Judge` therefore cannot change
its input, and running it twice on the same input gives the same output.

The status rules run in order: wind, then rain, then temperature. The
temperature rule runs last. It sets YELLOW whenever the temperature is below
5 °C or above 30 °C, even when the wind or rain rule has already set RED.
`StatusFor` and `JudgmentStatus` state this precedence.

## Model

| member | source | states |
|---|---|---|
| Spray.Hour | logic/spray.py:17 | the local clock hour of an instant is in 0..23 |
| Spray.DateStart | logic/spray.py:24-26 | the result is midnight of the same local day: a whole multiple of a day, hour 0, not after the instant, less than a day before it |
| Spray.DateEnd | logic/spray.py:28-30 | the result is 23:59:59 of the same local day: not before the instant, and one second later the next day begins |
| Spray.WithinDayIffSameDay | logic/spray.py:42-44 | an instant lies between the day's start and end exactly when it is on the same local calendar day |
| Spray.InTimeWindow | logic/spray.py:16-22 | true iff the local hour is 4, 5, 6, 16, 17 or 18, so hours 7 and 19 are excluded |
| Spray.IsDisplayHour | logic/spray.py:142-145 | the four display ranges together admit exactly the hours 4..23 |
| Spray.WeatherCondition | logic/spray.py:5-14 | first match wins: heavy rain iff precip > 1.0; light rain iff 0.2 < precip ≤ 1.0; clear iff precip ≤ 0.2 and cloudiness < 20; cloudy otherwise |
| Spray.CheckPrecipitationToday | logic/spray.py:32-63 | returns true iff some entry is on the local day of `cur`, strictly after it, and has precipitation > 0.2; the amount is the one-hour block, else the six-hour block, else 0 |
| Spray.Upcoming | logic/spray.py:79-85 | every kept entry is on the local day of `cur` and strictly after it, and there are no more of them than entries in the series |
| Spray.TrailingRun | logic/spray.py:90-95 | the running count is the length of the hot run ending the filtered sequence: all those entries are hot and the one before is not |
| Spray.LongestRun | logic/spray.py:92-93 | the maximum so far is at least the running count and at most the length of the sequence |
| Spray.LongestRunIsLongest | logic/spray.py:72-97 | the left-to-right maximum is at least k iff the sequence contains k consecutive hot entries |
| Spray.CheckHighTempDuration | logic/spray.py:65-97 | returns true iff the later same-day entries, in series order, contain at least 3 consecutive entries at 30 °C or more; the loop keeps the running count ≤ the maximum |
| Spray.CheckRainWithinHours | logic/spray.py:99-127 | returns true iff some entry within the last `hours` (both ends included) has a one-hour block above 0.2, and no earlier entry lies after `cur`, so the `break` has not stopped the scan |
| Spray.StatusFor | logic/spray.py:161-183 | YELLOW iff the temperature is out of range, even when wind or rain would give RED; RED iff it is in range and wind > 3.5 or precip > 0.2; GREEN otherwise |
| Spray.ApplyHourRules | logic/spray.py:161-183 | the status, reason list and foliar advice built by in-place appends and overwrites equal the declarative rule outcome |
| Spray.JudgeHour | logic/spray.py:147-209 | the record built for one display-hour entry is its judgment against the whole series |
| Spray.Judge | logic/spray.py:129-211 | the list built by the loop is the evaluator's specification `Evaluate` |
| SprayProperties.JudgmentStatus | logic/spray.py:161-183 | a judgment's status follows the precedence, stated on the entry's own wind, temperature and one-hour precipitation |
| SprayProperties.ReasonsInRuleOrder | logic/spray.py:168-183 | strong wind is a reason iff wind > 3.5, rain risk iff precip > 0.2, temperature caution iff temp < 5 or > 30; each appears once, in rule order |
| SprayProperties.RecommendationsInRuleOrder | logic/spray.py:168-195 | foliar advice iff wind ≤ 3.5, spray window and wind < 0.5; insecticide advice iff recent rain; foliar comes first |
| SprayProperties.WarningsInRuleOrder | logic/spray.py:185-191 | wash-off warning iff rain later today, heat warning iff a sustained hot run; wash-off comes first |
| SprayProperties.JudgmentValues | logic/spray.py:147-209 | a judgment carries the local time and instant values, the one-hour amount (0 without the block, no six-hour fallback), the condition of that amount, the window flag, and the lists fed with the three scans at a six-hour look-back |
| SprayProperties.DisplayIndicesExact | logic/spray.py:142-145 | the display positions are strictly increasing, and they are exactly the positions at local hours 4..23 |
| SprayProperties.MapDisplayedFollowsIndices | logic/spray.py:134-145 | the k-th output belongs to the k-th displayed entry |
| SprayProperties.EvaluateOnePerDisplayedEntry | logic/spray.py:134-209 | exactly one judgment per entry at hours 4..23, none for hours 0..3, in input order, and no more judgments than entries |
| SprayProperties.JudgedHoursAreDisplayHours | logic/spray.py:142-145 | every emitted judgment is for a local hour from 4 to 23 |
| SprayProperties.EvaluateInTimeOrder | logic/spray.py:134-197 | on a time-ordered series the judgments come out in time order |
| SprayProperties.UpcomingMembers | logic/spray.py:79-85 | the filtered entries are exactly the entries on the same local day and strictly after `cur` |
| SprayProperties.RecentRainOnSortedSeries | logic/spray.py:104-125 | on a time-ordered series the early stop loses nothing: recent rain iff some entry in the window has a one-hour block above 0.2 |
| SprayProperties.NothingUpcomingAtEndOfSeries | logic/spray.py:42-48 | when no entry lies after `cur`, nothing is upcoming, and neither day scan fires |

## Left out

- app.py is not part of this model. It holds the HTTP routes, query parsing, JSON serialisation and the catch-all error response.
- weather/met.py is not part of this model. It is the HTTP request to the forecast provider.
- Timestamp parsing (`fromisoformat`, the `Z` suffix) and the `pytz` conversion are foreign library calls. Entries carry UTC seconds, and local time adds a fixed nine hours. Asia/Tokyo has observed no daylight saving since 1951, so the fixed offset is exact for every instant since then, which covers every forecast timestamp.
- Sub-second timestamps are not modelled. The provider's timestamps are whole seconds. With fractions, an entry between 23:59:59 and midnight would fall outside the source's day bounds.
- The ISO formatting of the output time and the literal message strings are not modelled. Judgments carry local seconds and enumerated labels.
- Missing-field defaults (`.get(..., 0)`) are not modelled as lookups. An entry is a typed record whose instant values are already defaulted. A precipitation block that is present but has no amount is `Some(0.0)`.
- Floating-point behaviour is not modelled. The code only compares measurements against thresholds, so measurements are `real`.
- The `high_temp_hours` counter in `check_high_temp_duration` is left out. It is never read.
- The evaluator's error propagation for a structurally missing container is left out. The typed input rules that case out.
