# Oura sleep dashboard — the metrics of one night

This project models the logic behind the dashboard page of oura-visualizer
(`src/app/page.tsx`). The page shows one night of sleep taken from the Oura
API. It does two things:

- **The session matcher** (`pickForDay`) takes the day's records from the API
  response. It picks the daily summary labelled with the day. It also picks
  one sleep session: among the sessions that start or end within the day
  widened by six hours on each side, the longest one.
- **The metrics deriver** (the `metrics` memo) turns those two records into
  the numbers the page displays. Their fields come in mixed units: seconds,
  minutes, and a fraction or a percentage. The deriver produces:
  - total, REM, light, deep and awake hours;
  - the time in bed;
  - efficiency in percent;
  - latency in whole minutes, or nothing;
  - the four stage percentages.

  It reads each field through an ordered chain of fallbacks:
  - `pick` probes several field names;
  - `||` skips absent and zero candidates;
  - `??` skips only absent ones.

  Then it completes light and awake sleep when the provider left them out.

Beside these, the project models:

- the scaling of the stacked stage bar (`StackedBar`);
- the page's `toH` and `pct` helpers.

Modules:

- **`JsMath`** holds the pieces of JavaScript number semantics the page relies on:
  - `Option` and `??`;
  - the numeric `||` chain;
  - `Math.round` and `round1`;
  - the clamps;
  - dayjs' whole-minute difference.
- **`Records`** holds the record shapes and `pick`. `pick` appears twice: as a
  recursive function, and as a method with the page's loop, proved equal to it.
- **`Units`** holds `m2h`, `s2h`, `toH` and `pct`.
- **`SleepMetrics`** holds the deriver:
  - one specification function per quantity;
  - methods that perform the page's step-by-step reassignments of `awakeH`,
    `lightH` and `efficiency`, each proved equal to those functions.
- **`SessionMatcher`** holds `pickForDay`: find, filter, a stable sort with the
  longest session first, and the head of the sorted list.
- **`StageBar`** holds the clamp and rescale arithmetic of `StackedBar`.
- **`WorkedCases`** holds concrete nights: seven hours written as seconds or as
  minutes, efficiency as a fraction or as a percentage, latency in seconds or in
  minutes, a nap against a night.

Records are modelled as maps from field names to numbers. A field that is
missing, not a number, or not finite is simply absent from the map. `pick`
treats all three cases alike. Timestamps are integers in milliseconds. A day is
given by its label and by the timestamp of its first millisecond. The day's last
millisecond is 86 399 999 ms later.

## Model

| member | source | states |
|---|---|---|
| JsMath.FirstNonZero | src/app/page.tsx:133-145 | `a \|\| b \|\| … \|\| 0` on numbers gives the first candidate that is not zero, and zero exactly when every candidate is zero |
| JsMath.Round | src/app/page.tsx:130 | `Math.round` gives the integer within half a unit, with halves rounding up |
| JsMath.Round1 | src/app/page.tsx:130 | `round1` gives a whole number of tenths within 0.05 of its input; it keeps non-negative values non-negative and values up to 100 at most 100 |
| JsMath.ClampLow | src/app/page.tsx:129 | `clamp(n, 0)` is never below the bound, keeps values at or above it, and maps values below it to the bound |
| JsMath.Clamp | src/app/page.tsx:129 | `clamp(n, lo, hi)` lies in [lo, hi], keeps values inside, and maps values below or above to the nearer bound |
| JsMath.WholeMinutes | src/app/page.tsx:157 | the dayjs minute difference is the elapsed whole minutes, truncated toward zero for either sign |
| Records.Pick | src/app/page.tsx:120-126 | returns nothing exactly when the record is absent or no listed key holds a number; otherwise returns the value of the first listed key that does, with every earlier key absent |
| Records.PickFirst | src/app/page.tsx:120-126 | the `for` loop with its early return yields the same value as `Pick` |
| Records.PickAppend | src/app/page.tsx:120-126 | probing `keys + more` is probing `keys` and, only when that finds nothing, `more`: later keys are never consulted once one matches |
| Units.M2H | src/app/page.tsx:127 | absent minutes are zero hours; otherwise hours × 60 equals the minutes |
| Units.S2H | src/app/page.tsx:128 | absent seconds are zero hours; otherwise hours × 3600 equals the seconds |
| Units.ToH | src/app/page.tsx:23 | zero hours exactly for an absent or zero value; otherwise minutes or seconds converted exactly to hours |
| Units.Pct | src/app/page.tsx:26 | absent gives 0; a value at most 1 gives the nearest whole percent of the fraction; a larger value gives its own nearest integer |
| Units.FractionAndPercentAgree | src/app/page.tsx:26 | for 1 < p ≤ 100, `pct(p/100)` equals `pct(p)` |
| SleepMetrics.TotalHours | src/app/page.tsx:133-145 | total sleep is the session total if non-zero, else the daily total, else the session stage sum, else the daily stage sum |
| SleepMetrics.StageHours | src/app/page.tsx:147-149 | a stage's hours are the session seconds if non-zero, else the daily minutes |
| SleepMetrics.BedtimeSpanHours | src/app/page.tsx:156-158 | the bedtime span is never negative and is zero unless both bedtimes exist; otherwise hours × 60 is the whole-minute difference, or 0 when that difference is negative |
| SleepMetrics.TimeInBedHours | src/app/page.tsx:152-158 | time in bed is the daily minutes, else the daily seconds, else the session seconds, else the bedtime span: the first that is not zero |
| SleepMetrics.MeasuredAwakeHours | src/app/page.tsx:161-164 | measured awake is the session `awake_duration`/`awake_time` seconds if non-zero, else the daily `awake_time` minutes |
| SleepMetrics.AwakeHours | src/app/page.tsx:161-168 | a non-zero measurement is kept; an estimate is never negative; with positive time in bed and total it is at least time in bed − total, and is either 0 or exactly that difference; otherwise it is 0 |
| SleepMetrics.LightHours | src/app/page.tsx:170-174 | a non-zero reported value is kept; an inferred value is never negative and makes light + REM + deep equal total when the remainder exceeds 0.01; otherwise it is 0 |
| SleepMetrics.EfficiencyPercent | src/app/page.tsx:177-182 | a non-zero fraction ≤ 1 is scaled by 100; a value > 1 is kept unclamped; with no value or a zero one, and positive time in bed and total, it is total/time-in-bed × 100 clamped to [0, 100]; otherwise it is 0 |
| SleepMetrics.RatioPercent | src/app/page.tsx:181 | the clamped ratio lies in [0, 100]; it equals total × 100 / time-in-bed when 0 ≤ total ≤ time in bed, and 100 when total ≥ time in bed |
| SleepMetrics.LatencyToMinutes | src/app/page.tsx:189-190 | a raw value above 120 is read as seconds and rounded to minutes; otherwise it is rounded as minutes |
| SleepMetrics.LatencyMinutes | src/app/page.tsx:186-190 | null exactly when neither daily nor session latency is present; a daily value, even zero, wins over the session value |
| SleepMetrics.StageShares | src/app/page.tsx:193-197 | a zero sum gives four zeros; otherwise the shares add up to 100 and each share × sum equals its amount × 100 |
| SleepMetrics.SharesBounded | src/app/page.tsx:193-197 | for non-negative amounts with a positive sum, each share lies in [0, 100] |
| SleepMetrics.NightHoursNonNegative | src/app/page.tsx:133-174 | for records without negative numbers, every derived duration, time in bed included, is non-negative |
| SleepMetrics.DeriveHours | src/app/page.tsx:133-174 | the step-by-step reassignment of awake and light gives exactly the hours of the specification functions |
| SleepMetrics.DeriveEfficiency | src/app/page.tsx:177-183 | the step-by-step reassignment of `efficiency` gives exactly `EfficiencyPercent` |
| SleepMetrics.DeriveMetrics | src/app/page.tsx:118-215 | every field of the view model agrees with the specification functions: durations and efficiency rounded to one decimal; stage percentages, latency, score and bedtimes unrounded |
| SessionMatcher.FindDay | src/app/page.tsx:92 | nothing exactly when no record carries the day; otherwise the first record that does |
| SessionMatcher.Filter | src/app/page.tsx:94-100 | a session is kept exactly when it is in the input and its start or end lies in the widened window, both ends included |
| SessionMatcher.FilterAppend | src/app/page.tsx:94-100 | filtering a concatenation is the concatenation of the filtered parts: kept sessions keep their input order and multiplicity |
| SessionMatcher.Insert | src/app/page.tsx:101 | insertion adds exactly the one session to the sequence's contents |
| SessionMatcher.InsertSorted | src/app/page.tsx:101 | inserting into a longest-first sequence keeps it longest first |
| SessionMatcher.SortByDuration | src/app/page.tsx:101 | the sort is a permutation of its input, ordered longest first |
| SessionMatcher.SortedHeadIsChosen | src/app/page.tsx:94-103 | the head of the sorted matches is a matching session of maximal duration, and every matching session listed before it is strictly shorter |
| SessionMatcher.PickForDay | src/app/page.tsx:91-105 | the daily record is the first one for the day; the session is absent exactly when none matches, and otherwise is the earliest listed longest match |
| StageBar.ClampPercent | src/app/page.tsx:69 | the clamped percentage lies in [0, 100], keeps values inside, and maps values outside to the nearer bound |
| StageBar.Rescale | src/app/page.tsx:75-77 | for non-negative inputs with a positive sum, the widths add up to 100 and each width × sum equals its input × 100; a zero sum gives four zeros; every width lies in [0, 100] |
| StageBar.RescaleFull | src/app/page.tsx:75-77 | amounts that already add up to 100 are drawn at exactly their own widths |
| StageBar.BarWidths | src/app/page.tsx:69-77 | the bar widths fill 100 when the clamped sum is positive, are all zero otherwise, and each lies in [0, 100] |
| StageBar.BarShowsShares | src/app/page.tsx:69-77 | the bar draws the stage shares of non-negative amounts with a positive sum exactly as computed |
| StageBar.NightBarShowsShares | src/app/page.tsx:193-197 | for records without negative numbers, the bar draws the page's stage percentages unchanged |
| WorkedCases.SessionSecondsTotal | src/app/page.tsx:133-135 | a session of 25 200 s with nothing else gives a total of 7.0 hours |
| WorkedCases.DailyMinutesTotal | src/app/page.tsx:136-137 | a daily total of 420 min with no session gives 7.0 hours |
| WorkedCases.EfficiencyFractionOrPercent | src/app/page.tsx:178-179 | efficiency p/100 and efficiency p, for 1 < p ≤ 100, both give p |
| WorkedCases.LatencySecondsOrMinutes | src/app/page.tsx:189-190 | raw latency 600 gives 10 minutes, and raw latency 10 gives 10 minutes |
| WorkedCases.NightChosenOverNap | src/app/page.tsx:94-103 | of a one-hour nap and a seven-hour night on the same day, the night is chosen in either input order |

Two behaviours of the code are kept as written:

- A raw efficiency above 1 is shown as it is, even above 100. It is not
  clamped.
- A negative raw latency passes through to a negative number of minutes.

## Left out

- The API proxy (`src/app/api/oura/sleep/route.ts`) is not part of this model.
  It is HTTP plumbing: a token lookup, two fetches and a pass-through of their
  JSON and status codes.
- React state, effects and memoisation, and `fetchOneDay`, are left out. They
  handle asynchronous I/O and re-rendering, not derivation logic.
- All JSX rendering, `Card` and `Stat`, and the string formatters `fmtHm` and
  `fmtClock` are left out. They are presentation only.
- dayjs parsing of ISO timestamps, time zones and daylight-saving days are left
  out. Timestamps are given as integers, and a day always lasts 24 hours.
- IEEE-754 doubles are left out: NaN, the infinities, and binary rounding
  error. Numbers are exact reals. `StackedBar`'s mapping of a non-finite input
  to 0 therefore has no counterpart.
- Records: a field holding a non-number, or a non-finite number, is modelled as
  an absent field. As a consequence:
  - the sort key `total_sleep_duration ?? 0` never meets a non-numeric value;
  - the view model's `score`, which the page passes through whatever its type,
    is modelled only as a number.
- A bedtime is modelled as present or absent. An empty bedtime string, which is
  falsy on the page, counts as absent.
- SessionMatcher.SortByDuration: the built-in `Array.prototype.sort` is
  modelled as a stable insertion sort. The model captures the order the
  comparator implies and that the stable sort keeps. It does not capture the
  engine's algorithm.
- StageBar.BarWidths: its contract does not state that each width is
  proportional to its clamped input. That fact is stated on StageBar.Rescale,
  which BarWidths applies to the clamped inputs.
