# Daily flood-risk engine

A model of the daily compound-flooding engine of a coastal flood demo. The
engine takes an hourly record (water level, discharge, rainfall, and two
optional water-level adjustments: sea-level rise and wave setup) and builds a
daily table in two stages.

1. **Daily metrics.** Each hour gets an effective water level (EWL): the water
   level plus both adjustments. From the EWL come three clipped excess terms:
   - CFL: excess over the day baseline, counted on every hour;
   - PHWe: excess over the night baseline, counted on night hours only;
   - severe PHWe: excess over a fixed 1.0 m, counted on night hours only.

   The night window is `hour >= 20 || hour < 8`, so it wraps midnight. The
   window is written as a disjunction, so a start hour before the end hour
   would make every hour a night hour. The defaults never do that. Hours
   are grouped into UTC calendar days, with one row for every day from the
   first hour's day to the last hour's, including days with no hours. Each
   row holds:
   - the three daily sums;
   - the maximum and minimum EWL;
   - the rainfall mean and sum, and the discharge mean;
   - the running (cumulative) sums of the three loads.
2. **Risk.** Each day gets three flags:
   - a hot-day flag (daily CFL strictly above 6.0);
   - a hot-night flag (daily PHWe strictly above 3.0);
   - a compound flag (both).

   Each flag has a run-length counter. The risk state is Stable, Straining or
   Failure, decided by thresholds on the cumulative loads and the compound
   streak, and Failure takes precedence. A linear risk multiplier is also
   computed.

Modules, one per source file plus the composition:

| module | file | models |
|---|---|---|
| `Wrappers` | `wrappers.dfy` | `Option` |
| `HourlyMetrics` | `hourly_metrics.dfy` | EWL, the night window, the per-hour clipped terms |
| `DailyMetrics` | `daily_metrics.dfy` | day grouping, daily sums and extrema, cumulative sums |
| `RiskStates` | `risk_states.dfy` | streaks, risk states, risk multiplier |
| `Pipeline` | `pipeline.dfy` | the three calls that chain the stages |

Modelling choices:
- Timestamps are whole hours since the epoch (`nat`). The day of an hour is
  `t / 24` and its hour of day is `t % 24`.
- Measurements are exact `real`s.
- An adjustment is `Option<real>`, and an absent one counts as 0.0.
- A day with no hours has `None` as its maximum, minimum and means, where the
  source has NaN.
- The engine's input must be non-empty and strictly increasing in `t`. The
  loader sorts and de-duplicates the timestamps before the engine sees them
  (`project/src/data_loader.py:43`, `:50-51`).

Where the source updates state step by step, the model does too:
- The night columns are created as zeros and then overwritten on night hours
  (`HourlyMetrics.NightExcessColumn`).
- The running sums are computed by a loop (`DailyMetrics.CumulativeSum`).
- The streak counter is computed by a loop (`RiskStates.Streak`).
- The risk-state column is an array filled with Stable, then overwritten by
  the Failure mask and then by the Straining-but-not-Failure mask
  (`RiskStates.AssignRiskState`).

Each of these is proved against a specification function or predicate, and
the properties are proved about those.

## Model

| member | source | states |
|---|---|---|
| HourlyMetrics.DayOf | project/src/metrics.py:30 | The day key of an hour is the calendar day whose 24 hours contain it. |
| HourlyMetrics.HourOf | project/src/metrics.py:25 | The hour of day is in 0..23, and a timestamp is 24 times its day plus its hour. |
| HourlyMetrics.DayOfMonotone | project/src/metrics.py:30 | A later hour never falls on an earlier day, so day groups follow timestamp order. |
| HourlyMetrics.EffectiveWaterLevel | project/src/metrics.py:6-9 | With no adjustment present the EWL is the water level. Non-negative adjustments never bring it below the water level, and non-positive ones never raise it above. |
| HourlyMetrics.EffectiveWaterLevelOffsets | project/src/metrics.py:6-9 | EWL is the water level plus both adjustments. An absent adjustment counts as 0.0, so absent and 0.0 adjustments give the bare water level. Raising the water level by d raises the EWL by d. |
| HourlyMetrics.Clip | project/src/metrics.py:23 | `clip(lower=0)`: the result is non-negative, at least its argument, and either 0 or the argument. |
| HourlyMetrics.IsNight | project/src/metrics.py:25-26 | When the end hour does not come after the start hour, the window wraps midnight: night is exactly the hours outside [end, start). When the start hour comes before the end hour, the two disjuncts cover every hour, so every hour is night. |
| HourlyMetrics.DefaultNightWindow | project/src/metrics.py:25-26 | With the default window 20/8, an hour is night exactly when it is 20-23 or 0-7, and day exactly when it is 8-19. |
| HourlyMetrics.HourRowOf | project/src/metrics.py:21-45 | Each hour's EWL, rainfall and discharge are carried through. The three excess terms are all non-negative. CFL is the clipped excess over the day baseline on every hour. PHWe and severe PHWe are 0 off night hours, and on night hours they are the clipped excess over the night baseline and over 1.0 m. A night baseline of at most 1.0 m gives severe PHWe <= PHWe. A night baseline at or below the day baseline gives CFL <= PHWe on night hours. |
| HourlyMetrics.HourRows | project/src/metrics.py:20-45 | One frame row per record, in the same order, carrying its record's time and EWL. Every row's three excess terms are non-negative. |
| HourlyMetrics.NightExcessColumn | project/src/metrics.py:27-28 | The column created as zeros and overwritten on night rows: the clipped excess on night hours and 0.0 elsewhere, one entry per hour. |
| HourlyMetrics.HourlyColumns | project/src/metrics.py:20-28 | The per-hour frame built column by column equals the per-hour terms of every input hour, in input order. |
| DailyMetrics.HoursWithinDayRange | project/src/metrics.py:30 | For sorted input, every hour's day lies between the first hour's day and the last hour's day. |
| DailyMetrics.RowsOfDay | project/src/metrics.py:30 | A day's group contains exactly the hours whose day is that day; it is never longer than the frame. |
| DailyMetrics.RowsOfDayMultiplicity | project/src/metrics.py:30 | A day's group holds each hour of that day as many times as the frame does and no hour of another day, so its length is the hour count behind the daily means of lines 36 and 38. |
| DailyMetrics.SumLoad | project/src/metrics.py:31-32 | A group's load sum is the total of its load column, 0 for an empty group. The same holds for `daily_severe_PHWe` at line 46. |
| DailyMetrics.SumRainfall | project/src/metrics.py:37 | A group's rainfall sum is the total of its rainfall column, 0 for an empty group. |
| DailyMetrics.SumDischarge | project/src/metrics.py:38 | A group's discharge sum is the total of its discharge column. It feeds the daily mean discharge. |
| DailyMetrics.SumLoadNonNegative | project/src/metrics.py:31-32 | A sum of non-negative hourly terms is non-negative. |
| DailyMetrics.SumLoadDominated | project/src/metrics.py:46 | If one hourly term is pointwise at most another, so is its sum over any group. |
| DailyMetrics.MaxEwl | project/src/metrics.py:34 | The daily maximum is absent exactly for an empty day. Otherwise it bounds every hour's EWL from above and is attained by one of them. |
| DailyMetrics.MinEwl | project/src/metrics.py:35 | The daily minimum is absent exactly for an empty day. Otherwise it bounds every hour's EWL from below and is attained by one of them. |
| DailyMetrics.MinNotAboveMax | project/src/metrics.py:34-35 | A day with at least one hour has both extrema, and its minimum is at most its maximum. |
| DailyMetrics.Mean | project/src/metrics.py:36-38 | The mean is absent exactly when the day has no hours. Otherwise the mean times the count is the sum. |
| DailyMetrics.SumRealExtend | project/src/metrics.py:40-41 | Extending a prefix by one term adds that term to its sum. |
| DailyMetrics.CumulativeSum | project/src/metrics.py:40-41 | `cumsum`: the first entry is the first term and each next entry adds the next term. The last entry is the total. For non-negative terms the result is non-negative and non-decreasing. |
| DailyMetrics.PrefixSumMonotone | project/src/metrics.py:40-41 | For non-negative terms, a running sum at an earlier day is at most the one at a later day. |
| DailyMetrics.PrefixSumNonDecreasing | project/src/metrics.py:40-41 | Any running sum of non-negative terms is non-negative and non-decreasing. |
| DailyMetrics.DayLoads | project/src/metrics.py:30-32 | One daily sum per calendar day of the range. |
| DailyMetrics.DayLoadsNonNegative | project/src/metrics.py:31-32 | Every daily load sum is non-negative when the hourly terms are. |
| DailyMetrics.SumRealOfZeros | project/src/metrics.py:30 | A sum of zeros (days without hours) is 0. |
| DailyMetrics.SumRealBump | project/src/metrics.py:31-32 | Raising one entry by v raises the sum by v. |
| DailyMetrics.DayLoadsAppend | project/src/metrics.py:30-32 | Appending an hour adds its term to exactly its own day's sum. |
| DailyMetrics.DayLoadsConserve | project/src/metrics.py:30-32 | Grouping by day loses and duplicates nothing: the daily sums add up to the total of the hourly terms. |
| DailyMetrics.FrameWithinDayRange | project/src/metrics.py:23-30 | For well-formed input, the per-hour frame has non-negative terms and every row falls in the day range. |
| DailyMetrics.ComputeDailyMetrics | project/src/metrics.py:12-49 | The result has one row per calendar day from the first hour's day to the last hour's, with consecutive dates. Each row's per-day fields aggregate exactly that day's hours. The three cumulative columns are the running sums of the daily columns. All of them are non-negative, and the cumulative columns are non-decreasing. The last cumulative value equals the total over all hours. |
| DailyMetrics.AggregateDays | project/src/metrics.py:30-47 | The same daily-table property for any per-hour frame with non-negative terms whose rows lie in the day range. |
| DailyMetrics.RowsOfDayEmpty | project/src/metrics.py:30 | A day that no hour falls on has an empty group. |
| DailyMetrics.DayWithoutData | project/src/metrics.py:30-47 | A calendar day that no hour falls on still has a row. Its loads and rainfall sum are 0, and its extrema and means are absent. Its cumulative loads equal the previous day's. |
| DailyMetrics.DayExtremaBoundHours | project/src/metrics.py:34-35 | Every hour's EWL lies between the minimum and maximum of its day's row. |
| DailyMetrics.PrefixSumDominated | project/src/metrics.py:40-47 | A running sum of pointwise smaller terms is pointwise smaller. |
| DailyMetrics.FrameSevereBelowPhwe | project/src/metrics.py:43-45 | With a night baseline of at most 1.0 m (the default is 0.7 m), each hour's severe PHWe is at most its PHWe. |
| DailyMetrics.DailySevereBelowPhwe | project/src/metrics.py:46 | Then each daily severe PHWe is at most the daily PHWe. |
| DailyMetrics.SevereNeverExceedsPhwe | project/src/metrics.py:43-47 | Then daily and cumulative severe PHWe never exceed daily and cumulative PHWe. |
| RiskStates.Streak | project/src/risk_states.py:21-30 | One counter per flag. The counter is 0 where the flag is unset (missing counts as unset), and the previous counter plus 1 where it is set, with 0 before the first day. Each counter is at most its 1-based position and is the length of the run of set flags ending at that day. |
| RiskStates.StreakIsTrailingRun | project/src/risk_states.py:22-29 | The streak recurrence implies the trailing-run characterisation at every day. |
| RiskStates.TrailingRunAt | project/src/risk_states.py:22-29 | The trailing-run characterisation holds at one day. |
| RiskStates.StreakDominated | project/src/risk_states.py:21-30 | A flag set wherever another is set has a counter at least as large on every day. |
| RiskStates.FourCompoundDays | project/src/risk_states.py:16-30 | Four set days in a row from the start count 1, 2, 3, 4, and the fourth day is Failure whatever its loads. |
| RiskStates.FourThenBreak | project/src/risk_states.py:21-30 | Four set flags and then an unset one give the counters 1, 2, 3, 4, 0. |
| RiskStates.IsHot | project/src/risk_states.py:35-37 | A load at or below its threshold (6.0 for CFL, 3.0 for PHWe) is never hot, because the comparisons are strict. A day is compound-hot exactly when its CFL exceeds 6.0 and its PHWe exceeds 3.0. |
| RiskStates.HotFlags | project/src/risk_states.py:35-41 | One flag per day, none missing, so the `fillna(False)` in the streak never applies to these flags. A compound flag is set only on days hot by day and by night. |
| RiskStates.ComputeCompoundStreaks | project/src/risk_states.py:33-42 | A copy of the daily table with the six columns added. The existing columns and the row order are unchanged. hot_day is daily CFL > 6.0, hot_night is daily PHWe > 3.0, and compound is both. Each counter column is the streak of its flag. |
| RiskStates.AnnotationColumns | project/src/risk_states.py:35-41 | The six added columns are exactly the flags and the streaks of the flags. |
| RiskStates.CompoundWithinStreaks | project/src/risk_states.py:35-41 | The compound streak is at most both the hot-day streak and the hot-night streak. |
| RiskStates.AnnotationCountsTrailingRun | project/src/risk_states.py:39-41 | Each streak column counts the trailing run of its flag. |
| RiskStates.FailureTier | project/src/risk_states.py:54 | The Failure tier: cumulative CFL >= 80, cumulative PHWe >= 40 or compound streak >= 4. Every day in it is also in the Straining tier. |
| RiskStates.StrainingTier | project/src/risk_states.py:57 | The Straining tier: cumulative CFL >= 40, cumulative PHWe >= 20 or compound streak >= 2. A day outside it is below every Failure threshold. |
| RiskStates.Classify | project/src/risk_states.py:52-58 | Failure exactly when a Failure-tier condition holds, whatever the Straining tier says. Straining exactly when the Straining tier holds and the Failure tier does not. Stable otherwise, which is the value the state column starts with. |
| RiskStates.FailureTierImpliesStraining | project/src/risk_states.py:12-18 | Because every Failure threshold is at least its Straining counterpart, a day's state is at least Straining exactly when the Straining tier holds. |
| RiskStates.ClassifyMonotone | project/src/risk_states.py:54-58 | Raising the cumulative CFL, the cumulative PHWe or the compound streak never lowers the severity. |
| RiskStates.DeescalationScenario | project/src/risk_states.py:45-61 | The state has no memory. On five days, the first four hot by day and by night (daily CFL 6.5, daily PHWe 3.5) and the fifth calm, the classified table puts the fourth day at compound streak 4 and Failure. The fifth day has streak 0 and is Stable again, though both cumulative loads have risen. |
| RiskStates.DeescalationDaysArePrefixSums | project/src/metrics.py:40-41 | The scenario days carry the running sums of their daily CFL and PHWe, as a daily table does. |
| RiskStates.AssignRiskState | project/src/risk_states.py:45-61 | The result is the streak-annotated table with a state column. Each day's state is the precedence classification of its cumulative CFL, cumulative PHWe and compound streak. |
| RiskStates.RiskMultiplier | project/src/risk_states.py:64-71 | With non-negative loads, positive norms and a non-negative streak factor, the multiplier is at least 1. |
| RiskStates.RiskMultiplierMonotone | project/src/risk_states.py:70 | With positive norms and a non-negative factor, the multiplier never decreases in each of its inputs. |
| RiskStates.ComputeRiskMultiplier | project/src/risk_states.py:64-71 | One multiplier per row. With positive norms and factor, every row with non-negative cumulative loads gets a multiplier of at least 1. |
| Pipeline.CumulativeLoadsRise | project/src/metrics.py:40-41 | The cumulative CFL and PHWe of the daily table are non-negative and never fall from one day to a later one. |
| Pipeline.OnlyBrokenStreakLowersRisk | project/src/main.py:42-44 | Between consecutive days, the state loses severity or the multiplier falls only on a day whose compound streak is 0. |
| Pipeline.Assess | project/src/main.py:42-44 | The chained stages yield the daily table of the input's frame, its streak columns and each day's classified state. They also yield the default-weight multipliers, each at least 1. |

## Left out

- Reading and parsing the CSV, numeric coercion and the loader's checks (`project/src/data_loader.py`) are foreign calls. Their outcome is the engine's precondition: non-empty input, strictly increasing timestamps, absent adjustments meaning 0.0.
- The command-line driver, output directory, CSV writing and printed summary of `project/src/main.py` are I/O. Only the three chained calls are modelled.
- Plotting (`project/src/visualization.py`) is presentation only. `project/src/visualization.py` is not part of this model.
- NaN semantics: measurements are always-present reals, so the NaN-skipping of `sum`, `mean`, `max` and `min` is not modelled. An empty day's extrema and means are `None`.
- HourlyMetrics.HourRowOf: an adjustment column that is present but holds NaN is not modelled. Such a value would propagate NaN into the EWL. The loader replaces it with 0.0 before the engine runs.
- Floating-point rounding: all arithmetic is exact `real` arithmetic.
- Sub-hour timestamps and time zones: timestamps are whole UTC hours.
- The optional `soil_moisture` column is not used by the engine.
- The constants `STABLE_MAX_*` (`project/src/risk_states.py:8-10`) are never read by the source.
- RiskStates.RiskMultiplier: requires non-zero norms. A zero norm yields an infinite or NaN multiplier in floating point, and this is not modelled.
- The per-day frame is a sequence of records, not a date-indexed frame. Dates are day numbers since the epoch.
