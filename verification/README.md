# Cardiac alert dashboard — Dafny model

A model of the decision logic of a browser dashboard that fabricates
cardiac-monitor alerts, scores and classifies them, counts them, shows
them in a priority-sorted list and refreshes the list on a timer. The
repository's logic lives in `script.js`; the model covers:

- the time-of-day table and its hour lookup (`TimePatterns.dfy`);
- the three score terms, their mean and the high/medium/low threshold
  chain (`Scoring.dfy`);
- patient and alert generation with every random draw passed in as a
  parameter (`Generator.dfy`);
- the per-priority counts of the summary line and the 24 hourly buckets of
  the timeline chart (`Stats.dfy`);
- the comparator sort of the list view (`Ordering.dfy`);
- the ten-alert start-up list and the timer tick that appends one alert
  and drops index 0 past twenty entries (`Dashboard.dfy`).

Scores are exact `real`s. The dashboard computes them in IEEE-754 double
precision, where `1 - 0.3`, the sum of the three terms and the division by
3 round; at the 0.5 and 0.8 thresholds the double result may land on the
other side of a boundary that the exact value sits on. The pattern term
`u * 0.5 + 0.5` is exactly 1.0 in doubles for the largest draw below 1
(u = 1 - 2^-53), outside the exact range [0.5, 1).

Random draws are parameters `u` with `0 <= u < 1` (the record
`Generator.Draws`); the clock is a parameter (`Generator.Clock`: an
abstract instant and its local hour). Because every function is pure,
scoring the same inputs twice always gives the same score.

The list view sorts the shared alert list in place, and each timer tick
runs that sort after its push and shift. The model follows the code: the
list is kept sorted and the sort is stable, so each priority class is a
queue in arrival order and the element the tick removes is the
earliest-arrived alert of the highest priority among the alerts held
before the push, which need not be the oldest alert. The tick's own push-then-shift-past-twenty pattern
(`script.js:194-195`) is the idiom of a sliding window over the latest
twenty alerts, which the in-place sort defeats; see Findings.

## Model

| member | source | states |
|---|---|---|
| TimePatterns.FirstMatch | script.js:48-52 | the scan returns a period of the given order whose half-open range contains the hour, and returns nothing only when no period in the order matches |
| TimePatterns.CurrentTimePattern | script.js:47-54 | hours 6-11 give morning, 12-17 afternoon, 18-21 evening, and every other integer, negative and out-of-day values included, gives night |
| TimePatterns.FalsePositiveRateAt | script.js:4-9 | the looked-up rate is 0.3 exactly on hours 6-11, 0.4 exactly on 12-17, 0.5 exactly on 18-21 and 0.6 exactly on every other hour |
| TimePatterns.NightNeverInRange | script.js:8 | the night entry's own range test (from 22 up to 6) holds for no hour, so night is reached only through the fallback |
| TimePatterns.RangesDisjoint | script.js:5-8 | no hour lies in the ranges of two different periods |
| TimePatterns.MatchIsUnique | script.js:48-52 | a period whose range contains the hour is what the scan returns, wherever that period sits in the visiting order |
| TimePatterns.LookupOrderIndependent | script.js:48-53 | any visiting order of the table that contains the three day-time periods gives the same result as the insertion order |
| TimePatterns.FallbackMasksWraparound | script.js:47-54 | on hours 0-23 the lookup equals a lookup whose night test wraps around midnight (22-23 and 0-5) |
| Scoring.RankInjective | script.js:167 | the comparator's rank table gives the three priorities three distinct ranks, so equal rank means equal priority |
| Scoring.TimeBasedScore | script.js:32-36 | the time term, one minus the period's false-positive rate, is 0.7 exactly on hours 6-11, 0.6 exactly on 12-17, 0.5 exactly on 18-21 and 0.4 exactly on every other hour |
| Scoring.PatternBasedScore | script.js:38-41 | the pattern term lies in [0.5, 1) for every draw in [0, 1) |
| Scoring.HistoricalScore | script.js:43-45 | the historical term and the patient's rate add to 1, so a rate in [0, 0.5) gives a term in (0.5, 1] |
| Scoring.PriorityScore | script.js:23-30 | the score is the unweighted mean of the three terms; with in-range inputs it lies strictly between 7/15 and 0.9 |
| Scoring.Classify | script.js:68-69 | high exactly when the score is above 0.8, medium exactly when it is in (0.5, 0.8], low exactly when it is at most 0.5 |
| Scoring.ClassifyMonotone | script.js:68-69 | a larger score never yields a lower-ranked class |
| Scoring.ClassifyBoundaries | script.js:68-69 | 0.81 is high, 0.8 is medium, 0.51 is medium, 0.5 is low |
| Scoring.ClassesByPeriod | script.js:23-36 | with in-range draws, a low class arises only at night and a high class never arises at night |
| Generator.PickIndex | script.js:18 | a draw scaled by 3 and floored picks index 0, 1 or 2, with the lowest third giving 0 and the top third giving 2 |
| Generator.GeneratePatientData | script.js:13-20 | a generated patient has id in [0, 1000), age in [40, 85) and historical rate in [0, 0.5), each the floor or scaling of its draw |
| Generator.GenerateAlert | script.js:57-71 | a generated alert carries the given id and clock stamp, a valid patient and a reading in [0, 100), and its class is high or low exactly when the mean score crosses 0.8 or stays at most 0.5; a low alert is a night alert |
| Stats.Filter | script.js:82-84 | the filtered list holds only alerts of the requested priority, and each such alert exactly as many times as the list does |
| Stats.FilterKeepsAll | script.js:82-84 | every alert of the requested priority survives the filter |
| Stats.FilterAppend | script.js:82-84 | filtering a concatenation is the concatenation of the filtered parts |
| Stats.Distribution | script.js:81-85 | the high, medium and low counts of the summary line add up to the list length |
| Stats.CountsPartition | script.js:81-85 | each alert is counted in exactly one of the three priority classes |
| Stats.HourlyBuckets | script.js:127-131 | the timeline has 24 buckets, bucket h counts the alerts stamped with hour h, and the buckets add up to the list length |
| Ordering.Compare | script.js:166-168 | the comparator is negative exactly when the first alert outranks the second, zero exactly on equal priority, and within [-2, 2] |
| Ordering.Insert | script.js:166-168 | inserting adds exactly the one alert to the list's contents |
| Ordering.InsertSorted | script.js:166-168 | inserting into a rank-sorted list keeps it rank-sorted |
| Ordering.InsertStable | script.js:166-168 | inserting places the alert before every alert of its own priority, so each class keeps its order |
| Ordering.SortByPriority | script.js:166-169 | the sorted list is a permutation of the input, ranks never increase along it, and each priority class keeps its input order |
| Ordering.SortedIsGrouped | script.js:166-169 | a rank-sorted list is its high alerts, then its medium alerts, then its low alerts |
| Ordering.StableSortUnique | script.js:166-169 | every sorted, stable rearrangement of a list is the same list, so any conforming stable engine sort gives the model's result |
| Ordering.SortKeepsDistribution | script.js:166-169 | sorting leaves the per-class counts unchanged |
| Ordering.SortIdempotent | script.js:166-169 | sorting a sorted list changes nothing |
| Dashboard.Tick | script.js:193-195 | the tick's result is a suffix of the list with the new alert appended, ending in the new alert; it grows by one below twenty, keeps its length at twenty or more, and a list within [10, 20] stays within [10, 20] |
| Dashboard.Init | script.js:186-190 | the start-up list holds exactly the generated start-up alerts, rank-sorted by the first render, with each priority class in generation order |
| Dashboard.Step | script.js:193-198 | one timer callback leaves the contents of the tick, rank-sorted, with each priority class in the tick's order, and always containing the new alert |
| Dashboard.Run | script.js:193-198 | from a list of at most twenty alerts, n callbacks leave min(length + n, 20) alerts, and after at least one callback the list is rank-sorted |
| Dashboard.RunLength | script.js:193-198 | from a list of 10 to 20 alerts, n ticks leave min(length + n, 20) alerts, never fewer than 10 nor more than 20 |
| Dashboard.RunSorted | script.js:186-198 | every list the dashboard holds after start-up is rank-sorted |
| Dashboard.AfterTwentyFiveTicks | script.js:76-198 | ten start-up alerts and twenty-five ticks leave exactly twenty alerts |
| Dashboard.StepEvictsHead | script.js:193-197 | at twenty alerts, a tick removes the head of the sorted list, an alert of the highest rank present, adds the new alert and changes nothing else |
| Dashboard.StepNewestLastInClass | script.js:193-197 | after the callback's sort the new alert is the last alert of its priority class |
| Dashboard.HeadLeadsItsClass | script.js:195 | the alert at index 0, the one the shift removes, is the first alert of its own priority class |
| Dashboard.StepClassIsQueue | script.js:193-198 | within every priority class a callback only appends the new alert and may drop the class's front: the class afterwards is a suffix of the class of the list with the new alert pushed |
| Dashboard.RunClassIsQueue | script.js:193-198 | over any run of callbacks, each priority class of the list is a suffix of that class in the list followed by the arrivals, in arrival order |
| Dashboard.DashboardClassIsQueue | script.js:186-198 | from start-up on, each priority class of the list is the latest alerts of that class among the start-up alerts and the arrivals, in arrival order |
| Dashboard.SortOneClass | script.js:166-169 | a list of alerts of one priority is left unchanged by the list view's sort |
| Dashboard.RunOneClass | script.js:193-198 | while the list stays within twenty, arrivals of the same single priority as the list are simply appended |
| Dashboard.HighJoinsLows | script.js:193-197 | below capacity, a high alert arriving at a list of low alerts ends up at index 0 |
| Dashboard.FillThenHigh | script.js:186-198 | low start-up alerts and low arrivals below capacity, then a high arrival, leave the high alert followed by all the low alerts in arrival order |
| Dashboard.FullTickOfLows | script.js:193-197 | a full list of a high alert followed by low alerts loses the high alert, not the oldest low alert, when any other alert arrives |
| Dashboard.GeneratedClasses | script.js:23-71 | for every stamp, the generator yields a high alert in the 06:00 hour under pattern draw 0.9 and a low alert in the 05:00 hour under rate draw 0.8, each carrying that stamp |
| Dashboard.EvictionIsNotOldestFirst | script.js:186-197 | for every start stamp t: ten low alerts generated in the 05:00 hour (stamps t to t+9), nine more 05:00 low arrivals (t+10 to t+18) and a high alert from the 06:00 hour (t+19) fill the list with the high alert first; the next tick (a second 06:00 high alert, t+20) removes the first high alert, the newest, and keeps the alert stamped t |
| Dashboard.FifoStep | script.js:193-195 | the corrected callback appends the new alert and, at twenty alerts, drops the alert at the front of the arrival-ordered list |
| Dashboard.FifoView | script.js:166-169 | the corrected list view is a rank-sorted copy with the same contents as the arrival-ordered list, each priority class in arrival order |
| Dashboard.FifoStepEvictsOldest | script.js:193-195 | in the corrected model a full tick on a list whose stamps never decrease drops the front, whose stamp is no later than any other, appends the new alert, and keeps the stamps non-decreasing; shared stamps are allowed |
| Dashboard.FifoRun | script.js:193-195 | from a list of at most twenty alerts, n corrected callbacks leave min(length + n, 20) alerts |
| Dashboard.FifoRunWindow | script.js:76-198 | in the corrected model the list is always the last (up to) twenty alerts of the start-up list followed by the arrivals, in arrival order |

## Findings

| source | as written | input that shows it | evidently intended | confidence | as-written member | corrected member |
|---|---|---|---|---|---|---|
| script.js:166-169, script.js:193-195 | the list view sorts the shared alert list in place, so the tick's `shift` removes the earliest-arrived alert of the highest priority among the alerts held before the push, which need not be the oldest alert | consecutive timer callbacks around 06:00: ten low alerts generated in the 05:00 hour at start-up (stamps t to t+9), nine low arrivals from the 05:00 hour (t+10 to t+18), a high alert once the clock has passed 06:00 (t+19), then a second 06:00 high alert (t+20): the first high alert, the newest, is removed and the alert stamped t stays | the tick drops the oldest alert, keeping the latest twenty in arrival order, and the list view sorts a copy | medium; not executed | Dashboard.EvictionIsNotOldestFirst | Dashboard.FifoStepEvictsOldest |

`Dashboard.Step` and `Dashboard.Run` model the code as written; the
corrected dashboard is `Dashboard.FifoStep` with `Dashboard.FifoView`, and
`Dashboard.FifoRunWindow` proves its sliding-window behaviour.

## Left out

- The random sources themselves: draws are parameters in [0, 1); their distributions are not modelled.
- The alert id (`Math.random().toString(36).substr(2, 9)`): string formatting of a random number; the id is a parameter.
- The clock and its local-time conversion: an alert carries an abstract instant and the local hour the clock reports for it.
- The false-positive percentage and its one-decimal formatting: floating-point formatting; the low count it is built from is `Stats.Distribution`'s `low`.
- All DOM access, the Chart.js charts and their options, and the timer scheduling: rendering and scheduling have no decision logic; a run is a sequence of ticks.
- IEEE-754 rounding: scores are exact reals, as described above; the pattern term's double value reaches 1.0 for u = 1 - 2^-53, which the exact bound [0.5, 1) excludes.
- Generator.GeneratePatientData: the age bound [40, 85) holds in exact reals only; in doubles the two largest draws below 1 (u = 1 - 2^-53 and u = 1 - 2^-52) make `u * 45 + 40` round to 85, so the floored age is 85.
- Scoring.PriorityScore: the bound (7/15, 0.9) holds for exact reals; double rounding near the class boundaries is not modelled.
- Dashboard.FifoStepEvictsOldest: states the eviction by position (the front of the arrival-ordered list goes) and not that the evicted alert value is absent afterwards, because alerts may share a stamp and an equal alert value may arrive again.
- Dashboard.FifoRun: its contract states only the length; its contents are stated by `Dashboard.FifoRunWindow`.
