# sensors_hub store, modelled in Dafny

`store.go` of sensors_hub is an in-memory temperature store. For each sensor
name it keeps a map from a calendar day to the readings of that day, in the
order they arrived. It has one mutator and three queries:

- `AddInfo` appends a reading to the bucket of its (sensor, day).
- `GetDateStatsForSensor` reduces one bucket to min, max, truncated average,
  count and total.
- `GetWeeklyStatsForSensors` covers the eight days t-7 .. t ending at an as-of
  date. It gives one line per sensor and a cross-sensor line.
- `GetDailyStatsForSensor` covers the same eight days, oldest first. For each
  day it gives one line per sensor and a count-weighted cross-sensor line.

The model has six modules:

- `Seqs`: `FlatMap`, the concatenation of per-element sequences, with the
  facts the reports need. These are appending, membership, emptiness and
  independence from the order of the elements.
- `Stats`: the Go `Stats` record and Go's truncating division (`Quotient`).
  It also holds the specification of one bucket's statistics (`PointStats`
  over `Sum`, `SeqMin`, `SeqMax`). `Summarises` and `FoldBucket` tie the
  reports' running accumulators to that specification.
- `Buckets`: the store's nested map, with days as integers. `Added` is the
  specification of one `AddInfo`.
- `Reports`: each formatted report line is a `Record`. `WeekLines`,
  `DayLines` and `DailyLines` say which lines a report holds. They are stated
  over the readings of the window, not over the loops. Lemmas tie the figures
  of the cross-sensor and weekly lines to the per-day and per-sensor ones, and
  show that the reports do not depend on map iteration order.
- `Store`: the class `InMemoryStore`, whose field `sensors` `AddInfo`
  reassigns. The queries are methods. Their loops keep the Go code's
  accumulators (`initIteration`, `min`, `max`, `total`, `count` and the
  `...All` / `initIterationG` ones) and are proved against the `Reports`
  functions.
- `Scenarios`: worked reports on two small stores.

Go ranges over a map in an unspecified order. The report methods take any
sensor not yet visited in each round, so their results hold for some
enumeration `order` of the sensor names. The daily report uses one
enumeration per day, because every Go `range` is ordered afresh.
`WeekLinesOrderIndependent` and `DayLinesOrderIndependent` show that the
choice changes only the order of the per-sensor lines.

Dates are whole day numbers (`Day = int`). `t - i` is the day `i` days before
`t`, standing for `t.AddDate(0, 0, -i)`. Parsing the `2006-01-02` layout is a
parameter `parse: string -> Option<Day>` of the two report methods.

## Model

| member | source | states |
|---|---|---|
| Stats.Quotient | store.go:211 | Go's `/`: the remainder is smaller than the divisor and has the dividend's sign, so the quotient truncates toward zero |
| Stats.SeqMin | store.go:192-208 | the minimum of a non-empty run is one of its readings and bounds every reading from below |
| Stats.SeqMax | store.go:192-208 | the maximum of a non-empty run is one of its readings and bounds every reading from above |
| Stats.PointStats | store.go:190-213 | the statistics of a non-empty bucket: count is its length, total its sum, min and max are readings bounding all readings, `min <= avg <= max`, `avg == Quotient(total, count)` |
| Stats.TruncatedAverages | store.go:211 | [1, 2] averages to 1, and [-1, -2] to -1 (not -2) |
| Stats.FoldBucket | store.go:79-111 | folding a non-empty bucket's statistics into an accumulator as the loops do makes it summarise the earlier readings followed by the bucket's |
| Stats.FlatMapExtremes | store.go:94-111 | the least reading of several runs is the least of their minimums over the non-empty runs, and the largest is the largest of their maximums |
| Stats.FlatMapSum | store.go:91-103 | the total and count of several runs are the sums of their totals and counts |
| Buckets.Added | store.go:36-47 | after one add, the sensor is registered, the reading is the last element of its (sensor, day) bucket, and every other bucket is unchanged |
| Buckets.AddedWellformed | store.go:40-46 | adding keeps the shape "every sensor has a day, and no bucket is empty" |
| Buckets.EmptyBucketIsAbsent | store.go:186 | in a well-formed store, a bucket is empty exactly when the sensor or the day is unknown |
| Buckets.AddedAllBucket | store.go:36-47 | N adds to one bucket extend it by exactly those N readings in order and leave every other bucket alone |
| Buckets.AddedAllStats | store.go:36-47 | N adds to an empty bucket give it count N and, as total, the sum of the N readings |
| Reports.EnumerationMultiset | store.go:67 | visiting a map's names as `range` does is holding each name exactly once |
| Reports.WindowDays | store.go:71-72 | the window is exactly the eight days t-7 .. t, oldest first, both ends included |
| Reports.ReadingsNextDay | store.go:71-74 | a sensor's readings over one more day of the window are the earlier ones followed by that day's bucket |
| Reports.SensorWeekMissingIff | store.go:114-117 | a sensor's weekly line is the "no data" line exactly when it has no reading on any day of the window |
| Reports.SensorWeekFromDays | store.go:68-119 | otherwise its min is the least of its daily mins and its max the largest of its daily maxes, over contributing days only; its average is the summed totals divided by the summed counts, and lies between min and max |
| Reports.WeekTotalFromSensors | store.go:79-124 | the cross-sensor weekly line is present exactly when some sensor's line has figures; its min and max are the extremes of those sensors' mins and maxes, and its average is all totals over all counts |
| Reports.DayTotalFromSensors | store.go:138-176 | a day's cross-sensor line is present exactly when some sensor has readings that day; it carries the day, the extremes of the sensors' mins and maxes, and the count-weighted average |
| Reports.WeekLinesShape | store.go:67-124 | the weekly report is one line per visited sensor, in visiting order, then at most one cross-sensor line |
| Reports.DayLinesShape | store.go:141-176 | one day of the daily report is one line per visited sensor, in visiting order, then at most one cross-sensor line, and every line is a daily line for that day |
| Reports.WeekLinesOrderIndependent | store.go:67-124 | two visiting orders give the same weekly lines, possibly permuted, and the same cross-sensor line |
| Reports.DayLinesOrderIndependent | store.go:141-176 | two visiting orders give the same lines for a day, possibly permuted, and the same cross-sensor line |
| Reports.DailyEmptyStore | store.go:137-177 | with no sensors, the daily report is empty |
| Store.Accumulate | store.go:152-167 | the daily report's inline fold of one sensor's statistics keeps the day's cross-sensor accumulator summarising the readings so far |
| Store.InMemoryStore.constructor | store.go:30-34 | a new store has no sensors and is well formed |
| Store.InMemoryStore.AddInfo | store.go:36-47 | the new map is `Added(old map, name, info)`, and well-formedness is kept |
| Store.InMemoryStore.GetDateStatsForSensor | store.go:182-216 | an error exactly when the bucket is empty or absent, unknown sensor included; otherwise the bucket's `PointStats`, computed in one pass |
| Store.InMemoryStore.WeekDay | store.go:71-111 | one day of one sensor, with Go's statements in Go's order: the sensor's and the cross-sensor accumulators then also summarise that day's bucket |
| Store.InMemoryStore.WeekOfSensor | store.go:68-112 | after the day loop, the sensor's accumulator summarises its readings in the window, and the cross-sensor one has them appended |
| Store.InMemoryStore.WeekLineFor | store.go:66-120 | one round of the sensor loop yields exactly `SensorWeekLine` for that sensor |
| Store.InMemoryStore.WeeklyLines | store.go:66-124 | the sensor loop and the final line give `WeekLines` for some enumeration of the names |
| Store.InMemoryStore.GetWeeklyStatsForSensors | store.go:49-127 | empty store: `NoSensors`, checked before parsing; bad date: `InvalidDate`; otherwise `WeekLines` over the window ending at the date, for some enumeration of the names |
| Store.InMemoryStore.DailyLinesFor | store.go:138-176 | one day: `DayLines` for that day in some enumeration of the names, the accumulator starting afresh |
| Store.InMemoryStore.NextDay | store.go:137-177 | one round of the day loop appends the lines of the next day |
| Store.InMemoryStore.DailyReport | store.go:137-177 | the day loop gives `DailyLines` over the window, oldest day first, one enumeration per day |
| Store.InMemoryStore.GetDailyStatsForSensor | store.go:129-180 | bad date: `InvalidDate`; otherwise the daily report of the window; an empty store is no error |
| Scenarios.DailyCrossSection | store.go:137-177 | A read 10 on day d; B read 30 on d-1 and 20 on d. Day d's cross-sensor line is min 10, max 20, avg 15. Day d-1's is 30, 30, 30, and A gets the missing line that day |
| Scenarios.WeeklyOneSensor | store.go:66-124 | a lone sensor with 10, 20, 30 in the window and readings outside it: its weekly line is min 10, max 30, avg 20, and the cross-sensor line equals it |

## Left out

- The `sync.RWMutex` locking (store.go:25,37-38,50-51,183-184) is not modelled; calls run one at a time. What this leaves out differs per report:
  - `GetWeeklyStatsForSensors` holds the read lock for its whole run (store.go:50-51), so no `AddInfo` can interleave with it. Its hazard is the nested `RLock` in `GetDateStatsForSensor` (store.go:183). Go's `RWMutex` does not allow recursive read locking, so the nested lock can deadlock against a writer already waiting in `Lock` (store.go:37). The model has no deadlock.
  - `GetDailyStatsForSensor` takes no lock of its own and ranges over the sensor map unlocked (store.go:141). A concurrent `AddInfo` writing that map (store.go:43,46) can change the store while the report reads it. When that write inserts a new sensor (store.go:43) during the unlocked `range`, Go has a data race, and the runtime may stop the whole process with "concurrent map iteration and map write". The model reads one fixed store.
- server.go is not part of this model. That covers the TCP server, JSON decoding, its guard rejecting an empty name or a zero temperature, and its use of `time.Now` to date a reading. `AddInfo` takes the day of the reading as given.
- message.go is not part of this model: it is a plain record with no behaviour.
- `time.Parse`, `AddDate` and `Format` are not modelled as calendar code. Days are integers, `AddDate(0, 0, -i)` is `t - i`, and parsing is the parameter `parse`.
- Buckets are keyed by `Day`, whereas Go keys them by text. A bucket stored under text that `Format` never produces, which no report can reach, has no counterpart.
- `GetDateStatsForSensor` takes a `Day` rather than the date text the reports format for it.
- The report text of `fmt.Sprintf` / `fmt.Errorf` is not reproduced. Each line is a `Record` carrying the values the text shows. The daily missing line stands for the text of the `GetDateStatsForSensor` error. Go passes that text to `Sprintf` as the format (store.go:147), so a sensor name containing `%` prints differently from the error; the model does not capture this.
- Go's `int` is 64 bits wide; the model's integers are unbounded, so sums that would overflow are not modelled.
- The statistics in the records are the printed ones (min, max, avg); count and total appear only in `Stats`.
- The report loops are split into methods: `WeekDay`, `WeekOfSensor`, `WeekLineFor` and `WeeklyLines` for the weekly report, and `DailyLinesFor`, `NextDay` and `DailyReport` for the daily one. Within each loop body the statements and their order are those of Go, except that the daily report computes the day once per round of the day loop, where Go recomputes it for each sensor (store.go:143); the value is the same. The daily cross-sensor fold is the call `Accumulate`, whose statements are Go's in Go's order.
- The weekly report's per-day dates come from the parsed as-of date (store.go:72), not from a clock, so the model anchors the whole window at that date. The weekly "no data" line carries that date, t, which is the value Go's `date` variable holds after the day loop.
