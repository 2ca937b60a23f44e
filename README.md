# power_savvy_backend: on-time, energy and tariff arithmetic

A Dafny model of the computational core of the power_savvy_backend service:
the handlers and the batch job that turn a device's on/off status log into
on-durations, kWh and a cost, and the tariff that prices kWh.

- `options.dfy` (`Options`): `Option`, `Result` and `Outcome`.
- `json.dfy` (`Json`): request and document values and the Python
  conversions the handlers apply to them: truthiness, arithmetic use,
  `float()`, `str.lower()`, and `ObjectId()` with its text form.
- `event_log.dfy` (`EventLog`): a status log as a sequence of
  `(status, time)` events. It defines the sums over consecutive pairs that
  the handlers' loops compute: closed on-spans, window sums, and gaps that
  end at an "on" event. It also gives an independent reference, the count of
  whole seconds at which the latest event says "on". It holds the
  `find_one(sort=-1)` and `.sort("timestamp", 1)` queries, and the
  hours-times-rating energy.
- `store.dfy` (`Store`): the `devices`, `device_logs`,
  `device_status_daily` and `daily_consumption` collections. They are the
  fields of one `Database` object, and the handlers that write update them
  in place. The module also holds the log queries and the UTC day and week
  starts.
- `devices_routes.dfy` (`DeviceRoutes`):
  - `add_device` and `update_device_status`, as methods on the database.
  - The day/week/month on-duration summary and its `HH:MM:SS` rendering.
  - The per-date consumption report.
- `duration_format.dfy` (`DurationFormat`): `format_duration` and a reader
  that recovers the seconds from its text.
- `calendar.dfy` (`Calendar`): the month-end expression of the monthly cost
  route, over proleptic Gregorian dates.
- `report_routes.dfy` (`ReportRoutes`): `calculate_realtime_usage`, with its
  fallbacks to 0.1.
- `aggregator.dfy` (`Aggregator`): `aggregate_daily_consumption`, a loop
  over the stored devices that upserts each device's figure for the day.
- `tariff.dfy` (`Tariff`):
  - The four per-kWh charges and VAT.
  - `estimate_bill`.
  - The per-month pricing loop of the two monthly cost routes.

Each loop of the source is a `while` loop in a method. The method is proved
equal to a function over the log: the function is what the lemmas reason
about, and it is related to the reference on-time count. Timestamps are
integer UTC seconds. A day is `t / 86400`, Dafny's floor division, which
agrees with Python for negative times too. kWh and money are `real`.

Every call site is modelled as it is written. The copies of the log
arithmetic differ:
- The summary credits a span in full to every window its end falls in.
- The realtime estimate sums closed on-spans plus the open span up to `now`.
- The daily report and the aggregation job sum the gaps whose later event
  is "on". The job adds a tail to the end of the day; the daily report has
  no tail.

The last difference is recorded under "## Findings".

The tariff's constants give (200 + 15 + 20 + 5) * 1.16 = 278.40 for
10 kWh (`Tariff.TenKwh`).

## Model

| member | source | states |
|---|---|---|
| Json.NumberOf | routes/energy_routes.py:39 | a value takes part in arithmetic exactly when it is a number or a bool; null and strings raise |
| Json.FloatOf | routes/devices_routes.py:387 | `float(watts)` returns a number as itself and raises for null and for the empty string |
| Json.LowerIsOn | routes/report_routes.py:66 | a status reads as "on" after `.lower()` exactly for "on", "On", "oN" and "ON" |
| Json.ParseObjectId | routes/devices_routes.py:29 | `ObjectId(x)` accepts exactly the strings of 24 hexadecimal digits |
| Json.ObjectIdRoundTrip | routes/devices_routes.py:52 | the text `str(id)` of every id is read back by `ObjectId` as the same id |
| EventLog.Latest | routes/devices_routes.py:155-158 | the latest log entry is in the log and no entry is later; there is none only for an empty log |
| EventLog.SortByTime | routes/devices_routes.py:271 | `.sort("timestamp", 1)` returns the same events in ascending time order |
| EventLog.OnSecondsIsOnTime | routes/report_routes.py:77-83 | the closed on-spans of a sorted log add up to the seconds between its first and last event at which the device was on |
| EventLog.OnTimeUntil | routes/report_routes.py:85-89 | with the still-on tail, the spans add up to the on-seconds from the first event up to `now` |
| EventLog.WindowOnSecondsAntitone | routes/devices_routes.py:305-310 | a later window start never credits more closed spans |
| EventLog.WindowOnSecondsWhole | routes/devices_routes.py:305-310 | a window starting no later than the first event credits every closed span |
| EventLog.GapsBeforeOnIsOffTime | routes/devices_routes.py:392-400 | on a sorted log whose events alternate between "on" and not "on", the gaps ending at an "on" event add up to the seconds between its first and last event at which the device was off |
| EventLog.OnSecondsNonNegative | routes/report_routes.py:77-79 | on a sorted log neither the on-spans nor the gaps before a switch-on are negative |
| Store.StartOfDay | routes/devices_routes.py:281 | midnight of the UTC day of `t`: a multiple of 86400 at or before `t`, less than a day before it |
| Store.StartOfWeek | routes/devices_routes.py:284 | the Monday midnight of `t`'s week: a midnight falling on a Monday (day 0 was a Thursday), at most today's midnight and less than seven days before it |
| Store.LogOfSelects | routes/devices_routes.py:270-271 | `device_logs.find({"device_id": id})` holds an event exactly for each record of that device, with its status and timestamp |
| Store.LogBetween | utils/aggregator.py:27-30 | the `$gte`/`$lt` query returns only events inside `[lo, hi)` |
| Store.LogBetweenIsWithin | utils/aggregator.py:27-30 | the range query is the device's log with exactly the events outside `[lo, hi)` removed, order kept |
| Store.LogOfAppend | routes/devices_routes.py:176-180 | inserting a log record extends its own device's log by one event and leaves every other device's log unchanged |
| DeviceRoutes.AddDevice | routes/devices_routes.py:16-56 | 400 exactly when a field is missing or falsy or the status is not "on"/"off"; 500 exactly for a room id that is not an ObjectId; no write on failure; success exactly in every other case: the device is stored with the next id, one log event with its status and creation time is added, and the new device's whole log is that one event; every log record belongs to a stored device before and after |
| DeviceRoutes.CreatedDeviceLog | routes/devices_routes.py:41-49 | a newly created device's log is exactly one event: its initial status at its creation time |
| DeviceRoutes.UpdateDeviceStatus | routes/devices_routes.py:132-186 | 400, 500 and 404 exactly in the source's cases, with nothing changed; for a matched device: the new status and change time, one appended log event `(id, status, now)`, the daily counter as `StatusDailyAfter` gives it, and the other tables unchanged |
| DeviceRoutes.LatestOfSorted | routes/devices_routes.py:155-158 | in a time-ordered log the latest entry is the last one |
| DeviceRoutes.CounterGrowsByClosedSpan | routes/devices_routes.py:160-173 | after the `$inc` upsert (`StatusDailyAfter`), today's counter grows by exactly the on-span the new event closes (nothing when the latest event is not "on"), even when the span began on an earlier day; every other key keeps its value |
| DeviceRoutes.OnDurationSummary | routes/devices_routes.py:289-324 | the loop's three totals credit every closed span whose end is at or after a window start to that window, in full, plus the still-on tail up to `now` for each window starting at or before `now` |
| DeviceRoutes.DailyWithinLongerWindow | routes/devices_routes.py:271-287 | on a sorted log, today's total never exceeds that of a window starting no later than today |
| DeviceRoutes.WeeklyAndMonthlyUnordered | routes/devices_routes.py:284-310 | weekly and monthly totals have no fixed order: each can exceed the other |
| DeviceRoutes.WholeLogWindow | routes/devices_routes.py:303-324 | a window starting at or before the first event reports the device's whole on-time up to `now` |
| DeviceRoutes.WindowTotalCoversWindow | routes/devices_routes.py:303-310 | spans are not clipped at the window start, so a window total is never below the on-seconds inside the window |
| DeviceRoutes.WindowCountsStraddlingSpanInFull | routes/devices_routes.py:303-306 | an hour-long span ending inside today counts 3600 seconds, of which only 1800 are in today |
| DeviceRoutes.GetOnDurationSummary | routes/devices_routes.py:259-342 | 500 for an id that is not an ObjectId, 404 unless the user owns the device; otherwise today's day and the three window totals of the sorted log, each rendered by `format_duration` |
| DeviceRoutes.DayLog | routes/devices_routes.py:379-382 | the per-date query is the device's log restricted to that UTC day, in stored order (no sort) |
| DeviceRoutes.DailyDeviceConsumption | routes/devices_routes.py:384-400 | the loop's kWh is watts times the seconds of the gaps ending at an "on" event, over 3600 * 1000 |
| DeviceRoutes.DailyRowsStayFailed | routes/devices_routes.py:387 | once `float(watts)` raises for one device, the whole report fails |
| DeviceRoutes.GetDailyConsumption | routes/devices_routes.py:349-414 | 400 exactly without a date, 500 for a date that does not parse or a device whose watts `float` rejects; otherwise one row per device of the user, in stored order, with the day's kWh and the date |
| DeviceRoutes.DailyConsumptionCountsOffTime | routes/devices_routes.py:390-400 | as written, an hour on followed by "off" yields 0 kWh, and an hour off followed by "on" yields 1 kWh at 1000 W |
| DeviceRoutes.IntendedDailyConsumption | routes/devices_routes.py:390-400 | the intended figure: watts times the seconds the device was on between its first and last event, in kWh; 0 for an empty day |
| DurationFormat.FormatDuration | routes/devices_routes.py:327-331 | the text has at least 8 characters, with colons before the two final two-character fields |
| DurationFormat.PadPositive | routes/devices_routes.py:331 | `f"{n:02}"` (`Pad2`) has at least two characters: digits for `n >= 0`, a minus sign before digits otherwise |
| DurationFormat.Pad2ValueNonNegative | routes/devices_routes.py:331 | `f"{n:02}"` of a non-negative number reads back as that number |
| DurationFormat.FormatDurationRoundTrip | routes/devices_routes.py:327-331 | reading the hours, minutes and seconds fields back gives the total seconds, negative totals included |
| DurationFormat.FormatDurationFields | routes/devices_routes.py:327-331 | for `s >= 0`: all three fields are decimal digits and the hours have at least two; minutes and seconds are below 60; `h*3600 + m*60 + sec == s` |
| Calendar.FourDaysAfterThe28th | routes/devices_routes.py:441 | the 28th plus four days is day `32 - length` of the next month, and it overflows only in December 9999 |
| Calendar.EndOfMonth | routes/devices_routes.py:441 | the month-end expression gives the last day of the same month, and it fails only for December 9999 |
| ReportRoutes.StampedEntryKept | routes/report_routes.py:65-71 | `Stamped`: an entry with a timestamp is kept at its place, its status lowered, "" when missing |
| ReportRoutes.UnstampedEntrySkipped | routes/report_routes.py:67-71 | an entry without a timestamp leaves the stamped log, and so the carried status and time, unchanged |
| ReportRoutes.StatusIgnoresCase | routes/report_routes.py:66 | an entry reads as "on" for every capitalisation of "on" and nothing else |
| ReportRoutes.EffectiveRating | routes/report_routes.py:45-50 | the rating used is always positive; a positive number is kept; a missing, null, falsy or non-positive rating becomes 0.1; a non-empty string raises |
| ReportRoutes.DeviceUsage | routes/report_routes.py:60-89 | one device's usage is the rating times the hours of its closed on-spans, plus the span since the last event when that event is "on" |
| ReportRoutes.ClosedSpansUsage | routes/report_routes.py:61-83 | the log loop yields the usage of the closed on-spans and the status and time of the last stamped entry |
| ReportRoutes.AdvanceEntry | routes/report_routes.py:65-83 | one entry of the log loop keeps that correspondence for one entry more |
| ReportRoutes.TotalUsageStaysFailed | routes/report_routes.py:43-50 | once a device's rating raises, the whole computation fails |
| ReportRoutes.RealtimeUsage | routes/report_routes.py:19-97 | 0.1 for an id that is not an ObjectId or a user without devices; devices without logs are skipped; 0.1 replaces a zero total; otherwise the sum of the device usages |
| ReportRoutes.DeviceUsageIsOnTime | routes/report_routes.py:77-89 | on a sorted log up to `now`, a device's usage is its rating times its on-seconds from the first event to `now`, in hours |
| ReportRoutes.DeviceUsageNonNegative | routes/report_routes.py:77-89 | on a sorted log up to `now`, a device's usage is not negative |
| ReportRoutes.TotalUsageNonNegative | routes/report_routes.py:43-91 | with every log sorted up to `now`, the total over any prefix of the devices is not negative |
| ReportRoutes.RealtimeUsagePositive | routes/report_routes.py:93-97 | with every log sorted up to `now`, the unrounded total is positive: 0.1 replaces a zero total |
| ReportRoutes.UsageBelowRoundingStep | routes/report_routes.py:93-97 | a positive total can lie below 0.005: one unrated device on for 100 seconds gives 1/360 kWh, which `round(total, 2)` reports as 0.0 |
| ReportRoutes.DeviceWithoutLogsAddsNothing | routes/report_routes.py:56-58 | a device without logs leaves the total unchanged |
| Aggregator.RatingFactor | utils/aggregator.py:23 | a missing rating multiplies as 0, a number as itself; null and strings make the multiplication raise |
| Aggregator.CarriedEntry | utils/aggregator.py:37-46 | one step of the inner loop either raises on an "on" event after the first, or keeps the carried total, status and time in step with the lowered log |
| Aggregator.GapsUsage | utils/aggregator.py:37-46 | the inner loop raises exactly when the rating cannot multiply and some event after the first is "on"; otherwise it yields the rating times the gaps ending at an "on" event, and the last status and time |
| Aggregator.DayConsumption | utils/aggregator.py:32-51 | a device's figure: the rating times the gaps ending at an "on" event plus the tail to the end of the day; it raises exactly when an unusable rating gets multiplied |
| Aggregator.DeviceDayLogWithinDay | utils/aggregator.py:15-30 | the job's day log (`DeviceDayLog`) holds exactly the device's events in `[start_of_day, start_of_day + 1 day)`, in time order |
| Aggregator.DeviceDayConsumption | utils/aggregator.py:22-51 | the loop body computes device `id`'s figure for the day |
| Aggregator.RecordDevice | utils/aggregator.py:21-70 | a device's figure is `$set` under (owner, device, day) unless it raises; no other collection changes |
| Aggregator.RunStep | utils/aggregator.py:57-70 | one more device either stops the run or replaces the record under its key |
| Aggregator.RunStaysStopped | utils/aggregator.py:77-78 | a stopped run writes nothing more |
| Aggregator.AggregateDailyConsumption | utils/aggregator.py:11-78 | the table afterwards is the old one with each device's figure `$set` in device order, up to the first device whose figure raises; the other collections are unchanged |
| Aggregator.RunOverlays | utils/aggregator.py:57-70 | a run overlays the records it writes on the table it starts from; what it writes does not depend on that table |
| Aggregator.WritesAreToday | utils/aggregator.py:57-62 | every record written is keyed by today's date, a device the run reached, and that device's owner |
| Aggregator.AggregateIdempotent | utils/aggregator.py:57-70 | running the job twice on the same data leaves the table as one run does |
| Aggregator.AggregateKeepsOtherKeys | utils/aggregator.py:57-70 | records under keys the run does not write, other days included, are unchanged |
| Aggregator.NoLogsRecordsZero | utils/aggregator.py:33-35 | a device without logs today gets 0.0, whatever its rating |
| Aggregator.AggregateStopsAtFailure | utils/aggregator.py:12-78 | when device `k`'s figure raises, the run stops and no device from `k` on gets a record |
| Aggregator.AggregatorCountsOffTime | utils/aggregator.py:41-43 | as written, a device on for the first hour of the day and then off gets 0, though it was on for 3600 seconds |
| Aggregator.IntendedDayConsumption | utils/aggregator.py:41-51 | the intended figure: the rating times the hours, from the first event to the end of the day, at which the device was on |
| Tariff.BillFor | routes/energy_routes.py:50-62 | the subtotal is 24 times the usage, the VAT 3.84 times it, and the total 27.84 times it |
| Tariff.BillAddsUp | routes/energy_routes.py:43-62 | the charges are 20, 1.5, 2 and 0.5 times the usage; they sum to the subtotal; VAT is 16% of it; the total is subtotal plus VAT |
| Tariff.BillPositive | routes/energy_routes.py:50-62 | for a positive usage every charge and the total are positive |
| Tariff.BillMonotone | routes/energy_routes.py:50-62 | the total strictly increases with the usage |
| Tariff.TenKwh | routes/energy_routes.py:50-62 | 10 kWh cost 278.40 |
| Tariff.EstimateBill | routes/energy_routes.py:29-85 | an empty or absent body is rejected with 400 "No data"; a bill exactly for a numeric usage above 0, and it is the tariff's bill for that usage; a missing, falsy (`""` included) or non-positive usage is rejected with 400; a non-empty string usage makes `<= 0` raise, 500, exactly |
| Tariff.MonthlyCostReport | routes/report_routes.py:170-196 | one row per pipeline row, in order, with its year, month, usage, and the tariff's bill for that usage |

## Left out

- Authentication, rooms, notifications, the read/edit/delete device
  handlers, `log_energy`/`get_energy`, `/report` and `/update_realtime`:
  these are I/O and serialisation with no arithmetic. The JWT identity is a
  parameter.
- The Mongo aggregation pipelines of the monthly cost routes. Their output
  is an input sequence of `(year, month, total_usage)` rows to
  `Tariff.MonthlyCostReport`.
- The room-name lookup of the daily report is a separate query, not part of
  this model. The rows carry no room name.
- ReportRoutes.RealtimeUsagePositive: positivity is proved of the unrounded
  total only. The handler returns `round(total, 2)`, which is 0.0 for a
  total below 0.005 (`ReportRoutes.UsageBelowRoundingStep`), so the 0.1
  floor does not rule out a literal zero in the reply.
- Rounding to two places: every figure is reported at full precision as a
  `real`. IEEE floating point is not modelled.
- Timezone normalisation: every timestamp is already integer UTC seconds,
  and microseconds are not modelled. The daily report's `$lte 23:59:59.999999`
  is therefore `< start_of_day + 86400`.
- Clocks: `now` is a parameter. The start of the month for the summary is a
  parameter. The date that `strptime` parses in the daily report is a
  parameter, as a day number, or None where it raises.
- `utils/aggregator.py:14` calls `datetime.timezone` on the `datetime`
  class. That raises before any device is visited, so the deployed job
  writes nothing. The model describes the job with `now` supplied.
- `routes/devices_routes.py:440-441` calls `strptime` and `timedelta` on
  the `datetime` module. That raises and the route answers 500. The model
  evaluates the month-end expression itself (`Calendar.EndOfMonth`). The
  route's pricing loop (`routes/devices_routes.py:463-491`) is the same
  loop as the one in `routes/report_routes.py`, with the same constants, so
  `Tariff.MonthlyCostReport` describes both.
- Device ids are positions in `devices`, so ids are allocated in order and
  deletion is not modelled.
- Json.FloatOf: only numbers, bools and plain digit strings are converted.
  Other numeric strings (signs, decimal points, exponents) are treated as
  raising.
- EventLog.Latest: a tie between equal timestamps goes to the later-stored
  entry. Mongo does not fix the order on ties.
- EventLog.SortByTime: events with equal timestamps keep their stored
  order. Mongo does not fix that order, and it decides which event is last,
  so the still-on tail of the summary and of the realtime estimate on a tie
  is the one for that order.
- Json.JsonValue: JSON arrays and objects as values, and a request body that
  is a list rather than an object, are not modelled. In the source a list
  usage (`[1] <= 0`) raises and the route answers 500, and a list body makes
  `data.get` raise.
- DeviceRoutes.UpdateDeviceStatus: as in the source, any device id matches,
  with no owner check.
- ReportRoutes.RealtimeUsage: takes the user's devices, each with its
  time-ordered log, as a parameter instead of running the queries.
- ReportRoutes.AdvanceEntry and Aggregator.RecordDevice are loop bodies
  lifted into methods. They add no behaviour.

## Findings

| source | as written | input that shows it | evidently intended | confidence | as-written member | corrected member |
|---|---|---|---|---|---|---|
| routes/devices_routes.py:390-400 | a gap is counted when the event that ends it is "on", so off-time is billed and on-time is not | "on" at 0 and "off" at 3600 at 1000 W gives 0 kWh; "off" then "on" gives 1 kWh | count the gap after each "on" event, i.e. the seconds the device was on | not executed | DeviceRoutes.DailyConsumptionCountsOffTime | DeviceRoutes.IntendedDailyConsumption |
| utils/aggregator.py:41-43 | the inner loop adds a gap when the current event is "on", so the hour before a switch-on is billed and the hour before a switch-off is not | "on" at midnight and "off" at 01:00, rating 1 kWh per hour, gives 0.0 | add the gap after each "on" event, plus the tail to the end of the day | not executed | Aggregator.AggregatorCountsOffTime | Aggregator.IntendedDayConsumption |
