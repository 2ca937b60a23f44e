/**
 * routes/devices_routes.py: creating a device with its first log event,
 * switching a device on or off (log append plus the per-day on-duration
 * counter), the day/week/month on-duration summary and the per-day
 * consumption report.
 */
module DeviceRoutes {
  import opened Options
  import opened Json
  import opened EventLog
  import opened Store
  import DurationFormat

  /** `status in ['on', 'off']`. */
  predicate ValidStatus(v: JsonValue) { v == JStr("on") || v == JStr("off") }

  // ---------------------------------------------------------------------------
  // POST /devices

  /** The checks `add_device` makes before touching the database. */
  predicate AddRequestValid(data: Object)
  {
    && Given(data, "name") && Given(data, "watts") && Given(data, "roomId") && Given(data, "status")
    && ValidStatus(data["status"])
  }

  /**
   * `add_device`: a request missing a field or naming another status is
   * rejected with 400, a room id that is not an ObjectId makes the handler
   * fail with 500; otherwise the device is stored and its log gets one event
   * with the initial status at the creation time.
   */
  method AddDevice(db: Database, user: string, data: Object, now: int) returns (r: Result<ObjectId, Failure>)
    requires db.Valid()
    modifies db
    ensures db.Valid()
    ensures r == Err(BadRequest) <==> !AddRequestValid(data)
    ensures r == Err(ServerError) <==> AddRequestValid(data) && ParseObjectId(data["roomId"]).None?
    ensures r.Ok? <==> AddRequestValid(data) && ParseObjectId(data["roomId"]).Some?
    ensures r.Err? ==> unchanged(db)
    ensures r.Ok? ==> LogOf(db.deviceLogs, r.value) == [Event(data["status"].s, now)]
    ensures r.Ok? ==>
      && r.value == |old(db.devices)|
      && db.devices == old(db.devices) + [Device(data["name"], data["watts"],
           ParseObjectId(data["roomId"]).value, data["status"].s, user, now, None, None)]
      && db.deviceLogs == old(db.deviceLogs) + [LogRecord(r.value, data["status"].s, now)]
      && db.deviceStatusDaily == old(db.deviceStatusDaily)
      && db.dailyConsumption == old(db.dailyConsumption)
  {
    if !(Given(data, "name") && Given(data, "watts") && Given(data, "roomId") && Given(data, "status")) {
      return Err(BadRequest);
    }
    if !ValidStatus(data["status"]) {
      return Err(BadRequest);
    }
    var roomId := ParseObjectId(data["roomId"]);
    if roomId.None? {
      return Err(ServerError);
    }
    var status := data["status"].s;
    var id := |db.devices|;
    db.devices := db.devices + [Device(data["name"], data["watts"], roomId.value, status, user, now, None, None)];
    CreatedDeviceLog(db.deviceLogs, id, status, now);
    db.deviceLogs := db.deviceLogs + [LogRecord(id, status, now)];
    r := Ok(id);
  }

  /** A device just created has exactly one event in its log: its initial status at its creation time. */
  lemma {:induction false} CreatedDeviceLog(logs: seq<LogRecord>, id: ObjectId, status: string, now: int)
    requires forall k :: 0 <= k < |logs| ==> logs[k].deviceId != id
    ensures LogOf(logs + [LogRecord(id, status, now)], id) == [Event(status, now)]
  {
    var all := logs + [LogRecord(id, status, now)];
    assert all[..|all| - 1] == logs;
    NoRecordsNoLog(logs, id);
  }

  lemma {:induction false} NoRecordsNoLog(logs: seq<LogRecord>, id: ObjectId)
    requires forall k :: 0 <= k < |logs| ==> logs[k].deviceId != id
    ensures LogOf(logs, id) == []
    decreases |logs|
  {
    if |logs| > 0 {
      NoRecordsNoLog(logs[..|logs| - 1], id);
    }
  }

  // ---------------------------------------------------------------------------
  // PUT /devices/status

  predicate UpdateRequestValid(data: Object)
  {
    Given(data, "device_id") && Given(data, "status") && ValidStatus(data["status"])
  }

  /** The on-duration recorded for a key, 0 for a key not yet in the table. */
  function OnDurationOf(table: map<StatusKey, StatusDay>, key: StatusKey): int
  {
    if key in table then table[key].onDuration else 0
  }

  /**
   * The `device_status_daily` table after a status change at `now`: when the
   * device's latest event is "on", today's counter grows by the seconds since
   * that event (`$inc` with `upsert`) and records the new status.
   */
  function StatusDailyAfter(table: map<StatusKey, StatusDay>, log: seq<Event>, id: ObjectId,
                            status: string, now: int): map<StatusKey, StatusDay>
  {
    var last := Latest(log);
    if last.Some? && IsOn(last.value) then
      var key := StatusKey(id, DayOf(now));
      table[key := StatusDay(OnDurationOf(table, key) + (now - last.value.time), status)]
    else table
  }

  /**
   * `update_device_status`: 400 for a missing id or status or another
   * status, 500 when the id is not an ObjectId, 404 when no device has it;
   * none of these changes anything. A matched device takes the new status,
   * today's counter is increased as `StatusDailyAfter` says, and the log
   * gains the event `(status, now)`.
   */
  method UpdateDeviceStatus(db: Database, data: Object, now: int) returns (r: Outcome<Failure>)
    requires db.Valid()
    modifies db
    ensures db.Valid()
    ensures r == Fail(BadRequest) <==> !UpdateRequestValid(data)
    ensures r == Fail(ServerError) <==> UpdateRequestValid(data) && ParseObjectId(data["device_id"]).None?
    ensures r == Fail(NotFound) <==>
      UpdateRequestValid(data) && ParseObjectId(data["device_id"]).Some?
      && ParseObjectId(data["device_id"]).value >= |old(db.devices)|
    ensures r.Fail? ==> unchanged(db)
    ensures r.Pass? ==>
      var id, status := ParseObjectId(data["device_id"]).value, data["status"].s;
      && id < |old(db.devices)|
      && db.devices == old(db.devices)[id := old(db.devices)[id].(status := status, statusChangedAt := Some(now))]
      && db.deviceLogs == old(db.deviceLogs) + [LogRecord(id, status, now)]
      && db.deviceStatusDaily == StatusDailyAfter(old(db.deviceStatusDaily), LogOf(old(db.deviceLogs), id), id, status, now)
      && db.dailyConsumption == old(db.dailyConsumption)
  {
    if !(Given(data, "device_id") && Given(data, "status")) {
      return Fail(BadRequest);
    }
    if !ValidStatus(data["status"]) {
      return Fail(BadRequest);
    }
    var status := data["status"].s;
    var parsed := ParseObjectId(data["device_id"]);
    if parsed.None? {
      return Fail(ServerError);
    }
    var id := parsed.value;
    if id >= |db.devices| {
      return Fail(NotFound);
    }
    db.devices := db.devices[id := db.devices[id].(status := status, statusChangedAt := Some(now))];
    var last := Latest(LogOf(db.deviceLogs, id));
    if last.Some? && IsOn(last.value) {
      var duration := now - last.value.time;
      var key := StatusKey(id, DayOf(now));
      var previous := if key in db.deviceStatusDaily then db.deviceStatusDaily[key].onDuration else 0;
      db.deviceStatusDaily := db.deviceStatusDaily[key := StatusDay(previous + duration, status)];
    }
    db.deviceLogs := db.deviceLogs + [LogRecord(id, status, now)];
    r := Pass;
  }

  /** In a sorted log the latest event is the last one. */
  lemma LatestOfSorted(log: seq<Event>)
    requires Sorted(log) && |log| > 0
    ensures Latest(log) == Some(Last(log))
  {
    var rest := Latest(Init(log));
    if rest.Some? {
      var j :| 0 <= j < |Init(log)| && Init(log)[j] == rest.value;
      assert log[j].time <= log[|log| - 1].time;
    }
  }

  /**
   * On a device whose log is in time order, the increment a status change
   * adds to today's counter is exactly the on-span the new event closes:
   * the growth of `OnSeconds` over the device's log. It lands on the day of
   * `now` even when the span began on an earlier day, and no other key changes.
   */
  lemma CounterGrowsByClosedSpan(table: map<StatusKey, StatusDay>, log: seq<Event>, id: ObjectId,
                                 status: string, now: int, key: StatusKey)
    requires Sorted(log)
    ensures var after := StatusDailyAfter(table, log, id, status, now);
      && (key == StatusKey(id, DayOf(now)) ==>
            OnDurationOf(after, key) == OnDurationOf(table, key)
              + (OnSeconds(log + [Event(status, now)]) - OnSeconds(log)))
      && (key != StatusKey(id, DayOf(now)) ==>
            (key in after <==> key in table) && (key in table ==> after[key] == table[key]))
  {
    var extended := log + [Event(status, now)];
    if |log| > 0 {
      LatestOfSorted(log);
      assert Init(extended) == log;
    }
  }

  // ---------------------------------------------------------------------------
  // GET /devices/<device_id>/on-duration-summary

  /** The three window starts: today's midnight, this week's Monday midnight, the first of this month. */
  datatype Windows = Windows(startOfDay: int, startOfWeek: int, startOfMonth: int)

  datatype Summary = Summary(daily: int, weekly: int, monthly: int)

  /**
   * What the summary credits to the window starting at `start`: every closed
   * span whose closing event is at or after `start`, in full, plus the open
   * span up to `now` when the device is still on and `now >= start`.
   */
  function WindowTotal(log: seq<Event>, now: int, start: int): int
  {
    WindowOnSeconds(log, start) + (if now >= start then OpenSpan(log, now) else 0)
  }

  /** The three totals the summary reports for a log. */
  function OnDurationSummaryOf(log: seq<Event>, now: int, w: Windows): Summary
  {
    Summary(WindowTotal(log, now, w.startOfDay), WindowTotal(log, now, w.startOfWeek),
            WindowTotal(log, now, w.startOfMonth))
  }

  /** The summary loop over the sorted log, followed by the still-on tail. */
  method OnDurationSummary(log: seq<Event>, now: int, w: Windows) returns (s: Summary)
    ensures s == OnDurationSummaryOf(log, now, w)
  {
    var daily, weekly, monthly := 0, 0, 0;
    var previousStatus: Option<string> := None;
    var previousTime: Option<int> := None;
    var i := 0;
    while i < |log|
      invariant 0 <= i <= |log|
      invariant i == 0 ==> previousStatus.None? && previousTime.None?
      invariant i > 0 ==> previousStatus == Some(log[i - 1].status) && previousTime == Some(log[i - 1].time)
      invariant daily == WindowOnSeconds(log[..i], w.startOfDay)
      invariant weekly == WindowOnSeconds(log[..i], w.startOfWeek)
      invariant monthly == WindowOnSeconds(log[..i], w.startOfMonth)
    {
      var e := log[i];
      if previousStatus == Some("on") {
        var duration := e.time - previousTime.value;
        if e.time >= w.startOfDay {
          daily := daily + duration;
        }
        if e.time >= w.startOfWeek {
          weekly := weekly + duration;
        }
        if e.time >= w.startOfMonth {
          monthly := monthly + duration;
        }
      }
      previousStatus, previousTime := Some(e.status), Some(e.time);
      assert log[..i + 1][..i] == log[..i];
      i := i + 1;
    }
    assert log[..i] == log;
    if previousStatus == Some("on") {
      var duration := now - previousTime.value;
      if now >= w.startOfDay {
        daily := daily + duration;
      }
      if now >= w.startOfWeek {
        weekly := weekly + duration;
      }
      if now >= w.startOfMonth {
        monthly := monthly + duration;
      }
    }
    s := Summary(daily, weekly, monthly);
  }

  /**
   * With the log in time order and the week (or month) starting no later
   * than the day, today's figure never exceeds this week's (or month's).
   */
  lemma DailyWithinLongerWindow(log: seq<Event>, now: int, dayStart: int, longerStart: int)
    requires Sorted(log) && longerStart <= dayStart
    requires |log| > 0 ==> Last(log).time <= now
    ensures WindowTotal(log, now, dayStart) <= WindowTotal(log, now, longerStart)
  {
    WindowOnSecondsAntitone(log, longerStart, dayStart);
  }

  /**
   * Weekly and monthly have no fixed order: a week that starts in the
   * previous month can report more than the month, and a month that starts
   * before the week more than the week.
   */
  lemma WeeklyAndMonthlyUnordered()
    ensures var log := [Event("on", 0), Event("off", 20)];
      && WindowTotal(log, 100, 10) > WindowTotal(log, 100, 30)
      && OnDurationSummaryOf(log, 100, Windows(50, 10, 30)).weekly > OnDurationSummaryOf(log, 100, Windows(50, 10, 30)).monthly
      && OnDurationSummaryOf(log, 100, Windows(50, 30, 10)).monthly > OnDurationSummaryOf(log, 100, Windows(50, 30, 10)).weekly
  {
  }

  /**
   * A window that starts no later than the first event reports the device's
   * whole on-time from its first event up to `now`.
   */
  lemma WholeLogWindow(log: seq<Event>, now: int, start: int)
    requires Sorted(log) && |log| > 0 && start <= log[0].time && Last(log).time <= now
    ensures WindowTotal(log, now, start) == OnCount(log, log[0].time, now)
  {
    WindowOnSecondsWhole(log, start);
    OnTimeUntil(log, now);
  }

  /**
   * Spans are not clipped at the window start, so the figure is never below
   * the seconds inside `[start, now)` at which the device was on.
   */
  lemma WindowTotalCoversWindow(log: seq<Event>, now: int, start: int)
    requires Sorted(log) && |log| > 0 && Last(log).time <= now
    ensures WindowTotal(log, now, start) >= OnCount(log, start, now)
  {
    WindowOnSecondsCovers(log, start);
    var t := Last(log).time;
    if start <= t {
      OnCountSplit(log, start, t, now);
      OnCountAfterLast(log, t, now);
    } else {
      OnCountAfterLast(log, start, now);
    }
  }

  lemma {:induction false} WindowOnSecondsCovers(log: seq<Event>, start: int)
    requires Sorted(log) && |log| > 0
    ensures WindowOnSeconds(log, start) >= OnCount(log, start, Last(log).time)
    decreases |log|
  {
    if |log| >= 2 {
      var p, e := Init(log), Last(log);
      assert log == p + [e];
      SortedInit(log);
      WindowOnSecondsCovers(p, start);
      var tp := Last(p).time;
      assert tp <= e.time;
      assert log[|log| - 2] == Last(p);
      if start <= tp {
        OnCountSplit(log, start, tp, e.time);
        OnCountAppend(p, e, start, tp);
        OnCountAppend(p, e, tp, e.time);
        OnCountAfterLast(p, tp, e.time);
      } else {
        OnCountAppend(p, e, start, e.time);
        OnCountAfterLast(p, start, e.time);
      }
    } else {
      OnCountBeforeFirst(log, start, Last(log).time);
    }
  }

  /** A span that began before the window and ended inside it counts in full: one hour on, half of it today, reports the hour. */
  lemma WindowCountsStraddlingSpanInFull()
    ensures var log := [Event("on", 0), Event("off", 3600)];
      WindowTotal(log, 3600, 1800) == 3600 && OnCount(log, 1800, 3600) == 1800
  {
    var p := [Event("on", 0)];
    var log := p + [Event("off", 3600)];
    assert log == [Event("on", 0), Event("off", 3600)];
    OnCountAppend(p, Event("off", 3600), 1800, 3600);
    OnCountAfterLast(p, 1800, 3600);
  }

  /** The route's reply: the day measured and the three totals as `HH:MM:SS`. */
  datatype SummaryReply = SummaryReply(dailyTag: int, daily: string, weekly: string, monthly: string)

  /**
   * `get_device_on_duration_summary`: 500 for an id that is not an ObjectId,
   * 404 unless the device exists and belongs to `user`; otherwise the summary
   * of the device's log sorted by time, with the day and week derived from
   * `now` and the month start supplied.
   */
  method GetOnDurationSummary(db: Database, user: string, deviceId: string, now: int, startOfMonth: int)
    returns (r: Result<SummaryReply, Failure>)
    ensures r == Err(ServerError) <==> ParseObjectId(JStr(deviceId)).None?
    ensures r == Err(NotFound) <==>
      ParseObjectId(JStr(deviceId)).Some?
      && var id := ParseObjectId(JStr(deviceId)).value;
      !(id < |db.devices| && db.devices[id].userId == user)
    ensures r.Ok? <==>
      ParseObjectId(JStr(deviceId)).Some?
      && var id := ParseObjectId(JStr(deviceId)).value;
      id < |db.devices| && db.devices[id].userId == user
    ensures r.Ok? ==>
      var log := SortByTime(LogOf(db.deviceLogs, ParseObjectId(JStr(deviceId)).value));
      && r.value.dailyTag == DayOf(now)
      && r.value.daily == DurationFormat.FormatDuration(WindowTotal(log, now, StartOfDay(now)))
      && r.value.weekly == DurationFormat.FormatDuration(WindowTotal(log, now, StartOfWeek(now)))
      && r.value.monthly == DurationFormat.FormatDuration(WindowTotal(log, now, startOfMonth))
  {
    var parsed := ParseObjectId(JStr(deviceId));
    if parsed.None? {
      return Err(ServerError);
    }
    var id := parsed.value;
    if !(id < |db.devices| && db.devices[id].userId == user) {
      return Err(NotFound);
    }
    var log := SortByTime(LogOf(db.deviceLogs, id));
    var s := OnDurationSummary(log, now, Windows(StartOfDay(now), StartOfWeek(now), startOfMonth));
    r := Ok(SummaryReply(DayOf(now),
      DurationFormat.FormatDuration(s.daily),
      DurationFormat.FormatDuration(s.weekly),
      DurationFormat.FormatDuration(s.monthly)));
  }

  // ---------------------------------------------------------------------------
  // GET /devices/daily-consumption

  /** kWh over one day's log: watts times the seconds before each switch-on, in hours, over 1000. */
  method DailyDeviceConsumption(log: seq<Event>, watts: real) returns (kwh: real)
    ensures kwh == Kwh(watts, GapsBeforeOnSeconds(log))
  {
    kwh := 0.0;
    var previous: Option<int> := None;
    var i := 0;
    while i < |log|
      invariant 0 <= i <= |log|
      invariant i == 0 <==> previous.None?
      invariant i > 0 ==> previous == Some(log[i - 1].time)
      invariant kwh == Kwh(watts, GapsBeforeOnSeconds(log[..i]))
    {
      var e := log[i];
      if e.status == "on" && previous.Some? {
        var duration := e.time - previous.value;
        var hours := (duration as real) / 3600.0;
        KwhStep(watts, GapsBeforeOnSeconds(log[..i]), duration);
        kwh := kwh + (watts * hours) / 1000.0;
      }
      previous := Some(e.time);
      assert log[..i + 1][..i] == log[..i];
      i := i + 1;
    }
    assert log[..i] == log;
  }

  /** Watts over `seconds` seconds, in kWh. */
  function Kwh(watts: real, seconds: int): real
  {
    watts * (seconds as real) / 3600000.0
  }

  lemma KwhStep(watts: real, seconds: int, duration: int)
    ensures Kwh(watts, seconds + duration) == Kwh(watts, seconds) + (watts * ((duration as real) / 3600.0)) / 1000.0
  {
  }

  /** One entry of the reply. */
  datatype ConsumptionRow = ConsumptionRow(deviceName: JsonValue, consumptionKwh: real, date: string)

  /** The day's log of one device: `$gte` midnight and `$lte` 23:59:59.999999, in stored order. */
  function DayLog(logs: seq<LogRecord>, id: ObjectId, day: int): (r: seq<Event>)
    ensures r == Within(LogOf(logs, id), day * SecondsPerDay, day * SecondsPerDay + SecondsPerDay)
  {
    LogBetweenIsWithin(logs, id, day * SecondsPerDay, day * SecondsPerDay + SecondsPerDay);
    LogBetween(logs, id, day * SecondsPerDay, day * SecondsPerDay + SecondsPerDay)
  }

  /**
   * The rows for the devices among the first `n` that belong to `user`, in
   * stored order; None when `float(watts)` raises for one of them.
   */
  function DailyRows(devices: seq<Device>, logs: seq<LogRecord>, user: string, day: int, date: string, n: nat): Option<seq<ConsumptionRow>>
    requires n <= |devices|
  {
    if n == 0 then Some([])
    else RowsWith(DailyRows(devices, logs, user, day, date, n - 1), devices[n - 1], DayLog(logs, n - 1, day), user, date)
  }

  /**
   * The rows after device `d`, whose day log is `log`: unchanged for another
   * user's device, one more row for the user's, None once `float(watts)` raises.
   */
  function RowsWith(rows: Option<seq<ConsumptionRow>>, d: Device, log: seq<Event>, user: string, date: string)
    : Option<seq<ConsumptionRow>>
  {
    match rows
    case None => None
    case Some(rs) =>
      if d.userId != user then Some(rs)
      else
        match FloatOf(d.watts)
        case None => None
        case Some(watts) => Some(rs + [ConsumptionRow(d.name, Kwh(watts, GapsBeforeOnSeconds(log)), date)])
  }

  /** Once a device's watts fail, the whole report fails. */
  lemma {:induction false} DailyRowsStayFailed(devices: seq<Device>, logs: seq<LogRecord>, user: string, day: int,
                                               date: string, k: nat, n: nat)
    requires k <= n <= |devices|
    requires DailyRows(devices, logs, user, day, date, k).None?
    ensures DailyRows(devices, logs, user, day, date, n).None?
    decreases n
  {
    if n > k {
      DailyRowsStayFailed(devices, logs, user, day, date, k, n - 1);
    }
  }

  /** One more device: the rows so far, extended as `RowsWith` says. */
  lemma DailyRowsStep(devices: seq<Device>, logs: seq<LogRecord>, user: string, day: int, date: string, n: nat)
    requires n < |devices|
    ensures DailyRows(devices, logs, user, day, date, n + 1)
      == RowsWith(DailyRows(devices, logs, user, day, date, n), devices[n], DayLog(logs, n, day), user, date)
  {
  }

  /**
   * `get_daily_consumption`: 400 without a date, 500 when it does not parse
   * (`parsedDay` is the day `strptime` yields, numbered from 1970-01-01) or
   * when a device's watts are not a number; otherwise one row per device of
   * the user.
   */
  method GetDailyConsumption(db: Database, user: string, date: Option<string>, parsedDay: Option<int>)
    returns (r: Result<seq<ConsumptionRow>, Failure>)
    ensures r == Err(BadRequest) <==> date.None? || date.value == ""
    ensures date.Some? && date.value != "" && parsedDay.None? ==> r == Err(ServerError)
    ensures date.Some? && date.value != "" && parsedDay.Some? ==>
      match DailyRows(db.devices, db.deviceLogs, user, parsedDay.value, date.value, |db.devices|)
      case None => r == Err(ServerError)
      case Some(rows) => r == Ok(rows)
  {
    if date.None? || date.value == "" {
      return Err(BadRequest);
    }
    if parsedDay.None? {
      return Err(ServerError);
    }
    var day := parsedDay.value;
    var devices, logs := db.devices, db.deviceLogs;
    var rows: seq<ConsumptionRow> := [];
    var id := 0;
    while id < |devices|
      invariant 0 <= id <= |devices|
      invariant DailyRows(devices, logs, user, day, date.value, id) == Some(rows)
    {
      var d := devices[id];
      DailyRowsStep(devices, logs, user, day, date.value, id);
      if d.userId == user {
        var watts := FloatOf(d.watts);
        if watts.None? {
          DailyRowsStayFailed(devices, logs, user, day, date.value, id + 1, |devices|);
          return Err(ServerError);
        }
        var kwh := DailyDeviceConsumption(DayLog(logs, id, day), watts.value);
        rows := rows + [ConsumptionRow(d.name, kwh, date.value)];
      }
      id := id + 1;
    }
    r := Ok(rows);
  }

  /**
   * As written, a gap counts when the event that ENDS it is "on": a device
   * on for the first hour of the day and then switched off reports 0 kWh,
   * and one off for that hour and then switched on reports a full hour.
   */
  lemma DailyConsumptionCountsOffTime()
    ensures var onThenOff := [Event("on", 0), Event("off", 3600)];
      && Kwh(1000.0, GapsBeforeOnSeconds(onThenOff)) == 0.0
      && OnCount(onThenOff, 0, 3600) == 3600
    ensures var offThenOn := [Event("off", 0), Event("on", 3600)];
      && Kwh(1000.0, GapsBeforeOnSeconds(offThenOn)) == 1.0
      && OnCount(offThenOn, 0, 3600) == 0
  {
    var p, q := [Event("on", 0)], [Event("off", 0)];
    assert p + [Event("off", 3600)] == [Event("on", 0), Event("off", 3600)];
    assert q + [Event("on", 3600)] == [Event("off", 0), Event("on", 3600)];
    OnCountAppend(p, Event("off", 3600), 0, 3600);
    OnCountAfterLast(p, 0, 3600);
    OnCountAppend(q, Event("on", 3600), 0, 3600);
    OnCountAfterLast(q, 0, 3600);
  }

  /**
   * The evidently intended figure: watts times the seconds the device was on
   * between its first and last event of a time-ordered log, in kWh.
   */
  function IntendedDailyConsumption(log: seq<Event>, watts: real): (kwh: real)
    requires Sorted(log)
    ensures |log| == 0 ==> kwh == 0.0
    ensures |log| > 0 ==> kwh == Kwh(watts, OnCount(log, log[0].time, Last(log).time))
  {
    if |log| > 0 then OnSecondsIsOnTime(log); Kwh(watts, OnSeconds(log))
    else 0.0
  }
}
