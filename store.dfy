/**
 * The document collections the core reads and writes: `devices`,
 * `device_logs`, `device_status_daily` and `daily_consumption`, held by one
 * `Database` object (the `mongo.db` handle), together with the queries the
 * handlers run against them.
 */
module Store {
  import opened Options
  import opened Json
  import opened EventLog

  /** How a handler fails: 400, 404, or 500 for an exception caught by its `except`. */
  datatype Failure = BadRequest | NotFound | ServerError

  /**
   * A stored device. `insert_one` allocates ids in order, so a device's id is
   * its position in `devices`. `powerRating` is the optional `power_rating`
   * field read by the usage reports; no handler of the core writes it.
   */
  datatype Device = Device(
    name: JsonValue,
    watts: JsonValue,
    roomId: ObjectId,
    status: string,
    userId: string,
    createdAt: int,
    statusChangedAt: Option<int>,
    powerRating: Option<JsonValue>)

  /** A `device_logs` document. */
  datatype LogRecord = LogRecord(deviceId: ObjectId, status: string, timestamp: int)

  /** `device_status_daily` is keyed by device and calendar day. */
  datatype StatusKey = StatusKey(deviceId: ObjectId, day: int)

  datatype StatusDay = StatusDay(onDuration: int, status: string)

  /** `daily_consumption` is keyed by owner, device and calendar day. */
  datatype ConsumptionKey = ConsumptionKey(userId: string, deviceId: ObjectId, day: int)

  datatype ConsumptionDay = ConsumptionDay(consumptionKwh: real, timestamp: int)

  const SecondsPerDay: int := 86400

  /** The UTC calendar day of an instant, numbered from 1970-01-01 (`strftime('%Y-%m-%d')` names it). */
  function DayOf(t: int): int { t / SecondsPerDay }

  /** `t.replace(hour=0, minute=0, second=0, microsecond=0)`. */
  function StartOfDay(t: int): (s: int)
    ensures s <= t < s + SecondsPerDay && s % SecondsPerDay == 0
  {
    DayOf(t) * SecondsPerDay
  }

  /**
   * `(t - timedelta(days=t.weekday())).replace(hour=0, ...)`: the Monday of
   * `t`'s week. Day 0, 1970-01-01, was a Thursday (weekday 3).
   */
  function StartOfWeek(t: int): (s: int)
    ensures s <= StartOfDay(t) < s + 7 * SecondsPerDay
    ensures s % SecondsPerDay == 0 && (DayOf(s) + 3) % 7 == 0
  {
    StartOfDay(t) - ((DayOf(t) + 3) % 7) * SecondsPerDay
  }

  /** `device_logs.find({"device_id": id})` in stored order. */
  function LogOf(logs: seq<LogRecord>, id: ObjectId): (r: seq<Event>)
    ensures |r| <= |logs|
  {
    if |logs| == 0 then []
    else
      var last := logs[|logs| - 1];
      LogOf(logs[..|logs| - 1], id)
        + (if last.deviceId == id then [Event(last.status, last.timestamp)] else [])
  }

  /** The same query with `{"timestamp": {"$gte": lo, "$lt": hi}}`. */
  function LogBetween(logs: seq<LogRecord>, id: ObjectId, lo: int, hi: int): (r: seq<Event>)
    ensures forall e :: e in r ==> lo <= e.time < hi
  {
    if |logs| == 0 then []
    else
      var last := logs[|logs| - 1];
      LogBetween(logs[..|logs| - 1], id, lo, hi)
        + (if last.deviceId == id && lo <= last.timestamp < hi then [Event(last.status, last.timestamp)] else [])
  }

  /** The events of `log` whose time lies in `[lo, hi)`, in their order. */
  function Within(log: seq<Event>, lo: int, hi: int): seq<Event>
  {
    if |log| == 0 then []
    else
      var last := log[|log| - 1];
      Within(log[..|log| - 1], lo, hi) + (if lo <= last.time < hi then [last] else [])
  }

  lemma {:induction false} WithinAppend(log: seq<Event>, extra: seq<Event>, lo: int, hi: int)
    ensures Within(log + extra, lo, hi) == Within(log, lo, hi) + Within(extra, lo, hi)
    decreases |extra|
  {
    if |extra| == 0 {
      assert log + extra == log;
    } else {
      var init := extra[..|extra| - 1];
      assert (log + extra)[..|log + extra| - 1] == log + init;
      WithinAppend(log, init, lo, hi);
    }
  }

  /**
   * An event is in the device's log exactly when some record of that device
   * carries its status and timestamp (membership only; `LogOfAppend` gives
   * the order).
   */
  lemma {:induction false} LogOfSelects(logs: seq<LogRecord>, id: ObjectId, e: Event)
    ensures e in LogOf(logs, id) <==>
      exists k :: 0 <= k < |logs| && logs[k].deviceId == id && e == Event(logs[k].status, logs[k].timestamp)
    decreases |logs|
  {
    if |logs| > 0 {
      var init := logs[..|logs| - 1];
      LogOfSelects(init, id, e);
      if e in LogOf(init, id) {
        var k :| 0 <= k < |init| && init[k].deviceId == id && e == Event(init[k].status, init[k].timestamp);
        assert logs[k] == init[k];
      }
      if exists k :: 0 <= k < |logs| && logs[k].deviceId == id && e == Event(logs[k].status, logs[k].timestamp) {
        var k :| 0 <= k < |logs| && logs[k].deviceId == id && e == Event(logs[k].status, logs[k].timestamp);
        if k < |init| {
          assert init[k] == logs[k];
        }
      }
    }
  }

  /** The range query is the device's log restricted to `[lo, hi)`, order kept. */
  lemma {:induction false} LogBetweenIsWithin(logs: seq<LogRecord>, id: ObjectId, lo: int, hi: int)
    ensures LogBetween(logs, id, lo, hi) == Within(LogOf(logs, id), lo, hi)
    decreases |logs|
  {
    if |logs| > 0 {
      var last := logs[|logs| - 1];
      var init := logs[..|logs| - 1];
      var tail := if last.deviceId == id then [Event(last.status, last.timestamp)] else [];
      LogBetweenIsWithin(init, id, lo, hi);
      WithinAppend(LogOf(init, id), tail, lo, hi);
      if last.deviceId == id {
        assert Within(tail, lo, hi) == Within([], lo, hi)
          + (if lo <= last.timestamp < hi then [Event(last.status, last.timestamp)] else []);
      }
    }
  }

  /** Appending a record extends its own device's log by one event and leaves every other device's log alone. */
  lemma LogOfAppend(logs: seq<LogRecord>, r: LogRecord, id: ObjectId)
    ensures LogOf(logs + [r], id)
      == LogOf(logs, id) + (if r.deviceId == id then [Event(r.status, r.timestamp)] else [])
  {
    assert (logs + [r])[..|logs|] == logs;
  }

  class Database {
    var devices: seq<Device>
    var deviceLogs: seq<LogRecord>
    var deviceStatusDaily: map<StatusKey, StatusDay>
    var dailyConsumption: map<ConsumptionKey, ConsumptionDay>

    /** Every log record belongs to a stored device: logs are only written for ids `insert_one` returned. */
    predicate Valid()
      reads this
    {
      forall rec :: rec in deviceLogs ==> rec.deviceId < |devices|
    }

    constructor ()
      ensures Valid()
      ensures devices == [] && deviceLogs == []
      ensures deviceStatusDaily == map[] && dailyConsumption == map[]
    {
      devices := [];
      deviceLogs := [];
      deviceStatusDaily := map[];
      dailyConsumption := map[];
    }
  }
}
