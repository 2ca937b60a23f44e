/**
 * utils/aggregator.py: `aggregate_daily_consumption`, the batch job that
 * writes each device's consumption for the current UTC day into
 * `daily_consumption`, replacing any earlier value for the same
 * (user, device, day).
 */
module Aggregator {
  import opened Options
  import opened Json
  import opened EventLog
  import opened Store

  /**
   * `power_rating` as `duration * power_rating` uses it: missing is 0, a
   * number or a bool multiplies as itself, and null or a string raises
   * TypeError.
   */
  function RatingFactor(rating: Option<JsonValue>): (r: Option<real>)
    ensures rating.None? ==> r == Some(0.0)
    ensures rating.Some? && rating.value.JNum? ==> r == Some(rating.value.n)
    ensures r.None? <==> rating.Some? && (rating.value.JNull? || rating.value.JStr?)
  {
    match rating
    case None => Some(0.0)
    case Some(v) =>
      match v
      case JNum(n) => Some(n)
      case JBool(b) => Some(if b then 1.0 else 0.0)
      case JNull => None
      case JStr(_) => None
  }

  /** The log with every status read through `.lower()`. */
  function Lowered(log: seq<Event>): (r: seq<Event>)
    ensures |r| == |log|
  {
    if |log| == 0 then [] else Lowered(Init(log)) + [Event(Lower(Last(log).status), Last(log).time)]
  }

  /** Some event after the first is "on": the inner loop multiplies by the rating. */
  predicate OnAfterFirst(log: seq<Event>)
  {
    exists k :: 1 <= k < |log| && IsOn(log[k])
  }

  /** The job multiplies by the rating at least once: in the inner loop or for the tail. */
  predicate Multiplies(log: seq<Event>)
  {
    OnAfterFirst(log) || StillOn(log)
  }

  lemma {:induction false} OnAfterFirstStep(log: seq<Event>, e: Event)
    ensures OnAfterFirst(log + [e]) <==> OnAfterFirst(log) || (|log| > 0 && IsOn(e))
  {
    var next := log + [e];
    if OnAfterFirst(log) {
      var k :| 1 <= k < |log| && IsOn(log[k]);
      assert next[k] == log[k];
    }
    if OnAfterFirst(next) {
      var k :| 1 <= k < |next| && IsOn(next[k]);
      if k < |log| {
        assert log[k] == next[k];
      }
    }
    if |log| > 0 && IsOn(e) {
      assert next[|log|] == e;
    }
  }

  lemma {:induction false} LoweredStep(log: seq<Event>, i: nat)
    requires i < |log|
    ensures Lowered(log[..i + 1]) == Lowered(log[..i]) + [Event(Lower(log[i].status), log[i].time)]
  {
    assert log[..i + 1][..i] == log[..i];
  }

  /**
   * One device's figure for the day over its lowered, time-ordered log: the
   * gaps ending at an "on" event plus the span from a last "on" event to the
   * end of the day, in hours times the rating; None where the
   * multiplication raises.
   */
  function DayConsumptionOf(log: seq<Event>, rating: Option<JsonValue>, endOfDay: int): Option<real>
  {
    match RatingFactor(rating)
    case Some(factor) => Some(Energy(factor, GapsBeforeOnSeconds(log) + OpenSpan(log, endOfDay)))
    case None => if Multiplies(log) then None else Some(0.0)
  }

  lemma {:induction false} GapsBeforeOnStep(log: seq<Event>, e: Event)
    ensures GapsBeforeOnSeconds(log + [e])
      == GapsBeforeOnSeconds(log) + (if |log| > 0 && IsOn(e) then e.time - Last(log).time else 0)
  {
    if |log| > 0 {
      assert Init(log + [e]) == log;
    }
  }

  lemma {:induction false} AdvanceGap(factor: real, done: seq<Event>, e: Event, previousTime: int, total: real)
    requires |done| > 0 && IsOn(e) && previousTime == Last(done).time
    requires total == Energy(factor, GapsBeforeOnSeconds(done))
    ensures total + Hours(e.time - previousTime) * factor == Energy(factor, GapsBeforeOnSeconds(done + [e]))
  {
    GapsBeforeOnStep(done, e);
    EnergyAdd(factor, GapsBeforeOnSeconds(done), e.time - previousTime, GapsBeforeOnSeconds(done + [e]));
  }

  lemma {:induction false} SkipGap(done: seq<Event>, e: Event)
    requires !(|done| > 0 && IsOn(e))
    ensures GapsBeforeOnSeconds(done + [e]) == GapsBeforeOnSeconds(done)
  {
    GapsBeforeOnStep(done, e);
  }

  /**
   * What the inner loop carries after the lowered events `done`: the last
   * status and time, and the energy of the gaps ending at an "on" event (0
   * while no multiplication has been met when the rating cannot multiply).
   */
  predicate Carried(done: seq<Event>, factor: Option<real>, total: real,
                    previousStatus: Option<string>, previousTime: Option<int>)
  {
    && (|done| == 0 <==> previousTime.None?)
    && (|done| == 0 ==> previousStatus.None?)
    && (|done| > 0 ==> previousStatus == Some(Last(done).status) && previousTime == Some(Last(done).time))
    && (factor.Some? ==> total == Energy(factor.value, GapsBeforeOnSeconds(done)))
    && (factor.None? ==> total == 0.0 && !OnAfterFirst(done))
  }

  /** One loop step that does not raise keeps `Carried`. */
  lemma {:induction false} CarriedStep(done: seq<Event>, factor: Option<real>, total: real,
                                       previousStatus: Option<string>, previousTime: Option<int>, e: Event)
    requires Carried(done, factor, total, previousStatus, previousTime)
    requires !(IsOn(e) && previousTime.Some? && factor.None?)
    ensures var next := if IsOn(e) && previousTime.Some? then total + Hours(e.time - previousTime.value) * factor.value else total;
      Carried(done + [e], factor, next, Some(e.status), Some(e.time))
  {
    OnAfterFirstStep(done, e);
    assert Last(done + [e]) == e;
    if IsOn(e) && previousTime.Some? {
      AdvanceGap(factor.value, done, e, previousTime.value, total);
    } else {
      SkipGap(done, e);
    }
  }

  /** The step that multiplies by a rating that cannot multiply: an "on" event after the first. */
  lemma {:induction false} RaisingStep(done: seq<Event>, factor: Option<real>, total: real,
                                       previousStatus: Option<string>, previousTime: Option<int>, e: Event)
    requires Carried(done, factor, total, previousStatus, previousTime)
    requires IsOn(e) && previousTime.Some?
    ensures OnAfterFirst(done + [e])
  {
    OnAfterFirstStep(done, e);
  }

  /**
   * One iteration over event `i`: where it multiplies by a rating that
   * cannot multiply, the whole log has an "on" event after the first;
   * otherwise it keeps `Carried`.
   */
  lemma {:induction false} CarriedEntry(log: seq<Event>, i: nat, factor: Option<real>, total: real,
                                        previousStatus: Option<string>, previousTime: Option<int>)
    requires i < |log|
    requires Carried(Lowered(log[..i]), factor, total, previousStatus, previousTime)
    ensures var status := Lower(log[i].status);
      status == "on" && previousTime.Some? && factor.None? ==> OnAfterFirst(Lowered(log))
    ensures var status, time := Lower(log[i].status), log[i].time;
      !(status == "on" && previousTime.Some? && factor.None?) ==>
        var next := if status == "on" && previousTime.Some? then total + Hours(time - previousTime.value) * factor.value else total;
        Carried(Lowered(log[..i + 1]), factor, next, Some(status), Some(time))
  {
    var e := Event(Lower(log[i].status), log[i].time);
    LoweredStep(log, i);
    if IsOn(e) && previousTime.Some? && factor.None? {
      RaisingStep(Lowered(log[..i]), factor, total, previousStatus, previousTime, e);
      LoweredPrefixOn(log, i + 1);
    } else {
      CarriedStep(Lowered(log[..i]), factor, total, previousStatus, previousTime, e);
    }
  }

  /**
   * The inner loop over the day's log: the energy of the gaps ending at an
   * "on" event, and the last status and time; None where it raises.
   */
  method GapsUsage(log: seq<Event>, factor: Option<real>)
    returns (r: Option<real>, previousStatus: Option<string>, previousTime: Option<int>)
    ensures r.None? <==> factor.None? && OnAfterFirst(Lowered(log))
    ensures r.Some? ==> Carried(Lowered(log), factor, r.value, previousStatus, previousTime)
  {
    var total := 0.0;
    previousStatus, previousTime := None, None;
    var i := 0;
    while i < |log|
      invariant 0 <= i <= |log|
      invariant Carried(Lowered(log[..i]), factor, total, previousStatus, previousTime)
    {
      var status := Lower(log[i].status);
      var time := log[i].time;
      CarriedEntry(log, i, factor, total, previousStatus, previousTime);
      if status == "on" && previousTime.Some? {
        if factor.None? {
          return None, previousStatus, previousTime;
        }
        total := total + Hours(time - previousTime.value) * factor.value;
      }
      previousStatus, previousTime := Some(status), Some(time);
      i := i + 1;
    }
    assert log[..i] == log;
    r := Some(total);
  }

  /** An "on" event after the first in a prefix is one in the whole log. */
  lemma {:induction false} LoweredPrefixOn(log: seq<Event>, n: nat)
    requires n <= |log| && OnAfterFirst(Lowered(log[..n]))
    ensures OnAfterFirst(Lowered(log))
    decreases |log| - n
  {
    if n < |log| {
      LoweredStep(log, n);
      OnAfterFirstStep(Lowered(log[..n]), Event(Lower(log[n].status), log[n].time));
      LoweredPrefixOn(log, n + 1);
    } else {
      assert log[..n] == log;
    }
  }

  /** The inner loop and the tail to the end of the day for one device's day log. */
  method DayConsumption(log: seq<Event>, rating: Option<JsonValue>, endOfDay: int) returns (r: Option<real>)
    ensures r == DayConsumptionOf(Lowered(log), rating, endOfDay)
  {
    var factor := RatingFactor(rating);
    var total, previousStatus, previousTime := GapsUsage(log, factor);
    ghost var low := Lowered(log);
    if total.None? {
      assert Multiplies(low);
      return None;
    }
    assert Carried(low, factor, total.value, previousStatus, previousTime);
    if previousStatus == Some("on") && previousTime.Some? {
      assert StillOn(low) && OpenSpan(low, endOfDay) == endOfDay - previousTime.value;
      if factor.None? {
        assert Multiplies(low);
        return None;
      }
      var f, duration := factor.value, endOfDay - previousTime.value;
      ghost var gaps := GapsBeforeOnSeconds(low);
      assert total.value == Energy(f, gaps);
      EnergyAdd(f, gaps, duration, gaps + duration);
      r := Some(total.value + Hours(duration) * f);
    } else {
      assert OpenSpan(low, endOfDay) == 0;
      assert GapsBeforeOnSeconds(low) + OpenSpan(low, endOfDay) == GapsBeforeOnSeconds(low);
      r := total;
      if factor.None? {
        assert !Multiplies(low);
        assert r == Some(0.0);
      } else {
        assert total.value == Energy(factor.value, GapsBeforeOnSeconds(low));
        assert r == Some(Energy(factor.value, GapsBeforeOnSeconds(low) + OpenSpan(low, endOfDay)));
      }
    }
  }

  /** `device_logs.find` for the day `[start_of_day, start_of_day + 1 day)`, sorted by timestamp. */
  function DeviceDayLog(logs: seq<LogRecord>, id: ObjectId, now: int): seq<Event>
  {
    SortByTime(LogBetween(logs, id, StartOfDay(now), StartOfDay(now) + SecondsPerDay))
  }

  /** The job's day log holds exactly the device's events of the current UTC day, in time order. */
  lemma DeviceDayLogWithinDay(logs: seq<LogRecord>, id: ObjectId, now: int)
    ensures var log := DeviceDayLog(logs, id, now);
      && Sorted(log)
      && multiset(log) == multiset(LogBetween(logs, id, StartOfDay(now), StartOfDay(now) + SecondsPerDay))
      && forall e :: e in log ==> StartOfDay(now) <= e.time < StartOfDay(now) + SecondsPerDay
  {
    var log := DeviceDayLog(logs, id, now);
    var between := LogBetween(logs, id, StartOfDay(now), StartOfDay(now) + SecondsPerDay);
    forall e | e in log
      ensures StartOfDay(now) <= e.time < StartOfDay(now) + SecondsPerDay
    {
      assert e in multiset(log);
      assert e in multiset(between);
    }
  }

  /** The table so far and whether an exception has ended the device loop. */
  datatype Run = Run(table: map<ConsumptionKey, ConsumptionDay>, stopped: bool)

  /** The `$set` upsert for device `id` of `devices`, keyed by owner, device and day. */
  function KeyOf(devices: seq<Device>, id: nat, now: int): ConsumptionKey
    requires id < |devices|
  {
    ConsumptionKey(devices[id].userId, id, DayOf(now))
  }

  /** Device `id`'s figure for the day of `now`, None where it raises. */
  function DeviceFigure(devices: seq<Device>, logs: seq<LogRecord>, now: int, id: nat): Option<real>
    requires id < |devices|
  {
    DayConsumptionOf(Lowered(DeviceDayLog(logs, id, now)), devices[id].powerRating, StartOfDay(now) + SecondsPerDay)
  }

  /** Every device's figure, in device order. */
  function Figures(devices: seq<Device>, logs: seq<LogRecord>, now: int): (f: seq<Option<real>>)
    ensures |f| == |devices|
  {
    seq(|devices|, id requires 0 <= id < |devices| => DeviceFigure(devices, logs, now, id))
  }

  /**
   * The job over the first `n` devices from `table`, given each device's
   * figure: the figure replaces the record under the device's key; the first
   * figure that raises ends the loop, and nothing after it is written.
   */
  function AggregateRun(table: map<ConsumptionKey, ConsumptionDay>, devices: seq<Device>,
                        figures: seq<Option<real>>, now: int, n: nat): Run
    requires n <= |devices| == |figures|
  {
    if n == 0 then Run(table, false)
    else
      var prev := AggregateRun(table, devices, figures, now, n - 1);
      if prev.stopped then prev
      else
        match figures[n - 1]
        case None => Run(prev.table, true)
        case Some(v) => Run(prev.table[KeyOf(devices, n - 1, now) := ConsumptionDay(v, StartOfDay(now))], false)
  }

  lemma {:induction false} RunStaysStopped(table: map<ConsumptionKey, ConsumptionDay>, devices: seq<Device>,
                                           figures: seq<Option<real>>, now: int, k: nat, n: nat)
    requires k <= n <= |devices| == |figures| && AggregateRun(table, devices, figures, now, k).stopped
    ensures AggregateRun(table, devices, figures, now, n) == AggregateRun(table, devices, figures, now, k)
    decreases n
  {
    if n > k {
      RunStaysStopped(table, devices, figures, now, k, n - 1);
    }
  }

  /** The body of the device loop up to the upsert: fetch the day log and compute the figure. */
  method DeviceDayConsumption(devices: seq<Device>, logs: seq<LogRecord>, now: int, id: nat)
    returns (value: Option<real>)
    requires id < |devices|
    ensures value == Figures(devices, logs, now)[id]
  {
    assert Figures(devices, logs, now)[id] == DeviceFigure(devices, logs, now, id);
    var log := DeviceDayLog(logs, id, now);
    value := DayConsumption(log, devices[id].powerRating, StartOfDay(now) + SecondsPerDay);
  }

  /** The table after the job: every device's figure applied in device order to `table`. */
  function Aggregated(table: map<ConsumptionKey, ConsumptionDay>, devices: seq<Device>, logs: seq<LogRecord>, now: int): map<ConsumptionKey, ConsumptionDay>
  {
    AggregateRun(table, devices, Figures(devices, logs, now), now, |devices|).table
  }

  /** The body of the device loop: the device's figure, upserted under its key unless it raises. */
  method RecordDevice(db: Database, now: int, id: nat) returns (value: Option<real>)
    requires db.Valid() && id < |db.devices|
    modifies db
    ensures db.Valid()
    ensures db.devices == old(db.devices) && db.deviceLogs == old(db.deviceLogs)
    ensures db.deviceStatusDaily == old(db.deviceStatusDaily)
    ensures value == Figures(db.devices, db.deviceLogs, now)[id]
    ensures value.None? ==> db.dailyConsumption == old(db.dailyConsumption)
    ensures value.Some? ==>
      db.dailyConsumption == old(db.dailyConsumption)[KeyOf(db.devices, id, now) := ConsumptionDay(value.value, StartOfDay(now))]
  {
    var device := db.devices[id];
    value := DeviceDayConsumption(db.devices, db.deviceLogs, now, id);
    if value.Some? {
      db.dailyConsumption := db.dailyConsumption[ConsumptionKey(device.userId, id, DayOf(now))
        := ConsumptionDay(value.value, StartOfDay(now))];
    }
  }

  /** One more device after a run that has not stopped. */
  lemma RunStep(table: map<ConsumptionKey, ConsumptionDay>, devices: seq<Device>,
                figures: seq<Option<real>>, now: int, n: nat, current: map<ConsumptionKey, ConsumptionDay>)
    requires n < |devices| == |figures|
    requires AggregateRun(table, devices, figures, now, n) == Run(current, false)
    ensures figures[n].None? ==> AggregateRun(table, devices, figures, now, n + 1) == Run(current, true)
    ensures figures[n].Some? ==>
      AggregateRun(table, devices, figures, now, n + 1)
        == Run(current[KeyOf(devices, n, now) := ConsumptionDay(figures[n].value, StartOfDay(now))], false)
  {
  }

  /** `aggregate_daily_consumption` at time `now` over every stored device in order. */
  method AggregateDailyConsumption(db: Database, now: int)
    requires db.Valid()
    modifies db
    ensures db.Valid()
    ensures db.devices == old(db.devices) && db.deviceLogs == old(db.deviceLogs)
    ensures db.deviceStatusDaily == old(db.deviceStatusDaily)
    ensures db.dailyConsumption == Aggregated(old(db.dailyConsumption), old(db.devices), old(db.deviceLogs), now)
  {
    ghost var table, devices, logs := db.dailyConsumption, db.devices, db.deviceLogs;
    ghost var figures := Figures(devices, logs, now);
    var id := 0;
    while id < |db.devices|
      invariant 0 <= id <= |devices|
      invariant db.devices == devices && db.deviceLogs == logs
      invariant db.deviceStatusDaily == old(db.deviceStatusDaily)
      invariant AggregateRun(table, devices, figures, now, id) == Run(db.dailyConsumption, false)
    {
      ghost var current := db.dailyConsumption;
      var value := RecordDevice(db, now, id);
      RunStep(table, devices, figures, now, id, current);
      if value.None? {
        RunStaysStopped(table, devices, figures, now, id + 1, |devices|);
        return;
      }
      id := id + 1;
    }
  }

  /** The records a run writes: the run from an empty table. */
  function Writes(devices: seq<Device>, figures: seq<Option<real>>, now: int, n: nat): map<ConsumptionKey, ConsumptionDay>
    requires n <= |devices| == |figures|
  {
    AggregateRun(map[], devices, figures, now, n).table
  }

  /**
   * A run overlays its records on the table it starts from: what it writes
   * and whether it stops do not depend on the table.
   */
  lemma {:induction false} RunOverlays(table: map<ConsumptionKey, ConsumptionDay>, devices: seq<Device>,
                                       figures: seq<Option<real>>, now: int, n: nat)
    requires n <= |devices| == |figures|
    ensures AggregateRun(table, devices, figures, now, n)
      == Run(table + Writes(devices, figures, now, n), AggregateRun(map[], devices, figures, now, n).stopped)
    decreases n
  {
    if n == 0 {
      assert table + map[] == table;
    } else {
      RunOverlays(table, devices, figures, now, n - 1);
      var w := Writes(devices, figures, now, n - 1);
      if !AggregateRun(map[], devices, figures, now, n - 1).stopped && figures[n - 1].Some? {
        var entry := ConsumptionDay(figures[n - 1].value, StartOfDay(now));
        var key := KeyOf(devices, n - 1, now);
        assert (table + w)[key := entry] == table + w[key := entry];
      }
    }
  }

  /** Every record a run writes is for the current day and for a device the run reached. */
  lemma {:induction false} WritesAreToday(devices: seq<Device>, figures: seq<Option<real>>, now: int, n: nat)
    requires n <= |devices| == |figures|
    ensures forall key :: key in Writes(devices, figures, now, n) ==>
      key.day == DayOf(now) && key.deviceId < n && key.userId == devices[key.deviceId].userId
    decreases n
  {
    if n > 0 {
      WritesAreToday(devices, figures, now, n - 1);
    }
  }

  /**
   * Running the job twice on the same data leaves the table as one run does:
   * the records are replaced, not incremented.
   */
  lemma AggregateIdempotent(table: map<ConsumptionKey, ConsumptionDay>, devices: seq<Device>,
                            figures: seq<Option<real>>, now: int)
    requires |devices| == |figures|
    ensures var once := AggregateRun(table, devices, figures, now, |devices|).table;
      AggregateRun(once, devices, figures, now, |devices|).table == once
  {
    var n := |devices|;
    var w := Writes(devices, figures, now, n);
    RunOverlays(table, devices, figures, now, n);
    RunOverlays(table + w, devices, figures, now, n);
    assert (table + w) + w == table + w;
  }

  /** Records under keys the run does not write are left as they were, other days included. */
  lemma AggregateKeepsOtherKeys(table: map<ConsumptionKey, ConsumptionDay>, devices: seq<Device>,
                                figures: seq<Option<real>>, now: int, key: ConsumptionKey)
    requires |devices| == |figures|
    requires key !in Writes(devices, figures, now, |devices|)
    ensures var after := AggregateRun(table, devices, figures, now, |devices|).table;
      (key in after <==> key in table) && (key in table ==> after[key] == table[key])
  {
    RunOverlays(table, devices, figures, now, |devices|);
  }

  /** A device without logs today multiplies nothing and gets a record of 0.0, whatever its rating. */
  lemma NoLogsRecordsZero(rating: Option<JsonValue>, endOfDay: int)
    ensures DayConsumptionOf(Lowered([]), rating, endOfDay) == Some(0.0)
  {
    assert Lowered([]) == [];
  }

  /**
   * The single `try` around the loop: when device `k`'s figure raises, the
   * run stops and no device from `k` on gets a record.
   */
  lemma AggregateStopsAtFailure(devices: seq<Device>, figures: seq<Option<real>>, now: int, k: nat)
    requires k < |devices| == |figures| && !AggregateRun(map[], devices, figures, now, k).stopped
    requires figures[k].None?
    ensures AggregateRun(map[], devices, figures, now, |devices|).stopped
    ensures forall key :: key in Writes(devices, figures, now, |devices|) ==> key.deviceId < k
  {
    RunStaysStopped(map[], devices, figures, now, k + 1, |devices|);
    WritesAreToday(devices, figures, now, k);
  }

  /**
   * As written, a gap counts when the event that ENDS it is "on": a device on
   * for the first hour of the day and then off reports 0, though it was on
   * for 3600 of those seconds.
   */
  lemma AggregatorCountsOffTime(startOfDay: int)
    ensures var log := [Event("on", startOfDay), Event("off", startOfDay + 3600)];
      && DayConsumptionOf(log, Some(JNum(1.0)), startOfDay + SecondsPerDay) == Some(0.0)
      && OnCount(log, startOfDay, startOfDay + SecondsPerDay) == 3600
  {
    var p := [Event("on", startOfDay)];
    var e := Event("off", startOfDay + 3600);
    var log := p + [e];
    assert log == [Event("on", startOfDay), Event("off", startOfDay + 3600)];
    assert GapsBeforeOnSeconds(log) == 0;
    OnCountSplit(log, startOfDay, startOfDay + 3600, startOfDay + SecondsPerDay);
    OnCountAppend(p, e, startOfDay, startOfDay + 3600);
    OnCountAfterLast(p, startOfDay, startOfDay + 3600);
    OnCountAfterLast(log, startOfDay + 3600, startOfDay + SecondsPerDay);
  }

  /**
   * The evidently intended figure: the rating times the hours, from the
   * first event of the day to its end, at which the device was on.
   */
  function IntendedDayConsumption(log: seq<Event>, factor: real, endOfDay: int): (kwh: real)
    requires Sorted(log) && (|log| > 0 ==> Last(log).time <= endOfDay)
    ensures |log| == 0 ==> kwh == 0.0
    ensures |log| > 0 ==> kwh == Energy(factor, OnCount(log, log[0].time, endOfDay))
  {
    if |log| > 0 then OnTimeUntil(log, endOfDay); Energy(factor, OnSeconds(log) + OpenSpan(log, endOfDay))
    else 0.0
  }
}
