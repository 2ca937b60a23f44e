/**
 * routes/report_routes.py: `calculate_realtime_usage`, the per-user usage
 * estimate behind GET /consumption/realtime. Each device contributes its
 * power rating times the hours it was on according to its time-ordered log,
 * including the span since the last event when that event is "on".
 */
module ReportRoutes {
  import opened Options
  import opened Json
  import opened EventLog
  import opened Store

  /** A log document as the report reads it: `status` and `timestamp` may be missing. */
  datatype RawLog = RawLog(status: Option<string>, timestamp: Option<int>)

  /** One device of the user: its optional `power_rating` and its log sorted by timestamp. */
  datatype UserDevice = UserDevice(powerRating: Option<JsonValue>, logs: seq<RawLog>)

  /** The fallback used for a missing rating, no devices and a zero total. */
  const DefaultUsage: real := 0.1

  /**
   * The entries the loop uses: those with a timestamp, each status read
   * with `.get("status", "").lower()`.
   */
  function Stamped(logs: seq<RawLog>): (r: seq<Event>)
    ensures |r| <= |logs|
  {
    if |logs| == 0 then []
    else
      var last := logs[|logs| - 1];
      var status := if last.status.Some? then last.status.value else "";
      Stamped(logs[..|logs| - 1])
        + (if last.timestamp.Some? then [Event(Lower(status), last.timestamp.value)] else [])
  }

  /** An entry without a timestamp is skipped: it changes nothing the loop carries. */
  lemma UnstampedEntrySkipped(logs: seq<RawLog>, status: Option<string>)
    ensures Stamped(logs + [RawLog(status, None)]) == Stamped(logs)
  {
    assert (logs + [RawLog(status, None)])[..|logs|] == logs;
  }

  /** An entry with a timestamp is kept, as its lowered status (or "" when it has none) at that time. */
  lemma StampedEntryKept(logs: seq<RawLog>, status: Option<string>, time: int)
    ensures Stamped(logs + [RawLog(status, Some(time))])
      == Stamped(logs) + [Event(Lower(if status.Some? then status.value else ""), time)]
  {
    assert (logs + [RawLog(status, Some(time))])[..|logs|] == logs;
  }

  /** Status comparison ignores case: an entry reads as "on" for every spelling of "on" and nothing else. */
  lemma StatusIgnoresCase(status: string, time: int)
    ensures Stamped([RawLog(Some(status), Some(time))]) == [Event(Lower(status), time)]
    ensures IsOn(Event(Lower(status), time)) <==> status in {"on", "On", "oN", "ON"}
  {
    assert [RawLog(Some(status), Some(time))][..0] == [];
    LowerIsOn(status);
  }

  /**
   * `power_rating`, defaulting to 0 when missing, replaced by 0.1 when falsy
   * or `<= 0`. A non-empty string cannot be compared with 0: Python raises
   * TypeError and the route answers 500.
   */
  function EffectiveRating(rating: Option<JsonValue>): (r: Result<real, Failure>)
    ensures r.Err? <==> rating.Some? && rating.value.JStr? && rating.value.s != ""
    ensures r.Ok? ==> r.value > 0.0
    ensures r.Ok? && rating.Some? && rating.value.JNum? && rating.value.n > 0.0 ==> r.value == rating.value.n
    ensures (r.Ok? && !(rating.Some? && rating.value.JNum? && rating.value.n > 0.0)
             && rating != Some(JBool(true))) ==> r.value == DefaultUsage
  {
    match rating
    case None => Ok(DefaultUsage)
    case Some(v) =>
      match v
      case JNull => Ok(DefaultUsage)
      case JBool(b) => Ok(if b then 1.0 else DefaultUsage)
      case JNum(n) => Ok(if n <= 0.0 then DefaultUsage else n)
      case JStr(s) => if s == "" then Ok(DefaultUsage) else Err(ServerError)
  }

  /** Rating times on-hours: closed on-spans plus, when the device is still on, the span up to `now`. */
  function DeviceUsageOf(rating: real, logs: seq<RawLog>, now: int): real
  {
    var log := Stamped(logs);
    Energy(rating, OnSeconds(log) + OpenSpan(log, now))
  }

  /** One more raw entry extends the stamped log by at most that entry. */
  lemma StampedStep(logs: seq<RawLog>, i: nat)
    requires i < |logs|
    ensures var status := if logs[i].status.Some? then logs[i].status.value else "";
      Stamped(logs[..i + 1]) == Stamped(logs[..i])
        + (if logs[i].timestamp.Some? then [Event(Lower(status), logs[i].timestamp.value)] else [])
  {
    assert logs[..i + 1][..i] == logs[..i];
  }

  /** The closed on-spans of a log that gains one event. */
  lemma OnSecondsStep(log: seq<Event>, e: Event)
    ensures OnSeconds(log + [e]) == OnSeconds(log) + (if |log| > 0 then SpanAfter(Last(log), e) else 0)
  {
    if |log| > 0 {
      assert Init(log + [e]) == log;
    }
  }

  /** One more stamped event after an "on" event adds the span it closes ... */
  lemma {:induction false} AdvanceUsageOn(rating: real, done: seq<Event>, e: Event)
    requires |done| > 0 && IsOn(Last(done))
    ensures Energy(rating, OnSeconds(done)) + Hours(e.time - Last(done).time) * rating
      == Energy(rating, OnSeconds(done + [e]))
  {
    var seconds, duration := OnSeconds(done), e.time - Last(done).time;
    OnSecondsStep(done, e);
    assert OnSeconds(done + [e]) == seconds + duration;
    EnergyAdd(rating, seconds, duration, OnSeconds(done + [e]));
  }

  /** ... and after any other event, or as the first event, nothing. */
  lemma {:induction false} AdvanceUsageOff(rating: real, done: seq<Event>, e: Event)
    requires !(|done| > 0 && IsOn(Last(done)))
    ensures Energy(rating, OnSeconds(done)) == Energy(rating, OnSeconds(done + [e]))
  {
    OnSecondsStep(done, e);
  }

  /** The inner loop over one device's log, then the still-on tail. */
  method DeviceUsage(rating: real, logs: seq<RawLog>, now: int) returns (usage: real)
    ensures usage == DeviceUsageOf(rating, logs, now)
  {
    var previousStatus, previousTime;
    usage, previousStatus, previousTime := ClosedSpansUsage(rating, logs);
    if previousStatus == Some("on") && previousTime.Some? {
      var hours := ((now - previousTime.value) as real) / 3600.0;
      EnergyStep(rating, OnSeconds(Stamped(logs)), now - previousTime.value);
      usage := usage + hours * rating;
    }
  }

  /**
   * What the loop carries after the stamped events `done`: the usage of
   * their closed on-spans and the last status and time (None before the first).
   */
  predicate Tracked(done: seq<Event>, rating: real, usage: real,
                    previousStatus: Option<string>, previousTime: Option<int>)
  {
    && (|done| == 0 <==> previousTime.None?)
    && (|done| == 0 ==> previousStatus.None?)
    && (|done| > 0 ==> previousStatus == Some(Last(done).status) && previousTime == Some(Last(done).time))
    && usage == Energy(rating, OnSeconds(done))
  }

  /** One more stamped event keeps `Tracked`, adding the span it closes after an "on" event. */
  lemma {:induction false} TrackedStep(done: seq<Event>, rating: real, usage: real,
                                       previousStatus: Option<string>, previousTime: Option<int>, e: Event)
    requires Tracked(done, rating, usage, previousStatus, previousTime)
    ensures var next := if previousStatus == Some("on") && previousTime.Some?
        then usage + Hours(e.time - previousTime.value) * rating else usage;
      Tracked(done + [e], rating, next, Some(e.status), Some(e.time))
  {
    assert Last(done + [e]) == e;
    if previousStatus == Some("on") && previousTime.Some? {
      AdvanceUsageOn(rating, done, e);
    } else {
      AdvanceUsageOff(rating, done, e);
    }
  }

  /** One loop iteration, over entry `i`, keeps `Tracked` for the entries so far. */
  lemma {:induction false} TrackedEntry(logs: seq<RawLog>, i: nat, rating: real, usage: real,
                                        previousStatus: Option<string>, previousTime: Option<int>)
    requires i < |logs|
    requires Tracked(Stamped(logs[..i]), rating, usage, previousStatus, previousTime)
    ensures logs[i].timestamp.None? ==>
      Tracked(Stamped(logs[..i + 1]), rating, usage, previousStatus, previousTime)
    ensures logs[i].timestamp.Some? ==>
      var status := Lower(if logs[i].status.Some? then logs[i].status.value else "");
      var time := logs[i].timestamp.value;
      var next := if previousStatus == Some("on") && previousTime.Some?
        then usage + Hours(time - previousTime.value) * rating else usage;
      Tracked(Stamped(logs[..i + 1]), rating, next, Some(status), Some(time))
  {
    StampedStep(logs, i);
    var done := Stamped(logs[..i]);
    if logs[i].timestamp.Some? {
      var e := Event(Lower(if logs[i].status.Some? then logs[i].status.value else ""), logs[i].timestamp.value);
      assert Stamped(logs[..i + 1]) == done + [e];
      TrackedStep(done, rating, usage, previousStatus, previousTime, e);
    } else {
      assert Stamped(logs[..i + 1]) == done;
    }
  }

  /**
   * The body of the loop for entry `i`: skip it without a timestamp, else
   * close the span an "on" entry left open and move on; `Tracked` then
   * holds for one entry more.
   */
  method AdvanceEntry(rating: real, logs: seq<RawLog>, i: nat, usage: real,
                      previousStatus: Option<string>, previousTime: Option<int>)
    returns (usage': real, status': Option<string>, time': Option<int>)
    requires i < |logs|
    requires Tracked(Stamped(logs[..i]), rating, usage, previousStatus, previousTime)
    ensures Tracked(Stamped(logs[..i + 1]), rating, usage', status', time')
  {
    var entry := logs[i];
    TrackedEntry(logs, i, rating, usage, previousStatus, previousTime);
    usage', status', time' := usage, previousStatus, previousTime;
    if entry.timestamp.Some? {
      var status := Lower(if entry.status.Some? then entry.status.value else "");
      var time := entry.timestamp.value;
      if previousStatus == Some("on") && previousTime.Some? {
        usage' := usage + Hours(time - previousTime.value) * rating;
      }
      status', time' := Some(status), Some(time);
    }
  }

  /**
   * The loop over the log: the usage of the closed on-spans, and the status
   * and time of the last stamped entry (None before the first).
   */
  method ClosedSpansUsage(rating: real, logs: seq<RawLog>)
    returns (usage: real, previousStatus: Option<string>, previousTime: Option<int>)
    ensures Tracked(Stamped(logs), rating, usage, previousStatus, previousTime)
  {
    usage := 0.0;
    previousStatus, previousTime := None, None;
    var i := 0;
    while i < |logs|
      invariant 0 <= i <= |logs|
      invariant Tracked(Stamped(logs[..i]), rating, usage, previousStatus, previousTime)
    {
      usage, previousStatus, previousTime := AdvanceEntry(rating, logs, i, usage, previousStatus, previousTime);
      i := i + 1;
    }
    assert logs[..i] == logs;
  }

  /**
   * The sum over the first `n` devices: a device without logs is skipped, a
   * rating that cannot be compared with 0 makes the whole computation raise.
   */
  function TotalUsage(devices: seq<UserDevice>, now: int, n: nat): Result<real, Failure>
    requires n <= |devices|
  {
    if n == 0 then Ok(0.0)
    else
      match TotalUsage(devices, now, n - 1)
      case Err(e) => Err(e)
      case Ok(total) =>
        var d := devices[n - 1];
        match EffectiveRating(d.powerRating)
        case Err(e) => Err(e)
        case Ok(rating) =>
          if |d.logs| == 0 then Ok(total) else Ok(total + DeviceUsageOf(rating, d.logs, now))
  }

  /** What `calculate_realtime_usage` returns before rounding, or the error the route turns into 500. */
  function RealtimeUsageOf(userId: string, devices: seq<UserDevice>, now: int): Result<real, Failure>
  {
    if ParseObjectId(JStr(userId)).None? || |devices| == 0 then Ok(DefaultUsage)
    else
      match TotalUsage(devices, now, |devices|)
      case Err(e) => Err(e)
      case Ok(total) => Ok(if total == 0.0 then DefaultUsage else total)
  }

  lemma {:induction false} TotalUsageStaysFailed(devices: seq<UserDevice>, now: int, k: nat, n: nat)
    requires k <= n <= |devices| && TotalUsage(devices, now, k).Err?
    ensures TotalUsage(devices, now, n) == TotalUsage(devices, now, k)
    decreases n
  {
    if n > k {
      TotalUsageStaysFailed(devices, now, k, n - 1);
    }
  }

  /**
   * `calculate_realtime_usage` for the user's devices (the `devices.find`
   * result, each with its sorted logs): 0.1 for an id that is not an
   * ObjectId or a user without devices; otherwise the total, with 0.1 in
   * place of a zero total.
   */
  method RealtimeUsage(userId: string, devices: seq<UserDevice>, now: int) returns (r: Result<real, Failure>)
    ensures r == RealtimeUsageOf(userId, devices, now)
  {
    if ParseObjectId(JStr(userId)).None? {
      return Ok(DefaultUsage);
    }
    if |devices| == 0 {
      return Ok(DefaultUsage);
    }
    var total := 0.0;
    var k := 0;
    while k < |devices|
      invariant 0 <= k <= |devices|
      invariant TotalUsage(devices, now, k) == Ok(total)
    {
      var device := devices[k];
      var rating := EffectiveRating(device.powerRating);
      if rating.Err? {
        TotalUsageStaysFailed(devices, now, k + 1, |devices|);
        return Err(rating.error);
      }
      if |device.logs| > 0 {
        var usage := DeviceUsage(rating.value, device.logs, now);
        total := total + usage;
      }
      k := k + 1;
    }
    r := Ok(if total == 0.0 then DefaultUsage else total);
  }

  /** A device's logs are well-formed when the stamped entries are in time order and none lies after `now`. */
  predicate InOrderUntil(d: UserDevice, now: int)
  {
    var log := Stamped(d.logs);
    Sorted(log) && (|log| > 0 ==> Last(log).time <= now)
  }

  /**
   * A device's usage is its rating times the hours, between its first
   * stamped event and `now`, at which it was on.
   */
  lemma DeviceUsageIsOnTime(rating: real, logs: seq<RawLog>, now: int)
    requires InOrderUntil(UserDevice(None, logs), now) && |Stamped(logs)| > 0
    ensures var log := Stamped(logs);
      DeviceUsageOf(rating, logs, now) == rating * (OnCount(log, log[0].time, now) as real) / 3600.0
  {
    OnTimeUntil(Stamped(logs), now);
  }

  lemma DeviceUsageNonNegative(rating: real, logs: seq<RawLog>, now: int)
    requires InOrderUntil(UserDevice(None, logs), now) && rating > 0.0
    ensures DeviceUsageOf(rating, logs, now) >= 0.0
  {
    var log := Stamped(logs);
    OnSecondsNonNegative(log);
    assert OnSeconds(log) + OpenSpan(log, now) >= 0;
  }

  lemma {:induction false} TotalUsageNonNegative(devices: seq<UserDevice>, now: int, n: nat)
    requires n <= |devices|
    requires forall k :: 0 <= k < |devices| ==> InOrderUntil(devices[k], now)
    ensures TotalUsage(devices, now, n).Ok? ==> TotalUsage(devices, now, n).value >= 0.0
    decreases n
  {
    if n > 0 {
      TotalUsageNonNegative(devices, now, n - 1);
      var d := devices[n - 1];
      var rating := EffectiveRating(d.powerRating);
      if rating.Ok? {
        assert InOrderUntil(d, now);
        DeviceUsageNonNegative(rating.value, d.logs, now);
      }
    }
  }

  /**
   * With every device's log in time order up to `now`, the unrounded total
   * is positive: the 0.1 fallbacks replace the cases whose total is 0.
   * The handler then reports `round(total, 2)`, which is 0.0 for a total
   * below 0.005 (`UsageBelowRoundingStep`).
   */
  lemma RealtimeUsagePositive(userId: string, devices: seq<UserDevice>, now: int)
    requires forall k :: 0 <= k < |devices| ==> InOrderUntil(devices[k], now)
    ensures RealtimeUsageOf(userId, devices, now).Ok? ==> RealtimeUsageOf(userId, devices, now).value > 0.0
  {
    TotalUsageNonNegative(devices, now, |devices|);
  }

  /**
   * A positive total can still round to 0.0: one device without a rating
   * (so 0.1) switched on 100 seconds ago gives 0.1 * 100 / 3600 = 1/360 kWh,
   * which `round(total, 2)` reports as 0.0.
   */
  lemma UsageBelowRoundingStep()
    ensures var r := RealtimeUsageOf("0123456789abcdef01234567",
                                     [UserDevice(None, [RawLog(Some("on"), Some(0))])], 100);
      r.Ok? && 0.0 < r.value < 0.005
  {
    var id := "0123456789abcdef01234567";
    assert |id| == ObjectIdLength && AllHex(id);
    var logs := [RawLog(Some("on"), Some(0))];
    StatusIgnoresCase("on", 0);
    LowerIsOn("on");
    assert Stamped(logs) == [Event("on", 0)];
    assert DeviceUsageOf(0.1, logs, 100) == Energy(0.1, 100);
    var devices := [UserDevice(None, logs)];
    assert TotalUsage(devices, 100, 1) == Ok(Energy(0.1, 100));
  }

  /** A device without logs adds nothing, whatever its rating (unless the rating raises). */
  lemma DeviceWithoutLogsAddsNothing(devices: seq<UserDevice>, now: int, rating: Option<JsonValue>)
    requires EffectiveRating(rating).Ok?
    ensures TotalUsage(devices + [UserDevice(rating, [])], now, |devices| + 1)
      == TotalUsage(devices, now, |devices|)
  {
    TotalUsagePrefix(devices, [UserDevice(rating, [])], now, |devices|);
  }

  lemma {:induction false} TotalUsagePrefix(devices: seq<UserDevice>, more: seq<UserDevice>, now: int, n: nat)
    requires n <= |devices|
    ensures TotalUsage(devices + more, now, n) == TotalUsage(devices, now, n)
    decreases n
  {
    if n > 0 {
      TotalUsagePrefix(devices, more, now, n - 1);
      assert (devices + more)[n - 1] == devices[n - 1];
    }
  }
}
