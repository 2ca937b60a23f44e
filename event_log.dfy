/**
 * A device's status log and the on-time arithmetic every reporting site is
 * stated against.
 *
 * The sums below are over consecutive pairs of log events, defined on a log
 * by dropping its last event, which is the order in which the handlers'
 * loops visit the pairs. `OnAt`/`OnCount` are an independent reference: the
 * number of whole seconds at which the most recent event says "on".
 */
module EventLog {
  import opened Options

  /** One entry of a device's log: the stored status string and its UTC timestamp in seconds. */
  datatype Event = Event(status: string, time: int)

  /** The comparison `status == "on"` the handlers apply to a log entry. */
  predicate IsOn(e: Event) { e.status == "on" }

  /** Ascending by timestamp, as `.sort("timestamp", 1)` returns the log. */
  predicate Sorted(log: seq<Event>)
  {
    forall i, j :: 0 <= i < j < |log| ==> log[i].time <= log[j].time
  }

  function Last(log: seq<Event>): Event
    requires |log| > 0
  {
    log[|log| - 1]
  }

  function Init(log: seq<Event>): seq<Event>
    requires |log| > 0
  {
    log[..|log| - 1]
  }

  /** The span an event opens up to the next one: its length when the earlier event is "on". */
  function SpanAfter(prev: Event, next: Event): int
  {
    if IsOn(prev) then next.time - prev.time else 0
  }

  /** Closed on-spans: for every event "on", the seconds up to the event after it. */
  function OnSeconds(log: seq<Event>): int
  {
    if |log| < 2 then 0 else OnSeconds(Init(log)) + SpanAfter(log[|log| - 2], Last(log))
  }

  /**
   * As `OnSeconds`, but a span counts only when the event that closes it is
   * at or after `start`; it then counts in full, also the part before `start`.
   */
  function WindowOnSeconds(log: seq<Event>, start: int): int
  {
    if |log| < 2 then 0
    else
      var closing := if Last(log).time >= start then SpanAfter(log[|log| - 2], Last(log)) else 0;
      WindowOnSeconds(Init(log), start) + closing
  }

  /** Gaps between consecutive events whose LATER event is "on" (the seconds before each switch-on). */
  function GapsBeforeOnSeconds(log: seq<Event>): int
  {
    if |log| < 2 then 0
    else
      var gap := if IsOn(Last(log)) then Last(log).time - log[|log| - 2].time else 0;
      GapsBeforeOnSeconds(Init(log)) + gap
  }

  /** The last event is "on": the device is still on. */
  predicate StillOn(log: seq<Event>) { |log| > 0 && IsOn(Last(log)) }

  /** The open span of a device still on, up to `until`. */
  function OpenSpan(log: seq<Event>, until: int): int
  {
    if StillOn(log) then until - Last(log).time else 0
  }

  // ---------------------------------------------------------------------------
  // Reference: on-time as a count of seconds

  /** At instant `t` the device is on: the latest event at or before `t` is "on". */
  predicate OnAt(log: seq<Event>, t: int)
  {
    if |log| == 0 then false
    else if Last(log).time <= t then IsOn(Last(log))
    else OnAt(Init(log), t)
  }

  /** The number of whole seconds `t` in `[a, b)` at which the device is on. */
  function OnCount(log: seq<Event>, a: int, b: int): nat
    decreases if b > a then b - a else 0
  {
    if b <= a then 0 else OnCount(log, a, b - 1) + (if OnAt(log, b - 1) then 1 else 0)
  }

  lemma {:induction false} OnCountSplit(log: seq<Event>, a: int, m: int, b: int)
    requires a <= m <= b
    ensures OnCount(log, a, b) == OnCount(log, a, m) + OnCount(log, m, b)
    decreases b - m
  {
    if m < b {
      OnCountSplit(log, a, m, b - 1);
    }
  }

  /** An event appended at `e.time` changes nothing before `e.time`. */
  lemma {:induction false} OnCountAppend(log: seq<Event>, e: Event, a: int, b: int)
    requires b <= e.time
    ensures OnCount(log + [e], a, b) == OnCount(log, a, b)
    decreases if b > a then b - a else 0
  {
    if a < b {
      OnCountAppend(log, e, a, b - 1);
      assert Init(log + [e]) == log;
    }
  }

  /** Before the first event of a sorted log the device is off. */
  lemma {:induction false} OffBeforeFirst(log: seq<Event>, t: int)
    requires Sorted(log) && |log| > 0 && t < log[0].time
    ensures !OnAt(log, t)
    decreases |log|
  {
    if |log| >= 2 {
      SortedInit(log);
      OffBeforeFirst(Init(log), t);
    }
  }

  lemma {:induction false} OnCountBeforeFirst(log: seq<Event>, a: int, b: int)
    requires Sorted(log) && |log| > 0 && b <= log[0].time
    ensures OnCount(log, a, b) == 0
    decreases if b > a then b - a else 0
  {
    if a < b {
      OnCountBeforeFirst(log, a, b - 1);
      OffBeforeFirst(log, b - 1);
    }
  }

  /** From the last event on, the device keeps that event's status. */
  lemma {:induction false} OnCountAfterLast(log: seq<Event>, a: int, b: int)
    requires |log| > 0 && Last(log).time <= a
    ensures OnCount(log, a, b) == if IsOn(Last(log)) && a < b then b - a else 0
    decreases if b > a then b - a else 0
  {
    if a < b {
      OnCountAfterLast(log, a, b - 1);
    }
  }

  /**
   * The closed on-spans of a sorted log add up to the seconds, between its
   * first and last event, at which the device was on: duplicate "on" events
   * neither double-count nor leave a gap.
   */
  lemma {:induction false} OnSecondsIsOnTime(log: seq<Event>)
    requires Sorted(log) && |log| > 0
    ensures OnSeconds(log) == OnCount(log, log[0].time, Last(log).time)
    decreases |log|
  {
    if |log| >= 2 {
      var p, e := Init(log), Last(log);
      assert log == p + [e];
      assert Sorted(p);
      OnSecondsIsOnTime(p);
      var t0, tp := log[0].time, Last(p).time;
      assert t0 <= tp <= e.time;
      OnCountSplit(log, t0, tp, e.time);
      OnCountAppend(p, e, t0, tp);
      assert OnCount(log, tp, e.time) == OnCount(p, tp, e.time) by {
        OnCountAppend(p, e, tp, e.time);
      }
      OnCountAfterLast(p, tp, e.time);
    } else {
      assert OnCount(log, log[0].time, Last(log).time) == 0;
    }
  }

  /** With the open span of a device still on, the total is its on-time up to `now`. */
  lemma OnTimeUntil(log: seq<Event>, now: int)
    requires Sorted(log) && |log| > 0 && Last(log).time <= now
    ensures OnSeconds(log) + OpenSpan(log, now) == OnCount(log, log[0].time, now)
  {
    OnSecondsIsOnTime(log);
    OnCountSplit(log, log[0].time, Last(log).time, now);
    OnCountAfterLast(log, Last(log).time, now);
  }

  // ---------------------------------------------------------------------------
  // Facts about the window sums

  lemma {:induction false} SortedInit(log: seq<Event>)
    requires Sorted(log) && |log| > 0
    ensures Sorted(Init(log))
  {
  }

  /** A later window start never adds spans: the sum only loses spans whose end falls before it. */
  lemma {:induction false} WindowOnSecondsAntitone(log: seq<Event>, early: int, late: int)
    requires Sorted(log) && early <= late
    ensures WindowOnSeconds(log, late) <= WindowOnSeconds(log, early)
    decreases |log|
  {
    if |log| >= 2 {
      SortedInit(log);
      WindowOnSecondsAntitone(Init(log), early, late);
      assert log[|log| - 2].time <= Last(log).time;
    }
  }

  /** A window that starts no later than the first event holds every closed span. */
  lemma {:induction false} WindowOnSecondsWhole(log: seq<Event>, start: int)
    requires Sorted(log) && |log| > 0 && start <= log[0].time
    ensures WindowOnSeconds(log, start) == OnSeconds(log)
    decreases |log|
  {
    if |log| >= 2 {
      SortedInit(log);
      WindowOnSecondsWhole(Init(log), start);
      assert log[0].time <= Last(log).time;
    }
  }

  /** On a sorted log no span is negative. */
  lemma {:induction false} OnSecondsNonNegative(log: seq<Event>)
    requires Sorted(log)
    ensures OnSeconds(log) >= 0 && GapsBeforeOnSeconds(log) >= 0
    decreases |log|
  {
    if |log| >= 2 {
      SortedInit(log);
      OnSecondsNonNegative(Init(log));
      assert log[|log| - 2].time <= Last(log).time;
    }
  }

  /** Every event switches the device: consecutive events differ in whether they read as "on". */
  predicate Alternating(log: seq<Event>)
  {
    forall i :: 0 < i < |log| ==> IsOn(log[i - 1]) != IsOn(log[i])
  }

  /** On an alternating log every gap is either an on-span or a gap before a switch-on, never both. */
  lemma {:induction false} GapsAndSpansCover(log: seq<Event>)
    requires Alternating(log) && |log| > 0
    ensures GapsBeforeOnSeconds(log) + OnSeconds(log) == Last(log).time - log[0].time
    decreases |log|
  {
    if |log| >= 2 {
      var p := Init(log);
      assert Alternating(p) by {
        forall i | 0 < i < |p|
          ensures IsOn(p[i - 1]) != IsOn(p[i])
        {
          assert p[i - 1] == log[i - 1] && p[i] == log[i];
        }
      }
      GapsAndSpansCover(p);
      assert IsOn(log[|log| - 2]) != IsOn(Last(log));
    }
  }

  /**
   * The gaps before each switch-on of an alternating, sorted log add up to
   * the seconds between its first and last event at which the device was off.
   */
  lemma GapsBeforeOnIsOffTime(log: seq<Event>)
    requires Sorted(log) && Alternating(log) && |log| > 0
    ensures GapsBeforeOnSeconds(log) == (Last(log).time - log[0].time) - OnCount(log, log[0].time, Last(log).time)
  {
    GapsAndSpansCover(log);
    OnSecondsIsOnTime(log);
  }

  // ---------------------------------------------------------------------------
  // Query helpers: the latest entry and an ascending sort

  /** `find_one(..., sort=[("timestamp", -1)])`: an event with the greatest timestamp (the later-stored on ties). */
  function Latest(log: seq<Event>): (r: Option<Event>)
    ensures r.None? <==> |log| == 0
    ensures r.Some? ==> r.value in log && forall e :: e in log ==> e.time <= r.value.time
    decreases |log|
  {
    if |log| == 0 then None
    else
      var rest := Latest(Init(log));
      assert log == Init(log) + [Last(log)];
      if rest.Some? && rest.value.time > Last(log).time then rest else Some(Last(log))
  }

  /** Put `e` into a sorted log after every event whose timestamp does not exceed its own. */
  function InsertByTime(log: seq<Event>, e: Event): (r: seq<Event>)
    requires Sorted(log)
    ensures Sorted(r) && multiset(r) == multiset(log) + multiset{e}
    ensures |r| > 0 && (forall x :: x in r ==> x in log || x == e)
    decreases |log|
  {
    if |log| == 0 || Last(log).time <= e.time then
      log + [e]
    else
      var front := InsertByTime(Init(log), e);
      assert log == Init(log) + [Last(log)];
      assert forall x :: x in front ==> x.time <= Last(log).time;
      front + [Last(log)]
  }

  /** `.sort("timestamp", 1)`: the events in ascending timestamp order, ties in stored order. */
  function SortByTime(log: seq<Event>): (r: seq<Event>)
    ensures Sorted(r) && multiset(r) == multiset(log)
    decreases |log|
  {
    if |log| == 0 then []
    else
      assert log == Init(log) + [Last(log)];
      InsertByTime(SortByTime(Init(log)), Last(log))
  }

  // ---------------------------------------------------------------------------
  // Energy

  /** Seconds as hours. */
  function Hours(seconds: int): real
  {
    seconds as real / 3600.0
  }

  /** `rating` kWh per hour over `seconds` seconds. */
  function Energy(rating: real, seconds: int): real
  {
    Hours(seconds) * rating
  }

  lemma EnergyStep(rating: real, seconds: int, duration: int)
    ensures Energy(rating, seconds + duration) == Energy(rating, seconds) + Hours(duration) * rating
  {
    assert Hours(seconds + duration) == Hours(seconds) + Hours(duration);
  }

  lemma EnergyAdd(rating: real, seconds: int, duration: int, total: int)
    requires total == seconds + duration
    ensures Energy(rating, seconds) + Hours(duration) * rating == Energy(rating, total)
  {
    EnergyStep(rating, seconds, duration);
  }
}
