/** Routine and alarm records of esp_code/src/main.cpp and the time windows
    they define. Every field is a plain `int`: the firmware copies the decoded
    message into the record without any range check. */
module Schedule {

  /** A local-clock reading in minutes since midnight (`tm_hour * 60 + tm_min`). */
  type MinuteOfDay = t: int | 0 <= t < 1440

  datatype Routine = Routine(
    id: int,
    enabled: bool,
    startHour: int, startMinute: int,
    endHour: int, endMinute: int,
    brightness: int,  // 0-15 when the app behaves
    mode: int)        // 0 = warm, 1 = white, 2 = both when the app behaves
  {
    function StartTime(): int { startHour * 60 + startMinute }
    function EndTime(): int { endHour * 60 + endMinute }
  }

  datatype Alarm = Alarm(
    id: int,
    enabled: bool,
    wakeHour: int, wakeMinute: int,
    startHour: int, startMinute: int,
    durationMinutes: int)
  {
    function StartTime(): int { startHour * 60 + startMinute }
    function WakeTime(): int { wakeHour * 60 + wakeMinute }
  }

  function RoutineKey(r: Routine): int { r.id }
  function AlarmKey(a: Alarm): int { a.id }

  /** The window test of `isWithinTimeRange`, on minute values: a window whose
      end lies after its start is the same-day interval, every other window
      wraps midnight (so start == end covers the whole day). */
  predicate InWindow(startTime: int, endTime: int, now: int) {
    if endTime > startTime then startTime <= now <= endTime
    else now >= startTime || now <= endTime
  }

  /** `isWithinTimeRange(startHour, startMinute, endHour, endMinute, now)`. */
  predicate IsWithinTimeRange(startHour: int, startMinute: int, endHour: int, endMinute: int, now: int) {
    InWindow(startHour * 60 + startMinute, endHour * 60 + endMinute, now)
  }

  /** Both ends of every window are inside it. */
  lemma WindowBoundsInclusive(startTime: int, endTime: int)
    ensures InWindow(startTime, endTime, startTime)
    ensures InWindow(startTime, endTime, endTime)
  {
  }

  /** A window whose end does not come after its start is the complement of
      the open gap between end and start; when start == end it covers every
      minute of the day. */
  lemma WrappedWindowIsComplementOfGap(startTime: int, endTime: int, now: int)
    requires endTime <= startTime
    ensures InWindow(startTime, endTime, now) <==> !(endTime < now < startTime)
    ensures startTime == endTime ==> InWindow(startTime, endTime, now)
  {
  }

  /** Minutes from `a` forward to `b` on the 24-hour dial. */
  function ClockDistance(a: int, b: int): (d: int)
    ensures 0 <= d < 1440
  {
    (b - a) % 1440
  }

  /** For distinct start and end on the dial, the window is exactly the set of
      minutes reached from the start before (or at) the end, walking forward:
      an independent, circular reading of the same predicate. */
  lemma WindowIsCircularInterval(startTime: MinuteOfDay, endTime: MinuteOfDay, now: MinuteOfDay)
    requires startTime != endTime
    ensures InWindow(startTime, endTime, now) <==>
            ClockDistance(startTime, now) <= ClockDistance(startTime, endTime)
  {
    if endTime > startTime {
      assert ClockDistance(startTime, endTime) == endTime - startTime;
      if now >= startTime {
        assert ClockDistance(startTime, now) == now - startTime;
      } else {
        assert ClockDistance(startTime, now) == now - startTime + 1440;
      }
    } else {
      assert ClockDistance(startTime, endTime) == endTime - startTime + 1440;
      if now >= startTime {
        assert ClockDistance(startTime, now) == now - startTime;
      } else {
        assert ClockDistance(startTime, now) == now - startTime + 1440;
      }
    }
  }

  /** A routine takes part in a tick when enabled and its window holds `now`. */
  predicate RoutineMatches(r: Routine, now: int) {
    r.enabled && IsWithinTimeRange(r.startHour, r.startMinute, r.endHour, r.endMinute, now)
  }

  /** An alarm takes part when enabled and `start <= now <= wake`: this window
      never wraps midnight. */
  predicate AlarmMatches(a: Alarm, now: int) {
    a.enabled && a.StartTime() <= now <= a.WakeTime()
  }

  function RoutineAt(now: int): Routine -> bool {
    (r: Routine) => RoutineMatches(r, now)
  }

  function AlarmAt(now: int): Alarm -> bool {
    (a: Alarm) => AlarmMatches(a, now)
  }

  /** An alarm whose wake time is before its start time never takes part. */
  lemma AlarmWindowNeverWraps(a: Alarm, now: int)
    requires a.WakeTime() < a.StartTime()
    ensures !AlarmMatches(a, now)
  {
  }

  /** The sunrise ramp: `(int)(constrain(elapsed / duration, 0, 1) * 15)`,
      in exact integer arithmetic (truncation, not rounding). A zero duration
      gives full brightness once the ramp has started; a negative one clamps
      to 0. */
  function AlarmLevel(elapsed: int, duration: int): (b: int)
    ensures 0 <= b <= 15
    ensures duration > 0 && 0 <= elapsed ==> b * duration <= 15 * elapsed
    ensures duration > 0 && 0 <= elapsed < duration ==> 15 * elapsed < (b + 1) * duration
    ensures duration > 0 && elapsed >= duration ==> b == 15
    ensures elapsed <= 0 ==> b == 0
  {
    if duration > 0 then
      (if elapsed <= 0 then 0 else if elapsed >= duration then 15 else 15 * elapsed / duration)
    else if duration == 0 && elapsed > 0 then 15
    else 0
  }

  /** The ramp never dims as the alarm proceeds. */
  lemma AlarmLevelMonotone(e1: int, e2: int, duration: int)
    requires e1 <= e2
    ensures AlarmLevel(e1, duration) <= AlarmLevel(e2, duration)
  {
    if duration > 0 && 0 < e1 && e2 < duration {
      assert 15 * e1 <= 15 * e2;
      DivMonotone(15 * e1, 15 * e2, duration);
    }
  }

  lemma DivMonotone(x: int, y: int, d: int)
    requires 0 <= x <= y && d > 0
    ensures x / d <= y / d
  {
    var q1, q2 := x / d, y / d;
    assert x == q1 * d + x % d && 0 <= x % d < d;
    assert y == q2 * d + y % d && 0 <= y % d < d;
    if q1 > q2 {
      MulLeftMonotone(q2 + 1, q1, d);
      assert false;
    }
  }

  lemma MulLeftMonotone(a: int, b: int, d: int)
    requires a <= b && d > 0
    ensures a * d <= b * d
  {
    assert b * d - a * d == (b - a) * d;
  }
}
