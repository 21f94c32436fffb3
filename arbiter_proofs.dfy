/** Properties of the controller specification in module Arbiter: what one
    tick, one override, one remote message and one pass of `loop` promise. */
module ArbiterProofs {
  import opened Wrappers
  import opened Arduino
  import opened Output
  import opened Schedule
  import opened Store
  import opened Arbiter

  // ----- checkSchedule -----

  /** Without a local time a tick changes nothing at all. */
  lemma TickWithoutClock(st: Ctl)
    ensures Tick(st, None) == st
  {
  }

  /** The suppression update touches the two flags and nothing else... */
  lemma UpdateSuppressionOnlyFlags(st: Ctl, t: MinuteOfDay)
    ensures exists rf: bool, af: bool :: UpdateSuppression(st, t) == st.(routineSuppressed := rf, alarmSuppressed := af)
  {
    var r := UpdateSuppression(st, t);
    assert r == st.(routineSuppressed := r.routineSuppressed, alarmSuppressed := r.alarmSuppressed);
  }

  /** ... and the rest of the tick never touches suppression at all. */
  lemma EvaluateKeepsSuppression(st: Ctl, t: MinuteOfDay)
    ensures var r := Evaluate(st, t);
      r.routineSuppressed == st.routineSuppressed && r.suppressedRoutine == st.suppressedRoutine &&
      r.alarmSuppressed == st.alarmSuppressed && r.suppressedAlarm == st.suppressedAlarm
  {
  }

  /** A tick never sets a suppression and never changes a snapshot; a set
      suppression survives exactly while `now` is inside its snapshot's window. */
  lemma TickSuppressionLifetime(st: Ctl, t: MinuteOfDay)
    ensures var r := Tick(st, Some(t));
      var sr, sa := st.suppressedRoutine, st.suppressedAlarm;
      r.suppressedRoutine == sr && r.suppressedAlarm == sa &&
      (r.routineSuppressed <==>
        st.routineSuppressed && IsWithinTimeRange(sr.startHour, sr.startMinute, sr.endHour, sr.endMinute, t)) &&
      (r.alarmSuppressed <==>
        st.alarmSuppressed && IsWithinTimeRange(sa.startHour, sa.startMinute, sa.wakeHour, sa.wakeMinute, t))
  {
    EvaluateKeepsSuppression(UpdateSuppression(st, t), t);
  }

  /** As written, an alarm suppression whose snapshot has start == wake never
      expires: the wrapping window test covers the whole day, although the
      alarm itself only ever matched that single minute. */
  lemma PointAlarmSuppressionNeverExpires(st: Ctl, t: MinuteOfDay)
    requires st.alarmSuppressed
    requires st.suppressedAlarm.StartTime() == st.suppressedAlarm.WakeTime()
    ensures Tick(st, Some(t)).alarmSuppressed
  {
    TickSuppressionLifetime(st, t);
  }

  /** If the first enabled routine whose window holds `now` is the suppressed
      one, the tick ends there: no other routine, no routine end, no alarm;
      only the suppression flags may have expired. */
  lemma SuppressedFirstMatchEndsTick(st: Ctl, t: MinuteOfDay)
    requires var st1 := UpdateSuppression(st, t);
      var k := FirstWhere(st.routines, RoutineAt(t));
      k < |st.routines| && st1.routineSuppressed && st1.suppressedRoutine.id == st.routines[k].id
    ensures Tick(st, Some(t)) == UpdateSuppression(st, t)
    ensures Tick(st, Some(t)).lamp == st.lamp && Tick(st, Some(t)).events == st.events
    ensures Tick(st, Some(t)).routineSlot == st.routineSlot && Tick(st, Some(t)).alarmSlot == st.alarmSlot
  {
  }

  /** Applying a routine: on, with the routine's brightness and mode; the
      slot records its id and minute of the hour; the original state is saved
      only when no routine was active; the output and a state publish follow. */
  lemma RoutineApplied(st: Ctl, t: MinuteOfDay)
    requires var st1 := UpdateSuppression(st, t);
      var k := FirstWhere(st.routines, RoutineAt(t));
      k < |st.routines| &&
      !(st1.routineSuppressed && st1.suppressedRoutine.id == st.routines[k].id) &&
      ShouldApply(st.routineSlot, st.routines[k].id, t % 60)
    ensures var r, rt := Tick(st, Some(t)), st.routines[FirstWhere(st.routines, RoutineAt(t))];
      rt.enabled &&
      r.lamp == Lamp(true, rt.brightness, rt.mode) &&
      r.routineSlot.active && r.routineSlot.activeId == rt.id && r.routineSlot.lastMinute == t % 60 &&
      r.routineSlot.saved == (if st.routineSlot.active then st.routineSlot.saved else st.lamp) &&
      r.alarmSlot == st.alarmSlot && r.routines == st.routines && r.alarms == st.alarms &&
      r.out == Channels(true, rt.brightness, rt.mode) &&
      r.events == st.events + [StateUpdate(Snap(r))]
  {
  }

  /** The same routine in the same minute is not re-applied. */
  lemma RoutineNotReapplied(st: Ctl, t: MinuteOfDay)
    requires var k := FirstWhere(st.routines, RoutineAt(t));
      k < |st.routines| && !ShouldApply(st.routineSlot, st.routines[k].id, t % 60)
    ensures Tick(st, Some(t)) == UpdateSuppression(st, t)
  {
  }

  /** A routine that ends clears its markers and keeps the lamp exactly as
      the routine left it; alarms are not looked at in that tick. */
  lemma RoutineEndKeepsLamp(st: Ctl, t: MinuteOfDay)
    requires FirstWhere(st.routines, RoutineAt(t)) == |st.routines|
    requires st.routineSlot.active
    ensures var r := Tick(st, Some(t));
      r.lamp == st.lamp && r.out == st.out &&
      r.routineSlot == Cleared(st.routineSlot) &&
      !r.routineSlot.active && r.routineSlot.activeId == -1 && r.routineSlot.lastMinute == -1 &&
      r.alarmSlot == st.alarmSlot &&
      r.events == st.events + [StateUpdate(Snap(r))]
  {
  }

  /** Routines preempt alarms: while a routine matches or is still marked
      active, the alarm slot is left alone. */
  lemma AlarmsOnlyWithoutRoutine(st: Ctl, t: MinuteOfDay)
    requires FirstWhere(st.routines, RoutineAt(t)) < |st.routines| || st.routineSlot.active
    ensures Tick(st, Some(t)).alarmSlot == st.alarmSlot
  {
  }

  /** Applying an alarm: the alarm's window [start, wake] holds `now` without
      wrapping, the lamp is on in both channels at the truncated ramp level,
      and that level is written and broadcast. */
  lemma AlarmApplied(st: Ctl, t: MinuteOfDay)
    requires FirstWhere(st.routines, RoutineAt(t)) == |st.routines| && !st.routineSlot.active
    requires var st1 := UpdateSuppression(st, t);
      var k := FirstWhere(st.alarms, AlarmAt(t));
      k < |st.alarms| &&
      !(st1.alarmSuppressed && st1.suppressedAlarm.id == st.alarms[k].id) &&
      ShouldApply(st.alarmSlot, st.alarms[k].id, t % 60)
    ensures var r, a := Tick(st, Some(t)), st.alarms[FirstWhere(st.alarms, AlarmAt(t))];
      a.enabled && a.StartTime() <= t <= a.WakeTime() &&
      r.lamp == Lamp(true, AlarmLevel(t - a.StartTime(), a.durationMinutes), MODE_BOTH) &&
      0 <= r.lamp.brightness <= 15 &&
      r.alarmSlot.active && r.alarmSlot.activeId == a.id && r.alarmSlot.lastMinute == t % 60 &&
      r.alarmSlot.saved == (if st.alarmSlot.active then st.alarmSlot.saved else st.lamp) &&
      r.routineSlot == st.routineSlot &&
      r.out == Channels(true, r.lamp.brightness, MODE_BOTH) &&
      r.events == st.events + [StateUpdate(Snap(r))]
  {
  }

  /** An alarm that ends locks the lamp to (on, 15, both), whatever the lamp
      was before, clears the alarm's markers, and writes and broadcasts the
      new state. */
  lemma AlarmEndLocksFullBrightness(st: Ctl, t: MinuteOfDay)
    requires FirstWhere(st.routines, RoutineAt(t)) == |st.routines| && !st.routineSlot.active
    requires FirstWhere(st.alarms, AlarmAt(t)) == |st.alarms| && st.alarmSlot.active
    ensures var r := Tick(st, Some(t));
      r.lamp == Lamp(true, 15, MODE_BOTH) && r.out == (0, 0) &&
      r.alarmSlot == Cleared(st.alarmSlot) && r.routineSlot == st.routineSlot &&
      r.events == st.events + [StateUpdate(Snap(r))]
  {
  }

  /** With nothing matching and nothing active, a tick only expires
      suppressions. */
  lemma IdleTick(st: Ctl, t: MinuteOfDay)
    requires FirstWhere(st.routines, RoutineAt(t)) == |st.routines| && !st.routineSlot.active
    requires FirstWhere(st.alarms, AlarmAt(t)) == |st.alarms| && !st.alarmSlot.active
    ensures Tick(st, Some(t)) == UpdateSuppression(st, t)
  {
  }

  // ----- handleTripleClick -----

  /** A routine suppression is set iff the active id is found in the store,
      and the snapshot is then exactly that record; the same for alarms. */
  lemma OverrideSuppression(st: Ctl)
    ensures var r := Override(st);
      var fr := FindById(st.routines, RoutineKey, st.routineSlot.activeId);
      var fa := FindById(st.alarms, AlarmKey, st.alarmSlot.activeId);
      (st.routineSlot.active ==> (r.routineSuppressed <==> fr.Some?) && (fr.Some? ==> r.suppressedRoutine == fr.value)) &&
      (!st.routineSlot.active ==> r.routineSuppressed == st.routineSuppressed && r.suppressedRoutine == st.suppressedRoutine) &&
      (st.alarmSlot.active ==> (r.alarmSuppressed <==> fa.Some?) && (fa.Some? ==> r.suppressedAlarm == fa.value)) &&
      (!st.alarmSlot.active ==> r.alarmSuppressed == st.alarmSuppressed && r.suppressedAlarm == st.suppressedAlarm)
  {
  }

  /** The override resets the active markers, disables an active sun-sync
      with "disabled by hardware" pinned, leaves the lamp state alone, and
      so releases the manual lock. */
  lemma OverrideReleasesAutomation(st: Ctl)
    ensures var r := Override(st);
      r.routineSlot == (if st.routineSlot.active then Cleared(st.routineSlot) else st.routineSlot) &&
      r.alarmSlot == (if st.alarmSlot.active then Cleared(st.alarmSlot) else st.alarmSlot) &&
      r.sun == (if st.sun.active then SunSync(false, true) else st.sun) &&
      r.lamp == st.lamp && !Locked(r)
  {
  }

  /** The override's broadcasts: the sun-sync echo if it was active, a state
      publish, then the override event naming what was disabled. */
  lemma OverrideBroadcasts(st: Ctl)
    ensures var r := Override(st);
      var echo := if st.sun.active then [SunSyncEcho(false, "hardware")] else [];
      var ev := OverrideEvent("hardware", st.routineSlot.active, st.alarmSlot.active, st.sun.active,
                              r.routineSuppressed, r.alarmSuppressed, false);
      r.events == st.events + echo + [StateUpdate(Snap(r)), ev] &&
      r.out == Channels(st.lamp.isOn, st.lamp.brightness, st.lamp.mode)
  {
  }

  // ----- The button decoder -----

  /** An edge within 35 ms of the last accepted one is ignored. */
  lemma BounceIgnored(st: Ctl, pressed: bool, now: nat)
    requires TimesNotAfter(st, now) && now - st.clicks.lastChange <= DEBOUNCE_MS
    ensures Edge(st, pressed, now) == st
  {
  }

  /** The override neither reads nor writes the click decoder, stage by stage. */
  lemma SuppressIgnoresClicks(st: Ctl, c: Clicks)
    ensures SuppressRoutine(st.(clicks := c)) == SuppressRoutine(st).(clicks := c)
    ensures SuppressAlarm(st.(clicks := c)) == SuppressAlarm(st).(clicks := c)
    ensures DisableSunSync(st.(clicks := c)) == DisableSunSync(st).(clicks := c)
  {
  }

  lemma PublishRenderIgnoreClicks(st: Ctl, c: Clicks)
    ensures Publish(Render(st.(clicks := c))) == Publish(Render(st)).(clicks := c)
  {
    assert Render(st.(clicks := c)) == Render(st).(clicks := c);
    assert Snap(Render(st).(clicks := c)) == Snap(Render(st));
  }

  lemma OverrideIgnoresClicks(st: Ctl, c: Clicks)
    ensures Override(st.(clicks := c)) == Override(st).(clicks := c)
  {
    var s1 := SuppressRoutine(st);
    SuppressIgnoresClicks(st, c);
    var s2 := SuppressAlarm(s1);
    SuppressIgnoresClicks(s1, c);
    var s3 := DisableSunSync(s2);
    SuppressIgnoresClicks(s2, c);
    PublishRenderIgnoreClicks(s3, c);
  }

  /** A third release within 600 ms of the first runs the override at once
      and zeroes the count, without waiting for the grouping window. */
  lemma ThirdClickOverridesImmediately(st: Ctl, now: nat)
    requires TimesNotAfter(st, now)
    requires st.clicks.prevPressed && now - st.clicks.lastChange > DEBOUNCE_MS
    requires st.clicks.count == 2 && now - st.clicks.firstClickTime <= MULTI_CLICK_WINDOW_MS
    ensures Press(st, false, now) == Override(st).(clicks := Clicks(0, st.clicks.firstClickTime, now, false, now))
  {
    var cR := Clicks(3, st.clicks.firstClickTime, now, true, now);
    var c0 := Clicks(0, st.clicks.firstClickTime, now, false, now);
    var st1 := st.(clicks := st.clicks.(lastChange := now));
    var stR := st1.(clicks := st1.clicks.(count := (st1.clicks.count + 1) % CLICK_COUNT_MODULUS,
                                          firstClickTime := st.clicks.firstClickTime, lastReleaseTime := now));
    assert stR.clicks.count == 3;
    assert stR == st.(clicks := cR);
    assert Release(st1, now) == Override(stR).(clicks := stR.clicks.(count := 0));
    OverrideIgnoresClicks(st, cR);
    assert Edge(st, false, now) == Override(st).(clicks := c0);
    var e := Override(st).(clicks := c0);
    assert Resolve(e, now) == e;
  }

  /** While the manual lock holds, a resolved single or double click changes
      neither the lamp, nor the output, nor the broadcasts. */
  lemma LockedClicksIgnored(st: Ctl, now: nat)
    requires TimesNotAfter(st, now) && Locked(st)
    requires st.clicks.count == 1 || st.clicks.count == 2
    ensures var r := Resolve(st, now);
      r.lamp == st.lamp && r.out == st.out && r.events == st.events
  {
  }

  /** Without the lock a resolved single click toggles the lamp and a double
      click advances the mode, both rendered and published. */
  lemma UnlockedClicksApplied(st: Ctl, now: nat)
    requires TimesNotAfter(st, now) && !Locked(st)
    requires st.clicks.count == 1 || st.clicks.count == 2
    requires now - st.clicks.lastReleaseTime > MULTI_CLICK_WINDOW_MS
    ensures var r := Resolve(st, now);
      r.clicks.count == 0 &&
      r.lamp == (if st.clicks.count == 1 then st.lamp.(isOn := !st.lamp.isOn)
                 else st.lamp.(mode := NextMode(st.lamp.mode))) &&
      r.out == Channels(r.lamp.isOn, r.lamp.brightness, r.lamp.mode) &&
      r.events == st.events + [StateUpdate(Snap(r))]
  {
  }

  /** Clicks are not resolved while the grouping window is still open. */
  lemma NoResolutionInsideWindow(st: Ctl, now: nat)
    requires TimesNotAfter(st, now) && now - st.clicks.lastReleaseTime <= MULTI_CLICK_WINDOW_MS
    ensures Resolve(st, now) == st
  {
  }

  /** An accepted press only records the edge, as long as the grouping
      window of earlier clicks is still open. */
  lemma PressRecorded(st: Ctl, now: nat)
    requires TimesNotAfter(st, now) && !st.clicks.prevPressed && now - st.clicks.lastChange > DEBOUNCE_MS
    requires st.clicks.count == 0 || now - st.clicks.lastReleaseTime <= MULTI_CLICK_WINDOW_MS
    ensures Press(st, true, now) == st.(clicks := st.clicks.(prevPressed := true, lastChange := now))
  {
  }

  /** An accepted first or second release only counts the click. */
  lemma ReleaseCounted(st: Ctl, now: nat)
    requires TimesNotAfter(st, now) && st.clicks.prevPressed && now - st.clicks.lastChange > DEBOUNCE_MS
    requires st.clicks.count < 2
    ensures Press(st, false, now) ==
      st.(clicks := Clicks(st.clicks.count + 1, if st.clicks.count == 0 then now else st.clicks.firstClickTime,
                           now, false, now))
  {
  }

  /** A press at `t1` followed by a release at `t2`: one click. */
  function Click(st: Ctl, t1: nat, t2: nat): (r: Ctl)
    requires TimesNotAfter(st, t1) && t1 <= t2
    ensures TimesNotAfter(r, t2)
  {
    Press(Press(st, true, t1), false, t2)
  }

  /** One click (an accepted press, then an accepted release) while fewer
      than two are counted and the grouping window is open only counts it. */
  lemma OneClick(st: Ctl, t1: nat, t2: nat)
    requires TimesNotAfter(st, t1) && !st.clicks.prevPressed && t1 - st.clicks.lastChange > DEBOUNCE_MS
    requires st.clicks.count == 0 || t1 - st.clicks.lastReleaseTime <= MULTI_CLICK_WINDOW_MS
    requires st.clicks.count < 2 && t2 - t1 > DEBOUNCE_MS
    ensures Click(st, t1, t2) ==
      st.(clicks := Clicks(st.clicks.count + 1, if st.clicks.count == 0 then t2 else st.clicks.firstClickTime,
                           t2, false, t2))
  {
    PressRecorded(st, t1);
    var s1 := st.(clicks := st.clicks.(prevPressed := true, lastChange := t1));
    ReleaseCounted(s1, t2);
  }

  /** The first click of `TwoClicks`: a press at `t` and a release at `t + 50`. */
  lemma FirstOfTwoClicks(st: Ctl, t: nat)
    requires st.clicks == Clicks(0, 0, 0, false, 0) && st.lastScheduleCheck == 0 && t > DEBOUNCE_MS
    ensures Click(st, t, t + 50) == st.(clicks := Clicks(1, t + 50, t + 50, false, t + 50))
  {
    OneClick(st, t, t + 50);
  }

  /** The second click of `TwoClicks`, 50 ms after the first release. */
  lemma SecondOfTwoClicks(s: Ctl, t: nat)
    requires s.clicks == Clicks(1, t + 50, t + 50, false, t + 50) && s.lastScheduleCheck == 0 && t > DEBOUNCE_MS
    ensures Click(s, t + 100, t + 150) == s.(clicks := Clicks(2, t + 50, t + 150, false, t + 150))
  {
    OneClick(s, t + 100, t + 150);
  }

  /** Two clicks, presses and releases 50 ms apart, from an idle decoder. */
  lemma TwoClicks(st: Ctl, t: nat)
    requires st.clicks == Clicks(0, 0, 0, false, 0) && st.lastScheduleCheck == 0 && t > DEBOUNCE_MS
    ensures Click(Click(st, t, t + 50), t + 100, t + 150) == st.(clicks := Clicks(2, t + 50, t + 150, false, t + 150))
  {
    FirstOfTwoClicks(st, t);
    SecondOfTwoClicks(st.(clicks := Clicks(1, t + 50, t + 50, false, t + 50)), t);
  }

  /** The triple-click gesture: after two counted clicks (see `TwoClicks`),
      a press and a release within 600 ms of the first click amount to the
      override, with the count back at zero, without waiting for the grouping
      window to close (`OverrideReleasesAutomation` says what that does). */
  lemma TripleClickGesture(st: Ctl, t1: nat, t2: nat)
    requires st.clicks.count == 2 && !st.clicks.prevPressed && st.clicks.lastChange == st.clicks.lastReleaseTime
    requires st.clicks.firstClickTime <= st.clicks.lastReleaseTime && st.lastScheduleCheck <= t1
    requires t1 - st.clicks.lastReleaseTime > DEBOUNCE_MS && t2 - t1 > DEBOUNCE_MS
    requires t2 - st.clicks.firstClickTime <= MULTI_CLICK_WINDOW_MS
    ensures Click(st, t1, t2) == Override(st).(clicks := Clicks(0, st.clicks.firstClickTime, t2, false, t2))
  {
    var c := st.clicks;
    PressRecorded(st, t1);
    var c1 := Clicks(2, c.firstClickTime, c.lastReleaseTime, true, t1);
    var s5 := st.(clicks := c1);
    assert Press(st, true, t1) == s5;
    ThirdClickOverridesImmediately(s5, t2);
    OverrideIgnoresClicks(st, c1);
  }

  /** The single-click gesture: one press and release, then 700 ms of
      silence, toggles an unlocked lamp. */
  lemma SingleClickGesture(st: Ctl, t: nat)
    requires st.clicks == Clicks(0, 0, 0, false, 0) && st.lastScheduleCheck == 0 && t > DEBOUNCE_MS
    requires !Locked(st)
    ensures var s1 := Press(st, true, t);
      var s2 := Press(s1, false, t + 50);
      var s3 := Press(s2, false, t + 750);
      s2.lamp == st.lamp && s3.lamp == st.lamp.(isOn := !st.lamp.isOn) && s3.clicks.count == 0
  {
    PressRecorded(st, t);
    var s1 := st.(clicks := Clicks(0, 0, 0, true, t));
    ReleaseCounted(s1, t + 50);
    var s2 := st.(clicks := Clicks(1, t + 50, t + 50, false, t + 50));
    UnlockedClicksApplied(s2, t + 750);
  }

  /** The double-click gesture: two clicks 100 ms apart, then silence,
      advance the mode of an unlocked lamp. */
  lemma DoubleClickGesture(st: Ctl, t: nat)
    requires st.clicks == Clicks(0, 0, 0, false, 0) && st.lastScheduleCheck == 0 && t > DEBOUNCE_MS
    requires !Locked(st)
    ensures var s4 := Click(Click(st, t, t + 50), t + 100, t + 150);
      var s5 := Press(s4, false, t + 800);
      s4.lamp == st.lamp && s5.lamp == st.lamp.(mode := NextMode(st.lamp.mode)) && s5.clicks.count == 0
  {
    TwoClicks(st, t);
    UnlockedClicksApplied(st.(clicks := Clicks(2, t + 50, t + 150, false, t + 150)), t + 800);
  }

  // ----- The rotary -----

  /** While locked the dial only consumes its position; otherwise brightness
      follows the delta clamped to [isOn ? 1 : 0, 15]. */
  lemma TurnClamps(st: Ctl, pos: int)
    requires pos != st.lastPos
    ensures var r := Turn(st, pos);
      r.lastPos == pos &&
      (Locked(st) ==> r == st.(lastPos := pos)) &&
      (!Locked(st) ==>
        r.lamp == st.lamp.(brightness := Constrain(st.lamp.brightness + (pos - st.lastPos),
                                                   if st.lamp.isOn then 1 else 0, 15)) &&
        (if st.lamp.isOn then 1 else 0) <= r.lamp.brightness <= 15)
  {
  }

  // ----- Remote commands -----

  /** Remote lamp keys ignore the manual lock, clamp brightness to 0..15
      (at least 1 if the lamp was on when the key was read) and mode to 0..2,
      and change only the keys present. */
  lemma RemoteLampClamps(l: Lamp, m: Message)
    ensures var r := RemoteLamp(l, m);
      (m.brightness.Some? ==> 0 <= r.brightness <= 15 && (l.isOn ==> r.brightness >= 1)) &&
      (m.brightness.None? ==> r.brightness == l.brightness) &&
      (m.mode.Some? ==> 0 <= r.mode <= 2) &&
      (m.mode.None? ==> r.mode == l.mode) &&
      (m.on.Some? ==> r.isOn == m.on.value) &&
      (m.on.None? ==> r.isOn == l.isOn)
  {
  }

  /** A lamp change from the app is rendered but never echoed back: with no
      `request_state` and no typed command nothing is broadcast. */
  lemma RemoteChangeNotPublished(st: Ctl, m: Message)
    requires m.requestState != Some(true) && m.command.None?
    ensures var r := Remote(st, m);
      r.events == st.events && r.lamp == RemoteLamp(st.lamp, m) &&
      r.out == (if r.lamp != st.lamp then Channels(r.lamp.isOn, r.lamp.brightness, r.lamp.mode) else st.out)
  {
  }

  /** The brightness floor is read before the `on` key: switching an off
      lamp on with brightness 0 in the same message leaves brightness 0
      (the output mapper still lights it at level 1). */
  lemma RemoteFloorReadBeforeOn(l: Lamp)
    requires !l.isOn
    ensures RemoteLamp(l, Message(Some(0), None, Some(true), None, None)) == Lamp(true, 0, l.mode)
  {
  }

  /** `handleSunSyncState`: the flags follow the message, and a state
      publish happens exactly when the active flag changes. */
  lemma SunSyncFlags(st: Ctl, active: bool, source: string)
    ensures var r := SunSyncSet(st, active, source);
      r.sun.active == active &&
      (r.sun.disabledByHardware <==> !active && source == "hardware") &&
      r.lamp == st.lamp &&
      r.events == st.events + (if st.sun.active != active then [StateUpdate(Snap(r))] else [])
  {
  }

  // ----- Invariants kept by every handler -----

  /** The store never holds more than 10 routines and 5 alarms, and the
      click count stays a `uint8_t`. */
  predicate Bounded(st: Ctl) {
    |st.routines| <= MAX_ROUTINES && |st.alarms| <= MAX_ALARMS && st.clicks.count < CLICK_COUNT_MODULUS
  }

  lemma RemoteKeepsBounded(st: Ctl, m: Message)
    requires Bounded(st)
    ensures Bounded(Remote(st, m))
  {
    var st1 := st.(lamp := RemoteLamp(st.lamp, m));
    var st2 := if m.requestState == Some(true) then Publish(st1) else st1;
    assert Bounded(st2);
  }

  lemma LoopKeepsBounded(st: Ctl, pos: int, pressed: bool, now: nat, check: nat, stamp: nat,
                         clock: Option<MinuteOfDay>)
    requires Bounded(st) && TimesNotAfter(st, now) && now <= check <= stamp
    ensures Bounded(LoopStep(st, pos, pressed, now, check, stamp, clock))
    ensures TimesNotAfter(LoopStep(st, pos, pressed, now, check, stamp, clock), stamp)
  {
    var s1 := Turn(st, pos);
    var s2 := Press(s1, pressed, now);
    assert Bounded(s2);
  }

  /** The rotary and button stages of a pass leave `lastScheduleCheck`
      alone, so the gate of the next pass compares against the reading the
      last tick stored. */
  lemma PassKeepsScheduleCheck(st: Ctl, pos: int, pressed: bool, now: nat)
    requires TimesNotAfter(st, now)
    ensures Press(Turn(st, pos), pressed, now).lastScheduleCheck == st.lastScheduleCheck
  {
  }

  /** Ticks are at least a second apart. A gate that ticks stores its second
      reading `stamp1`; a later gate whose own reading is less than a second
      after `stamp1` changes nothing, and one a second or more after it ticks
      and stores its own second reading. Between the two gates only rotary and
      button stages run, which keep `lastScheduleCheck`
      (`PassKeepsScheduleCheck`). */
  lemma ScheduleGateOncePerSecond(st: Ctl, check1: nat, stamp1: nat, clock1: Option<MinuteOfDay>,
                                  check2: nat, stamp2: nat, clock2: Option<MinuteOfDay>)
    requires st.lastScheduleCheck <= check1 <= stamp1 <= check2 <= stamp2
    requires check1 - st.lastScheduleCheck >= SCHEDULE_CHECK_INTERVAL
    ensures var r1 := ScheduleGate(st, check1, stamp1, clock1);
      r1.lastScheduleCheck == stamp1 &&
      (check2 - stamp1 < SCHEDULE_CHECK_INTERVAL ==> ScheduleGate(r1, check2, stamp2, clock2) == r1) &&
      (check2 - stamp1 >= SCHEDULE_CHECK_INTERVAL ==>
        ScheduleGate(r1, check2, stamp2, clock2) == Tick(r1.(lastScheduleCheck := stamp2), clock2))
  {
  }

  /** A corollary for the triple click: it blinks the lamp twice, 150 ms off
      and 150 ms on each time, which delays the gate's reading by 600 ms. So
      after a tick at `stamp1`, a pass whose own `now` is still inside the
      second ticks anyway when its blink carries the reading past it, while
      the same pass without the blink would not. */
  lemma BlinkDelaysGate(st: Ctl, check1: nat, stamp1: nat, clock1: Option<MinuteOfDay>, now: nat,
                        clock2: Option<MinuteOfDay>)
    requires st.lastScheduleCheck <= check1 <= stamp1 <= now
    requires check1 - st.lastScheduleCheck >= SCHEDULE_CHECK_INTERVAL
    requires now - stamp1 < SCHEDULE_CHECK_INTERVAL <= now + 600 - stamp1
    ensures var r1 := ScheduleGate(st, check1, stamp1, clock1);
      ScheduleGate(r1, now, now, clock2) == r1 &&
      ScheduleGate(r1, now + 600, now + 600, clock2).lastScheduleCheck == now + 600
  {
    ScheduleGateOncePerSecond(st, check1, stamp1, clock1, now, now, clock2);
    ScheduleGateOncePerSecond(st, check1, stamp1, clock1, now + 600, now + 600, clock2);
  }

  /** Routine and alarm upserts and deletes keep ids unique (a full sync,
      which copies the list as given, does not). */
  lemma SyncKeepsUniqueIds(st: Ctl, ra: SyncAction<Routine>, aa: SyncAction<Alarm>)
    requires UniqueKeys(st.routines, RoutineKey) && UniqueKeys(st.alarms, AlarmKey)
    ensures UniqueKeys(RoutineSync(st, ra).routines, RoutineKey)
    ensures UniqueKeys(AlarmSync(st, aa).alarms, AlarmKey)
  {
    match ra {
      case UpsertAction(r) => UpsertKeepsUnique(st.routines, RoutineKey, MAX_ROUTINES, r);
      case DeleteAction(id) => DeleteRemovesId(st.routines, RoutineKey, id);
      case OtherAction =>
    }
    match aa {
      case UpsertAction(a) => UpsertKeepsUnique(st.alarms, AlarmKey, MAX_ALARMS, a);
      case DeleteAction(id) => DeleteRemovesId(st.alarms, AlarmKey, id);
      case OtherAction =>
    }
  }

  /** A full sync always reports success and keeps the first 10 routines and
      5 alarms in input order. */
  lemma FullSyncTruncates(st: Ctl, rs: seq<Routine>, als: seq<Alarm>)
    ensures var r := FullSync(st, Some(rs), Some(als));
      |r.routines| == (if |rs| < MAX_ROUTINES then |rs| else MAX_ROUTINES) &&
      (forall j :: 0 <= j < |r.routines| ==> r.routines[j] == rs[j]) &&
      |r.alarms| == (if |als| < MAX_ALARMS then |als| else MAX_ALARMS) &&
      (forall j :: 0 <= j < |r.alarms| ==> r.alarms[j] == als[j]) &&
      r.events == st.events + [SyncResponse("full_sync_response", true, "Full sync complete")]
  {
  }

  /** The eleventh distinct routine is refused with "Storage full" and the
      store keeps its ten entries. */
  lemma EleventhRoutineRefused(st: Ctl, r: Routine)
    requires |st.routines| == MAX_ROUTINES && !HasKey(st.routines, RoutineKey, r.id)
    ensures var s := RoutineSync(st, UpsertAction(r));
      s.routines == st.routines &&
      s.events == st.events + [SyncResponse("routine_sync_response", false, "Storage full")]
  {
    UpsertFull(st.routines, RoutineKey, MAX_ROUTINES, r);
  }
}
