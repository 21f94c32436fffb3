/** The controller of esp_code/src/main.cpp as the firmware holds it: one
    object whose fields are the program's globals and the `static` locals of
    `loop`, with the schedule store in two fixed arrays and their counts.
    Globals that always travel together are held as one record of module
    Arbiter: `isOn`/`brightness`/`mode` as `lamp`, the five routine-tracking
    globals as `routineSlot` (the alarm ones as `alarmSlot`), the two
    sun-sync flags as `sun`, and `clickCount`/`firstClickTime`/
    `lastClickReleaseTime` with the statics `prevPressed`/`lastChange` as
    `clicks`. Every handler updates the fields in place, step by step as the
    source does, and is proved to move the abstract state `Abs()` exactly as
    the corresponding function of module Arbiter says. */
module Firmware {
  import opened Wrappers
  import opened Arduino
  import opened Output
  import opened Schedule
  import opened Store
  import opened Arbiter
  import ArbiterProofs

  /** `OVERRIDE_BLINK_COUNT`. */
  const OVERRIDE_BLINK_COUNT: nat := 2
  /** The "gentle pulse" level written while blinking a lamp that is off. */
  const BLINK_PULSE_LEVEL: int := 12

  class Controller {
    /** `isOn`, `brightness`, `mode`. */
    var lamp: Lamp

    /** `routines[MAX_ROUTINES]`, `routine_count`, `alarms[MAX_ALARMS]`, `alarm_count`. */
    const routines: array<Routine>
    const alarms: array<Alarm>
    var routineCount: nat
    var alarmCount: nat
    /** The time of the last schedule check, in `millis()`. */
    var lastScheduleCheck: nat

    /** `routineActive`, `activeRoutineId`, `lastRoutineMinute`,
        `wasOffBeforeRoutine` and `originalIsOn`/`originalBrightness`/`originalMode`. */
    var routineSlot: Slot
    /** The same five for the alarm (`alarmOriginal...`). */
    var alarmSlot: Slot

    var routineSuppressed: bool
    var suppressedRoutine: Routine
    var alarmSuppressed: bool
    var suppressedAlarm: Alarm
    /** `sunSyncActive`, `sunSyncDisabledByHardware`. */
    var sun: SunSync

    var clicks: Clicks
    /** The `static int lastPos` of `loop`. */
    var lastPos: int

    /** The duty values last written with `ledcWrite` to channels 0 and 1. */
    var ch0: int
    var ch1: int
    /** Everything sent with `ws.textAll`, oldest first. */
    var sent: seq<Event>

    ghost predicate Valid()
      reads this
    {
      routines.Length == MAX_ROUTINES && alarms.Length == MAX_ALARMS &&
      routineCount <= MAX_ROUTINES && alarmCount <= MAX_ALARMS &&
      clicks.count < CLICK_COUNT_MODULUS
    }

    /** The controller as a value of module Arbiter: the store is the live
        prefix of each array. */
    ghost function Abs(): Ctl
      reads this, routines, alarms
      requires Valid()
    {
      Ctl(lamp, routines[..routineCount], alarms[..alarmCount], routineSlot, alarmSlot,
          routineSuppressed, suppressedRoutine, alarmSuppressed, suppressedAlarm, sun, clicks,
          lastPos, lastScheduleCheck, (ch0, ch1), sent)
    }

    /** The initialisers of the globals, `setup`'s final `applyOutput`, and
        the encoder position `pos` read into `lastPos` by the first `loop`. */
    constructor (pos: int)
      ensures Valid() && Abs() == Initial(pos)
      ensures fresh(routines) && fresh(alarms)
    {
      lamp := Lamp(true, 0, MODE_BOTH);
      routines := new Routine[MAX_ROUTINES](_ => NO_ROUTINE);
      alarms := new Alarm[MAX_ALARMS](_ => NO_ALARM);
      routineCount, alarmCount, lastScheduleCheck := 0, 0, 0;
      routineSlot := Slot(false, -1, -1, false, Lamp(true, 8, MODE_BOTH));
      alarmSlot := Slot(false, -1, -1, false, Lamp(true, 8, MODE_BOTH));
      routineSuppressed, suppressedRoutine, alarmSuppressed, suppressedAlarm := false, NO_ROUTINE, false, NO_ALARM;
      sun := SunSync(false, false);
      clicks := Clicks(0, 0, 0, false, 0);
      lastPos := pos;
      ch0, ch1 := OFF, OFF;
      sent := [];
      new;
      ApplyOutput();
    }

    // ----- Helpers -----

    /** `applyOutput`. */
    method ApplyOutput()
      requires Valid()
      modifies this`ch0, this`ch1
      ensures Valid() && Abs() == Render(old(Abs()))
    {
      if !lamp.isOn {
        ch0, ch1 := OFF, OFF;
        return;
      }
      var safeBrightness := if lamp.brightness > 1 then lamp.brightness else 1;
      var invertedBrightness := OFF - safeBrightness;
      if lamp.mode == MODE_WARM {
        ch0, ch1 := invertedBrightness, OFF;
      } else if lamp.mode == MODE_WHITE {
        ch0, ch1 := OFF, invertedBrightness;
      } else {
        ch0, ch1 := invertedBrightness, invertedBrightness;
      }
    }

    /** `isManualControlLocked`. */
    method IsManualControlLocked() returns (locked: bool)
      requires Valid()
      ensures locked <==> Locked(Abs())
      ensures locked <==> routineSlot.active || alarmSlot.active || sun.active
    {
      locked := routineSlot.active || alarmSlot.active || sun.active;
    }

    /** `sendStateUpdate`. */
    method SendStateUpdate()
      requires Valid()
      modifies this`sent
      ensures Valid() && Abs() == Publish(old(Abs()))
    {
      var locked := IsManualControlLocked();
      sent := sent + [StateUpdate(Snapshot(lamp.brightness, lamp.mode, lamp.isOn,
                                           routineSlot.active, alarmSlot.active, sun.active,
                                           routineSuppressed, alarmSuppressed, sun.disabledByHardware, locked))];
    }

    /** `sendSyncResponse`. */
    method SendSyncResponse(kind: string, success: bool, message: string)
      requires Valid()
      modifies this`sent
      ensures Valid() && Abs() == Respond(old(Abs()), kind, success, message)
    {
      sent := sent + [SyncResponse(kind, success, message)];
    }

    /** `sendSunSyncState`. */
    method SendSunSyncState(active: bool, source: string)
      requires Valid()
      modifies this`sent
      ensures Valid() && Abs() == old(Abs()).(events := old(Abs()).events + [SunSyncEcho(active, source)])
    {
      sent := sent + [SunSyncEcho(active, source)];
    }

    /** `broadcastOverrideEvent`: the suppression and sun-sync flags are the
        current ones. */
    method BroadcastOverrideEvent(source: string, routineWasActive: bool, alarmWasActive: bool, sunSyncWasActive: bool)
      requires Valid()
      modifies this`sent
      ensures Valid()
      ensures Abs() == old(Abs()).(events := old(Abs()).events +
        [OverrideEvent(source, routineWasActive, alarmWasActive, sunSyncWasActive,
                       routineSuppressed, alarmSuppressed, sun.active)])
    {
      sent := sent + [OverrideEvent(source, routineWasActive, alarmWasActive, sunSyncWasActive,
                                    routineSuppressed, alarmSuppressed, sun.active)];
    }

    /** `blinkLamp`: `count` off/on cycles (the on phase restores the channels
        read at the start, or pulses at 12 if the lamp is off), then
        `applyOutput`; the delays are not modelled. */
    method BlinkLamp(count: nat)
      requires Valid()
      modifies this`ch0, this`ch1
      ensures Valid() && Abs() == Render(old(Abs()))
    {
      var savedCh0, savedCh1 := ch0, ch1;
      var lampWasOn := lamp.isOn;
      var i := 0;
      while i < count
        invariant i <= count
        invariant Valid() && Abs() == old(Abs()).(out := (ch0, ch1))
        invariant i > 0 ==> (ch0, ch1) == (if lampWasOn then (savedCh0, savedCh1) else (BLINK_PULSE_LEVEL, BLINK_PULSE_LEVEL))
      {
        ch0, ch1 := OFF, OFF;
        if lampWasOn {
          ch0, ch1 := savedCh0, savedCh1;
        } else {
          ch0, ch1 := BLINK_PULSE_LEVEL, BLINK_PULSE_LEVEL;
        }
        i := i + 1;
      }
      ApplyOutput();
    }

    /** `findRoutineById`. */
    method FindRoutineById(id: int) returns (r: Option<Routine>)
      requires Valid()
      ensures r == FindById(Abs().routines, RoutineKey, id)
      ensures r.Some? ==> id >= 0 && r.value.id == id && r.value in Abs().routines
    {
      r := Find(routines, routineCount, RoutineKey, id);
    }

    /** `findAlarmById`. */
    method FindAlarmById(id: int) returns (r: Option<Alarm>)
      requires Valid()
      ensures r == FindById(Abs().alarms, AlarmKey, id)
      ensures r.Some? ==> id >= 0 && r.value.id == id && r.value in Abs().alarms
    {
      r := Find(alarms, alarmCount, AlarmKey, id);
    }

    // ----- Schedule store handlers -----

    /** `handleRoutineSync`. */
    method HandleRoutineSync(action: SyncAction<Routine>)
      requires Valid()
      modifies this`routineCount, this`sent, routines
      ensures Valid() && Abs() == RoutineSync(old(Abs()), action)
    {
      match action
      case UpsertAction(r) =>
        var n, ok := UpsertInto(routines, routineCount, RoutineKey, r);
        routineCount := n;
        SendSyncResponse("routine_sync_response", ok, if ok then "Routine synced successfully" else "Storage full");
      case DeleteAction(id) =>
        var n, ok := DeleteFrom(routines, routineCount, RoutineKey, id);
        routineCount := n;
        SendSyncResponse("routine_sync_response", ok, if ok then "Routine deleted" else "Routine not found");
      case OtherAction =>
    }

    /** `handleAlarmSync`. */
    method HandleAlarmSync(action: SyncAction<Alarm>)
      requires Valid()
      modifies this`alarmCount, this`sent, alarms
      ensures Valid() && Abs() == AlarmSync(old(Abs()), action)
    {
      match action
      case UpsertAction(a) =>
        var n, ok := UpsertInto(alarms, alarmCount, AlarmKey, a);
        alarmCount := n;
        SendSyncResponse("alarm_sync_response", ok, if ok then "Alarm synced successfully" else "Storage full");
      case DeleteAction(id) =>
        var n, ok := DeleteFrom(alarms, alarmCount, AlarmKey, id);
        alarmCount := n;
        SendSyncResponse("alarm_sync_response", ok, if ok then "Alarm deleted" else "Alarm not found");
      case OtherAction =>
    }

    /** `handleFullSync`. */
    method HandleFullSync(routineList: Option<seq<Routine>>, alarmList: Option<seq<Alarm>>)
      requires Valid()
      modifies this`routineCount, this`alarmCount, this`sent, routines, alarms
      ensures Valid() && Abs() == FullSync(old(Abs()), routineList, alarmList)
    {
      routineCount := 0;
      alarmCount := 0;
      if routineList.Some? {
        routineCount := Fill(routines, routineList.value);
      }
      if alarmList.Some? {
        alarmCount := Fill(alarms, alarmList.value);
      }
      SendSyncResponse("full_sync_response", true, "Full sync complete");
    }

    /** `handleTimeSync`, without setting the clock. */
    method HandleTimeSync(hasTimestamp: bool)
      requires Valid()
      modifies this`sent
      ensures Valid() && Abs() == TimeSync(old(Abs()), hasTimestamp)
    {
      if hasTimestamp {
        SendSyncResponse("time_sync_response", true, "Time synchronized to Auckland timezone with automatic DST");
      } else {
        SendSyncResponse("time_sync_response", false, "Invalid time data");
      }
    }

    /** `handleSunSyncState`. */
    method HandleSunSyncState(active: bool, source: string)
      requires Valid()
      modifies this`sun, this`sent
      ensures Valid() && Abs() == SunSyncSet(old(Abs()), active, source)
    {
      var previous := sun.active;
      sun := sun.(active := active);
      if active {
        sun := sun.(disabledByHardware := false);
      } else if source == "hardware" {
        sun := sun.(disabledByHardware := true);
      } else {
        sun := sun.(disabledByHardware := false);
      }
      if previous != sun.active {
        SendStateUpdate();
      }
    }

    // ----- The schedule -----

    /** `updateSuppressionWindows`. */
    method UpdateSuppressionWindows(currentTime: int)
      requires Valid()
      modifies this`routineSuppressed, this`alarmSuppressed
      ensures Valid() && Abs() == UpdateSuppression(old(Abs()), currentTime)
    {
      if routineSuppressed {
        if !IsWithinTimeRange(suppressedRoutine.startHour, suppressedRoutine.startMinute,
                              suppressedRoutine.endHour, suppressedRoutine.endMinute, currentTime) {
          routineSuppressed := false;
        }
      }
      if alarmSuppressed {
        if !IsWithinTimeRange(suppressedAlarm.startHour, suppressedAlarm.startMinute,
                              suppressedAlarm.wakeHour, suppressedAlarm.wakeMinute, currentTime) {
          alarmSuppressed := false;
        }
      }
    }

    /** `checkSchedule`, given the local time read with `getLocalTime`
        (`None` when no valid time is available). */
    method CheckSchedule(clock: Option<MinuteOfDay>)
      requires Valid()
      modifies this`lamp, this`routineSlot, this`alarmSlot, this`routineSuppressed, this`alarmSuppressed,
               this`ch0, this`ch1, this`sent
      ensures Valid() && Abs() == Tick(old(Abs()), clock)
    {
      if clock.None? {
        return;
      }
      UpdateSuppressionWindows(clock.value);
      EvaluateSchedule(clock.value);
    }

    /** The routine loop of `checkSchedule`, the routine-ended branch, and
        then (no routine being active) the alarm part. */
    method EvaluateSchedule(currentTime: MinuteOfDay)
      requires Valid()
      modifies this`lamp, this`routineSlot, this`alarmSlot, this`ch0, this`ch1, this`sent
      ensures Valid() && Abs() == Evaluate(old(Abs()), currentTime)
    {
      var i := Scan(routines, routineCount, RoutineAt(currentTime));
      if i < routineCount {
        ApplyRoutineAt(routines[i], currentTime);
      } else if routineSlot.active {
        EndRoutine();
      } else {
        CheckAlarms(currentTime);
      }
    }

    /** The body of the routine loop once routine `r` matches at `currentTime`. */
    method ApplyRoutineAt(r: Routine, currentTime: MinuteOfDay)
      requires Valid()
      modifies this`lamp, this`routineSlot, this`ch0, this`ch1, this`sent
      ensures Valid() && Abs() == RoutineHit(old(Abs()), r, currentTime)
    {
      if routineSuppressed && suppressedRoutine.id == r.id {
        return;
      }
      var currentMinute := currentTime % 60;
      if !routineSlot.active || routineSlot.activeId != r.id || routineSlot.lastMinute != currentMinute {
        if !routineSlot.active {
          routineSlot := routineSlot.(saved := lamp, wasOffBefore := !lamp.isOn);
        }
        routineSlot := routineSlot.(active := true, activeId := r.id, lastMinute := currentMinute);
        lamp := Lamp(true, r.brightness, r.mode);
        ApplyOutput();
        SendStateUpdate();
      }
    }

    /** The routine-ended branch: the lamp keeps what the routine left. */
    method EndRoutine()
      requires Valid()
      modifies this`routineSlot, this`sent
      ensures Valid() && Abs() == Arbiter.EndRoutine(old(Abs()))
    {
      routineSlot := routineSlot.(active := false, activeId := -1, wasOffBefore := false, lastMinute := -1);
      SendStateUpdate();
    }

    /** The alarm part of `checkSchedule`. */
    method CheckAlarms(currentTime: MinuteOfDay)
      requires Valid()
      modifies this`lamp, this`alarmSlot, this`ch0, this`ch1, this`sent
      ensures Valid() && Abs() == AlarmScan(old(Abs()), currentTime)
    {
      var k := Scan(alarms, alarmCount, AlarmAt(currentTime));
      if k < alarmCount {
        ApplyAlarmAt(alarms[k], currentTime);
      } else if alarmSlot.active {
        EndAlarm();
      }
    }

    /** The body of the alarm loop once alarm `a` matches at `currentTime`. */
    method ApplyAlarmAt(a: Alarm, currentTime: MinuteOfDay)
      requires Valid()
      modifies this`lamp, this`alarmSlot, this`ch0, this`ch1, this`sent
      ensures Valid() && Abs() == AlarmHit(old(Abs()), a, currentTime)
    {
      if alarmSuppressed && suppressedAlarm.id == a.id {
        return;
      }
      var currentMinute := currentTime % 60;
      if !alarmSlot.active || alarmSlot.activeId != a.id || alarmSlot.lastMinute != currentMinute {
        if !alarmSlot.active {
          alarmSlot := alarmSlot.(saved := lamp, wasOffBefore := !lamp.isOn);
        }
        alarmSlot := alarmSlot.(active := true, activeId := a.id, lastMinute := currentMinute);
        lamp := Lamp(true, AlarmLevel(currentTime - a.StartTime(), a.durationMinutes), MODE_BOTH);
        ApplyOutput();
        SendStateUpdate();
      }
    }

    /** The alarm-ended branch: lock in full brightness in both channels. */
    method EndAlarm()
      requires Valid()
      modifies this`lamp, this`alarmSlot, this`ch0, this`ch1, this`sent
      ensures Valid() && Abs() == Arbiter.EndAlarm(old(Abs()))
    {
      lamp := Lamp(true, 15, MODE_BOTH);
      alarmSlot := alarmSlot.(active := false, activeId := -1, wasOffBefore := false, lastMinute := -1);
      ApplyOutput();
      SendStateUpdate();
    }

    // ----- The hardware override -----

    /** `handleTripleClick`. */
    method HandleTripleClick()
      requires Valid()
      modifies this`routineSlot, this`routineSuppressed, this`suppressedRoutine,
               this`alarmSlot, this`alarmSuppressed, this`suppressedAlarm, this`sun,
               this`ch0, this`ch1, this`sent
      ensures Valid() && Abs() == Override(old(Abs()))
    {
      var routineWasActive, alarmWasActive, sunSyncWasActive := routineSlot.active, alarmSlot.active, sun.active;
      SuppressActiveRoutine();
      SuppressActiveAlarm();
      DisableSunSyncByHardware();
      if routineWasActive || alarmWasActive || sunSyncWasActive {
        BlinkLamp(OVERRIDE_BLINK_COUNT);
      }
      ApplyOutput();
      SendStateUpdate();
      BroadcastOverrideEvent("hardware", routineWasActive, alarmWasActive, sunSyncWasActive);
    }

    /** The `if (routineActive)` block of `handleTripleClick`. */
    method SuppressActiveRoutine()
      requires Valid()
      modifies this`routineSlot, this`routineSuppressed, this`suppressedRoutine
      ensures Valid() && Abs() == SuppressRoutine(old(Abs()))
    {
      if routineSlot.active {
        var routinePtr := FindRoutineById(routineSlot.activeId);
        match routinePtr {
          case Some(r) =>
            suppressedRoutine, routineSuppressed := r, true;
          case None =>
            routineSuppressed := false;
        }
        routineSlot := routineSlot.(active := false, activeId := -1, lastMinute := -1, wasOffBefore := false);
      }
    }

    /** The `if (alarmActive)` block. */
    method SuppressActiveAlarm()
      requires Valid()
      modifies this`alarmSlot, this`alarmSuppressed, this`suppressedAlarm
      ensures Valid() && Abs() == SuppressAlarm(old(Abs()))
    {
      if alarmSlot.active {
        var alarmPtr := FindAlarmById(alarmSlot.activeId);
        match alarmPtr {
          case Some(a) =>
            suppressedAlarm, alarmSuppressed := a, true;
          case None =>
            alarmSuppressed := false;
        }
        alarmSlot := alarmSlot.(active := false, activeId := -1, lastMinute := -1, wasOffBefore := false);
      }
    }

    /** The `if (sunSyncActive)` block. */
    method DisableSunSyncByHardware()
      requires Valid()
      modifies this`sun, this`sent
      ensures Valid() && Abs() == DisableSunSync(old(Abs()))
    {
      if sun.active {
        sun := SunSync(false, true);
        SendSunSyncState(false, "hardware");
      }
    }

    // ----- Remote commands -----

    /** `onWSMsg` for a connect event: the new client gets the state. */
    method OnConnect()
      requires Valid()
      modifies this`sent
      ensures Valid() && Abs() == Publish(old(Abs()))
    {
      SendStateUpdate();
    }

    /** `onWSMsg` for a decoded text message. */
    method OnWSMsg(m: Message)
      requires Valid()
      modifies this`lamp, this`routineCount, this`alarmCount, this`sun, this`ch0, this`ch1, this`sent, routines, alarms
      ensures Valid() && Abs() == Remote(old(Abs()), m)
    {
      var stateChanged := ApplyLampKeys(m);
      if m.requestState == Some(true) {
        SendStateUpdate();
      }
      if m.command.Some? {
        DispatchCommand(m.command.value);
      }
      if stateChanged {
        ApplyOutput();
      }
    }

    /** The `brightness`, `mode` and `on` keys of `onWSMsg`; the result is its
        `stateChanged`. */
    method ApplyLampKeys(m: Message) returns (stateChanged: bool)
      requires Valid()
      modifies this`lamp
      ensures Valid() && Abs() == old(Abs()).(lamp := RemoteLamp(old(Abs()).lamp, m))
      ensures stateChanged <==> RemoteLamp(old(Abs()).lamp, m) != old(Abs()).lamp
    {
      var brightnessChanged := ApplyBrightnessKey(m.brightness);
      var modeChanged := ApplyModeKey(m.mode);
      var onChanged := ApplyOnKey(m.on);
      stateChanged := brightnessChanged || modeChanged || onChanged;
    }

    /** The `brightness` key block of `onWSMsg`. */
    method ApplyBrightnessKey(b: Option<int>) returns (changed: bool)
      modifies this`lamp
      ensures lamp == BrightnessKey(old(lamp), b)
      ensures changed <==> lamp.brightness != old(lamp.brightness)
    {
      changed := false;
      if b.Some? {
        var newBrightness := Constrain(b.value, 0, 15);
        if lamp.isOn && newBrightness < 1 {
          newBrightness := 1;
        }
        if newBrightness != lamp.brightness {
          lamp, changed := lamp.(brightness := newBrightness), true;
        }
      }
    }

    /** The `mode` key block. */
    method ApplyModeKey(mo: Option<int>) returns (changed: bool)
      modifies this`lamp
      ensures lamp == ModeKey(old(lamp), mo)
      ensures changed <==> lamp.mode != old(lamp.mode)
    {
      changed := false;
      if mo.Some? {
        var newMode := Constrain(mo.value, 0, 2);
        if newMode != lamp.mode {
          lamp, changed := lamp.(mode := newMode), true;
        }
      }
    }

    /** The `on` key block. */
    method ApplyOnKey(on: Option<bool>) returns (changed: bool)
      modifies this`lamp
      ensures lamp == OnKey(old(lamp), on)
      ensures changed <==> lamp.isOn != old(lamp.isOn)
    {
      changed := false;
      if on.Some? {
        if on.value != lamp.isOn {
          lamp, changed := lamp.(isOn := on.value), true;
        }
      }
    }

    /** The `type` dispatch of `onWSMsg`. */
    method DispatchCommand(c: Command)
      requires Valid()
      modifies this`routineCount, this`alarmCount, this`sun, this`sent, routines, alarms
      ensures Valid() && Abs() == Dispatch(old(Abs()), c)
    {
      match c
      case RoutineSyncMsg(a) => HandleRoutineSync(a);
      case AlarmSyncMsg(a) => HandleAlarmSync(a);
      case FullSyncMsg(rs, als) => HandleFullSync(rs, als);
      case TimeSyncMsg(has) => HandleTimeSync(has);
      case SunSyncStateMsg(active, source) =>
        HandleSunSyncState(active.GetOr(false), source.GetOr("app"));
    }

    // ----- loop -----

    /** The rotary block of `loop`, with the encoder position `pos`. */
    method ReadRotary(pos: int)
      requires Valid()
      modifies this`lastPos, this`lamp, this`ch0, this`ch1, this`sent
      ensures Valid() && Abs() == Turn(old(Abs()), pos)
    {
      if pos == lastPos {
        return;
      }
      var delta := pos - lastPos;
      lastPos := pos;
      var locked := IsManualControlLocked();
      if !locked {
        var minBrightness := if lamp.isOn then 1 else 0;
        var newBrightness := Constrain(lamp.brightness + delta, minBrightness, 15);
        if newBrightness != lamp.brightness {
          lamp := lamp.(brightness := newBrightness);
          ApplyOutput();
          SendStateUpdate();
        }
      }
    }

    /** The debounced edge detector of `loop`, with the button sample
        `pressed` at time `now`. */
    method ReadButton(pressed: bool, now: nat)
      requires Valid() && TimesNotAfter(Abs(), now)
      modifies this`clicks, this`routineSlot, this`routineSuppressed, this`suppressedRoutine,
               this`alarmSlot, this`alarmSuppressed, this`suppressedAlarm, this`sun,
               this`ch0, this`ch1, this`sent
      ensures Valid() && Abs() == Edge(old(Abs()), pressed, now)
    {
      if pressed != clicks.prevPressed && now - clicks.lastChange > DEBOUNCE_MS {
        clicks := clicks.(lastChange := now);
        if clicks.prevPressed && !pressed {
          CountRelease(now);
        }
        clicks := clicks.(prevPressed := pressed);
      }
    }

    /** The release branch of the edge detector. */
    method CountRelease(now: nat)
      requires Valid() && TimesNotAfter(Abs(), now)
      modifies this`clicks, this`routineSlot, this`routineSuppressed, this`suppressedRoutine,
               this`alarmSlot, this`alarmSuppressed, this`suppressedAlarm, this`sun,
               this`ch0, this`ch1, this`sent
      ensures Valid() && Abs() == Release(old(Abs()), now)
    {
      if clicks.count == 0 {
        clicks := clicks.(firstClickTime := now);
      }
      clicks := clicks.(count := (clicks.count + 1) % CLICK_COUNT_MODULUS, lastReleaseTime := now);
      if clicks.count >= 3 && now - clicks.firstClickTime <= MULTI_CLICK_WINDOW_MS {
        HandleTripleClick();
        clicks := clicks.(count := 0);
      }
    }

    /** The click resolution of `loop` at time `now`. */
    method ResolveClicks(now: nat)
      requires Valid() && TimesNotAfter(Abs(), now)
      modifies this`clicks, this`lamp, this`routineSlot, this`routineSuppressed, this`suppressedRoutine,
               this`alarmSlot, this`alarmSuppressed, this`suppressedAlarm, this`sun,
               this`ch0, this`ch1, this`sent
      ensures Valid() && Abs() == Resolve(old(Abs()), now)
    {
      if clicks.count > 0 && now - clicks.lastReleaseTime > MULTI_CLICK_WINDOW_MS {
        var count := clicks.count;
        clicks := clicks.(count := 0);
        HandleClicks(count);
      }
    }

    /** The action of a settled group of `count` clicks. */
    method HandleClicks(count: nat)
      requires Valid()
      modifies this`lamp, this`routineSlot, this`routineSuppressed, this`suppressedRoutine,
               this`alarmSlot, this`alarmSuppressed, this`suppressedAlarm, this`sun,
               this`ch0, this`ch1, this`sent
      ensures Valid() && Abs() == Clicked(old(Abs()), count)
    {
      if count >= 3 {
        HandleTripleClick();
      } else {
        var locked := IsManualControlLocked();
        if !locked {
          if count == 2 {
            lamp := lamp.(mode := NextMode(lamp.mode));
          } else {
            lamp := lamp.(isOn := !lamp.isOn);
          }
          ApplyOutput();
          SendStateUpdate();
        }
      }
    }

    /** One pass of `loop`: the encoder position, the button sample, the
        value of `millis()` the button code uses, the two later readings the
        schedule gate takes, and the local clock are its inputs. */
    method Loop(pos: int, pressed: bool, now: nat, check: nat, stamp: nat, clock: Option<MinuteOfDay>)
      requires Valid() && TimesNotAfter(Abs(), now) && now <= check <= stamp
      modifies this`lastPos, this`clicks, this`lamp, this`routineSlot, this`routineSuppressed, this`suppressedRoutine,
               this`alarmSlot, this`alarmSuppressed, this`suppressedAlarm, this`sun,
               this`lastScheduleCheck, this`ch0, this`ch1, this`sent
      ensures Valid() && Abs() == LoopStep(old(Abs()), pos, pressed, now, check, stamp, clock)
    {
      ReadRotary(pos);
      ReadButton(pressed, now);
      ResolveClicks(now);
      GateSchedule(check, stamp, clock);
    }

    /** The once-a-second call of `checkSchedule` at the end of `loop`:
        `check` is the `millis()` of the test, `stamp` the one stored. */
    method GateSchedule(check: nat, stamp: nat, clock: Option<MinuteOfDay>)
      requires Valid() && lastScheduleCheck <= check <= stamp
      modifies this`lamp, this`routineSlot, this`routineSuppressed, this`suppressedRoutine,
               this`alarmSlot, this`alarmSuppressed, this`suppressedAlarm, this`sun,
               this`lastScheduleCheck, this`ch0, this`ch1, this`sent
      ensures Valid() && Abs() == ScheduleGate(old(Abs()), check, stamp, clock)
    {
      if check - lastScheduleCheck >= SCHEDULE_CHECK_INTERVAL {
        lastScheduleCheck := stamp;
        CheckSchedule(clock);
      }
    }
  }
}
