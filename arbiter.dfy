/** The lamp controller of esp_code/src/main.cpp as a state value and one
    function per handler: the schedule store handlers, the per-tick arbiter
    `checkSchedule`, the hardware override `handleTripleClick`,
    `handleSunSyncState`, the state-setting part of `onWSMsg` and the rotary
    and button paths of `loop`. The class `Firmware.Controller` runs the same
    handlers on its global-like fields and is proved against these functions. */
module Arbiter {
  import opened Wrappers
  import opened Arduino
  import opened Output
  import opened Schedule
  import opened Store

  const MAX_ROUTINES: nat := 10
  const MAX_ALARMS: nat := 5
  const DEBOUNCE_MS: nat := 35
  const MULTI_CLICK_WINDOW_MS: nat := 600
  const SCHEDULE_CHECK_INTERVAL: nat := 1000
  /** `clickCount` is a `uint8_t`. */
  const CLICK_COUNT_MODULUS: nat := 256

  datatype Lamp = Lamp(isOn: bool, brightness: int, mode: int)

  /** One automation slot: `routineActive`, `activeRoutineId`,
      `lastRoutineMinute` (a minute of the hour, `tm_min`),
      `wasOffBeforeRoutine` and the saved original state; or the alarm ones. */
  datatype Slot = Slot(active: bool, activeId: int, lastMinute: int, wasOffBefore: bool, saved: Lamp)

  datatype SunSync = SunSync(active: bool, disabledByHardware: bool)

  /** The click decoder: `clickCount`, `firstClickTime`,
      `lastClickReleaseTime` and the statics `prevPressed`, `lastChange`. */
  datatype Clicks = Clicks(count: nat, firstClickTime: nat, lastReleaseTime: nat, prevPressed: bool, lastChange: nat)

  /** The `state` object of `sendStateUpdate`. */
  datatype Snapshot = Snapshot(
    brightness: int, mode: int, on: bool,
    routineActive: bool, alarmActive: bool, sunSyncActive: bool,
    routineSuppressed: bool, alarmSuppressed: bool,
    sunSyncDisabledByHw: bool, manualControlLocked: bool)

  /** What the controller broadcasts to every connected client. The
      `timestamp_ms` fields are left out. */
  datatype Event =
    | StateUpdate(state: Snapshot)
    | SyncResponse(kind: string, success: bool, message: string)
    | SunSyncEcho(active: bool, source: string)
    | OverrideEvent(source: string, routineDisabled: bool, alarmDisabled: bool, sunSyncDisabled: bool,
                    routineSuppressed: bool, alarmSuppressed: bool, sunSyncActive: bool)

  /** The whole controller: lamp, store, slots, suppression snapshots,
      sun-sync flags, click decoder, the rotary's `lastPos`,
      `lastScheduleCheck`, the last channel pair written and the broadcasts. */
  datatype Ctl = Ctl(
    lamp: Lamp,
    routines: seq<Routine>, alarms: seq<Alarm>,
    routineSlot: Slot, alarmSlot: Slot,
    routineSuppressed: bool, suppressedRoutine: Routine,
    alarmSuppressed: bool, suppressedAlarm: Alarm,
    sun: SunSync,
    clicks: Clicks,
    lastPos: int,
    lastScheduleCheck: nat,
    out: (int, int),
    events: seq<Event>)

  /** Decoded `action` of a routine_sync / alarm_sync message. */
  datatype SyncAction<T> = UpsertAction(data: T) | DeleteAction(id: int) | OtherAction

  /** Decoded `type` of a message; an absent or unknown type is `None` in
      `Message.command`. */
  datatype Command =
    | RoutineSyncMsg(routineAction: SyncAction<Routine>)
    | AlarmSyncMsg(alarmAction: SyncAction<Alarm>)
    | FullSyncMsg(routineList: Option<seq<Routine>>, alarmList: Option<seq<Alarm>>)
    | TimeSyncMsg(hasTimestamp: bool)
    | SunSyncStateMsg(active: Option<bool>, source: Option<string>)

  /** A decoded WebSocket text message: every key is optional. */
  datatype Message = Message(
    brightness: Option<int>, mode: Option<int>, on: Option<bool>,
    requestState: Option<bool>, command: Option<Command>)

  /** The zero-initialised `suppressedRoutine = {}` and `suppressedAlarm = {}`. */
  const NO_ROUTINE := Routine(0, false, 0, 0, 0, 0, 0, 0)
  const NO_ALARM := Alarm(0, false, 0, 0, 0, 0, 0)

  /** The globals' initial values, the first `loop` pass's encoder position
      `pos`, and the output written by the `applyOutput` that ends `setup`. */
  function Initial(pos: int): Ctl {
    var lamp := Lamp(true, 0, MODE_BOTH);
    var slot := Slot(false, -1, -1, false, Lamp(true, 8, MODE_BOTH));
    Ctl(lamp, [], [], slot, slot, false, NO_ROUTINE, false, NO_ALARM, SunSync(false, false),
        Clicks(0, 0, 0, false, 0), pos, 0, Channels(lamp.isOn, lamp.brightness, lamp.mode), [])
  }

  // ----- Helpers shared by every handler -----

  /** The tick leaves the store, the input decoders and the tick time alone. */
  predicate KeepsInputs(st: Ctl, r: Ctl) {
    r.routines == st.routines && r.alarms == st.alarms && r.clicks == st.clicks &&
    r.lastPos == st.lastPos && r.lastScheduleCheck == st.lastScheduleCheck
  }

  /** The store handlers leave the lamp, the output and the decoders alone. */
  predicate KeepsLamp(st: Ctl, r: Ctl) {
    r.lamp == st.lamp && r.out == st.out && r.clicks == st.clicks &&
    r.lastPos == st.lastPos && r.lastScheduleCheck == st.lastScheduleCheck
  }

  /** The override stages leave the lamp, the store and the decoders alone. */
  predicate KeepsLampAndInputs(st: Ctl, r: Ctl) {
    KeepsInputs(st, r) && r.lamp == st.lamp
  }

  /** `isManualControlLocked`. */
  predicate Locked(st: Ctl) {
    st.routineSlot.active || st.alarmSlot.active || st.sun.active
  }

  function Snap(st: Ctl): Snapshot {
    Snapshot(st.lamp.brightness, st.lamp.mode, st.lamp.isOn,
             st.routineSlot.active, st.alarmSlot.active, st.sun.active,
             st.routineSuppressed, st.alarmSuppressed, st.sun.disabledByHardware, Locked(st))
  }

  /** `sendStateUpdate`. */
  function Publish(st: Ctl): (r: Ctl)
    ensures KeepsInputs(st, r)
  {
    st.(events := st.events + [StateUpdate(Snap(st))])
  }

  /** `applyOutput`. */
  function Render(st: Ctl): (r: Ctl)
    ensures KeepsInputs(st, r)
  {
    st.(out := Channels(st.lamp.isOn, st.lamp.brightness, st.lamp.mode))
  }

  /** `sendSyncResponse`. */
  function Respond(st: Ctl, kind: string, success: bool, message: string): (r: Ctl)
    ensures KeepsLamp(st, r)
  {
    st.(events := st.events + [SyncResponse(kind, success, message)])
  }

  // ----- Schedule store handlers -----

  /** `handleRoutineSync`: no field is range-checked. */
  function RoutineSync(st: Ctl, action: SyncAction<Routine>): (r: Ctl)
    ensures KeepsLamp(st, r)
  {
    match action
    case UpsertAction(r) =>
      var (rs, ok) := Upsert(st.routines, RoutineKey, MAX_ROUTINES, r);
      Respond(st.(routines := rs), "routine_sync_response", ok,
              if ok then "Routine synced successfully" else "Storage full")
    case DeleteAction(id) =>
      var (rs, ok) := Delete(st.routines, RoutineKey, id);
      Respond(st.(routines := rs), "routine_sync_response", ok,
              if ok then "Routine deleted" else "Routine not found")
    case OtherAction => st
  }

  /** `handleAlarmSync`. */
  function AlarmSync(st: Ctl, action: SyncAction<Alarm>): (r: Ctl)
    ensures KeepsLamp(st, r)
  {
    match action
    case UpsertAction(a) =>
      var (als, ok) := Upsert(st.alarms, AlarmKey, MAX_ALARMS, a);
      Respond(st.(alarms := als), "alarm_sync_response", ok,
              if ok then "Alarm synced successfully" else "Storage full")
    case DeleteAction(id) =>
      var (als, ok) := Delete(st.alarms, AlarmKey, id);
      Respond(st.(alarms := als), "alarm_sync_response", ok,
              if ok then "Alarm deleted" else "Alarm not found")
    case OtherAction => st
  }

  /** `handleFullSync`: both counts reset, a missing list stays empty, a long
      one is cut to capacity, and the reply is always a success. */
  function FullSync(st: Ctl, routineList: Option<seq<Routine>>, alarmList: Option<seq<Alarm>>): (r: Ctl)
    ensures KeepsLamp(st, r)
  {
    var rs := if routineList.Some? then Take(routineList.value, MAX_ROUTINES) else [];
    var als := if alarmList.Some? then Take(alarmList.value, MAX_ALARMS) else [];
    Respond(st.(routines := rs, alarms := als), "full_sync_response", true, "Full sync complete")
  }

  /** `handleTimeSync`, without the clock itself: only the reply. */
  function TimeSync(st: Ctl, hasTimestamp: bool): (r: Ctl)
    ensures KeepsLamp(st, r)
  {
    Respond(st, "time_sync_response", hasTimestamp,
            if hasTimestamp then "Time synchronized to Auckland timezone with automatic DST"
            else "Invalid time data")
  }

  /** `handleSunSyncState`: "disabled by hardware" is pinned only by an
      inactive state whose source is "hardware"; a state change is published. */
  function SunSyncSet(st: Ctl, active: bool, source: string): (r: Ctl)
    ensures KeepsLamp(st, r)
  {
    var st1 := st.(sun := SunSync(active, !active && source == "hardware"));
    if st.sun.active != active then Publish(st1) else st1
  }

  // ----- The per-tick arbiter -----

  /** `updateSuppressionWindows`: a suppression is dropped once `now` is
      outside its snapshot's window (the alarm's is read with the wrapping
      `isWithinTimeRange`, from start to wake). */
  function UpdateSuppression(st: Ctl, now: int): (r: Ctl)
    ensures KeepsInputs(st, r)
  {
    var sr, sa := st.suppressedRoutine, st.suppressedAlarm;
    var st1 :=
      if st.routineSuppressed && !IsWithinTimeRange(sr.startHour, sr.startMinute, sr.endHour, sr.endMinute, now)
      then st.(routineSuppressed := false) else st;
    if st1.alarmSuppressed && !IsWithinTimeRange(sa.startHour, sa.startMinute, sa.wakeHour, sa.wakeMinute, now)
    then st1.(alarmSuppressed := false) else st1
  }

  /** (Re)apply only for a new id or once the minute of the hour has moved on. */
  predicate ShouldApply(slot: Slot, id: int, minute: int) {
    !slot.active || slot.activeId != id || slot.lastMinute != minute
  }

  /** Mark a slot active; the original state is saved only on a fresh start. */
  function Begin(slot: Slot, lamp: Lamp, id: int, minute: int): Slot {
    if slot.active then Slot(true, id, minute, slot.wasOffBefore, slot.saved)
    else Slot(true, id, minute, !lamp.isOn, lamp)
  }

  /** Clear a slot's active markers; the saved original state is kept. */
  function Cleared(slot: Slot): Slot {
    slot.(active := false, activeId := -1, lastMinute := -1, wasOffBefore := false)
  }

  /** `checkSchedule`: with no local time nothing happens. */
  function Tick(st: Ctl, clock: Option<MinuteOfDay>): (r: Ctl)
    ensures KeepsInputs(st, r)
  {
    match clock
    case None => st
    case Some(t) => Evaluate(UpdateSuppression(st, t), t)
  }

  /** The routine scan, the routine end, then (only when no routine is
      active) the alarm scan. */
  function Evaluate(st: Ctl, t: MinuteOfDay): (r: Ctl)
    ensures KeepsInputs(st, r)
  {
    var k := FirstWhere(st.routines, RoutineAt(t));
    if k < |st.routines| then RoutineHit(st, st.routines[k], t)
    else if st.routineSlot.active then EndRoutine(st)
    else AlarmScan(st, t)
  }

  /** The first matching routine: a suppressed one ends the whole tick. */
  function RoutineHit(st: Ctl, r: Routine, t: MinuteOfDay): (r': Ctl)
    ensures KeepsInputs(st, r')
  {
    if st.routineSuppressed && st.suppressedRoutine.id == r.id then st
    else if ShouldApply(st.routineSlot, r.id, t % 60) then ApplyRoutine(st, r, t % 60)
    else st
  }

  function ApplyRoutine(st: Ctl, r: Routine, minute: int): (r': Ctl)
    ensures KeepsInputs(st, r')
  {
    Publish(Render(st.(routineSlot := Begin(st.routineSlot, st.lamp, r.id, minute),
                       lamp := Lamp(true, r.brightness, r.mode))))
  }

  /** A routine that ends leaves the lamp as it was. */
  function EndRoutine(st: Ctl): (r: Ctl)
    ensures KeepsInputs(st, r)
  {
    Publish(st.(routineSlot := Cleared(st.routineSlot)))
  }

  function AlarmScan(st: Ctl, t: MinuteOfDay): (r: Ctl)
    ensures KeepsInputs(st, r)
  {
    var k := FirstWhere(st.alarms, AlarmAt(t));
    if k < |st.alarms| then AlarmHit(st, st.alarms[k], t)
    else if st.alarmSlot.active then EndAlarm(st)
    else st
  }

  function AlarmHit(st: Ctl, a: Alarm, t: MinuteOfDay): (r: Ctl)
    ensures KeepsInputs(st, r)
  {
    if st.alarmSuppressed && st.suppressedAlarm.id == a.id then st
    else if ShouldApply(st.alarmSlot, a.id, t % 60) then ApplyAlarm(st, a, t)
    else st
  }

  function ApplyAlarm(st: Ctl, a: Alarm, t: MinuteOfDay): (r: Ctl)
    ensures KeepsInputs(st, r)
  {
    Publish(Render(st.(alarmSlot := Begin(st.alarmSlot, st.lamp, a.id, t % 60),
                       lamp := Lamp(true, AlarmLevel(t - a.StartTime(), a.durationMinutes), MODE_BOTH))))
  }

  /** An alarm that ends locks the lamp on, at full brightness, in both. */
  function EndAlarm(st: Ctl): (r: Ctl)
    ensures KeepsInputs(st, r)
  {
    Publish(Render(st.(lamp := Lamp(true, 15, MODE_BOTH), alarmSlot := Cleared(st.alarmSlot))))
  }

  // ----- The hardware override -----

  /** The `if (routineActive)` block of `handleTripleClick`. */
  function SuppressRoutine(st: Ctl): (r: Ctl)
    ensures KeepsLampAndInputs(st, r) && r.out == st.out && r.events == st.events
  {
    if !st.routineSlot.active then st
    else
      match FindById(st.routines, RoutineKey, st.routineSlot.activeId)
      case Some(r) => st.(suppressedRoutine := r, routineSuppressed := true, routineSlot := Cleared(st.routineSlot))
      case None => st.(routineSuppressed := false, routineSlot := Cleared(st.routineSlot))
  }

  /** The `if (alarmActive)` block. */
  function SuppressAlarm(st: Ctl): (r: Ctl)
    ensures KeepsLampAndInputs(st, r) && r.out == st.out && r.events == st.events
  {
    if !st.alarmSlot.active then st
    else
      match FindById(st.alarms, AlarmKey, st.alarmSlot.activeId)
      case Some(a) => st.(suppressedAlarm := a, alarmSuppressed := true, alarmSlot := Cleared(st.alarmSlot))
      case None => st.(alarmSuppressed := false, alarmSlot := Cleared(st.alarmSlot))
  }

  /** The `if (sunSyncActive)` block, with its `sendSunSyncState(false, "hardware")`. */
  function DisableSunSync(st: Ctl): (r: Ctl)
    ensures KeepsLampAndInputs(st, r) && r.out == st.out
  {
    if st.sun.active then st.(sun := SunSync(false, true), events := st.events + [SunSyncEcho(false, "hardware")])
    else st
  }

  /** `handleTripleClick`: the blink, when something was active, ends in
      `applyOutput` exactly like the unconditional one after it. */
  function Override(st: Ctl): (r: Ctl)
    ensures KeepsLampAndInputs(st, r)
  {
    var st1 := Publish(Render(DisableSunSync(SuppressAlarm(SuppressRoutine(st)))));
    st1.(events := st1.events + [OverrideEvent("hardware", st.routineSlot.active, st.alarmSlot.active, st.sun.active,
                                               st1.routineSuppressed, st1.alarmSuppressed, st1.sun.active)])
  }

  // ----- Remote commands (onWSMsg) -----

  /** The `brightness` key: clamped to 0..15 and raised to 1 while the lamp
      is on. The manual lock does not apply to any of the lamp keys. */
  function BrightnessKey(l: Lamp, b: Option<int>): Lamp {
    match b
    case None => l
    case Some(v) =>
      var nb := Constrain(v, 0, 15);
      l.(brightness := if l.isOn && nb < 1 then 1 else nb)
  }

  /** The `mode` key, clamped to 0..2. */
  function ModeKey(l: Lamp, mo: Option<int>): Lamp {
    match mo
    case None => l
    case Some(v) => l.(mode := Constrain(v, 0, 2))
  }

  /** The `on` key. */
  function OnKey(l: Lamp, on: Option<bool>): Lamp {
    match on
    case None => l
    case Some(v) => l.(isOn := v)
  }

  /** The three lamp keys in the order `onWSMsg` reads them: the brightness
      floor therefore looks at `isOn` *before* the `on` key is applied. */
  function RemoteLamp(l: Lamp, m: Message): Lamp {
    OnKey(ModeKey(BrightnessKey(l, m.brightness), m.mode), m.on)
  }

  /** A typed command touches the store, the sun-sync flags and the
      broadcasts only, and keeps the store within capacity. */
  function Dispatch(st: Ctl, c: Command): (r: Ctl)
    ensures KeepsLamp(st, r)
    ensures |st.routines| <= MAX_ROUTINES ==> |r.routines| <= MAX_ROUTINES
    ensures |st.alarms| <= MAX_ALARMS ==> |r.alarms| <= MAX_ALARMS
  {
    match c
    case RoutineSyncMsg(a) => RoutineSync(st, a)
    case AlarmSyncMsg(a) => AlarmSync(st, a)
    case FullSyncMsg(rs, als) => FullSync(st, rs, als)
    case TimeSyncMsg(has) => TimeSync(st, has)
    case SunSyncStateMsg(active, source) => SunSyncSet(st, active.GetOr(false), source.GetOr("app"))
  }

  /** A decoded data message: lamp keys, `request_state`, the typed command,
      then `applyOutput` if a lamp field changed, with no state publish for
      that change. */
  function Remote(st: Ctl, m: Message): Ctl {
    var st1 := st.(lamp := RemoteLamp(st.lamp, m));
    var st2 := if m.requestState == Some(true) then Publish(st1) else st1;
    var st3 := if m.command.Some? then Dispatch(st2, m.command.value) else st2;
    if st1.lamp != st.lamp then Render(st3) else st3
  }

  // ----- The rotary and button paths of loop -----

  /** The rotary block: the position is always consumed; while the manual
      lock holds nothing else happens, otherwise brightness moves by the
      delta, clamped to [isOn ? 1 : 0, 15]. */
  function Turn(st: Ctl, pos: int): (r: Ctl)
    ensures r.clicks == st.clicks && r.lastScheduleCheck == st.lastScheduleCheck
  {
    if pos == st.lastPos then st
    else
      var st1 := st.(lastPos := pos);
      if Locked(st1) then st1
      else
        var nb := Constrain(st.lamp.brightness + (pos - st.lastPos), if st.lamp.isOn then 1 else 0, 15);
        if nb != st.lamp.brightness then Publish(Render(st1.(lamp := st1.lamp.(brightness := nb))))
        else st1
  }

  /** `millis()` never runs backwards: every stored timestamp is at most `now`. */
  predicate TimesNotAfter(st: Ctl, now: nat) {
    st.clicks.lastChange <= now && st.clicks.firstClickTime <= now &&
    st.clicks.lastReleaseTime <= now && st.lastScheduleCheck <= now
  }

  /** The release branch of the edge detector: the click is counted (the
      count is a `uint8_t`), the first click of a group stamps the group's
      start, and a third click within 600 ms of the first runs the override
      at once and zeroes the count. */
  function Release(st: Ctl, now: nat): (r: Ctl)
    requires TimesNotAfter(st, now)
    ensures TimesNotAfter(r, now)
    ensures r.routines == st.routines && r.alarms == st.alarms
    ensures r.clicks.prevPressed == st.clicks.prevPressed && r.clicks.lastChange == st.clicks.lastChange
    ensures r.clicks.count < CLICK_COUNT_MODULUS
  {
    var c := st.clicks;
    var first := if c.count == 0 then now else c.firstClickTime;
    var st1 := st.(clicks := c.(count := (c.count + 1) % CLICK_COUNT_MODULUS, firstClickTime := first,
                                lastReleaseTime := now));
    if st1.clicks.count >= 3 && now - first <= MULTI_CLICK_WINDOW_MS then
      Override(st1).(clicks := st1.clicks.(count := 0))
    else st1
  }

  /** The debounced edge: an edge counts only more than 35 ms after the last
      accepted one, and only a release (pressed, then not) counts a click. */
  function Edge(st: Ctl, pressed: bool, now: nat): (r: Ctl)
    requires TimesNotAfter(st, now)
    ensures TimesNotAfter(r, now)
    ensures r.routines == st.routines && r.alarms == st.alarms
    ensures st.clicks.count < CLICK_COUNT_MODULUS ==> r.clicks.count < CLICK_COUNT_MODULUS
  {
    var c := st.clicks;
    if pressed != c.prevPressed && now - c.lastChange > DEBOUNCE_MS then
      var st1 := st.(clicks := c.(lastChange := now));
      var st2 := if c.prevPressed && !pressed then Release(st1, now) else st1;
      st2.(clicks := st2.clicks.(prevPressed := pressed))
    else st
  }

  /** Resolution once more than 600 ms have passed since the last release:
      3 or more clicks run the override, 2 cycle the mode and 1 toggles the
      lamp, the last two only while the manual lock is off. */
  function Resolve(st: Ctl, now: nat): (r: Ctl)
    requires TimesNotAfter(st, now)
    ensures TimesNotAfter(r, now)
    ensures r.routines == st.routines && r.alarms == st.alarms && r.clicks.count <= st.clicks.count
  {
    var c := st.clicks;
    if c.count > 0 && now - c.lastReleaseTime > MULTI_CLICK_WINDOW_MS then
      Clicked(st.(clicks := c.(count := 0)), c.count)
    else st
  }

  /** What a settled group of `count` clicks does: three or more are the
      override; otherwise, unless the manual lock holds, two advance the mode
      and one toggles the lamp, rendered and published. */
  function Clicked(st: Ctl, count: nat): (r: Ctl)
    ensures r.routines == st.routines && r.alarms == st.alarms && r.clicks == st.clicks
    ensures r.lastScheduleCheck == st.lastScheduleCheck
  {
    if count >= 3 then Override(st)
    else if Locked(st) then st
    else if count == 2 then Publish(Render(st.(lamp := st.lamp.(mode := NextMode(st.lamp.mode)))))
    else Publish(Render(st.(lamp := st.lamp.(isOn := !st.lamp.isOn))))
  }

  function Press(st: Ctl, pressed: bool, now: nat): (r: Ctl)
    requires TimesNotAfter(st, now)
    ensures TimesNotAfter(r, now)
  {
    Resolve(Edge(st, pressed, now), now)
  }

  /** The schedule gate of `loop`: a tick at most once per second. The gate
      reads `millis()` twice, after the button code (which may have blinked
      the lamp for a while): `check` for the test and `stamp` for the new
      `lastScheduleCheck`. */
  function ScheduleGate(st: Ctl, check: nat, stamp: nat, clock: Option<MinuteOfDay>): Ctl
    requires st.lastScheduleCheck <= check <= stamp
  {
    if check - st.lastScheduleCheck >= SCHEDULE_CHECK_INTERVAL then Tick(st.(lastScheduleCheck := stamp), clock)
    else st
  }

  /** One pass of `loop` with encoder position `pos`, button sample
      `pressed`, the pass's time `now`, the gate's two later readings of
      `millis()` and the local clock reading. */
  function LoopStep(st: Ctl, pos: int, pressed: bool, now: nat, check: nat, stamp: nat,
                    clock: Option<MinuteOfDay>): Ctl
    requires TimesNotAfter(st, now) && now <= check <= stamp
  {
    ScheduleGate(Press(Turn(st, pos), pressed, now), check, stamp, clock)
  }
}
