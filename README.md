# Smart lamp controller — a Dafny model

This project models the firmware of a two-channel LED lamp (warm and white
channels on PWM outputs), together with its build helper. The model covers:

- **the ESP32 controller** (`esp_code/src/main.cpp`). It keeps a store of
  time-of-day routines and wake-up alarms that an app syncs over a WebSocket.
  Once a second it arbitrates which automation drives the lamp
  (`checkSchedule`), with suppression windows and a manual-control lock. It
  reads a rotary encoder and a push button whose single, double and triple
  clicks toggle the lamp, advance the colour mode, or override every
  automation;
- **an earlier revision of the same firmware** (`esp_code/src/main_test2.cpp`).
  It has no brightness floor, no automations, and decodes single and double
  clicks within a 500 ms window;
- **the first two-channel sketch** (`src/main.cpp`). Here the encoder steps
  both duties by 5, a held turn moves them in opposite directions, and the
  press duration selects a toggle, a colour preset or the WiFi portal;
- **the `.env` loader** (`esp_code/load_env.py`). It reads `KEY=VALUE`
  lines, aborts without WiFi credentials, and escapes the credentials into C
  string literals.

How the model is built:

- Each firmware is modelled twice.
  - A value layer: a datatype for the whole state and one function per
    handler (`Arbiter`, `Prototype`, `TwoChannel`).
  - A class whose fields are the firmware's globals, grouped into small
    records, and whose methods update them in place (`Firmware.Controller`,
    `Prototype.Controller`, `TwoChannel.Sketch`). Each method is proved
    against the value function: `Abs() == F(old(Abs()))`.
- The routine and alarm stores are fixed-size arrays with a count. The
  array methods of `Store` are proved against sequence functions.
- Hardware output is the pair of duties last written to channels 0 and 1.
- Broadcasts to the app are a growing sequence of events.
- Time is a parameter: `now` in milliseconds for `millis()`, and an optional
  minute of the day for the local clock, `None` when no time is set.
- Integer types:
  - `clickCount` is a `uint8_t`, so an increment wraps at 256;
  - C's `%` is `Arduino.CRem`, which truncates toward zero;
  - `constrain` is `Arduino.Constrain`.

## Model

| member | source | states |
|---|---|---|
| Arduino.Constrain | esp_code/src/main.cpp:226 | the result lies in [lo, hi]; it is x inside the range, lo below it and hi above it |
| Arduino.CRem | esp_code/src/main.cpp:1018 | C's remainder: strictly inside (-b, b), takes the sign of the dividend, and equals the Euclidean remainder for a non-negative dividend |
| Output.Effective | esp_code/src/main.cpp:166-167 | the rendered brightness of a lit lamp is at least 1 and at least the stored brightness, and equals it from 1 up |
| Output.Level | esp_code/src/main.cpp:166-185 | the inverted PWM level 15 - max(1, brightness) of a lit channel (Output.ChannelsLitLevel, ChannelsMonotone) |
| Output.Channels | esp_code/src/main.cpp:153-191 | off gives (15, 15). Warm lights only channel 0, white only channel 1, any other mode both equally. A lit channel is below 15, and within 0..15 for a brightness on the 0..15 scale |
| Output.ChannelsDarkIffOff | esp_code/src/main.cpp:153-191 | both channels are dark exactly when the lamp is off; the floor keeps brightness 0 lit |
| Output.ChannelsLitLevel | esp_code/src/main.cpp:166-185 | a lit channel is at level 15 - max(1, brightness), because the PWM is active low |
| Output.ChannelsMonotone | esp_code/src/main.cpp:153-191 | more brightness never gives a higher (dimmer) duty on either channel |
| Output.ChannelsNoFloor | esp_code/src/main_test2.cpp:61-98 | the earlier mapper: off is (15, 15), warm leaves channel 1 dark, white leaves channel 0 dark, and duties stay in 0..15 |
| Output.RevisionsAgreeAboveFloor | esp_code/src/main_test2.cpp:61-98 | from brightness 1 up, the two revisions' mappers write the same duties |
| Output.EarlyRevisionDarkAtZero | esp_code/src/main_test2.cpp:61-98 | at brightness 0 the earlier mapper leaves an "on" lamp dark, while the later one lights it |
| Output.NextMode | esp_code/src/main.cpp:1018 | `(mode + 1) % 3` with C's remainder: in 0..2 for a non-negative mode |
| Output.NextModeCycles | esp_code/src/main.cpp:1018 | warm → white → both → warm: three advances return to the start, and one or two do not |
| Schedule.InWindow | esp_code/src/main.cpp:510-519 | the window test on minutes: the same-day interval when end > start, otherwise the wrap-around window; its shape is established by WindowBoundsInclusive, WrappedWindowIsComplementOfGap and WindowIsCircularInterval |
| Schedule.IsWithinTimeRange | esp_code/src/main.cpp:510-519 | converts both hour:minute pairs to minutes of the day and applies InWindow, so the lemmas about InWindow describe it |
| Schedule.WindowBoundsInclusive | esp_code/src/main.cpp:510-519 | both window ends are inside the window |
| Schedule.WrappedWindowIsComplementOfGap | esp_code/src/main.cpp:510-519 | a window with end ≤ start holds every minute except the gap strictly between end and start; start == end covers the whole day |
| Schedule.ClockDistance | esp_code/src/main.cpp:510-519 | the clockwise distance between two minutes of the day lies in 0..1439 |
| Schedule.WindowIsCircularInterval | esp_code/src/main.cpp:510-519 | with start ≠ end, a minute is in the window iff it is no further clockwise from start than end is |
| Schedule.RoutineMatches | esp_code/src/main.cpp:738-749 | an enabled routine whose window, wrapping midnight, holds the minute; the window is InWindow, so its lemmas describe it |
| Schedule.RoutineAt | esp_code/src/main.cpp:737-751 | the routine scan's test as a predicate, whose first match Store.FirstWhere and Store.Scan find |
| Schedule.AlarmMatches | esp_code/src/main.cpp:817-822 | an enabled alarm with start ≤ minute ≤ wake, without wrap-around (Schedule.AlarmWindowNeverWraps) |
| Schedule.AlarmAt | esp_code/src/main.cpp:816-822 | the alarm scan's test as a predicate, whose first match Store.FirstWhere and Store.Scan find |
| Schedule.AlarmWindowNeverWraps | esp_code/src/main.cpp:822 | an alarm whose wake time is before its start time never matches, because the alarm test does not wrap midnight |
| Schedule.AlarmLevel | esp_code/src/main.cpp:853-858 | the ramp level is in 0..15: it is floor(15·elapsed/duration) while ramping, 15 once the duration has passed, and 0 before the start |
| Schedule.AlarmLevelMonotone | esp_code/src/main.cpp:853-858 | the alarm ramp never decreases as time advances |
| Store.FirstWhere | esp_code/src/main.cpp:737-752 | the first index that satisfies the predicate, or the length; every earlier entry fails it |
| Store.IndexOf | esp_code/src/main.cpp:313-320 | a position holding the id, or the length exactly when the id is absent; Store.IndexOfIsFirst adds that it is the first such position |
| Store.IndexOfIsFirst | esp_code/src/main.cpp:313-320 | every entry before the position IndexOf returns has another id |
| Store.FindById | esp_code/src/main.cpp:490-498 | found iff the id is non-negative and present; the found record is in the store with that id |
| Store.FindByIdIsFirst | esp_code/src/main.cpp:490-498 | the found record is the first entry with the id, so with duplicates left by a full sync the lookups of `handleTripleClick` see the earliest one |
| Store.Upsert | esp_code/src/main.cpp:309-350 | succeeds iff the id is present or there is room; on refusal the store is unchanged; on success the record is stored; the capacity bound is kept |
| Store.UpsertExisting | esp_code/src/main.cpp:313-335 | the first entry holding the id is replaced in place, whatever later entries hold, and the upsert succeeds |
| Store.UpsertNew | esp_code/src/main.cpp:322-335 | a new id with room is appended at the end |
| Store.UpsertFull | esp_code/src/main.cpp:322-349 | a new id in a full store is refused and nothing changes |
| Store.UpsertKeepsUnique | esp_code/src/main.cpp:309-350 | an upsert keeps ids unique |
| Store.UpsertThenFind | esp_code/src/main.cpp:309-350 | in any store, duplicates included, looking up the id after a successful upsert finds exactly the new record |
| Store.Delete | esp_code/src/main.cpp:351-369 | succeeds iff the id is present and then removes exactly one entry; otherwise the store is unchanged |
| Store.DeleteShiftsDown | esp_code/src/main.cpp:351-369 | entries before the deleted one stay, and later ones shift down by one in order |
| Store.DeleteRemovesId | esp_code/src/main.cpp:351-369 | in a store with unique ids, the id is gone after a delete and ids stay unique |
| Store.Take | esp_code/src/main.cpp:436-460 | the full-sync copy keeps the first min(cap, n) items in input order |
| Store.TakeKeepsDuplicates | esp_code/src/main.cpp:436-460 | a list that fits is stored exactly as given, so any duplicate ids in it stay in the store |
| Store.Scan | esp_code/src/main.cpp:737-738 | the array loop finds the same index as FirstWhere on the live prefix |
| Store.Find | esp_code/src/main.cpp:490-508 | the array lookup returns what FindById returns on the live prefix |
| Store.UpsertInto | esp_code/src/main.cpp:309-350 | the in-place upsert leaves the array prefix and flag that Upsert computes |
| Store.DeleteFrom | esp_code/src/main.cpp:351-369 | the in-place delete with its shift loop leaves the prefix and flag that Delete computes |
| Store.Fill | esp_code/src/main.cpp:436-460 | the full-sync loop visits every item but writes only while there is room, leaving Take(items, capacity) |
| Arbiter.Initial | esp_code/src/main.cpp:60-109 | the globals' initial values: on, brightness 0, both; empty stores; nothing active or suppressed (Firmware.Controller.constructor) |
| Arbiter.Snap | esp_code/src/main.cpp:131-151 | the `state` object of `sendStateUpdate`, lamp and flags with the lock computed by Locked; ArbiterProofs.OverrideBroadcasts and the tick lemmas state which snapshot is broadcast |
| Arbiter.Publish | esp_code/src/main.cpp:131-151 | a state broadcast leaves the store, decoders and tick time unchanged |
| Arbiter.Render | esp_code/src/main.cpp:153-191 | rendering leaves the store, decoders and tick time unchanged |
| Arbiter.Respond | esp_code/src/main.cpp:473-484 | a sync response changes neither the lamp nor the output |
| Arbiter.RoutineSync | esp_code/src/main.cpp:306-370 | a routine sync never changes the lamp or the output |
| Arbiter.AlarmSync | esp_code/src/main.cpp:372-427 | an alarm sync never changes the lamp or the output |
| Arbiter.FullSync | esp_code/src/main.cpp:429-471 | a full sync never changes the lamp or the output |
| Arbiter.TimeSync | esp_code/src/main.cpp:672-706 | a time sync only answers; the lamp and the output stay |
| Arbiter.SunSyncSet | esp_code/src/main.cpp:597-614 | the sun-sync handler never changes the lamp or the output |
| Arbiter.UpdateSuppression | esp_code/src/main.cpp:521-537 | the suppression update leaves the store, decoders and tick time unchanged |
| Arbiter.Tick | esp_code/src/main.cpp:708-891 | a schedule tick leaves the store, decoders and tick time unchanged |
| Arbiter.Evaluate | esp_code/src/main.cpp:726-891 | the routine and alarm evaluation leaves the store and decoders unchanged |
| Arbiter.ShouldApply | esp_code/src/main.cpp:759-766 | `shouldActivate`, and `shouldUpdate` at lines 831-836: a new id or inactive slot, or a new minute (ArbiterProofs.RoutineApplied, RoutineNotReapplied, AlarmApplied) |
| Arbiter.Begin | esp_code/src/main.cpp:769-781 | the slot becomes active with the id and minute; the lamp is saved only when the slot was inactive, as at lines 838-851 for alarms (ArbiterProofs.RoutineApplied, AlarmApplied) |
| Arbiter.Cleared | esp_code/src/main.cpp:802-805 | the markers reset to inactive, id -1, minute -1, not off before, as at lines 882-885 for alarms (ArbiterProofs.RoutineEndKeepsLamp, AlarmEndLocksFullBrightness, OverrideReleasesAutomation) |
| Arbiter.RoutineHit | esp_code/src/main.cpp:751-794 | a routine match leaves the store and decoders unchanged |
| Arbiter.ApplyRoutine | esp_code/src/main.cpp:768-791 | applying a routine leaves the store and decoders unchanged |
| Arbiter.EndRoutine | esp_code/src/main.cpp:798-810 | a routine end leaves the store and decoders unchanged |
| Arbiter.AlarmScan | esp_code/src/main.cpp:813-869 | the alarm scan leaves the store and decoders unchanged |
| Arbiter.AlarmHit | esp_code/src/main.cpp:822-867 | an alarm match leaves the store and decoders unchanged |
| Arbiter.ApplyAlarm | esp_code/src/main.cpp:838-866 | applying an alarm leaves the store and decoders unchanged |
| Arbiter.EndAlarm | esp_code/src/main.cpp:872-889 | an alarm end leaves the store and decoders unchanged |
| Arbiter.SuppressRoutine | esp_code/src/main.cpp:623-637 | the routine part of the override changes neither the lamp, nor the output, nor the broadcasts |
| Arbiter.SuppressAlarm | esp_code/src/main.cpp:639-653 | the alarm part of the override changes neither the lamp, nor the output, nor the broadcasts |
| Arbiter.DisableSunSync | esp_code/src/main.cpp:655-659 | the sun-sync part of the override changes neither the lamp nor the output |
| Arbiter.Override | esp_code/src/main.cpp:616-670 | the override never changes the lamp, the store or the decoders |
| Arbiter.Dispatch | esp_code/src/main.cpp:268-293 | a typed command never changes the lamp or the output, and keeps the store within 10 routines and 5 alarms |
| Arbiter.Locked | esp_code/src/main.cpp:486-488 | manual control is locked iff a routine, an alarm or sun sync is active; LockedClicksIgnored, UnlockedClicksApplied and TurnClamps state what the lock blocks |
| Arbiter.BrightnessKey | esp_code/src/main.cpp:225-240 | a present brightness is clamped to 0..15 and raised to 1 on a lit lamp (ArbiterProofs.RemoteLampClamps, RemoteFloorReadBeforeOn) |
| Arbiter.ModeKey | esp_code/src/main.cpp:241-249 | a present mode is clamped to 0..2 (ArbiterProofs.RemoteLampClamps) |
| Arbiter.OnKey | esp_code/src/main.cpp:250-258 | a present `on` sets `isOn` (ArbiterProofs.RemoteLampClamps) |
| Arbiter.RemoteLamp | esp_code/src/main.cpp:225-258 | the three keys in the source's order, each reading the lamp the previous one left (ArbiterProofs.RemoteLampClamps, RemoteFloorReadBeforeOn) |
| Arbiter.Remote | esp_code/src/main.cpp:193-303 | dispatches one decoded message; Firmware.Controller.OnWSMsg has its effect, and ArbiterProofs.RemoteKeepsBounded and RemoteChangeNotPublished state what it keeps |
| Arbiter.ScheduleGate | esp_code/src/main.cpp:1036-1039 | the once-per-second gate on the two `millis()` readings (ArbiterProofs.ScheduleGateOncePerSecond, BlinkDelaysGate) |
| Arbiter.LoopStep | esp_code/src/main.cpp:952-1042 | rotary, button and gate in the source's order; Firmware.Controller.Loop has its effect and ArbiterProofs.LoopKeepsBounded states what it keeps |
| Arbiter.Turn | esp_code/src/main.cpp:954-977 | the rotary never touches the click decoder or the tick time |
| Arbiter.Release | esp_code/src/main.cpp:991-1003 | a release keeps the store and the edge fields; the count stays below 256 |
| Arbiter.Edge | esp_code/src/main.cpp:980-1006 | the edge detector keeps the store; the count stays below 256 |
| Arbiter.Resolve | esp_code/src/main.cpp:1008-1033 | resolution keeps the store and never raises the click count |
| Arbiter.Clicked | esp_code/src/main.cpp:1009-1032 | acting on a resolved count keeps the store, the decoder and the tick time |
| Arbiter.Press | esp_code/src/main.cpp:980-1033 | the button path keeps every recorded time at or before `now` |
| ArbiterProofs.TickWithoutClock | esp_code/src/main.cpp:711-718 | without a local time, a tick changes nothing |
| ArbiterProofs.UpdateSuppressionOnlyFlags | esp_code/src/main.cpp:521-537 | the suppression update touches only the two suppression flags |
| ArbiterProofs.EvaluateKeepsSuppression | esp_code/src/main.cpp:726-891 | after the update, the tick never touches suppression flags or snapshots |
| ArbiterProofs.TickSuppressionLifetime | esp_code/src/main.cpp:521-537 | a tick never sets a suppression or changes a snapshot; a set suppression survives iff now is inside its snapshot's window (routine: start–end, alarm: start–wake) |
| ArbiterProofs.PointAlarmSuppressionNeverExpires | esp_code/src/main.cpp:530-536 | a suppressed alarm with start == wake stays suppressed at every minute, because the window test wraps |
| ArbiterProofs.SuppressedFirstMatchEndsTick | esp_code/src/main.cpp:751-755 | if the first matching routine is the suppressed one, the tick returns there: lamp, events and slots unchanged |
| ArbiterProofs.RoutineApplied | esp_code/src/main.cpp:757-794 | an applied routine turns the lamp on with its brightness and mode. It records its id and minute. The original state is saved only when no routine was active. It renders and publishes, and the alarm slot stays |
| ArbiterProofs.RoutineNotReapplied | esp_code/src/main.cpp:759-766 | the same routine in the same minute is not re-applied |
| ArbiterProofs.RoutineEndKeepsLamp | esp_code/src/main.cpp:798-810 | a routine end clears its markers, keeps the lamp and output as the routine left them, publishes, and leaves alarms alone |
| ArbiterProofs.AlarmsOnlyWithoutRoutine | esp_code/src/main.cpp:813 | while a routine matches or is marked active, the alarm slot is untouched |
| ArbiterProofs.AlarmApplied | esp_code/src/main.cpp:822-866 | an applied alarm had a non-wrapping window holding now. The lamp goes on in both channels at the truncated ramp level (0..15). The markers are set, and the original is saved only on the first application. The output is written for that level in both channels and one state update is broadcast |
| ArbiterProofs.AlarmEndLocksFullBrightness | esp_code/src/main.cpp:872-889 | an alarm end leaves the lamp on at 15 in both channels, writes full duty to both, clears its markers and broadcasts one state update |
| ArbiterProofs.IdleTick | esp_code/src/main.cpp:708-891 | with nothing matching and nothing active, a tick only expires suppressions |
| ArbiterProofs.OverrideSuppression | esp_code/src/main.cpp:623-653 | an active routine (alarm) becomes suppressed iff its id is found in the store, with exactly that record as snapshot; inactive ones keep their suppression |
| ArbiterProofs.OverrideReleasesAutomation | esp_code/src/main.cpp:616-670 | the override clears the active markers and disables an active sun-sync with "disabled by hardware" set. It keeps the lamp, and releases the manual lock |
| ArbiterProofs.OverrideBroadcasts | esp_code/src/main.cpp:655-669 | the override's broadcasts, in order: the hardware sun-sync echo (only if it was active), a state update, then the override event naming what was disabled; the output is re-rendered |
| ArbiterProofs.BounceIgnored | esp_code/src/main.cpp:987 | an edge within 35 ms of the last accepted one is ignored |
| ArbiterProofs.SuppressIgnoresClicks | esp_code/src/main.cpp:616-659 | the override stages neither read nor write the click decoder |
| ArbiterProofs.PublishRenderIgnoreClicks | esp_code/src/main.cpp:131-191 | rendering and publishing neither read nor write the click decoder |
| ArbiterProofs.OverrideIgnoresClicks | esp_code/src/main.cpp:616-670 | the override neither reads nor writes the click decoder |
| ArbiterProofs.ThirdClickOverridesImmediately | esp_code/src/main.cpp:999-1002 | a third release within 600 ms of the first runs the override at once and zeroes the count |
| ArbiterProofs.LockedClicksIgnored | esp_code/src/main.cpp:1012-1031 | while locked, a resolved single or double click changes neither the lamp, the output nor the broadcasts |
| ArbiterProofs.UnlockedClicksApplied | esp_code/src/main.cpp:1008-1033 | unlocked, a single click toggles and a double click advances the mode; the result is rendered and published, and the count is zeroed |
| ArbiterProofs.NoResolutionInsideWindow | esp_code/src/main.cpp:1008 | nothing is resolved while 600 ms have not passed since the last release |
| ArbiterProofs.PressRecorded | esp_code/src/main.cpp:987-1006 | an accepted press only records the edge |
| ArbiterProofs.ReleaseCounted | esp_code/src/main.cpp:991-998 | an accepted first or second release only counts the click; the first stamps `firstClickTime` |
| ArbiterProofs.OneClick | esp_code/src/main.cpp:980-1006 | a debounced press and release with fewer than two clicks counted adds one click |
| ArbiterProofs.TwoClicks | esp_code/src/main.cpp:980-1006 | two clicks 50 ms apart from an idle decoder leave count 2 and the lamp unchanged |
| ArbiterProofs.TripleClickGesture | esp_code/src/main.cpp:991-1002 | after two clicks, a third within 600 ms of the first is the override, with the count back at 0 |
| ArbiterProofs.SingleClickGesture | esp_code/src/main.cpp:980-1033 | one click and then silence toggles an unlocked lamp, only once the window has closed |
| ArbiterProofs.DoubleClickGesture | esp_code/src/main.cpp:980-1033 | two clicks and then silence advance the mode of an unlocked lamp, only once the window has closed |
| ArbiterProofs.TurnClamps | esp_code/src/main.cpp:954-977 | locked, the dial only consumes the position; unlocked, brightness moves by the delta, clamped to [isOn ? 1 : 0, 15] |
| ArbiterProofs.RemoteLampClamps | esp_code/src/main.cpp:225-258 | app keys ignore the lock. Brightness is clamped to 0..15, and to at least 1 if the lamp was on when it was read. Mode is clamped to 0..2. Absent keys change nothing |
| ArbiterProofs.RemoteChangeNotPublished | esp_code/src/main.cpp:225-298 | a lamp change from the app is rendered but not broadcast back |
| ArbiterProofs.RemoteFloorReadBeforeOn | esp_code/src/main.cpp:229-258 | brightness 0 together with on=true on an off lamp stores brightness 0, because the floor looks at the old `isOn` |
| ArbiterProofs.SunSyncFlags | esp_code/src/main.cpp:597-614 | the flags follow the message; "disabled by hardware" is set iff deactivated from hardware; a state update is sent iff the active flag changed |
| ArbiterProofs.RemoteKeepsBounded | esp_code/src/main.cpp:193-303 | a message keeps the store within 10 routines / 5 alarms and the count below 256 |
| ArbiterProofs.LoopKeepsBounded | esp_code/src/main.cpp:952-1042 | one loop pass keeps those bounds and every recorded time at or before the gate's last `millis()` reading |
| ArbiterProofs.PassKeepsScheduleCheck | esp_code/src/main.cpp:952-1033 | the rotary and button stages of a pass leave `lastScheduleCheck` as the last tick stored it |
| ArbiterProofs.ScheduleGateOncePerSecond | esp_code/src/main.cpp:1036-1039 | ticks are at least a second apart: after a tick storing `stamp1`, a later gate whose reading is under 1000 ms past `stamp1` changes nothing, and one at least 1000 ms past ticks and stores its own second reading |
| ArbiterProofs.BlinkDelaysGate | esp_code/src/main.cpp:1036-1039 | corollary: after a tick, a pass still inside the second ticks when the triple-click blink (`blinkLamp(2, 150)`: two blinks of 150 ms off and 150 ms on) moves the gate's reading past it, and does not without the blink |
| ArbiterProofs.SyncKeepsUniqueIds | esp_code/src/main.cpp:306-427 | routine and alarm upserts and deletes keep ids unique |
| ArbiterProofs.FullSyncTruncates | esp_code/src/main.cpp:429-471 | a full sync keeps the first 10 routines and 5 alarms in order and always reports success |
| ArbiterProofs.EleventhRoutineRefused | esp_code/src/main.cpp:322-349 | an eleventh distinct routine is refused with "Storage full" and the store stays |
| Firmware.Controller.constructor | esp_code/src/main.cpp:38-130 | the globals' initial values, with the output of setup's final applyOutput |
| Firmware.Controller.ApplyOutput | esp_code/src/main.cpp:153-191 | writes the duties of the lamp state and nothing else |
| Firmware.Controller.IsManualControlLocked | esp_code/src/main.cpp:486-488 | locked iff a routine, an alarm or sun-sync is active |
| Firmware.Controller.SendStateUpdate | esp_code/src/main.cpp:131-151 | appends the state snapshot to the broadcasts |
| Firmware.Controller.SendSyncResponse | esp_code/src/main.cpp:473-484 | appends the response to the broadcasts |
| Firmware.Controller.SendSunSyncState | esp_code/src/main.cpp:564-576 | appends the sun-sync echo to the broadcasts |
| Firmware.Controller.BroadcastOverrideEvent | esp_code/src/main.cpp:578-595 | appends the override event with the current suppression flags |
| Firmware.Controller.BlinkLamp | esp_code/src/main.cpp:539-562 | net effect: the output is left at the lamp state's duties |
| Firmware.Controller.FindRoutineById | esp_code/src/main.cpp:490-498 | returns FindById on the live routines |
| Firmware.Controller.FindAlarmById | esp_code/src/main.cpp:500-508 | returns FindById on the live alarms |
| Firmware.Controller.HandleRoutineSync | esp_code/src/main.cpp:306-370 | the array handler has the effect of Arbiter.RoutineSync |
| Firmware.Controller.HandleAlarmSync | esp_code/src/main.cpp:372-427 | the array handler has the effect of Arbiter.AlarmSync |
| Firmware.Controller.HandleFullSync | esp_code/src/main.cpp:429-471 | the array handler has the effect of Arbiter.FullSync |
| Firmware.Controller.HandleTimeSync | esp_code/src/main.cpp:672-706 | answers as Arbiter.TimeSync does |
| Firmware.Controller.HandleSunSyncState | esp_code/src/main.cpp:597-614 | has the effect of Arbiter.SunSyncSet |
| Firmware.Controller.UpdateSuppressionWindows | esp_code/src/main.cpp:521-537 | has the effect of Arbiter.UpdateSuppression |
| Firmware.Controller.CheckSchedule | esp_code/src/main.cpp:708-891 | has the effect of Arbiter.Tick |
| Firmware.Controller.EvaluateSchedule | esp_code/src/main.cpp:726-891 | has the effect of Arbiter.Evaluate |
| Firmware.Controller.ApplyRoutineAt | esp_code/src/main.cpp:751-794 | has the effect of Arbiter.RoutineHit |
| Firmware.Controller.EndRoutine | esp_code/src/main.cpp:798-810 | has the effect of Arbiter.EndRoutine |
| Firmware.Controller.CheckAlarms | esp_code/src/main.cpp:813-869 | has the effect of Arbiter.AlarmScan |
| Firmware.Controller.ApplyAlarmAt | esp_code/src/main.cpp:822-867 | has the effect of Arbiter.AlarmHit |
| Firmware.Controller.EndAlarm | esp_code/src/main.cpp:872-889 | has the effect of Arbiter.EndAlarm |
| Firmware.Controller.HandleTripleClick | esp_code/src/main.cpp:616-670 | has the effect of Arbiter.Override |
| Firmware.Controller.SuppressActiveRoutine | esp_code/src/main.cpp:623-637 | has the effect of Arbiter.SuppressRoutine |
| Firmware.Controller.SuppressActiveAlarm | esp_code/src/main.cpp:639-653 | has the effect of Arbiter.SuppressAlarm |
| Firmware.Controller.DisableSunSyncByHardware | esp_code/src/main.cpp:655-659 | has the effect of Arbiter.DisableSunSync |
| Firmware.Controller.OnConnect | esp_code/src/main.cpp:196-201 | a new client gets a state update |
| Firmware.Controller.OnWSMsg | esp_code/src/main.cpp:193-303 | has the effect of Arbiter.Remote |
| Firmware.Controller.ApplyLampKeys | esp_code/src/main.cpp:225-258 | sets the lamp to RemoteLamp; `stateChanged` iff the lamp changed |
| Firmware.Controller.ApplyBrightnessKey | esp_code/src/main.cpp:225-240 | applies BrightnessKey; reports a change iff the brightness changed |
| Firmware.Controller.ApplyModeKey | esp_code/src/main.cpp:241-249 | applies ModeKey; reports a change iff the mode changed |
| Firmware.Controller.ApplyOnKey | esp_code/src/main.cpp:250-258 | applies OnKey; reports a change iff `isOn` changed |
| Firmware.Controller.DispatchCommand | esp_code/src/main.cpp:268-293 | has the effect of Arbiter.Dispatch |
| Firmware.Controller.ReadRotary | esp_code/src/main.cpp:954-977 | has the effect of Arbiter.Turn |
| Firmware.Controller.ReadButton | esp_code/src/main.cpp:980-1006 | has the effect of Arbiter.Edge |
| Firmware.Controller.CountRelease | esp_code/src/main.cpp:991-1003 | has the effect of Arbiter.Release |
| Firmware.Controller.ResolveClicks | esp_code/src/main.cpp:1008-1033 | has the effect of Arbiter.Resolve |
| Firmware.Controller.HandleClicks | esp_code/src/main.cpp:1011-1032 | has the effect of Arbiter.Clicked |
| Firmware.Controller.Loop | esp_code/src/main.cpp:952-1042 | one pass, given the button's `now` and the gate's two later `millis()` readings, has the effect of Arbiter.LoopStep |
| Firmware.Controller.GateSchedule | esp_code/src/main.cpp:1036-1039 | tests the gate's own `millis()` reading, stores the second reading and runs the schedule, with the effect of Arbiter.ScheduleGate |
| Prototype.Render | esp_code/src/main_test2.cpp:61-98 | writes ChannelsNoFloor of the light and changes nothing else |
| Prototype.Publish | esp_code/src/main_test2.cpp:46-59 | the broadcasts grow by one, keep their old prefix and end with the current light; light, decoder, rotary and output are unchanged |
| Prototype.Initial | esp_code/src/main_test2.cpp:33-43 | on, brightness 0, both; dark output after setup; nothing sent |
| Prototype.Release | esp_code/src/main_test2.cpp:235-248 | a release keeps the edge fields and the rotary; the `uint8_t` count stays below 256 |
| Prototype.Edge | esp_code/src/main_test2.cpp:224-251 | the edge detector keeps every time at or before now |
| Prototype.Settle | esp_code/src/main_test2.cpp:254-260 | the single-click check keeps every time at or before now |
| Prototype.RenderLevels | esp_code/src/main_test2.cpp:61-98 | exact duties 15 - brightness per mode, dark at brightness 0, all within 0..15 |
| Prototype.RemoteKeysApplied | esp_code/src/main_test2.cpp:132-163 | present keys set their clamped fields, a change is rendered, nothing is published |
| Prototype.TurnClamps | esp_code/src/main_test2.cpp:208-221 | brightness moves by the delta clamped to 0..15, with no floor and no lock; a change is rendered and published |
| Prototype.DebounceIgnores | esp_code/src/main_test2.cpp:231 | an unchanged level or an edge within 35 ms is ignored |
| Prototype.PressRecorded | esp_code/src/main_test2.cpp:231-251 | an accepted press only records the edge |
| Prototype.DoubleClickCycles | esp_code/src/main_test2.cpp:235-247 | a second release within 500 ms of the first advances the mode, renders, publishes and zeroes the count |
| Prototype.SingleClickToggles | esp_code/src/main_test2.cpp:254-260 | one click older than 500 ms toggles, renders and publishes; a younger one waits |
| Prototype.StepKeepsRange | esp_code/src/main_test2.cpp:206-263 | the loop as written keeps brightness, mode and count in range |
| Prototype.StepFixedKeepsRange | esp_code/src/main_test2.cpp:206-263 | the corrected loop keeps the same ranges |
| Prototype.RemoteKeepsRange | esp_code/src/main_test2.cpp:132-163 | a message keeps the ranges |
| Prototype.LateSecondReleaseAsWritten | esp_code/src/main_test2.cpp:235-260 | a second release 501 ms after the first leaves count 2 and the light unchanged |
| Prototype.WedgedDecoderIgnoresClicks | esp_code/src/main_test2.cpp:235-260 | as written, with a count from 2 to 254, no loop pass ever changes the light, the output or the broadcasts |
| Prototype.FixedCountAtMostOne | esp_code/src/main_test2.cpp:235-260 | with the single-click check before the edge detector, the count never exceeds 1 |
| Prototype.LateSecondReleaseFixed | esp_code/src/main_test2.cpp:235-260 | corrected, the same late release first toggles the pending single click and then starts a new click |
| Prototype.BrightnessKey | esp_code/src/main_test2.cpp:132-140 | a present brightness is clamped to 0..15, with no floor (Prototype.RemoteKeysApplied) |
| Prototype.ModeKey | esp_code/src/main_test2.cpp:141-149 | a present mode is clamped to 0..2 (Prototype.RemoteKeysApplied) |
| Prototype.OnKey | esp_code/src/main_test2.cpp:150-158 | a present `on` sets `isOn` (Prototype.RemoteKeysApplied) |
| Prototype.Remote | esp_code/src/main_test2.cpp:132-163 | the three keys without a floor, rendering on a change (Prototype.RemoteKeysApplied, RemoteKeepsRange) |
| Prototype.Turn | esp_code/src/main_test2.cpp:208-221 | one rotary step (Prototype.TurnClamps) |
| Prototype.Step | esp_code/src/main_test2.cpp:206-263 | the loop as written: rotary, edge detector, then single-click check (Prototype.StepKeepsRange, LateSecondReleaseAsWritten, WedgedDecoderIgnoresClicks) |
| Prototype.StepFixed | esp_code/src/main_test2.cpp:206-263 | the corrected loop with the single-click check first (Prototype.StepFixedKeepsRange, FixedCountAtMostOne, LateSecondReleaseFixed) |
| Prototype.Controller.constructor | esp_code/src/main_test2.cpp:33-43 | the globals after setup, as Prototype.Initial |
| Prototype.Controller.ApplyOutput | esp_code/src/main_test2.cpp:61-98 | has the effect of Prototype.Render |
| Prototype.Controller.SendStateUpdate | esp_code/src/main_test2.cpp:46-59 | has the effect of Prototype.Publish |
| Prototype.Controller.OnConnect | esp_code/src/main_test2.cpp:103-108 | a new client gets a state update |
| Prototype.Controller.OnWSMsg | esp_code/src/main_test2.cpp:100-168 | has the effect of Prototype.Remote and keeps the ranges |
| Prototype.Controller.ReadRotary | esp_code/src/main_test2.cpp:208-221 | has the effect of Prototype.Turn |
| Prototype.Controller.ReadButton | esp_code/src/main_test2.cpp:224-251 | has the effect of Prototype.Edge |
| Prototype.Controller.CheckSingleClick | esp_code/src/main_test2.cpp:254-260 | has the effect of Prototype.Settle |
| Prototype.Controller.Loop | esp_code/src/main_test2.cpp:206-263 | one pass in the source's order (rotary, edge detector, single-click check) has the effect of Prototype.Step and keeps the ranges |
| Prototype.Controller.LoopFixed | esp_code/src/main_test2.cpp:206-263 | the corrected pass, with the single-click check before the edge detector, has the effect of Prototype.StepFixed and keeps the ranges |
| TwoChannel.Initial | src/main.cpp:83-90 | both duties at 128, on, outputs not yet written |
| TwoChannel.NormalTurn | src/main.cpp:185-193 | the unheld step of both duties (TwoChannel.NormalTurnDirection, DownTurnCanRaiseB, TurnsUpSaturate, TurnKeepsRange) |
| TwoChannel.HeldTurn | src/main.cpp:194-203 | the held step in opposite directions (TwoChannel.HeldTurnOpposes, TurnKeepsRange) |
| TwoChannel.Classify | src/main.cpp:218-256 | the press-duration bands (TwoChannel.ClassifyBands) |
| TwoChannel.Preset | src/main.cpp:230-244 | the duties of each colour preset (TwoChannel.LongPressCycles) |
| TwoChannel.Turn | src/main.cpp:181-207 | one encoder step, normal or held, written to the outputs (TwoChannel.TurnKeepsRange, TurnLightsWhileOff) |
| TwoChannel.OnRelease | src/main.cpp:218-256 | the action of a release by its duration (TwoChannel.LongPressCycles, ShortPressToggles, OtherPressesKeepLamp) |
| TwoChannel.Button | src/main.cpp:209-258 | the press/release edge (TwoChannel.PressThenRelease) |
| TwoChannel.Step | src/main.cpp:175-261 | one loop pass (TwoChannel.StepKeepsRange) |
| TwoChannel.Sliders | src/main.cpp:115-122 | slider values written straight to the outputs (TwoChannel.SlidersAreTransient) |
| TwoChannel.TurnKeepsRange | src/main.cpp:181-207 | normal and held turns keep both duties in 0..255 |
| TwoChannel.NormalTurnDirection | src/main.cpp:185-193 | up raises both duties by 5, saturating at 255, while A is below 255. Down lowers A while it is above 15, and leaves both at least 15. Otherwise nothing moves |
| TwoChannel.DownTurnCanRaiseB | src/main.cpp:190-192 | a down turn with A above 15 and B below 20 sets B to exactly 15, so a B below 15 rises |
| TwoChannel.HeldTurnOpposes | src/main.cpp:194-203 | a held turn moves A and B a step in opposite directions, each clamped to 0..255 |
| TwoChannel.TurnsUpSaturate | src/main.cpp:185-188 | n up-steps reach min(255, a + 5n) |
| TwoChannel.ClassifyBands | src/main.cpp:218-256 | ≥ 5000 ms starts the portal, 1500–4999 ms is a long press, < 500 ms a short press, and 500–1499 ms does nothing |
| TwoChannel.LongPressCycles | src/main.cpp:230-244 | a long press advances the preset state mod 3, sets its duties, turns on and writes them; three return to the start |
| TwoChannel.ShortPressToggles | src/main.cpp:245-255 | a short press toggles and writes the duties or zeros; two restore `isOn` |
| TwoChannel.OtherPressesKeepLamp | src/main.cpp:218-229 | a portal or dead-band press leaves the lamp; the dead band changes nothing at all |
| TwoChannel.PressThenRelease | src/main.cpp:212-258 | a press stamps its time, and the release acts on the elapsed duration |
| TwoChannel.TurnLightsWhileOff | src/main.cpp:204-205 | a turn writes the duties even while the lamp is off |
| TwoChannel.SlidersAreTransient | src/main.cpp:115-122 | slider messages leave the dial and `isOn`, so the next turn starts from the stored duties as if no slider had moved |
| TwoChannel.StepKeepsRange | src/main.cpp:175-261 | one loop pass keeps duties in 0..255 and the preset state in 0..2 |
| TwoChannel.Sketch.constructor | src/main.cpp:83-90 | the globals' initial values, as TwoChannel.Initial |
| TwoChannel.Sketch.ReadRotary | src/main.cpp:181-207 | has the effect of TwoChannel.Turn |
| TwoChannel.Sketch.Release | src/main.cpp:218-256 | has the effect of TwoChannel.OnRelease |
| TwoChannel.Sketch.ReadButton | src/main.cpp:209-258 | has the effect of TwoChannel.Button |
| TwoChannel.Sketch.Loop | src/main.cpp:175-261 | one pass has the effect of TwoChannel.Step and keeps the ranges |
| TwoChannel.Sketch.OnWSMsg | src/main.cpp:115-122 | slider messages write the duties directly, leaving the stored brightness alone |
| EnvLoader.IsSpace | esp_code/load_env.py:13 | the characters Python's `str.isspace` accepts, the set `strip` removes (EnvLoader.TrimStart, TrimEnd, Strip) |
| EnvLoader.TrimStart | esp_code/load_env.py:13 | removes exactly a whitespace prefix, so the result starts with a non-space |
| EnvLoader.TrimEnd | esp_code/load_env.py:13 | removes exactly a whitespace suffix, so the result ends with a non-space |
| EnvLoader.Strip | esp_code/load_env.py:13 | a non-empty result starts and ends with a non-space |
| EnvLoader.StripSubset | esp_code/load_env.py:13 | stripping adds no characters |
| EnvLoader.StripIdempotent | esp_code/load_env.py:13 | stripping twice equals stripping once |
| EnvLoader.StripLineHasNoBreak | esp_code/load_env.py:12-13 | a file line (no break except a trailing one) has no line feed after stripping |
| EnvLoader.ParseLine | esp_code/load_env.py:12-19 | one line's entry or a skip (EnvLoader.ParseLineSkips, ParseLineSplitsAtFirstEquals, ParseLineValueHasNoBreak) |
| EnvLoader.IndexOf | esp_code/load_env.py:18 | the position of the first `=`, where `split("=", 1)` cuts: it holds the character and no earlier position does |
| EnvLoader.Insert | esp_code/load_env.py:19 | one dictionary assignment, or nothing for a skipped line (EnvLoader.CollectKeys, CollectLastWins) |
| EnvLoader.Collect | esp_code/load_env.py:11-19 | the assignments in line order (EnvLoader.CollectKeys, CollectLastWins, CollectValuesHaveNoBreak) |
| EnvLoader.ReadEnvSpec | esp_code/load_env.py:9-20 | the dictionary `read_env` returns (EnvLoader.ReadEnv, ReadEnvKeys, LastDuplicateWins, ReadEnvValuesHaveNoBreak) |
| EnvLoader.Replace | esp_code/load_env.py:24 | `str.replace` of one character (EnvLoader.ReplaceAppend, EscapeIsOnePass) |
| EnvLoader.Escape | esp_code/load_env.py:23-24 | backslashes, then quotes, escaped (EnvLoader.EscapeIsOnePass, EscapeRoundTrip, QuotesFirstBreaksLiteral) |
| EnvLoader.Credentials | esp_code/load_env.py:58-63 | `secrets.get` of both keys and the `not ssid or not password` test: both present and non-empty (EnvLoader.AbortsWithoutCredentials) |
| EnvLoader.Configure | esp_code/load_env.py:56-66 | the abort or the header's two literals (EnvLoader.AbortsWithoutCredentials, HeaderRoundTrip) |
| EnvLoader.ParseAll | esp_code/load_env.py:12-19 | one parse result per line, in order |
| EnvLoader.ReadEnvSpecAppend | esp_code/load_env.py:12-19 | reading one more line inserts that line's entry |
| EnvLoader.ReadEnv | esp_code/load_env.py:9-20 | the loop builds the dictionary that ReadEnvSpec defines |
| EnvLoader.ParseLineSkips | esp_code/load_env.py:14-17 | a line is skipped iff it strips to empty, starts with '#', or has no '=' |
| EnvLoader.ParseLineSplitsAtFirstEquals | esp_code/load_env.py:18-19 | the key and value are the stripped halves around the first '=' |
| EnvLoader.CollectKeys | esp_code/load_env.py:9-20 | a key is in the dictionary iff some entry sets it |
| EnvLoader.CollectLastWins | esp_code/load_env.py:19 | an entry that no later entry overrides keeps its value |
| EnvLoader.ReadEnvKeys | esp_code/load_env.py:9-20 | a key is read iff some line sets it |
| EnvLoader.LastDuplicateWins | esp_code/load_env.py:19 | the last line setting a key gives its value |
| EnvLoader.CollectValuesHaveNoBreak | esp_code/load_env.py:9-20 | values without line feeds stay without them in the dictionary |
| EnvLoader.ParseLineValueHasNoBreak | esp_code/load_env.py:13-19 | a parsed file line's value has no line feed |
| EnvLoader.ReadEnvValuesHaveNoBreak | esp_code/load_env.py:9-20 | no value read from a file holds a line feed |
| EnvLoader.EscapeIsOnePass | esp_code/load_env.py:23-24 | the two replacements amount to escaping each character once |
| EnvLoader.UnquoteEscapeOnePass | esp_code/load_env.py:23-24 | a C compiler reads the one-pass escape back as the original |
| EnvLoader.EscapeRoundTrip | esp_code/load_env.py:23-24 | `escape` of a value without line feeds reads back as that value in a C string literal |
| EnvLoader.QuotesFirstBreaksLiteral | esp_code/load_env.py:23-24 | escaping quotes before backslashes would break the literal, while the backslash-first order is right |
| EnvLoader.AbortsWithoutCredentials | esp_code/load_env.py:56-63 | the script stops before the header iff a credential is missing or empty |
| EnvLoader.HeaderRoundTrip | esp_code/load_env.py:28-32 | the header's literals read back as the SSID and password from `.env` |

## Left out

- WiFi/WiFiManager, mDNS, the WebSocket server and JSON parsing are not modelled. A message is its decoded keys (`Arbiter.Message`, `Prototype.Keys`), and a broadcast is an event value.
- Reading the clock is not modelled. `getLocalTime` becomes a parameter, either a minute of the day or `None`. `millis()` becomes `now` and never wraps.
- Setting the clock is left out. `handleTimeSync` is modelled only by its reply; the clock it sets is outside the model.
- Arbiter.Tick: the alarm ramp computes `(int)(progress * 15)` in `float`. The model uses the integer floor of 15·elapsed/duration, which can differ from the float result by rounding.
- Firmware.Controller.BlinkLamp: the delays, `ledcRead` and the intermediate duties are left out. Only the final output is stated.
- Timestamps (`timestamp_ms`) in the broadcasts and all `Serial` logging are left out.
- The `int` overflow of an encoder delta and of times is not modelled; integers are unbounded.
- The `duty` values written by `ledcWrite` are not clamped to the PWM resolution.
- The EEPROM and the WiFi portal started by a 5 s press in `src/main.cpp` are left out. The portal is only counted.
- In `src/main.cpp`, the button is sampled once per pass. The source reads it twice, once for the held turn and once for the edge.
- Prototype.Settle: the source re-reads `millis()` for the single-click check. The model uses the pass's `now`.
- Prototype.Controller.Loop: it runs the order as written; the corrected order is `Prototype.Controller.LoopFixed`, see Findings.
- Arbiter.ScheduleGate: the gate's two `millis()` readings are parameters with `now ≤ check ≤ stamp`. How far the button code's blink delays move them on is not tied to the blink durations.
- Arbiter.RoutineSync: a message without `action` passes a null pointer to `strcmp` (esp_code/src/main.cpp:307-309), which is undefined behaviour. The model treats it as an unknown action, which changes nothing.
- Arbiter.AlarmSync: the same null `action` at esp_code/src/main.cpp:373-375 is likewise treated as an unknown action.
- Schedule.AlarmLevel: an alarm with duration 0, at its start minute, computes 0.0f/0.0f, a NaN, and then casts it to `int`, which is undefined (esp_code/src/main.cpp:854-858). The model returns level 0 there.
- Arbiter.Remote: the async web server runs `onWSMsg` on its own task, concurrently with `loop()`. The model applies each message atomically between loop passes.
- load_env: `write_header`'s file writes and the `env.Exit` call are left out. The script's result is an `Outcome` holding the two literal bodies.
- load_env: the file is given as its lines, each ending at most in one line break, as Python's iteration yields them.
- EnvLoader.EscapeRoundTrip: it holds only for values without a line feed. A `.env` value never has one (`EnvLoader.ReadEnvValuesHaveNoBreak`).
- Python's `str.strip` whitespace set is modelled as a fixed list of characters, which is all `EnvLoader.IsSpace` covers.

## Findings

| source | as written | input that shows it | evidently intended | confidence | as-written member | corrected member |
|---|---|---|---|---|---|---|
| esp_code/src/main_test2.cpp:235-260 | the single-click check runs after the edge detector, so a second release accepted just after the 500 ms window raises `clickCount` to 2. Neither branch then fires again until the `uint8_t` wraps, and every later click is lost | release at 1000 ms, press at 1400 ms, release at 1501 ms | the stale single click resolves before the new click is counted, so the count never exceeds 1 | not executed; follows from the code paths | Prototype.LateSecondReleaseAsWritten, Prototype.WedgedDecoderIgnoresClicks | Prototype.StepFixed, Prototype.Controller.LoopFixed, Prototype.FixedCountAtMostOne, Prototype.LateSecondReleaseFixed |
