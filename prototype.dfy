/** The earlier revision of the lamp firmware, esp_code/src/main_test2.cpp:
    one lamp (on, brightness 0..15, mode warm/white/both), an output mapper
    without a brightness floor, remote keys that only re-render, a rotary
    encoder that adjusts brightness with no lock, and a click decoder where
    a second release within 500 ms of the first is a double click (next
    mode) and a lone release becomes a single click (toggle) once 500 ms
    have passed since it. */
module Prototype {
  import opened Wrappers
  import opened Arduino
  import opened Output

  /** The double-click window, `DOUBLE_CLICK_MS`. */
  const DOUBLE_CLICK_MS: nat := 500
  /** The debounce time, `DEBOUNCE_MS`. */
  const DEBOUNCE_MS: nat := 35
  /** `clickCount` is a `uint8_t`. */
  const CLICK_COUNT_MODULUS: nat := 256

  /** The globals `isOn`, `brightness` and `mode`. */
  datatype Light = Light(isOn: bool, brightness: int, mode: int)

  /** The click decoder: `clickCount`, `firstClickTime` and the statics
      `prevPressed` and `lastChange` of `loop`. */
  datatype Decoder = Decoder(count: nat, firstClickTime: nat, prevPressed: bool, lastChange: nat)

  /** The whole state: the light, the decoder, the static `lastPos` of the
      rotary, the two duty levels last written and the state updates sent
      to the app so far. */
  datatype Proto = Proto(light: Light, dec: Decoder, lastPos: int, out: (int, int), sent: seq<Light>)

  /** The keys of a decoded app message: each is present only when it has
      the type `onWSMsg` tests for. */
  datatype Keys = Keys(brightness: Option<int>, mode: Option<int>, on: Option<bool>)

  /** Brightness on the 0..15 scale and one of the three modes. */
  predicate InRange(l: Light) {
    0 <= l.brightness <= 15 && MODE_WARM <= l.mode <= MODE_BOTH
  }

  predicate WellFormed(p: Proto) {
    InRange(p.light) && p.dec.count < CLICK_COUNT_MODULUS
  }

  /** The stored timestamps are not in the future of `now` (`millis()` is
      taken to be monotone and not to wrap). */
  predicate TimesNotAfter(p: Proto, now: nat) {
    p.dec.firstClickTime <= now && p.dec.lastChange <= now
  }

  /** `applyOutput`. */
  function Render(p: Proto): (r: Proto)
    ensures r == p.(out := r.out)
    ensures r.out == ChannelsNoFloor(p.light.isOn, p.light.brightness, p.light.mode)
  {
    p.(out := ChannelsNoFloor(p.light.isOn, p.light.brightness, p.light.mode))
  }

  /** `sendStateUpdate`: the current (brightness, mode, on) goes to every
      client. */
  function Publish(p: Proto): (r: Proto)
    ensures |r.sent| == |p.sent| + 1 && r.sent[..|p.sent|] == p.sent && r.sent[|p.sent|] == p.light
    ensures r.light == p.light && r.dec == p.dec && r.lastPos == p.lastPos && r.out == p.out
  {
    p.(sent := p.sent + [p.light])
  }

  /** After `setup`: on, brightness 0, both channels, the decoder idle, the
      rotary at `pos` and the output rendered. */
  function Initial(pos: int): (p: Proto)
    ensures WellFormed(p) && p.sent == [] && p.lastPos == pos
    ensures p.light == Light(true, 0, MODE_BOTH) && p.out == (OFF, OFF)
  {
    Render(Proto(Light(true, 0, MODE_BOTH), Decoder(0, 0, false, 0), pos, (OFF, OFF), []))
  }

  // ----- Remote keys -----

  function BrightnessKey(l: Light, b: Option<int>): Light {
    match b
    case None => l
    case Some(v) => l.(brightness := Constrain(v, 0, 15))
  }

  function ModeKey(l: Light, m: Option<int>): Light {
    match m
    case None => l
    case Some(v) => l.(mode := Constrain(v, MODE_WARM, MODE_BOTH))
  }

  function OnKey(l: Light, on: Option<bool>): Light {
    match on
    case None => l
    case Some(v) => l.(isOn := v)
  }

  /** The data branch of `onWSMsg`: the keys present set their fields
      (clamped), a change re-renders the output, and nothing is published
      back to the app. */
  function Remote(p: Proto, k: Keys): Proto {
    var l := OnKey(ModeKey(BrightnessKey(p.light, k.brightness), k.mode), k.on);
    if l != p.light then Render(p.(light := l)) else p
  }

  // ----- loop -----

  /** The rotary part of `loop`: the delta since the last position moves the
      brightness within 0..15, whatever the lamp shows; a change is rendered
      and published. */
  function Turn(p: Proto, pos: int): Proto {
    if pos != p.lastPos then
      var nb := Constrain(p.light.brightness + (pos - p.lastPos), 0, 15);
      var p1 := p.(lastPos := pos);
      if nb != p.light.brightness then Publish(Render(p1.(light := p1.light.(brightness := nb)))) else p1
    else p
  }

  /** The release branch of the edge detector: the click is counted, and a
      second one within `DOUBLE_CLICK_MS` of the first advances the mode,
      renders, publishes and zeroes the count. */
  function Release(p: Proto, now: nat): (r: Proto)
    requires TimesNotAfter(p, now)
    ensures TimesNotAfter(r, now) && r.lastPos == p.lastPos
    ensures r.dec.prevPressed == p.dec.prevPressed && r.dec.lastChange == p.dec.lastChange
    ensures r.dec.count < CLICK_COUNT_MODULUS
  {
    var d := p.dec;
    var first := if d.count == 0 then now else d.firstClickTime;
    var c := (d.count + 1) % CLICK_COUNT_MODULUS;
    var p1 := p.(dec := d.(count := c, firstClickTime := first));
    if c == 2 && now - first <= DOUBLE_CLICK_MS then
      Publish(Render(p1.(light := p1.light.(mode := NextMode(p1.light.mode))))).(dec := p1.dec.(count := 0))
    else p1
  }

  /** The edge detector of `loop`: a change of the button sample more than
      `DEBOUNCE_MS` after the last accepted one is accepted, a release is
      counted, and anything else is ignored. */
  function Edge(p: Proto, pressed: bool, now: nat): (r: Proto)
    requires TimesNotAfter(p, now)
    ensures TimesNotAfter(r, now) && r.lastPos == p.lastPos
  {
    var d := p.dec;
    if pressed != d.prevPressed && now - d.lastChange > DEBOUNCE_MS then
      var p1 := p.(dec := d.(lastChange := now));
      var p2 := if d.prevPressed && !pressed then Release(p1, now) else p1;
      p2.(dec := p2.dec.(prevPressed := pressed))
    else p
  }

  /** The single-click check at the end of `loop`: one counted release and
      more than `DOUBLE_CLICK_MS` since it toggle the lamp, render, publish
      and zero the count. */
  function Settle(p: Proto, now: nat): (r: Proto)
    requires TimesNotAfter(p, now)
    ensures TimesNotAfter(r, now) && r.lastPos == p.lastPos
  {
    var d := p.dec;
    if d.count == 1 && now - d.firstClickTime > DOUBLE_CLICK_MS then
      Publish(Render(p.(light := p.light.(isOn := !p.light.isOn)))).(dec := d.(count := 0))
    else p
  }

  /** One pass of `loop` as written: rotary, edge detector, single-click
      check. */
  function Step(p: Proto, pos: int, pressed: bool, now: nat): Proto
    requires TimesNotAfter(p, now)
  {
    Settle(Edge(Turn(p, pos), pressed, now), now)
  }

  /** One pass of `loop` with the single-click check moved before the edge
      detector, so that a click whose window has closed is resolved before
      a later release can be counted with it. */
  function StepFixed(p: Proto, pos: int, pressed: bool, now: nat): Proto
    requires TimesNotAfter(p, now)
  {
    Edge(Settle(Turn(p, pos), now), pressed, now)
  }

  // ----- Properties -----

  /** `applyOutput` of this revision: off is dark, on renders
      `15 - brightness` on the channels of the mode, so brightness 0 is dark
      in every mode. */
  lemma RenderLevels(p: Proto)
    requires InRange(p.light)
    ensures var r := Render(p);
      (!p.light.isOn ==> r.out == (OFF, OFF)) &&
      (p.light.isOn && p.light.mode == MODE_WARM ==> r.out == (15 - p.light.brightness, OFF)) &&
      (p.light.isOn && p.light.mode == MODE_WHITE ==> r.out == (OFF, 15 - p.light.brightness)) &&
      (p.light.isOn && p.light.mode == MODE_BOTH ==> r.out == (15 - p.light.brightness, 15 - p.light.brightness)) &&
      (p.light.brightness == 0 ==> r.out == (OFF, OFF)) &&
      0 <= r.out.0 <= OFF && 0 <= r.out.1 <= OFF
  {
  }

  /** Remote keys: each present key sets its field, brightness clamped to
      0..15 (no floor while on) and mode to 0..2; absent keys change nothing;
      a change re-renders, no change leaves the output alone, and neither
      publishes nor touches the decoder or the rotary. */
  lemma RemoteKeysApplied(p: Proto, k: Keys)
    ensures var r := Remote(p, k);
      r.light.brightness == (if k.brightness.Some? then Constrain(k.brightness.value, 0, 15) else p.light.brightness) &&
      r.light.mode == (if k.mode.Some? then Constrain(k.mode.value, 0, 2) else p.light.mode) &&
      r.light.isOn == (if k.on.Some? then k.on.value else p.light.isOn) &&
      r.sent == p.sent && r.dec == p.dec && r.lastPos == p.lastPos &&
      (r.light != p.light ==> r.out == ChannelsNoFloor(r.light.isOn, r.light.brightness, r.light.mode)) &&
      (r.light == p.light ==> r.out == p.out)
  {
  }

  /** The rotary: brightness follows the delta clamped to 0..15 whether the
      lamp is on or off; a change is rendered and published once, no change
      publishes nothing; the decoder is not touched. */
  lemma TurnClamps(p: Proto, pos: int)
    requires pos != p.lastPos
    ensures var r := Turn(p, pos);
      r.lastPos == pos && r.dec == p.dec &&
      r.light == p.light.(brightness := Constrain(p.light.brightness + (pos - p.lastPos), 0, 15)) &&
      (r.light != p.light ==> r.sent == p.sent + [r.light] &&
                              r.out == ChannelsNoFloor(r.light.isOn, r.light.brightness, r.light.mode)) &&
      (r.light == p.light ==> r.sent == p.sent && r.out == p.out)
  {
  }

  /** A sample equal to the last accepted one, or one that comes within the
      debounce time, is ignored. */
  lemma DebounceIgnores(p: Proto, pressed: bool, now: nat)
    requires TimesNotAfter(p, now)
    requires pressed == p.dec.prevPressed || now - p.dec.lastChange <= DEBOUNCE_MS
    ensures Edge(p, pressed, now) == p
  {
  }

  /** An accepted press only records the edge. */
  lemma PressRecorded(p: Proto, now: nat)
    requires TimesNotAfter(p, now) && !p.dec.prevPressed && now - p.dec.lastChange > DEBOUNCE_MS
    ensures Edge(p, true, now) == p.(dec := p.dec.(prevPressed := true, lastChange := now))
  {
  }

  /** A double click: the second accepted release within 500 ms of the first
      advances the mode (warm, white, both, warm), renders and publishes it,
      and zeroes the count, at once. */
  lemma DoubleClickCycles(p: Proto, now: nat)
    requires TimesNotAfter(p, now) && p.dec.count == 1 && p.dec.prevPressed
    requires now - p.dec.lastChange > DEBOUNCE_MS && now - p.dec.firstClickTime <= DOUBLE_CLICK_MS
    ensures var r := Edge(p, false, now);
      r.light == p.light.(mode := NextMode(p.light.mode)) &&
      r.dec == Decoder(0, p.dec.firstClickTime, false, now) &&
      r.out == ChannelsNoFloor(r.light.isOn, r.light.brightness, r.light.mode) &&
      r.sent == p.sent + [r.light]
  {
  }

  /** A single click: once more than 500 ms have passed since a lone
      release, the lamp toggles, is rendered and published, and the count is
      zeroed; before that nothing happens. */
  lemma SingleClickToggles(p: Proto, now: nat)
    requires TimesNotAfter(p, now) && p.dec.count == 1
    ensures var r := Settle(p, now);
      (now - p.dec.firstClickTime > DOUBLE_CLICK_MS ==>
        r.light == p.light.(isOn := !p.light.isOn) && r.dec == p.dec.(count := 0) &&
        r.out == ChannelsNoFloor(r.light.isOn, r.light.brightness, r.light.mode) &&
        r.sent == p.sent + [r.light]) &&
      (now - p.dec.firstClickTime <= DOUBLE_CLICK_MS ==> r == p)
  {
  }

  /** Every pass of `loop` keeps brightness in 0..15 and the mode in 0..2. */
  lemma StepKeepsRange(p: Proto, pos: int, pressed: bool, now: nat)
    requires WellFormed(p) && TimesNotAfter(p, now)
    ensures WellFormed(Step(p, pos, pressed, now))
  {
  }

  /** So does every pass of the reordered `loop`. */
  lemma StepFixedKeepsRange(p: Proto, pos: int, pressed: bool, now: nat)
    requires WellFormed(p) && TimesNotAfter(p, now)
    ensures WellFormed(StepFixed(p, pos, pressed, now))
  {
  }

  /** And so does every remote message. */
  lemma RemoteKeepsRange(p: Proto, k: Keys)
    requires WellFormed(p)
    ensures WellFormed(Remote(p, k))
  {
  }

  // ----- The late second release (see README, Findings) -----

  /** As written, a second release accepted just after the window of the
      first (here: released at 1000, pressed at 1400, released at 1501) is
      counted as 2 but is no double click, and the single-click check only
      looks for a count of 1: the count is left at 2 and the lamp unchanged. */
  lemma LateSecondReleaseAsWritten(pos: int, l: Light, sent: seq<Light>, out: (int, int))
    ensures var p := Proto(l, Decoder(1, 1000, true, 1400), pos, out, sent);
      var r := Step(p, pos, false, 1501);
      r.dec.count == 2 && r.light == l && r.sent == sent
  {
    var p := Proto(l, Decoder(1, 1000, true, 1400), pos, out, sent);
    var p1 := p.(dec := Decoder(2, 1000, false, 1501));
    assert Edge(p, false, 1501) == p1;
    assert Settle(p1, 1501) == p1;
  }

  /** ... and from then on, as written, the button does nothing: while the
      count is between 2 and 254 no pass of `loop` with the dial at rest
      changes the light or publishes; each accepted release only adds one to
      the count, until the `uint8_t` wraps to 0. */
  lemma WedgedDecoderIgnoresClicks(p: Proto, pressed: bool, now: nat)
    requires TimesNotAfter(p, now) && 2 <= p.dec.count <= 254
    ensures var r := Step(p, p.lastPos, pressed, now);
      r.light == p.light && r.sent == p.sent && r.out == p.out &&
      (r.dec.count == p.dec.count || r.dec.count == p.dec.count + 1)
  {
  }

  /** With the single-click check first, the count never rests at 2 or
      more: a pass of `loop` that starts with at most one counted release
      ends with at most one. */
  lemma FixedCountAtMostOne(p: Proto, pos: int, pressed: bool, now: nat)
    requires TimesNotAfter(p, now) && p.dec.count <= 1
    ensures StepFixed(p, pos, pressed, now).dec.count <= 1
  {
  }

  /** With the single-click check first, the late release of
      `LateSecondReleaseAsWritten` resolves the pending single click (the
      lamp toggles and is published) and starts a new group of its own. */
  lemma LateSecondReleaseFixed(pos: int, l: Light, sent: seq<Light>, out: (int, int))
    ensures var p := Proto(l, Decoder(1, 1000, true, 1400), pos, out, sent);
      var r := StepFixed(p, pos, false, 1501);
      r.light == l.(isOn := !l.isOn) && r.sent == sent + [r.light] &&
      r.dec == Decoder(1, 1501, false, 1501)
  {
    var p := Proto(l, Decoder(1, 1000, true, 1400), pos, out, sent);
    var l1 := l.(isOn := !l.isOn);
    var p1 := Publish(Render(p.(light := l1))).(dec := Decoder(0, 1000, true, 1400));
    assert Settle(p, 1501) == p1;
    assert Edge(p1, false, 1501).dec == Decoder(1, 1501, false, 1501);
  }

  /** The globals of main_test2.cpp, updated in place by its handlers. */
  class Controller {
    var light: Light
    var dec: Decoder
    var lastPos: int
    var ch0: int
    var ch1: int
    var sent: seq<Light>

    ghost function Abs(): Proto
      reads this
    {
      Proto(light, dec, lastPos, (ch0, ch1), sent)
    }

    ghost predicate Valid()
      reads this
    {
      WellFormed(Abs())
    }

    /** `setup`, with the encoder at `pos` when `loop` first reads it. */
    constructor(pos: int)
      ensures Valid() && Abs() == Initial(pos)
    {
      light := Light(true, 0, MODE_BOTH);
      dec := Decoder(0, 0, false, 0);
      lastPos := pos;
      sent := [];
      ch0, ch1 := OFF, OFF;
      new;
      ApplyOutput();
    }

    /** `applyOutput`. */
    method ApplyOutput()
      modifies this`ch0, this`ch1
      ensures Abs() == Render(old(Abs()))
    {
      ch0, ch1 := 15, 15;
      if !light.isOn {
        return;
      }
      var inverted := 15 - light.brightness;
      if light.mode == MODE_WARM {
        ch0, ch1 := inverted, 15;
      } else if light.mode == MODE_WHITE {
        ch0, ch1 := 15, inverted;
      } else {
        ch0, ch1 := inverted, inverted;
      }
    }

    /** `sendStateUpdate`. */
    method SendStateUpdate()
      modifies this`sent
      ensures Abs() == Publish(old(Abs()))
    {
      sent := sent + [light];
    }

    /** The connect branch of `onWSMsg`. */
    method OnConnect()
      modifies this`sent
      ensures Abs() == Publish(old(Abs()))
    {
      SendStateUpdate();
    }

    /** The data branch of `onWSMsg`, with the message already decoded. */
    method OnWSMsg(k: Keys)
      requires Valid()
      modifies this`light, this`ch0, this`ch1
      ensures Valid() && Abs() == Remote(old(Abs()), k)
    {
      RemoteKeepsRange(Abs(), k);
      var stateChanged := false;
      if k.brightness.Some? {
        var nb := Constrain(k.brightness.value, 0, 15);
        if nb != light.brightness {
          light := light.(brightness := nb);
          stateChanged := true;
        }
      }
      if k.mode.Some? {
        var nm := Constrain(k.mode.value, 0, 2);
        if nm != light.mode {
          light := light.(mode := nm);
          stateChanged := true;
        }
      }
      if k.on.Some? {
        if k.on.value != light.isOn {
          light := light.(isOn := k.on.value);
          stateChanged := true;
        }
      }
      assert stateChanged <==> light != old(light);
      if stateChanged {
        ApplyOutput();
      }
    }

    /** The rotary part of `loop`. */
    method ReadRotary(pos: int)
      modifies this`light, this`lastPos, this`ch0, this`ch1, this`sent
      ensures Abs() == Turn(old(Abs()), pos)
    {
      if pos != lastPos {
        var delta := pos - lastPos;
        lastPos := pos;
        var nb := Constrain(light.brightness + delta, 0, 15);
        if nb != light.brightness {
          light := light.(brightness := nb);
          ApplyOutput();
          SendStateUpdate();
        }
      }
    }

    /** The edge detector of `loop`. */
    method ReadButton(pressed: bool, now: nat)
      requires TimesNotAfter(Abs(), now)
      modifies this`light, this`dec, this`ch0, this`ch1, this`sent
      ensures Abs() == Edge(old(Abs()), pressed, now)
    {
      if pressed != dec.prevPressed && now - dec.lastChange > DEBOUNCE_MS {
        var wasPressed := dec.prevPressed;
        dec := dec.(lastChange := now);
        if wasPressed && !pressed {
          if dec.count == 0 {
            dec := dec.(firstClickTime := now);
          }
          dec := dec.(count := (dec.count + 1) % CLICK_COUNT_MODULUS);
          if dec.count == 2 && now - dec.firstClickTime <= DOUBLE_CLICK_MS {
            light := light.(mode := NextMode(light.mode));
            ApplyOutput();
            SendStateUpdate();
            dec := dec.(count := 0);
          }
        }
        dec := dec.(prevPressed := pressed);
      }
    }

    /** The single-click check of `loop`. */
    method CheckSingleClick(now: nat)
      requires TimesNotAfter(Abs(), now)
      modifies this`light, this`dec, this`ch0, this`ch1, this`sent
      ensures Abs() == Settle(old(Abs()), now)
    {
      if dec.count == 1 && now - dec.firstClickTime > DOUBLE_CLICK_MS {
        light := light.(isOn := !light.isOn);
        ApplyOutput();
        SendStateUpdate();
        dec := dec.(count := 0);
      }
    }

    /** One pass of `loop` as written: rotary, edge detector, then the
        single-click check (`Step`). */
    method Loop(pos: int, pressed: bool, now: nat)
      requires Valid() && TimesNotAfter(Abs(), now)
      modifies this
      ensures Valid() && Abs() == Step(old(Abs()), pos, pressed, now)
    {
      StepKeepsRange(Abs(), pos, pressed, now);
      ReadRotary(pos);
      ReadButton(pressed, now);
      CheckSingleClick(now);
    }

    /** One pass of `loop` with the single-click check moved ahead of the
        edge detector (`StepFixed`), the order that keeps the count at most 1. */
    method LoopFixed(pos: int, pressed: bool, now: nat)
      requires Valid() && TimesNotAfter(Abs(), now)
      modifies this
      ensures Valid() && Abs() == StepFixed(old(Abs()), pos, pressed, now)
    {
      StepFixedKeepsRange(Abs(), pos, pressed, now);
      ReadRotary(pos);
      CheckSingleClick(now);
      ReadButton(pressed, now);
    }
  }
}
