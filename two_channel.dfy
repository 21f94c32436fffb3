/** The earliest two-channel sketch, src/main.cpp: two 8-bit duty levels
    (`brightnessA`, `brightnessB`) stepped by the rotary encoder, and a
    button whose press duration picks an action when it is released: the
    WiFi portal, a long-press colour preset, a short-press toggle, or
    nothing. */
module TwoChannel {
  import opened Wrappers

  /** The largest 8-bit duty. */
  const MAX_DUTY: int := 255
  /** One rotary step. */
  const STEP: int := 5
  /** A normal turn down stops at this duty. */
  const TURN_FLOOR: int := 15
  /** Press durations, in milliseconds, that select the portal, the long
      press and the short press. */
  const PORTAL_MS: nat := 5000
  const LONG_PRESS_MS: nat := 1500
  const SHORT_PRESS_MS: nat := 500

  function Min(x: int, y: int): int { if x < y then x else y }
  function Max(x: int, y: int): int { if x < y then y else x }

  /** `brightnessA` and `brightnessB`. */
  datatype Dial = Dial(a: int, b: int)

  predicate InRange(d: Dial) {
    0 <= d.a <= MAX_DUTY && 0 <= d.b <= MAX_DUTY
  }

  /** A turn with the button up: up raises both by a step (capped at 255)
      while A is below 255; down lowers both by a step (floored at 15)
      while A is above 15; otherwise nothing. */
  function NormalTurn(d: Dial, delta: int): Dial {
    if delta > 0 && d.a < MAX_DUTY then Dial(Min(MAX_DUTY, d.a + STEP), Min(MAX_DUTY, d.b + STEP))
    else if delta < 0 && d.a > TURN_FLOOR then Dial(Max(TURN_FLOOR, d.a - STEP), Max(TURN_FLOOR, d.b - STEP))
    else d
  }

  /** A turn with the button held: up moves A down and B up a step, down
      the reverse, each clamped to 0..255. */
  function HeldTurn(d: Dial, delta: int): Dial {
    if delta > 0 then Dial(Max(0, d.a - STEP), Min(MAX_DUTY, d.b + STEP))
    else if delta < 0 then Dial(Min(MAX_DUTY, d.a + STEP), Max(0, d.b - STEP))
    else d
  }

  /** What the release of a press that lasted `duration` ms does. */
  datatype PressKind = Portal | LongPress | ShortPress | DeadBand

  function Classify(duration: nat): PressKind {
    if duration >= PORTAL_MS then Portal
    else if duration >= LONG_PRESS_MS then LongPress
    else if duration < SHORT_PRESS_MS then ShortPress
    else DeadBand
  }

  /** The duties of long-press state 0 (warm), 1 (both) and 2 (white). */
  function Preset(state: int): Dial {
    if state == 0 then Dial(MAX_DUTY, 0)
    else if state == 1 then Dial(MAX_DUTY, MAX_DUTY)
    else Dial(0, MAX_DUTY)
  }

  /** The sketch's state: the dial, `isOn`, `longPressState`,
      `wasLongPress`, `btnPressTime`, the statics `lastBtnState` (as
      "pressed") and `lastPos` of `loop`, the two duties last written, and
      the number of times the WiFi portal was started from the button. */
  datatype Board = Board(dial: Dial, isOn: bool, longPressState: int, wasLongPress: bool,
                         pressTime: nat, lastPressed: bool, lastPos: int, out: (int, int), portals: nat)

  predicate WellFormed(s: Board) {
    InRange(s.dial) && 0 <= s.longPressState <= 2
  }

  /** Before the first `loop`: both duties at 128, on, long-press state 0,
      the button up, the encoder at 0 and nothing written yet. */
  function Initial(): (s: Board)
    ensures WellFormed(s) && s.dial == Dial(128, 128) && s.isOn && s.out == (0, 0)
  {
    Board(Dial(128, 128), true, 0, false, 0, false, 0, (0, 0), 0)
  }

  /** The rotary part of `loop`: the direction of the delta steps the dial,
      normally or held, and both duties are written, whether the lamp is on
      or off. */
  function Turn(s: Board, pos: int, held: bool): Board {
    if pos != s.lastPos then
      var delta := pos - s.lastPos;
      var d := if held then HeldTurn(s.dial, delta) else NormalTurn(s.dial, delta);
      s.(lastPos := pos, dial := d, out := (d.a, d.b))
    else s
  }

  /** The release branch of `loop` for a press of `duration` ms. */
  function OnRelease(s: Board, duration: nat): Board {
    match Classify(duration)
    case Portal => s.(portals := s.portals + 1)
    case LongPress =>
      var n := (s.longPressState + 1) % 3;
      var d := Preset(n);
      s.(wasLongPress := true, longPressState := n, dial := d, isOn := true, out := (d.a, d.b))
    case ShortPress =>
      var on := !s.isOn;
      s.(isOn := on, out := if on then (s.dial.a, s.dial.b) else (0, 0))
    case DeadBand => s
  }

  /** The button part of `loop`: a press stamps its time, a release acts on
      its duration. */
  function Button(s: Board, pressed: bool, now: nat): Board
    requires s.pressTime <= now
  {
    var s1 := if !s.lastPressed && pressed then s.(pressTime := now, wasLongPress := false) else s;
    var s2 := if s.lastPressed && !pressed then OnRelease(s1, now - s1.pressTime) else s1;
    s2.(lastPressed := pressed)
  }

  /** One pass of `loop`, the button sample serving both as "held" for the
      rotary and as the edge detector's level. */
  function Step(s: Board, pos: int, pressed: bool, now: nat): Board
    requires s.pressTime <= now
  {
    Button(Turn(s, pos, pressed), pressed, now)
  }

  /** The `onWSMsg` sliders: `a` and `b` go straight to the two channels;
      the dial is not told. */
  function Sliders(s: Board, a: Option<int>, b: Option<int>): Board {
    s.(out := (a.GetOr(s.out.0), b.GetOr(s.out.1)))
  }

  /** `n` normal turns of `delta`. */
  function NormalTurns(d: Dial, delta: int, n: nat): Dial
    decreases n
  {
    if n == 0 then d else NormalTurns(NormalTurn(d, delta), delta, n - 1)
  }

  // ----- Properties -----

  /** Both kinds of turn keep the duties within 0..255. */
  lemma TurnKeepsRange(d: Dial, delta: int)
    requires InRange(d)
    ensures InRange(NormalTurn(d, delta)) && InRange(HeldTurn(d, delta))
  {
  }

  /** A normal turn up never dims a channel, a normal turn down never dims
      A below 15, and a turn that does nothing leaves the dial alone. */
  lemma NormalTurnDirection(d: Dial, delta: int)
    requires InRange(d)
    ensures var r := NormalTurn(d, delta);
      (delta > 0 ==> r.a >= d.a && r.b >= d.b && (d.a < MAX_DUTY ==> r.a == Min(MAX_DUTY, d.a + STEP))) &&
      (delta < 0 ==> r.a <= d.a && (d.a > TURN_FLOOR ==> r.a >= TURN_FLOOR && r.b >= TURN_FLOOR)) &&
      (delta == 0 || (delta > 0 && d.a == MAX_DUTY) || (delta < 0 && d.a <= TURN_FLOOR) ==> r == d)
  {
  }

  /** A normal turn down puts a channel B within a step of the floor at the
      floor, so a B below it (as after the warm preset (255, 0)) goes up. */
  lemma DownTurnCanRaiseB(d: Dial, delta: int)
    requires d.a > TURN_FLOOR && d.b < TURN_FLOOR + STEP && delta < 0
    ensures NormalTurn(d, delta).b == TURN_FLOOR
    ensures d.b < TURN_FLOOR ==> NormalTurn(d, delta).b > d.b
  {
  }

  /** A held turn moves the two channels in opposite directions, a step at
      a time, within 0..255. */
  lemma HeldTurnOpposes(d: Dial, delta: int)
    requires InRange(d)
    ensures var r := HeldTurn(d, delta);
      (delta > 0 ==> r == Dial(Max(0, d.a - STEP), Min(MAX_DUTY, d.b + STEP)) && r.a <= d.a && r.b >= d.b) &&
      (delta < 0 ==> r == Dial(Min(MAX_DUTY, d.a + STEP), Max(0, d.b - STEP)) && r.a >= d.a && r.b <= d.b) &&
      (delta == 0 ==> r == d)
  {
  }

  /** `n` normal turns up bring A to `min(255, A + 5n)`: 51 reach full duty
      from anywhere. */
  lemma {:induction false} TurnsUpSaturate(d: Dial, n: nat)
    requires InRange(d)
    ensures NormalTurns(d, 1, n).a == Min(MAX_DUTY, d.a + STEP * n)
    ensures InRange(NormalTurns(d, 1, n))
    decreases n
  {
    if n > 0 {
      TurnKeepsRange(d, 1);
      TurnsUpSaturate(NormalTurn(d, 1), n - 1);
    }
  }

  /** The press classes partition the durations: portal from 5 s, long
      press from 1.5 s, short press under 0.5 s, and a dead band between. */
  lemma ClassifyBands(duration: nat)
    ensures Classify(duration) == Portal <==> duration >= PORTAL_MS
    ensures Classify(duration) == LongPress <==> LONG_PRESS_MS <= duration < PORTAL_MS
    ensures Classify(duration) == ShortPress <==> duration < SHORT_PRESS_MS
    ensures Classify(duration) == DeadBand <==> SHORT_PRESS_MS <= duration < LONG_PRESS_MS
  {
  }

  /** A long press advances the preset state and turns the lamp on with the
      preset's duties written; three bring the state back, passing through
      warm (255, 0), both (255, 255) and white (0, 255). */
  lemma LongPressCycles(s: Board, duration: nat)
    requires WellFormed(s) && LONG_PRESS_MS <= duration < PORTAL_MS
    ensures var r := OnRelease(s, duration);
      WellFormed(r) && r.isOn && r.wasLongPress && r.longPressState == (s.longPressState + 1) % 3 &&
      r.dial == Preset(r.longPressState) && r.out == (r.dial.a, r.dial.b)
    ensures OnRelease(OnRelease(OnRelease(s, duration), duration), duration).longPressState == s.longPressState
    ensures Preset(0) == Dial(255, 0) && Preset(1) == Dial(255, 255) && Preset(2) == Dial(0, 255)
  {
  }

  /** A short press toggles the lamp, writes (0, 0) when it goes off and the
      dial when it comes on, and leaves the dial alone: two restore the
      light. */
  lemma ShortPressToggles(s: Board, duration: nat)
    requires duration < SHORT_PRESS_MS
    ensures var r := OnRelease(s, duration);
      r == s.(isOn := !s.isOn, out := r.out) &&
      r.out == (if r.isOn then (s.dial.a, s.dial.b) else (0, 0))
    ensures OnRelease(OnRelease(s, duration), duration).isOn == s.isOn
  {
  }

  /** Presses in the dead band and presses that open the portal change no
      lamp state. */
  lemma OtherPressesKeepLamp(s: Board, duration: nat)
    requires SHORT_PRESS_MS <= duration < LONG_PRESS_MS || duration >= PORTAL_MS
    ensures var r := OnRelease(s, duration);
      r.dial == s.dial && r.isOn == s.isOn && r.out == s.out && r.longPressState == s.longPressState
    ensures SHORT_PRESS_MS <= duration < LONG_PRESS_MS ==> OnRelease(s, duration) == s
  {
  }

  /** A press at `t1` and a release at `t2`, with the dial at rest, act as a
      release of a press `t2 - t1` ms long. */
  lemma {:induction false} PressThenRelease(s: Board, t1: nat, t2: nat)
    requires !s.lastPressed && s.pressTime <= t1 <= t2
    ensures var s1 := Step(s, s.lastPos, true, t1);
      s1.pressTime == t1 &&
      Step(s1, s.lastPos, false, t2) ==
        OnRelease(s.(pressTime := t1, wasLongPress := false, lastPressed := true), t2 - t1).(lastPressed := false)
  {
    var s1 := s.(pressTime := t1, wasLongPress := false, lastPressed := true);
    assert Step(s, s.lastPos, true, t1) == s1;
  }

  /** The rotary writes the dial to the channels even while the lamp is
      off, and does not turn it on. */
  lemma TurnLightsWhileOff(s: Board, pos: int, held: bool)
    requires !s.isOn && pos != s.lastPos
    ensures var r := Turn(s, pos, held);
      !r.isOn && r.out == (r.dial.a, r.dial.b)
  {
  }

  /** A slider write is transient: it leaves the dial and `isOn` alone, so
      the next turn writes the dial's duties over it as if it never came. */
  lemma SlidersAreTransient(s: Board, a: Option<int>, b: Option<int>, pos: int, held: bool)
    requires pos != s.lastPos
    ensures Sliders(s, a, b).dial == s.dial && Sliders(s, a, b).isOn == s.isOn
    ensures Turn(Sliders(s, a, b), pos, held) == Turn(s, pos, held)
  {
  }

  /** Every pass of `loop` keeps the duties in 0..255 and the long-press
      state in 0..2. */
  lemma StepKeepsRange(s: Board, pos: int, pressed: bool, now: nat)
    requires WellFormed(s) && s.pressTime <= now
    ensures WellFormed(Step(s, pos, pressed, now))
  {
    if pos != s.lastPos {
      TurnKeepsRange(s.dial, pos - s.lastPos);
    }
  }

  /** The globals of src/main.cpp, updated in place by `loop` and `onWSMsg`. */
  class Sketch {
    var brightnessA: int
    var brightnessB: int
    var isOn: bool
    var longPressState: int
    var wasLongPress: bool
    var btnPressTime: nat
    var lastPressed: bool
    var lastPos: int
    var ch0: int
    var ch1: int
    var portals: nat

    ghost function Abs(): Board
      reads this
    {
      Board(Dial(brightnessA, brightnessB), isOn, longPressState, wasLongPress,
            btnPressTime, lastPressed, lastPos, (ch0, ch1), portals)
    }

    ghost predicate Valid()
      reads this
    {
      WellFormed(Abs())
    }

    constructor()
      ensures Valid() && Abs() == Initial()
    {
      brightnessA, brightnessB := 128, 128;
      isOn := true;
      longPressState := 0;
      wasLongPress := false;
      btnPressTime := 0;
      lastPressed := false;
      lastPos := 0;
      ch0, ch1 := 0, 0;
      portals := 0;
    }

    /** The rotary part of `loop`. */
    method ReadRotary(pos: int, held: bool)
      modifies this`brightnessA, this`brightnessB, this`lastPos, this`ch0, this`ch1
      ensures Abs() == Turn(old(Abs()), pos, held)
    {
      if pos != lastPos {
        var delta := pos - lastPos;
        lastPos := pos;
        if !held {
          if delta > 0 && brightnessA < MAX_DUTY {
            brightnessA := Min(MAX_DUTY, brightnessA + STEP);
            brightnessB := Min(MAX_DUTY, brightnessB + STEP);
          } else if delta < 0 && brightnessA > TURN_FLOOR {
            brightnessA := Max(TURN_FLOOR, brightnessA - STEP);
            brightnessB := Max(TURN_FLOOR, brightnessB - STEP);
          }
        } else {
          if delta > 0 {
            brightnessA := Max(0, brightnessA - STEP);
            brightnessB := Min(MAX_DUTY, brightnessB + STEP);
          } else if delta < 0 {
            brightnessA := Min(MAX_DUTY, brightnessA + STEP);
            brightnessB := Max(0, brightnessB - STEP);
          }
        }
        ch0, ch1 := brightnessA, brightnessB;
      }
    }

    /** The release branch of `loop`. */
    method Release(duration: nat)
      modifies this`brightnessA, this`brightnessB, this`isOn, this`longPressState,
               this`wasLongPress, this`ch0, this`ch1, this`portals
      ensures Abs() == OnRelease(old(Abs()), duration)
    {
      if duration >= PORTAL_MS {
        portals := portals + 1;
      } else if duration >= LONG_PRESS_MS {
        wasLongPress := true;
        longPressState := (longPressState + 1) % 3;
        if longPressState == 0 {
          brightnessA, brightnessB := MAX_DUTY, 0;
        } else if longPressState == 1 {
          brightnessA, brightnessB := MAX_DUTY, MAX_DUTY;
        } else {
          brightnessA, brightnessB := 0, MAX_DUTY;
        }
        isOn := true;
        ch0, ch1 := brightnessA, brightnessB;
      } else if duration < SHORT_PRESS_MS {
        isOn := !isOn;
        if isOn {
          ch0, ch1 := brightnessA, brightnessB;
        } else {
          ch0, ch1 := 0, 0;
        }
      }
    }

    /** The button part of `loop`. */
    method ReadButton(pressed: bool, now: nat)
      requires btnPressTime <= now
      modifies this`brightnessA, this`brightnessB, this`isOn, this`longPressState, this`wasLongPress,
               this`btnPressTime, this`lastPressed, this`ch0, this`ch1, this`portals
      ensures Abs() == Button(old(Abs()), pressed, now)
    {
      if !lastPressed && pressed {
        btnPressTime := now;
        wasLongPress := false;
      }
      if lastPressed && !pressed {
        Release(now - btnPressTime);
      }
      lastPressed := pressed;
    }

    /** One pass of `loop`. */
    method Loop(pos: int, pressed: bool, now: nat)
      requires Valid() && btnPressTime <= now
      modifies this
      ensures Valid() && Abs() == Step(old(Abs()), pos, pressed, now)
    {
      StepKeepsRange(Abs(), pos, pressed, now);
      ReadRotary(pos, pressed);
      ReadButton(pressed, now);
    }

    /** The slider keys of `onWSMsg`, already decoded. */
    method OnWSMsg(a: Option<int>, b: Option<int>)
      modifies this`ch0, this`ch1
      ensures Abs() == Sliders(old(Abs()), a, b)
    {
      if a.Some? {
        ch0 := a.value;
      }
      if b.Some? {
        ch1 := b.value;
      }
    }
  }
}
