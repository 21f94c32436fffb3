/** The output mapper of esp_code/src/main.cpp (`applyOutput`) and of its
    earlier revision esp_code/src/main_test2.cpp: (on, brightness, mode) to
    the duty levels of the warm channel (0) and the white channel (1).
    The LED driver is inverted: 15 is dark, 0 is full on. */
module Output {
  import opened Arduino

  /** Duty level of a dark channel. */
  const OFF: int := 15

  const MODE_WARM: int := 0
  const MODE_WHITE: int := 1
  const MODE_BOTH: int := 2

  /** The brightness the mapper renders while the lamp is on: `max(1, b)`. */
  function Effective(brightness: int): (e: int)
    ensures e >= 1 && e >= brightness
    ensures brightness >= 1 ==> e == brightness
  {
    if brightness < 1 then 1 else brightness
  }

  /** The inverted duty level of a lit channel. */
  function Level(brightness: int): int {
    OFF - Effective(brightness)
  }

  /** `applyOutput` (main.cpp): which channels glow follows the mode
      (any mode other than warm or white drives both), every lit channel is
      at least at level 1, and for a brightness within the 0..15 scale every
      lit channel lies in 0..14. */
  function Channels(isOn: bool, brightness: int, mode: int): (ch: (int, int))
    ensures !isOn ==> ch == (OFF, OFF)
    ensures isOn && mode == MODE_WARM ==> ch.1 == OFF && ch.0 < OFF
    ensures isOn && mode == MODE_WHITE ==> ch.0 == OFF && ch.1 < OFF
    ensures isOn && mode != MODE_WARM && mode != MODE_WHITE ==> ch.0 == ch.1 < OFF
    ensures isOn && brightness <= 15 ==> 0 <= ch.0 <= OFF && 0 <= ch.1 <= OFF
  {
    if !isOn then (OFF, OFF)
    else if mode == MODE_WARM then (Level(brightness), OFF)
    else if mode == MODE_WHITE then (OFF, Level(brightness))
    else (Level(brightness), Level(brightness))
  }

  /** The lamp shows light exactly when it is on, whatever the stored
      brightness (the floor of 1 keeps brightness 0 visible). */
  lemma ChannelsDarkIffOff(isOn: bool, brightness: int, mode: int)
    ensures Channels(isOn, brightness, mode) == (OFF, OFF) <==> !isOn
  {
  }

  /** Every lit channel sits at `15 - max(1, b)`. */
  lemma ChannelsLitLevel(brightness: int, mode: int)
    ensures var ch := Channels(true, brightness, mode);
      (ch.0 != OFF ==> ch.0 == 15 - Effective(brightness)) &&
      (ch.1 != OFF ==> ch.1 == 15 - Effective(brightness))
  {
  }

  /** A higher brightness never gives a darker channel (lower duty = brighter). */
  lemma ChannelsMonotone(isOn: bool, b1: int, b2: int, mode: int)
    requires b1 <= b2
    ensures Channels(isOn, b2, mode).0 <= Channels(isOn, b1, mode).0
    ensures Channels(isOn, b2, mode).1 <= Channels(isOn, b1, mode).1
  {
  }

  /** `applyOutput` (main_test2.cpp): the same mapping with no brightness
      floor, so `inverted = 15 - brightness`. */
  function ChannelsNoFloor(isOn: bool, brightness: int, mode: int): (ch: (int, int))
    ensures !isOn ==> ch == (OFF, OFF)
    ensures mode == MODE_WARM ==> ch.1 == OFF
    ensures mode == MODE_WHITE ==> ch.0 == OFF
    ensures isOn && 0 <= brightness <= 15 ==> 0 <= ch.0 <= OFF && 0 <= ch.1 <= OFF
  {
    if !isOn then (OFF, OFF)
    else if mode == MODE_WARM then (OFF - brightness, OFF)
    else if mode == MODE_WHITE then (OFF, OFF - brightness)
    else (OFF - brightness, OFF - brightness)
  }

  /** The two revisions agree whenever the brightness is at least 1 ... */
  lemma RevisionsAgreeAboveFloor(isOn: bool, brightness: int, mode: int)
    requires brightness >= 1
    ensures ChannelsNoFloor(isOn, brightness, mode) == Channels(isOn, brightness, mode)
  {
  }

  /** ... and differ at brightness 0 while on: the earlier revision then
      renders an "on" lamp completely dark in every mode, the later one lights
      it at level 14. */
  lemma EarlyRevisionDarkAtZero(mode: int)
    ensures ChannelsNoFloor(true, 0, mode) == (OFF, OFF)
    ensures Channels(true, 0, mode) != (OFF, OFF)
  {
  }

  /** The mode a double click selects: `(mode + 1) % 3` with C's remainder,
      cycling warm -> white -> both -> warm. */
  function NextMode(mode: int): (m: int)
    ensures 0 <= mode ==> 0 <= m <= 2
    ensures m == 0 || m == 1 || m == 2 || m == -1 || m == -2
  {
    CRem(mode + 1, 3)
  }

  /** Three double clicks bring any valid mode back to itself, passing
      through each of the other two. */
  lemma NextModeCycles(mode: int)
    requires MODE_WARM <= mode <= MODE_BOTH
    ensures NextMode(NextMode(NextMode(mode))) == mode
    ensures NextMode(mode) != mode && NextMode(NextMode(mode)) != mode
    ensures NextMode(MODE_WARM) == MODE_WHITE && NextMode(MODE_WHITE) == MODE_BOTH
    ensures NextMode(MODE_BOTH) == MODE_WARM
  {
  }
}
