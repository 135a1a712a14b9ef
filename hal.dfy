/** Abstract effects of the board support and HAL calls used by the two firmware mains:
    GPIO levels of the LED pins and asynchronous PDM/PCM read requests. */
module Hal {

  datatype Option<T> = None | Some(value: T)

  /** The two LED levels written with cyhal_gpio_write: CYBSP_LED_STATE_ON / CYBSP_LED_STATE_OFF. */
  datatype Level = On | Off

  /** The level that cyhal_gpio_toggle leaves behind. */
  function Toggle(v: Level): Level
  {
    if v == On then Off else On
  }

  /** `command ? CYBSP_LED_STATE_ON : CYBSP_LED_STATE_OFF` */
  function LevelOf(command: bool): Level
  {
    if command then On else Off
  }

  lemma ToggleInvolutive(v: Level)
    ensures Toggle(Toggle(v)) == v && Toggle(v) != v
  {
  }

  /** The output pins the firmware drives: the user LED, the board RGB LED and the
      four external LEDs. */
  datatype Pin = UserLed | RgbRed | RgbGreen | RgbBlue | ExtRed | ExtGreen | ExtBlue | ExtYellow

  /** The level of every output pin.  A record rather than a map, so that every pin always
      has a level: led_init gives each of them one before the main loop starts. */
  datatype Pins = Pins(user: Level, rgbRed: Level, rgbGreen: Level, rgbBlue: Level,
                       extRed: Level, extGreen: Level, extBlue: Level, extYellow: Level)

  function Get(pins: Pins, p: Pin): Level
  {
    match p
    case UserLed => pins.user
    case RgbRed => pins.rgbRed
    case RgbGreen => pins.rgbGreen
    case RgbBlue => pins.rgbBlue
    case ExtRed => pins.extRed
    case ExtGreen => pins.extGreen
    case ExtBlue => pins.extBlue
    case ExtYellow => pins.extYellow
  }

  /** cyhal_gpio_write(p, v): pin p now reads v and no other pin changes. */
  function Write(pins: Pins, p: Pin, v: Level): (r: Pins)
    ensures Get(r, p) == v
    ensures forall q :: q != p ==> Get(r, q) == Get(pins, q)
  {
    match p
    case UserLed => pins.(user := v)
    case RgbRed => pins.(rgbRed := v)
    case RgbGreen => pins.(rgbGreen := v)
    case RgbBlue => pins.(rgbBlue := v)
    case ExtRed => pins.(extRed := v)
    case ExtGreen => pins.(extGreen := v)
    case ExtBlue => pins.(extBlue := v)
    case ExtYellow => pins.(extYellow := v)
  }

  /** cyhal_gpio_toggle(p) */
  function Flip(pins: Pins, p: Pin): (r: Pins)
    ensures Get(r, p) == Toggle(Get(pins, p))
    ensures forall q :: q != p ==> Get(r, q) == Get(pins, q)
  {
    Write(pins, p, Toggle(Get(pins, p)))
  }

  /** Two pin records are equal exactly when every pin has the same level. */
  lemma PinsExtensional(a: Pins, b: Pins)
    requires forall p :: Get(a, p) == Get(b, p)
    ensures a == b
  {
    assert Get(a, UserLed) == Get(b, UserLed) && Get(a, RgbRed) == Get(b, RgbRed);
    assert Get(a, RgbGreen) == Get(b, RgbGreen) && Get(a, RgbBlue) == Get(b, RgbBlue);
    assert Get(a, ExtRed) == Get(b, ExtRed) && Get(a, ExtGreen) == Get(b, ExtGreen);
    assert Get(a, ExtBlue) == Get(b, ExtBlue) && Get(a, ExtYellow) == Get(b, ExtYellow);
  }

  /** One cyhal_pdm_pcm_read_async request: `length` samples into audio_frame + offset
      (both in samples, since audio_frame is an int16_t array). */
  datatype Read = Read(offset: nat, length: nat)

  /** Sample index x of the buffer is written by request r. */
  predicate Covers(r: Read, x: int)
  {
    r.offset <= x < r.offset + r.length
  }

  /** Every request lies inside a buffer of `total` samples. */
  predicate AllInBounds(requests: seq<Read>, total: nat)
  {
    forall i :: 0 <= i < |requests| ==> requests[i].offset + requests[i].length <= total
  }

  /** uint32_t arithmetic wraps modulo 2^32. */
  const U32_MOD: nat := 0x1_0000_0000
}
