/** The LED side of project_audio/main.cpp: the led_controller record, the set_* setters
    that drive a board pin and a polarity-linked external pin per channel, the score to
    LED if-chain of the main loop, and blinking_mode. */
module Leds {
  import opened Hal
  import opened Classifier

  /** led_controller: the logical state of each channel plus the blink switch. */
  datatype LedController = LedController(red: bool, green: bool, blue: bool, yellow: bool, blink: bool)

  /** ledStates together with the pin levels it drives. */
  datatype Lights = Lights(state: LedController, pins: Pins)

  datatype Channel = Red | Green | Blue | Yellow

  /** The logical state of one channel. */
  function Lit(s: LedController, ch: Channel): bool
  {
    match ch
    case Red => s.red
    case Green => s.green
    case Blue => s.blue
    case Yellow => s.yellow
  }

  /** The channel a pin belongs to; the user LED belongs to none. */
  function ChannelOf(p: Pin): Option<Channel>
  {
    match p
    case UserLed => None
    case RgbRed => Some(Red)
    case ExtRed => Some(Red)
    case RgbGreen => Some(Green)
    case ExtGreen => Some(Green)
    case RgbBlue => Some(Blue)
    case ExtBlue => Some(Blue)
    case ExtYellow => Some(Yellow)
  }

  predicate External(p: Pin)
  {
    p == ExtRed || p == ExtGreen || p == ExtBlue || p == ExtYellow
  }

  /** The level a channel pin has when the channel's state is `on`: a board pin reads ON,
      an external pin OFF (the external LEDs are driven with the opposite level). */
  function Wanted(p: Pin, on: bool): Level
  {
    LevelOf(if External(p) then !on else on)
  }

  /** Pin p belongs to a channel whose state is true. */
  predicate Owned(s: LedController, p: Pin)
  {
    ChannelOf(p).Some? && Lit(s, ChannelOf(p).value)
  }

  /** Every channel pin shows its channel's logical state. */
  ghost predicate Mirrors(l: Lights)
  {
    forall p :: ChannelOf(p).Some? ==> Get(l.pins, p) == Wanted(p, Lit(l.state, ChannelOf(p).value))
  }

  /** Each board pin reads the opposite of its external twin. */
  predicate Complementary(pins: Pins)
  {
    && pins.rgbRed == Toggle(pins.extRed)
    && pins.rgbGreen == Toggle(pins.extGreen)
    && pins.rgbBlue == Toggle(pins.extBlue)
  }

  /** set_red / set_green / set_blue / set_yellow(command): the channel's state becomes
      `command`, its board pin reads ON iff command, its external pin reads OFF iff command;
      set_yellow has no board pin.  No other state field and no other pin changes. */
  function Set(l: Lights, ch: Channel, command: bool): Lights
  {
    match ch
    case Red =>
      Lights(l.state.(red := command),
             Write(Write(l.pins, RgbRed, LevelOf(command)), ExtRed, LevelOf(!command)))
    case Green =>
      Lights(l.state.(green := command),
             Write(Write(l.pins, RgbGreen, LevelOf(command)), ExtGreen, LevelOf(!command)))
    case Blue =>
      Lights(l.state.(blue := command),
             Write(Write(l.pins, RgbBlue, LevelOf(command)), ExtBlue, LevelOf(!command)))
    case Yellow =>
      Lights(l.state.(yellow := command), Write(l.pins, ExtYellow, LevelOf(!command)))
  }

  lemma SetEffect(l: Lights, ch: Channel, command: bool)
    ensures Lit(Set(l, ch, command).state, ch) == command
    ensures forall other :: other != ch ==> Lit(Set(l, ch, command).state, other) == Lit(l.state, other)
    ensures Set(l, ch, command).state.blink == l.state.blink
    ensures forall p :: Get(Set(l, ch, command).pins, p) ==
              if ChannelOf(p) == Some(ch) then Wanted(p, command) else Get(l.pins, p)
  {
    forall p
      ensures Get(Set(l, ch, command).pins, p) ==
              if ChannelOf(p) == Some(ch) then Wanted(p, command) else Get(l.pins, p)
    {
      SetPin(l, ch, command, p);
    }
  }

  /** The setter's effect on one pin. */
  lemma SetPin(l: Lights, ch: Channel, command: bool, p: Pin)
    ensures Get(Set(l, ch, command).pins, p) ==
            if ChannelOf(p) == Some(ch) then Wanted(p, command) else Get(l.pins, p)
  {
  }

  /** A setter keeps the pins mirroring the state. */
  lemma SetKeepsMirrors(l: Lights, ch: Channel, command: bool)
    requires Mirrors(l)
    ensures Mirrors(Set(l, ch, command))
  {
    SetEffect(l, ch, command);
  }

  /** One of the LED combinations the main loop applies. */
  datatype Combo = Combo(red: bool, green: bool, blue: bool, yellow: bool)

  function ComboLit(c: Combo, ch: Channel): bool
  {
    match ch
    case Red => c.red
    case Green => c.green
    case Blue => c.blue
    case Yellow => c.yellow
  }

  /** The four setter calls of one branch of the if-chain, in the source's order. */
  function Apply(l: Lights, c: Combo): Lights
  {
    Set(Set(Set(Set(l, Red, c.red), Green, c.green), Blue, c.blue), Yellow, c.yellow)
  }

  /** Applying a combination sets all four channel states to it, leaves the blink switch
      and the user LED alone, and leaves every channel pin mirroring the new state. */
  lemma ApplyEffect(l: Lights, c: Combo)
    ensures forall ch :: Lit(Apply(l, c).state, ch) == ComboLit(c, ch)
    ensures Apply(l, c).state.blink == l.state.blink
    ensures Get(Apply(l, c).pins, UserLed) == Get(l.pins, UserLed)
    ensures Mirrors(Apply(l, c))
  {
    var l1 := Set(l, Red, c.red);
    var l2 := Set(l1, Green, c.green);
    var l3 := Set(l2, Blue, c.blue);
    var l4 := Set(l3, Yellow, c.yellow);
    forall p
      ensures Get(l4.pins, p) ==
              if ChannelOf(p).Some? then Wanted(p, ComboLit(c, ChannelOf(p).value)) else Get(l.pins, p)
    {
      SetPin(l, Red, c.red, p);
      SetPin(l1, Green, c.green, p);
      SetPin(l2, Blue, c.blue, p);
      SetPin(l3, Yellow, c.yellow, p);
    }
  }

  /** CORRECT_CLASSIFICATION */
  const THRESHOLD: real := 0.5

  const YELLOW_ONLY := Combo(false, false, false, true)
  const ALL_OFF := Combo(false, false, false, false)
  const RED_ONLY := Combo(true, false, false, false)
  const BLUE_ONLY := Combo(false, false, true, false)
  const GREEN_ONLY := Combo(false, true, false, false)

  /** The main loop's if-chain over the classifier scores: the combination of the first
      branch whose score reaches the threshold, or None when no branch fires. */
  function Decide(scores: Scores): Option<Combo>
  {
    if scores[3] >= THRESHOLD then Some(YELLOW_ONLY)
    else if scores[5] >= THRESHOLD then Some(ALL_OFF)
    else if scores[6] >= THRESHOLD then Some(RED_ONLY)
    else if scores[1] >= THRESHOLD then Some(BLUE_ONLY)
    else if scores[2] >= THRESHOLD then Some(GREEN_ONLY)
    else None
  }

  /** The same decision as a table: class index and the combination it selects. */
  datatype Rule = Rule(index: nat, combo: Combo)

  const RULES: seq<Rule> :=
    [Rule(3, YELLOW_ONLY), Rule(5, ALL_OFF), Rule(6, RED_ONLY), Rule(1, BLUE_ONLY), Rule(2, GREEN_ONLY)]

  predicate Indexable(rules: seq<Rule>, scores: Scores)
  {
    forall i :: 0 <= i < |rules| ==> rules[i].index < |scores|
  }

  /** Rule i is the first rule of the table whose score reaches the threshold. */
  predicate FirstFiring(rules: seq<Rule>, scores: Scores, i: int)
    requires Indexable(rules, scores)
  {
    && 0 <= i < |rules|
    && scores[rules[i].index] >= THRESHOLD
    && forall j :: 0 <= j < i ==> scores[rules[j].index] < THRESHOLD
  }

  /** Reference first-match scan over a rule table. */
  function FirstMatch(rules: seq<Rule>, scores: Scores): Option<Combo>
    requires Indexable(rules, scores)
  {
    if rules == [] then None
    else if scores[rules[0].index] >= THRESHOLD then Some(rules[0].combo)
    else FirstMatch(rules[1..], scores)
  }

  /** The scan picks the combination of the first firing rule, and picks nothing exactly
      when no rule fires. */
  lemma {:induction false} FirstMatchSpec(rules: seq<Rule>, scores: Scores)
    requires Indexable(rules, scores)
    ensures FirstMatch(rules, scores) == None <==>
            forall i :: 0 <= i < |rules| ==> scores[rules[i].index] < THRESHOLD
    ensures forall i :: FirstFiring(rules, scores, i) ==>
              FirstMatch(rules, scores) == Some(rules[i].combo)
  {
    if rules != [] {
      var rest := rules[1..];
      FirstMatchSpec(rest, scores);
      forall i | FirstFiring(rules, scores, i)
        ensures FirstMatch(rules, scores) == Some(rules[i].combo)
      {
        if i > 0 {
          assert FirstFiring(rest, scores, i - 1);
        }
      }
      if scores[rules[0].index] < THRESHOLD &&
         forall i :: 0 <= i < |rest| ==> scores[rest[i].index] < THRESHOLD {
        forall i | 0 <= i < |rules|
          ensures scores[rules[i].index] < THRESHOLD
        {
          if i > 0 {
            assert rules[i] == rest[i - 1];
          }
        }
      }
    }
  }

  /** The if-chain is the first-match scan over RULES. */
  lemma DecideIsFirstMatch(scores: Scores)
    ensures Indexable(RULES, scores)
    ensures Decide(scores) == FirstMatch(RULES, scores)
  {
    var r1 := [Rule(5, ALL_OFF), Rule(6, RED_ONLY), Rule(1, BLUE_ONLY), Rule(2, GREEN_ONLY)];
    var r2 := [Rule(6, RED_ONLY), Rule(1, BLUE_ONLY), Rule(2, GREEN_ONLY)];
    var r3 := [Rule(1, BLUE_ONLY), Rule(2, GREEN_ONLY)];
    var r4 := [Rule(2, GREEN_ONLY)];
    assert RULES[1..] == r1 && r1[1..] == r2 && r2[1..] == r3 && r3[1..] == r4 && r4[1..] == [];
    assert FirstMatch(r4, scores) == if scores[2] >= THRESHOLD then Some(GREEN_ONLY) else None;
    assert FirstMatch(r3, scores) ==
           if scores[1] >= THRESHOLD then Some(BLUE_ONLY) else FirstMatch(r4, scores);
    assert FirstMatch(r2, scores) ==
           if scores[6] >= THRESHOLD then Some(RED_ONLY) else FirstMatch(r3, scores);
    assert FirstMatch(r1, scores) ==
           if scores[5] >= THRESHOLD then Some(ALL_OFF) else FirstMatch(r2, scores);
  }

  /** The decision in words: the first of the indices 3, 5, 6, 1, 2 whose score is at least
      0.5 selects its combination; when none reaches 0.5 nothing is selected. */
  lemma DecideSpec(scores: Scores)
    ensures Indexable(RULES, scores)
    ensures Decide(scores) == None <==>
            forall i :: 0 <= i < |RULES| ==> scores[RULES[i].index] < THRESHOLD
    ensures forall i :: FirstFiring(RULES, scores, i) ==> Decide(scores) == Some(RULES[i].combo)
  {
    DecideIsFirstMatch(scores);
    FirstMatchSpec(RULES, scores);
  }

  /** Whatever is selected is one of the five combinations, and none of them lights more
      than one LED. */
  lemma DecideLightsAtMostOne(scores: Scores)
    ensures Decide(scores).Some? ==>
              Decide(scores).value in {YELLOW_ONLY, ALL_OFF, RED_ONLY, BLUE_ONLY, GREEN_ONLY}
    ensures Decide(scores).Some? ==>
              forall a, b :: ComboLit(Decide(scores).value, a) && ComboLit(Decide(scores).value, b) ==> a == b
  {
  }

  /** One block of blinking_mode: when channel ch is lit, toggle its board pin and then its
      external pin (yellow has only the external one); otherwise leave the pins. */
  function BlinkChannel(pins: Pins, s: LedController, ch: Channel): (r: Pins)
    ensures forall p :: Get(r, p) ==
              if Lit(s, ch) && ChannelOf(p) == Some(ch) then Toggle(Get(pins, p)) else Get(pins, p)
  {
    if !Lit(s, ch) then pins
    else
      match ch
      case Red => Flip(Flip(pins, RgbRed), ExtRed)
      case Green => Flip(Flip(pins, RgbGreen), ExtGreen)
      case Blue => Flip(Flip(pins, RgbBlue), ExtBlue)
      case Yellow => Flip(pins, ExtYellow)
  }

  /** blinking_mode: when the blink switch is on, toggle both pins of every channel whose
      state is true (yellow has only its external pin).  The state is never changed. */
  function Blink(l: Lights): (r: Lights)
    ensures r.state == l.state
    ensures forall p :: Get(r.pins, p) ==
              if l.state.blink && Owned(l.state, p) then Toggle(Get(l.pins, p)) else Get(l.pins, p)
  {
    if !l.state.blink then l
    else
      var s := l.state;
      var p1 := BlinkChannel(l.pins, s, Red);
      var p2 := BlinkChannel(p1, s, Green);
      var p3 := BlinkChannel(p2, s, Blue);
      var p4 := BlinkChannel(p3, s, Yellow);
      Lights(s, p4)
  }

  /** With the blink switch off, blinking_mode changes nothing. */
  lemma BlinkIdle(l: Lights)
    requires !l.state.blink
    ensures Blink(l) == l
  {
  }

  /** Two blinks in a row restore every pin. */
  lemma BlinkTwice(l: Lights)
    ensures Blink(Blink(l)) == l
  {
    var r := Blink(Blink(l));
    forall p
      ensures Get(r.pins, p) == Get(l.pins, p)
    {
      ToggleInvolutive(Get(l.pins, p));
    }
    PinsExtensional(r.pins, l.pins);
  }

  /** Blinking keeps each board pin the opposite of its external twin. */
  lemma BlinkKeepsComplementary(l: Lights)
    requires Complementary(l.pins)
    ensures Complementary(Blink(l).pins)
  {
    if l.state.blink {
      var s := l.state;
      var p1 := BlinkChannel(l.pins, s, Red);
      var p2 := BlinkChannel(p1, s, Green);
      var p3 := BlinkChannel(p2, s, Blue);
      BlinkChannelKeepsComplementary(l.pins, s, Red);
      BlinkChannelKeepsComplementary(p1, s, Green);
      BlinkChannelKeepsComplementary(p2, s, Blue);
      BlinkChannelKeepsComplementary(p3, s, Yellow);
    }
  }

  /** One block of blinking_mode toggles a board pin together with its external twin. */
  lemma BlinkChannelKeepsComplementary(pins: Pins, s: LedController, ch: Channel)
    requires Complementary(pins)
    ensures Complementary(BlinkChannel(pins, s, ch))
  {
    var r := BlinkChannel(pins, s, ch);
    assert r.rgbRed == Get(r, RgbRed) && r.extRed == Get(r, ExtRed);
    assert r.rgbGreen == Get(r, RgbGreen) && r.extGreen == Get(r, ExtGreen);
    assert r.rgbBlue == Get(r, RgbBlue) && r.extBlue == Get(r, ExtBlue);
    ToggleInvolutive(pins.extRed);
    ToggleInvolutive(pins.extGreen);
    ToggleInvolutive(pins.extBlue);
  }

  /** Pins that mirror the state are complementary. */
  lemma MirrorsComplementary(l: Lights)
    requires Mirrors(l)
    ensures Complementary(l.pins)
  {
    assert Get(l.pins, RgbRed) == Wanted(RgbRed, l.state.red);
    assert Get(l.pins, ExtRed) == Wanted(ExtRed, l.state.red);
    assert Get(l.pins, RgbGreen) == Wanted(RgbGreen, l.state.green);
    assert Get(l.pins, ExtGreen) == Wanted(ExtGreen, l.state.green);
    assert Get(l.pins, RgbBlue) == Wanted(RgbBlue, l.state.blue);
    assert Get(l.pins, ExtBlue) == Wanted(ExtBlue, l.state.blue);
  }
}
