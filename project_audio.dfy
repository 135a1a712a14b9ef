/** project_audio/main.cpp: a capture timer arms the window assembler, the completion
    interrupt chains sixteen reads of FRAME_SIZE samples, the main loop classifies a ready
    window and maps the scores onto the LEDs, and a second timer drives blinking_mode.
    Every interrupt handler and every pass of the main loop is one atomic step. */
module ProjectAudio {
  import opened Hal
  import opened Classifier
  import opened WindowAssembler
  import opened Leds

  /** FRAME_SIZE: samples per DMA segment. */
  const FRAME_SIZE: nat := 1000

  /** Everything the firmware's globals and pins hold. */
  datatype Board = Board(window: Window, timerFlag: bool, blinkFlag: bool, lights: Lights)

  /** Pin levels as led_init leaves them: user LED and board LEDs OFF, external LEDs ON. */
  const INITIAL_PINS: Pins := Pins(Off, Off, Off, Off, On, On, On, On)

  /** The globals' initial values and the pins after led_init. */
  function Init(): Board
  {
    Board(Window(0, 0, false, [], 0), false, false,
          Lights(LedController(false, false, false, false, false), INITIAL_PINS))
  }

  /** timer_isr_handler */
  function OnTimerTick(b: Board): Board
  {
    b.(timerFlag := true)
  }

  /** blinking_timer_isr_handler */
  function OnBlinkTick(b: Board): Board
  {
    b.(blinkFlag := true)
  }

  /** pdm_pcm_isr_handler */
  function OnSegmentDone(b: Board): Board
  {
    b.(window := Complete(b.window, FRAME_SIZE))
  }

  /** The timer-flag branch: clear the flag, arm (whatever the counter was), user LED on. */
  function TimerBranch(b: Board): Board
  {
    b.(timerFlag := false, window := Arm(b.window, FRAME_SIZE),
       lights := b.lights.(pins := Write(b.lights.pins, UserLed, On)))
  }

  /** The ready-flag branch: clear the flag, user LED off, classify, then run the if-chain
      on the scores whatever the classifier's error code was. */
  function ReadyBranch(b: Board, result: Outcome): Board
  {
    var l := b.lights.(pins := Write(b.lights.pins, UserLed, Off));
    b.(window := b.window.(ready := false),
       lights := match Decide(result.scores)
                 case None => l
                 case Some(c) => Apply(l, c))
  }

  /** The blink-flag branch. */
  function BlinkBranch(b: Board): Board
  {
    b.(blinkFlag := false, lights := Blink(b.lights))
  }

  /** The three flag tests of the for(;;) loop, each with its branch. */
  function TimerPart(b: Board): Board
  {
    if b.timerFlag then TimerBranch(b) else b
  }

  function ReadyPart(b: Board, result: Outcome): Board
  {
    if b.window.ready then ReadyBranch(b, result) else b
  }

  function BlinkPart(b: Board): Board
  {
    if b.blinkFlag then BlinkBranch(b) else b
  }

  /** One pass of the for(;;) loop: the three flag branches in the source's order. */
  function LoopPass(b: Board, result: Outcome): Board
  {
    BlinkPart(ReadyPart(TimerPart(b), result))
  }

  /** What can happen next: an interrupt or a pass of the main loop, with the classifier's
      answer for that pass. */
  datatype Event = TimerTick | BlinkTick | SegmentDone | MainLoop(result: Outcome)

  /** A completion interrupt is only delivered for a read that was issued and has not
      completed yet. */
  function Step(b: Board, e: Event): Board
  {
    match e
    case TimerTick => OnTimerTick(b)
    case BlinkTick => OnBlinkTick(b)
    case SegmentDone => if b.window.pending > 0 then OnSegmentDone(b) else b
    case MainLoop(result) => LoopPass(b, result)
  }

  function Run(b: Board, events: seq<Event>): Board
    decreases |events|
  {
    if events == [] then b else Run(Step(b, events[0]), events[1..])
  }

  /** What holds of every reachable state: the blink switch is off and every LED pin
      shows its channel's state. */
  ghost predicate Inv(b: Board)
  {
    !b.lights.state.blink && Mirrors(b.lights)
  }

  /** The ready branch keeps every LED pin mirroring its channel. */
  lemma ReadyBranchKeepsInv(b: Board, result: Outcome)
    requires Inv(b)
    ensures Inv(ReadyBranch(b, result))
  {
    var l := b.lights.(pins := Write(b.lights.pins, UserLed, Off));
    assert Mirrors(l);
    match Decide(result.scores)
    case None =>
    case Some(c) => ApplyEffect(l, c);
  }

  /** A main-loop pass keeps the invariant; with it, the blink branch has nothing to do. */
  lemma LoopPassKeepsInv(b: Board, result: Outcome)
    requires Inv(b)
    ensures Inv(LoopPass(b, result))
  {
    var b1 := if b.timerFlag then TimerBranch(b) else b;
    assert Inv(b1);
    if b1.window.ready {
      ReadyBranchKeepsInv(b1, result);
    }
    var b2 := if b1.window.ready then ReadyBranch(b1, result) else b1;
    BlinkIdle(b2.lights);
  }

  lemma StepKeepsInv(b: Board, e: Event)
    requires Inv(b)
    ensures Inv(Step(b, e))
  {
    if e.MainLoop? {
      LoopPassKeepsInv(b, e.result);
    }
  }

  lemma {:induction false} RunKeepsInv(b: Board, events: seq<Event>)
    requires Inv(b)
    ensures Inv(Run(b, events))
    decreases |events|
  {
    if events != [] {
      StepKeepsInv(b, events[0]);
      RunKeepsInv(Step(b, events[0]), events[1..]);
    }
  }

  /** ledStates.blink starts false and nothing assigns it, so in every reachable state the
      blink branch leaves all pins as they are, and each board pin is the complement of its
      external twin. */
  lemma BlinkNeverFires(events: seq<Event>)
    ensures !Run(Init(), events).lights.state.blink
    ensures BlinkBranch(Run(Init(), events)).lights == Run(Init(), events).lights
    ensures Complementary(Run(Init(), events).lights.pins)
  {
    var b := Run(Init(), events);
    assert Mirrors(Init().lights) by {
      forall p | ChannelOf(p).Some?
        ensures Get(INITIAL_PINS, p) == Wanted(p, false)
      {
      }
    }
    RunKeepsInv(Init(), events);
    BlinkIdle(b.lights);
    MirrorsComplementary(b.lights);
  }

  /** The timer-flag branch restarts the window whatever state a fill was in: counter and
      offset are 0, exactly one new read at offset 0 is logged, and the ready flag is left
      as it was. */
  lemma TickRestartsFill(b: Board)
    ensures TimerBranch(b).window.count == 0 && TimerBranch(b).window.offset == 0
    ensures TimerBranch(b).window.requests == b.window.requests + [Read(0, FRAME_SIZE)]
    ensures TimerBranch(b).window.ready == b.window.ready
    ensures !TimerBranch(b).timerFlag
    ensures Get(TimerBranch(b).lights.pins, UserLed) == On
  {
  }

  /** One capture cycle: after a tick and sixteen completions the flag is raised and the
      cycle's requests tile [0, 16000); they lie inside audio_frame exactly when
      TOTAL_SAMPLES >= 16000. */
  lemma CycleTilesWindow(b: Board, total: nat)
    ensures Completions(TimerBranch(b).window, FRAME_SIZE, SEGMENTS).ready
    ensures Completions(TimerBranch(b).window, FRAME_SIZE, SEGMENTS).requests ==
            b.window.requests + Tiles(SEGMENTS, FRAME_SIZE)
    ensures AllInBounds(Tiles(SEGMENTS, FRAME_SIZE), total) <==> 16000 <= total
  {
    Filled(b.window, FRAME_SIZE);
    InBounds(SEGMENTS, FRAME_SIZE, total);
  }

  /** Every event keeps each logged read one of the sixteen tiles of a window. */
  lemma StepKeepsTiles(b: Board, e: Event)
    requires TileRequests(b.window.requests, FRAME_SIZE)
    ensures TileRequests(Step(b, e).window.requests, FRAME_SIZE)
  {
    match e
    case SegmentDone =>
      CompleteKeepsTiles(b.window, FRAME_SIZE);
    case MainLoop(result) =>
      ArmKeepsTiles(b.window, FRAME_SIZE);
      var b1 := if b.timerFlag then TimerBranch(b) else b;
      var b2 := if b1.window.ready then ReadyBranch(b1, result) else b1;
      assert b2.window.requests == b1.window.requests;
    case _ =>
  }

  lemma {:induction false} RunKeepsTiles(b: Board, events: seq<Event>)
    requires TileRequests(b.window.requests, FRAME_SIZE)
    ensures TileRequests(Run(b, events).window.requests, FRAME_SIZE)
    decreases |events|
  {
    if events != [] {
      StepKeepsTiles(b, events[0]);
      RunKeepsTiles(Step(b, events[0]), events[1..]);
    }
  }

  /** Whatever the interleaving of ticks, completions and loop passes (a tick during a
      fill included), every read ever issued lies inside audio_frame when
      TOTAL_SAMPLES >= 16000. */
  lemma RunInBounds(events: seq<Event>, total: nat)
    requires 16000 <= total
    ensures AllInBounds(Run(Init(), events).window.requests, total)
  {
    RunKeepsTiles(Init(), events);
    TilesInBounds(Run(Init(), events).window.requests, FRAME_SIZE, total);
  }

  /** The ready-flag branch: the flag is cleared and the user LED switched off; when no
      listed score reaches the threshold ledStates and every LED pin stay as they were,
      otherwise the pins mirror the selected combination.  The error code plays no part: a
      status other than EI_IMPULSE_OK is only printed, and the if-chain runs as after a
      successful run. */
  lemma ReadyBranchEffect(b: Board, result: Outcome, error: int)
    ensures !ReadyBranch(b, result).window.ready
    ensures Get(ReadyBranch(b, result).lights.pins, UserLed) == Off
    ensures Decide(result.scores) == None ==>
              ReadyBranch(b, result).lights.state == b.lights.state &&
              forall p :: p != UserLed ==> Get(ReadyBranch(b, result).lights.pins, p) == Get(b.lights.pins, p)
    ensures Decide(result.scores).Some? ==>
              (forall ch :: Lit(ReadyBranch(b, result).lights.state, ch) ==
                            ComboLit(Decide(result.scores).value, ch)) &&
              Mirrors(ReadyBranch(b, result).lights)
    ensures ReadyBranch(b, result) == ReadyBranch(b, result.(error := error))
    ensures ReadyBranch(b, result) == ReadyBranch(b, result.(error := EI_IMPULSE_OK))
  {
    var l := b.lights.(pins := Write(b.lights.pins, UserLed, Off));
    if Decide(result.scores).Some? {
      ApplyEffect(l, Decide(result.scores).value);
    }
  }

  /** The re-arm-on-tick policy: a tick that arrives while j < 16 segments of a fill have
      completed restarts the count with the old read still outstanding, so sixteen
      completions later the window is marked ready while a transfer is still in flight,
      and its completion counts a seventeenth segment. */
  lemma TickDuringFill(w: Window, j: nat)
    requires w.pending == 0 && j < SEGMENTS
    ensures Completions(Arm(Completions(Arm(w, FRAME_SIZE), FRAME_SIZE, j), FRAME_SIZE), FRAME_SIZE, SEGMENTS).ready
    ensures Completions(Arm(Completions(Arm(w, FRAME_SIZE), FRAME_SIZE, j), FRAME_SIZE), FRAME_SIZE, SEGMENTS).pending == 1
    ensures Completions(Arm(Completions(Arm(w, FRAME_SIZE), FRAME_SIZE, j), FRAME_SIZE), FRAME_SIZE, SEGMENTS + 1).count == SEGMENTS + 1
  {
    var mid := Completions(Arm(w, FRAME_SIZE), FRAME_SIZE, j);
    Filling(w, FRAME_SIZE, j);
    Filled(mid, FRAME_SIZE);
  }

  /** What the stale completion of the re-arm-on-tick policy leads to: once the window is
      complete with a read still outstanding, the ready branch lowers the flag, and that
      read's completion raises it again without any new read, so the next pass classifies
      the same window a second time. */
  lemma StaleCompletionReclassifies(b: Board, result: Outcome)
    requires b.window.ready && !b.timerFlag && b.window.pending > 0
    requires SEGMENTS <= b.window.count && b.window.count + 1 < U32_MOD
    ensures !LoopPass(b, result).window.ready
    ensures Step(LoopPass(b, result), SegmentDone).window.ready
    ensures Step(LoopPass(b, result), SegmentDone).window.requests == b.window.requests
    ensures Step(LoopPass(b, result), SegmentDone).window.pending == b.window.pending - 1
  {
  }

  /** An interrupt that arrives after the timer branch of a pass, before the ready flag is
      tested, leads to a state that a whole-pass interleaving also reaches: a capture tick
      as if after the pass, a blink tick as if before it, and a completion as if after the
      pass when the timer branch ran (the arm has just reset the counter, so that completion
      chains read 1 and cannot raise the ready flag) and as if before it otherwise. */
  lemma InterruptAfterTimerPart(b: Board, result: Outcome, e: Event)
    requires !e.MainLoop?
    ensures BlinkPart(ReadyPart(Step(TimerPart(b), e), result)) ==
            if e.BlinkTick? || (e.SegmentDone? && !b.timerFlag) then LoopPass(Step(b, e), result)
            else Step(LoopPass(b, result), e)
  {
    if e.SegmentDone? && b.timerFlag {
      assert (TimerPart(b).window.count + 1) % U32_MOD == 1;
    }
  }

  /** An interrupt that arrives after the ready branch of a pass, before the blink flag is
      tested, leads to the state of a whole-pass interleaving: a blink tick as if before the
      pass, a capture tick or a completion as if after it. */
  lemma InterruptAfterReadyPart(b: Board, result: Outcome, e: Event)
    requires !e.MainLoop?
    ensures BlinkPart(Step(ReadyPart(TimerPart(b), result), e)) ==
            if e.BlinkTick? then LoopPass(Step(b, e), result) else Step(LoopPass(b, result), e)
  {
  }

  /** The arm step leaves pdm_pcm_flag as it is: a pass that finds both the timer flag and a
      stale ready flag re-arms first and then classifies while the fresh read at offset 0 is
      still outstanding, so the classifier reads a window whose segment 0 is being
      rewritten. */
  lemma ClassifyDuringRearm(b: Board, result: Outcome)
    requires b.timerFlag && b.window.ready
    ensures LoopPass(b, result) == BlinkPart(ReadyBranch(TimerBranch(b), result))
    ensures !LoopPass(b, result).window.ready
    ensures LoopPass(b, result).window.count == 0
    ensures LoopPass(b, result).window.requests == b.window.requests + [Read(0, FRAME_SIZE)]
    ensures LoopPass(b, result).window.pending == b.window.pending + 1
  {
  }

  /** The firmware's globals and pins, updated in place by the interrupt handlers and the
      main loop. */
  class AudioFirmware {
    var pdmPcmFlag: bool
    var timerInterruptFlag: bool
    var blinkInterruptFlag: bool
    var currentAudioOffset: nat
    var dmaTransferCount: nat
    /** The log of cyhal_pdm_pcm_read_async requests issued so far. */
    var requests: seq<Read>
    /** Requests whose completion interrupt has not arrived yet (peripheral state). */
    ghost var pending: nat
    var ledStates: LedController
    var pins: Pins

    ghost function State(): Board
      reads this
    {
      Board(Window(dmaTransferCount, currentAudioOffset, pdmPcmFlag, requests, pending),
            timerInterruptFlag, blinkInterruptFlag, Lights(ledStates, pins))
    }

    function Outputs(): Lights
      reads this
    {
      Lights(ledStates, pins)
    }

    constructor ()
      ensures State() == Init()
    {
      pdmPcmFlag, timerInterruptFlag, blinkInterruptFlag := false, false, false;
      currentAudioOffset, dmaTransferCount := 0, 0;
      requests, pending := [], 0;
      ledStates := LedController(false, false, false, false, false);
      pins := INITIAL_PINS;
    }

    method TimerIsrHandler()
      modifies this`timerInterruptFlag
      ensures State() == OnTimerTick(old(State()))
    {
      timerInterruptFlag := true;
    }

    method BlinkingTimerIsrHandler()
      modifies this`blinkInterruptFlag
      ensures State() == OnBlinkTick(old(State()))
    {
      blinkInterruptFlag := true;
    }

    method PdmPcmIsrHandler()
      modifies this`dmaTransferCount, this`currentAudioOffset, this`pdmPcmFlag, this`requests, this`pending
      ensures State() == OnSegmentDone(old(State()))
    {
      pending := if pending == 0 then 0 else pending - 1;
      dmaTransferCount := (dmaTransferCount + 1) % U32_MOD;
      if dmaTransferCount >= SEGMENTS {
        pdmPcmFlag := true;
      } else {
        currentAudioOffset := dmaTransferCount * FRAME_SIZE;
        requests := requests + [Read(currentAudioOffset, FRAME_SIZE)];
        pending := pending + 1;
      }
    }

    method SetRed(command: bool)
      modifies this`ledStates, this`pins
      ensures Outputs() == Set(old(Outputs()), Red, command)
    {
      ledStates := ledStates.(red := command);
      pins := Write(pins, RgbRed, LevelOf(command));
      pins := Write(pins, ExtRed, LevelOf(!command));
    }

    method SetBlue(command: bool)
      modifies this`ledStates, this`pins
      ensures Outputs() == Set(old(Outputs()), Blue, command)
    {
      pins := Write(pins, RgbBlue, LevelOf(command));
      pins := Write(pins, ExtBlue, LevelOf(!command));
      ledStates := ledStates.(blue := command);
    }

    method SetGreen(command: bool)
      modifies this`ledStates, this`pins
      ensures Outputs() == Set(old(Outputs()), Green, command)
    {
      pins := Write(pins, RgbGreen, LevelOf(command));
      pins := Write(pins, ExtGreen, LevelOf(!command));
      ledStates := ledStates.(green := command);
    }

    method SetYellow(command: bool)
      modifies this`ledStates, this`pins
      ensures Outputs() == Set(old(Outputs()), Yellow, command)
    {
      pins := Write(pins, ExtYellow, LevelOf(!command));
      ledStates := ledStates.(yellow := command);
    }

    method BlinkingMode()
      modifies this`pins
      ensures Outputs() == Blink(old(Outputs()))
    {
      if ledStates.blink {
        if ledStates.red {
          pins := Flip(pins, RgbRed);
          pins := Flip(pins, ExtRed);
        }
        if ledStates.green {
          pins := Flip(pins, RgbGreen);
          pins := Flip(pins, ExtGreen);
        }
        if ledStates.blue {
          pins := Flip(pins, RgbBlue);
          pins := Flip(pins, ExtBlue);
        }
        if ledStates.yellow {
          pins := Flip(pins, ExtYellow);
        }
      }
    }

    method HandleTimerFlag()
      modifies this
      ensures State() == TimerBranch(old(State()))
    {
      timerInterruptFlag := false;
      currentAudioOffset := 0;
      dmaTransferCount := 0;
      pins := Write(pins, UserLed, On);
      requests := requests + [Read(0, FRAME_SIZE)];
      pending := pending + 1;
    }

    /** The four setter calls that make up one branch of the if-chain, in the source's
        order: set_red, set_green, set_blue, set_yellow. */
    method ApplyCombo(c: Combo)
      modifies this`ledStates, this`pins
      ensures Outputs() == Apply(old(Outputs()), c)
    {
      SetRed(c.red);
      SetGreen(c.green);
      SetBlue(c.blue);
      SetYellow(c.yellow);
    }

    /** `result` is what run_classifier returned for the window; its error code is only
        printed, so the if-chain runs whatever it is. */
    method HandleReadyFlag(result: Outcome)
      modifies this
      ensures State() == ReadyBranch(old(State()), result)
    {
      pdmPcmFlag := false;
      pins := Write(pins, UserLed, Off);
      var scores := result.scores;
      if scores[3] >= THRESHOLD {
        ApplyCombo(YELLOW_ONLY);
      } else if scores[5] >= THRESHOLD {
        ApplyCombo(ALL_OFF);
      } else if scores[6] >= THRESHOLD {
        ApplyCombo(RED_ONLY);
      } else if scores[1] >= THRESHOLD {
        ApplyCombo(BLUE_ONLY);
      } else if scores[2] >= THRESHOLD {
        ApplyCombo(GREEN_ONLY);
      }
    }

    method HandleBlinkFlag()
      modifies this
      ensures State() == BlinkBranch(old(State()))
    {
      blinkInterruptFlag := false;
      BlinkingMode();
    }

    /** One pass of the for(;;) loop; `result` is the classifier's answer should the ready
        branch run. */
    method LoopIteration(result: Outcome)
      modifies this
      ensures State() == LoopPass(old(State()), result)
    {
      if timerInterruptFlag {
        HandleTimerFlag();
      }
      if pdmPcmFlag {
        HandleReadyFlag(result);
      }
      if blinkInterruptFlag {
        HandleBlinkFlag();
      }
    }
  }
}
