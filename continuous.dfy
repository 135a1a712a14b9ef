/** main.cpp: the variant without a capture timer.  main arms the first window once; the
    completion interrupt chains sixteen reads of FRAME_SIZE samples; the main loop's only
    branch clears the ready flag, classifies, ignores the outcome and re-arms at once. */
module Continuous {
  import opened Hal
  import opened Classifier
  import opened WindowAssembler

  /** FRAME_SIZE: samples per DMA segment in this variant. */
  const FRAME_SIZE: nat := 1024

  /** The window length that the comment on the ready-flag check describes. */
  const DESCRIBED_SAMPLES: nat := 16000

  /** The capture globals and the user LED. */
  datatype Machine = Machine(window: Window, userLed: Level)

  /** The globals' initial values; the user LED initialised OFF. */
  function Init(): Machine
  {
    Machine(Window(0, 0, false, [], 0), Off)
  }

  /** The first recording in main: offset and counter 0, user LED on, first read at 0. */
  function Start(m: Machine): Machine
  {
    m.(window := Arm(m.window, FRAME_SIZE), userLed := On)
  }

  /** pdm_pcm_isr_handler */
  function OnSegmentDone(m: Machine): Machine
  {
    m.(window := Complete(m.window, FRAME_SIZE))
  }

  /** One pass of the for(;;) loop.  When the flag is up: user LED off, flag cleared,
      classifier run (its outcome is only printed), then offset and counter reset, user LED
      on and a new read at offset 0.  Otherwise nothing. */
  function LoopPass(m: Machine, result: Outcome): Machine
  {
    if m.window.ready then
      var cleared := m.window.(ready := false);
      m.(window := Arm(cleared, FRAME_SIZE), userLed := On)
    else
      m
  }

  datatype Event = SegmentDone | MainLoop(result: Outcome)

  /** A completion interrupt is only delivered for a read that was issued and has not
      completed yet. */
  function Step(m: Machine, e: Event): Machine
  {
    match e
    case SegmentDone => if m.window.pending > 0 then OnSegmentDone(m) else m
    case MainLoop(result) => LoopPass(m, result)
  }

  function Run(m: Machine, events: seq<Event>): Machine
    decreases |events|
  {
    if events == [] then m else Run(Step(m, events[0]), events[1..])
  }

  /** Requests of the current fill: one per completed segment plus the one in flight, at
      most SEGMENTS. */
  function CycleLength(w: Window): nat
  {
    if w.count < SEGMENTS then w.count + 1 else SEGMENTS
  }

  /** What holds of every reachable state: the counter never passes SEGMENTS, the flag is
      up exactly when it reached SEGMENTS, exactly one read is in flight while filling and
      none once the window is ready, and the current fill's requests are the first tiles. */
  ghost predicate OneInFlight(m: Machine)
  {
    var w := m.window;
    && w.count <= SEGMENTS
    && (w.ready <==> w.count == SEGMENTS)
    && w.pending == (if w.ready then 0 else 1)
    && |w.requests| >= CycleLength(w)
    && w.requests[|w.requests| - CycleLength(w)..] == Tiles(CycleLength(w), FRAME_SIZE)
  }

  lemma CompletionKeepsOneInFlight(m: Machine)
    requires OneInFlight(m) && m.window.pending > 0
    ensures OneInFlight(OnSegmentDone(m))
  {
    var w := m.window;
    var k := w.count + 1;
    assert k < U32_MOD && k % U32_MOD == k;
    var w' := OnSegmentDone(m).window;
    assert w'.count == k;
    if k < SEGMENTS {
      var r := w.requests;
      var x := Read(k * FRAME_SIZE, FRAME_SIZE);
      assert w'.requests == r + [x];
      assert (r + [x])[|r + [x]| - (k + 1)..] == r[|r| - k..] + [x];
    } else {
      assert w'.requests == w.requests && w'.ready && w'.pending == 0;
    }
  }

  lemma ReadyBranchKeepsOneInFlight(m: Machine, result: Outcome)
    requires OneInFlight(m)
    ensures OneInFlight(LoopPass(m, result))
  {
    if m.window.ready {
      var r' := m.window.requests + [Read(0, FRAME_SIZE)];
      assert LoopPass(m, result).window == Window(0, 0, false, r', 1);
      assert r'[|r'| - 1..] == [Read(0, FRAME_SIZE)];
    }
  }

  lemma StepKeepsOneInFlight(m: Machine, e: Event)
    requires OneInFlight(m)
    ensures OneInFlight(Step(m, e))
  {
    match e
    case SegmentDone =>
      if m.window.pending > 0 {
        CompletionKeepsOneInFlight(m);
      }
    case MainLoop(result) =>
      ReadyBranchKeepsOneInFlight(m, result);
  }

  lemma {:induction false} RunKeepsOneInFlight(m: Machine, events: seq<Event>)
    requires OneInFlight(m)
    ensures OneInFlight(Run(m, events))
    decreases |events|
  {
    if events != [] {
      StepKeepsOneInFlight(m, events[0]);
      RunKeepsOneInFlight(Step(m, events[0]), events[1..]);
    }
  }

  /** Re-arming happens only in the ready branch, so after the first recording is started
      at most one fill is in flight; no read is outstanding once the window is marked ready
      (the classifier never reads a window being written); and the 32-bit counter never
      gets near wrap-around. */
  lemma AtMostOneFill(events: seq<Event>)
    ensures OneInFlight(Run(Start(Init()), events))
    ensures Run(Start(Init()), events).window.pending <= 1
    ensures Run(Start(Init()), events).window.ready ==> Run(Start(Init()), events).window.pending == 0
    ensures Run(Start(Init()), events).window.count <= SEGMENTS
  {
    assert [Read(0, FRAME_SIZE)][0..] == Tiles(1, FRAME_SIZE);
    RunKeepsOneInFlight(Start(Init()), events);
  }

  /** The first recording: counter and offset 0, user LED on, one read of 1024 samples at
      offset 0. */
  lemma StartArms()
    ensures Start(Init()).window == Window(0, 0, false, [Read(0, 1024)], 1)
    ensures Start(Init()).userLed == On
  {
  }

  /** The ready branch clears the flag, and then always re-arms: counter and offset 0 and a
      new read at offset 0, whatever the classifier answered.  Without the flag the pass
      changes nothing. */
  lemma ReadyBranchRearms(m: Machine, result: Outcome, other: Outcome)
    ensures !LoopPass(m, result).window.ready
    ensures m.window.ready ==>
              LoopPass(m, result).window.count == 0 && LoopPass(m, result).window.offset == 0 &&
              LoopPass(m, result).window.requests == m.window.requests + [Read(0, FRAME_SIZE)]
    ensures !m.window.ready ==> LoopPass(m, result) == m
    ensures LoopPass(m, result) == LoopPass(m, other)
  {
  }

  /** The flag is raised only by the interrupt and lowered only by the main loop; the
      counter is only ever incremented by the interrupt and reset by the arming steps. */
  lemma FlagAndCounterOwnership(m: Machine, result: Outcome)
    ensures m.window.ready ==> OnSegmentDone(m).window.ready
    ensures OnSegmentDone(m).window.count == (m.window.count + 1) % U32_MOD
    ensures LoopPass(m, result).window.count == if m.window.ready then 0 else m.window.count
  {
  }

  /** The cycle repeats forever: from an armed, not-ready state, sixteen completions and the
      ready branch give the same state as arming again, with the sixteen tiles logged. */
  lemma CaptureCycle(m: Machine, result: Outcome)
    requires !m.window.ready
    ensures LoopPass(Start(m).(window := Completions(Start(m).window, FRAME_SIZE, SEGMENTS)), result) ==
            Start(m.(window := m.window.(requests := m.window.requests + Tiles(SEGMENTS, FRAME_SIZE))))
  {
    Filled(m.window, FRAME_SIZE);
  }

  /** The bounds obligation: a window's requests fit into audio_frame exactly when
      TOTAL_SAMPLES >= 16 * 1024 = 16384.  The sixteenth request (count 15) covers
      [15360, 16384), 384 samples beyond the 16000 samples the comment describes. */
  lemma WindowBounds(total: nat)
    ensures AllInBounds(Tiles(SEGMENTS, FRAME_SIZE), total) <==> 16384 <= total
    ensures Tiles(SEGMENTS, FRAME_SIZE)[SEGMENTS - 1] == Read(15360, 1024)
    ensures !AllInBounds(Tiles(SEGMENTS, FRAME_SIZE), DESCRIBED_SAMPLES)
    ensures Tiles(SEGMENTS, FRAME_SIZE)[SEGMENTS - 1].offset + FRAME_SIZE == DESCRIBED_SAMPLES + 384
  {
    InBounds(SEGMENTS, FRAME_SIZE, total);
    InBounds(SEGMENTS, FRAME_SIZE, DESCRIBED_SAMPLES);
    TileAt(SEGMENTS, FRAME_SIZE, SEGMENTS - 1);
  }

  /** Every event keeps each logged read one of the sixteen tiles of a window. */
  lemma StepKeepsTiles(m: Machine, e: Event)
    requires TileRequests(m.window.requests, FRAME_SIZE)
    ensures TileRequests(Step(m, e).window.requests, FRAME_SIZE)
  {
    match e
    case SegmentDone =>
      CompleteKeepsTiles(m.window, FRAME_SIZE);
    case MainLoop(result) =>
      ArmKeepsTiles(m.window.(ready := false), FRAME_SIZE);
  }

  lemma {:induction false} RunKeepsTiles(m: Machine, events: seq<Event>)
    requires TileRequests(m.window.requests, FRAME_SIZE)
    ensures TileRequests(Run(m, events).window.requests, FRAME_SIZE)
    decreases |events|
  {
    if events != [] {
      StepKeepsTiles(m, events[0]);
      RunKeepsTiles(Step(m, events[0]), events[1..]);
    }
  }

  /** Every read issued from the first recording on lies inside audio_frame when
      TOTAL_SAMPLES >= 16384. */
  lemma RunInBounds(events: seq<Event>, total: nat)
    requires 16384 <= total
    ensures AllInBounds(Run(Start(Init()), events).window.requests, total)
  {
    ArmKeepsTiles(Init().window, FRAME_SIZE);
    RunKeepsTiles(Start(Init()), events);
    TilesInBounds(Run(Start(Init()), events).window.requests, FRAME_SIZE, total);
  }

  /** The globals of main.cpp, updated in place by the interrupt and the main loop. */
  class ContinuousFirmware {
    var pdmPcmFlag: bool
    var currentAudioOffset: nat
    var dmaTransferCount: nat
    /** The log of cyhal_pdm_pcm_read_async requests issued so far. */
    var requests: seq<Read>
    /** Requests whose completion interrupt has not arrived yet (peripheral state). */
    ghost var pending: nat
    var userLed: Level

    ghost function State(): Machine
      reads this
    {
      Machine(Window(dmaTransferCount, currentAudioOffset, pdmPcmFlag, requests, pending), userLed)
    }

    constructor ()
      ensures State() == Init()
    {
      pdmPcmFlag := false;
      currentAudioOffset, dmaTransferCount := 0, 0;
      requests, pending := [], 0;
      userLed := Off;
    }

    /** The first recording, just before main enters its loop. */
    method StartCapture()
      modifies this
      ensures State() == Start(old(State()))
    {
      currentAudioOffset := 0;
      dmaTransferCount := 0;
      userLed := On;
      requests := requests + [Read(0, FRAME_SIZE)];
      pending := pending + 1;
    }

    method PdmPcmIsrHandler()
      modifies this`dmaTransferCount, this`currentAudioOffset, this`pdmPcmFlag, this`requests, this`pending
      ensures State() == OnSegmentDone(old(State()))
    {
      pending := if pending == 0 then 0 else pending - 1;
      dmaTransferCount := (dmaTransferCount + 1) % U32_MOD;
      if dmaTransferCount >= SEGMENTS {
        pdmPcmFlag := true;
      } else {
        currentAudioOffset := dmaTransferCount * FRAME_SIZE;
        requests := requests + [Read(currentAudioOffset, FRAME_SIZE)];
        pending := pending + 1;
      }
    }

    /** One pass of the for(;;) loop; `result` is what run_classifier returns should the
        ready branch run. */
    method LoopIteration(result: Outcome)
      modifies this
      ensures State() == LoopPass(old(State()), result)
    {
      if pdmPcmFlag {
        userLed := Off;
        pdmPcmFlag := false;
        // run_classifier's outcome is printed and otherwise unused
        currentAudioOffset := 0;
        dmaTransferCount := 0;
        userLed := On;
        requests := requests + [Read(0, FRAME_SIZE)];
        pending := pending + 1;
      }
    }
  }
}
