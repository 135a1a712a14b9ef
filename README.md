# Voice-controlled LEDs: capture pipeline and LED decision, modelled in Dafny

The firmware records a one-second audio window from a PDM microphone, hands it to an
Edge Impulse keyword classifier, and switches a board RGB LED and four external LEDs
according to the scores. Two firmware mains are modelled:

- `project_audio/main.cpp`. A 3-second capture timer sets `timer_interrupt_flag`. The main
  loop then arms a capture: counter and offset go to 0 and the first read of 1000 samples
  is issued. Each DMA completion interrupt (`pdm_pcm_isr_handler`) counts a segment. It
  either chains the next read at `count * 1000` or, from the 16th on, raises
  `pdm_pcm_flag`. The main loop classifies a ready window. An if-chain over the scores
  (indices 3, 5, 6, 1, 2, threshold 0.5) picks one LED combination. The `set_*` setters
  apply it: each sets a `led_controller` field and writes a board pin and its
  polarity-linked external pin; `set_yellow` writes only the external one. A blink timer
  drives `blinking_mode`.
- `main.cpp`. There is no timer and there are no LEDs apart from the user LED. `main` arms
  the first capture itself (reads of 1024 samples), and the ready branch re-arms as soon as
  it has classified.

Each interrupt handler and each pass of the main loop is one atomic step. In
`project_audio/main.cpp` an interrupt between two branches of a pass reaches a state that
a whole-pass interleaving also reaches (`ProjectAudio.InterruptAfterTimerPart`,
`ProjectAudio.InterruptAfterReadyPart`). The model has three layers:

- Pure step functions on a state record: `ProjectAudio.Board` and `Continuous.Machine`.
- Classes `ProjectAudio.AudioFirmware` and `Continuous.ContinuousFirmware`. Their fields
  are the firmware globals. Each method's `ensures` ties the new state to a step function.
- Lemmas about the step functions.

Peripheral calls are recorded as effects. Every `cyhal_pdm_pcm_read_async` appends a
`Read(offset, length)` to a request log. Every `cyhal_gpio_write` or `cyhal_gpio_toggle`
updates a record of pin levels. The classifier is an oracle: each loop pass receives its
status code and scores as a parameter (`Classifier.Outcome`).

Modules:

- `Hal` (hal.dfy): pins, levels, read requests, bounds.
- `Classifier` (classifier.dfy): the oracle's answer.
- `WindowAssembler`: the completion-interrupt chaining that both mains share. The frame
  size is a parameter.
- `Leds`: `led_controller`, the setters, the score decision, `blinking_mode`.
- `ProjectAudio` and `Continuous`: one module per main.

The PDM/PCM peripheral's queue appears as `pending`: requests issued whose completion has
not yet been delivered. It is a ghost field in the classes. In the event-sequence lemmas a
completion is delivered only while `pending > 0`, since the hardware completes only
requests that were issued. `dma_transfer_count` is a `uint32_t`, so its increment is
written modulo 2^32. In `main.cpp` the counter is proved never to exceed 16 in any
reachable state.

What the firmware does, in points where a reader might expect otherwise:

- In `project_audio/main.cpp`, a capture tick that arrives during a fill is not dropped.
  It re-arms, and the old transfer stays outstanding (`ProjectAudio.TickDuringFill`).
  Under the queueing the model assumes (see "## Left out"), sixteen completions later the
  window is marked ready while one transfer is still in flight. That stale completion
  counts a 17th segment and raises `pdm_pcm_flag` again after the ready branch has
  cleared it, with no new read. The next pass then classifies the same window, not
  re-armed, a second time (`ProjectAudio.StaleCompletionReclassifies`).
- The arm step leaves `pdm_pcm_flag` as it is. A pass that finds both the timer flag and
  a stale ready flag re-arms first and then classifies while the fresh read at offset 0
  is still in flight, so the classifier reads a window whose segment 0 is being rewritten
  (`ProjectAudio.ClassifyDuringRearm`).
- The read issued by the k-th completion is at `k * FRAME_SIZE`.
- The LED if-chain runs even when `run_classifier` reports an error.
- The accent (yellow) channel is a plain GPIO. No PWM fade exists.

`TOTAL_SAMPLES` is `EI_CLASSIFIER_RAW_SAMPLE_COUNT`, which the SDK header defines, so
bounds are stated for any `total`. The repository's text points to 16000:
testing/project_audio_example/source/main.cpp:21 declares
`audio_frame[EI_CLASSIFIER_RAW_SAMPLE_COUNT]` with the same SDK, and that file's lines
51-52 copy a clip of "already 16000 samples" into it with `sizeof(audio_frame)`. The
comment at main.cpp:128 also says 16000.

- `project_audio`'s 16 reads of 1000 samples fit exactly when `total >= 16000`. With
  that, every read issued in any reachable state fits, whatever the interleaving of
  ticks, completions and loop passes (`ProjectAudio.RunInBounds`).
- `main.cpp`'s 16 reads of 1024 samples need `total >= 16384`. The last read covers
  [15360, 16384). With 16000 samples that read writes 384 samples past the end of
  `audio_frame` (`Continuous.WindowBounds`). With `total >= 16384`, every read issued in any
  reachable state fits (`Continuous.RunInBounds`).

## Model

| member | source | states |
|---|---|---|
| `Hal.Write` | project_audio/main.cpp:413-414 | `cyhal_gpio_write(p, v)`: pin p reads v afterwards and every other pin keeps its level |
| `Hal.Flip` | project_audio/main.cpp:465-466 | `cyhal_gpio_toggle(p)`: pin p takes the opposite level and no other pin changes |
| `WindowAssembler.Arm` | project_audio/main.cpp:183-188 | the arm step: counter and offset 0, one read of `frame` samples at offset 0 logged and outstanding, the ready flag as it was (main.cpp:119-124 arms the same way) |
| `WindowAssembler.Complete` | project_audio/main.cpp:309-319 | `pdm_pcm_isr_handler`: the counter becomes count + 1 mod 2^32; at 16 or more the flag is raised and nothing is logged, otherwise the offset becomes count * frame and Read(count * frame, frame) is logged and outstanding; one completed read leaves the queue (main.cpp:183-193 is the same handler) |
| `WindowAssembler.Tiles` | project_audio/main.cpp:317-318 | the reference tiling of a window: n requests, request i at i * frame |
| `WindowAssembler.CompleteDispatch` | project_audio/main.cpp:309-319 | a completion increments the counter by exactly one (short of 32-bit wrap); at 16 or more it raises the flag and issues nothing; otherwise it issues exactly one read of FRAME_SIZE at count * FRAME_SIZE and leaves the flag alone |
| `WindowAssembler.CompleteMonotone` | project_audio/main.cpp:311-319 | a completion never lowers the ready flag and never retracts a request |
| `WindowAssembler.ChainStep` | project_audio/main.cpp:309-319 | a completion that leaves the counter below 16, with a read outstanding, advances the counter by one, moves the offset to count * FRAME_SIZE, logs exactly that read and keeps one read outstanding |
| `WindowAssembler.Filling` | project_audio/main.cpp:304-319 | after an arm and k < 16 completions: counter k, offset k * FRAME_SIZE, ready flag as before the arm, the cycle's requests are the tiles at 0, FRAME_SIZE, …, k * FRAME_SIZE, and one request is outstanding |
| `WindowAssembler.Filled` | project_audio/main.cpp:311-314 | the 16th completion after an arm raises the flag; the cycle issued exactly the 16 tiles and none of its requests is outstanding |
| `WindowAssembler.CompletionsAfterFull` | project_audio/main.cpp:311-314 | once the counter has reached 16, every further completion raises the flag (again, if the main loop lowered it meanwhile), counts on and issues no request |
| `WindowAssembler.TileAt` | project_audio/main.cpp:317-318 | tile i starts at i * frame and is frame samples long |
| `WindowAssembler.Contiguous` | project_audio/main.cpp:317-318 | the tiles start at 0, each starts where the previous one ends, and the last ends at n * frame |
| `WindowAssembler.CoversTile` | project_audio/main.cpp:317-318 | tile j writes exactly the samples [j * frame, (j + 1) * frame) |
| `WindowAssembler.Covered` | project_audio/main.cpp:317-318 | every sample of [0, n * frame) is written by some tile (no gap) |
| `WindowAssembler.Disjoint` | project_audio/main.cpp:317-318 | no sample is written by two tiles (no overlap) |
| `WindowAssembler.InBounds` | project_audio/main.cpp:78-80 | n requests of a cycle lie inside an `audio_frame` of `total` samples iff n * frame <= total |
| `WindowAssembler.ArmKeepsTiles` | project_audio/main.cpp:183-188 | arming logs the read at offset 0, so when every logged read is one of the sixteen tiles of a window it stays so |
| `WindowAssembler.CompleteKeepsTiles` | project_audio/main.cpp:309-319 | a completion logs a read only while the 32-bit counter is below 16, and that read is the tile at the counter, so every logged read stays one of the sixteen tiles |
| `WindowAssembler.TilesInBounds` | project_audio/main.cpp:317-318 | reads that are all tiles of a window stay inside any buffer of at least 16 * FRAME_SIZE samples |
| `Leds.Set` | project_audio/main.cpp:410-454 | `set_red`/`set_green`/`set_blue`/`set_yellow(command)`: the channel's field becomes `command`, the board pin is written ON iff `command` and the external pin OFF iff `command`; `set_yellow` writes only the external pin |
| `Leds.Apply` | project_audio/main.cpp:225-228 | one branch of the if-chain: `set_red`, `set_green`, `set_blue`, `set_yellow` called in that order with the combination's four values |
| `Leds.Decide` | project_audio/main.cpp:223-256 | the if-chain: the first of scores 3, 5, 6, 1, 2 that reaches 0.5 selects yellow only, all off, red only, blue only or green only; none selects nothing |
| `Leds.SetEffect` | project_audio/main.cpp:410-454 | `set_*(c)` makes the channel's `ledStates` field c, writes its board pin ON iff c and its external pin OFF iff c (yellow: external pin only), leaves the blink switch, the other channels and every other pin unchanged |
| `Leds.SetKeepsMirrors` | project_audio/main.cpp:410-454 | a setter keeps every LED pin showing its channel's logical state |
| `Leds.MirrorsComplementary` | project_audio/main.cpp:410-442 | pins that show the logical state have each board pin the opposite of its external twin |
| `Leds.ApplyEffect` | project_audio/main.cpp:223-256 | one branch of the if-chain sets all four channel states to its combination, leaves the blink switch and the user LED alone, and leaves every LED pin showing the new state |
| `Leds.FirstMatchSpec` | project_audio/main.cpp:223-256 | the reference first-match scan over a rule table selects the combination of the first rule whose score is at least 0.5, and selects nothing exactly when no rule's score reaches 0.5 |
| `Leds.DecideIsFirstMatch` | project_audio/main.cpp:223-256 | the if-chain equals the first-match scan over the table (3 → yellow only, 5 → all off, 6 → red only, 1 → blue only, 2 → green only) |
| `Leds.DecideSpec` | project_audio/main.cpp:223-256 | the first of indices 3, 5, 6, 1, 2 whose score reaches 0.5 selects its combination; nothing is selected iff none of them reaches 0.5 |
| `Leds.DecideLightsAtMostOne` | project_audio/main.cpp:223-256 | a selected combination is one of the five and lights at most one LED |
| `Leds.BlinkChannel` | project_audio/main.cpp:463-477 | one `if (ledStates.<channel>)` block of `blinking_mode`: when the channel is lit, exactly its pins are toggled (the external one only, for yellow); otherwise no pin changes |
| `Leds.Blink` | project_audio/main.cpp:462-480 | `blinking_mode` with the blink switch on toggles exactly the pins of the channels whose state is true and nothing else; with it off it changes no pin; it never changes `ledStates` |
| `Leds.BlinkIdle` | project_audio/main.cpp:462-463 | with `ledStates.blink` false, `blinking_mode` changes nothing |
| `Leds.BlinkTwice` | project_audio/main.cpp:462-480 | two consecutive calls restore every pin |
| `Leds.BlinkKeepsComplementary` | project_audio/main.cpp:462-480 | blinking keeps each board pin the opposite of its external twin |
| `Leds.BlinkChannelKeepsComplementary` | project_audio/main.cpp:463-477 | each block of `blinking_mode` toggles a board pin together with its external twin, so each board pin stays the opposite of its twin |
| `ProjectAudio.Init` | project_audio/main.cpp:72-342 | the globals as declared (flags false, counter and offset 0, all `ledStates` false, no read logged) and the pins as `led_init` leaves them: user and board LEDs OFF, external LEDs ON |
| `ProjectAudio.OnTimerTick` | project_audio/main.cpp:277-283 | `timer_isr_handler`: `timer_interrupt_flag` becomes true, nothing else changes |
| `ProjectAudio.OnBlinkTick` | project_audio/main.cpp:291-296 | `blinking_timer_isr_handler`: `blink_interrupt_flag` becomes true, nothing else changes |
| `ProjectAudio.OnSegmentDone` | project_audio/main.cpp:304-320 | `pdm_pcm_isr_handler` with FRAME_SIZE 1000, as `WindowAssembler.Complete`; flags other than `pdm_pcm_flag` and the LEDs unchanged |
| `ProjectAudio.TimerBranch` | project_audio/main.cpp:181-189 | the timer-flag branch: flag cleared, the window armed with a read of 1000 samples at 0, user LED ON |
| `ProjectAudio.ReadyBranch` | project_audio/main.cpp:191-259 | the ready branch: `pdm_pcm_flag` cleared, user LED OFF, then the combination `Decide` selects is applied with `Apply`, or nothing when none is selected; the status code plays no part |
| `ProjectAudio.BlinkBranch` | project_audio/main.cpp:261-264 | the blink-flag branch: flag cleared, then `blinking_mode` |
| `ProjectAudio.LoopPass` | project_audio/main.cpp:179-268 | one pass of `for(;;)`: the timer, ready and blink branches in that order, each run when its flag is up at the moment it is tested |
| `ProjectAudio.ReadyBranchKeepsInv` | project_audio/main.cpp:191-259 | the ready branch, whichever combination the scores select, leaves every LED pin showing its channel in `ledStates` and the blink switch off |
| `ProjectAudio.LoopPassKeepsInv` | project_audio/main.cpp:179-268 | one pass of the main loop, through all three flag branches, keeps the blink switch off and the LED pins showing `ledStates` |
| `ProjectAudio.StepKeepsInv` | project_audio/main.cpp:179-268 | every interrupt and loop pass keeps the blink switch off and the LED pins showing `ledStates` |
| `ProjectAudio.RunKeepsInv` | project_audio/main.cpp:179-268 | the same for any sequence of interrupts and loop passes |
| `ProjectAudio.BlinkNeverFires` | project_audio/main.cpp:91 | `ledStates.blink` starts false and is never assigned, so in every reachable state the blink branch changes no pin, and board and external pins are complementary |
| `ProjectAudio.TickRestartsFill` | project_audio/main.cpp:181-189 | the timer-flag branch clears the timer flag, resets counter and offset to 0 whatever the fill's progress, issues one read at offset 0, lights the user LED and leaves the ready flag alone |
| `ProjectAudio.CycleTilesWindow` | project_audio/main.cpp:304-320 | after a tick and 16 completions the flag is up and the cycle's requests are the 16 tiles of [0, 16000); they fit in `audio_frame` iff TOTAL_SAMPLES >= 16000 |
| `ProjectAudio.ReadyBranchEffect` | project_audio/main.cpp:191-259 | the ready branch clears the flag and switches the user LED off; when no listed score reaches 0.5, `ledStates` and every LED pin are unchanged; otherwise the state is the selected combination and the pins show it; the error code makes no difference: a status other than `EI_IMPULSE_OK` gives the same result as `EI_IMPULSE_OK` |
| `ProjectAudio.TickDuringFill` | project_audio/main.cpp:181-189 | a tick during a fill leaves the old transfer outstanding: under the queueing the model assumes, 16 completions later the window is ready with one transfer in flight, and its completion counts a 17th segment |
| `ProjectAudio.StaleCompletionReclassifies` | project_audio/main.cpp:191-194 | once the window is complete with a read still outstanding, the ready branch lowers `pdm_pcm_flag`, and that read's completion raises it again with no new read, so the same window is classified a second time |
| `ProjectAudio.InterruptAfterTimerPart` | project_audio/main.cpp:179-191 | an interrupt between the timer branch and the `pdm_pcm_flag` test gives the state of a whole-pass interleaving: a capture tick as after the pass, a blink tick as before it, a completion as after the pass when the timer branch ran and as before it otherwise |
| `ProjectAudio.InterruptAfterReadyPart` | project_audio/main.cpp:191-268 | an interrupt between the ready branch and the blink-flag test gives the state of a whole-pass interleaving: a blink tick as before the pass, a capture tick or a completion as after it |
| `ProjectAudio.ClassifyDuringRearm` | project_audio/main.cpp:181-196 | a pass that finds both the timer flag and the ready flag up re-arms and then runs the ready branch: the flag ends cleared, the counter is 0, the read at offset 0 is logged and one more read is outstanding |
| `ProjectAudio.StepKeepsTiles` | project_audio/main.cpp:179-268 | every interrupt and loop pass keeps each logged read one of the sixteen tiles of a window |
| `ProjectAudio.RunKeepsTiles` | project_audio/main.cpp:179-268 | any sequence of events keeps each logged read one of the sixteen tiles |
| `ProjectAudio.RunInBounds` | project_audio/main.cpp:179-319 | from the initial state, whatever the interleaving (a tick during a fill included), every read ever issued lies inside `audio_frame` when it holds at least 16000 samples |
| `ProjectAudio.AudioFirmware.constructor` | project_audio/main.cpp:72-342 | the globals start as declared (flags false, counter and offset 0, all `ledStates` false) and the pins as `led_init` leaves them |
| `ProjectAudio.AudioFirmware.TimerIsrHandler` | project_audio/main.cpp:277-283 | sets `timer_interrupt_flag` and nothing else |
| `ProjectAudio.AudioFirmware.BlinkingTimerIsrHandler` | project_audio/main.cpp:291-296 | sets `blink_interrupt_flag` and nothing else |
| `ProjectAudio.AudioFirmware.PdmPcmIsrHandler` | project_audio/main.cpp:304-320 | performs one completion step of the window assembler on the capture globals and touches nothing else |
| `ProjectAudio.AudioFirmware.SetRed` | project_audio/main.cpp:410-416 | `ledStates.red` and the two red pins as `Leds.Set` describes; the frame admits no other field |
| `ProjectAudio.AudioFirmware.SetBlue` | project_audio/main.cpp:424-429 | the same for blue |
| `ProjectAudio.AudioFirmware.SetGreen` | project_audio/main.cpp:437-442 | the same for green |
| `ProjectAudio.AudioFirmware.SetYellow` | project_audio/main.cpp:450-454 | `ledStates.yellow` and the external yellow pin only |
| `ProjectAudio.AudioFirmware.BlinkingMode` | project_audio/main.cpp:462-480 | changes only the pins, exactly as `Leds.Blink` |
| `ProjectAudio.AudioFirmware.ApplyCombo` | project_audio/main.cpp:225-228 | the four setter calls of one branch, in order, give `Leds.Apply` of the combination |
| `ProjectAudio.AudioFirmware.HandleTimerFlag` | project_audio/main.cpp:181-189 | the timer-flag branch as `TimerBranch` |
| `ProjectAudio.AudioFirmware.HandleReadyFlag` | project_audio/main.cpp:191-259 | the ready-flag branch with its if-chain as `ReadyBranch` |
| `ProjectAudio.AudioFirmware.HandleBlinkFlag` | project_audio/main.cpp:261-264 | clears `blink_interrupt_flag` and runs `blinking_mode` |
| `ProjectAudio.AudioFirmware.LoopIteration` | project_audio/main.cpp:179-268 | one loop pass: the timer, ready and blink branches in that order, each taken when its flag is set |
| `Continuous.Init` | main.cpp:50-104 | the globals as declared (flag false, counter and offset 0, no read logged) and the user LED OFF as initialised |
| `Continuous.Start` | main.cpp:118-124 | the first recording: counter and offset 0, user LED ON, one read of 1024 samples at offset 0 |
| `Continuous.OnSegmentDone` | main.cpp:178-194 | `pdm_pcm_isr_handler` with FRAME_SIZE 1024, as `WindowAssembler.Complete` |
| `Continuous.LoopPass` | main.cpp:129-164 | one pass of `for(;;)`: with the flag up, user LED OFF, flag cleared, the outcome ignored, then counter and offset 0, user LED ON and a new read at 0; without it, nothing |
| `Continuous.CompletionKeepsOneInFlight` | main.cpp:183-193 | a delivered completion keeps the reachable-state invariant |
| `Continuous.ReadyBranchKeepsOneInFlight` | main.cpp:129-164 | the ready branch keeps the reachable-state invariant |
| `Continuous.StepKeepsOneInFlight` | main.cpp:126-168 | every interrupt and loop pass keeps the invariant |
| `Continuous.RunKeepsOneInFlight` | main.cpp:126-168 | the same for any sequence of interrupts and loop passes |
| `Continuous.AtMostOneFill` | main.cpp:118-168 | from the first recording on, at most one read is in flight, none once the window is ready; the counter never exceeds 16, and the current fill's requests are the first tiles |
| `Continuous.StartArms` | main.cpp:118-124 | the initial arm sets counter and offset to 0, lights the user LED and issues one read of 1024 samples at offset 0 |
| `Continuous.ReadyBranchRearms` | main.cpp:129-164 | the branch leaves the flag cleared and always resets counter and offset and issues a read at 0, whatever the classifier answered; without the flag a pass changes nothing |
| `Continuous.FlagAndCounterOwnership` | main.cpp:183-193 | the interrupt never lowers the flag and increments the counter by one modulo 2^32; a loop pass resets the counter only when it handles the flag |
| `Continuous.CaptureCycle` | main.cpp:126-164 | an armed window with 16 completions and the ready branch gives the state of arming again, with the 16 tiles logged |
| `Continuous.WindowBounds` | main.cpp:18-20 | a cycle's 16 reads of 1024 samples fit in `audio_frame` iff TOTAL_SAMPLES >= 16384; the last read is at 15360 and overruns a 16000-sample window by 384 samples |
| `Continuous.StepKeepsTiles` | main.cpp:126-168 | every completion and loop pass keeps each logged read one of the sixteen tiles of a window |
| `Continuous.RunKeepsTiles` | main.cpp:126-168 | any sequence of events keeps each logged read one of the sixteen tiles |
| `Continuous.RunInBounds` | main.cpp:118-194 | from the first recording on, every read ever issued lies inside `audio_frame` when it holds at least 16384 samples |
| `Continuous.ContinuousFirmware.constructor` | main.cpp:50-104 | the globals start as declared and the user LED off |
| `Continuous.ContinuousFirmware.StartCapture` | main.cpp:118-124 | the initial arm as `Start` |
| `Continuous.ContinuousFirmware.PdmPcmIsrHandler` | main.cpp:178-194 | one completion step with FRAME_SIZE 1024, touching only the capture globals |
| `Continuous.ContinuousFirmware.LoopIteration` | main.cpp:126-168 | one loop pass as `LoopPass` |

## Left out

- Peripheral bring-up is left out because it is HAL plumbing: `cybsp_init`, `clock_init`, `timer_init`, `blinking_timer_init`, UART retargeting and PDM/PCM init. The model keeps `led_init` only for the initial pin levels it leaves behind.
- `run_classifier` and `raw_feature_get_data` are a foreign SDK with float conversion. The classifier is an oracle: each loop pass takes its status code and scores as a parameter. Because of this, the ordering "flag cleared before classifying" is not observable in the model.
- Scores are reals compared with 0.5, so a NaN score is not modelled.
- `Classifier.Scores` assumes the deployed classifier has at least seven labels. `project_audio/main.cpp` reads `ei_result.classification` up to index 6 without checking the label count, so with fewer labels it reads past the array. The model does not cover that case.
- `printf` diagnostics are console output only.
- `cyhal_syspm_sleep` is left out: the processor sleeps between passes and the model has no time.
- Interrupt preemption and the races on the unguarded globals are left out. Handlers and whole passes of the main loop are atomic, interleaved steps.
- Interrupts between the branches of one pass of the main loop are not events of the model. In `project_audio/main.cpp` this loses no state: `ProjectAudio.InterruptAfterTimerPart` and `ProjectAudio.InterruptAfterReadyPart` show that each such interrupt gives the state of an interrupt just before or just after the whole pass. The arm has just reset the counter, so a completion right after the timer branch cannot raise the ready flag. In `main.cpp` no read is outstanding while the ready flag is up (`Continuous.AtMostOneFill`), so no completion can arrive during the ready branch.
- Interrupts inside a branch, for example while `run_classifier` runs, are not modelled.
- The board polarity of CYBSP_LED_STATE_ON/OFF (which electrical level lights an LED) is abstracted to the two values `On` and `Off`.
- Ordering of pin writes is not recorded. Only the resulting pin levels are, while read requests are logged in order.
- The return values of `cyhal_pdm_pcm_read_async` are ignored by the firmware. No "segment request failed" path exists to model.
- What the HAL does with a read request issued while another is in flight is not in the modelled files. The model queues it and delivers one completion per request.
- The contents of the audio samples are not modelled, only which requests write which regions.
- No fade ramp or PWM output exists in the modelled code.
- sound/sound.cpp, sound/main.cpp and testing/project_audio_example/source/main.cpp are not part of this model. They are a thin HAL wrapper, a sample-printing driver and a one-shot classifier test.
