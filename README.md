# nRF5340 Audio application core, modelled in Dafny

This project models the control logic of the application core of the
nRF5340 Audio firmware. It covers five parts:

- **Start-up and fatal-error policy** (`main.c`, `macros_common.h`,
  `ble_core.c`).
  - `main()` runs a fixed list of initialisation steps, and ERR_CHK checks
    each result. The first fatal result halts the device.
  - Bits of the board revision mask gate the PMIC and the SD card steps.
    An SD card that reports "no device" is tolerated.
  - The build picks the local audio chain or the USB audio chain.
  - After the Bluetooth host starts, `main()` waits for a ready flag that
    the host's callback sets.
  - The macros are modelled by their effect on the code around them: fall
    through, return a code, or halt.
- **Audio datapath control** (`audio_datapath.c`).
  - A 40-block circular output FIFO with producer and consumer indices.
  - A fallback to two zeroed alternate buffers when the FIFO runs empty.
  - The drift compensation state machine, which steers the audio PLL.
  - The presentation-delay compensation state machine, which inserts or
    removes FIFO blocks.
  - Frame ingest: duplicate and drift checks on timestamps.
  - The start, stop and init guards.
  - C integer rules are kept where they matter: `uint32_t` wrap-around,
    truncating division, and `int32_t` reinterpretation.
- **The CS47L63 codec** (`cs47l63.c`, `hw_0_bsp_cs47l63.c`,
  `cs47l63_syscfg_regs.c`, `hw_codec.c`).
  - The control port is modelled as big-endian SPI framing over a register
    file, with a failure oracle, status scripts and a transaction trace.
  - Read-modify-write, register sequences and acknowledged writes.
  - The interrupt event collector and the driver's state and mode machine.
  - Reset with its bounded boot-done poll.
  - The FLL sequences with their lock poll.
  - Firmware hand-over in 1024-byte chunks, DSP power transitions and the
    board's use cases.
  - The application's volume, mute, configuration and bring-up order.
- **SD card front end** (`sd_card.c`).
  - The "initialised" flag that gates every call.
  - File name length checks and the `"/SD:/" + name` paths.
  - The `*size` in/out parameter and the directory listing loop.
  - The error mapping of `sd_card_init`.
- **BLE ISO transport** (`ble_trans.c`, `ble_trans.h`).
  - One-shot initialisation, and QoS selection by transport and direction.
  - Routing a frame onto ISO channels.
  - A per-channel count of HCI buffers in flight, bounded by the pool
    size.
  - The test-pattern byte.
  - Start and stop dispatch, and the bounded CIS connection retry.

The model follows the source's own form:

- State that the C code updates in place is a Dafny `class`. Examples are
  `main`'s globals, `ctrl_blk` and `alt`, the driver instance, the BSP
  statics, `prev_volume_reg_val`, `sd_init_success` and the transport
  globals.
- Each method is proved against a specification function on values.
- Lemmas state what the code promises about those functions.
- Foreign calls are not modelled. Zephyr, nrfx, the Bluetooth stack,
  FatFs, the fw_img library and the board's SPI/I2C drivers become
  result parameters or oracles. What the code asks of them is recorded as
  a list of calls or bus transactions.

## Model

The "source" column is relative to the repository root.

| member | source | states |
|---|---|---|
| Macros.ErrChk | applications/nrf5340_audio/nrf5340_audio_app/src/utils/macros/macros_common.h:30-35 | A non-zero code halts after reporting that code; zero has no effect. |
| Macros.ErrChkMsg | applications/nrf5340_audio/nrf5340_audio_app/src/utils/macros/macros_common.h:37-43 | Halts exactly on a non-zero code, with the message logged before the report; zero has no effect. |
| Macros.ErrAssert | applications/nrf5340_audio/nrf5340_audio_app/src/utils/macros/macros_common.h:45-50 | Halts exactly on a false (zero) value, so it is ERR_CHK with the truth value inverted. |
| Macros.ErrAssertMsg | applications/nrf5340_audio/nrf5340_audio_app/src/utils/macros/macros_common.h:52-58 | Like ERR_ASSERT, with the message logged before the halt. |
| Macros.RetIfErr | applications/nrf5340_audio/nrf5340_audio_app/src/utils/macros/macros_common.h:60-65 | A non-zero code returns that code from the enclosing function; zero falls through. |
| Macros.RetIfErrMsg | applications/nrf5340_audio/nrf5340_audio_app/src/utils/macros/macros_common.h:67-73 | Like RET_IF_ERR, with the message logged before the return. |
| Macros.CallsMade | applications/nrf5340_audio/nrf5340_audio_app/src/utils/macros/macros_common.h:60-65 | A chain of calls guarded by RET_IF_ERR makes the calls up to and including the first failure, and all of them when none fails. |
| Macros.ChainResult | applications/nrf5340_audio/nrf5340_audio_app/src/utils/macros/macros_common.h:60-65 | Such a chain returns 0 iff every code is 0, and otherwise a non-zero code from the list. |
| Macros.ChainResultIsLastCall | applications/nrf5340_audio/nrf5340_audio_app/src/utils/macros/macros_common.h:60-65 | The chain returns the code of the last call it made, or 0 when all calls succeed. |
| Macros.Min | applications/nrf5340_audio/nrf5340_audio_app/src/utils/macros/macros_common.h:92-94 | The result is one of the arguments and at most both of them. |
| Macros.BitSet | applications/nrf5340_audio/nrf5340_audio_app/src/utils/macros/macros_common.h:107 | Every bit of BIT is set afterwards, and every other bit of REG is kept. |
| Macros.BitClear | applications/nrf5340_audio/nrf5340_audio_app/src/utils/macros/macros_common.h:108 | Every bit of BIT is clear afterwards, and every other bit of REG is kept. |
| Macros.BitSetClearIdempotent | applications/nrf5340_audio/nrf5340_audio_app/src/utils/macros/macros_common.h:107-108 | Setting bits that are already set, or clearing bits that are already clear, changes nothing. |
| Macros.ReportsAreSpaced | applications/nrf5340_audio/nrf5340_audio_app/src/utils/macros/macros_common.h:77-87 | With a non-decreasing clock, each stack-usage report comes from a clock reading, and two successive reports are more than the interval apart. |
| Macros.StackUsageMonitor.Print | applications/nrf5340_audio/nrf5340_audio_app/src/utils/macros/macros_common.h:77-89 | One expansion reports exactly when the 64-bit unsigned uptime test fires, and the static timestamp then moves to the current uptime. |
| Boot.ChannelAssignCheck | applications/nrf5340_audio/nrf5340_audio_app/src/main.c:117-144 | Only a run-time-assigned headset with no stored channel reads buttons. VOLUME_DOWN pressed requests LEFT. Otherwise VOLUME_UP is read, and pressed requests RIGHT. A request returns the store's result; otherwise the first button error is returned. |
| Boot.LedsSet | applications/nrf5340_audio/nrf5340_audio_app/src/main.c:85-115 | The LED colour that follows from the role and the channel, and the first LED driver error, if any, returned unchanged. |
| Boot.CoreAppConfig | applications/nrf5340_audio/nrf5340_audio_app/src/main.c:48-83 | A divider error is returned (offset by the nrfx base) before HFCLK starts, and a missing GPIO device gives -ENODEV before any pin is configured. SCK is configured only after MOSI succeeded, and the low-latency GPIOTE setting is made iff latency mode is off. The result is 0 iff every call succeeded. |
| Boot.PreWaitPlan | applications/nrf5340_audio/nrf5340_audio_app/src/main.c:158-213 | The seventh entry reads the board version, and every mask-gated entry comes after it, so the mask is read before it is tested. |
| Boot.ScheduledAlwaysAll | applications/nrf5340_audio/nrf5340_audio_app/src/main.c:158-177 | Un-gated entries schedule exactly their steps, whatever the mask. |
| Boot.ScheduledBoardSteps | applications/nrf5340_audio/nrf5340_audio_app/src/main.c:179-192 | The gated entries schedule the PMIC pair iff its mask bit is set, and the SD card iff its bit is set. |
| Boot.PlanSchedulesSuccessTrace | applications/nrf5340_audio/nrf5340_audio_app/src/main.c:158-227 | The plan schedules exactly the success trace, both before and after the wait. |
| Boot.FirstFatal | applications/nrf5340_audio/nrf5340_audio_app/src/main.c:158-227 | The position of the first step with a fatal result, or the length of the list; that step's result is fatal. |
| Boot.FirstFatalIsFirst | applications/nrf5340_audio/nrf5340_audio_app/src/main.c:158-227 | Every step before the first fatal one has a result that ERR_CHK lets through. |
| Boot.RunStepsStopsAtFirstFatal | applications/nrf5340_audio/nrf5340_audio_app/src/main.c:158-227 | Running steps from a live state invokes them in order up to and including the first fatal one, and halts there with its code. |
| Boot.BootRunCharacterised | applications/nrf5340_audio/nrf5340_audio_app/src/main.c:158-227 | For any results: let k be the first fatal position. Exactly the steps up to k run, and the device halts there, unless the wait comes first and never ends. |
| Boot.BootRunHaltsBeforeWait | applications/nrf5340_audio/nrf5340_audio_app/src/main.c:158-213 | A fatal step before the wait ends start-up there, before the wait. |
| Boot.BootRunHaltsBeforeWaitInFull | applications/nrf5340_audio/nrf5340_audio_app/src/main.c:158-213 | The same, with the halting step located in the whole trace. |
| Boot.BootRunPastWait | applications/nrf5340_audio/nrf5340_audio_app/src/main.c:212-227 | With no fatal step before the wait: if it never ends, the model stays waiting; otherwise the steps after it run up to their first fatal one. |
| Boot.BootRunPastWaitInFull | applications/nrf5340_audio/nrf5340_audio_app/src/main.c:212-227 | The same, with the halting step, if any, located in the whole trace. |
| Boot.BootCharacterised | applications/nrf5340_audio/nrf5340_audio_app/src/main.c:152-227 | The whole of `main()` up to the event loop, for every build, board mask and oracle: a prefix of the success trace runs and ends at the first fatal result, or in the wait, or in the event loop. |
| Boot.SuccessTraceStartsFixed | applications/nrf5340_audio/nrf5340_audio_app/src/main.c:158-177 | The first seven steps are the same whatever the board and the build. |
| Boot.BootTraceIsPrefixOfPlan | applications/nrf5340_audio/nrf5340_audio_app/src/main.c:158-227 | Whatever the results, no step is skipped, repeated or reordered. |
| Boot.BootHaltsOnlyOnFatal | applications/nrf5340_audio/nrf5340_audio_app/src/main.c:158-227 | A halt happens at the last step invoked, on a fatal result; every earlier step passed. |
| Boot.BootRunHaltsOnlyOnFatal | applications/nrf5340_audio/nrf5340_audio_app/src/main.c:158-227 | The same for a start-up over any step results. |
| Boot.PrefixBeforeFatalPasses | applications/nrf5340_audio/nrf5340_audio_app/src/main.c:158-227 | Every step in the list before the first fatal position passes. |
| Boot.BoardMaskGatesPmicAndSd | applications/nrf5340_audio/nrf5340_audio_app/src/main.c:179-192 | The PMIC pair is in the trace iff the board has a PMIC, and the SD card step iff it has an SD slot. |
| Boot.BoardMaskGatesNothingElse | applications/nrf5340_audio/nrf5340_audio_app/src/main.c:179-192 | No other step's presence depends on the mask. |
| Boot.GatedStepsOnlyOnBoard | applications/nrf5340_audio/nrf5340_audio_app/src/main.c:179-192 | The gated steps appear in no fixed part of the trace. |
| Boot.SdCardNoDeviceTolerated | applications/nrf5340_audio/nrf5340_audio_app/src/main.c:187-208 | An SD card -ENODEV never halts, while any other non-zero SD result does. The two unchecked audio calls never halt. Every other step halts exactly on a non-zero result. |
| Boot.AudioBranchOrderLocal | applications/nrf5340_audio/nrf5340_audio_app/src/main.c:194-213 | On a local-audio build, right after `power_module_init`: datapath, sync timer, I2S, codec, sync event, then `ble_core_init`, and never `audio_usb_init`. |
| Boot.AudioBranchOrderUsb | applications/nrf5340_audio/nrf5340_audio_app/src/main.c:194-213 | On a USB gateway build: `audio_usb_init`, then `ble_core_init`, and none of the local audio steps. |
| Boot.PostWaitStepsNeedReady | applications/nrf5340_audio/nrf5340_audio_app/src/main.c:215-227 | The three steps after the wait run only once the ready callback has fired. |
| Boot.PreWaitTraceHasNoPostSteps | applications/nrf5340_audio/nrf5340_audio_app/src/main.c:194-227 | No step after the wait is part of the plan before it. |
| Boot.PreWaitHasNoPostSteps | applications/nrf5340_audio/nrf5340_audio_app/src/main.c:215-227 | A start-up still before the wait (halted or not) has run no post-wait step. |
| Boot.RunStepsInvokesOnlyItsSteps | applications/nrf5340_audio/nrf5340_audio_app/src/main.c:158-227 | Running steps adds only steps of the list to the trace. |
| Boot.Application.constructor | applications/nrf5340_audio/nrf5340_audio_app/src/main.c:44-45 | The ready flag starts false and the board revision zeroed. |
| Boot.Application.OnBleCoreReady | applications/nrf5340_audio/nrf5340_audio_app/src/main.c:147-150 | The callback sets the ready flag. |
| Boot.Application.Invoke | applications/nrf5340_audio/nrf5340_audio_app/src/main.c:158-227 | Appends the step to the trace, returns its oracle result, and applies the step's effect on the board revision. |
| Boot.Application.RunEntry | applications/nrf5340_audio/nrf5340_audio_app/src/main.c:179-192 | A gated entry is skipped unless its bits are in `board_rev.mask`; an invoked step with a fatal result halts. |
| Boot.Application.RunPlan | applications/nrf5340_audio/nrf5340_audio_app/src/main.c:158-213 | Running a plan gives exactly the steps and halt of `RunSteps` over what the plan schedules under the board's mask. |
| Boot.Application.Run | applications/nrf5340_audio/nrf5340_audio_app/src/main.c:152-227 | `main()` up to the event loop produces exactly the trace and end of `BootSpec` for the build and oracle. |
| Boot.Application.RunAfterWait | applications/nrf5340_audio/nrf5340_audio_app/src/main.c:215-227 | Once the ready flag is observed, the post-wait steps run as `RunSteps` says. |
| Boot.Application.WaitForNetCore | applications/nrf5340_audio/nrf5340_audio_app/src/main.c:215-218 | With the callback firing after n polls, the wait polls n+1 times and returns with the flag observed set. |
| Boot.Application.EventLoopPass | applications/nrf5340_audio/nrf5340_audio_app/src/main.c:229-232 | One pass of the endless loop: the stream control handler runs, then the rate-limited stack report. |
| BleCore.InitSpec | applications/nrf5340_audio/nrf5340_audio_app/src/bluetooth/ble_core.c:71-100 | A NULL callback gives -EINVAL with no call made. Otherwise the watchdog is armed and `bt_enable` called. A net core that does not answer in time halts with -EIO. Otherwise the watchdog is stopped, the LED pin is mapped iff `bt_enable` succeeded, and the first error is returned. |
| BleCore.BleCore.Init | applications/nrf5340_audio/nrf5340_audio_app/src/bluetooth/ble_core.c:71-100 | `ble_core_init` gives the code, calls and stored callback of `InitSpec`. |
| BleCore.BleCore.NetcoreTimeoutHandler | applications/nrf5340_audio/nrf5340_audio_app/src/bluetooth/ble_core.c:28-31 | The watchdog handler halts with -EIO and the net-core message. |
| BleCore.BleCore.OnBtReady | applications/nrf5340_audio/nrf5340_audio_app/src/bluetooth/ble_core.c:42-52 | An error halts with that error and makes no call. Otherwise the address is printed and the stored ready callback is invoked. |
| BleCore.BleCore.LePwrCtrlDisable | applications/nrf5340_audio/nrf5340_audio_app/src/bluetooth/ble_core.c:66-69 | One vendor command sets DIS_POWER_MONITOR to 1, and its result is returned unchanged. |
| AudioDatapath.NextIdx | applications/nrf5340_audio/nrf5340_audio_app/src/audio/audio_datapath.c:95 | One block forward modulo 40, staying in range. |
| AudioDatapath.PrevIdx | applications/nrf5340_audio/nrf5340_audio_app/src/audio/audio_datapath.c:97 | One block back modulo 40; it undoes NEXT_IDX and NEXT_IDX undoes it. |
| AudioDatapath.HfclkAudioValue | applications/nrf5340_audio/nrf5340_audio_app/src/audio/audio_datapath.c:208-217 | The `uint16_t` argument clamped to [APLL_FREQ_MIN, APLL_FREQ_MAX]; a value in range is passed unchanged. |
| AudioDatapath.ApllFreqAdj | applications/nrf5340_audio/nrf5340_audio_app/src/audio/audio_datapath.c:114 | `-(t*1000)/331` with C division: the sign is opposite to the error's, and a phase error within half a block moves the PLL by at most 1510. |
| AudioDatapath.PhaseErr | applications/nrf5340_audio/nrf5340_audio_app/src/audio/audio_datapath.c:273-277 | The folded phase error lies in (-500, 500]. |
| AudioDatapath.PhaseErrCongruent | applications/nrf5340_audio/nrf5340_audio_app/src/audio/audio_datapath.c:273-277 | The phase error equals the wrapped timestamp difference modulo a block period. Without wrap it equals the plain difference modulo the period; across the 32-bit wrap the plain difference is off by 296 modulo the period. |
| AudioDatapath.DriftStateSet | applications/nrf5340_audio/nrf5340_audio_app/src/audio/audio_datapath.c:219-227 | The state afterwards is the new state, whether or not it changed. |
| AudioDatapath.DriftCompCounts | applications/nrf5340_audio/nrf5340_audio_app/src/audio/audio_datapath.c:229-245 | Only every LOCAL_NUM_DATA_PTS-th call acts; the others only count and change nothing else. |
| AudioDatapath.DriftCompSteps | applications/nrf5340_audio/nrf5340_audio_app/src/audio/audio_datapath.c:229-319 | The only state changes are INIT→CALIB, CALIB→OFFSET, OFFSET→LOCKED and LOCKED→OFFSET. The measurement start changes only on entering CALIB, and the centre frequency only when leaving it. |
| AudioDatapath.DriftCompTransitions | applications/nrf5340_audio/nrf5340_audio_app/src/audio/audio_datapath.c:246-314 | Each state's exact transition condition and clock value, including the lock threshold 16 and the unlock threshold 32. |
| AudioDatapath.DriftClockInRange | applications/nrf5340_audio/nrf5340_audio_app/src/audio/audio_datapath.c:229-319 | Whatever the timestamps, every value given to the clock hardware is inside the PLL range. |
| AudioDatapath.DriftLockedKeepsLock | applications/nrf5340_audio/nrf5340_audio_app/src/audio/audio_datapath.c:289-313 | In LOCKED, the lock holds exactly when the folded phase error lies within (-66, 66). |
| AudioDatapath.PresStateSet | applications/nrf5340_audio/nrf5340_audio_app/src/audio/audio_datapath.c:321-337 | Setting the same state changes nothing; a change switches the LED on exactly for LOCKED. |
| AudioDatapath.PresComp | applications/nrf5340_audio/nrf5340_audio_app/src/audio/audio_datapath.c:339-415 | A drift state other than LOCKED resets the state to INIT with no adjustment. A non-zero adjustment comes only from the call that completes a measurement in MEAS. The LED follows the state whenever the state changes. |
| AudioDatapath.PresCompMeasured | applications/nrf5340_audio/nrf5340_audio_app/src/audio/audio_datapath.c:356-393 | A completed measurement: the C-truncated mean error is returned, the counters are cleared, and the state becomes LOCKED or WAIT by the mean error's size. |
| AudioDatapath.PresCompMeasuring | applications/nrf5340_audio/nrf5340_audio_app/src/audio/audio_datapath.c:357-363 | While measuring, each call adds the delay error in 32-bit arithmetic and counts it. |
| AudioDatapath.PresCompOtherStates | applications/nrf5340_audio/nrf5340_audio_app/src/audio/audio_datapath.c:349-412 | INIT starts a measurement, WAIT counts frames before starting over, and LOCKED stays. |
| AudioDatapath.PresLockedMeansSmallAdjustment | applications/nrf5340_audio/nrf5340_audio_app/src/audio/audio_datapath.c:377-390 | A completed measurement goes to LOCKED exactly when its adjustment lies within half a block period, and to WAIT otherwise. The 1000 µs lock threshold never decides. |
| AudioDatapath.CheckTimestamp | applications/nrf5340_audio/nrf5340_audio_app/src/audio/audio_datapath.c:681-716 | Only a frame repeating the last reference is dropped; the minimum-gap `return` cannot be reached. With a buffer and a previous reference: a gap under 1.5 frames that is off one frame by more than the tolerance is replaced by an estimate one frame after the last reference, and whole frames of blocks are missing exactly when the gap is at least 1.5 frames. Otherwise the reference is kept with nothing missing. |
| AudioDatapath.ExpectedDelay | applications/nrf5340_audio/nrf5340_audio_app/src/audio/audio_datapath.c:735 | PRES_DLY_US minus the time since the reference, wrapped to 32 bits. |
| AudioDatapath.AdjustBlocks | applications/nrf5340_audio/nrf5340_audio_app/src/audio/audio_datapath.c:738-762 | Apart from the missed blocks, the count lies within ±20. It is within half a block period of the adjustment when that is below 20.5 ms in magnitude, and is clamped to ±20 beyond. |
| AudioDatapath.OverrunIgnoresWrap | applications/nrf5340_audio/nrf5340_audio_app/src/audio/audio_datapath.c:810-818 | The overrun test compares raw indices: with the producer behind the consumer it never discards, even at 35 queued blocks. |
| AudioDatapath.WriteRun | applications/nrf5340_audio/nrf5340_audio_app/src/audio/audio_datapath.c:822-831 | Writing a run of values keeps the FIFO size; WriteRunSlot states the contents. |
| AudioDatapath.WriteRunSlot | applications/nrf5340_audio/nrf5340_audio_app/src/audio/audio_datapath.c:822-831 | Each slot holds the value written at its ring distance from the start, and slots beyond the run keep their value. |
| AudioDatapath.InsertedStamp | applications/nrf5340_audio/nrf5340_audio_app/src/audio/audio_datapath.c:776-777 | The k-th inserted block is stamped (n-k) block periods before the current time, in 32-bit arithmetic. |
| AudioDatapath.InsertedStamps | applications/nrf5340_audio/nrf5340_audio_app/src/audio/audio_datapath.c:769-781 | The n inserted stamps, oldest first, each as InsertedStamp gives it. |
| AudioDatapath.FrameStamps | applications/nrf5340_audio/nrf5340_audio_app/src/audio/audio_datapath.c:828 | A frame's ten blocks are stamped one block period apart, starting from the current time. |
| AudioDatapath.FrameWriteContents | applications/nrf5340_audio/nrf5340_audio_app/src/audio/audio_datapath.c:820-835 | After a frame is written, the ten slots from the producer index hold its stamps, and the other thirty keep theirs. |
| AudioDatapath.FramedFifoNewest | applications/nrf5340_audio/nrf5340_audio_app/src/audio/audio_datapath.c:810-835 | A frame that is not discarded moves the producer index and the produced count on by ten, and leaves its stamps just behind the new index. |
| AudioDatapath.FifoAfterFrameIndex | applications/nrf5340_audio/nrf5340_audio_app/src/audio/audio_datapath.c:761-835 | One frame: the producer index moves by the adjustment and then, unless the frame is discarded, by ten. Inserted and written blocks are counted; one frame is counted. The consumer index is untouched. |
| AudioDatapath.PresAfterIngest | applications/nrf5340_audio/nrf5340_audio_app/src/audio/audio_datapath.c:718-723 | After the missed-frame step the counter is cleared and the state is WAIT. |
| AudioDatapath.ClockAfter | applications/nrf5340_audio/nrf5340_audio_app/src/audio/audio_datapath.c:208-217 | A write leaves a setting inside the PLL range, and no write keeps the previous setting. |
| AudioDatapath.AltGet | applications/nrf5340_audio/nrf5340_audio_app/src/audio/audio_datapath.c:493-506 | -ENOMEM, changing nothing, exactly when both buffers are in use; otherwise a free buffer (buf_0 first) is handed out and marked. |
| AudioDatapath.AltFree | applications/nrf5340_audio/nrf5340_audio_app/src/audio/audio_datapath.c:513-522 | The released buffer is free and the other keeps its flag; an unknown pointer changes nothing. |
| AudioDatapath.AltGetThenFree | applications/nrf5340_audio/nrf5340_audio_app/src/audio/audio_datapath.c:493-522 | Releasing the buffer just handed out restores the flags. |
| AudioDatapath.AltPoolOfTwo | applications/nrf5340_audio/nrf5340_audio_app/src/audio/audio_datapath.c:476-506 | From two free buffers: buf_0, then buf_1, then -ENOMEM. |
| AudioDatapath.Datapath.constructor | applications/nrf5340_audio/nrf5340_audio_app/src/audio/audio_datapath.c:157-206 | Static storage starts zeroed: stopped, not initialised, both state machines in INIT. |
| AudioDatapath.Datapath.HfclkAudioSet | applications/nrf5340_audio/nrf5340_audio_app/src/audio/audio_datapath.c:208-217 | The clock register is left holding HfclkAudioValue of the argument. |
| AudioDatapath.Datapath.DriftCompStateSet | applications/nrf5340_audio/nrf5340_audio_app/src/audio/audio_datapath.c:219-227 | The drift state becomes the new state, and nothing else changes. |
| AudioDatapath.Datapath.DriftCompensation | applications/nrf5340_audio/nrf5340_audio_app/src/audio/audio_datapath.c:229-319 | The new drift state and clock are exactly DriftComp of the old ones. |
| AudioDatapath.Datapath.DriftCompCalib | applications/nrf5340_audio/nrf5340_audio_app/src/audio/audio_datapath.c:246-264 | The CALIB case, as in DriftAct. |
| AudioDatapath.Datapath.DriftCompOffset | applications/nrf5340_audio/nrf5340_audio_app/src/audio/audio_datapath.c:265-288 | The OFFSET case, as in DriftAct. |
| AudioDatapath.Datapath.DriftCompLocked | applications/nrf5340_audio/nrf5340_audio_app/src/audio/audio_datapath.c:289-314 | The LOCKED case, as in DriftAct. |
| AudioDatapath.Datapath.PresCompStateSet | applications/nrf5340_audio/nrf5340_audio_app/src/audio/audio_datapath.c:321-337 | The state and LED become those of PresStateSet. |
| AudioDatapath.Datapath.PresentationCompensation | applications/nrf5340_audio/nrf5340_audio_app/src/audio/audio_datapath.c:339-415 | Returns the adjustment and leaves the state of PresComp. |
| AudioDatapath.Datapath.AltBufferGet | applications/nrf5340_audio/nrf5340_audio_app/src/audio/audio_datapath.c:493-506 | The result and flags of AltGet. |
| AudioDatapath.Datapath.AltBufferFree | applications/nrf5340_audio/nrf5340_audio_app/src/audio/audio_datapath.c:513-522 | The flags of AltFree. |
| AudioDatapath.Datapath.I2sBlkComplete | applications/nrf5340_audio/nrf5340_audio_app/src/audio/audio_datapath.c:534-631 | The released alternate buffer is freed, and the delay is measured from the consumed block's stamp. If the next block is not the producer's, the consumer index advances and that block goes to I2S. Otherwise an alternate buffer goes out and an underrun is counted, and the handler halts when none is free. Unless it halted, drift compensation runs on the new local timestamp. |
| AudioDatapath.Datapath.ClearBlockStamps | applications/nrf5340_audio/nrf5340_audio_app/src/audio/audio_datapath.c:850 | Every block timestamp becomes 0. |
| AudioDatapath.Datapath.I2sStart | applications/nrf5340_audio/nrf5340_audio_app/src/audio/audio_datapath.c:633-669 | The consumer index steps back twice, and the two blocks passed are handed to I2S, the later one first. A busy RX FIFO halts with -ENOMEM, and a failed RX buffer request halts with its code. |
| AudioDatapath.Datapath.InsertBlocks | applications/nrf5340_audio/nrf5340_audio_app/src/audio/audio_datapath.c:764-781 | The slots take InsertedStamps from the producer index on, the index moves n blocks forward, and n blocks are counted. |
| AudioDatapath.Datapath.RemoveBlocks | applications/nrf5340_audio/nrf5340_audio_app/src/audio/audio_datapath.c:782-790 | The producer index steps back -n blocks, and nothing else changes. |
| AudioDatapath.Datapath.WriteFrame | applications/nrf5340_audio/nrf5340_audio_app/src/audio/audio_datapath.c:820-835 | The ten slots take FrameStamps, and the index and counter advance by ten. |
| AudioDatapath.Datapath.TimestampCheck | applications/nrf5340_audio/nrf5340_audio_app/src/audio/audio_datapath.c:681-716 | Accept or drop, and the new reference, as in CheckTimestamp. |
| AudioDatapath.Datapath.StreamOut | applications/nrf5340_audio/nrf5340_audio_app/src/audio/audio_datapath.c:676-839 | One frame: the timestamp check, then presentation compensation, then the FIFO adjustment and frame output, all as the specification functions say. |
| AudioDatapath.Datapath.OutputFrame | applications/nrf5340_audio/nrf5340_audio_app/src/audio/audio_datapath.c:761-835 | The FIFO and counters become FifoAfterFrame of the old ones. |
| AudioDatapath.Datapath.TonePlay | applications/nrf5340_audio/nrf5340_audio_app/src/audio/audio_datapath.c:433-453 | -EBUSY while a tone plays. The generator's error is returned unchanged. Otherwise a tone becomes active, and a stop timer is armed for a non-zero duration. |
| AudioDatapath.Datapath.ToneStopWorker | applications/nrf5340_audio/nrf5340_audio_app/src/audio/audio_datapath.c:417-422 | No tone is active afterwards. |
| AudioDatapath.Datapath.Start | applications/nrf5340_audio/nrf5340_audio_app/src/audio/audio_datapath.c:841-863 | -ECANCELED when not initialised, then -EALREADY when started; both change nothing. Otherwise the output counters and block stamps are cleared and I2S starts on blocks 39 and 38. The stream is marked started unless the I2S start halted. |
| AudioDatapath.Datapath.Stop | applications/nrf5340_audio/nrf5340_audio_app/src/audio/audio_datapath.c:865-878 | -EALREADY when stopped, changing nothing. Otherwise the stream is stopped, I2S stops, the remote timestamp is cleared and presentation compensation returns to INIT. |
| AudioDatapath.Datapath.Init | applications/nrf5340_audio/nrf5340_audio_app/src/audio/audio_datapath.c:880-887 | Returns 0 with `ctrl_blk` zeroed, marked initialised and the block-complete handler registered. The LED state is kept. |
| BleTransDefs.ConnInterval | applications/nrf5340_audio/nrf5340_audio_app/src/bluetooth/ble_trans.h:13-20 | 6 units exactly when 7.5 ms frames and LC3 are both configured, otherwise 8. |
| BleTransDefs.ConnIntervalUs | applications/nrf5340_audio/nrf5340_audio_app/src/bluetooth/ble_trans.c:28 | 7500 µs exactly in that build, otherwise 10000 µs. |
| BleTransDefs.EnumValues | applications/nrf5340_audio/nrf5340_audio_app/src/bluetooth/ble_trans.h:22-53 | LEFT equals RETURN_MONO. The transport and direction "not set" values are 0, and the link events are in declaration order. |
| BleTrans.InitialCfg | applications/nrf5340_audio/nrf5340_audio_app/src/bluetooth/ble_trans.c:23-24 | Zeroed statics: transport and direction NOT_SET, and one setup entry per channel. |
| BleTrans.InitSpec | applications/nrf5340_audio/nrf5340_audio_app/src/bluetooth/ble_trans.c:854-945 | Keeps one setup entry per channel; the Init lemmas state the outcome. |
| BleTrans.BisInit | applications/nrf5340_audio/nrf5340_audio_app/src/bluetooth/ble_trans.c:875-900 | Keeps the transport and direction stored. Succeeds only for RX or TX, and then stores the RX callback. |
| BleTrans.CisInit | applications/nrf5340_audio/nrf5340_audio_app/src/bluetooth/ble_trans.c:901-930 | Keeps the transport and direction stored. Succeeds only for RX, TX or BIDIR, and then stores the RX callback. |
| BleTrans.InitTail | applications/nrf5340_audio/nrf5340_audio_app/src/bluetooth/ble_trans.c:931-944 | Stores the RX callback. A CIS headset registers its server, and a registration error is the only failure. |
| BleTrans.InitGuards | applications/nrf5340_audio/nrf5340_audio_app/src/bluetooth/ble_trans.c:859-867 | With a direction stored, the call gives -EINVAL and changes nothing. Otherwise the direction is stored even if the call then fails, and a transport already stored gives -EPERM. |
| BleTrans.InitRefuses | applications/nrf5340_audio/nrf5340_audio_app/src/bluetooth/ble_trans.c:875-930 | The first call refuses an unsupported transport and direction pair with -EPERM. |
| BleTrans.InitSucceeds | applications/nrf5340_audio/nrf5340_audio_app/src/bluetooth/ble_trans.c:854-945 | The first call with a supported pair succeeds when every initialiser does. |
| BleTrans.InitAccepts | applications/nrf5340_audio/nrf5340_audio_app/src/bluetooth/ble_trans.c:854-945 | Success means the pair was supported, and it is stored along with the RX callback. |
| BleTrans.InitBisQos | applications/nrf5340_audio/nrf5340_audio_app/src/bluetooth/ble_trans.c:875-900 | BIS: the QoS pointer of the one direction is set, channel 0 alone is bound, and the rx QoS values are untouched. |
| BleTrans.InitCisQos | applications/nrf5340_audio/nrf5340_audio_app/src/bluetooth/ble_trans.c:901-930 | CIS: every channel is bound, and the rx and tx pointers are set by direction. The tx QoS is copied into the rx QoS for RX and BIDIR. |
| BleTrans.InitOnce | applications/nrf5340_audio/nrf5340_audio_app/src/bluetooth/ble_trans.c:859-867 | After a successful init every later call gives -EINVAL and changes nothing. |
| BleTrans.Dispatch | applications/nrf5340_audio/nrf5340_audio_app/src/bluetooth/ble_trans.c:772-810 | A refused request gives -EPERM and no action gives 0; a BIS helper's result is passed on. |
| BleTrans.StartStopDispatch | applications/nrf5340_audio/nrf5340_audio_app/src/bluetooth/ble_trans.c:580-591 | NOT_SET and unknown transports are refused, and CIS needs no action. BIS goes to the helper of its direction and refuses any other. |
| BleTrans.InitEnablesStart | applications/nrf5340_audio/nrf5340_audio_app/src/bluetooth/ble_trans.c:772-810 | A transport that initialised successfully is never refused by start or stop. |
| BleTrans.IsoTxSpec | applications/nrf5340_audio/nrf5340_audio_app/src/bluetooth/ble_trans.c:659-693 | One channel entry per channel; IsoTxCredit states the outcome. |
| BleTrans.IsoTxCredit | applications/nrf5340_audio/nrf5340_audio_app/src/bluetooth/ble_trans.c:644-693 | A full channel refuses with -ENOMEM and warns only on the first refusal in a row. Otherwise the counter rises by one exactly when a buffer was allocated, and the payload is sent exactly when the call returns 0. |
| BleTrans.OverrunWarnsOnce | applications/nrf5340_audio/nrf5340_audio_app/src/bluetooth/ble_trans.c:644-657 | Consecutive refusals on a full channel warn once. |
| BleTrans.IsoTxBounded | applications/nrf5340_audio/nrf5340_audio_app/src/bluetooth/ble_trans.c:659-693 | `iso_tx` never takes a channel past its pool size of 2. |
| BleTrans.NextPattern | applications/nrf5340_audio/nrf5340_audio_app/src/bluetooth/ble_trans.c:710-715 | The next pattern byte is one more, modulo 256. |
| BleTrans.TxPatternSpec | applications/nrf5340_audio/nrf5340_audio_app/src/bluetooth/ble_trans.c:695-718 | One channel entry per channel; TxPatternOutcome states the outcome. |
| BleTrans.TxPatternOutcome | applications/nrf5340_audio/nrf5340_audio_app/src/bluetooth/ble_trans.c:695-718 | An unknown index changes nothing. Otherwise the result is `iso_tx` of `size` copies of the pattern byte, and the byte advances exactly when that returns 0. |
| BleTrans.DataOrPatternSpec | applications/nrf5340_audio/nrf5340_audio_app/src/bluetooth/ble_trans.c:720-736 | One channel entry per channel; DataOrPatternOutcome states the outcome. |
| BleTrans.DataOrPatternOutcome | applications/nrf5340_audio/nrf5340_audio_app/src/bluetooth/ble_trans.c:720-736 | A connected channel sends the first `size` bytes or the pattern through `iso_tx`. No other channel changes, and no counter passes its bound. |
| BleTrans.TxSpec | applications/nrf5340_audio/nrf5340_audio_app/src/bluetooth/ble_trans.c:743-770 | One channel entry per channel; TxRouting and TxStereo state the outcome. |
| BleTrans.TxRouting | applications/nrf5340_audio/nrf5340_audio_app/src/bluetooth/ble_trans.c:743-770 | BIS sends the whole frame on channel 0, and so does LEFT (which is RETURN_MONO) over CIS. Any CIS type but STEREO and RETURN_MONO gives -EPERM and changes nothing, RIGHT included. |
| BleTrans.TxStereo | applications/nrf5340_audio/nrf5340_audio_app/src/bluetooth/ble_trans.c:743-770 | Over CIS, STEREO sends size/2 bytes on channel 0 and the next size/2 on channel 1. A disconnected channel 0 is skipped. With both channels connected, a 0 result means both halves went out. |
| BleTrans.TxBounded | applications/nrf5340_audio/nrf5340_audio_app/src/bluetooth/ble_trans.c:743-770 | No transmission takes a counter past its pool size. |
| BleTrans.Connected | applications/nrf5340_audio/nrf5340_audio_app/src/bluetooth/ble_trans.c:192-202 | The count of CONNECTED channels, at most MAX_CHAN. |
| BleTrans.ConnectedUpdate | applications/nrf5340_audio/nrf5340_audio_app/src/bluetooth/ble_trans.c:192-202 | Changing one channel's state changes the count by that channel's contribution. |
| BleTrans.SendEvents | applications/nrf5340_audio/nrf5340_audio_app/src/bluetooth/ble_trans.c:253-257 | Sending events through ERR_CHK_MSG halts exactly when the queue has room for fewer events than are sent. The events before the refused one are in the queue, in order. |
| BleTrans.ConnectedSpec | applications/nrf5340_audio/nrf5340_audio_app/src/bluetooth/ble_trans.c:239-262 | One channel entry per channel. ConnectedOutcome states the outcome, including the halt on a refused event. |
| BleTrans.ConnectedOutcome | applications/nrf5340_audio/nrf5340_audio_app/src/bluetooth/ble_trans.c:239-262 | The channel becomes connected with its counter reset, and no other channel changes. Over CIS, CONNECTED then LINK_READY are sent exactly when no channel was connected before; otherwise nothing is sent. A refused event halts the device, after the events before it were sent. |
| BleTrans.DisconnectedSpec | applications/nrf5340_audio/nrf5340_audio_app/src/bluetooth/ble_trans.c:264-306 | One channel entry per channel. DisconnectedOutcome states the outcome, including the halt on a refused event. |
| BleTrans.DisconnectedOutcome | applications/nrf5340_audio/nrf5340_audio_app/src/bluetooth/ble_trans.c:264-306 | The channel becomes disconnected with its counter kept. DISCONNECTED is reported by a CIS gateway exactly when the last channel goes down, and by a CIS headset always. A BIS link reports it exactly for a receiver whose link the local host did not end. A report the event queue refuses halts the device instead. |
| BleTrans.SentSpec | applications/nrf5340_audio/nrf5340_audio_app/src/bluetooth/ble_trans.c:311-314 | One channel entry per channel; CallbacksKeepBound states the outcome. |
| BleTrans.CallbacksKeepBound | applications/nrf5340_audio/nrf5340_audio_app/src/bluetooth/ble_trans.c:239-314 | A release lowers the counter by one and a connection resets it; neither breaks the pool bound. |
| BleTrans.MsgqPut | applications/nrf5340_audio/nrf5340_audio_app/src/bluetooth/ble_trans.c:58 | A full queue refuses with -ENOMSG; otherwise the item is appended. |
| BleTrans.Schedule | applications/nrf5340_audio/nrf5340_audio_app/src/bluetooth/ble_trans.c:593-622 | `k_work_schedule`: pending work keeps its delay; otherwise the work is scheduled after the given delay. |
| BleTrans.CisConnectNoMatch | applications/nrf5340_audio/nrf5340_audio_app/src/bluetooth/ble_trans.c:827-847 | With no matching ACL from index i on, the rest of the loop changes nothing. It halts if a peer lookup fails and returns 0 otherwise. |
| BleTrans.CisConnectQueues | applications/nrf5340_audio/nrf5340_audio_app/src/bluetooth/ble_trans.c:827-847 | A failed lookup before the match halts. Otherwise the matching ACL's channel is queued with 0 retries and the work is scheduled after 500·i ms, or a full queue gives -ENOMSG and changes nothing. A failed lookup after a queued match halts. |
| BleTrans.CisConnectUnknown | applications/nrf5340_audio/nrf5340_audio_app/src/bluetooth/ble_trans.c:827-847 | An unknown connection queues nothing. It returns 0, or halts if a peer lookup fails. |
| BleTrans.WorkOutcome | applications/nrf5340_audio/nrf5340_audio_app/src/bluetooth/ble_trans.c:593-622 | A failed peer lookup halts. Otherwise the head is tried once. Success dequeues it and cancels the schedule. A failure with retries left re-queues it with one more retry and reschedules. The last failure drops it and disconnects its ACL. |
| BleTrans.Repeat | applications/nrf5340_audio/nrf5340_audio_app/src/bluetooth/ble_trans.c:593-622 | n copies of a channel index. |
| BleTrans.FailRunsRequeue | applications/nrf5340_audio/nrf5340_audio_app/src/bluetooth/ble_trans.c:593-622 | The first n failures leave the channel queued with n retries. |
| BleTrans.RetryGivesUp | applications/nrf5340_audio/nrf5340_audio_app/src/bluetooth/ble_trans.c:593-622 | A failing channel is tried exactly 5 times; the fifth failure disconnects its ACL and leaves nothing queued or scheduled. |
| BleTrans.Trans.constructor | applications/nrf5340_audio/nrf5340_audio_app/src/bluetooth/ble_trans.c:23-67 | The zeroed statics of InitialCfg, no channel connected, and an empty queue. |
| BleTrans.Trans.Init | applications/nrf5340_audio/nrf5340_audio_app/src/bluetooth/ble_trans.c:854-945 | The code and configuration of InitSpec, whose guards, refusals and once-only property the Init lemmas state. |
| BleTrans.Trans.InitFinish | applications/nrf5340_audio/nrf5340_audio_app/src/bluetooth/ble_trans.c:931-944 | The code and configuration of InitTail. |
| BleTrans.Trans.IsoTx | applications/nrf5340_audio/nrf5340_audio_app/src/bluetooth/ble_trans.c:659-693 | The code, channels, sends and warnings of IsoTxSpec. IsoTxCredit states their meaning, and IsoTxBounded keeps the pool bound. |
| BleTrans.Trans.TxPattern | applications/nrf5340_audio/nrf5340_audio_app/src/bluetooth/ble_trans.c:695-718 | The code, channels and sends of TxPatternSpec. |
| BleTrans.Trans.DataOrPattern | applications/nrf5340_audio/nrf5340_audio_app/src/bluetooth/ble_trans.c:720-736 | The code, channels and sends of DataOrPatternSpec. |
| BleTrans.Trans.Tx | applications/nrf5340_audio/nrf5340_audio_app/src/bluetooth/ble_trans.c:743-770 | The code, channels and sends of TxSpec, which TxRouting, TxStereo and TxBounded characterise. |
| BleTrans.Trans.TxStereoHalves | applications/nrf5340_audio/nrf5340_audio_app/src/bluetooth/ble_trans.c:749-759 | The STEREO branch, with the code, channels and sends of TxSpec. |
| BleTrans.Trans.NumCisConnected | applications/nrf5340_audio/nrf5340_audio_app/src/bluetooth/ble_trans.c:192-202 | The number of connected channels. |
| BleTrans.Trans.ConnectedCb | applications/nrf5340_audio/nrf5340_audio_app/src/bluetooth/ble_trans.c:239-262 | The channels, events and halt of ConnectedSpec. |
| BleTrans.Trans.DisconnectedCb | applications/nrf5340_audio/nrf5340_audio_app/src/bluetooth/ble_trans.c:264-306 | The channels, events and halt of DisconnectedSpec. |
| BleTrans.Trans.SendEvent | applications/nrf5340_audio/nrf5340_audio_app/src/bluetooth/ble_trans.c:253-254 | One `ble_event_send` with its ERR_CHK_MSG: it halts exactly when the queue is full, and otherwise appends the event. |
| BleTrans.Trans.SentCb | applications/nrf5340_audio/nrf5340_audio_app/src/bluetooth/ble_trans.c:311-314 | The channels of SentSpec: one buffer of the channel is released. |
| BleTrans.Trans.CisConnect | applications/nrf5340_audio/nrf5340_audio_app/src/bluetooth/ble_trans.c:827-847 | Halts exactly when the connect loop does. Otherwise it leaves the loop's code, queue and schedule. CisConnectQueues and CisConnectUnknown state them. |
| BleTrans.Trans.WorkCisConn | applications/nrf5340_audio/nrf5340_audio_app/src/bluetooth/ble_trans.c:593-622 | Halts exactly when WorkSpec does: on an empty queue, on a failed peer lookup, or when re-queueing a failed channel fails. Otherwise it leaves WorkSpec's queue, schedule, attempts and dropped channels. |
| Cs47l63Bus.BytesBE | applications/nrf5340_audio/ext/cirrus_logic/cs47l63/cs47l63.c:398-401 | Four bytes of a word. The two round-trip lemmas show these are the word's bytes, most significant first. |
| Cs47l63Bus.WordBytesRoundTrip | applications/nrf5340_audio/ext/cirrus_logic/cs47l63/cs47l63.c:398-427 | Decoding the big-endian bytes of a word gives the word back. |
| Cs47l63Bus.BytesWordRoundTrip | applications/nrf5340_audio/ext/cirrus_logic/cs47l63/cs47l63.c:398-427 | Encoding the word of four bytes gives the bytes back. |
| Cs47l63Bus.ReadHeader | applications/nrf5340_audio/ext/cirrus_logic/cs47l63/cs47l63.c:406-407 | A four-byte header; ReadHeaderBits states its bits. |
| Cs47l63Bus.ReadHeaderBits | applications/nrf5340_audio/ext/cirrus_logic/cs47l63/cs47l63.c:406-407 | The read header is the write header with the read bit set and nothing else changed. |
| Cs47l63Bus.HeaderAddrDecodes | applications/nrf5340_audio/ext/cirrus_logic/cs47l63/cs47l63.c:398-407 | For every address below 2^31, both headers name the address itself. |
| Cs47l63Bus.RegAfterStore | applications/nrf5340_audio/ext/cirrus_logic/cs47l63/cs47l63.c:449-487 | Storing a value changes what that address reads as, and nothing else. |
| Cs47l63Bus.SpiRead4 | applications/nrf5340_audio/ext/cirrus_logic/cs47l63/cs47l63.c:409-428 | The read is recorded and the registers are kept. It fails exactly on a failing address. Otherwise it returns four bytes, which for an unscripted address are the register's value. |
| Cs47l63Bus.StoreWords | applications/nrf5340_audio/ext/cirrus_logic/cs47l63/cs47l63.c:257-286 | Four data bytes store their word at the address, through the register's store rule. Fewer than four bytes store nothing. |
| Cs47l63Bus.SpiWriteData | applications/nrf5340_audio/ext/cirrus_logic/cs47l63/cs47l63.c:470-478 | The write is recorded; it fails on a failing address, and otherwise stores the data. |
| Cs47l63Bus.RegBytes | applications/nrf5340_audio/ext/cirrus_logic/cs47l63/cs47l63.c:305-337 | Four bytes per register. |
| Cs47l63Bus.SpiReadBlock | applications/nrf5340_audio/ext/cirrus_logic/cs47l63/cs47l63.c:305-337 | The read is recorded and nothing else changes. It fails on a failing address, and otherwise returns exactly `len` bytes. |
| Cs47l63Bus.SpiReadLen | applications/nrf5340_audio/ext/cirrus_logic/cs47l63/cs47l63.c:305-337 | The read is recorded. It fails on a failing address, and otherwise returns exactly `len` bytes. |
| Cs47l63Bus.Bus.Read | applications/nrf5340_audio/ext/cirrus_logic/cs47l63/cs47l63.c:411-416 | The device state and bytes of SpiReadLen. The status is OK exactly when the read succeeded, and FAIL otherwise. |
| Cs47l63Bus.Bus.Write | applications/nrf5340_audio/ext/cirrus_logic/cs47l63/cs47l63.c:470-478 | The device state of SpiWriteData. The status is OK exactly when the write was accepted, and FAIL otherwise. |
| Cs47l63.ReadRegSpec | applications/nrf5340_audio/ext/cirrus_logic/cs47l63/cs47l63.c:387-433 | Off the SPI bus the read fails and there is no transaction. On it, one read transaction is made, the read fails exactly at a failing address, and the register file is kept. |
| Cs47l63.ReadRegValue | applications/nrf5340_audio/ext/cirrus_logic/cs47l63/cs47l63.c:387-433 | A successful read returns the register file's value or the next scripted status value. |
| Cs47l63.WriteRegSpec | applications/nrf5340_audio/ext/cirrus_logic/cs47l63/cs47l63.c:449-487 | Off the SPI bus nothing is sent and the call succeeds. On it, one write transaction is made, and it is refused exactly at a failing address. |
| Cs47l63.WriteRegStores | applications/nrf5340_audio/ext/cirrus_logic/cs47l63/cs47l63.c:449-487 | A successful write stores the value there and nowhere else. |
| Cs47l63.MergeBits | applications/nrf5340_audio/ext/cirrus_logic/cs47l63/cs47l63.c:499 | `(orig & ~mask) \| val` sets every bit of val, and keeps every bit outside the mask when val lies within it. |
| Cs47l63.UpdateRegTransactions | applications/nrf5340_audio/ext/cirrus_logic/cs47l63/cs47l63.c:489-511 | The read, then a write of the merged value exactly when the read succeeded and the value changes. The call succeeds iff both did. |
| Cs47l63.UpdateRegAfterRead | applications/nrf5340_audio/ext/cirrus_logic/cs47l63/cs47l63.c:497-510 | The shape of the call once the read has returned. |
| Cs47l63.UpdateRegStores | applications/nrf5340_audio/ext/cirrus_logic/cs47l63/cs47l63.c:489-511 | On a healthy ordinary register the merged value is stored when it differs, and the file is untouched otherwise. |
| Cs47l63.UpdateRegOffSpi | applications/nrf5340_audio/ext/cirrus_logic/cs47l63/cs47l63.c:489-511 | Off the SPI bus every update fails, because its read does. |
| Cs47l63.SequenceSpec | applications/nrf5340_audio/ext/cirrus_logic/cs47l63/cs47l63.c:563-586 | An empty sequence fails, because `ret` starts as FAIL. Any other sequence is written entry by entry. |
| Cs47l63.WriteFrames | applications/nrf5340_audio/ext/cirrus_logic/cs47l63/cs47l63.c:563-586 | One write frame per entry. |
| Cs47l63.FirstWriteFail | applications/nrf5340_audio/ext/cirrus_logic/cs47l63/cs47l63.c:563-586 | An index no greater than the length. WriteAllOutcome and WriteAllTrace give it its meaning as the first refused entry. |
| Cs47l63.Reached | applications/nrf5340_audio/ext/cirrus_logic/cs47l63/cs47l63.c:563-586 | The entries up to and including the first refused one. |
| Cs47l63.WriteAllOutcome | applications/nrf5340_audio/ext/cirrus_logic/cs47l63/cs47l63.c:563-586 | On SPI a sequence succeeds iff the bus refuses none of its entries. |
| Cs47l63.WriteAllTrace | applications/nrf5340_audio/ext/cirrus_logic/cs47l63/cs47l63.c:563-586 | The entries are written in order up to the first refused one, and nothing after it. |
| Cs47l63.WriteAllAppend | applications/nrf5340_audio/ext/cirrus_logic/cs47l63/cs47l63.c:563-586 | Writing `a + b` is writing a and then, if all of a was accepted, b. |
| Cs47l63.WriteAllOffSpi | applications/nrf5340_audio/ext/cirrus_logic/cs47l63/cs47l63.c:563-586 | Off the SPI bus every entry "succeeds" with no transaction. |
| Cs47l63.AckRead | applications/nrf5340_audio/ext/cirrus_logic/cs47l63/cs47l63.c:538-552 | On SPI, one poll read adds one transaction. Off it there is no transaction and the previous value is kept. |
| Cs47l63.AckPollBounded | applications/nrf5340_audio/ext/cirrus_logic/cs47l63/cs47l63.c:531-561 | The acknowledgement poll never reads more than CS47L63_POLL_ACK_CTRL_MAX times. |
| Cs47l63.AckPollAllReadsFail | applications/nrf5340_audio/ext/cirrus_logic/cs47l63/cs47l63.c:531-561 | Off the SPI bus every read fails, so only the uninitialised `temp_val` decides. The poll succeeds exactly when it runs at least once and that value is 0. |
| Cs47l63.SymbolAddrFirst | applications/nrf5340_audio/ext/cirrus_logic/cs47l63/cs47l63.c:200-212 | 0 when no entry has the id; otherwise the first such entry's address. |
| Cs47l63.FirstDspSymbol | applications/nrf5340_audio/ext/cirrus_logic/cs47l63/cs47l63.c:226-236 | The first non-zero lookup over the DSPs from i on, or 0. |
| Cs47l63.DspSymbol | applications/nrf5340_audio/ext/cirrus_logic/cs47l63/cs47l63.c:214-238 | 0 for a core above NUM_DSP; otherwise the core's own table, or every core for 0. |
| Cs47l63.BlockArgsWholeRegisters | applications/nrf5340_audio/ext/cirrus_logic/cs47l63/cs47l63.c:1052-1074 | A block that passes the guard holds at least one whole register. |
| Cs47l63.CoreInRangeIsCoreOne | applications/nrf5340_audio/ext/cirrus_logic/cs47l63/cs47l63.c:1097-1152 | The accepted core numbers are exactly 1. |
| Cs47l63.EventScanStep | applications/nrf5340_audio/ext/cirrus_logic/cs47l63/cs47l63.c:831-851 | One step of the scan, for an entry whose value has been obtained. |
| Cs47l63.EventScanLength | applications/nrf5340_audio/ext/cirrus_logic/cs47l63/cs47l63.c:822-854 | The scan tests one value per entry reached, and succeeds iff it reaches them all. |
| Cs47l63.EventScanReuse | applications/nrf5340_audio/ext/cirrus_logic/cs47l63/cs47l63.c:831-851 | An entry on the previous entry's register is tested against that entry's value. |
| Cs47l63.EventScanFlags | applications/nrf5340_audio/ext/cirrus_logic/cs47l63/cs47l63.c:822-854 | The flags collected are exactly those of the entries whose tested value has their mask bit set. |
| Cs47l63.EventHandlerFlags | applications/nrf5340_audio/ext/cirrus_logic/cs47l63/cs47l63.c:822-854 | The handler succeeds iff it tested every entry, and reports exactly the events whose bit was set. |
| Cs47l63.EventHandlerOffSpi | applications/nrf5340_audio/ext/cirrus_logic/cs47l63/cs47l63.c:822-854 | Off the SPI bus the first read fails and no event is reported. |
| Cs47l63.IrqCallbackSpec | applications/nrf5340_audio/ext/cirrus_logic/cs47l63/cs47l63.c:358-371 | Only a BSP_STATUS_OK interrupt asks for event handling, and only the mode changes. |
| Cs47l63.ProcessIdle | applications/nrf5340_audio/ext/cirrus_logic/cs47l63/cs47l63.c:921-962 | In UNCONFIGURED and ERROR `process` succeeds and changes nothing. |
| Cs47l63.ProcessOutcome | applications/nrf5340_audio/ext/cirrus_logic/cs47l63/cs47l63.c:921-962 | It fails only when the handler fails, and then stays in HANDLING_EVENTS with the flags pending. Otherwise it ends in HANDLING_CONTROLS and delivers the flags once to the callback, if any. |
| Cs47l63.ReadRegConsumes | applications/nrf5340_audio/ext/cirrus_logic/cs47l63/cs47l63.c:387-433 | A successful read of a scripted address consumes the script's first value. |
| Cs47l63.BootPollOutcome | applications/nrf5340_audio/ext/cirrus_logic/cs47l63/cs47l63.c:985-1002 | The poll succeeds iff one of the first 20 values has BOOT_DONE; the 21st read is made but never tested. |
| Cs47l63.SyscfgWrites | applications/nrf5340_audio/ext/cirrus_logic/cs47l63/cs47l63.c:1020-1028 | One raw write per table entry, in order. |
| Cs47l63.ResetSucceeds | applications/nrf5340_audio/ext/cirrus_logic/cs47l63/cs47l63.c:968-1046 | A reset succeeds only if the boot-done poll did, and then both ids are stored. |
| Cs47l63.ResetPollFails | applications/nrf5340_audio/ext/cirrus_logic/cs47l63/cs47l63.c:985-1002 | After a failed poll nothing else is attempted and no id is stored. |
| Cs47l63.ResetOffSpi | applications/nrf5340_audio/ext/cirrus_logic/cs47l63/cs47l63.c:968-1046 | Off the SPI bus the reset fails having changed nothing. |
| Cs47l63.WriteBlockSpec | applications/nrf5340_audio/ext/cirrus_logic/cs47l63/cs47l63.c:1052-1060 | A rejected block fails without a transfer. |
| Cs47l63.ReadBlockSpec | applications/nrf5340_audio/ext/cirrus_logic/cs47l63/cs47l63.c:1066-1074 | A rejected block fails without a transfer; on success `length` bytes are returned. |
| Cs47l63.WriteBlockStores | applications/nrf5340_audio/ext/cirrus_logic/cs47l63/cs47l63.c:1052-1060 | An accepted block is one transfer that stores each of its words at consecutive registers. |
| Cs47l63.BootSpec | applications/nrf5340_audio/ext/cirrus_logic/cs47l63/cs47l63.c:1097-1110 | Core 1 gets the firmware description (detached with NULL); any other core fails and changes nothing. |
| Cs47l63.BootThenFindSymbol | applications/nrf5340_audio/ext/cirrus_logic/cs47l63/cs47l63.c:1097-1110 | After a successful boot call, symbol lookup on that core searches the new firmware. |
| Cs47l63.PowerUpConfig | applications/nrf5340_audio/ext/cirrus_logic/cs47l63/cs47l63.c:607-631 | 23 writes to the MPU lock register and regions. The two unlock codes come first, the lock code last, and none has a delay. |
| Cs47l63.BankLoopFlat | applications/nrf5340_audio/ext/cirrus_logic/cs47l63/cs47l63.c:747-804 | The nested bank loops are the flat sequence of bank writes, stopping at the first failure. |
| Cs47l63.AddrWrites | applications/nrf5340_audio/ext/cirrus_logic/cs47l63/cs47l63.c:755-762 | One write of the value per address. |
| Cs47l63.PowerRejects | applications/nrf5340_audio/ext/cirrus_logic/cs47l63/cs47l63.c:1116-1152 | A core other than 1, or an unknown power state, fails before any transaction. |
| Cs47l63.PowerUpOffSpi | applications/nrf5340_audio/ext/cirrus_logic/cs47l63/cs47l63.c:604-676 | Off the SPI bus power-up fails with nothing sent. |
| Cs47l63.BankAddrsExact | applications/nrf5340_audio/ext/cirrus_logic/cs47l63/cs47l63.c:755 | The loop visits exactly the addresses from start to end that lie a multiple of 4 above the start, in increasing order. |
| Cs47l63Driver.FindSymbolIn | applications/nrf5340_audio/ext/cirrus_logic/cs47l63/cs47l63.c:200-212 | Returns the first entry's address for the id, or 0. |
| Cs47l63Driver.Driver.constructor | applications/nrf5340_audio/ext/cirrus_logic/cs47l63/cs47l63.c:864-880 | A zeroed driver in UNCONFIGURED, handling controls, with no flags. |
| Cs47l63Driver.Driver.Initialize | applications/nrf5340_audio/ext/cirrus_logic/cs47l63/cs47l63.c:864-880 | Returns OK with the driver zeroed. |
| Cs47l63Driver.Driver.Configure | applications/nrf5340_audio/ext/cirrus_logic/cs47l63/cs47l63.c:886-915 | NULL fails and changes nothing. Otherwise the configuration is stored and the GPIO result returned; on success DSP 1's table is set and the state is CONFIGURED. |
| Cs47l63Driver.Driver.ReadReg | applications/nrf5340_audio/ext/cirrus_logic/cs47l63/cs47l63.c:387-433 | The status, value and bus of ReadRegSpec; on failure `*val` is kept. |
| Cs47l63Driver.Driver.WriteReg | applications/nrf5340_audio/ext/cirrus_logic/cs47l63/cs47l63.c:449-487 | The status and bus of WriteRegSpec. |
| Cs47l63Driver.Driver.UpdateReg | applications/nrf5340_audio/ext/cirrus_logic/cs47l63/cs47l63.c:489-511 | The status and bus of UpdateRegSpec. |
| Cs47l63Driver.Driver.WriteAckedReg | applications/nrf5340_audio/ext/cirrus_logic/cs47l63/cs47l63.c:531-561 | The status and bus of WriteAckedSpec. |
| Cs47l63Driver.Driver.AckReadStep | applications/nrf5340_audio/ext/cirrus_logic/cs47l63/cs47l63.c:542-547 | The value and bus of AckRead. |
| Cs47l63Driver.Driver.WriteRegSequence | applications/nrf5340_audio/ext/cirrus_logic/cs47l63/cs47l63.c:563-586 | The status and bus of SequenceSpec. |
| Cs47l63Driver.Driver.FindSymbol | applications/nrf5340_audio/ext/cirrus_logic/cs47l63/cs47l63.c:214-238 | Returns DspSymbol over the driver's DSP table. |
| Cs47l63Driver.Driver.IrqCallback | applications/nrf5340_audio/ext/cirrus_logic/cs47l63/cs47l63.c:358-371 | The mode of IrqCallbackSpec. |
| Cs47l63Driver.Driver.EventHandler | applications/nrf5340_audio/ext/cirrus_logic/cs47l63/cs47l63.c:822-854 | The status, flags and bus of EventHandlerSpec. |
| Cs47l63Driver.Driver.ScanEntry | applications/nrf5340_audio/ext/cirrus_logic/cs47l63/cs47l63.c:831-851 | One entry of the scan, as EventScan says. |
| Cs47l63Driver.Driver.AckEntry | applications/nrf5340_audio/ext/cirrus_logic/cs47l63/cs47l63.c:841-849 | The flags and bus of EntryFlags and EntryAck. |
| Cs47l63Driver.Driver.FetchEntry | applications/nrf5340_audio/ext/cirrus_logic/cs47l63/cs47l63.c:833-840 | The value and bus of EntryRead. |
| Cs47l63Driver.Driver.Process | applications/nrf5340_audio/ext/cirrus_logic/cs47l63/cs47l63.c:921-962 | The status, mode, flags, notifications and bus of ProcessSpec. |
| Cs47l63Driver.Driver.PollBootDone | applications/nrf5340_audio/ext/cirrus_logic/cs47l63/cs47l63.c:985-1002 | The outcome and bus of BootPoll. |
| Cs47l63Driver.Driver.WriteSyscfg | applications/nrf5340_audio/ext/cirrus_logic/cs47l63/cs47l63.c:1020-1028 | The status and bus of WriteAll over the configuration writes. |
| Cs47l63Driver.Driver.UnmaskIrqs | applications/nrf5340_audio/ext/cirrus_logic/cs47l63/cs47l63.c:1030-1041 | The status and bus of Unmask from entry 1. |
| Cs47l63Driver.Driver.Reset | applications/nrf5340_audio/ext/cirrus_logic/cs47l63/cs47l63.c:968-1046 | The status, ids, state and bus of ResetSpec; success puts the driver in STANDBY. |
| Cs47l63Driver.Driver.ReadIds | applications/nrf5340_audio/ext/cirrus_logic/cs47l63/cs47l63.c:1004-1010 | The rest of the reset after the poll, as ResetIds says. |
| Cs47l63Driver.Driver.ReadRevid | applications/nrf5340_audio/ext/cirrus_logic/cs47l63/cs47l63.c:1011-1017 | The rest of the reset after DEVID, as ResetRevid says. |
| Cs47l63Driver.Driver.ConfigureAfterReset | applications/nrf5340_audio/ext/cirrus_logic/cs47l63/cs47l63.c:1019-1043 | The configuration and unmasking, as ResetConfigure says. |
| Cs47l63Driver.Driver.BulkWriteBlock | applications/nrf5340_audio/ext/cirrus_logic/cs47l63/cs47l63.c:257-286 | The status and bus of SpiWriteData. |
| Cs47l63Driver.Driver.BulkReadBlock | applications/nrf5340_audio/ext/cirrus_logic/cs47l63/cs47l63.c:305-337 | The status, bytes and bus of SpiReadLen. |
| Cs47l63Driver.Driver.WriteBlock | applications/nrf5340_audio/ext/cirrus_logic/cs47l63/cs47l63.c:1052-1060 | The status and bus of WriteBlockSpec. |
| Cs47l63Driver.Driver.ReadBlock | applications/nrf5340_audio/ext/cirrus_logic/cs47l63/cs47l63.c:1066-1074 | The status, data and bus of ReadBlockSpec. |
| Cs47l63Driver.Driver.Boot | applications/nrf5340_audio/ext/cirrus_logic/cs47l63/cs47l63.c:1097-1110 | The status and DSP table of BootSpec. |
| Cs47l63Driver.Driver.PowerUp | applications/nrf5340_audio/ext/cirrus_logic/cs47l63/cs47l63.c:604-676 | The status and bus of PowerUpSpec. |
| Cs47l63Driver.Driver.PowerDown | applications/nrf5340_audio/ext/cirrus_logic/cs47l63/cs47l63.c:695-731 | The status and bus of PowerDownSpec. |
| Cs47l63Driver.Driver.PowerMem | applications/nrf5340_audio/ext/cirrus_logic/cs47l63/cs47l63.c:747-804 | The status and bus of WriteAll over the bank writes. |
| Cs47l63Driver.Driver.WriteBank | applications/nrf5340_audio/ext/cirrus_logic/cs47l63/cs47l63.c:755-762 | The status and bus of WriteAll over one bank's addresses. |
| Cs47l63Driver.Driver.Power | applications/nrf5340_audio/ext/cirrus_logic/cs47l63/cs47l63.c:1116-1152 | The status and bus of PowerSpec. |
| Cs47l63Bsp.UpdateAllAppend | applications/nrf5340_audio/ext/cirrus_logic/cs47l63/bsp/hw_0_bsp_cs47l63.c:269-406 | Updating `a + b` is updating a and then, if all of a succeeded, b. |
| Cs47l63Bsp.UpdateAllOffSpi | applications/nrf5340_audio/ext/cirrus_logic/cs47l63/bsp/hw_0_bsp_cs47l63.c:269-406 | Off the SPI bus a non-empty update sequence fails at once and changes nothing. |
| Cs47l63Bsp.StatusReads | applications/nrf5340_audio/ext/cirrus_logic/cs47l63/bsp/hw_0_bsp_cs47l63.c:250-264 | k frames. WaitFllReads shows that a poll's trace is exactly such a run of status reads. |
| Cs47l63Bsp.WaitFllReads | applications/nrf5340_audio/ext/cirrus_logic/cs47l63/bsp/hw_0_bsp_cs47l63.c:247-267 | The poll makes between one and n transactions, all of them status reads, and changes no register. |
| Cs47l63Bsp.WaitFllSteady | applications/nrf5340_audio/ext/cirrus_logic/cs47l63/bsp/hw_0_bsp_cs47l63.c:247-267 | With a steady status, the poll succeeds iff the lock field has the wanted value; otherwise it fails after n reads. |
| Cs47l63Bsp.WaitFllOffSpi | applications/nrf5340_audio/ext/cirrus_logic/cs47l63/bsp/hw_0_bsp_cs47l63.c:247-267 | Off the SPI bus the first status read fails. |
| Cs47l63Bsp.FllOutcome | applications/nrf5340_audio/ext/cirrus_logic/cs47l63/bsp/hw_0_bsp_cs47l63.c:269-406 | Starting succeeds only if every update did and lock was then seen; stopping only if every update did and unlock was then seen. |
| Cs47l63Bsp.FllOffSpi | applications/nrf5340_audio/ext/cirrus_logic/cs47l63/bsp/hw_0_bsp_cs47l63.c:269-406 | Off the SPI bus both FLL sequences fail at their first update with nothing sent. |
| Cs47l63Bsp.BspStatus | applications/nrf5340_audio/ext/cirrus_logic/cs47l63/bsp/hw_0_bsp_cs47l63.c:118-130 | OK maps to OK; anything else maps to BSP_STATUS_FAIL. |
| Cs47l63Bsp.SyscfgOverwrites | applications/nrf5340_audio/ext/cirrus_logic/cs47l63/config/cs47l63_syscfg_regs.c:31-47 | Every entry has the all-ones mask, so applying it sets the register to the value whatever it held. |
| Cs47l63Bsp.MergeFullMask | applications/nrf5340_audio/ext/cirrus_logic/cs47l63/cs47l63.c:1020-1028 | Under the all-ones mask an update writes the value as given. |
| Cs47l63Bsp.I2cFrames | applications/nrf5340_audio/ext/cirrus_logic/cs47l63/bsp/hw_0_bsp_cs47l63.c:89-112 | One frame per word. I2cFramesDecode gives each frame's content. |
| Cs47l63Bsp.I2cFramesDecode | applications/nrf5340_audio/ext/cirrus_logic/cs47l63/bsp/hw_0_bsp_cs47l63.c:89-112 | Each frame reads back as the intended word. |
| Cs47l63Bsp.BlocksFitTail | applications/nrf5340_audio/ext/cirrus_logic/cs47l63/bsp/hw_0_bsp_cs47l63.c:191-222 | The block bound holds for every later library result. |
| Cs47l63Bsp.FeedSpec | applications/nrf5340_audio/ext/cirrus_logic/cs47l63/bsp/hw_0_bsp_cs47l63.c:203-222 | The loop never makes more library calls than the script holds. |
| Cs47l63Bsp.StepTrace | applications/nrf5340_audio/ext/cirrus_logic/cs47l63/bsp/hw_0_bsp_cs47l63.c:205-222 | One pass adds its block write, if any, and keeps the failure oracle and the status scripts. |
| Cs47l63Bsp.FeedTrace | applications/nrf5340_audio/ext/cirrus_logic/cs47l63/bsp/hw_0_bsp_cs47l63.c:203-222 | The loop puts exactly the block writes of the results it consumed on the bus, in order. |
| Cs47l63Bsp.FeedInvStep | applications/nrf5340_audio/ext/cirrus_logic/cs47l63/bsp/hw_0_bsp_cs47l63.c:224-237 | Offering the next piece after NO_DATA keeps the tiling. |
| Cs47l63Bsp.StepTiles | applications/nrf5340_audio/ext/cirrus_logic/cs47l63/bsp/hw_0_bsp_cs47l63.c:203-237 | One pass keeps the tiling invariant. |
| Cs47l63Bsp.FeedTiles | applications/nrf5340_audio/ext/cirrus_logic/cs47l63/bsp/hw_0_bsp_cs47l63.c:203-237 | The offered pieces tile the image in chunks of min(1024, left), and a consumed image ends in the empty piece at its end. |
| Cs47l63Bsp.DutBootOutcome | applications/nrf5340_audio/ext/cirrus_logic/cs47l63/bsp/hw_0_bsp_cs47l63.c:132-244 | Success needs the header, the allocations and the whole image, and then core 1 holds the new tables. Every failure leaves core 1 without firmware. |
| Cs47l63Bsp.DutBootTiles | applications/nrf5340_audio/ext/cirrus_logic/cs47l63/bsp/hw_0_bsp_cs47l63.c:132-244 | For an image of at least 1024 bytes the pieces tile it, and a successful boot offered all of it. |
| Cs47l63Bsp.DutBootTrace | applications/nrf5340_audio/ext/cirrus_logic/cs47l63/bsp/hw_0_bsp_cs47l63.c:132-244 | A boot writes the image's ready blocks in order and makes no other transaction. |
| Cs47l63Bsp.RunOpsOffSpi | applications/nrf5340_audio/ext/cirrus_logic/cs47l63/bsp/hw_0_bsp_cs47l63.c:408-483 | Off the SPI bus every use-case step leaves the device as it was. |
| Cs47l63Bsp.UseCaseResult | applications/nrf5340_audio/ext/cirrus_logic/cs47l63/bsp/hw_0_bsp_cs47l63.c:408-483 | Tone cases report OK whatever their steps returned. DSP cases report `cs47l63_power` of core 1. An unknown case reports OK and touches nothing. |
| Cs47l63Bsp.UseCaseToneOffSpi | applications/nrf5340_audio/ext/cirrus_logic/cs47l63/bsp/hw_0_bsp_cs47l63.c:413-434 | Off the SPI bus the tone cases make no transaction and report OK. |
| Cs47l63Bsp.Bsp.WaitFll | applications/nrf5340_audio/ext/cirrus_logic/cs47l63/bsp/hw_0_bsp_cs47l63.c:247-267 | The outcome and bus of WaitFllSpec. |
| Cs47l63Bsp.Bsp.UpdateStep | applications/nrf5340_audio/ext/cirrus_logic/cs47l63/bsp/hw_0_bsp_cs47l63.c:280-349 | One update of a fixed sequence, as UpdateAll says. |
| Cs47l63Bsp.Bsp.ConfigureFll | applications/nrf5340_audio/ext/cirrus_logic/cs47l63/bsp/hw_0_bsp_cs47l63.c:280-314 | The first four updates of `enable_fll`. |
| Cs47l63Bsp.Bsp.StartFll | applications/nrf5340_audio/ext/cirrus_logic/cs47l63/bsp/hw_0_bsp_cs47l63.c:316-350 | The last five updates of `enable_fll`. |
| Cs47l63Bsp.Bsp.EnableFll | applications/nrf5340_audio/ext/cirrus_logic/cs47l63/bsp/hw_0_bsp_cs47l63.c:269-360 | The outcome and bus of EnableFllSpec. |
| Cs47l63Bsp.Bsp.StopFll | applications/nrf5340_audio/ext/cirrus_logic/cs47l63/bsp/hw_0_bsp_cs47l63.c:365-396 | The five updates of `disable_fll`. |
| Cs47l63Bsp.Bsp.DisableFll | applications/nrf5340_audio/ext/cirrus_logic/cs47l63/bsp/hw_0_bsp_cs47l63.c:362-406 | The outcome and bus of DisableFllSpec. |
| Cs47l63Bsp.Bsp.I2cWrite | applications/nrf5340_audio/ext/cirrus_logic/cs47l63/bsp/hw_0_bsp_cs47l63.c:95-96 | Appends the byte-swapped frame to the I2C log. |
| Cs47l63Bsp.Bsp.Initialize | applications/nrf5340_audio/ext/cirrus_logic/cs47l63/bsp/hw_0_bsp_cs47l63.c:69-116 | Initialise and configure the driver, with the mapped status. The board-controller writes are made whatever that status is. |
| Cs47l63Bsp.Bsp.Ln2Setup | applications/nrf5340_audio/ext/cirrus_logic/cs47l63/bsp/hw_0_bsp_cs47l63.c:89-112 | The seven board-controller frames of I2cFrames, in order. |
| Cs47l63Bsp.Bsp.Reset | applications/nrf5340_audio/ext/cirrus_logic/cs47l63/bsp/hw_0_bsp_cs47l63.c:118-130 | The driver reset, with its status mapped by BspStatus. |
| Cs47l63Bsp.Bsp.Process | applications/nrf5340_audio/ext/cirrus_logic/cs47l63/bsp/hw_0_bsp_cs47l63.c:485-497 | The driver's process, with its status mapped by BspStatus. |
| Cs47l63Bsp.Bsp.FeedPass | applications/nrf5340_audio/ext/cirrus_logic/cs47l63/bsp/hw_0_bsp_cs47l63.c:205-237 | One pass of the hand-over loop, as FeedStep says. |
| Cs47l63Bsp.Bsp.FeedImage | applications/nrf5340_audio/ext/cirrus_logic/cs47l63/bsp/hw_0_bsp_cs47l63.c:203-238 | The outcome, pieces and bus of FeedSpec. |
| Cs47l63Bsp.Bsp.Boot | applications/nrf5340_audio/ext/cirrus_logic/cs47l63/bsp/hw_0_bsp_cs47l63.c:132-244 | The outcome, DSP table and bus of DutBootSpec. |
| Cs47l63Bsp.Bsp.OpStep | applications/nrf5340_audio/ext/cirrus_logic/cs47l63/bsp/hw_0_bsp_cs47l63.c:414-467 | One use-case step, its result ignored, as RunOps says. |
| Cs47l63Bsp.Bsp.ToneHpEnable | applications/nrf5340_audio/ext/cirrus_logic/cs47l63/bsp/hw_0_bsp_cs47l63.c:413-425 | The register steps of BSP_USE_CASE_TG_HP_EN, run whatever each returns. |
| Cs47l63Bsp.Bsp.ToneHpDisable | applications/nrf5340_audio/ext/cirrus_logic/cs47l63/bsp/hw_0_bsp_cs47l63.c:426-434 | The register steps of BSP_USE_CASE_TG_HP_DIS. |
| Cs47l63Bsp.Bsp.ToneDspClocks | applications/nrf5340_audio/ext/cirrus_logic/cs47l63/bsp/hw_0_bsp_cs47l63.c:442-451 | The first five register steps of BSP_USE_CASE_TG_DSP_HP_EN. |
| Cs47l63Bsp.Bsp.ToneDspOutputs | applications/nrf5340_audio/ext/cirrus_logic/cs47l63/bsp/hw_0_bsp_cs47l63.c:452-456 | The remaining register steps of BSP_USE_CASE_TG_DSP_HP_EN. |
| Cs47l63Bsp.Bsp.ToneDspMute | applications/nrf5340_audio/ext/cirrus_logic/cs47l63/bsp/hw_0_bsp_cs47l63.c:459-464 | The first five register steps of BSP_USE_CASE_TG_DSP_HP_DIS. |
| Cs47l63Bsp.Bsp.ToneDspStop | applications/nrf5340_audio/ext/cirrus_logic/cs47l63/bsp/hw_0_bsp_cs47l63.c:465-469 | The last four register steps of BSP_USE_CASE_TG_DSP_HP_DIS. |
| Cs47l63Bsp.Bsp.PreloadEnable | applications/nrf5340_audio/ext/cirrus_logic/cs47l63/bsp/hw_0_bsp_cs47l63.c:435-438 | Power the DSP memories, then boot, ignoring the boot's result. |
| Cs47l63Bsp.Bsp.UseCaseRun | applications/nrf5340_audio/ext/cirrus_logic/cs47l63/bsp/hw_0_bsp_cs47l63.c:408-483 | The status, DSP table and bus of UseCaseSpec. |
| HwCodec.ConfWrites | applications/nrf5340_audio/nrf5340_audio_app/src/modules/hw_codec.c:30-51 | A table yields at most one write per row; ConfWriteIsSequence states which. |
| HwCodec.BusyWaits | applications/nrf5340_audio/nrf5340_audio_app/src/modules/hw_codec.c:38-43 | Busy waits and writes together account for every row of a table. |
| HwCodec.ConfWriteIsSequence | applications/nrf5340_audio/nrf5340_audio_app/src/modules/hw_codec.c:30-51 | Writing a table is the ordered register sequence over its non-wait rows, with the waits made; the code is 0 or FAIL. |
| HwCodec.ConfWriteWaitsOnly | applications/nrf5340_audio/nrf5340_audio_app/src/modules/hw_codec.c:30-51 | A table of busy waits only makes no transaction and succeeds. |
| HwCodec.VolumeSetWordFields | applications/nrf5340_audio/nrf5340_audio_app/src/modules/hw_codec.c:73-90 | The word written carries the volume clamped to MAX, has VU set, and never has MUTE set. |
| HwCodec.VolumeWordFields | applications/nrf5340_audio/nrf5340_audio_app/src/modules/hw_codec.c:97-101 | A volume up to 0xFF lands in the field, with VU set and MUTE clear. |
| HwCodec.VolumeField | applications/nrf5340_audio/nrf5340_audio_app/src/modules/hw_codec.c:113-114 | The volume field of the register read through a `uint16_t`, in [0, 0xFF]. |
| HwCodec.AdjustedVolumeValue | applications/nrf5340_audio/nrf5340_audio_app/src/modules/hw_codec.c:116-126 | The field moved by the 8-bit doubled step when it stays in [0, MAX], and MAX otherwise; a step below 0 wraps round to MAX. |
| HwCodec.AdjustedVolumeStep | applications/nrf5340_audio/nrf5340_audio_app/src/modules/hw_codec.c:116-126 | For a step within `int8_t` after doubling, the volume moves by twice the step. |
| HwCodec.DecreasePastZeroIsMax | applications/nrf5340_audio/nrf5340_audio_app/src/modules/hw_codec.c:143-151 | A decrease from a field below 6 jumps to MAX. |
| HwCodec.MuteWordBits | applications/nrf5340_audio/nrf5340_audio_app/src/modules/hw_codec.c:163-197 | Mute and unmute change only the MUTE bit of the low half, and set VU. |
| HwCodec.WriteRet | applications/nrf5340_audio/nrf5340_audio_app/src/modules/hw_codec.c:84-89 | 0 for OK and CS47L63_STATUS_FAIL otherwise. |
| HwCodec.VolumeSetOutcome | applications/nrf5340_audio/nrf5340_audio_app/src/modules/hw_codec.c:73-90 | Off the SPI bus it writes nothing and returns 0. On it, there is exactly one write, of the clamped volume with VU set, and the result is 0 or FAIL. The remembered volume is untouched. |
| HwCodec.AdjustZeroRewrites | applications/nrf5340_audio/nrf5340_audio_app/src/modules/hw_codec.c:96-106 | `adjust(0)` rewrites the remembered volume without a read, and nothing remembered changes. |
| HwCodec.AdjustOutcome | applications/nrf5340_audio/nrf5340_audio_app/src/modules/hw_codec.c:92-141 | Read, then write the adjusted volume with VU set and MUTE clear. The remembered volume changes only on success, to a value of at most MAX. Off the SPI bus it fails and changes nothing. |
| HwCodec.MuteOutcome | applications/nrf5340_audio/nrf5340_audio_app/src/modules/hw_codec.c:163-197 | Read, then write back with only MUTE changed and VU set; a failed read writes nothing. |
| HwCodec.RunStagesAppend | applications/nrf5340_audio/nrf5340_audio_app/src/modules/hw_codec.c:199-247 | Running two lists is running the first and, if it succeeded, the second. |
| HwCodec.StageRet | applications/nrf5340_audio/nrf5340_audio_app/src/modules/hw_codec.c:199-247 | Every step returns 0 or CS47L63_STATUS_FAIL. |
| HwCodec.RunStagesFirstFailure | applications/nrf5340_audio/nrf5340_audio_app/src/modules/hw_codec.c:199-247 | A run succeeds iff each step succeeds from the state the previous ones left; a failure is the failed step's own result. |
| HwCodec.StagesOrder | applications/nrf5340_audio/nrf5340_audio_app/src/modules/hw_codec.c:199-234 | Clock, GPIO, ASP1, output, volume rewrite, …, FLL toggle. The input table is present iff the build is an I2S gateway, and the PDM table iff it is a bidirectional headset. |
| HwCodec.SoftResetOrder | applications/nrf5340_audio/nrf5340_audio_app/src/modules/hw_codec.c:236-247 | The reset table is written only after the output-disable table succeeded. |
| HwCodec.OnBoardSet | applications/nrf5340_audio/nrf5340_audio_app/src/modules/hw_codec.c:55-71 | -ENXIO without the GPIO device; otherwise the pin configuration's result. |
| HwCodec.InitOutcome | applications/nrf5340_audio/nrf5340_audio_app/src/modules/hw_codec.c:249-266 | STANDBY is reached exactly when init returns 0, that is when board select, comm init and soft reset all succeed. Earlier failures return before any register is touched. |
| HwCodec.Codec.constructor | applications/nrf5340_audio/nrf5340_audio_app/src/modules/hw_codec.c:95 | The remembered volume starts at OUT_VOLUME_DEFAULT, with no waits made. |
| HwCodec.Codec.ConfWrite | applications/nrf5340_audio/nrf5340_audio_app/src/modules/hw_codec.c:30-51 | The code and bus of ConfWriteSpec, which ConfWriteIsSequence characterises. |
| HwCodec.Codec.VolumeSet | applications/nrf5340_audio/nrf5340_audio_app/src/modules/hw_codec.c:73-90 | The code and bus of VolumeSetSpec, which VolumeSetOutcome characterises. |
| HwCodec.Codec.VolumeAdjust | applications/nrf5340_audio/nrf5340_audio_app/src/modules/hw_codec.c:92-141 | The code, bus and remembered volume of AdjustSpec, which AdjustOutcome and AdjustZeroRewrites characterise. |
| HwCodec.Codec.VolumeStep | applications/nrf5340_audio/nrf5340_audio_app/src/modules/hw_codec.c:108-140 | The non-zero branch, with the code, bus and remembered volume of StepSpec. |
| HwCodec.Codec.VolumeDecrease | applications/nrf5340_audio/nrf5340_audio_app/src/modules/hw_codec.c:143-151 | AdjustSpec with the step -VOLUME_ADJUST_STEP_DB. |
| HwCodec.Codec.VolumeIncrease | applications/nrf5340_audio/nrf5340_audio_app/src/modules/hw_codec.c:153-161 | AdjustSpec with the step VOLUME_ADJUST_STEP_DB. |
| HwCodec.Codec.VolumeMuteSet | applications/nrf5340_audio/nrf5340_audio_app/src/modules/hw_codec.c:163-197 | The code and bus of MuteSpec, which MuteOutcome characterises. |
| HwCodec.Codec.VolumeMute | applications/nrf5340_audio/nrf5340_audio_app/src/modules/hw_codec.c:163-179 | MuteSpec with MUTE set. |
| HwCodec.Codec.VolumeUnmute | applications/nrf5340_audio/nrf5340_audio_app/src/modules/hw_codec.c:181-197 | MuteSpec with MUTE cleared. |
| HwCodec.Codec.Step | applications/nrf5340_audio/nrf5340_audio_app/src/modules/hw_codec.c:199-247 | A failing step ends the whole run with its result. A succeeding step leaves the rest of the run to the remaining steps. |
| HwCodec.Codec.InterfaceConf | applications/nrf5340_audio/nrf5340_audio_app/src/modules/hw_codec.c:203-215 | The clock, GPIO and ASP1 tables, run as RunStages runs the first three steps. |
| HwCodec.Codec.BaseConf | applications/nrf5340_audio/nrf5340_audio_app/src/modules/hw_codec.c:203-221 | The first five steps of the default configuration, run as RunStages runs them. |
| HwCodec.Codec.DefaultConfEnable | applications/nrf5340_audio/nrf5340_audio_app/src/modules/hw_codec.c:199-234 | The code and bus of DefaultConfSpec, the RunStages of the order StagesOrder fixes. |
| HwCodec.Codec.SoftReset | applications/nrf5340_audio/nrf5340_audio_app/src/modules/hw_codec.c:236-247 | The code and bus of SoftResetSpec, which SoftResetOrder characterises. |
| HwCodec.Codec.Init | applications/nrf5340_audio/nrf5340_audio_app/src/modules/hw_codec.c:249-266 | The code of InitSpec. The driver reaches STANDBY exactly when InitSpec says it does, and keeps its state otherwise. |
| SdCard.AbsPath | applications/nrf5340_audio/nrf5340_audio_app/src/modules/sd_card.c:85-98 | The root path "/SD:/" followed by the name, and nothing else. |
| SdCard.AbsPathFits | applications/nrf5340_audio/nrf5340_audio_app/src/modules/sd_card.c:85-98 | Every name that passes the length check fits the path buffer with its NUL. |
| SdCard.AbsPathInjective | applications/nrf5340_audio/nrf5340_audio_app/src/modules/sd_card.c:85-98 | Different names open different paths. |
| SdCard.ScanFrom | applications/nrf5340_audio/nrf5340_audio_app/src/modules/sd_card.c:59-70 | The loop reads at least one entry; ScanStops states the rest. |
| SdCard.Lines | applications/nrf5340_audio/nrf5340_audio_app/src/modules/sd_card.c:59-70 | One listing line per entry. |
| SdCard.ScanStops | applications/nrf5340_audio/nrf5340_audio_app/src/modules/sd_card.c:59-70 | The loop reads up to the first error or empty name, lists the entries before it, and returns a read error unchanged or 0 at the end. |
| SdCard.ScanStopsSomewhere | applications/nrf5340_audio/nrf5340_audio_app/src/modules/sd_card.c:59-70 | The loop always stops, at the end of the directory at the latest. |
| SdCard.ReadDirs | applications/nrf5340_audio/nrf5340_audio_app/src/modules/sd_card.c:59-70 | One `fs_readdir` call per read. |
| SdCard.ListGuards | applications/nrf5340_audio/nrf5340_audio_app/src/modules/sd_card.c:35-58 | -ENODEV without a call unless the card is up. A too-long path gives -FR_INVALID_NAME before anything is opened. Otherwise "/SD:" or "/SD:/" + path is opened. |
| SdCard.ListOutcome | applications/nrf5340_audio/nrf5340_audio_app/src/modules/sd_card.c:35-77 | Once open: list up to the first stopping entry. A read error is returned without closing; otherwise the directory is closed and the close result returned. |
| SdCard.WriteOutcome | applications/nrf5340_audio/nrf5340_audio_app/src/modules/sd_card.c:79-113 | No call unless the card is up and the name is accepted. Then it opens for appending, seeks to the end, writes `*size` bytes and closes. A write error is returned with `*size` kept and the file left open. `*size` changes only to the count written, on the path that closes the file. |
| SdCard.ReadOutcome | applications/nrf5340_audio/nrf5340_audio_app/src/modules/sd_card.c:115-148 | No call unless the card is up and the name is accepted. Then it opens read-only, asks for `*size` bytes and closes. A read error is returned with `*size` kept and the file left open. On success `*size` is the number of bytes read, at most the request; an empty file reads 0. |
| SdCard.InitOutcome | applications/nrf5340_audio/nrf5340_audio_app/src/modules/sd_card.c:150-182 | Any `disk_access_init` failure becomes -ENODEV, and a later failure is returned unchanged. The flag is set exactly when init returns 0. |
| SdCard.Card.constructor | applications/nrf5340_audio/nrf5340_audio_app/src/modules/sd_card.c:28 | The card starts not initialised, with no calls made. |
| SdCard.Card.ListEntries | applications/nrf5340_audio/nrf5340_audio_app/src/modules/sd_card.c:59-70 | The code, listing and `fs_readdir` calls of ScanFrom. |
| SdCard.Card.ListFiles | applications/nrf5340_audio/nrf5340_audio_app/src/modules/sd_card.c:35-77 | The code, listing and calls of ListSpec, which ListGuards and ListOutcome characterise. |
| SdCard.Card.WriteFile | applications/nrf5340_audio/nrf5340_audio_app/src/modules/sd_card.c:79-113 | The code, new `*size` and calls of WriteSpec, which WriteOutcome characterises. |
| SdCard.Card.ReadFile | applications/nrf5340_audio/nrf5340_audio_app/src/modules/sd_card.c:115-148 | The code, new `*size` and calls of ReadSpec. The bytes read land at the start of the buffer and the rest is untouched. |
| SdCard.Card.Init | applications/nrf5340_audio/nrf5340_audio_app/src/modules/sd_card.c:150-182 | The code, flag and calls of InitSpec, which InitOutcome characterises. |
| CInt.U32 | applications/nrf5340_audio/nrf5340_audio_app/src/audio/audio_datapath.c:273 | `uint32_t` conversion, the identity on values already in range. |
| CInt.I32 | applications/nrf5340_audio/nrf5340_audio_app/src/audio/audio_datapath.c:357-359 | `int32_t` reinterpretation, the identity on values already in range. |
| CInt.CDiv | applications/nrf5340_audio/nrf5340_audio_app/src/audio/audio_datapath.c:114 | C division by a positive divisor truncates toward zero. The remainder has the dividend's sign and is smaller than the divisor, and the quotient has the dividend's sign. |
| CInt.CMod | applications/nrf5340_audio/nrf5340_audio_app/src/audio/audio_datapath.c:273-277 | The C remainder: the dividend is the truncated quotient times the divisor plus the remainder, and the remainder is smaller than the divisor in magnitude. |

## Left out

- I/O and the foreign calls are not modelled. They become result parameters or oracles:
  - Zephyr kernel calls;
  - nrfx clock and GPIOTE;
  - the Bluetooth stack and `bt_iso_chan_send`;
  - net_buf pools;
  - FatFs (`fs_*`, `disk_access_*`);
  - the fw_img library;
  - `data_fifo_*`;
  - `sw_codec_decode`, `pcm_mix`, `contin_array_create`;
  - `tone_gen`;
  - the board's SPI, I2C and GPIO drivers.
- Delays, sleeps, timers and logging have no effect in the model (`set_timer`, `k_busy_wait`, `k_sleep`, `LOG_*`).
- Constants from headers that are not part of this model are stand-ins, chosen only to be distinct:
  - the CS47L63 register addresses, offsets, masks and event flags (cs47l63.h, cs47l63_spec.h);
  - the cs47l63_reg_conf.h tables, which are parameters;
  - the board.h mask bits (PMIC 0x1, SD card 0x2);
  - OUT_VOLUME_DEFAULT and the MAX_VOLUME_REG_VAL value;
  - CONFIG_BT_ISO_MAX_CHAN and CONFIG_BT_MAX_CONN (2);
  - ENC_MAX_FRAME_SIZE (120);
  - CONFIG_FS_FATFS_MAX_LFN.
- Errno, FatFs and driver status values are taken from Zephyr's minimal libc `errno.h`, from FatFs and from the driver. No proof depends on a value beyond the codes being distinct and non-zero.
- The byte order of `GET_BYTE_FROM_WORD`/`ADD_BYTE_TO_WORD` is assumed to be the usual shift-and-mask, giving most significant byte first. Their header is not part of this model.
- The `uint16_t` read of the 32-bit volume register (hw_codec.c:113-114, 168-169) is undefined behaviour in C. It is modelled as truncation to the low 16 bits.
- Concurrency is left out. The ready callback, the ISO callbacks, the IRQ callback and the work item are explicit method calls. Atomics and semaphores are plain fields or not modelled.
- Boot.Application.WaitForNetCore: the ready wait is a poll-count oracle (`readyAfterPolls`). When it is None, the model stops in the wait, where the device would poll forever.
- Boot.Application.EventLoopPass: the endless event loop is modelled as one pass; `streamctrl_event_handler` is opaque.
- Boot.CoreAppConfig: the busy poll of `nrfx_clock_hfclk_is_running()` (main.c:64-65) is taken to end. A clock that never starts, where `main()` would spin forever, is not modelled.
- Macros.StackUsageMonitor.Print: one uptime reading stands for the two `k_uptime_get()` calls of `STACK_USAGE_PRINT` (macros_common.h:81, 83), so the stored time is the one tested.
- pmic.c and streamctrl are not part of this model. `pmic_init`, `pmic_defaults_set`, `streamctrl_start` and the other module init calls are opaque steps that return a code.
- AudioDatapath:
  - the sample data is not modelled: decoding, muting, copying, and `tone_mix`;
  - the I2S receive half of the block-complete handler is not modelled;
  - `audio_datapath_i2s_stop` is not modelled;
  - `audio_datapath_tone_stop` and its timer handler are not modelled; `tone_stop_worker` is;
  - the float amplitude and the shell commands are not modelled;
  - TIMESTAMP_DELTA_MAX_ERR_US is its integer value for 10 ms frames (10);
  - only the 10 ms frame build is modelled.
- AudioDatapath.Datapath.PresCompStateSet: the LED driver's result is not modelled.
- BleTrans:
  - `iso_chan_to_idx` is not modelled: callbacks receive the channel index directly;
  - the event queue behind `ble_event_send` is modelled only by how many more events it accepts (`room`);
  - `iso_rx_cb`, the RX statistics (float) and their timer are not modelled;
  - the periodic-advertising scan, sync and BIG callbacks are not modelled;
  - `ble_trans_iso_lost_notify_enable` and `ble_trans_iso_bis_rx_sync_get` are not modelled;
  - the BIS and CIS setup helpers (`iso_bis_*`, `cig_create`, `iso_accept`) are results passed in.
- BleTrans.TxPatternSpec: it assumes the frame size is at most ENC_MAX_FRAME_SIZE. The C array bound is not checked.
- Cs47l63:
  - `find_algid` and `cs47l63_find_algid` are not modelled. Nothing in the core calls them.
  - `cs47l63_wait` is only a delay.
  - The driver's GPIO and supply calls in reset are not modelled.
- Cs47l63.BanksBounded and Cs47l63Driver.Driver.WriteBank require every bank end to lie below 0xFFFF_FFFC. For a larger end the `uint32_t` address of the loop at cs47l63.c:755 wraps past the end, and the loop runs until a write fails; that case is not modelled. The driver's own bank table meets the bound.
- Cs47l63Bsp.Bsp.Boot: the fw_img library's behaviour is a script of results. Memory allocation is a list of results, and `bsp_free` is not modelled.
- SdCard: the directory is the list of `fs_readdir` results it yields. Names are strings without a NUL.
