/**
 * The application core's start-up sequence (main.c).  `main` runs a
 * fixed list of initialisation steps and checks each result with
 * ERR_CHK, so the first fatal result halts the device.  Two steps depend
 * on bits of the board revision mask, the build picks one of two audio
 * branches, and after the Bluetooth host is initialised the main context
 * polls a flag that the host's ready callback sets.
 *
 * Every step that calls into a module outside this file is opaque: its
 * result comes from an oracle in `Env`.  The three small helpers of
 * main.c (`channel_assign_check`, `leds_set`, `core_app_config`) are
 * modelled in full and their results feed the sequence.
 */
module Boot {
  import opened Errno
  import opened Wrappers
  import Macros

  // ---------------------------------------------------------------------
  // Build configuration
  // ---------------------------------------------------------------------

  datatype DeviceRole = Headset | Gateway
  datatype AudioChannel = Left | Right

  /**
   * The compile-time choices main.c branches on: the device role,
   * CONFIG_AUDIO_HEADSET_CHANNEL_RUNTIME, CONFIG_AUDIO_SOURCE_USB and
   * AUDIO_CHANNEL_DEFAULT.
   */
  datatype Build = Build(role: DeviceRole, channelRuntime: bool, audioSourceUsb: bool,
                         defaultChannel: AudioChannel)

  /** The USB audio branch is built only for a gateway with CONFIG_AUDIO_SOURCE_USB. */
  predicate UsbBranch(b: Build)
  {
    b.role == Gateway && b.audioSourceUsb
  }

  /**
   * `BOARD_REVISION_VALID_MSK_MAX14690_PMIC` and
   * `BOARD_VERSION_VALID_MSK_SD_CARD`.  board.h is not part of this model;
   * the two masks are taken as distinct single bits.
   */
  const PMIC_MASK: bv32 := 0x1
  const SD_CARD_MASK: bv32 := 0x2

  // ---------------------------------------------------------------------
  // channel_assign_check
  // ---------------------------------------------------------------------

  /** The outcome of `button_pressed`: its return code and the `pressed` out-value. */
  datatype ButtonRead = ButtonRead(err: int, pressed: bool)

  /**
   * What `channel_assign_check` did: its return value, how many buttons it
   * read, and the channel it asked `channel_assignment_set` to store.
   */
  datatype AssignOutcome = AssignOutcome(ret: int, buttonsRead: nat, request: Option<AudioChannel>)

  /**
   * `channel_assign_check`: `stored` is what `channel_assignment_get`
   * finds (None when it fails), `volDown`/`volUp` the button reads and
   * `setResult` the result of `channel_assignment_set`.
   */
  function ChannelAssignCheck(b: Build, stored: Option<AudioChannel>, volDown: ButtonRead,
                              volUp: ButtonRead, setResult: int): (r: AssignOutcome)
    // Only a headset built for run-time assignment looks at anything.
    ensures !(b.role == Headset && b.channelRuntime) ==> r == AssignOutcome(0, 0, None)
    // An assignment already stored: success, and no button is read.
    ensures stored.Some? ==> r.ret == 0 && r.buttonsRead == 0 && r.request == None
    // VOLUME_DOWN wins; VOLUME_UP is read only when VOLUME_DOWN is read cleanly and released.
    ensures r.request == Some(Left) <==>
      b.role == Headset && b.channelRuntime && stored.None? && volDown.err == 0 && volDown.pressed
    ensures r.request == Some(Right) <==>
      b.role == Headset && b.channelRuntime && stored.None? && volDown.err == 0 && !volDown.pressed
      && volUp.err == 0 && volUp.pressed
    ensures r.buttonsRead == 2 ==> volDown.err == 0 && !volDown.pressed
    // The result is the set result when a channel is requested, otherwise the first button error.
    ensures r.request.Some? ==> r.ret == setResult
    ensures r.request.None? ==> r.ret == Macros.ChainResult(
      if r.buttonsRead == 0 then [] else if r.buttonsRead == 1 then [volDown.err] else [volDown.err, volUp.err])
  {
    if !(b.role == Headset && b.channelRuntime) then AssignOutcome(0, 0, None)
    else if stored.Some? then AssignOutcome(0, 0, None)
    else if volDown.err != 0 then AssignOutcome(volDown.err, 1, None)
    else if volDown.pressed then AssignOutcome(setResult, 1, Some(Left))
    else if volUp.err != 0 then AssignOutcome(volUp.err, 2, None)
    else if volUp.pressed then AssignOutcome(setResult, 2, Some(Right))
    else AssignOutcome(0, 2, None)
  }

  // ---------------------------------------------------------------------
  // leds_set
  // ---------------------------------------------------------------------

  datatype Led = LedApp3Green | LedAppRgb
  datatype LedColor = Blue | Magenta | Green
  datatype LedOp = Blink(led: Led) | On(led: Led, color: LedColor)

  /**
   * `leds_set`: `channel` is what `channel_assignment_get` finds (None when
   * it fails); `blinkResult` and `onResult` are the LED driver's results.
   */
  function LedsSet(b: Build, channel: Option<AudioChannel>, blinkResult: int, onResult: int)
    : (r: (int, seq<LedOp>))
    ensures |r.1| >= 1 && r.1[0] == Blink(LedApp3Green)
    ensures blinkResult != 0 ==> r == (blinkResult, [Blink(LedApp3Green)])
    ensures blinkResult == 0 ==> |r.1| == 2 && r.0 == onResult && r.1[1].On? && r.1[1].led == LedAppRgb
    ensures blinkResult == 0 && b.role == Gateway ==> r.1[1].color == Green
    ensures blinkResult == 0 && b.role == Headset ==>
      (r.1[1].color == Blue <==> (if channel.Some? then channel.value else b.defaultChannel) == Left)
    ensures blinkResult == 0 && b.role == Headset ==> r.1[1].color != Green
  {
    if blinkResult != 0 then (blinkResult, [Blink(LedApp3Green)])
    else
      var color := match b.role
        case Gateway => Green
        case Headset =>
          var ch := if channel.Some? then channel.value else b.defaultChannel;
          if ch == Left then Blue else Magenta;
      (onResult, [Blink(LedApp3Green), On(LedAppRgb, color)])
  }

  // ---------------------------------------------------------------------
  // core_app_config
  // ---------------------------------------------------------------------

  datatype SpiPin = Mosi | Sck
  datatype ConfigOp = SetGpioteLowPower | SetHfclkDivider | StartHfclk | ConfigurePin(pin: SpiPin)

  /**
   * The hardware answers `core_app_config` sees: whether GPIOTE latency is
   * already low-power, the `nrfx_err_t` of the clock divider call, whether
   * the SD card's chip-select GPIO device is found, and the two pin results.
   */
  datatype CoreEnv = CoreEnv(latencyLowPower: bool, dividerResult: int, gpioDevFound: bool,
                             mosiResult: int, sckResult: int)

  function CoreAppConfig(e: CoreEnv): (r: (int, seq<ConfigOp>))
    ensures (SetGpioteLowPower in r.1) <==> !e.latencyLowPower
    ensures e.dividerResult != NRFX_ERROR_BASE_NUM ==>
      r.0 == e.dividerResult - NRFX_ERROR_BASE_NUM && StartHfclk !in r.1
    ensures e.dividerResult == NRFX_ERROR_BASE_NUM && !e.gpioDevFound ==>
      r.0 == -ENODEV && StartHfclk in r.1 && (forall p :: ConfigurePin(p) !in r.1)
    ensures ConfigurePin(Sck) in r.1 ==> ConfigurePin(Mosi) in r.1 && e.mosiResult == 0
    ensures r.0 == 0 <==>
      e.dividerResult == NRFX_ERROR_BASE_NUM && e.gpioDevFound && e.mosiResult == 0 && e.sckResult == 0
  {
    var latencyOps := if e.latencyLowPower then [] else [SetGpioteLowPower];
    var ops := latencyOps + [SetHfclkDivider];
    if e.dividerResult - NRFX_ERROR_BASE_NUM != 0 then (e.dividerResult - NRFX_ERROR_BASE_NUM, ops)
    else if !e.gpioDevFound then (-ENODEV, ops + [StartHfclk])
    else if e.mosiResult != 0 then (e.mosiResult, ops + [StartHfclk, ConfigurePin(Mosi)])
    else (e.sckResult, ops + [StartHfclk, ConfigurePin(Mosi), ConfigurePin(Sck)])
  }

  // ---------------------------------------------------------------------
  // The step sequence of main()
  // ---------------------------------------------------------------------

  datatype Step =
    | LedInit | ButtonHandlerInit | ChannelAssign | FwInfoAppPrint | CoreAppConfigStep
    | BoardVersionValidCheck | BoardVersionGet | PmicInit | PmicDefaultsSet | SdCardInit
    | PowerModuleInit | AudioUsbInit | AudioDatapathInit | AudioSyncTimerInit | AudioI2sInit
    | HwCodecInit | SyncEvtSend | BleCoreInit | LedsSetStep | StreamctrlStart | TonePlay

  /** An entry of main()'s plan: a step that always runs, or one gated on board mask bits. */
  datatype Entry = Always(step: Step) | IfBoard(bits: bv32, step: Step)

  /**
   * Everything main() cannot see: the result of each opaque step, the
   * board revision mask, the persisted channel and the two buttons, the
   * LED and clock answers, and after how many 100 ms polls the Bluetooth
   * host's ready callback has fired (None: it never fires).
   */
  datatype Env = Env(
    result: Step -> int,
    boardMask: bv32,
    storedChannel: Option<AudioChannel>,
    volDown: ButtonRead,
    volUp: ButtonRead,
    assignSetResult: int,
    core: CoreEnv,
    ledBlinkResult: int,
    ledOnResult: int,
    readyAfterPolls: Option<nat>)

  /** The seven steps before the board mask is known (main.c:158-177). */
  const StartTrace: seq<Step> :=
    [LedInit, ButtonHandlerInit, ChannelAssign, FwInfoAppPrint, CoreAppConfigStep,
     BoardVersionValidCheck, BoardVersionGet]

  /** `board_rev.mask & bits`, read as a C truth value. */
  predicate MaskHas(mask: bv32, bits: bv32)
  {
    mask & bits != 0
  }

  /** The board-dependent peripherals a mask enables. */
  function BoardTrace(mask: bv32): seq<Step>
  {
    (if MaskHas(mask, PMIC_MASK) then [PmicInit, PmicDefaultsSet] else [])
    + (if MaskHas(mask, SD_CARD_MASK) then [SdCardInit] else [])
  }

  /** The audio branch the build selects. */
  function AudioTrace(b: Build): seq<Step>
  {
    if UsbBranch(b) then [AudioUsbInit]
    else [AudioDatapathInit, AudioSyncTimerInit, AudioI2sInit, HwCodecInit, SyncEvtSend]
  }

  /** The steps from `power_module_init` to `ble_core_init`. */
  function MidTrace(b: Build): seq<Step>
  {
    [PowerModuleInit] + AudioTrace(b) + [BleCoreInit]
  }

  /** The steps after the ready wait. */
  const PostTrace: seq<Step> := [LedsSetStep, StreamctrlStart, TonePlay]

  /** The steps main() invokes before the ready wait when none of them is fatal. */
  function PreWaitTrace(b: Build, mask: bv32): seq<Step>
  {
    StartTrace + BoardTrace(mask) + MidTrace(b)
  }

  /** The steps main() invokes when no result is fatal. */
  function SuccessTrace(b: Build, mask: bv32): seq<Step>
  {
    PreWaitTrace(b, mask) + PostTrace
  }

  /** Un-gated entries for a list of steps. */
  function AlwaysAll(steps: seq<Step>): (es: seq<Entry>)
    ensures |es| == |steps|
    ensures forall j :: 0 <= j < |es| ==> es[j] == Always(steps[j])
  {
    seq(|steps|, j requires 0 <= j < |steps| => Always(steps[j]))
  }

  /** The entries gated on the board mask. */
  const BoardSteps: seq<Entry> :=
    [IfBoard(PMIC_MASK, PmicInit), IfBoard(PMIC_MASK, PmicDefaultsSet), IfBoard(SD_CARD_MASK, SdCardInit)]

  /** main()'s plan before the ready wait: only the PMIC pair and the SD card are gated. */
  function PreWaitPlan(b: Build): (p: seq<Entry>)
    ensures |p| >= 7 && p[6] == Always(BoardVersionGet)
    ensures forall j :: 0 <= j < |p| && p[j].IfBoard? ==> 7 <= j
  {
    AlwaysAll(StartTrace) + BoardSteps + AlwaysAll(MidTrace(b))
  }

  /** main()'s plan after the ready wait. */
  const PostWaitPlan: seq<Entry> := AlwaysAll(PostTrace)

  /**
   * ERR_CHK's verdict on a step's result in main(): `audio_i2s_init` and
   * `audio_sync_timer_sync_evt_send` are not checked, an SD card `-ENODEV`
   * is tolerated, and every other non-zero result halts.
   */
  predicate Fatal(s: Step, code: int)
  {
    if s == AudioI2sInit || s == SyncEvtSend then false
    else if s == SdCardInit && code == -ENODEV then false
    else code != 0
  }

  /** The channel `channel_assignment_get` reports after `channel_assign_check` has run. */
  function ChannelAfterAssign(b: Build, env: Env): Option<AudioChannel>
  {
    var a := ChannelAssignCheck(b, env.storedChannel, env.volDown, env.volUp, env.assignSetResult);
    if a.request.Some? && env.assignSetResult == 0 then a.request else env.storedChannel
  }

  /** The code a step hands back to main(). */
  function StepResult(b: Build, env: Env, s: Step): int
  {
    match s
    case ChannelAssign =>
      ChannelAssignCheck(b, env.storedChannel, env.volDown, env.volUp, env.assignSetResult).ret
    case CoreAppConfigStep => CoreAppConfig(env.core).0
    case LedsSetStep => LedsSet(b, ChannelAfterAssign(b, env), env.ledBlinkResult, env.ledOnResult).0
    case AudioI2sInit => 0
    case SyncEvtSend => 0
    case _ => env.result(s)
  }

  function Results(b: Build, env: Env): Step -> int
  {
    s => StepResult(b, env, s)
  }

  predicate Enabled(e: Entry, mask: bv32)
  {
    e.Always? || MaskHas(mask, e.bits)
  }

  /** The steps a list of entries schedules under a board mask. */
  function Scheduled(es: seq<Entry>, mask: bv32): (steps: seq<Step>)
    ensures |steps| <= |es|
    decreases |es|
  {
    if |es| == 0 then []
    else if Enabled(es[0], mask) then [es[0].step] + Scheduled(es[1..], mask)
    else Scheduled(es[1..], mask)
  }

  lemma {:induction false} ScheduledConcat(xs: seq<Entry>, ys: seq<Entry>, mask: bv32)
    ensures Scheduled(xs + ys, mask) == Scheduled(xs, mask) + Scheduled(ys, mask)
    decreases |xs|
  {
    if |xs| == 0 {
      assert xs + ys == ys;
    } else {
      assert (xs + ys)[0] == xs[0];
      assert (xs + ys)[1..] == xs[1..] + ys;
      ScheduledConcat(xs[1..], ys, mask);
      if Enabled(xs[0], mask) {
        var h := [xs[0].step];
        assert h + (Scheduled(xs[1..], mask) + Scheduled(ys, mask)) ==
          (h + Scheduled(xs[1..], mask)) + Scheduled(ys, mask);
      }
    }
  }

  /** Un-gated entries schedule exactly their steps, whatever the mask. */
  lemma {:induction false} ScheduledAlwaysAll(steps: seq<Step>, mask: bv32)
    ensures Scheduled(AlwaysAll(steps), mask) == steps
    decreases |steps|
  {
    if |steps| > 0 {
      assert AlwaysAll(steps)[1..] == AlwaysAll(steps[1..]);
      ScheduledAlwaysAll(steps[1..], mask);
    }
  }

  /** The gated entries schedule the PMIC pair iff its bit is set, and the SD card iff its bit is. */
  lemma ScheduledBoardSteps(mask: bv32)
    ensures Scheduled(BoardSteps, mask) == BoardTrace(mask)
  {
    var sd := Scheduled(BoardSteps[2..], mask);
    assert BoardSteps[2..][1..] == [];
    assert sd == if MaskHas(mask, SD_CARD_MASK) then [SdCardInit] else [];
    assert BoardSteps[1..][1..] == BoardSteps[2..];
    assert Scheduled(BoardSteps[1..], mask) == if MaskHas(mask, PMIC_MASK) then [PmicDefaultsSet] + sd else sd;
  }

  /** The plan schedules exactly the success trace, before and after the wait. */
  lemma PlanSchedulesSuccessTrace(b: Build, mask: bv32)
    ensures Scheduled(PreWaitPlan(b), mask) == PreWaitTrace(b, mask)
    ensures Scheduled(PostWaitPlan, mask) == PostTrace
  {
    ScheduledConcat(AlwaysAll(StartTrace), BoardSteps, mask);
    ScheduledConcat(AlwaysAll(StartTrace) + BoardSteps, AlwaysAll(MidTrace(b)), mask);
    ScheduledAlwaysAll(StartTrace, mask);
    ScheduledAlwaysAll(MidTrace(b), mask);
    ScheduledAlwaysAll(PostTrace, mask);
    ScheduledBoardSteps(mask);
  }

  /** The steps invoked so far, and the step and code that halted the device, if one did. */
  datatype RunState = RunState(trace: seq<Step>, halt: Option<(Step, int)>)

  /** Invokes steps one after the other, stopping at the first fatal result. */
  function RunSteps(res: Step -> int, steps: seq<Step>, st: RunState): RunState
    decreases |steps|
  {
    if |steps| == 0 || st.halt.Some? then st
    else
      var s := steps[0];
      RunSteps(res, steps[1..], RunState(st.trace + [s], if Fatal(s, res(s)) then Some((s, res(s))) else None))
  }

  /** The position of the first step of `steps` whose result is fatal, or |steps|. */
  function FirstFatal(res: Step -> int, steps: seq<Step>): (k: nat)
    ensures k <= |steps|
    ensures k < |steps| ==> Fatal(steps[k], res(steps[k]))
    decreases |steps|
  {
    if |steps| == 0 then 0
    else if Fatal(steps[0], res(steps[0])) then 0
    else 1 + FirstFatal(res, steps[1..])
  }

  /** Every step before the first fatal one passes. */
  lemma {:induction false} FirstFatalIsFirst(res: Step -> int, steps: seq<Step>)
    ensures forall j :: 0 <= j < FirstFatal(res, steps) ==> !Fatal(steps[j], res(steps[j]))
    decreases |steps|
  {
    if |steps| > 0 && !Fatal(steps[0], res(steps[0])) {
      FirstFatalIsFirst(res, steps[1..]);
      forall j | 0 < j < FirstFatal(res, steps)
        ensures !Fatal(steps[j], res(steps[j]))
      {
        assert steps[j] == steps[1..][j - 1];
      }
    }
  }

  /**
   * Running steps from a live state invokes them in order up to and
   * including the first fatal one, and halts there.
   */
  lemma {:induction false} RunStepsStopsAtFirstFatal(res: Step -> int, steps: seq<Step>, trace: seq<Step>)
    ensures var k := FirstFatal(res, steps);
      RunSteps(res, steps, RunState(trace, None)) ==
        if k < |steps| then RunState(trace + steps[..k + 1], Some((steps[k], res(steps[k]))))
        else RunState(trace + steps, None)
    decreases |steps|
  {
    if |steps| > 0 {
      var s := steps[0];
      if Fatal(s, res(s)) {
        assert FirstFatal(res, steps) == 0;
        assert steps[..1] == [s];
      } else {
        var kt := FirstFatal(res, steps[1..]);
        assert FirstFatal(res, steps) == kt + 1;
        assert RunSteps(res, steps, RunState(trace, None)) == RunSteps(res, steps[1..], RunState(trace + [s], None));
        RunStepsStopsAtFirstFatal(res, steps[1..], trace + [s]);
        if kt < |steps| - 1 {
          assert steps[1..][kt] == steps[kt + 1];
          assert trace + [s] + steps[1..][..kt + 1] == trace + steps[..kt + 2];
        } else {
          assert trace + [s] + steps[1..] == trace + steps;
        }
      }
    }
  }

  lemma {:induction false} FirstFatalOfConcat(res: Step -> int, xs: seq<Step>, ys: seq<Step>)
    ensures var kx := FirstFatal(res, xs);
      FirstFatal(res, xs + ys) == if kx < |xs| then kx else |xs| + FirstFatal(res, ys)
    decreases |xs|
  {
    if |xs| > 0 {
      assert (xs + ys)[0] == xs[0];
      assert (xs + ys)[1..] == xs[1..] + ys;
      FirstFatalOfConcat(res, xs[1..], ys);
    } else {
      assert xs + ys == ys;
    }
  }

  /** How main() ends up: halted by ERR_CHK, stuck in the ready wait, or in its event loop. */
  datatype BootOutcome = Halted(step: Step, code: int) | WaitingForNetCore | InEventLoop

  /**
   * A start-up over step results `res`: the steps before the wait, the
   * wait (which ends iff `ready`), the steps after it.
   */
  function BootRun(res: Step -> int, pre: seq<Step>, post: seq<Step>, ready: bool): (seq<Step>, BootOutcome)
  {
    var p := RunSteps(res, pre, RunState([], None));
    if p.halt.Some? then (p.trace, Halted(p.halt.value.0, p.halt.value.1))
    else if !ready then (p.trace, WaitingForNetCore)
    else
      var q := RunSteps(res, post, p);
      if q.halt.Some? then (q.trace, Halted(q.halt.value.0, q.halt.value.1))
      else (q.trace, InEventLoop)
  }

  /** The steps main() invokes and how it ends, as a function of the build and the oracle. */
  function BootSpec(b: Build, env: Env): (seq<Step>, BootOutcome)
  {
    BootRun(Results(b, env), Scheduled(PreWaitPlan(b), env.boardMask), Scheduled(PostWaitPlan, env.boardMask),
            env.readyAfterPolls.Some?)
  }

  /**
   * A start-up over any step results: with `k` the first fatal position in
   * `pre + post`, it invokes exactly the steps up to and including `k` and
   * halts there, unless the wait never ends first.
   */
  lemma BootRunCharacterised(res: Step -> int, pre: seq<Step>, post: seq<Step>, ready: bool)
    ensures var full := pre + post;
      var k := FirstFatal(res, full);
      BootRun(res, pre, post, ready) ==
        if k >= |pre| && !ready then (pre, WaitingForNetCore)
        else if k < |full| then (full[..k + 1], Halted(full[k], res(full[k])))
        else (full, InEventLoop)
  {
    FirstFatalOfConcat(res, pre, post);
    if FirstFatal(res, pre) == |pre| {
      BootRunPastWaitInFull(res, pre, post, ready);
    } else {
      BootRunHaltsBeforeWaitInFull(res, pre, post, ready);
    }
  }

  /** BootRunHaltsBeforeWait, with the halting step located in `pre + post`. */
  lemma BootRunHaltsBeforeWaitInFull(res: Step -> int, pre: seq<Step>, post: seq<Step>, ready: bool)
    requires FirstFatal(res, pre) < |pre|
    ensures var full := pre + post;
      var k := FirstFatal(res, full);
      k < |pre| && BootRun(res, pre, post, ready) == (full[..k + 1], Halted(full[k], res(full[k])))
  {
    var full := pre + post;
    var kp := FirstFatal(res, pre);
    FirstFatalOfConcat(res, pre, post);
    BootRunHaltsBeforeWait(res, pre, post, ready);
    assert full[kp] == pre[kp];
    assert pre[..kp + 1] == full[..kp + 1];
  }

  /** BootRunPastWait, with the halting step, if any, located in `pre + post`. */
  lemma BootRunPastWaitInFull(res: Step -> int, pre: seq<Step>, post: seq<Step>, ready: bool)
    requires FirstFatal(res, pre) == |pre|
    ensures var full := pre + post;
      var k := FirstFatal(res, full);
      k >= |pre| &&
      BootRun(res, pre, post, ready) ==
        if !ready then (pre, WaitingForNetCore)
        else if k < |full| then (full[..k + 1], Halted(full[k], res(full[k])))
        else (full, InEventLoop)
  {
    var full := pre + post;
    var kp := FirstFatal(res, pre);
    FirstFatalOfConcat(res, pre, post);
    BootRunPastWait(res, pre, post, ready);
    var kq := FirstFatal(res, post);
    if kq < |post| {
      assert full[kp + kq] == post[kq];
      assert pre + post[..kq + 1] == full[..kp + kq + 1];
    }
  }

  /** A fatal step before the wait ends the start-up there. */
  lemma BootRunHaltsBeforeWait(res: Step -> int, pre: seq<Step>, post: seq<Step>, ready: bool)
    requires FirstFatal(res, pre) < |pre|
    ensures var k := FirstFatal(res, pre);
      BootRun(res, pre, post, ready) == (pre[..k + 1], Halted(pre[k], res(pre[k])))
  {
    RunStepsStopsAtFirstFatal(res, pre, []);
    assert [] + pre[..FirstFatal(res, pre) + 1] == pre[..FirstFatal(res, pre) + 1];
  }

  /** With no fatal step before the wait, the wait and then the steps after it decide. */
  lemma BootRunPastWait(res: Step -> int, pre: seq<Step>, post: seq<Step>, ready: bool)
    requires FirstFatal(res, pre) == |pre|
    ensures var k := FirstFatal(res, post);
      BootRun(res, pre, post, ready) ==
        if !ready then (pre, WaitingForNetCore)
        else if k < |post| then (pre + post[..k + 1], Halted(post[k], res(post[k])))
        else (pre + post, InEventLoop)
  {
    RunStepsStopsAtFirstFatal(res, pre, []);
    assert [] + pre == pre;
    RunStepsStopsAtFirstFatal(res, post, pre);
  }

  /**
   * The whole start-up, characterised: with `full` the success trace and
   * `k` the position of the first fatal result in it, main() invokes
   * exactly the steps of `full` up to and including position `k` and halts
   * there; if no step before the wait is fatal and the ready callback never
   * fires, it stays in the wait after `ble_core_init`; otherwise it reaches
   * the event loop having invoked every step.
   */
  lemma BootCharacterised(b: Build, env: Env)
    ensures var full := SuccessTrace(b, env.boardMask);
      var n := |PreWaitTrace(b, env.boardMask)|;
      var res := Results(b, env);
      var k := FirstFatal(res, full);
      var r := BootSpec(b, env);
      n == |full| - 3
      && (k < n ==> r == (full[..k + 1], Halted(full[k], res(full[k]))))
      && (k >= n && env.readyAfterPolls.None? ==> r == (full[..n], WaitingForNetCore))
      && (k >= n && env.readyAfterPolls.Some? && k < |full| ==> r == (full[..k + 1], Halted(full[k], res(full[k]))))
      && (k == |full| && env.readyAfterPolls.Some? ==> r == (full, InEventLoop))
  {
    var pre := PreWaitTrace(b, env.boardMask);
    PlanSchedulesSuccessTrace(b, env.boardMask);
    BootRunCharacterised(Results(b, env), pre, PostTrace, env.readyAfterPolls.Some?);
    assert (pre + PostTrace)[..|pre|] == pre;
  }

  lemma PrefixOfConcat(x: seq<Step>, y: seq<Step>, n: nat)
    requires n <= |x|
    ensures (x + y)[..n] == x[..n]
  {
  }

  /** The first seven steps are fixed, whatever the board and the build. */
  lemma SuccessTraceStartsFixed(b: Build, mask: bv32)
    ensures |SuccessTrace(b, mask)| >= 7
    ensures SuccessTrace(b, mask)[..7] ==
      [LedInit, ButtonHandlerInit, ChannelAssign, FwInfoAppPrint, CoreAppConfigStep,
       BoardVersionValidCheck, BoardVersionGet]
  {
    var s1 := StartTrace + BoardTrace(mask);
    var s2 := s1 + MidTrace(b);
    PrefixOfConcat(StartTrace, BoardTrace(mask), 7);
    PrefixOfConcat(s1, MidTrace(b), 7);
    PrefixOfConcat(s2, PostTrace, 7);
  }

  /**
   * Whatever the results, main() invokes a prefix of the success trace:
   * no step is skipped, repeated or reordered.
   */
  lemma BootTraceIsPrefixOfPlan(b: Build, env: Env)
    ensures var t := BootSpec(b, env).0;
      |t| <= |SuccessTrace(b, env.boardMask)| && t == SuccessTrace(b, env.boardMask)[..|t|]
  {
    BootCharacterised(b, env);
  }

  /**
   * A halt happens at the last step invoked, on a fatal result, and every
   * step invoked before it had a result ERR_CHK let through.
   */
  lemma BootHaltsOnlyOnFatal(b: Build, env: Env)
    ensures var t := BootSpec(b, env).0;
      var o := BootSpec(b, env).1;
      var res := Results(b, env);
      (forall j :: 0 <= j < |t| - 1 ==> !Fatal(t[j], res(t[j])))
      && (o.Halted? ==> |t| > 0 && t[|t| - 1] == o.step && o.code == res(o.step) && Fatal(o.step, o.code))
      && (!o.Halted? ==> forall j :: 0 <= j < |t| ==> !Fatal(t[j], res(t[j])))
  {
    PlanSchedulesSuccessTrace(b, env.boardMask);
    BootRunHaltsOnlyOnFatal(Results(b, env), PreWaitTrace(b, env.boardMask), PostTrace, env.readyAfterPolls.Some?);
  }

  /** BootHaltsOnlyOnFatal over any step results. */
  lemma BootRunHaltsOnlyOnFatal(res: Step -> int, pre: seq<Step>, post: seq<Step>, ready: bool)
    ensures var t := BootRun(res, pre, post, ready).0;
      var o := BootRun(res, pre, post, ready).1;
      (forall j :: 0 <= j < |t| - 1 ==> !Fatal(t[j], res(t[j])))
      && (o.Halted? ==> |t| > 0 && t[|t| - 1] == o.step && o.code == res(o.step) && Fatal(o.step, o.code))
      && (!o.Halted? ==> forall j :: 0 <= j < |t| ==> !Fatal(t[j], res(t[j])))
  {
    var full := pre + post;
    var k := FirstFatal(res, full);
    BootRunCharacterised(res, pre, post, ready);
    if k >= |pre| && !ready {
      PrefixBeforeFatalPasses(res, full, |pre|);
      assert full[..|pre|] == pre;
    } else if k < |full| {
      PrefixBeforeFatalPasses(res, full, k);
      assert full[..k + 1][..k] == full[..k];
    } else {
      PrefixBeforeFatalPasses(res, full, |full|);
      assert full[..|full|] == full;
    }
  }

  /** Every step before the first fatal one passes. */
  lemma PrefixBeforeFatalPasses(res: Step -> int, steps: seq<Step>, n: nat)
    requires n <= FirstFatal(res, steps)
    ensures forall j :: 0 <= j < n ==> !Fatal(steps[..n][j], res(steps[..n][j]))
  {
    FirstFatalIsFirst(res, steps);
  }

  /** The PMIC pair is in the trace iff the board has a PMIC, the SD card step iff it has a slot. */
  lemma BoardMaskGatesPmicAndSd(b: Build, mask: bv32)
    ensures PmicInit in SuccessTrace(b, mask) <==> MaskHas(mask, PMIC_MASK)
    ensures PmicDefaultsSet in SuccessTrace(b, mask) <==> MaskHas(mask, PMIC_MASK)
    ensures SdCardInit in SuccessTrace(b, mask) <==> MaskHas(mask, SD_CARD_MASK)
  {
    GatedStepsOnlyOnBoard(b);
    InSuccessTrace(b, mask, PmicInit);
    InSuccessTrace(b, mask, PmicDefaultsSet);
    InSuccessTrace(b, mask, SdCardInit);
  }

  /** The board mask gates only the PMIC pair and the SD card step: no other step's presence depends on it. */
  lemma BoardMaskGatesNothingElse(b: Build, mask: bv32, other: bv32)
    ensures forall s :: s != PmicInit && s != PmicDefaultsSet && s != SdCardInit ==>
      (s in SuccessTrace(b, mask) <==> s in SuccessTrace(b, other))
  {
    forall s | s != PmicInit && s != PmicDefaultsSet && s != SdCardInit
      ensures s in SuccessTrace(b, mask) <==> s in SuccessTrace(b, other)
    {
      InSuccessTrace(b, mask, s);
      InSuccessTrace(b, other, s);
      assert s !in BoardTrace(mask) && s !in BoardTrace(other);
    }
  }

  /** The gated steps appear in no fixed part of the success trace. */
  lemma GatedStepsOnlyOnBoard(b: Build)
    ensures PmicInit !in StartTrace && PmicInit !in MidTrace(b) && PmicInit !in PostTrace
    ensures PmicDefaultsSet !in StartTrace && PmicDefaultsSet !in MidTrace(b) && PmicDefaultsSet !in PostTrace
    ensures SdCardInit !in StartTrace && SdCardInit !in MidTrace(b) && SdCardInit !in PostTrace
  {
  }

  /** A step is in the success trace iff it is in one of its four parts. */
  lemma InSuccessTrace(b: Build, mask: bv32, s: Step)
    ensures s in SuccessTrace(b, mask) <==>
      s in StartTrace || s in BoardTrace(mask) || s in MidTrace(b) || s in PostTrace
  {
  }

  /**
   * An SD card `-ENODEV` never halts, any other non-zero SD result does,
   * the two unchecked audio calls never halt, and every other step halts
   * exactly on a non-zero result.
   */
  lemma SdCardNoDeviceTolerated(code: int)
    ensures !Fatal(SdCardInit, -ENODEV)
    ensures code != 0 && code != -ENODEV ==> Fatal(SdCardInit, code)
    ensures !Fatal(AudioI2sInit, code) && !Fatal(SyncEvtSend, code)
    ensures forall s: Step :: s != SdCardInit && s != AudioI2sInit && s != SyncEvtSend ==>
      (Fatal(s, code) <==> code != 0)
  {
  }

  /** The audio part of the success trace starts right after the board steps. */
  lemma MidTraceInSuccessTrace(b: Build, mask: bv32)
    ensures var t := SuccessTrace(b, mask);
      var i := |StartTrace| + |BoardTrace(mask)|;
      i + |MidTrace(b)| <= |t| && t[i..i + |MidTrace(b)|] == MidTrace(b)
  {
  }

  /**
   * On a local-audio build, right after `power_module_init` main() runs the
   * datapath, the sync timer, I2S, the codec and the sync event in that
   * order, then `ble_core_init`, and never `audio_usb_init`.
   */
  lemma AudioBranchOrderLocal(b: Build, mask: bv32)
    requires !UsbBranch(b)
    ensures var t := SuccessTrace(b, mask);
      var i := |StartTrace| + |BoardTrace(mask)|;
      i + 7 <= |t|
      && t[i..i + 7] == [PowerModuleInit, AudioDatapathInit, AudioSyncTimerInit, AudioI2sInit,
                         HwCodecInit, SyncEvtSend, BleCoreInit]
      && AudioUsbInit !in t
  {
    MidTraceInSuccessTrace(b, mask);
    InSuccessTrace(b, mask, AudioUsbInit);
  }

  /**
   * On a USB gateway build, right after `power_module_init` main() runs
   * `audio_usb_init` and then `ble_core_init`, and none of the local audio
   * steps.
   */
  lemma AudioBranchOrderUsb(b: Build, mask: bv32)
    requires UsbBranch(b)
    ensures var t := SuccessTrace(b, mask);
      var i := |StartTrace| + |BoardTrace(mask)|;
      i + 3 <= |t| && t[i..i + 3] == [PowerModuleInit, AudioUsbInit, BleCoreInit]
      && AudioDatapathInit !in t && AudioSyncTimerInit !in t && AudioI2sInit !in t
      && HwCodecInit !in t && SyncEvtSend !in t
  {
    MidTraceInSuccessTrace(b, mask);
    forall x | x == AudioDatapathInit || x == AudioSyncTimerInit || x == AudioI2sInit || x == HwCodecInit || x == SyncEvtSend
      ensures x !in SuccessTrace(b, mask)
    {
      InSuccessTrace(b, mask, x);
    }
  }

  /** The three steps after the wait run only once the ready callback has fired. */
  lemma PostWaitStepsNeedReady(b: Build, env: Env)
    ensures var t := BootSpec(b, env).0;
      (LedsSetStep in t || StreamctrlStart in t || TonePlay in t) ==> env.readyAfterPolls.Some?
  {
    if env.readyAfterPolls.None? {
      PreWaitHasNoPostSteps(b, env);
    }
  }

  /** Running steps only ever adds steps from the list to the trace. */
  lemma {:induction false} RunStepsInvokesOnlyItsSteps(res: Step -> int, steps: seq<Step>, st: RunState)
    ensures forall x :: x in RunSteps(res, steps, st).trace ==> x in st.trace || x in steps
    decreases |steps|
  {
    if |steps| > 0 && st.halt.None? {
      var s := steps[0];
      RunStepsInvokesOnlyItsSteps(res, steps[1..],
        RunState(st.trace + [s], if Fatal(s, res(s)) then Some((s, res(s))) else None));
    }
  }

  /** No step after the wait is part of the plan before it. */
  lemma PreWaitTraceHasNoPostSteps(b: Build, mask: bv32)
    ensures forall s :: s in PostTrace ==> s !in PreWaitTrace(b, mask)
  {
    var s1 := StartTrace;
    var s2 := BoardTrace(mask);
    var s3 := MidTrace(b);
    assert LedsSetStep !in s1 && StreamctrlStart !in s1 && TonePlay !in s1;
    assert LedsSetStep !in s2 && StreamctrlStart !in s2 && TonePlay !in s2;
    assert LedsSetStep !in s3 && StreamctrlStart !in s3 && TonePlay !in s3;
  }

  /** Before the wait no step after it has run. */
  lemma PreWaitHasNoPostSteps(b: Build, env: Env)
    ensures var t := RunSteps(Results(b, env), Scheduled(PreWaitPlan(b), env.boardMask), RunState([], None)).trace;
      LedsSetStep !in t && StreamctrlStart !in t && TonePlay !in t
  {
    PlanSchedulesSuccessTrace(b, env.boardMask);
    PreWaitTraceHasNoPostSteps(b, env.boardMask);
    RunStepsInvokesOnlyItsSteps(Results(b, env), PreWaitTrace(b, env.boardMask), RunState([], None));
  }

  /** Scheduling from position `i` starts with the entry at `i` if the mask enables it. */
  lemma ScheduledAt(es: seq<Entry>, i: nat, mask: bv32)
    requires i < |es|
    ensures Scheduled(es[i..], mask) ==
      if Enabled(es[i], mask) then [es[i].step] + Scheduled(es[i + 1..], mask) else Scheduled(es[i + 1..], mask)
  {
    assert es[i..][0] == es[i] && es[i..][1..] == es[i + 1..];
  }

  /** One step of a live run. */
  lemma RunStepsCons(res: Step -> int, s: Step, rest: seq<Step>, st: RunState)
    requires st.halt.None?
    ensures RunSteps(res, [s] + rest, st) ==
      RunSteps(res, rest, RunState(st.trace + [s], if Fatal(s, res(s)) then Some((s, res(s))) else None))
  {
    assert ([s] + rest)[0] == s && ([s] + rest)[1..] == rest;
  }

  // ---------------------------------------------------------------------
  // main() itself
  // ---------------------------------------------------------------------

  class Application {
    const build: Build
    /** The steps main() has invoked, in order. */
    var trace: seq<Step>
    /** `board_rev.mask`, written by `board_version_get`. */
    var boardRevMask: bv32
    /** `ble_core_is_ready`. */
    var bleCoreIsReady: bool
    /** The channel assignment as `channel_assignment_get` would report it. */
    var channel: Option<AudioChannel>
    /** The values the ready-wait loop read from `ble_core_is_ready`, in order. */
    var readyPolls: seq<bool>
    /** Passes through the endless event loop. */
    var eventLoopPasses: nat
    /** Whether `board_version_get` has filled in `board_rev`. */
    ghost var maskRead: bool

    constructor (build: Build, storedChannel: Option<AudioChannel>)
      ensures this.build == build && trace == [] && boardRevMask == 0 && !bleCoreIsReady
      ensures channel == storedChannel && readyPolls == [] && eventLoopPasses == 0 && !maskRead
    {
      this.build := build;
      trace := [];
      boardRevMask := 0;
      bleCoreIsReady := false;
      channel := storedChannel;
      readyPolls := [];
      eventLoopPasses := 0;
      maskRead := false;
    }

    /** `on_ble_core_ready`: the flag is set, never cleared. */
    method OnBleCoreReady()
      modifies this`bleCoreIsReady
      ensures bleCoreIsReady
    {
      bleCoreIsReady := true;
    }

    /** Invokes one step and applies its effect on main()'s own state; returns its code. */
    method Invoke(env: Env, s: Step) returns (code: int)
      modifies this`trace, this`boardRevMask, this`channel, this`maskRead
      ensures trace == old(trace) + [s]
      ensures code == StepResult(build, env, s)
      ensures boardRevMask == if s == BoardVersionGet then env.boardMask else old(boardRevMask)
      ensures maskRead == (old(maskRead) || s == BoardVersionGet)
      ensures channel == if s == ChannelAssign then ChannelAfterAssign(build, env) else old(channel)
    {
      trace := trace + [s];
      code := StepResult(build, env, s);
      if s == BoardVersionGet {
        boardRevMask := env.boardMask;
        maskRead := true;
      }
      if s == ChannelAssign {
        channel := ChannelAfterAssign(build, env);
      }
    }

    /** main()'s own state agrees with the steps it has invoked. */
    ghost predicate StateMatches(env: Env)
      reads this
    {
      (maskRead <==> BoardVersionGet in trace)
      && (maskRead ==> boardRevMask == env.boardMask)
      && (ChannelAssign in trace ==> channel == ChannelAfterAssign(build, env))
    }

    /**
     * The body of the step loop for entry `i`: a gated entry is skipped
     * unless its bits are set in `board_rev.mask`; an invoked step whose
     * result is fatal halts the device.
     */
    method RunEntry(env: Env, es: seq<Entry>, i: nat) returns (halt: Option<(Step, int)>)
      requires i < |es| && StateMatches(env)
      requires es[i].IfBoard? ==> maskRead
      modifies this`trace, this`boardRevMask, this`channel, this`maskRead
      ensures StateMatches(env)
      ensures (old(maskRead) || es[i] == Always(BoardVersionGet)) ==> maskRead
      ensures RunSteps(Results(build, env), Scheduled(es[i..], env.boardMask), RunState(old(trace), None)) ==
        if halt.Some? then RunState(trace, halt)
        else RunSteps(Results(build, env), Scheduled(es[i + 1..], env.boardMask), RunState(trace, None))
    {
      var e := es[i];
      var enabled := e.Always? || MaskHas(boardRevMask, e.bits);
      ScheduledAt(es, i, env.boardMask);
      halt := None;
      if enabled {
        RunStepsCons(Results(build, env), e.step, Scheduled(es[i + 1..], env.boardMask), RunState(trace, None));
        var code := Invoke(env, e.step);
        if Fatal(e.step, code) {
          halt := Some((e.step, code));
        }
      }
    }

    /**
     * Runs a list of entries; `halt` is the step and code that halted the
     * device, if any.  A gated entry needs the board mask, so unless it is
     * already known it must come after `board_version_get`, at `g - 1`
     * (`g == 0`: no such step is needed).
     */
    method RunPlan(env: Env, es: seq<Entry>, ghost g: nat) returns (halt: Option<(Step, int)>)
      requires StateMatches(env)
      requires 0 < g ==> g <= |es| && es[g - 1] == Always(BoardVersionGet)
      requires forall j :: 0 <= j < |es| && es[j].IfBoard? ==> maskRead || 0 < g <= j
      modifies this`trace, this`boardRevMask, this`channel, this`maskRead
      ensures RunState(trace, halt) == RunSteps(Results(build, env), Scheduled(es, env.boardMask), RunState(old(trace), None))
      ensures StateMatches(env)
    {
      var i := 0;
      halt := None;
      while i < |es|
        invariant 0 <= i <= |es|
        invariant StateMatches(env)
        invariant old(maskRead) ==> maskRead
        invariant 0 < g <= i ==> maskRead
        invariant halt.None?
        invariant RunSteps(Results(build, env), Scheduled(es[i..], env.boardMask), RunState(trace, None)) ==
          RunSteps(Results(build, env), Scheduled(es, env.boardMask), RunState(old(trace), None))
      {
        halt := RunEntry(env, es, i);
        if halt.Some? {
          return;
        }
        i := i + 1;
      }
      assert es[i..] == [];
      assert Scheduled(es[i..], env.boardMask) == [];
    }

    /**
     * `main()` up to the endless loop: the steps before the wait, the
     * ready wait, the steps after it.  The ready callback fires during the
     * n-th 100 ms sleep when `env.readyAfterPolls == Some(n)` (n == 0: before
     * the first poll); with None it never fires, and the model stops in the
     * wait, which in the device never ends.
     */
    method Run(env: Env) returns (outcome: BootOutcome)
      requires trace == [] && !bleCoreIsReady && readyPolls == [] && !maskRead
      modifies this
      ensures (trace, outcome) == BootSpec(build, env)
      ensures BoardVersionGet in trace ==> boardRevMask == env.boardMask
      ensures ChannelAssign in trace ==> channel == ChannelAfterAssign(build, env)
      ensures (LedsSetStep in trace || StreamctrlStart in trace || TonePlay in trace) ==> ReadyObserved()
    {
      var halt := RunPlan(env, PreWaitPlan(build), 7);
      if halt.Some? || env.readyAfterPolls.None? {
        PreWaitHasNoPostSteps(build, env);
        outcome := if halt.Some? then Halted(halt.value.0, halt.value.1) else WaitingForNetCore;
        return;
      }
      outcome := RunAfterWait(env);
    }

    /**
     * The net core reported ready, after one or more polls of
     * `ble_core_is_ready` that found it not ready and a last one that
     * found it ready.
     */
    ghost predicate ReadyObserved()
      reads this`bleCoreIsReady, this`readyPolls
    {
      bleCoreIsReady && |readyPolls| > 0 && readyPolls[|readyPolls| - 1]
      && (forall j :: 0 <= j < |readyPolls| - 1 ==> !readyPolls[j])
    }

    /** The ready wait of main() and the steps after it, when the net core does report ready. */
    method RunAfterWait(env: Env) returns (outcome: BootOutcome)
      requires env.readyAfterPolls.Some? && !bleCoreIsReady && readyPolls == [] && StateMatches(env)
      requires RunState(trace, None) == RunSteps(Results(build, env), Scheduled(PreWaitPlan(build), env.boardMask), RunState([], None))
      modifies this`trace, this`boardRevMask, this`channel, this`maskRead, this`bleCoreIsReady, this`readyPolls
      ensures (trace, outcome) == BootSpec(build, env)
      ensures StateMatches(env) && ReadyObserved()
    {
      WaitForNetCore(env.readyAfterPolls.value);
      assert ReadyObserved();
      var halt := RunPlan(env, PostWaitPlan, 0);
      outcome := if halt.Some? then Halted(halt.value.0, halt.value.1) else InEventLoop;
    }

    /**
     * The ready wait of main(): poll `ble_core_is_ready`, sleeping between
     * polls, while the net core reports ready during the `n`-th sleep
     * (before the first poll when `n` is 0).
     */
    method WaitForNetCore(n: nat)
      requires !bleCoreIsReady && readyPolls == []
      modifies this`bleCoreIsReady, this`readyPolls
      ensures |readyPolls| == n + 1 && ReadyObserved()
    {
      if n == 0 {
        OnBleCoreReady();
      }
      var sleeps := 0;
      readyPolls := readyPolls + [bleCoreIsReady];
      while !bleCoreIsReady
        invariant sleeps <= n
        invariant bleCoreIsReady <==> sleeps == n
        invariant |readyPolls| == sleeps + 1 && readyPolls[sleeps] == bleCoreIsReady
        invariant forall j :: 0 <= j < sleeps ==> !readyPolls[j]
        decreases n - sleeps
      {
        sleeps := sleeps + 1;
        if sleeps == n {
          OnBleCoreReady();
        }
        readyPolls := readyPolls + [bleCoreIsReady];
      }
    }

    /** One pass of `while (1) { streamctrl_event_handler(); STACK_USAGE_PRINT(...) }`. */
    method EventLoopPass(monitor: Macros.StackUsageMonitor, uptimeMs: nat) returns (reported: bool)
      requires uptimeMs < Macros.U64_LIMIT
      modifies this`eventLoopPasses, monitor
      ensures eventLoopPasses == old(eventLoopPasses) + 1
      ensures reported <==> (monitor.analyzerEnabled &&
        Macros.StackReportDue(old(monitor.threadTs), uptimeMs, monitor.intervalMs))
      ensures monitor.threadTs == if reported then uptimeMs else old(monitor.threadTs)
    {
      eventLoopPasses := eventLoopPasses + 1;
      reported := monitor.Print(uptimeMs);
    }
  }

}
