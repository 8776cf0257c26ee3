/**
 * Bring-up of the Bluetooth host on the application core (ble_core.c).
 * `ble_core_init` stores the ready callback, arms a watchdog timer that
 * halts the device if the network core does not answer `bt_enable` in
 * time, and maps a controller LED pin.  The Bluetooth stack, the timer
 * and the vendor HCI commands are foreign; their results are parameters,
 * and what the module asks of them is recorded as a list of calls.
 */
module BleCore {
  import opened Errno
  import opened Wrappers

  const NETCORE_RESPONSE_TIMEOUT_MS: nat := 500

  /** The message `netcore_timeout_handler` logs before halting. */
  const NETCORE_TIMEOUT_MSG: string := "No response from NET core, check if NET core is programmed"

  /** Vendor-specific HCI operation flags used here. */
  datatype VscOp = DisPowerMonitor

  /** A request this module makes of the kernel, the Bluetooth stack or the controller. */
  datatype Call =
    | StartTimer(ms: nat)
    | BtEnable
    | StopTimer
    | MapLedPin
    | MacPrint
    | InvokeReadyCallback(cb: nat)
    | VscSetOpFlag(op: VscOp, flag: nat)

  /** How a call into this module ends: a returned code, or a device halt (`k_oops`). */
  datatype Outcome = Returned(code: int) | Halted(code: int)

  /**
   * What `ble_core_init` does, given whether a callback is passed, the
   * result of `bt_enable`, the result of the LED mapping command, and
   * whether the network core takes longer than the watchdog period to
   * answer `bt_enable`.
   */
  function InitSpec(callbackGiven: bool, btEnableResult: int, ledMapResult: int, netCoreSlow: bool)
    : (r: (Outcome, seq<Call>))
    ensures !callbackGiven ==> r.0 == Returned(-EINVAL) && r.1 == []
    ensures callbackGiven ==> |r.1| >= 2 && r.1[0] == StartTimer(NETCORE_RESPONSE_TIMEOUT_MS) && r.1[1] == BtEnable
    ensures callbackGiven && netCoreSlow ==> r.0 == Halted(-EIO)
    ensures callbackGiven && !netCoreSlow ==>
      |r.1| >= 3 && r.1[2] == StopTimer
      && (MapLedPin in r.1 <==> btEnableResult == 0)
      && r.0 == Returned(if btEnableResult != 0 then btEnableResult else ledMapResult)
    ensures r.0 == Returned(0) ==> callbackGiven && btEnableResult == 0 && ledMapResult == 0
  {
    if !callbackGiven then (Returned(-EINVAL), [])
    else if netCoreSlow then (Halted(-EIO), [StartTimer(NETCORE_RESPONSE_TIMEOUT_MS), BtEnable])
    else if btEnableResult != 0 then
      (Returned(btEnableResult), [StartTimer(NETCORE_RESPONSE_TIMEOUT_MS), BtEnable, StopTimer])
    else
      (Returned(if ledMapResult != 0 then ledMapResult else 0),
       [StartTimer(NETCORE_RESPONSE_TIMEOUT_MS), BtEnable, StopTimer, MapLedPin])
  }

  class BleCore {
    /** `m_ready_callback`, identified by a number; `None` stands for never stored. */
    var readyCallback: Option<nat>
    var timerArmed: bool
    var calls: seq<Call>
    /** The halt code once the device has halted. */
    var halted: Option<int>
    var log: seq<string>

    constructor ()
      ensures readyCallback == None && !timerArmed && calls == [] && halted == None && log == []
    {
      readyCallback := None;
      timerArmed := false;
      calls := [];
      halted := None;
      log := [];
    }

    /** `netcore_timeout_handler`: the watchdog expired while waiting for the network core. */
    method NetcoreTimeoutHandler()
      requires timerArmed
      modifies this
      ensures halted == Some(-EIO)
      ensures log == old(log) + [NETCORE_TIMEOUT_MSG]
      ensures readyCallback == old(readyCallback) && calls == old(calls) && timerArmed
    {
      log := log + [NETCORE_TIMEOUT_MSG];
      halted := Some(-EIO);
    }

    /**
     * `ble_core_init(ready_callback)`; `callback == None` is a NULL
     * pointer, and `netCoreSlow` says the watchdog fires during `bt_enable`.
     */
    method Init(callback: Option<nat>, btEnableResult: int, ledMapResult: int, netCoreSlow: bool)
      returns (outcome: Outcome)
      requires halted == None && !timerArmed
      modifies this
      ensures |calls| >= |old(calls)| && calls[..|old(calls)|] == old(calls)
      ensures (outcome, calls[|old(calls)|..]) == InitSpec(callback.Some?, btEnableResult, ledMapResult, netCoreSlow)
      ensures callback == None ==> readyCallback == old(readyCallback) && unchanged(this)
      ensures callback != None ==> readyCallback == callback
      ensures outcome.Halted? <==> halted == Some(outcome.code)
      ensures outcome.Returned? ==> !timerArmed && halted == None
    {
      if callback == None {
        assert calls[|calls|..] == [];
        return Returned(-EINVAL);
      }
      ghost var before := calls;
      readyCallback := callback;
      calls := calls + [StartTimer(NETCORE_RESPONSE_TIMEOUT_MS)];
      timerArmed := true;
      calls := calls + [BtEnable];
      if netCoreSlow {
        NetcoreTimeoutHandler();
        assert calls[|before|..] == [StartTimer(NETCORE_RESPONSE_TIMEOUT_MS), BtEnable];
        return Halted(-EIO);
      }
      calls := calls + [StopTimer];
      timerArmed := false;
      if btEnableResult != 0 {
        assert calls[|before|..] == [StartTimer(NETCORE_RESPONSE_TIMEOUT_MS), BtEnable, StopTimer];
        return Returned(btEnableResult);
      }
      calls := calls + [MapLedPin];
      assert calls[|before|..] == [StartTimer(NETCORE_RESPONSE_TIMEOUT_MS), BtEnable, StopTimer, MapLedPin];
      if ledMapResult != 0 {
        return Returned(ledMapResult);
      }
      return Returned(0);
    }

    /** `on_bt_ready(err)`, called by the stack once `bt_enable` has finished. */
    method OnBtReady(err: int)
      requires readyCallback.Some? && halted == None
      modifies this
      ensures readyCallback == old(readyCallback) && timerArmed == old(timerArmed)
      ensures err != 0 ==> halted == Some(err) && calls == old(calls)
      ensures err == 0 ==>
        halted == None && calls == old(calls) + [MacPrint, InvokeReadyCallback(readyCallback.value)]
    {
      if err != 0 {
        log := log + ["Bluetooth init failed"];
        halted := Some(err);
        return;
      }
      calls := calls + [MacPrint, InvokeReadyCallback(readyCallback.value)];
    }

    /**
     * `ble_core_le_pwr_ctrl_disable`: one vendor command setting the
     * DIS_POWER_MONITOR flag to 1, whose result is returned unchanged.
     */
    method LePwrCtrlDisable(vscResult: int) returns (ret: int)
      modifies this
      ensures calls == old(calls) + [VscSetOpFlag(DisPowerMonitor, 1)]
      ensures ret == vscResult
      ensures readyCallback == old(readyCallback) && halted == old(halted) && timerArmed == old(timerArmed)
    {
      calls := calls + [VscSetOpFlag(DisPowerMonitor, 1)];
      ret := vscResult;
    }
  }
}
