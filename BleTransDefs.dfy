/**
 * The constants of the BLE ISO transport interface (ble_trans.h): the
 * channel, transport, direction and link-event enumerations with the
 * values the C compiler gives them, and the connection interval.
 *
 * The channel enumeration has two names for 0, so the enumerations are
 * integer constants rather than datatypes.
 */
module BleTransDefs {
  /** `enum ble_trans_chan_type`: RETURN_MONO and LEFT are both 0. */
  const BLE_TRANS_CHANNEL_RETURN_MONO: int := 0
  const BLE_TRANS_CHANNEL_LEFT: int := 0
  const BLE_TRANS_CHANNEL_RIGHT: int := 1
  const BLE_TRANS_CHANNEL_STEREO: int := 2
  const BLE_TRANS_CHANNEL_NUM: int := 3

  /** `enum iso_transport`: zero-initialised state is NOT_SET. */
  const TRANS_TYPE_NOT_SET: int := 0
  const TRANS_TYPE_BIS: int := 1
  const TRANS_TYPE_CIS: int := 2
  const TRANS_TYPE_NUM: int := 3

  /** `enum iso_direction`. */
  const DIR_NOT_SET: int := 0
  const DIR_RX: int := 1
  const DIR_TX: int := 2
  const DIR_BIDIR: int := 3
  const DIR_NUM: int := 4

  /** `enum ble_evt_type`, in declaration order. */
  const BLE_EVT_CONNECTED: int := 0
  const BLE_EVT_DISCONNECTED: int := 1
  const BLE_EVT_LINK_READY: int := 2
  const BLE_EVT_STREAMING: int := 3
  const BLE_EVT_NUM_EVTS: int := 4

  /**
   * `BLE_ISO_CONN_INTERVAL`, in units of 1.25 ms: 6 (7.5 ms) only when the
   * build uses 7.5 ms frames and the LC3 codec, otherwise 8 (10 ms).
   */
  function ConnInterval(frame7500us: bool, lc3: bool): (r: int)
    ensures r == 6 <==> frame7500us && lc3
    ensures r == 6 || r == 8
  {
    if frame7500us && lc3 then 6 else 8
  }

  /** `BLE_ISO_CONN_INTERVAL_US` (ble_trans.c): the interval in microseconds. */
  function ConnIntervalUs(frame7500us: bool, lc3: bool): (r: int)
    ensures r == (if frame7500us && lc3 then 7500 else 10000)
  {
    ConnInterval(frame7500us, lc3) * 1250
  }

  /**
   * The enumerations have the values the firmware relies on: zeroed
   * state is "not set", LEFT aliases RETURN_MONO, and the link events are
   * ordered CONNECTED, DISCONNECTED, LINK_READY, STREAMING.
   */
  lemma EnumValues()
    ensures BLE_TRANS_CHANNEL_LEFT == BLE_TRANS_CHANNEL_RETURN_MONO
    ensures BLE_TRANS_CHANNEL_LEFT < BLE_TRANS_CHANNEL_RIGHT < BLE_TRANS_CHANNEL_STEREO < BLE_TRANS_CHANNEL_NUM
    ensures TRANS_TYPE_NOT_SET == 0 && DIR_NOT_SET == 0
    ensures TRANS_TYPE_NOT_SET < TRANS_TYPE_BIS < TRANS_TYPE_CIS < TRANS_TYPE_NUM
    ensures DIR_NOT_SET < DIR_RX < DIR_TX < DIR_BIDIR < DIR_NUM
    ensures BLE_EVT_CONNECTED < BLE_EVT_DISCONNECTED < BLE_EVT_LINK_READY < BLE_EVT_STREAMING < BLE_EVT_NUM_EVTS
  {
  }
}
