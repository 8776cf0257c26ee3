/**
 * The BLE ISO transport (ble_trans.c): one-shot initialisation that picks
 * the transport (broadcast BIS or connected CIS) and the QoS pointers, the
 * routing of an encoded frame onto ISO channels, the per-channel count of
 * HCI buffers in flight, the test-pattern generator, the start/stop
 * dispatch, and the queue that retries CIS connections.
 *
 * The Bluetooth stack is not modelled: its calls are result parameters
 * (`InitResults`, `Net`, peer tables, connect results), its callbacks are
 * method calls, and a channel's `connected` flag is the state the stack
 * sets before it calls back.
 */
module BleTrans {
  import opened Wrappers
  import opened CInt
  import opened Errno
  import opened BleTransDefs

  type byte = bv8

  /** `CONFIG_BT_ISO_MAX_CHAN`; the message queue holds as many retry entries. */
  const MAX_CHAN: nat := 2
  /** `CONFIG_BT_MAX_CONN`: the ACL connections `ble_trans_iso_cis_connect` scans. */
  const MAX_CONN: nat := 2
  const HCI_ISO_BUF_ALLOC_PER_CHAN: int := 2
  const CIS_CONN_RETRY_TIMES: int := 5
  /** `K_MSEC(500)`: the retry delay and the per-ACL stagger of the first attempt. */
  const CIS_CONN_DELAY_MS: nat := 500
  const BLE_ISO_RETRANSMITS: int := 2
  const BLE_ISO_LATENCY_MS: int := 10
  /** `ENC_MAX_FRAME_SIZE`, the largest encoded frame (a build-dependent value). */
  const BLE_ISO_PAYLOAD_SIZE_MAX: int := 120
  const BT_GAP_LE_PHY_2M: int := 2
  const BT_HCI_ERR_LOCALHOST_TERM_CONN: int := 0x16

  // ---------------------------------------------------------------------
  // Initialisation and QoS selection
  // ---------------------------------------------------------------------

  /** `struct bt_iso_chan_io_qos`. */
  datatype Qos = Qos(sdu: int, rtn: int, phy: int)

  /** The zero-initialised `iso_rx_qos`. */
  const ZERO_QOS: Qos := Qos(0, 0, 0)
  /** `iso_tx_qos`. */
  const TX_QOS: Qos := Qos(BLE_ISO_PAYLOAD_SIZE_MAX, BLE_ISO_RETRANSMITS, BT_GAP_LE_PHY_2M)

  /**
   * A `struct bt_iso_chan_qos` by which of its pointers are set: `rx`
   * always points at `iso_rx_qos`, `tx` at `iso_tx_qos`.
   */
  datatype ChanQos = ChanQos(rx: bool, tx: bool)

  /** Which of the two `bt_iso_chan_qos` structures a channel points at. */
  datatype QosRef = Unset | BisQos | CisQos

  /** The `ops` and `qos` pointers of one `iso_chan_p[i]`. */
  datatype ChanSetup = ChanSetup(ops: bool, qos: QosRef)

  const NO_SETUP: ChanSetup := ChanSetup(false, Unset)

  /** The module globals that `ble_trans_iso_init` writes. */
  datatype Cfg = Cfg(transType: int, dir: int, setup: seq<ChanSetup>,
                     bisQos: ChanQos, cisQos: ChanQos, rxQos: Qos,
                     rxCb: bool, serverRegistered: bool)

  /** The configuration a build selects at compile time. */
  datatype Build = Build(headset: bool, transportCis: bool, testPattern: bool)

  /** What `iso_bis_rx_init`, `iso_bis_tx_init` and `bt_iso_server_register` return. */
  datatype InitResults = InitResults(bisRxInit: int, bisTxInit: int, serverRegister: int)

  /** The zero-initialised statics. */
  function InitialCfg(): (c: Cfg)
    ensures c.transType == TRANS_TYPE_NOT_SET && c.dir == DIR_NOT_SET
    ensures |c.setup| == MAX_CHAN
  {
    Cfg(TRANS_TYPE_NOT_SET, DIR_NOT_SET, seq(MAX_CHAN, _ => NO_SETUP),
        ChanQos(false, false), ChanQos(false, false), ZERO_QOS, false, false)
  }

  /** The transport and direction pairs `ble_trans_iso_init` accepts. */
  predicate Supported(transType: int, dir: int) {
    || (transType == TRANS_TYPE_BIS && (dir == DIR_RX || dir == DIR_TX))
    || (transType == TRANS_TYPE_CIS && (dir == DIR_RX || dir == DIR_TX || dir == DIR_BIDIR))
  }

  /** `ble_trans_iso_init`: the return code and the globals afterwards. */
  function InitSpec(c: Cfg, b: Build, transType: int, dir: int, rxCb: bool, r: InitResults): (o: (int, Cfg))
    requires |c.setup| == MAX_CHAN
    ensures |o.1.setup| == MAX_CHAN
  {
    if c.dir != DIR_NOT_SET then (-EINVAL, c)
    else
      var c1 := c.(dir := dir);
      if c1.transType != TRANS_TYPE_NOT_SET then (-EPERM, c1)
      else
        var c2 := c1.(transType := transType);
        if transType == TRANS_TYPE_BIS then BisInit(c2, b, dir, rxCb, r)
        else if transType == TRANS_TYPE_CIS then CisInit(c2, b, dir, rxCb, r)
        else (-EPERM, c2)
  }

  /** The BIS branch of the transport switch. */
  function BisInit(c: Cfg, b: Build, dir: int, rxCb: bool, r: InitResults): (o: (int, Cfg))
    requires |c.setup| == MAX_CHAN
    ensures |o.1.setup| == MAX_CHAN
    ensures o.1.transType == c.transType && o.1.dir == c.dir
    ensures o.0 == 0 ==> (dir == DIR_RX || dir == DIR_TX) && o.1.rxCb == rxCb
  {
    if dir == DIR_RX then
      var c1 := c.(bisQos := ChanQos(true, false));
      if r.bisRxInit != 0 then (r.bisRxInit, c1) else InitTail(BindBis(c1), b, rxCb, r)
    else if dir == DIR_TX then
      var c1 := c.(bisQos := ChanQos(false, true));
      if r.bisTxInit != 0 then (r.bisTxInit, c1) else InitTail(BindBis(c1), b, rxCb, r)
    else (-EPERM, c)
  }

  /** Channel 0 gets the ISO callbacks and the BIS QoS. */
  function BindBis(c: Cfg): (c': Cfg)
    requires |c.setup| == MAX_CHAN
    ensures |c'.setup| == MAX_CHAN
  {
    c.(setup := c.setup[0 := ChanSetup(true, BisQos)])
  }

  /** The CIS branch: every channel is bound first, then the direction picks the QoS. */
  function CisInit(c: Cfg, b: Build, dir: int, rxCb: bool, r: InitResults): (o: (int, Cfg))
    ensures |o.1.setup| == MAX_CHAN
    ensures o.1.transType == c.transType && o.1.dir == c.dir
    ensures o.0 == 0 ==> (dir == DIR_RX || dir == DIR_TX || dir == DIR_BIDIR) && o.1.rxCb == rxCb
  {
    var c1 := c.(setup := seq(MAX_CHAN, _ => ChanSetup(true, CisQos)));
    if dir == DIR_RX then InitTail(c1.(rxQos := TX_QOS, cisQos := ChanQos(true, false)), b, rxCb, r)
    else if dir == DIR_TX then InitTail(c1.(cisQos := ChanQos(false, true)), b, rxCb, r)
    else if dir == DIR_BIDIR then InitTail(c1.(rxQos := TX_QOS, cisQos := ChanQos(true, true)), b, rxCb, r)
    else (-EPERM, c1)
  }

  /** The steps after the switch: store the RX callback, register the CIS headset server. */
  function InitTail(c: Cfg, b: Build, rxCb: bool, r: InitResults): (o: (int, Cfg))
    ensures o.1 == c.(rxCb := rxCb, serverRegistered := o.1.serverRegistered)
    ensures o.0 == 0 ==> o.1.serverRegistered == (c.serverRegistered || (b.headset && b.transportCis))
    ensures o.0 != 0 ==> b.headset && b.transportCis && o.0 == r.serverRegister
  {
    var c1 := c.(rxCb := rxCb);
    if b.headset && b.transportCis then
      if r.serverRegister != 0 then (r.serverRegister, c1) else (0, c1.(serverRegistered := true))
    else (0, c1)
  }

  /**
   * A call made while a direction is stored fails with -EINVAL and
   * changes nothing; any other call stores the direction, even when it
   * then fails because a transport type is already stored.
   */
  lemma InitGuards(c: Cfg, b: Build, transType: int, dir: int, rxCb: bool, r: InitResults)
    requires |c.setup| == MAX_CHAN
    ensures c.dir != DIR_NOT_SET ==> InitSpec(c, b, transType, dir, rxCb, r) == (-EINVAL, c)
    ensures c.dir == DIR_NOT_SET ==> InitSpec(c, b, transType, dir, rxCb, r).1.dir == dir
    ensures c.dir == DIR_NOT_SET && c.transType != TRANS_TYPE_NOT_SET ==>
              InitSpec(c, b, transType, dir, rxCb, r) == (-EPERM, c.(dir := dir))
  {
  }

  /** The first call refuses an unsupported transport and direction pair with -EPERM. */
  lemma InitRefuses(c: Cfg, b: Build, transType: int, dir: int, rxCb: bool, r: InitResults)
    requires |c.setup| == MAX_CHAN
    requires c.dir == DIR_NOT_SET && c.transType == TRANS_TYPE_NOT_SET
    requires !Supported(transType, dir)
    ensures InitSpec(c, b, transType, dir, rxCb, r).0 == -EPERM
  {
  }

  /** The first call with a supported pair succeeds when every initialiser does. */
  lemma InitSucceeds(c: Cfg, b: Build, transType: int, dir: int, rxCb: bool)
    requires |c.setup| == MAX_CHAN
    requires c.dir == DIR_NOT_SET && c.transType == TRANS_TYPE_NOT_SET
    requires Supported(transType, dir)
    ensures InitSpec(c, b, transType, dir, rxCb, InitResults(0, 0, 0)).0 == 0
  {
  }

  /** Success means the pair was supported and is stored with the RX callback. */
  lemma InitAccepts(c: Cfg, b: Build, transType: int, dir: int, rxCb: bool, r: InitResults)
    requires |c.setup| == MAX_CHAN
    requires c.dir == DIR_NOT_SET && c.transType == TRANS_TYPE_NOT_SET
    requires InitSpec(c, b, transType, dir, rxCb, r).0 == 0
    ensures Supported(transType, dir)
    ensures var c' := InitSpec(c, b, transType, dir, rxCb, r).1;
      c'.transType == transType && c'.dir == dir && c'.rxCb == rxCb
  {
  }

  /**
   * BIS QoS selection: a successful first call points the rx or tx QoS at
   * the one direction, binds channel 0 alone, and leaves the rx QoS
   * values untouched.
   */
  lemma InitBisQos(c: Cfg, b: Build, dir: int, rxCb: bool, r: InitResults)
    requires |c.setup| == MAX_CHAN
    requires c.dir == DIR_NOT_SET && c.transType == TRANS_TYPE_NOT_SET
    ensures var o := InitSpec(c, b, TRANS_TYPE_BIS, dir, rxCb, r);
      o.0 == 0 ==>
        && o.1.bisQos == ChanQos(dir == DIR_RX, dir == DIR_TX)
        && o.1.setup == c.setup[0 := ChanSetup(true, BisQos)]
        && o.1.rxQos == c.rxQos && o.1.cisQos == c.cisQos
  {
    var c2 := c.(dir := dir, transType := TRANS_TYPE_BIS);
    assert InitSpec(c, b, TRANS_TYPE_BIS, dir, rxCb, r) == BisInit(c2, b, dir, rxCb, r);
  }

  /**
   * CIS QoS selection: a successful first call binds every channel to the
   * CIS QoS, sets its rx pointer for RX and BIDIR and its tx pointer for
   * TX and BIDIR, and copies the tx QoS into the rx QoS for RX and BIDIR.
   */
  lemma InitCisQos(c: Cfg, b: Build, dir: int, rxCb: bool, r: InitResults)
    requires |c.setup| == MAX_CHAN
    requires c.dir == DIR_NOT_SET && c.transType == TRANS_TYPE_NOT_SET
    ensures var o := InitSpec(c, b, TRANS_TYPE_CIS, dir, rxCb, r);
      o.0 == 0 ==>
        && o.1.cisQos == ChanQos(dir != DIR_TX, dir != DIR_RX)
        && (forall i :: 0 <= i < MAX_CHAN ==> o.1.setup[i] == ChanSetup(true, CisQos))
        && o.1.rxQos == (if dir == DIR_TX then c.rxQos else TX_QOS)
        && o.1.bisQos == c.bisQos
  {
    var c2 := c.(dir := dir, transType := TRANS_TYPE_CIS);
    assert InitSpec(c, b, TRANS_TYPE_CIS, dir, rxCb, r) == CisInit(c2, b, dir, rxCb, r);
  }

  /** After a successful initialisation every later call fails with -EINVAL and changes nothing. */
  lemma InitOnce(c: Cfg, b: Build, transType: int, dir: int, rxCb: bool, r: InitResults,
                 transType': int, dir': int, rxCb': bool, r': InitResults)
    requires |c.setup| == MAX_CHAN
    requires InitSpec(c, b, transType, dir, rxCb, r).0 == 0
    ensures var c' := InitSpec(c, b, transType, dir, rxCb, r).1;
      InitSpec(c', b, transType', dir', rxCb', r') == (-EINVAL, c')
  {
    if c.dir == DIR_NOT_SET && c.transType == TRANS_TYPE_NOT_SET {
      InitAccepts(c, b, transType, dir, rxCb, r);
    }
  }

  // ---------------------------------------------------------------------
  // Start and stop
  // ---------------------------------------------------------------------

  /** Where a start or stop request goes: a BIS helper, nowhere (CIS), or refused. */
  datatype Target = RxHelper | TxHelper | Ready | Refused

  /** `iso_bis_start`: the direction picks the helper. */
  function BisStartTarget(dir: int): Target {
    if dir == DIR_RX then RxHelper else if dir == DIR_TX then TxHelper else Refused
  }

  /** The switch in `ble_trans_iso_start`. */
  function StartTarget(transType: int, dir: int): Target {
    if transType == TRANS_TYPE_NOT_SET then Refused
    else if transType == TRANS_TYPE_BIS then BisStartTarget(dir)
    else if transType == TRANS_TYPE_CIS then Ready
    else Refused
  }

  /** The if-chain in `ble_trans_iso_stop`. */
  function StopTarget(transType: int, dir: int): Target {
    if transType == TRANS_TYPE_BIS then
      if dir == DIR_RX then RxHelper else if dir == DIR_TX then TxHelper else Refused
    else if transType == TRANS_TYPE_CIS then Ready
    else Refused
  }

  /** The return code of a dispatched request, given what the BIS helpers return. */
  function Dispatch(t: Target, rxRet: int, txRet: int): (ret: int)
    ensures t == Ready ==> ret == 0
    ensures t == Refused ==> ret == -EPERM
  {
    match t
    case RxHelper => rxRet
    case TxHelper => txRet
    case Ready => 0
    case Refused => -EPERM
  }

  /** `ble_trans_iso_start`, with the results of `iso_bis_rx_start` and `iso_bis_tx_start`. */
  function Start(transType: int, dir: int, rxStart: int, txStart: int): int {
    Dispatch(StartTarget(transType, dir), rxStart, txStart)
  }

  /** `ble_trans_iso_stop`, with the results of `iso_bis_rx_stop` and `iso_bis_tx_stop`. */
  function Stop(transType: int, dir: int, rxStop: int, txStop: int): int {
    Dispatch(StopTarget(transType, dir), rxStop, txStop)
  }

  /**
   * Start and stop dispatch alike: NOT_SET and unknown transports are
   * refused, CIS needs no action, BIS goes to the helper of its direction
   * and refuses any other direction.
   */
  lemma StartStopDispatch(transType: int, dir: int, rx: int, tx: int)
    ensures StartTarget(transType, dir) == StopTarget(transType, dir)
    ensures transType == TRANS_TYPE_NOT_SET ==> Start(transType, dir, rx, tx) == -EPERM
    ensures transType == TRANS_TYPE_CIS ==> Start(transType, dir, rx, tx) == 0 && Stop(transType, dir, rx, tx) == 0
    ensures StartTarget(transType, dir) == RxHelper <==> transType == TRANS_TYPE_BIS && dir == DIR_RX
    ensures StartTarget(transType, dir) == TxHelper <==> transType == TRANS_TYPE_BIS && dir == DIR_TX
    ensures StartTarget(transType, dir) == Refused <==>
              transType != TRANS_TYPE_CIS && !(transType == TRANS_TYPE_BIS && (dir == DIR_RX || dir == DIR_TX))
  {
  }

  /** A transport that initialised successfully is never refused by start or stop. */
  lemma InitEnablesStart(c: Cfg, b: Build, transType: int, dir: int, rxCb: bool, r: InitResults)
    requires |c.setup| == MAX_CHAN
    requires c.dir == DIR_NOT_SET && c.transType == TRANS_TYPE_NOT_SET
    requires InitSpec(c, b, transType, dir, rxCb, r).0 == 0
    ensures var c' := InitSpec(c, b, transType, dir, rxCb, r).1;
      StartTarget(c'.transType, c'.dir) != Refused && StopTarget(c'.transType, c'.dir) != Refused
  {
    InitAccepts(c, b, transType, dir, rxCb, r);
  }

  // ---------------------------------------------------------------------
  // Transmission
  // ---------------------------------------------------------------------

  /**
   * One ISO channel: the stack's CONNECTED state, `iso_tx_pool_alloc[i]`
   * (an `atomic_t`, signed), `wrn_printed[i]` and `test_pattern_value[i]`.
   */
  datatype Chan = Chan(connected: bool, alloc: int, wrnPrinted: bool, pattern: u8)

  const IDLE_CHAN: Chan := Chan(false, 0, false, 0)

  /** What one `bt_iso_chan_send` carries: frame bytes, or `size` copies of a pattern byte. */
  datatype Payload = Data(bytes: seq<byte>) | Pattern(value: u8, size: nat)

  datatype Sent = Sent(chan: nat, payload: Payload)

  /** What the stack does for one send: whether `net_buf_alloc` succeeds, and `bt_iso_chan_send`'s result. */
  datatype Net = Net(allocOk: bool, sendRet: int)

  /** A transmission's return code, the channels afterwards, and what it sent and warned about. */
  datatype TxOut = TxOut(ret: int, chans: seq<Chan>, sent: seq<Sent>, warned: seq<nat>)

  /** No channel has more buffers in flight than its pool holds. */
  predicate AllocBounded(cs: seq<Chan>) {
    forall i :: 0 <= i < |cs| ==> cs[i].alloc <= HCI_ISO_BUF_ALLOC_PER_CHAN
  }

  /** `iso_tx`. */
  function IsoTxSpec(cs: seq<Chan>, idx: nat, p: Payload, n: Net): (o: TxOut)
    requires idx < |cs|
    ensures |o.chans| == |cs|
  {
    var ch := cs[idx];
    if ch.alloc >= HCI_ISO_BUF_ALLOC_PER_CHAN then
      TxOut(-ENOMEM, cs[idx := ch.(wrnPrinted := true)], [], if ch.wrnPrinted then [] else [idx])
    else
      var ch1 := ch.(wrnPrinted := false);
      if !n.allocOk then TxOut(-ENOMEM, cs[idx := ch1], [], [])
      else
        var ch2 := ch1.(alloc := ch.alloc + 1);
        if n.sendRet < 0 then TxOut(n.sendRet, cs[idx := ch2], [], [])
        else TxOut(0, cs[idx := ch2], [Sent(idx, p)], [])
  }

  /**
   * The credit counter: a full channel refuses with -ENOMEM and warns only
   * on the first refusal in a row; otherwise the counter goes up by one
   * exactly when a buffer was allocated, whether or not the send then
   * succeeds; the payload is sent exactly when the call returns 0; no
   * other channel changes.
   */
  lemma IsoTxCredit(cs: seq<Chan>, idx: nat, p: Payload, n: Net)
    requires idx < |cs|
    ensures var o := IsoTxSpec(cs, idx, p, n);
      && (cs[idx].alloc >= HCI_ISO_BUF_ALLOC_PER_CHAN ==>
            && o.ret == -ENOMEM && o.chans[idx].alloc == cs[idx].alloc && o.chans[idx].wrnPrinted
            && (o.warned == [idx] <==> !cs[idx].wrnPrinted)
            && (o.warned == [] <==> cs[idx].wrnPrinted))
      && (cs[idx].alloc < HCI_ISO_BUF_ALLOC_PER_CHAN ==>
            && o.chans[idx].alloc == cs[idx].alloc + (if n.allocOk then 1 else 0)
            && !o.chans[idx].wrnPrinted && o.warned == [])
      && (o.ret == 0 <==> cs[idx].alloc < HCI_ISO_BUF_ALLOC_PER_CHAN && n.allocOk && n.sendRet >= 0)
      && (o.sent == if o.ret == 0 then [Sent(idx, p)] else [])
      && (!n.allocOk && cs[idx].alloc < HCI_ISO_BUF_ALLOC_PER_CHAN ==> o.ret == -ENOMEM)
      && o.chans[idx].connected == cs[idx].connected && o.chans[idx].pattern == cs[idx].pattern
      && (forall j :: 0 <= j < |cs| && j != idx ==> o.chans[j] == cs[j])
  {
  }

  /** Consecutive refusals on a full channel warn once. */
  lemma OverrunWarnsOnce(cs: seq<Chan>, idx: nat, p: Payload, n: Net, p': Payload, n': Net)
    requires idx < |cs| && cs[idx].alloc >= HCI_ISO_BUF_ALLOC_PER_CHAN
    ensures IsoTxSpec(IsoTxSpec(cs, idx, p, n).chans, idx, p', n').warned == []
  {
  }

  /** `iso_tx` never takes a channel past its pool size. */
  lemma IsoTxBounded(cs: seq<Chan>, idx: nat, p: Payload, n: Net)
    requires idx < |cs| && AllocBounded(cs)
    ensures AllocBounded(IsoTxSpec(cs, idx, p, n).chans)
  {
    var o := IsoTxSpec(cs, idx, p, n);
    forall j | 0 <= j < |cs|
      ensures o.chans[j].alloc <= HCI_ISO_BUF_ALLOC_PER_CHAN
    {
      IsoTxCredit(cs, idx, p, n);
    }
  }

  /** The pattern byte after `v`: `test_pattern_value` wraps from 255 to 0. */
  function NextPattern(v: u8): (w: u8)
    ensures w == (v + 1) % U8_LIMIT
  {
    if v == 0xFF then 0 else v + 1
  }

  /** `iso_tx_pattern`: the pattern byte is sent, and advanced only after a successful send. */
  function TxPatternSpec(cs: seq<Chan>, size: nat, idx: nat, n: Net): (o: TxOut)
    requires |cs| == MAX_CHAN
    ensures |o.chans| == MAX_CHAN
  {
    if idx >= MAX_CHAN then TxOut(-EIO, cs, [], [])
    else
      var v := cs[idx].pattern;
      var o := IsoTxSpec(cs, idx, Pattern(v, size), n);
      if o.ret == 0 then o.(chans := o.chans[idx := o.chans[idx].(pattern := NextPattern(v))])
      else o
  }

  /**
   * An unknown channel index gives -EIO and changes nothing; otherwise the
   * result is that of `iso_tx` on `size` copies of the current pattern byte,
   * and the byte advances (modulo 256) exactly when that returned 0.
   */
  lemma TxPatternOutcome(cs: seq<Chan>, size: nat, idx: nat, n: Net)
    requires |cs| == MAX_CHAN
    ensures var o := TxPatternSpec(cs, size, idx, n);
      && (idx >= MAX_CHAN ==> o == TxOut(-EIO, cs, [], []))
      && (idx < MAX_CHAN ==>
            var t := IsoTxSpec(cs, idx, Pattern(cs[idx].pattern, size), n);
            && o.ret == t.ret && o.sent == t.sent && o.warned == t.warned
            && o.chans[idx].pattern == (if o.ret == 0 then (cs[idx].pattern + 1) % U8_LIMIT else cs[idx].pattern)
            && o.chans[idx].alloc == t.chans[idx].alloc
            && (forall j :: 0 <= j < MAX_CHAN && j != idx ==> o.chans[j] == cs[j]))
  {
    if idx < MAX_CHAN {
      IsoTxCredit(cs, idx, Pattern(cs[idx].pattern, size), n);
    }
  }

  /** `iso_tx_data_or_pattern`: nothing is sent on a channel that is not connected. */
  function DataOrPatternSpec(cs: seq<Chan>, data: seq<byte>, size: nat, idx: nat, n: Net, testPattern: bool): (o: TxOut)
    requires |cs| == MAX_CHAN && idx < MAX_CHAN && size <= |data|
    ensures |o.chans| == MAX_CHAN
  {
    if !cs[idx].connected then TxOut(0, cs, [], [])
    else if testPattern then TxPatternSpec(cs, size, idx, n)
    else IsoTxSpec(cs, idx, Data(data[..size]), n)
  }

  /**
   * A channel that is not connected returns 0, sends nothing and changes
   * nothing; a connected one sends the first `size` bytes of the frame
   * (or the pattern) through `iso_tx`.  Either way no other channel
   * changes, nothing is sent anywhere else, and no counter passes its bound.
   */
  lemma DataOrPatternOutcome(cs: seq<Chan>, data: seq<byte>, size: nat, idx: nat, n: Net, testPattern: bool)
    requires |cs| == MAX_CHAN && idx < MAX_CHAN && size <= |data|
    ensures var o := DataOrPatternSpec(cs, data, size, idx, n, testPattern);
      && (!cs[idx].connected ==> o == TxOut(0, cs, [], []))
      && (cs[idx].connected && !testPattern ==> o == IsoTxSpec(cs, idx, Data(data[..size]), n))
      && (o.sent == [] || o.sent == [Sent(idx, if testPattern then Pattern(cs[idx].pattern, size) else Data(data[..size]))])
      && (o.ret == 0 && cs[idx].connected ==> o.sent != [])
      && (forall j :: 0 <= j < MAX_CHAN && j != idx ==> o.chans[j] == cs[j])
      && o.chans[idx].connected == cs[idx].connected
      && (AllocBounded(cs) ==> AllocBounded(o.chans))
  {
    if cs[idx].connected {
      if testPattern {
        TxPatternOutcome(cs, size, idx, n);
        IsoTxCredit(cs, idx, Pattern(cs[idx].pattern, size), n);
      } else {
        IsoTxCredit(cs, idx, Data(data[..size]), n);
      }
      var o := DataOrPatternSpec(cs, data, size, idx, n, testPattern);
      if AllocBounded(cs) {
        forall j | 0 <= j < MAX_CHAN
          ensures o.chans[j].alloc <= HCI_ISO_BUF_ALLOC_PER_CHAN
        {
          if j != idx {
            assert o.chans[j] == cs[j];
          }
        }
      }
    }
  }

  /** `ble_trans_iso_tx`: `net[i]` is what the stack does for a send on channel i. */
  function TxSpec(cs: seq<Chan>, transType: int, data: seq<byte>, size: nat, chanType: int,
                  net: seq<Net>, testPattern: bool): (o: TxOut)
    requires |cs| == MAX_CHAN && |net| == MAX_CHAN && size <= |data|
    ensures |o.chans| == MAX_CHAN
  {
    if transType == TRANS_TYPE_BIS then
      DataOrPatternSpec(cs, data, size, BLE_TRANS_CHANNEL_LEFT, net[0], testPattern)
    else if chanType == BLE_TRANS_CHANNEL_STEREO then
      var half := size / 2;
      var a := DataOrPatternSpec(cs, data, half, BLE_TRANS_CHANNEL_LEFT, net[0], testPattern);
      if a.ret != 0 then a
      else
        var b := DataOrPatternSpec(a.chans, data[half..], half, BLE_TRANS_CHANNEL_RIGHT, net[1], testPattern);
        TxOut(b.ret, b.chans, a.sent + b.sent, a.warned + b.warned)
    else if chanType == BLE_TRANS_CHANNEL_RETURN_MONO then
      DataOrPatternSpec(cs, data, size, BLE_TRANS_CHANNEL_RETURN_MONO, net[0], testPattern)
    else TxOut(-EPERM, cs, [], [])
  }

  /**
   * Routing: BIS sends the whole frame on channel 0 whatever the channel
   * type; otherwise RETURN_MONO (and so LEFT, its alias) sends the whole
   * frame on channel 0, and every type but STEREO and RETURN_MONO (RIGHT
   * included) is refused with -EPERM and changes nothing.
   */
  lemma TxRouting(cs: seq<Chan>, transType: int, data: seq<byte>, size: nat, chanType: int,
                  net: seq<Net>, testPattern: bool)
    requires |cs| == MAX_CHAN && |net| == MAX_CHAN && size <= |data|
    ensures var o := TxSpec(cs, transType, data, size, chanType, net, testPattern);
      && (transType == TRANS_TYPE_BIS ==> o == DataOrPatternSpec(cs, data, size, 0, net[0], testPattern))
      && (transType != TRANS_TYPE_BIS && chanType == BLE_TRANS_CHANNEL_LEFT ==>
            o == DataOrPatternSpec(cs, data, size, 0, net[0], testPattern))
      && (transType != TRANS_TYPE_BIS && chanType != BLE_TRANS_CHANNEL_STEREO && chanType != BLE_TRANS_CHANNEL_RETURN_MONO ==>
            o == TxOut(-EPERM, cs, [], []))
      && (transType != TRANS_TYPE_BIS && chanType == BLE_TRANS_CHANNEL_RIGHT ==> o.ret == -EPERM)
  {
  }

  /**
   * Stereo: the first `size/2` bytes go to channel 0 and the next
   * `size/2` to channel 1 (an odd last byte is not sent), in that order;
   * channel 1 is tried only when channel 0 returned 0; when both channels
   * are connected and the call returns 0, both halves were sent.
   */
  lemma TxStereo(cs: seq<Chan>, transType: int, data: seq<byte>, size: nat, net: seq<Net>)
    requires |cs| == MAX_CHAN && |net| == MAX_CHAN && size <= |data|
    requires transType != TRANS_TYPE_BIS
    ensures var o := TxSpec(cs, transType, data, size, BLE_TRANS_CHANNEL_STEREO, net, false);
      var half := size / 2;
      var both := [Sent(0, Data(data[..half])), Sent(1, Data(data[half..2 * half]))];
      && (o.sent == [] || o.sent == both[..1] || o.sent == both[1..] || o.sent == both)
      && (o.sent == both[1..] ==> !cs[0].connected)
      && (o.ret == 0 && cs[0].connected && cs[1].connected ==> o.sent == both)
      && (o.ret == 0 && !cs[0].connected && cs[1].connected ==> o.sent == both[1..])
  {
    var half := size / 2;
    var a := DataOrPatternSpec(cs, data, half, 0, net[0], false);
    DataOrPatternOutcome(cs, data, half, 0, net[0], false);
    if a.ret == 0 {
      var b := DataOrPatternSpec(a.chans, data[half..], half, 1, net[1], false);
      DataOrPatternOutcome(a.chans, data[half..], half, 1, net[1], false);
      assert data[half..][..half] == data[half..2 * half];
      if cs[0].connected {
        assert a.sent == [Sent(0, Data(data[..half]))];
        assert (a.sent + b.sent)[0].chan == 0;
      }
    }
  }

  /** No transmission takes a channel's counter past its pool size. */
  lemma TxBounded(cs: seq<Chan>, transType: int, data: seq<byte>, size: nat, chanType: int,
                  net: seq<Net>, testPattern: bool)
    requires |cs| == MAX_CHAN && |net| == MAX_CHAN && size <= |data|
    requires AllocBounded(cs)
    ensures AllocBounded(TxSpec(cs, transType, data, size, chanType, net, testPattern).chans)
  {
    var half := size / 2;
    DataOrPatternOutcome(cs, data, size, 0, net[0], testPattern);
    DataOrPatternOutcome(cs, data, half, 0, net[0], testPattern);
    var a := DataOrPatternSpec(cs, data, half, 0, net[0], testPattern);
    DataOrPatternOutcome(a.chans, data[half..], half, 1, net[1], testPattern);
  }

  // ---------------------------------------------------------------------
  // Stack callbacks
  // ---------------------------------------------------------------------

  /** `num_iso_cis_connected`: how many channels are in the CONNECTED state. */
  function Connected(cs: seq<Chan>): (n: nat)
    ensures n <= |cs|
  {
    if cs == [] then 0
    else Connected(cs[..|cs| - 1]) + (if cs[|cs| - 1].connected then 1 else 0)
  }

  /** Changing one channel's state changes the count by that channel's contribution. */
  lemma {:induction false} ConnectedUpdate(cs: seq<Chan>, i: nat, c: Chan)
    requires i < |cs|
    ensures Connected(cs[i := c]) + (if cs[i].connected then 1 else 0)
         == Connected(cs) + (if c.connected then 1 else 0)
  {
    var last := |cs| - 1;
    if i < last {
      assert cs[i := c][..last] == cs[..last][i := c];
      ConnectedUpdate(cs[..last], i, c);
    } else {
      assert cs[i := c][..last] == cs[..last];
    }
  }

  /**
   * The channels, the link events put in the event queue, and whether
   * ERR_CHK_MSG halted the device on a refused event.
   */
  datatype CbOut = CbOut(chans: seq<Chan>, events: seq<int>, halted: bool)

  /**
   * `ble_event_send` of each of `evs` in turn, each followed by
   * ERR_CHK_MSG, when the event queue accepts `room` more events: the
   * first refused event halts the device, and the events before it are
   * in the queue.
   */
  function SendEvents(events: seq<int>, room: nat, evs: seq<int>): (o: (seq<int>, bool))
    ensures o.1 <==> room < |evs|
    ensures o.0 == events + evs[..if room < |evs| then room else |evs|]
    decreases |evs|
  {
    if evs == [] then (events, false)
    else if room == 0 then (events, true)
    else
      var r := SendEvents(events + [evs[0]], room - 1, evs[1..]);
      assert events + [evs[0]] + evs[1..][..if room - 1 < |evs| - 1 then room - 1 else |evs| - 1]
          == events + evs[..if room < |evs| then room else |evs|];
      r
  }

  /**
   * The channels and link events after `iso_connected_cb` on channel
   * `idx`, when the event queue accepts `room` more events.
   */
  function ConnectedSpec(cs: seq<Chan>, events: seq<int>, transType: int, idx: nat, room: nat): (o: CbOut)
    requires idx < |cs|
    ensures |o.chans| == |cs|
  {
    var cs' := cs[idx := cs[idx].(connected := true, alloc := 0)];
    if transType == TRANS_TYPE_CIS && Connected(cs') == 1 then
      var s := SendEvents(events, room, [BLE_EVT_CONNECTED, BLE_EVT_LINK_READY]);
      CbOut(cs', s.0, s.1)
    else CbOut(cs', events, false)
  }

  /**
   * A connection resets the channel's counter; over CIS the CONNECTED and
   * LINK_READY events are sent, in that order, exactly when this is the
   * first channel to connect; BIS sends no event.  A refused event halts
   * the device, with the events before it sent: CONNECTED alone when only
   * LINK_READY is refused.
   */
  lemma ConnectedOutcome(cs: seq<Chan>, events: seq<int>, transType: int, idx: nat, room: nat)
    requires idx < |cs| && !cs[idx].connected
    ensures var o := ConnectedSpec(cs, events, transType, idx, room);
      var first := transType == TRANS_TYPE_CIS && Connected(cs) == 0;
      && o.chans[idx].alloc == 0 && o.chans[idx].connected
      && (forall j :: 0 <= j < |cs| && j != idx ==> o.chans[j] == cs[j])
      && (o.events == events + [BLE_EVT_CONNECTED, BLE_EVT_LINK_READY] <==> first && room >= 2)
      && (o.events == events + [BLE_EVT_CONNECTED] <==> first && room == 1)
      && (o.events == events <==> !first || room == 0)
      && (o.halted <==> first && room < 2)
  {
    ConnectedUpdate(cs, idx, cs[idx].(connected := true, alloc := 0));
  }

  /**
   * The channels and link events after `iso_disconnected_cb` on channel
   * `idx`, when the event queue accepts `room` more events.
   */
  function DisconnectedSpec(cs: seq<Chan>, events: seq<int>, c: Cfg, headset: bool, idx: nat, reason: int, room: nat): (o: CbOut)
    requires idx < |cs|
    ensures |o.chans| == |cs|
  {
    var cs' := cs[idx := cs[idx].(connected := false)];
    var report :=
      if c.transType == TRANS_TYPE_BIS then reason != BT_HCI_ERR_LOCALHOST_TERM_CONN && c.dir == DIR_RX
      else c.transType == TRANS_TYPE_CIS && (headset || Connected(cs') == 0);
    if report then
      var s := SendEvents(events, room, [BLE_EVT_DISCONNECTED]);
      CbOut(cs', s.0, s.1)
    else CbOut(cs', events, false)
  }

  /**
   * A CIS gateway reports DISCONNECTED only when the last connected
   * channel goes down; a CIS headset on every disconnection; a BIS
   * receiver unless the local host ended the link, and a BIS sender never.
   * A report the event queue refuses halts the device instead.
   */
  lemma DisconnectedOutcome(cs: seq<Chan>, events: seq<int>, c: Cfg, headset: bool, idx: nat, reason: int, room: nat)
    requires idx < |cs| && cs[idx].connected
    ensures var o := DisconnectedSpec(cs, events, c, headset, idx, reason, room);
      var reported := o.events == events + [BLE_EVT_DISCONNECTED];
      var tried := reported || o.halted;
      && (o.events == events || reported)
      && (o.halted <==> tried && room == 0)
      && (reported <==> tried && room > 0)
      && (c.transType == TRANS_TYPE_CIS && !headset ==> (tried <==> Connected(cs) == 1))
      && (c.transType == TRANS_TYPE_CIS && headset ==> tried)
      && (c.transType == TRANS_TYPE_BIS ==> (tried <==> reason != BT_HCI_ERR_LOCALHOST_TERM_CONN && c.dir == DIR_RX))
      && (c.transType != TRANS_TYPE_BIS && c.transType != TRANS_TYPE_CIS ==> o.events == events && !o.halted)
      && !o.chans[idx].connected && o.chans[idx].alloc == cs[idx].alloc
  {
    ConnectedUpdate(cs, idx, cs[idx].(connected := false));
  }

  /** `iso_sent_cb`: one buffer of channel `idx` has been released. */
  function SentSpec(cs: seq<Chan>, idx: nat): (cs': seq<Chan>)
    requires idx < |cs|
    ensures |cs'| == |cs|
  {
    cs[idx := cs[idx].(alloc := cs[idx].alloc - 1)]
  }

  /**
   * The counter of a channel is the number of allocations since it
   * connected minus the releases: a release lowers it by one, a
   * connection resets it, and neither breaks the pool bound.
   */
  lemma CallbacksKeepBound(cs: seq<Chan>, events: seq<int>, transType: int, idx: nat, room: nat)
    requires idx < |cs| && AllocBounded(cs)
    ensures SentSpec(cs, idx)[idx].alloc == cs[idx].alloc - 1
    ensures AllocBounded(SentSpec(cs, idx))
    ensures AllocBounded(ConnectedSpec(cs, events, transType, idx, room).chans)
  {
  }

  // ---------------------------------------------------------------------
  // CIS connection retries
  // ---------------------------------------------------------------------

  /** `struct worker_data`. */
  datatype WorkItem = WorkItem(channel: u8, retries: u8)

  /**
   * The retry machinery: `kwork_msgq` (room for MAX_CHAN entries), the
   * delay of the pending `iso_cis_conn_work` if it is scheduled, the
   * channels whose connection was attempted, and the channels whose ACL
   * was disconnected after the last retry.
   */
  datatype Retry = Retry(queue: seq<WorkItem>, pending: Option<nat>, attempts: seq<nat>, dropped: seq<nat>)

  /** `k_msgq_put` with K_NO_WAIT: a full queue refuses with -ENOMSG. */
  function MsgqPut(q: seq<WorkItem>, item: WorkItem): (o: (int, seq<WorkItem>))
    ensures o.0 == 0 <==> |q| < MAX_CHAN
    ensures o.1 == if |q| < MAX_CHAN then q + [item] else q
  {
    if |q| >= MAX_CHAN then (-ENOMSG, q) else (0, q + [item])
  }

  /** `k_work_schedule` leaves a pending work item alone; `k_work_reschedule` replaces its delay. */
  function Schedule(p: Option<nat>, ms: nat): (p': Option<nat>)
    ensures p.Some? ==> p' == p
    ensures p.None? ==> p' == Some(ms)
  {
    if p.Some? then p else Some(ms)
  }

  /** How a call of a function that can halt ends: it returns, or ERR_CHK halts the device. */
  datatype Call = Returns(ret: int, rt: Retry) | Halts

  /** Some lookup of ACL index `a` to `b` - 1 fails. */
  predicate LookupFails(peers: seq<Option<int>>, a: nat, b: nat)
    requires a <= b <= |peers|
  {
    exists j :: a <= j < b && peers[j].None?
  }

  /**
   * The loop of `ble_trans_iso_cis_connect` from ACL index `i`: `peers[i]`
   * is the connection `ble_acl_gateway_conn_peer_get(i)` yields, or None
   * when that lookup fails and ERR_CHK_MSG halts the device.
   */
  function CisConnectFrom(rt: Retry, conn: int, peers: seq<Option<int>>, i: nat): (o: Call)
    requires |peers| == MAX_CONN && i <= MAX_CONN
    decreases MAX_CONN - i
  {
    if i == MAX_CONN then Returns(0, rt)
    else if peers[i].None? then Halts
    else if conn == peers[i].value then
      var put := MsgqPut(rt.queue, WorkItem(i, 0));
      if put.0 != 0 then Returns(put.0, rt)
      else CisConnectFrom(rt.(queue := put.1, pending := Schedule(rt.pending, CIS_CONN_DELAY_MS * i)), conn, peers, i + 1)
    else CisConnectFrom(rt, conn, peers, i + 1)
  }

  /**
   * With no matching ACL from `i` on, the rest of the loop does nothing:
   * it halts if a lookup fails and returns 0 otherwise.
   */
  lemma {:induction false} CisConnectNoMatch(rt: Retry, conn: int, peers: seq<Option<int>>, i: nat)
    requires |peers| == MAX_CONN && i <= MAX_CONN
    requires forall j :: i <= j < MAX_CONN ==> peers[j] != Some(conn)
    ensures CisConnectFrom(rt, conn, peers, i) == if LookupFails(peers, i, MAX_CONN) then Halts else Returns(0, rt)
    decreases MAX_CONN - i
  {
    if i < MAX_CONN {
      CisConnectNoMatch(rt, conn, peers, i + 1);
      if peers[i].Some? && LookupFails(peers, i, MAX_CONN) {
        var j :| i <= j < MAX_CONN && peers[j].None?;
        assert LookupFails(peers, i + 1, MAX_CONN);
      }
    }
  }

  /**
   * Connecting the ACL at index `i`: its channel is queued with no
   * retries and the work is scheduled after 500·i ms unless it is already
   * pending; a full queue refuses with -ENOMSG and changes nothing.  A
   * failed lookup halts the device wherever the loop reaches it.
   */
  lemma CisConnectQueues(rt: Retry, conn: int, peers: seq<Option<int>>, i: nat)
    requires |peers| == MAX_CONN && i < MAX_CONN && peers[i] == Some(conn)
    requires forall j :: 0 <= j < MAX_CONN && j != i ==> peers[j] != Some(conn)
    ensures CisConnectFrom(rt, conn, peers, 0) ==
      if LookupFails(peers, 0, i) then Halts
      else if |rt.queue| >= MAX_CHAN then Returns(-ENOMSG, rt)
      else if LookupFails(peers, i + 1, MAX_CONN) then Halts
      else Returns(0, rt.(queue := rt.queue + [WorkItem(i, 0)], pending := Schedule(rt.pending, CIS_CONN_DELAY_MS * i)))
  {
    var rt' := rt.(queue := rt.queue + [WorkItem(i, 0)], pending := Schedule(rt.pending, CIS_CONN_DELAY_MS * i));
    CisConnectNoMatch(rt, conn, peers, i + 1);
    if |rt.queue| < MAX_CHAN {
      CisConnectNoMatch(rt', conn, peers, i + 1);
    }
    if i == 1 {
      if peers[0].None? {
        assert LookupFails(peers, 0, i);
      } else {
        assert !LookupFails(peers, 0, i);
        assert CisConnectFrom(rt, conn, peers, 0) == CisConnectFrom(rt, conn, peers, 1);
      }
    } else {
      assert !LookupFails(peers, 0, i);
    }
  }

  /** An unknown connection queues nothing; the loop still halts on a failed lookup. */
  lemma CisConnectUnknown(rt: Retry, conn: int, peers: seq<Option<int>>)
    requires |peers| == MAX_CONN && forall j :: 0 <= j < MAX_CONN ==> peers[j] != Some(conn)
    ensures CisConnectFrom(rt, conn, peers, 0) == if LookupFails(peers, 0, MAX_CONN) then Halts else Returns(0, rt)
  {
    CisConnectNoMatch(rt, conn, peers, 0);
  }

  /**
   * `work_iso_cis_conn` given the results of `ble_acl_gateway_conn_peer_get`
   * and `bt_iso_chan_connect`.  None is the halt of ERR_CHK: the queue was
   * empty, the peer lookup failed, or the re-queue failed.
   */
  function WorkSpec(rt: Retry, peerRet: int, connectRet: int): (o: Option<Retry>)
  {
    if rt.queue == [] || peerRet != 0 then None
    else
      var item := rt.queue[0];
      var retries := U8(item.retries + 1);
      var rt1 := rt.(queue := rt.queue[1..], pending := None, attempts := rt.attempts + [item.channel as nat]);
      if connectRet == 0 then Some(rt1)
      else if retries < CIS_CONN_RETRY_TIMES then
        var put := MsgqPut(rt1.queue, WorkItem(item.channel, retries));
        if put.0 != 0 then None
        else Some(rt1.(queue := put.1, pending := Some(CIS_CONN_DELAY_MS)))
      else Some(rt1.(dropped := rt1.dropped + [item.channel as nat]))
  }

  /**
   * One queued attempt: a failed peer lookup halts; otherwise the head is
   * tried once and re-queued after a failure while retries are left.
   */
  lemma WorkOutcome(rt: Retry, peerRet: int, connectRet: int)
    requires rt.queue != [] && |rt.queue| <= MAX_CHAN && rt.queue[0].retries < CIS_CONN_RETRY_TIMES
    ensures WorkSpec(rt, peerRet, connectRet).Some? <==> peerRet == 0
    ensures peerRet == 0 ==>
      var o := WorkSpec(rt, peerRet, connectRet);
      var item := rt.queue[0];
      && o.Some?
      && o.value.attempts == rt.attempts + [item.channel as nat]
      && (connectRet == 0 ==> o.value.queue == rt.queue[1..] && o.value.pending.None? && o.value.dropped == rt.dropped)
      && (connectRet != 0 && item.retries + 1 < CIS_CONN_RETRY_TIMES ==>
            && o.value.queue == rt.queue[1..] + [WorkItem(item.channel, item.retries + 1)]
            && o.value.pending == Some(CIS_CONN_DELAY_MS) && o.value.dropped == rt.dropped)
      && (connectRet != 0 && item.retries + 1 == CIS_CONN_RETRY_TIMES ==>
            && o.value.queue == rt.queue[1..] && o.value.pending.None?
            && o.value.dropped == rt.dropped + [item.channel as nat])
  {
  }

  /** `n` runs of the work item, every connection attempt failing. */
  function FailRuns(rt: Retry, n: nat): Option<Retry>
  {
    if n == 0 then Some(rt)
    else match FailRuns(rt, n - 1)
      case None => None
      case Some(r) => WorkSpec(r, 0, -1)
  }

  /** `n` copies of a channel index. */
  function Repeat(c: nat, n: nat): (s: seq<nat>)
    ensures |s| == n && forall i :: 0 <= i < n ==> s[i] == c
  {
    if n == 0 then [] else Repeat(c, n - 1) + [c]
  }

  /** The first `n` failures leave the channel queued with `n` retries. */
  lemma {:induction false} FailRunsRequeue(c: u8, p: Option<nat>, a: seq<nat>, d: seq<nat>, n: nat)
    requires n < CIS_CONN_RETRY_TIMES
    ensures FailRuns(Retry([WorkItem(c, 0)], p, a, d), n) ==
      Some(Retry([WorkItem(c, n)], if n == 0 then p else Some(CIS_CONN_DELAY_MS), a + Repeat(c as nat, n), d))
  {
    if n > 0 {
      FailRunsRequeue(c, p, a, d, n - 1);
      var r := Retry([WorkItem(c, n - 1)], if n == 1 then p else Some(CIS_CONN_DELAY_MS), a + Repeat(c as nat, n - 1), d);
      assert FailRuns(Retry([WorkItem(c, 0)], p, a, d), n) == WorkSpec(r, 0, -1);
      var rest := r.queue[1..];
      assert rest == [];
      assert U8(r.queue[0].retries + 1) == n;
      assert MsgqPut(rest, WorkItem(c, n)).1 == [WorkItem(c, n)];
      assert a + Repeat(c as nat, n - 1) + [c as nat] == a + Repeat(c as nat, n);
    } else {
      assert a + Repeat(c as nat, 0) == a;
    }
  }

  /**
   * A channel whose connection keeps failing is attempted exactly
   * CIS_CONN_RETRY_TIMES times: the fifth failure disconnects its ACL and
   * leaves nothing queued or scheduled, so no further attempt follows.
   */
  lemma RetryGivesUp(c: u8, p: Option<nat>, a: seq<nat>, d: seq<nat>)
    ensures FailRuns(Retry([WorkItem(c, 0)], p, a, d), CIS_CONN_RETRY_TIMES as nat) ==
      Some(Retry([], None, a + Repeat(c as nat, CIS_CONN_RETRY_TIMES as nat), d + [c as nat]))
    ensures FailRuns(Retry([WorkItem(c, 0)], p, a, d), CIS_CONN_RETRY_TIMES as nat + 1).None?
  {
    FailRunsRequeue(c, p, a, d, 4);
    var r := Retry([WorkItem(c, 4)], Some(CIS_CONN_DELAY_MS), a + Repeat(c as nat, 4), d);
    assert FailRuns(Retry([WorkItem(c, 0)], p, a, d), 5) == WorkSpec(r, 0, -1);
    var rest := r.queue[1..];
    assert rest == [];
    assert U8(r.queue[0].retries + 1) == 5;
    assert a + Repeat(c as nat, 4) + [c as nat] == a + Repeat(c as nat, 5);
  }

  // ---------------------------------------------------------------------
  // The module as an object
  // ---------------------------------------------------------------------

  /** The static state of ble_trans.c, updated in place. */
  class Trans {
    const build: Build
    var cfg: Cfg
    var chans: seq<Chan>
    /** Every payload handed to `bt_iso_chan_send`, in order. */
    var sent: seq<Sent>
    /** The channels named by each "HCI ISO TX overrun" warning, in order. */
    var warned: seq<nat>
    /** The link events put in the control event queue, in order. */
    var events: seq<int>
    var retry: Retry

    ghost predicate Valid()
      reads this
    {
      |cfg.setup| == MAX_CHAN && |chans| == MAX_CHAN
    }

    constructor (build: Build)
      ensures Valid() && this.build == build
      ensures cfg == InitialCfg() && chans == seq(MAX_CHAN, _ => IDLE_CHAN)
      ensures sent == [] && warned == [] && events == [] && retry == Retry([], None, [], [])
    {
      this.build := build;
      cfg := InitialCfg();
      chans := seq(MAX_CHAN, _ => IDLE_CHAN);
      sent := [];
      warned := [];
      events := [];
      retry := Retry([], None, [], []);
    }

    /** `ble_trans_iso_init`. */
    method Init(transType: int, dir: int, rxCb: bool, r: InitResults) returns (ret: int)
      requires Valid()
      modifies this`cfg
      ensures Valid()
      ensures (ret, cfg) == InitSpec(old(cfg), build, transType, dir, rxCb, r)
    {
      if cfg.dir != DIR_NOT_SET {
        return -EINVAL;
      }
      cfg := cfg.(dir := dir);
      if cfg.transType != TRANS_TYPE_NOT_SET {
        return -EPERM;
      }
      cfg := cfg.(transType := transType);
      if transType == TRANS_TYPE_BIS {
        if dir == DIR_RX {
          cfg := cfg.(bisQos := ChanQos(true, false));
          if r.bisRxInit != 0 {
            return r.bisRxInit;
          }
        } else if dir == DIR_TX {
          cfg := cfg.(bisQos := ChanQos(false, true));
          if r.bisTxInit != 0 {
            return r.bisTxInit;
          }
        } else {
          return -EPERM;
        }
        cfg := cfg.(setup := cfg.setup[0 := ChanSetup(true, BisQos)]);
      } else if transType == TRANS_TYPE_CIS {
        cfg := cfg.(setup := seq(MAX_CHAN, _ => ChanSetup(true, CisQos)));
        if dir == DIR_RX {
          cfg := cfg.(rxQos := TX_QOS, cisQos := ChanQos(true, false));
        } else if dir == DIR_TX {
          cfg := cfg.(cisQos := ChanQos(false, true));
        } else if dir == DIR_BIDIR {
          cfg := cfg.(rxQos := TX_QOS, cisQos := ChanQos(true, true));
        } else {
          return -EPERM;
        }
      } else {
        return -EPERM;
      }
      ret := InitFinish(rxCb, r);
    }

    /** The code after the transport switch of `ble_trans_iso_init`. */
    method InitFinish(rxCb: bool, r: InitResults) returns (ret: int)
      modifies this`cfg
      ensures (ret, cfg) == InitTail(old(cfg), build, rxCb, r)
    {
      cfg := cfg.(rxCb := rxCb);
      if build.headset && build.transportCis {
        if r.serverRegister != 0 {
          return r.serverRegister;
        }
        cfg := cfg.(serverRegistered := true);
      }
      ret := 0;
    }

    /** `iso_tx` on channel `idx`. */
    method IsoTx(p: Payload, idx: nat, n: Net) returns (ret: int)
      requires Valid() && idx < MAX_CHAN
      modifies this`chans, this`sent, this`warned
      ensures Valid()
      ensures var o := IsoTxSpec(old(chans), idx, p, n);
        ret == o.ret && chans == o.chans && sent == old(sent) + o.sent && warned == old(warned) + o.warned
    {
      var ch := chans[idx];
      if ch.alloc >= HCI_ISO_BUF_ALLOC_PER_CHAN {
        if !ch.wrnPrinted {
          warned := warned + [idx];
        }
        chans := chans[idx := ch.(wrnPrinted := true)];
        return -ENOMEM;
      }
      ch := ch.(wrnPrinted := false);
      chans := chans[idx := ch];
      if !n.allocOk {
        return -ENOMEM;
      }
      chans := chans[idx := ch.(alloc := ch.alloc + 1)];
      if n.sendRet < 0 {
        return n.sendRet;
      }
      sent := sent + [Sent(idx, p)];
      ret := 0;
    }

    /** `iso_tx_pattern` on channel `idx`. */
    method TxPattern(size: nat, idx: nat, n: Net) returns (ret: int)
      requires Valid()
      modifies this`chans, this`sent, this`warned
      ensures Valid()
      ensures var o := TxPatternSpec(old(chans), size, idx, n);
        ret == o.ret && chans == o.chans && sent == old(sent) + o.sent && warned == old(warned) + o.warned
    {
      if idx >= MAX_CHAN {
        return -EIO;
      }
      var v := chans[idx].pattern;
      ret := IsoTx(Pattern(v, size), idx, n);
      if ret == 0 {
        chans := chans[idx := chans[idx].(pattern := NextPattern(v))];
      }
    }

    /** `iso_tx_data_or_pattern` on channel `idx`. */
    method DataOrPattern(data: seq<byte>, size: nat, idx: nat, n: Net) returns (ret: int)
      requires Valid() && idx < MAX_CHAN && size <= |data|
      modifies this`chans, this`sent, this`warned
      ensures Valid()
      ensures var o := DataOrPatternSpec(old(chans), data, size, idx, n, build.testPattern);
        ret == o.ret && chans == o.chans && sent == old(sent) + o.sent && warned == old(warned) + o.warned
    {
      if !chans[idx].connected {
        return 0;
      }
      if build.testPattern {
        ret := TxPattern(size, idx, n);
      } else {
        ret := IsoTx(Data(data[..size]), idx, n);
      }
    }

    /** `ble_trans_iso_tx`; `net[i]` is what the stack does for a send on channel i. */
    method Tx(data: seq<byte>, size: nat, chanType: int, net: seq<Net>) returns (ret: int)
      requires Valid() && |net| == MAX_CHAN && size <= |data|
      modifies this`chans, this`sent, this`warned
      ensures Valid()
      ensures var o := TxSpec(old(chans), cfg.transType, data, size, chanType, net, build.testPattern);
        ret == o.ret && chans == o.chans && sent == old(sent) + o.sent && warned == old(warned) + o.warned
    {
      if cfg.transType == TRANS_TYPE_BIS {
        ret := DataOrPattern(data, size, BLE_TRANS_CHANNEL_LEFT, net[0]);
        if ret != 0 {
          return ret;
        }
        return 0;
      }
      if chanType == BLE_TRANS_CHANNEL_STEREO {
        ret := TxStereoHalves(data, size, net);
      } else if chanType == BLE_TRANS_CHANNEL_RETURN_MONO {
        ret := DataOrPattern(data, size, BLE_TRANS_CHANNEL_RETURN_MONO, net[0]);
      } else {
        return -EPERM;
      }
    }

    /** The STEREO case of `ble_trans_iso_tx`: each half on its own channel. */
    method TxStereoHalves(data: seq<byte>, size: nat, net: seq<Net>) returns (ret: int)
      requires Valid() && |net| == MAX_CHAN && size <= |data| && cfg.transType != TRANS_TYPE_BIS
      modifies this`chans, this`sent, this`warned
      ensures Valid()
      ensures var o := TxSpec(old(chans), cfg.transType, data, size, BLE_TRANS_CHANNEL_STEREO, net, build.testPattern);
        ret == o.ret && chans == o.chans && sent == old(sent) + o.sent && warned == old(warned) + o.warned
    {
      var half := size / 2;
      ghost var sent0, warned0 := sent, warned;
      ret := DataOrPattern(data, half, BLE_TRANS_CHANNEL_LEFT, net[0]);
      if ret != 0 {
        return ret;
      }
      ghost var sent1, warned1 := sent, warned;
      ret := DataOrPattern(data[half..], half, BLE_TRANS_CHANNEL_RIGHT, net[1]);
      assert sent == sent0 + (sent1[|sent0|..] + sent[|sent1|..]);
      assert warned == warned0 + (warned1[|warned0|..] + warned[|warned1|..]);
    }

    /** `num_iso_cis_connected`. */
    method NumCisConnected() returns (n: nat)
      requires Valid()
      ensures n == Connected(chans)
    {
      n := 0;
      for i := 0 to MAX_CHAN
        invariant n == Connected(chans[..i])
      {
        assert chans[..i + 1][..i] == chans[..i];
        if chans[i].connected {
          n := n + 1;
        }
      }
      assert chans[..MAX_CHAN] == chans;
    }

    /** The stack marks channel `idx` CONNECTED and calls `iso_connected_cb`. */
    method ConnectedCb(idx: nat, room: nat) returns (halted: bool)
      requires Valid() && idx < MAX_CHAN
      modifies this`chans, this`events
      ensures Valid()
      ensures CbOut(chans, events, halted) == ConnectedSpec(old(chans), old(events), cfg.transType, idx, room)
    {
      chans := chans[idx := chans[idx].(connected := true)];
      chans := chans[idx := chans[idx].(alloc := 0)];
      assert chans == old(chans)[idx := old(chans)[idx].(connected := true, alloc := 0)];
      if cfg.transType == TRANS_TYPE_CIS {
        var n := NumCisConnected();
        if n == 1 {
          halted := SendEvent(room, BLE_EVT_CONNECTED);
          if halted {
            return;
          }
          halted := SendEvent(room - 1, BLE_EVT_LINK_READY);
          return;
        }
      }
      halted := false;
    }

    /**
     * `ble_event_send` followed by ERR_CHK_MSG, when the event queue
     * accepts `room` more events.
     */
    method SendEvent(room: nat, e: int) returns (halted: bool)
      modifies this`events
      ensures halted <==> room == 0
      ensures events == if room == 0 then old(events) else old(events) + [e]
    {
      if room == 0 {
        return true;
      }
      events := events + [e];
      return false;
    }

    /** The stack marks channel `idx` disconnected and calls `iso_disconnected_cb`. */
    method DisconnectedCb(idx: nat, reason: int, room: nat) returns (halted: bool)
      requires Valid() && idx < MAX_CHAN
      modifies this`chans, this`events
      ensures Valid()
      ensures CbOut(chans, events, halted) == DisconnectedSpec(old(chans), old(events), cfg, build.headset, idx, reason, room)
    {
      chans := chans[idx := chans[idx].(connected := false)];
      halted := false;
      if cfg.transType == TRANS_TYPE_BIS {
        if reason != BT_HCI_ERR_LOCALHOST_TERM_CONN && cfg.dir == DIR_RX {
          halted := SendEvent(room, BLE_EVT_DISCONNECTED);
        }
      } else if cfg.transType == TRANS_TYPE_CIS {
        if build.headset {
          halted := SendEvent(room, BLE_EVT_DISCONNECTED);
        } else {
          var n := NumCisConnected();
          if n == 0 {
            halted := SendEvent(room, BLE_EVT_DISCONNECTED);
          }
        }
      }
    }

    /** `iso_sent_cb` on channel `idx`. */
    method SentCb(idx: nat)
      requires Valid() && idx < MAX_CHAN
      modifies this`chans
      ensures Valid()
      ensures chans == SentSpec(old(chans), idx)
    {
      chans := chans[idx := chans[idx].(alloc := chans[idx].alloc - 1)];
    }

    /**
     * `ble_trans_iso_cis_connect`; `peers[i]` is the connection at ACL
     * index i, or None when its lookup fails; `halted` is the ERR_CHK_MSG halt.
     */
    method CisConnect(conn: int, peers: seq<Option<int>>) returns (halted: bool, ret: int)
      requires |peers| == MAX_CONN
      modifies this`retry
      ensures var o := CisConnectFrom(old(retry), conn, peers, 0);
        (halted <==> o.Halts?) && (!halted ==> ret == o.ret && retry == o.rt)
    {
      halted := false;
      for i := 0 to MAX_CONN
        invariant CisConnectFrom(retry, conn, peers, i) == CisConnectFrom(old(retry), conn, peers, 0)
      {
        if peers[i].None? {
          return true, 0;
        }
        if conn == peers[i].value {
          var put := MsgqPut(retry.queue, WorkItem(i, 0));
          if put.0 != 0 {
            return false, put.0;
          }
          retry := retry.(queue := put.1);
          retry := retry.(pending := Schedule(retry.pending, CIS_CONN_DELAY_MS * i));
        }
      }
      ret := 0;
    }

    /**
     * `work_iso_cis_conn`, given the results of `ble_acl_gateway_conn_peer_get`
     * and `bt_iso_chan_connect`; `halted` is the ERR_CHK halt.
     */
    method WorkCisConn(peerRet: int, connectRet: int) returns (halted: bool)
      modifies this`retry
      ensures halted <==> WorkSpec(old(retry), peerRet, connectRet).None?
      ensures !halted ==> retry == WorkSpec(old(retry), peerRet, connectRet).value
    {
      if retry.queue == [] {
        return true;
      }
      var item := retry.queue[0];
      retry := retry.(queue := retry.queue[1..], pending := None);
      if peerRet != 0 {
        return true;
      }
      retry := retry.(attempts := retry.attempts + [item.channel as nat]);
      var retries := U8(item.retries + 1);
      halted := false;
      if connectRet != 0 {
        if retries < CIS_CONN_RETRY_TIMES {
          var put := MsgqPut(retry.queue, WorkItem(item.channel, retries));
          if put.0 != 0 {
            return true;
          }
          retry := retry.(queue := put.1, pending := Some(CIS_CONN_DELAY_MS));
        } else {
          retry := retry.(dropped := retry.dropped + [item.channel as nat]);
        }
      }
    }
  }
}
