/**
 * The application's front-end to the on-board CS47L63 (hw_codec.c):
 * register configuration tables written pair by pair, the output volume
 * and mute controls on OUT1L, the default configuration, the soft reset
 * and the bring-up order.
 *
 * The tables of cs47l63_reg_conf.h are not part of this model: they are
 * parameters (`RegConf`).  The build options that add the I2S input and
 * the PDM microphone tables are the `Build` flags.  Board selection and
 * `cs47l63_comm_init` are results handed in by the caller.
 */
module HwCodec {
  import opened CInt
  import opened Wrappers
  import opened Errno
  import opened Macros
  import opened Cs47l63Bus
  import opened Cs47l63
  import opened Cs47l63Driver

  /** One decibel of adjustment per step of 1/2 dB register units times this. */
  const VOLUME_ADJUST_STEP_DB: int := 3

  /** The volume field value for 0 dB; larger values are clamped to it. */
  const MAX_VOLUME_REG_VAL: int := 0x80

  /** The volume remembered before any adjustment. */
  const OUT_VOLUME_DEFAULT: u8 := 0x62

  /** A table entry with this register asks for a busy wait instead of a write. */
  const SPI_BUSY_WAIT: word := 0xFFFF_FFFF

  /** One `{reg, value}` row of a configuration table. */
  datatype ConfPair = ConfPair(reg: word, value: word)

  /** The configuration tables hw_codec.c writes. */
  datatype RegConf = RegConf(
    clockConfiguration: seq<ConfPair>,
    gpioConfiguration: seq<ConfPair>,
    asp1Enable: seq<ConfPair>,
    outputEnable: seq<ConfPair>,
    inputEnable: seq<ConfPair>,
    pdmMicEnableConfigure: seq<ConfPair>,
    fllToggle: seq<ConfPair>,
    outputDisable: seq<ConfPair>,
    softReset: seq<ConfPair>)

  /**
   * The build options: a gateway taking its audio from I2S writes the input
   * table, a bidirectional headset the PDM microphone table.
   */
  datatype Build = Build(gatewayI2s: bool, headsetBidirectional: bool)

  /**
   * What the functions of hw_codec.c change: the codec's control port, the
   * busy waits made (in microseconds, in order) and `prev_volume_reg_val`.
   */
  datatype Dev = Dev(hw: Hw, waits: seq<word>, prev: u8)

  /** A return code together with the state it leaves. */
  datatype Out = Out(ret: int, dev: Dev)

  // ---------------------------------------------------------------------
  // cs47l63_comm_reg_conf_write

  /** Write a table in order: busy-wait entries wait, the first failed write ends it with its status. */
  function ConfWriteSpec(d: Dev, spi: bool, conf: seq<ConfPair>): (r: Out)
    decreases |conf|
  {
    if conf == [] then Out(0, d)
    else if conf[0].reg == SPI_BUSY_WAIT then
      ConfWriteSpec(d.(waits := d.waits + [conf[0].value]), spi, conf[1..])
    else
      var w := WriteRegSpec(d.hw, spi, conf[0].reg, conf[0].value);
      if !w.0 then Out(STATUS_FAIL, d.(hw := w.1))
      else ConfWriteSpec(d.(hw := w.1), spi, conf[1..])
  }

  /** The register writes of a table: every row except the busy waits. */
  function ConfWrites(conf: seq<ConfPair>): (r: seq<RegWrite>)
    ensures |r| <= |conf|
  {
    if conf == [] then []
    else if conf[0].reg == SPI_BUSY_WAIT then ConfWrites(conf[1..])
    else [RegWrite(conf[0].reg, conf[0].value, 0)] + ConfWrites(conf[1..])
  }

  /** The busy waits of a table, in order. */
  function BusyWaits(conf: seq<ConfPair>): (r: seq<word>)
    ensures |r| + |ConfWrites(conf)| == |conf|
  {
    if conf == [] then []
    else if conf[0].reg == SPI_BUSY_WAIT then [conf[0].value] + BusyWaits(conf[1..])
    else BusyWaits(conf[1..])
  }

  /**
   * Writing a table is the driver's ordered register sequence over its
   * non-wait rows (stopping at the first failure), with the waits made in
   * order when it completes.  The code is 0 or CS47L63_STATUS_FAIL, and the
   * remembered volume is untouched.
   */
  lemma {:induction false} ConfWriteIsSequence(d: Dev, spi: bool, conf: seq<ConfPair>)
    ensures var r := ConfWriteSpec(d, spi, conf);
      var a := WriteAll(d.hw, spi, ConfWrites(conf));
      (r.ret == 0 <==> a.0) && r.dev.hw == a.1 && r.dev.prev == d.prev
      && (r.ret == 0 || r.ret == STATUS_FAIL)
      && (r.ret == 0 ==> r.dev.waits == d.waits + BusyWaits(conf))
    decreases |conf|
  {
    if conf != [] {
      if conf[0].reg == SPI_BUSY_WAIT {
        ConfWriteIsSequence(d.(waits := d.waits + [conf[0].value]), spi, conf[1..]);
        ConcatAssoc(d.waits, [conf[0].value], BusyWaits(conf[1..]));
      } else {
        var w := WriteRegSpec(d.hw, spi, conf[0].reg, conf[0].value);
        var ws := ConfWrites(conf);
        assert ws[0] == RegWrite(conf[0].reg, conf[0].value, 0) && ws[1..] == ConfWrites(conf[1..]);
        if w.0 {
          ConfWriteIsSequence(d.(hw := w.1), spi, conf[1..]);
        }
      }
    }
  }

  /** A table of busy waits only makes no bus transaction and always succeeds. */
  lemma {:induction false} ConfWriteWaitsOnly(d: Dev, spi: bool, conf: seq<ConfPair>)
    requires forall i | 0 <= i < |conf| :: conf[i].reg == SPI_BUSY_WAIT
    ensures ConfWriteSpec(d, spi, conf) == Out(0, d.(waits := d.waits + BusyWaits(conf)))
    decreases |conf|
  {
    if conf != [] {
      ConfWriteWaitsOnly(d.(waits := d.waits + [conf[0].value]), spi, conf[1..]);
      ConcatAssoc(d.waits, [conf[0].value], BusyWaits(conf[1..]));
    }
  }

  // ---------------------------------------------------------------------
  // The volume word arithmetic

  /** `hw_codec_volume_set`: the value written to OUT1L_VOLUME_1. */
  function VolumeSetWord(setVal: u16): word
  {
    WithVu(if setVal >= MAX_VOLUME_REG_VAL then MAX_VOLUME_REG_VAL else setVal)
  }

  /** A 16-bit volume value with the volume-update bit set. */
  function WithVu(v: u16): word
  {
    v as word | OUT_VU
  }

  /**
   * The word written by `volume_set` carries the requested volume clamped
   * to MAX in its volume field, has VU set, and never has MUTE set.
   */
  lemma VolumeSetWordFields(setVal: u16)
    ensures VolumeSetWord(setVal) & OUT1L_VOL_MASK == Min(setVal, MAX_VOLUME_REG_VAL) as word
    ensures VolumeSetWord(setVal) & OUT_VU == OUT_VU
    ensures VolumeSetWord(setVal) & OUT1L_MUTE == 0
    ensures VolumeSetWord(setVal) & !(OUT_VU | OUT1L_VOL_MASK) == 0
  {
    var v := (if setVal >= MAX_VOLUME_REG_VAL then MAX_VOLUME_REG_VAL else setVal) as word;
    assert v <= 0x80;
    assert VolumeSetWord(setVal) == v | OUT_VU;
  }

  /** The volume word written by `volume_adjust`: the field with VU set and MUTE cleared. */
  function VolumeWord(v: u16): word
  {
    ((v as word) | OUT_VU) & !OUT1L_MUTE
  }

  /** A volume up to 0xFF lands in the volume field, with VU set and MUTE clear. */
  lemma VolumeWordFields(v: u16)
    requires v <= 0xFF
    ensures VolumeWord(v) & OUT1L_VOL_MASK == v as word
    ensures VolumeWord(v) & OUT_VU == OUT_VU
    ensures VolumeWord(v) & OUT1L_MUTE == 0
  {
    var x := v as word;
    assert x <= 0xFF;
  }

  /** The volume field of a register value read into a `uint16_t` (its low half). */
  function VolumeField(val: word): (r: int)
    ensures 0 <= r <= 0xFF
  {
    ((val & 0xFFFF) & OUT1L_VOL_MASK) as int
  }

  /**
   * The new volume of `volume_adjust(adj)`: the step doubles in an
   * `int8_t`, the addition wraps in a `uint16_t`, and only the upper clamp
   * can fire.
   */
  function AdjustedVolume(val: word, adj: int): u16
  {
    var a := I8(adj * 2);
    var v := U16(VolumeField(val) + a);
    if v > MAX_VOLUME_REG_VAL then MAX_VOLUME_REG_VAL else v
  }

  /**
   * The adjusted volume is the field moved by the (8-bit) doubled step
   * when that stays within [0, MAX], and MAX otherwise: a step below 0
   * wraps around and ends at MAX, not at 0.
   */
  lemma AdjustedVolumeValue(val: word, adj: int)
    ensures var s := VolumeField(val) + I8(adj * 2);
      AdjustedVolume(val, adj) == if 0 <= s <= MAX_VOLUME_REG_VAL then s else MAX_VOLUME_REG_VAL
    ensures AdjustedVolume(val, adj) <= MAX_VOLUME_REG_VAL
  {
    var s := VolumeField(val) + I8(adj * 2);
    assert -0x80 <= s < 0x180;
    if s < 0 {
      assert U16(s) == s + U16_LIMIT;
    }
  }

  /** For a step within the `int8_t` range after doubling, the adjusted volume moves by twice the step. */
  lemma AdjustedVolumeStep(val: word, adj: int)
    requires -0x40 <= adj < 0x40
    ensures var s := VolumeField(val) + 2 * adj;
      AdjustedVolume(val, adj) == if 0 <= s <= MAX_VOLUME_REG_VAL then s else MAX_VOLUME_REG_VAL
  {
    AdjustedVolumeValue(val, adj);
  }

  /** A decrease from a field below one step (6 half-dB units) jumps to MAX. */
  lemma DecreasePastZeroIsMax(val: word)
    requires VolumeField(val) < 2 * VOLUME_ADJUST_STEP_DB
    ensures AdjustedVolume(val, -VOLUME_ADJUST_STEP_DB) == MAX_VOLUME_REG_VAL
  {
    AdjustedVolumeStep(val, -VOLUME_ADJUST_STEP_DB);
  }

  /** `volume_mute` / `volume_unmute`: the low half of the register with MUTE set or cleared, then VU. */
  function MuteWord(val: word, mute: bool): word
  {
    var v := val & 0xFFFF;
    (if mute then BitSet(v, OUT1L_MUTE_MASK) else BitClear(v, OUT1L_MUTE_MASK)) | OUT_VU
  }

  /**
   * Mute and unmute change only the MUTE bit of the register's low half
   * and set VU; every other bit of the low half is kept.
   */
  lemma MuteWordBits(val: word, mute: bool)
    ensures MuteWord(val, mute) & OUT1L_MUTE_MASK == if mute then OUT1L_MUTE_MASK else 0
    ensures MuteWord(val, mute) & OUT_VU == OUT_VU
    ensures MuteWord(val, mute) & !(OUT1L_MUTE_MASK | OUT_VU) == val & 0xFFFF & !(OUT1L_MUTE_MASK | OUT_VU)
  {
  }

  // ---------------------------------------------------------------------
  // The volume operations

  /** A driver status as the code hw_codec.c passes on. */
  function WriteRet(ok: bool): (r: int)
    ensures r == 0 <==> ok
  {
    if ok then 0 else STATUS_FAIL
  }

  /** `hw_codec_volume_set`: one write, whatever the value. */
  function VolumeSetSpec(d: Dev, spi: bool, setVal: u16): Out
  {
    var w := WriteRegSpec(d.hw, spi, OUT1L_VOLUME_1, VolumeSetWord(setVal));
    Out(WriteRet(w.0), d.(hw := w.1))
  }

  /** `hw_codec_volume_adjust`. */
  function AdjustSpec(d: Dev, spi: bool, adj: int): Out
  {
    if adj == 0 then
      var w := WriteRegSpec(d.hw, spi, OUT1L_VOLUME_1, VolumeWord(d.prev));
      Out(WriteRet(w.0), d.(hw := w.1))
    else StepSpec(d, spi, adj)
  }

  /** `hw_codec_volume_adjust` with a non-zero step: read, adjust, write, remember. */
  function StepSpec(d: Dev, spi: bool, adj: int): Out
  {
    var rd := ReadRegSpec(d.hw, spi, OUT1L_VOLUME_1);
    if rd.0.None? then Out(STATUS_FAIL, d.(hw := rd.1))
    else
      var v := AdjustedVolume(rd.0.value, adj);
      var w := WriteRegSpec(rd.1, spi, OUT1L_VOLUME_1, VolumeWord(v));
      if !w.0 then Out(STATUS_FAIL, d.(hw := w.1))
      else Out(0, d.(hw := w.1, prev := U8(v)))
  }

  /** `hw_codec_volume_mute` (`mute`) and `hw_codec_volume_unmute`: read, change MUTE, write. */
  function MuteSpec(d: Dev, spi: bool, mute: bool): Out
  {
    var rd := ReadRegSpec(d.hw, spi, OUT1L_VOLUME_1);
    if rd.0.None? then Out(STATUS_FAIL, d.(hw := rd.1))
    else
      var w := WriteRegSpec(rd.1, spi, OUT1L_VOLUME_1, MuteWord(rd.0.value, mute));
      Out(WriteRet(w.0), d.(hw := w.1))
  }

  /**
   * `volume_set` makes exactly one write transaction on the bus: the
   * clamped volume with VU.  It succeeds off the bus too.
   */
  lemma VolumeSetOutcome(d: Dev, spi: bool, setVal: u16)
    ensures var r := VolumeSetSpec(d, spi, setVal);
      r.dev.waits == d.waits && r.dev.prev == d.prev
      && (r.ret == 0 || r.ret == STATUS_FAIL)
      && (spi ==> r.dev.hw.trace == d.hw.trace + [SpiWrite(BytesBE(OUT1L_VOLUME_1), BytesBE(VolumeSetWord(setVal)))])
      && (!spi ==> r == Out(0, d))
  {
  }

  /**
   * `volume_adjust(0)` rewrites the remembered volume without reading the
   * register: one write transaction on the bus, and nothing remembered
   * changes.
   */
  lemma AdjustZeroRewrites(d: Dev, spi: bool)
    ensures var r := AdjustSpec(d, spi, 0);
      r.dev.prev == d.prev && r.dev.waits == d.waits
      && (r.ret == 0 || r.ret == STATUS_FAIL)
      && (spi ==> r.dev.hw.trace == d.hw.trace + [SpiWrite(BytesBE(OUT1L_VOLUME_1), BytesBE(VolumeWord(d.prev as u16)))])
  {
  }

  /**
   * `volume_adjust(adj)` with a non-zero step reads the register, then
   * (if the read succeeded) writes the adjusted volume with VU and without
   * MUTE.  The remembered volume changes only when that write succeeds,
   * and then to the adjusted value, which is at most MAX.  Off the bus the
   * read fails and nothing happens.
   */
  lemma AdjustOutcome(d: Dev, spi: bool, adj: int)
    requires adj != 0
    ensures var r := AdjustSpec(d, spi, adj);
      var rd := ReadRegSpec(d.hw, spi, OUT1L_VOLUME_1);
      r.dev.waits == d.waits
      && (r.ret == 0 || r.ret == STATUS_FAIL)
      && (r.ret != 0 ==> r.dev.prev == d.prev)
      && (r.ret == 0 ==> rd.0.Some? && r.dev.prev as int == AdjustedVolume(rd.0.value, adj) <= MAX_VOLUME_REG_VAL)
      && (r.ret == 0 ==> r.dev.hw.trace == d.hw.trace + [SpiRead(ReadHeader(OUT1L_VOLUME_1), 4),
                                                          SpiWrite(BytesBE(OUT1L_VOLUME_1), BytesBE(VolumeWord(r.dev.prev as u16)))])
      && (!spi ==> r == Out(STATUS_FAIL, d))
  {
    var rd := ReadRegSpec(d.hw, spi, OUT1L_VOLUME_1);
    if rd.0.Some? {
      AdjustedVolumeValue(rd.0.value, adj);
    }
  }

  /**
   * Mute and unmute read the register and write it back with only MUTE
   * changed and VU set; a failed read writes nothing.
   */
  lemma MuteOutcome(d: Dev, spi: bool, mute: bool)
    ensures var r := MuteSpec(d, spi, mute);
      var rd := ReadRegSpec(d.hw, spi, OUT1L_VOLUME_1);
      r.dev.waits == d.waits && r.dev.prev == d.prev
      && (r.ret == 0 || r.ret == STATUS_FAIL)
      && (rd.0.None? ==> r == Out(STATUS_FAIL, d.(hw := rd.1)))
      && (rd.0.Some? && spi ==> r.dev.hw.trace == rd.1.trace + [SpiWrite(BytesBE(OUT1L_VOLUME_1), BytesBE(MuteWord(rd.0.value, mute)))])
  {
  }

  // ---------------------------------------------------------------------
  // Configuration stages

  /** One step of a configuration: a table, or the rewrite of the remembered volume. */
  datatype Stage = Table(conf: seq<ConfPair>) | RestoreVolume

  /** `hw_codec_default_conf_enable`: the steps in order, with the build-dependent ones. */
  function Stages(c: RegConf, b: Build): (r: seq<Stage>)
  {
    [Table(c.clockConfiguration), Table(c.gpioConfiguration), Table(c.asp1Enable),
     Table(c.outputEnable), RestoreVolume]
    + (if b.gatewayI2s then [Table(c.inputEnable)] else [])
    + (if b.headsetBidirectional then [Table(c.pdmMicEnableConfigure)] else [])
    + [Table(c.fllToggle)]
  }

  /** `hw_codec_soft_reset`: the output is disabled before the reset table. */
  function ResetStages(c: RegConf): seq<Stage>
  {
    [Table(c.outputDisable), Table(c.softReset)]
  }

  function StageSpec(d: Dev, spi: bool, st: Stage): Out
  {
    match st
    case Table(conf) => ConfWriteSpec(d, spi, conf)
    case RestoreVolume => AdjustSpec(d, spi, 0)
  }

  /** Run the steps in order; the first non-zero code is returned and the rest are skipped. */
  function RunStages(d: Dev, spi: bool, sts: seq<Stage>): Out
    decreases |sts|
  {
    if sts == [] then Out(0, d)
    else
      var o := StageSpec(d, spi, sts[0]);
      if o.ret != 0 then o else RunStages(o.dev, spi, sts[1..])
  }

  /** Running two lists of steps is running the first and, if it succeeded, the second. */
  lemma {:induction false} RunStagesAppend(d: Dev, spi: bool, a: seq<Stage>, b: seq<Stage>)
    ensures RunStages(d, spi, a + b) ==
      var x := RunStages(d, spi, a); if x.ret != 0 then x else RunStages(x.dev, spi, b)
    decreases |a|
  {
    if a == [] {
      assert a + b == b;
    } else {
      assert (a + b)[0] == a[0] && (a + b)[1..] == a[1..] + b;
      var o := StageSpec(d, spi, a[0]);
      if o.ret == 0 {
        RunStagesAppend(o.dev, spi, a[1..], b);
      }
    }
  }

  /** Every step returns 0 or CS47L63_STATUS_FAIL, and so does a run of steps. */
  lemma StageRet(d: Dev, spi: bool, st: Stage)
    ensures var o := StageSpec(d, spi, st); o.ret == 0 || o.ret == STATUS_FAIL
  {
    match st
    case Table(conf) => ConfWriteIsSequence(d, spi, conf);
    case RestoreVolume => AdjustZeroRewrites(d, spi);
  }

  lemma {:induction false} RunStagesRet(d: Dev, spi: bool, sts: seq<Stage>)
    ensures var o := RunStages(d, spi, sts); o.ret == 0 || o.ret == STATUS_FAIL
    decreases |sts|
  {
    if sts != [] {
      StageRet(d, spi, sts[0]);
      var o := StageSpec(d, spi, sts[0]);
      if o.ret == 0 {
        RunStagesRet(o.dev, spi, sts[1..]);
      }
    }
  }

  /**
   * A run of steps succeeds iff each step succeeds from the state the
   * previous ones left; a failure is the failed step's own result.
   */
  lemma {:induction false} RunStagesFirstFailure(d: Dev, spi: bool, sts: seq<Stage>, k: nat)
    requires k < |sts|
    requires RunStages(d, spi, sts[..k]).ret == 0
    requires StageSpec(RunStages(d, spi, sts[..k]).dev, spi, sts[k]).ret != 0
    ensures RunStages(d, spi, sts) == StageSpec(RunStages(d, spi, sts[..k]).dev, spi, sts[k])
  {
    assert sts == sts[..k] + sts[k..];
    RunStagesAppend(d, spi, sts[..k], sts[k..]);
    var x := RunStages(d, spi, sts[..k]);
    assert sts[k..][0] == sts[k];
  }

  /**
   * The default configuration starts with the clock, GPIO, ASP1 and output
   * tables and the volume rewrite, in that order, and ends with the FLL
   * toggle; the input table is there iff the build is an I2S gateway, the
   * PDM microphone table iff it is a bidirectional headset.
   */
  lemma StagesOrder(c: RegConf, b: Build)
    ensures var s := Stages(c, b);
      |s| == 6 + (if b.gatewayI2s then 1 else 0) + (if b.headsetBidirectional then 1 else 0)
      && s[..5] == [Table(c.clockConfiguration), Table(c.gpioConfiguration), Table(c.asp1Enable),
                    Table(c.outputEnable), RestoreVolume]
      && s[|s| - 1] == Table(c.fllToggle)
      && (b.gatewayI2s ==> s[5] == Table(c.inputEnable))
      && (b.headsetBidirectional ==> s[|s| - 2] == Table(c.pdmMicEnableConfigure))
  {
  }

  /** `hw_codec_default_conf_enable`. */
  function DefaultConfSpec(d: Dev, spi: bool, c: RegConf, b: Build): Out
  {
    RunStages(d, spi, Stages(c, b))
  }

  /** `hw_codec_soft_reset`. */
  function SoftResetSpec(d: Dev, spi: bool, c: RegConf): Out
  {
    RunStages(d, spi, ResetStages(c))
  }

  /** A soft reset writes the reset table only after the output-disable table succeeded. */
  lemma SoftResetOrder(d: Dev, spi: bool, c: RegConf)
    ensures var dis := ConfWriteSpec(d, spi, c.outputDisable);
      SoftResetSpec(d, spi, c) == if dis.ret != 0 then dis else ConfWriteSpec(dis.dev, spi, c.softReset)
    ensures var r := SoftResetSpec(d, spi, c); r.ret == 0 || r.ret == STATUS_FAIL
  {
    var dis := ConfWriteSpec(d, spi, c.outputDisable);
    var sts := ResetStages(c);
    assert sts[1..] == [Table(c.softReset)] && sts[1..][1..] == [];
    ConfWriteIsSequence(d, spi, c.outputDisable);
    if dis.ret == 0 {
      var rst := ConfWriteSpec(dis.dev, spi, c.softReset);
      ConfWriteIsSequence(dis.dev, spi, c.softReset);
      assert RunStages(d, spi, sts) == RunStages(dis.dev, spi, sts[1..]);
      if rst.ret == 0 {
        assert RunStages(dis.dev, spi, sts[1..]) == RunStages(rst.dev, spi, []) == Out(0, rst.dev);
      }
    }
  }

  // ---------------------------------------------------------------------
  // Bring-up

  /** `hw_codec_on_board_set`: `-ENXIO` without the GPIO device, else the pin configuration's result. */
  function OnBoardSet(gpioPresent: bool, pinStatus: int): (r: int)
    ensures !gpioPresent ==> r == -ENXIO
    ensures gpioPresent ==> r == pinStatus
  {
    if !gpioPresent then -ENXIO else pinStatus
  }

  /**
   * `hw_codec_init`: board select, `comm_init` (its result handed in) and
   * the soft-reset table; the second component says whether the driver
   * was put in STANDBY.
   */
  function InitSpec(d: Dev, spi: bool, c: RegConf, gpioPresent: bool, pinStatus: int, commStatus: int): (Out, bool)
  {
    var sel := OnBoardSet(gpioPresent, pinStatus);
    if sel != 0 then (Out(sel, d), false)
    else if commStatus != 0 then (Out(commStatus, d), false)
    else
      var r := ConfWriteSpec(d, spi, c.softReset);
      if r.ret != 0 then (r, false) else (Out(0, r.dev), true)
  }

  /**
   * Init reaches STANDBY exactly when it returns 0, which is exactly when
   * the board select, the comm init and the soft-reset table all succeed.
   * A board-select or comm-init failure is returned unchanged before any
   * register is touched.
   */
  lemma InitOutcome(d: Dev, spi: bool, c: RegConf, gpioPresent: bool, pinStatus: int, commStatus: int)
    ensures var r := InitSpec(d, spi, c, gpioPresent, pinStatus, commStatus);
      (r.1 <==> r.0.ret == 0)
      && (r.1 <==> gpioPresent && pinStatus == 0 && commStatus == 0 && ConfWriteSpec(d, spi, c.softReset).ret == 0)
      && (!gpioPresent ==> r.0 == Out(-ENXIO, d))
      && (gpioPresent && pinStatus != 0 ==> r.0 == Out(pinStatus, d))
      && (gpioPresent && pinStatus == 0 && commStatus != 0 ==> r.0 == Out(commStatus, d))
  {
  }

  // ---------------------------------------------------------------------
  // The module state

  /** hw_codec.c's static state: the driver instance, the remembered volume and the tables. */
  class Codec {
    const driver: Driver
    const conf: RegConf
    const build: Build
    var waits: seq<word>
    var prevVolume: u8

    function State(): Dev
      reads this, driver.bus
    {
      Dev(driver.bus.hw, waits, prevVolume)
    }

    constructor (drv: Driver, c: RegConf, b: Build)
      ensures driver == drv && conf == c && build == b
      ensures waits == [] && prevVolume == OUT_VOLUME_DEFAULT
    {
      driver, conf, build := drv, c, b;
      waits, prevVolume := [], OUT_VOLUME_DEFAULT;
    }

    /** `cs47l63_comm_reg_conf_write`. */
    method ConfWrite(table: seq<ConfPair>) returns (ret: int)
      modifies driver.bus, this`waits
      ensures Out(ret, State()) == ConfWriteSpec(old(State()), IsSpi(driver.config), table)
    {
      var i := 0;
      while i < |table|
        invariant 0 <= i <= |table|
        invariant ConfWriteSpec(State(), IsSpi(driver.config), table[i..])
          == ConfWriteSpec(old(State()), IsSpi(driver.config), table)
        invariant prevVolume == old(prevVolume)
        decreases |table| - i
      {
        var reg, value := table[i].reg, table[i].value;
        if reg == SPI_BUSY_WAIT {
          waits := waits + [value];
        } else {
          var st := driver.WriteReg(reg, value);
          if st != STATUS_OK {
            return st;
          }
        }
        assert table[i..][1..] == table[i + 1..];
        i := i + 1;
      }
      return 0;
    }

    /** `hw_codec_volume_set`. */
    method VolumeSet(setVal: u16) returns (ret: int)
      modifies driver.bus
      ensures Out(ret, State()) == VolumeSetSpec(old(State()), IsSpi(driver.config), setVal)
    {
      var v := setVal;
      if v >= MAX_VOLUME_REG_VAL {
        v := MAX_VOLUME_REG_VAL;
      }
      ret := driver.WriteReg(OUT1L_VOLUME_1, WithVu(v));
      if ret != 0 {
        return ret;
      }
      return 0;
    }

    /** `hw_codec_volume_adjust`. */
    method VolumeAdjust(adjustment: int) returns (ret: int)
      requires -0x80 <= adjustment < 0x80
      modifies driver.bus, this`prevVolume
      ensures Out(ret, State()) == AdjustSpec(old(State()), IsSpi(driver.config), adjustment)
    {
      if adjustment == 0 {
        ret := driver.WriteReg(OUT1L_VOLUME_1, VolumeWord(prevVolume as u16));
        if ret != 0 {
          return ret;
        }
        return 0;
      }
      ret := VolumeStep(adjustment);
    }

    /** The non-zero branch of `hw_codec_volume_adjust`. */
    method VolumeStep(adjustment: int) returns (ret: int)
      requires -0x80 <= adjustment < 0x80
      modifies driver.bus, this`prevVolume
      ensures Out(ret, State()) == StepSpec(old(State()), IsSpi(driver.config), adjustment)
    {
      ghost var rd := ReadRegSpec(driver.bus.hw, IsSpi(driver.config), OUT1L_VOLUME_1);
      var st, val := driver.ReadReg(OUT1L_VOLUME_1, 0);
      if st != 0 {
        return st;
      }
      assert rd.0 == Some(val) && driver.bus.hw == rd.1;
      var v := AdjustedVolume(val, adjustment);
      ret := driver.WriteReg(OUT1L_VOLUME_1, VolumeWord(v));
      if ret != 0 {
        return ret;
      }
      prevVolume := U8(v);
      return 0;
    }

    /** `hw_codec_volume_decrease`: one step of VOLUME_ADJUST_STEP_DB down. */
    method VolumeDecrease() returns (ret: int)
      modifies driver.bus, this`prevVolume
      ensures Out(ret, State()) == AdjustSpec(old(State()), IsSpi(driver.config), -VOLUME_ADJUST_STEP_DB)
    {
      ret := VolumeAdjust(-VOLUME_ADJUST_STEP_DB);
      if ret != 0 {
        return ret;
      }
      return 0;
    }

    /** `hw_codec_volume_increase`: one step of VOLUME_ADJUST_STEP_DB up. */
    method VolumeIncrease() returns (ret: int)
      modifies driver.bus, this`prevVolume
      ensures Out(ret, State()) == AdjustSpec(old(State()), IsSpi(driver.config), VOLUME_ADJUST_STEP_DB)
    {
      ret := VolumeAdjust(VOLUME_ADJUST_STEP_DB);
      if ret != 0 {
        return ret;
      }
      return 0;
    }

    /** `hw_codec_volume_mute` (`mute`) and `hw_codec_volume_unmute`. */
    method VolumeMuteSet(mute: bool) returns (ret: int)
      modifies driver.bus
      ensures Out(ret, State()) == MuteSpec(old(State()), IsSpi(driver.config), mute)
    {
      var st, val := driver.ReadReg(OUT1L_VOLUME_1, 0);
      if st != 0 {
        return st;
      }
      ret := driver.WriteReg(OUT1L_VOLUME_1, MuteWord(val, mute));
      if ret != 0 {
        return ret;
      }
      return 0;
    }

    method VolumeMute() returns (ret: int)
      modifies driver.bus
      ensures Out(ret, State()) == MuteSpec(old(State()), IsSpi(driver.config), true)
    {
      ret := VolumeMuteSet(true);
    }

    method VolumeUnmute() returns (ret: int)
      modifies driver.bus
      ensures Out(ret, State()) == MuteSpec(old(State()), IsSpi(driver.config), false)
    {
      ret := VolumeMuteSet(false);
    }

    /**
     * One step of a configuration, `rest` being the steps still to run:
     * on failure the run's result is this step's, otherwise the run
     * continues with the remaining steps.
     */
    method Step(ghost rest: seq<Stage>, st: Stage) returns (ret: int)
      requires rest != [] && rest[0] == st
      modifies driver.bus, this`waits, this`prevVolume
      ensures ret != 0 ==> RunStages(old(State()), IsSpi(driver.config), rest) == Out(ret, State())
      ensures ret == 0 ==>
        RunStages(old(State()), IsSpi(driver.config), rest) == RunStages(State(), IsSpi(driver.config), rest[1..])
    {
      match st
      case Table(t) =>
        ret := ConfWrite(t);
      case RestoreVolume =>
        ret := VolumeAdjust(0);
    }

    /** The clock, GPIO and ASP1 tables: the first three steps of the default configuration. */
    method InterfaceConf(ghost sts: seq<Stage>) returns (ret: int)
      requires |sts| >= 3
      requires sts[..3] == [Table(conf.clockConfiguration), Table(conf.gpioConfiguration), Table(conf.asp1Enable)]
      modifies driver.bus, this`waits, this`prevVolume
      ensures ret != 0 ==> RunStages(old(State()), IsSpi(driver.config), sts) == Out(ret, State())
      ensures ret == 0 ==>
        RunStages(old(State()), IsSpi(driver.config), sts) == RunStages(State(), IsSpi(driver.config), sts[3..])
    {
      assert sts[0] == Table(conf.clockConfiguration);
      ret := Step(sts, Table(conf.clockConfiguration));
      if ret != 0 { return ret; }
      assert sts[1..][0] == Table(conf.gpioConfiguration);
      ret := Step(sts[1..], Table(conf.gpioConfiguration));
      if ret != 0 { return ret; }
      assert sts[1..][1..] == sts[2..] && sts[2..][0] == Table(conf.asp1Enable);
      ret := Step(sts[2..], Table(conf.asp1Enable));
      if ret != 0 { return ret; }
      assert sts[2..][1..] == sts[3..];
    }

    /** The first five steps of the default configuration. */
    method BaseConf(ghost sts: seq<Stage>) returns (ret: int)
      requires |sts| >= 5
      requires sts[..5] == [Table(conf.clockConfiguration), Table(conf.gpioConfiguration),
                            Table(conf.asp1Enable), Table(conf.outputEnable), RestoreVolume]
      modifies driver.bus, this`waits, this`prevVolume
      ensures ret != 0 ==> RunStages(old(State()), IsSpi(driver.config), sts) == Out(ret, State())
      ensures ret == 0 ==>
        RunStages(old(State()), IsSpi(driver.config), sts) == RunStages(State(), IsSpi(driver.config), sts[5..])
    {
      assert sts[..3] == [Table(conf.clockConfiguration), Table(conf.gpioConfiguration), Table(conf.asp1Enable)];
      ret := InterfaceConf(sts);
      if ret != 0 { return ret; }
      assert sts[3..][0] == Table(conf.outputEnable);
      ret := Step(sts[3..], Table(conf.outputEnable));
      if ret != 0 { return ret; }
      assert sts[3..][1..] == sts[4..] && sts[4..][0] == RestoreVolume;
      ret := Step(sts[4..], RestoreVolume);
      if ret != 0 { return ret; }
      assert sts[4..][1..] == sts[5..];
    }

    /** `hw_codec_default_conf_enable`. */
    method DefaultConfEnable() returns (ret: int)
      modifies driver.bus, this`waits, this`prevVolume
      ensures Out(ret, State()) == DefaultConfSpec(old(State()), IsSpi(driver.config), conf, build)
    {
      ghost var sts := Stages(conf, build);
      StagesOrder(conf, build);
      ret := BaseConf(sts);
      if ret != 0 { return ret; }
      ghost var rest := sts[5..];
      if build.gatewayI2s {
        assert rest[0] == Table(conf.inputEnable);
        ret := Step(rest, Table(conf.inputEnable));
        if ret != 0 { return ret; }
        rest := rest[1..];
      }
      if build.headsetBidirectional {
        assert rest[0] == Table(conf.pdmMicEnableConfigure);
        ret := Step(rest, Table(conf.pdmMicEnableConfigure));
        if ret != 0 { return ret; }
        rest := rest[1..];
      }
      assert rest == [Table(conf.fllToggle)];
      ret := Step(rest, Table(conf.fllToggle));
      if ret != 0 { return ret; }
      return 0;
    }

    /** `hw_codec_soft_reset`. */
    method SoftReset() returns (ret: int)
      modifies driver.bus, this`waits
      ensures Out(ret, State()) == SoftResetSpec(old(State()), IsSpi(driver.config), conf)
    {
      SoftResetOrder(State(), IsSpi(driver.config), conf);
      ret := ConfWrite(conf.outputDisable);
      if ret != 0 { return ret; }
      ret := ConfWrite(conf.softReset);
      if ret != 0 { return ret; }
      return 0;
    }

    /**
     * `hw_codec_init`, with the GPIO device's presence, the pin
     * configuration's result and `cs47l63_comm_init`'s result handed in.
     */
    method Init(gpioPresent: bool, pinStatus: int, commStatus: int) returns (ret: int)
      modifies driver.bus, this`waits, driver`state
      ensures var r := InitSpec(old(State()), IsSpi(driver.config), conf, gpioPresent, pinStatus, commStatus);
        Out(ret, State()) == r.0 && driver.state == (if r.1 then Standby else old(driver.state))
    {
      if !gpioPresent {
        return -ENXIO;
      }
      if pinStatus != 0 {
        return pinStatus;
      }
      if commStatus != 0 {
        return commStatus;
      }
      ret := ConfWrite(conf.softReset);
      if ret != 0 {
        return ret;
      }
      driver.state := Standby;
      return 0;
    }
  }
}
