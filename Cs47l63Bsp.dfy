/**
 * The board support of the CS47L63 on the nRF5340 Audio DK
 * (hw_0_bsp_cs47l63.c): bring-up, reset and interrupt processing of the
 * static driver instance with status mapping, the FLL start and stop
 * sequences with their lock poll, the firmware image hand-over in
 * 1024-byte chunks, and the use-case switch.
 *
 * The register addresses and field values come from cs47l63_spec.h,
 * which is not part of this model: they are named constants with
 * placeholder values, and no proof depends on them beyond their being
 * device addresses.
 */
module Cs47l63Bsp {
  import opened CInt
  import opened Wrappers
  import opened Cs47l63Bus
  import opened Cs47l63
  import opened Cs47l63Driver
  import opened Macros

  // ---------------------------------------------------------------------
  // Registers and fields used by the BSP (placeholder values)
  // ---------------------------------------------------------------------

  const IRQ1_STS_6: word := 0x1_8094
  const FLL1_LOCK_STS1_MASK: word := 0x1
  const FLL1_LOCK_STS1: word := 0x1

  const FLL1_CONTROL1: word := 0x1C00
  const FLL1_CONTROL2: word := 0x1C04
  const FLL1_CONTROL3: word := 0x1C08
  const FLL1_CONTROL4: word := 0x1C0C
  const RCO_CTRL1: word := 0x1E00

  const FLL1_EN_MASK: word := 0x1
  const FLL1_EN: word := 0x1
  const FLL1_HOLD_MASK: word := 0x4
  const FLL1_HOLD: word := 0x4
  const FLL1_CTRL_UPD_MASK: word := 0x2
  const FLL1_CTRL_UPD: word := 0x2
  const FLL1_LOCKDET_MASK: word := 0x0800_0000
  const FLL1_LOCKDET: word := 0x0800_0000
  const FLL1_LOCKDET_SHIFT: word := 28
  const FLL1_LOCKDET_THR_MASK: word := 0xF000_0000
  const FLL1_PHASEDET_SHIFT: word := 22
  const FLL1_PHASEDET_MASK: word := 0x0040_0000
  const FLL1_REFCLK_DIV_SHIFT: word := 16
  const FLL1_REFCLK_DIV_MASK: word := 0x0003_0000
  const FLL1_REFCLK_SRC_SHIFT: word := 12
  const FLL1_REFCLK_SRC_MASK: word := 0x0000_F000
  const FLL1_N_SHIFT: word := 0
  const FLL1_N_MASK: word := 0x0000_03FF
  const FLL1_LAMBDA_SHIFT: word := 16
  const FLL1_LAMBDA_MASK: word := 0xFFFF_0000
  const FLL1_THETA_SHIFT: word := 0
  const FLL1_THETA_MASK: word := 0x0000_FFFF
  const FLL1_FD_GAIN_COARSE_SHIFT: word := 16
  const FLL1_FD_GAIN_COARSE_MASK: word := 0xFFFF_0000
  const FLL1_HP_SHIFT: word := 14
  const FLL1_HP_MASK: word := 0x0000_C000
  const FLL1_FB_DIV_SHIFT: word := 0
  const FLL1_FB_DIV_MASK: word := 0x0000_03FF
  const RCO_EN_MASK: word := 0x1

  /** `wait_fll` reads the status at most this often. */
  const FLL_WAIT_COUNT: nat := 20

  // ---------------------------------------------------------------------
  // The FLL sequences
  // ---------------------------------------------------------------------

  /** One `cs47l63_update_reg(driver, addr, mask, val)` call. */
  datatype RegUpdate = RegUpdate(addr: word, mask: word, val: word)

  /** Apply the updates in order, stopping at the first that fails. */
  function UpdateAll(hw: Hw, spi: bool, us: seq<RegUpdate>): (bool, Hw)
    decreases |us|
  {
    if us == [] then (true, hw)
    else
      var u := UpdateRegSpec(hw, spi, us[0].addr, us[0].mask, us[0].val);
      if !u.0 then (false, u.1) else UpdateAll(u.1, spi, us[1..])
  }

  /** Updating `a + b` is updating `a` and then, if every update of `a` succeeded, `b`. */
  lemma {:induction false} UpdateAllAppend(hw: Hw, spi: bool, a: seq<RegUpdate>, b: seq<RegUpdate>)
    ensures var x := UpdateAll(hw, spi, a);
      UpdateAll(hw, spi, a + b) == if !x.0 then x else UpdateAll(x.1, spi, b)
    decreases |a|
  {
    if a == [] {
      assert a + b == b;
    } else {
      assert (a + b)[0] == a[0] && (a + b)[1..] == a[1..] + b;
      var u := UpdateRegSpec(hw, spi, a[0].addr, a[0].mask, a[0].val);
      if u.0 {
        UpdateAllAppend(u.1, spi, a[1..], b);
      }
    }
  }

  /** Off the SPI bus a non-empty update sequence fails on its first read, having changed nothing. */
  lemma UpdateAllOffSpi(hw: Hw, us: seq<RegUpdate>)
    requires us != []
    ensures UpdateAll(hw, false, us) == (false, hw)
  {
  }

  /** The masks and values `enable_fll` computes for FLL1_CONTROL2..4. */
  const FLL1_CONTROL2_MASK: word := FLL1_LOCKDET_THR_MASK | FLL1_PHASEDET_MASK | FLL1_REFCLK_DIV_MASK | FLL1_N_MASK
  const FLL1_CONTROL2_VAL: word :=
    (8 << FLL1_LOCKDET_SHIFT) | (1 << FLL1_PHASEDET_SHIFT) | (0 << FLL1_REFCLK_DIV_SHIFT) | (4 << FLL1_N_SHIFT)
  const FLL1_CONTROL3_MASK: word := FLL1_LAMBDA_MASK | FLL1_THETA_MASK
  const FLL1_CONTROL3_VAL: word := (1 << FLL1_LAMBDA_SHIFT) | (0 << FLL1_THETA_SHIFT)
  const FLL1_CONTROL4_MASK: word := FLL1_FD_GAIN_COARSE_MASK | FLL1_HP_MASK | FLL1_FB_DIV_MASK
  const FLL1_CONTROL4_VAL: word :=
    (0x21F0 << FLL1_FD_GAIN_COARSE_SHIFT) | (1 << FLL1_HP_SHIFT) | (1 << FLL1_FB_DIV_SHIFT)

  /** The nine updates of `enable_fll`, in order: configure, select the internal oscillator, enable, release. */
  const ENABLE_FLL: seq<RegUpdate> := [
    RegUpdate(FLL1_CONTROL2, FLL1_CONTROL2_MASK, FLL1_CONTROL2_VAL),
    RegUpdate(FLL1_CONTROL3, FLL1_CONTROL3_MASK, FLL1_CONTROL3_VAL),
    RegUpdate(FLL1_CONTROL4, FLL1_CONTROL4_MASK, FLL1_CONTROL4_VAL),
    RegUpdate(FLL1_CONTROL2, FLL1_REFCLK_SRC_MASK, 2 << FLL1_REFCLK_SRC_SHIFT),
    RegUpdate(RCO_CTRL1, RCO_EN_MASK, RCO_EN_MASK),
    RegUpdate(FLL1_CONTROL1, FLL1_EN_MASK, FLL1_EN),
    RegUpdate(FLL1_CONTROL2, FLL1_LOCKDET_MASK, FLL1_LOCKDET),
    RegUpdate(FLL1_CONTROL1, FLL1_CTRL_UPD_MASK, FLL1_CTRL_UPD),
    RegUpdate(FLL1_CONTROL1, FLL1_HOLD_MASK, 0)
  ]

  /**
   * The five updates of `disable_fll`, in order.  The second one uses
   * `CS47L63_FLL1_EN` as its mask, as the source does.
   */
  const DISABLE_FLL: seq<RegUpdate> := [
    RegUpdate(FLL1_CONTROL1, FLL1_HOLD_MASK, FLL1_HOLD),
    RegUpdate(FLL1_CONTROL1, FLL1_EN, 0),
    RegUpdate(FLL1_CONTROL2, FLL1_LOCKDET_MASK, FLL1_LOCKDET),
    RegUpdate(FLL1_CONTROL1, FLL1_EN_MASK, 0),
    RegUpdate(RCO_CTRL1, RCO_EN_MASK, 0)
  ]

  /** The lock status field of `val` equals `waitValue`. */
  predicate LockIs(val: word, waitValue: word)
  {
    val & FLL1_LOCK_STS1_MASK == waitValue
  }

  /**
   * `wait_fll` with `n` reads left: success at the first read whose lock
   * field equals `waitValue`, failure at once on a failed read, and
   * failure when no read is left.
   */
  function WaitFllSpec(hw: Hw, spi: bool, waitValue: word, n: nat): (bool, Hw)
    decreases n
  {
    if n == 0 then (false, hw)
    else
      var rd := ReadRegSpec(hw, spi, IRQ1_STS_6);
      if rd.0.None? then (false, rd.1)
      else if LockIs(rd.0.value, waitValue) then (true, rd.1)
      else WaitFllSpec(rd.1, spi, waitValue, n - 1)
  }

  /** `k` reads of the FLL status register. */
  function StatusReads(k: nat): (r: seq<Txn>)
    ensures |r| == k
  {
    seq(k, _ => SpiRead(ReadHeader(IRQ1_STS_6), 4))
  }

  /**
   * The poll makes between one and `n` transactions, all of them reads of
   * the status register, and changes no register.
   */
  lemma {:induction false} WaitFllReads(hw: Hw, waitValue: word, n: nat)
    requires n > 0
    ensures var r := WaitFllSpec(hw, true, waitValue, n);
      var k := |r.1.trace| - |hw.trace|;
      1 <= k <= n && r.1.trace == hw.trace + StatusReads(k) && r.1.regs == hw.regs
    decreases n
  {
    var rd := ReadRegSpec(hw, true, IRQ1_STS_6);
    var f := SpiRead(ReadHeader(IRQ1_STS_6), 4);
    assert StatusReads(1) == [f];
    if rd.0.Some? && !LockIs(rd.0.value, waitValue) && n > 1 {
      WaitFllReads(rd.1, waitValue, n - 1);
      var r := WaitFllSpec(rd.1, true, waitValue, n - 1);
      var k := |r.1.trace| - |rd.1.trace|;
      assert StatusReads(k + 1) == [f] + StatusReads(k);
      ConcatAssoc(hw.trace, [f], StatusReads(k));
    }
  }

  /**
   * On a healthy bus whose status register holds a steady value, the poll
   * succeeds iff that value's lock field is `waitValue`; otherwise it
   * fails after all `n` reads.
   */
  lemma {:induction false} WaitFllSteady(hw: Hw, waitValue: word, n: nat)
    requires n > 0 && IRQ1_STS_6 !in hw.readFail && !Scripted(hw, IRQ1_STS_6)
    ensures var r := WaitFllSpec(hw, true, waitValue, n);
      (r.0 <==> LockIs(Reg(hw, IRQ1_STS_6), waitValue))
      && (!r.0 ==> |r.1.trace| == |hw.trace| + n)
    decreases n
  {
    ReadRegValue(hw, IRQ1_STS_6);
    var rd := ReadRegSpec(hw, true, IRQ1_STS_6);
    if !LockIs(Reg(hw, IRQ1_STS_6), waitValue) && n > 1 {
      assert Reg(rd.1, IRQ1_STS_6) == Reg(hw, IRQ1_STS_6) && Script(rd.1, IRQ1_STS_6) == [];
      WaitFllSteady(rd.1, waitValue, n - 1);
    }
  }

  /** Off the SPI bus the first status read fails. */
  lemma WaitFllOffSpi(hw: Hw, waitValue: word, n: nat)
    requires n > 0
    ensures WaitFllSpec(hw, false, waitValue, n) == (false, hw)
  {
  }

  /** `enable_fll`: the updates, then the wait for the lock bit to be set. */
  function EnableFllSpec(hw: Hw, spi: bool): (bool, Hw)
  {
    var u := UpdateAll(hw, spi, ENABLE_FLL);
    if !u.0 then u else WaitFllSpec(u.1, spi, FLL1_LOCK_STS1, FLL_WAIT_COUNT)
  }

  /** `disable_fll`: the updates, then the wait for the lock bit to be clear. */
  function DisableFllSpec(hw: Hw, spi: bool): (bool, Hw)
  {
    var u := UpdateAll(hw, spi, DISABLE_FLL);
    if !u.0 then u else WaitFllSpec(u.1, spi, 0, FLL_WAIT_COUNT)
  }

  /**
   * Starting the FLL succeeds only if every update succeeded and the
   * status was then seen locked; stopping it only if every update
   * succeeded and the status was then seen unlocked.
   */
  lemma FllOutcome(hw: Hw, spi: bool)
    ensures var u := UpdateAll(hw, spi, ENABLE_FLL);
      EnableFllSpec(hw, spi).0 <==> u.0 && WaitFllSpec(u.1, spi, FLL1_LOCK_STS1, FLL_WAIT_COUNT).0
    ensures var u := UpdateAll(hw, spi, DISABLE_FLL);
      DisableFllSpec(hw, spi).0 <==> u.0 && WaitFllSpec(u.1, spi, 0, FLL_WAIT_COUNT).0
  {
  }

  /** Off the SPI bus both FLL sequences fail at their first update with nothing sent. */
  lemma FllOffSpi(hw: Hw)
    ensures EnableFllSpec(hw, false) == (false, hw)
    ensures DisableFllSpec(hw, false) == (false, hw)
  {
    UpdateAllOffSpi(hw, ENABLE_FLL);
    UpdateAllOffSpi(hw, DISABLE_FLL);
  }

  // ---------------------------------------------------------------------
  // Bring-up, reset and processing
  // ---------------------------------------------------------------------

  /** The BSP's view of a driver status: OK stays OK, anything else is BSP_STATUS_FAIL. */
  function BspStatus(s: int): (r: int)
    ensures r == BSP_STATUS_OK <==> s == STATUS_OK
    ensures r == BSP_STATUS_OK || r == BSP_STATUS_FAIL
  {
    if s == STATUS_OK then BSP_STATUS_OK else BSP_STATUS_FAIL
  }

  /** The system configuration the board applies after every reset (cs47l63_syscfg_regs.c). */
  const SYSCFG_REGS: seq<SyscfgReg> := [
    SyscfgReg(0x1400, 0xFFFF_FFFF, 0x41),
    SyscfgReg(0x1C04, 0xFFFF_FFFF, 0x2860_1177),
    SyscfgReg(0x1C08, 0xFFFF_FFFF, 0x1_0000),
    SyscfgReg(0x1C0C, 0xFFFF_FFFF, 0x23F0_5004),
    SyscfgReg(0x1C00, 0xFFFF_FFFF, 0x6),
    SyscfgReg(0x1404, 0xFFFF_FFFF, 0x404),
    SyscfgReg(0x1420, 0xFFFF_FFFF, 0x3),
    SyscfgReg(0x1510, 0xFFFF_FFFF, 0x2580_0004),
    SyscfgReg(0xC08, 0xFFFF_FFFF, 0xE100_0000),
    SyscfgReg(0xC0C, 0xFFFF_FFFF, 0xE100_0000),
    SyscfgReg(0xC10, 0xFFFF_FFFF, 0xE100_0000),
    SyscfgReg(0xC14, 0xFFFF_FFFF, 0xE100_0000),
    SyscfgReg(0x6004, 0xFFFF_FFFF, 0x33),
    SyscfgReg(0x6008, 0xFFFF_FFFF, 0x2020_0200),
    SyscfgReg(0x6000, 0xFFFF_FFFF, 0x3_0003)
  ]

  /**
   * Every entry of the board's system configuration covers the whole
   * register, so applying it sets the register to the entry's value
   * whatever the register held.
   */
  lemma SyscfgOverwrites(orig: word)
    ensures forall r | r in SYSCFG_REGS :: Merge(orig, r.mask, r.value) == r.value
  {
    forall r | r in SYSCFG_REGS
      ensures Merge(orig, r.mask, r.value) == r.value
    {
      assert r.mask == 0xFFFF_FFFF;
      MergeFullMask(orig, r.value);
    }
  }

  /** An update under the all-ones mask writes the value as given. */
  lemma MergeFullMask(orig: word, v: word)
    ensures Merge(orig, 0xFFFF_FFFF, v) == v
  {
  }

  /** The configuration `bsp_dut_initialize` hands to `cs47l63_configure`. */
  const BSP_CONFIG: Config := Config(BUS_TYPE_SPI, SYSCFG_REGS, true)

  /**
   * The words `bsp_dut_initialize` sends to the LN2 board controller over
   * I2C: 32 kHz clock routing, FPGA bypass, MICVDD at 1.8 V, MICBIAS2
   * routing.
   */
  const LN2_SETUP: seq<word> := [0x001F_8003, 0x00EE_0000, 0x011B_001D, 0x0119_8000, 0x00E4_0010, 0x00E5_0100, 0x00E3_8000]

  /** The I2C frames of `words`: each byte-swapped into memory, which sends it most significant byte first. */
  function I2cFrames(words: seq<word>): (r: seq<seq<byte>>)
    ensures |r| == |words|
  {
    seq(|words|, i requires 0 <= i < |words| => BytesBE(words[i]))
  }

  /** Each I2C frame is four bytes the controller reads back as the intended word. */
  lemma I2cFramesDecode(words: seq<word>)
    ensures forall i | 0 <= i < |words| :: |I2cFrames(words)[i]| == 4 && WordBE(I2cFrames(words)[i]) == words[i]
  {
    forall i | 0 <= i < |words|
      ensures WordBE(I2cFrames(words)[i]) == words[i]
    {
      WordBytesRoundTrip(words[i]);
    }
  }

  // ---------------------------------------------------------------------
  // The firmware image hand-over
  // ---------------------------------------------------------------------

  /** `bsp_dut_boot` offers the image in pieces of at most this many bytes. */
  const WRITE_SIZE: u32 := 1024

  /**
   * What one `fw_img_process` call reports: a block ready for the device,
   * a failure, a request for more image data, or any other status (for
   * instance OK at the end of the image).
   */
  datatype Processed =
    | DataReady(blockAddr: word, blockData: seq<byte>, blockSize: u32)
    | ProcessFail
    | NoData
    | OtherStatus

  /**
   * The firmware image and the behaviour of the fw_img library on it: the
   * image length, whether the header parses, whether each of the three
   * allocations succeeds, the successive results of `fw_img_process`, and
   * the symbol table and algorithm list it fills in.
   */
  datatype Image = Image(
    size: u32, headerOk: bool, symAllocOk: bool, algAllocOk: bool, blockAllocOk: bool,
    steps: seq<Processed>, info: FwInfo)

  /** The part of the image offered to `fw_img_process` (`fw_img_blocks` and its size). */
  datatype Chunk = Chunk(offset: nat, size: u32)

  /** A ready block never exceeds the block buffer it was copied into. */
  predicate BlocksFit(steps: seq<Processed>)
  {
    forall i | 0 <= i < |steps| :: steps[i].DataReady? ==> steps[i].blockSize <= |steps[i].blockData|
  }

  predicate NoOtherStatus(steps: seq<Processed>)
  {
    forall i | 0 <= i < |steps| :: !steps[i].OtherStatus?
  }

  /**
   * How the hand-over loop ended: the image was consumed, a step failed,
   * or the library's script ran out while image data was left (an outcome
   * of the model only: the program would keep calling the library).
   */
  datatype FeedEnd = Consumed | FeedFailed | Stalled

  datatype Feed = Feed(end: FeedEnd, hw: Hw, handed: seq<Chunk>, used: nat)

  /** The next size offered after moving to `pos`: clipped to what is left, compared as `uint32_t`. */
  function NextWriteSize(size: u32, pos: nat, ws: u32): u32
  {
    if U32(size - pos) < ws then U32(size - pos) else ws
  }

  /** What one pass of the loop leaves: the loop stops, or goes on from a new offset and write size. */
  datatype Next =
    | Stop(end: FeedEnd, hw: Hw)
    | Go(hw: Hw, pos: nat, ws: u32, handed: seq<Chunk>)

  /**
   * One pass of the loop on the library's result `s`: a ready block is
   * written (a failed write stops the loop) and the same data stays
   * offered; a failure stops the loop; any other result moves past the
   * piece, and NO_DATA also offers the next one.
   */
  function FeedStep(hw: Hw, size: u32, pos: nat, ws: u32, s: Processed, handed: seq<Chunk>): Next
    requires s.DataReady? ==> s.blockSize <= |s.blockData|
  {
    match s
    case DataReady(a, d, n) =>
      var w := WriteBlockSpec(hw, a, Some(d), n);
      if !w.0 then Stop(FeedFailed, w.1) else Go(w.1, pos, ws, handed)
    case ProcessFail => Stop(FeedFailed, hw)
    case NoData =>
      var p := pos + ws;
      Go(hw, p, NextWriteSize(size, p, ws), handed + [Chunk(p, NextWriteSize(size, p, ws))])
    case OtherStatus => Go(hw, pos + ws, ws, handed)
  }

  lemma BlocksFitTail(steps: seq<Processed>)
    requires steps != [] && BlocksFit(steps)
    ensures BlocksFit(steps[1..]) && (steps[0].DataReady? ==> steps[0].blockSize <= |steps[0].blockData|)
  {
    assert forall i | 0 <= i < |steps[1..]| :: steps[1..][i] == steps[i + 1];
  }

  /**
   * The `while (fw_img < fw_img_end)` loop from offset `pos` with the
   * current write size `ws`; `handed` collects every piece offered, and
   * `used` counts the library calls made.
   */
  function FeedSpec(hw: Hw, size: u32, pos: nat, ws: u32, steps: seq<Processed>, handed: seq<Chunk>): (r: Feed)
    requires BlocksFit(steps)
    ensures r.used <= |steps|
    decreases |steps|
  {
    if pos >= size then Feed(Consumed, hw, handed, 0)
    else if steps == [] then Feed(Stalled, hw, handed, 0)
    else
      BlocksFitTail(steps);
      var n := FeedStep(hw, size, pos, ws, steps[0], handed);
      var r := if n.Stop? then Feed(n.end, n.hw, handed, 0) else FeedSpec(n.hw, size, n.pos, n.ws, steps[1..], n.handed);
      r.(used := r.used + 1)
  }

  /** The SPI transaction `cs47l63_write_block` makes for a step, if any. */
  function StepTxns(s: Processed): seq<Txn>
  {
    if s.DataReady? && BlockArgsOk(true, s.blockSize) && s.blockSize <= |s.blockData| then
      [SpiWrite(BytesBE(s.blockAddr), s.blockData[..s.blockSize])]
    else []
  }

  /** The block writes of a run of library results, in order. */
  function BlockTxns(steps: seq<Processed>): seq<Txn>
    decreases |steps|
  {
    if steps == [] then [] else StepTxns(steps[0]) + BlockTxns(steps[1..])
  }

  /** One pass adds its block write, if any, to the trace, and keeps the failure oracle and status scripts. */
  lemma StepTrace(hw: Hw, size: u32, pos: nat, ws: u32, s: Processed, handed: seq<Chunk>)
    requires s.DataReady? ==> s.blockSize <= |s.blockData|
    ensures var n := FeedStep(hw, size, pos, ws, s, handed);
      n.hw.trace == hw.trace + StepTxns(s)
      && n.hw.pending == hw.pending && n.hw.readFail == hw.readFail && n.hw.writeFail == hw.writeFail
  {
  }

  /**
   * The hand-over puts exactly the block writes of the library results it
   * consumed on the bus, in order, and changes nothing about the device's
   * failure oracle and status scripts.
   */
  lemma {:induction false} FeedTrace(hw: Hw, size: u32, pos: nat, ws: u32, steps: seq<Processed>, handed: seq<Chunk>)
    requires BlocksFit(steps)
    ensures var r := FeedSpec(hw, size, pos, ws, steps, handed);
      r.hw.trace == hw.trace + BlockTxns(steps[..r.used])
      && r.hw.pending == hw.pending && r.hw.readFail == hw.readFail && r.hw.writeFail == hw.writeFail
    decreases |steps|
  {
    if pos >= size || steps == [] {
      assert steps[..0] == [];
    } else {
      BlocksFitTail(steps);
      var n := FeedStep(hw, size, pos, ws, steps[0], handed);
      StepTrace(hw, size, pos, ws, steps[0], handed);
      if n.Stop? {
        assert steps[..1][1..] == [];
      } else {
        var q := FeedSpec(n.hw, size, n.pos, n.ws, steps[1..], n.handed);
        FeedTrace(n.hw, size, n.pos, n.ws, steps[1..], n.handed);
        assert steps[..q.used + 1][1..] == steps[1..][..q.used];
        ConcatAssoc(hw.trace, StepTxns(steps[0]), BlockTxns(steps[1..][..q.used]));
      }
    }
  }

  /**
   * The pieces offered tile the image: the first is the initial 1024 bytes
   * at offset 0, and each later one starts where the one before ended and
   * is min(1024, bytes left) long.
   */
  predicate Tiled(size: u32, h: seq<Chunk>)
  {
    |h| > 0 && h[0] == Chunk(0, WRITE_SIZE)
    && forall i | 0 < i < |h| :: h[i].offset == h[i - 1].offset + h[i - 1].size && h[i].size == Min(WRITE_SIZE, size - h[i].offset)
  }

  /** What the loop keeps about the offered pieces while no library call reports another status. */
  predicate FeedInv(size: u32, pos: nat, ws: u32, handed: seq<Chunk>)
  {
    Tiled(size, handed) && handed[|handed| - 1] == Chunk(pos, ws) && pos <= size && ws == Min(WRITE_SIZE, size - pos)
  }

  /** Offering the next piece after a NO_DATA, as the loop does, keeps the tiling. */
  lemma FeedInvStep(size: u32, pos: nat, ws: u32, handed: seq<Chunk>)
    requires FeedInv(size, pos, ws, handed) && pos < size
    ensures var p := pos + ws;
      FeedInv(size, p, NextWriteSize(size, p, ws), handed + [Chunk(p, NextWriteSize(size, p, ws))])
  {
    var p := pos + ws;
    var c := Chunk(p, NextWriteSize(size, p, ws));
    var h := handed + [c];
    assert U32(size - p) == size - p;
    assert forall i | 0 <= i < |handed| :: h[i] == handed[i];
  }

  /** One pass other than OTHER keeps the tiling invariant, if the loop goes on. */
  lemma StepTiles(hw: Hw, size: u32, pos: nat, ws: u32, s: Processed, handed: seq<Chunk>)
    requires s.DataReady? ==> s.blockSize <= |s.blockData|
    requires !s.OtherStatus? && FeedInv(size, pos, ws, handed) && pos < size
    ensures var n := FeedStep(hw, size, pos, ws, s, handed);
      n.Go? ==> FeedInv(size, n.pos, n.ws, n.handed)
  {
    if s.NoData? {
      FeedInvStep(size, pos, ws, handed);
    }
  }

  /**
   * While the library only asks for data, hands out blocks or fails, the
   * offered pieces keep tiling the image, and a fully consumed image ends
   * with the empty piece at its end.
   */
  lemma {:induction false} FeedTiles(hw: Hw, size: u32, pos: nat, ws: u32, steps: seq<Processed>, handed: seq<Chunk>)
    requires BlocksFit(steps) && NoOtherStatus(steps) && FeedInv(size, pos, ws, handed)
    ensures var r := FeedSpec(hw, size, pos, ws, steps, handed);
      Tiled(size, r.handed) && (r.end == Consumed ==> r.handed[|r.handed| - 1] == Chunk(size, 0))
    decreases |steps|
  {
    if pos < size && steps != [] {
      BlocksFitTail(steps);
      assert NoOtherStatus(steps[1..]) && !steps[0].OtherStatus? by {
        assert forall i | 0 <= i < |steps[1..]| :: steps[1..][i] == steps[i + 1];
      }
      var n := FeedStep(hw, size, pos, ws, steps[0], handed);
      StepTiles(hw, size, pos, ws, steps[0], handed);
      if n.Go? {
        FeedTiles(n.hw, size, n.pos, n.ws, steps[1..], n.handed);
      }
    }
  }

  /** How `bsp_dut_boot` ended. */
  datatype Outcome = Outcome(ok: bool, hw: Hw, dsps: seq<Dsp>, handed: seq<Chunk>, stalled: bool)

  /**
   * `bsp_dut_boot`: detach the current firmware, read the header, make the
   * three allocations, feed the image, and attach the new firmware's
   * information to core 1.  `prior` are the pieces of the previous boot.
   */
  function DutBootSpec(hw: Hw, dsps: seq<Dsp>, prior: seq<Chunk>, img: Image): Outcome
    requires |dsps| == NUM_DSP && BlocksFit(img.steps)
  {
    var d := BootSpec(dsps, 1, None);
    if !d.0 then Outcome(false, hw, d.1, prior, false)
    else if !img.headerOk || !img.symAllocOk || !img.algAllocOk || !img.blockAllocOk then
      Outcome(false, hw, d.1, [Chunk(0, WRITE_SIZE)], false)
    else
      var f := FeedSpec(hw, img.size, 0, WRITE_SIZE, img.steps, [Chunk(0, WRITE_SIZE)]);
      if f.end != Consumed then Outcome(false, f.hw, d.1, f.handed, f.end == Stalled)
      else
        var b := BootSpec(d.1, 1, Some(img.info));
        Outcome(b.0, f.hw, b.1, f.handed, false)
  }

  /**
   * A boot succeeds only if the header and the allocations did and the
   * whole image was fed, and then core 1 holds the new image's symbol
   * table and algorithm list; every failure leaves core 1 without
   * firmware.  Nothing reaches the device before the image is fed.
   */
  lemma DutBootOutcome(hw: Hw, dsps: seq<Dsp>, prior: seq<Chunk>, img: Image)
    requires |dsps| == NUM_DSP && BlocksFit(img.steps)
    ensures var r := DutBootSpec(hw, dsps, prior, img);
      |r.dsps| == NUM_DSP
      && r.dsps[0] == dsps[0].(fwInfo := if r.ok then Some(img.info) else None)
      && (r.ok ==> !r.stalled && img.headerOk && img.symAllocOk && img.algAllocOk && img.blockAllocOk)
      && (!(img.headerOk && img.symAllocOk && img.algAllocOk && img.blockAllocOk) ==> !r.ok && r.hw == hw)
  {
    assert CoreInRange(1);
  }

  /**
   * For an image of at least 1024 bytes on which the library never reports
   * another status, the pieces a boot offers tile the image, and a
   * successful boot has offered all of it.
   */
  lemma DutBootTiles(hw: Hw, dsps: seq<Dsp>, prior: seq<Chunk>, img: Image)
    requires |dsps| == NUM_DSP && BlocksFit(img.steps) && NoOtherStatus(img.steps) && WRITE_SIZE <= img.size
    ensures var r := DutBootSpec(hw, dsps, prior, img);
      Tiled(img.size, r.handed) && (r.ok ==> r.handed[|r.handed| - 1] == Chunk(img.size, 0))
  {
    assert CoreInRange(1);
    assert FeedInv(img.size, 0, WRITE_SIZE, [Chunk(0, WRITE_SIZE)]);
    FeedTiles(hw, img.size, 0, WRITE_SIZE, img.steps, [Chunk(0, WRITE_SIZE)]);
  }

  /** A boot writes the image's ready blocks, in order, and makes no other transaction. */
  lemma DutBootTrace(hw: Hw, dsps: seq<Dsp>, prior: seq<Chunk>, img: Image)
    requires |dsps| == NUM_DSP && BlocksFit(img.steps)
    ensures var r := DutBootSpec(hw, dsps, prior, img);
      exists k | 0 <= k <= |img.steps| :: r.hw.trace == hw.trace + BlockTxns(img.steps[..k])
  {
    assert CoreInRange(1);
    FeedTrace(hw, img.size, 0, WRITE_SIZE, img.steps, [Chunk(0, WRITE_SIZE)]);
    assert img.steps[..0] == [];
  }

  // ---------------------------------------------------------------------
  // Use cases
  // ---------------------------------------------------------------------

  const SYSTEM_CLOCK1: word := 0x1404
  const SYSCLK_EN_MASK: word := 0x40
  const SYSCLK_EN: word := 0x40
  const OUT1L_INPUT1: word := 0x8200
  const OUT1L_INPUT2: word := 0x8204
  const OUT1L_SRC1_MASK: word := 0x1FF
  const TONE_GENERATOR1: word := 0x2C00
  const TONE1_EN_MASK: word := 0x1
  const TONE1_EN: word := 0x1
  const OUTPUT_ENABLE_1: word := 0x4804
  const OUT1L_EN_MASK: word := 0x2
  const DSP1RX1_INPUT1: word := 0x9C00
  const DSP1RX2_INPUT1: word := 0x9C10
  const DSP1RX1_SRC1_MASK: word := 0x1FF
  const DSP1RX2_SRC1_MASK: word := 0x1FF

  /** Mixer source numbers (hw_0_bsp_cs47l63.c). */
  const SRC_TONE_GENERATOR1: word := 0x4
  const DSP1_CHANNEL1: word := 0x100
  const DSP1_CHANNEL2: word := 0x101

  /** The DSP clock frequency field `bsp_dut_use_case` programs. */
  const DSP_CLK_FREQ: word := 0x24DD << DSP_CLK_FREQ_SHIFT

  /** The use cases of `bsp_dut_use_case`; any other number does nothing. */
  datatype UseCase =
    | TgHpEn | TgHpDis | DspPreloadPtEn | DspPreloadPtDis
    | TgDspHpEn | TgDspHpDis | MicDspHpEn | MicDspHpDis
    | UnknownUseCase(code: u32)

  /** A register step of a use case whose result the BSP ignores. */
  datatype Op =
    | Update(u: RegUpdate)
    | Write(addr: word, val: word)
    | FllOn
    | FllOff

  /** Run every step in order, each whatever the previous ones returned. */
  function RunOps(hw: Hw, spi: bool, ops: seq<Op>): Hw
    decreases |ops|
  {
    if ops == [] then hw
    else
      var h := match ops[0]
        case Update(u) => UpdateRegSpec(hw, spi, u.addr, u.mask, u.val).1
        case Write(a, v) => WriteRegSpec(hw, spi, a, v).1
        case FllOn => EnableFllSpec(hw, spi).1
        case FllOff => DisableFllSpec(hw, spi).1;
      RunOps(h, spi, ops[1..])
  }

  /** Off the SPI bus every step is a no-op, so a run leaves the device as it was. */
  lemma {:induction false} RunOpsOffSpi(hw: Hw, ops: seq<Op>)
    ensures RunOps(hw, false, ops) == hw
    decreases |ops|
  {
    if ops != [] {
      FllOffSpi(hw);
      RunOpsOffSpi(hw, ops[1..]);
    }
  }

  /** The register steps of BSP_USE_CASE_TG_HP_EN: DSP clock, FLL on, system clock, tone generator to OUT1L, output on at 0x60 with volume update. */
  const TG_HP_EN_OPS: seq<Op> := [
    Update(RegUpdate(DSP_CLOCK1, DSP_CLK_FREQ_MASK, DSP_CLK_FREQ)),
    FllOn,
    Update(RegUpdate(SYSTEM_CLOCK1, SYSCLK_EN_MASK, SYSCLK_EN)),
    Update(RegUpdate(OUT1L_INPUT1, OUT1L_SRC1_MASK, SRC_TONE_GENERATOR1)),
    Update(RegUpdate(TONE_GENERATOR1, TONE1_EN_MASK, TONE1_EN)),
    Write(OUTPUT_ENABLE_1, OUT1L_EN_MASK),
    Write(OUT1L_VOLUME_1, OUT_VU | 0x60)]

  /** The register steps of BSP_USE_CASE_TG_HP_DIS: mute, output off, tone generator and routing cleared, system clock off, FLL off. */
  const TG_HP_DIS_OPS: seq<Op> := [
    Write(OUT1L_VOLUME_1, OUT_VU | OUT1L_MUTE | 0x60),
    Write(OUTPUT_ENABLE_1, 0),
    Update(RegUpdate(TONE_GENERATOR1, TONE1_EN_MASK, 0)),
    Update(RegUpdate(OUT1L_INPUT1, OUT1L_SRC1_MASK, 0)),
    Update(RegUpdate(SYSTEM_CLOCK1, SYSCLK_EN_MASK, 0)),
    FllOff]

  /** The register steps of BSP_USE_CASE_TG_DSP_HP_EN: as TG_HP_EN, with the tone generator routed through the DSP's two input channels to OUT1L. */
  const TG_DSP_HP_EN_OPS: seq<Op> := [
    Update(RegUpdate(DSP_CLOCK1, DSP_CLK_FREQ_MASK, DSP_CLK_FREQ)),
    FllOn,
    Update(RegUpdate(SYSTEM_CLOCK1, SYSCLK_EN_MASK, SYSCLK_EN)),
    Update(RegUpdate(DSP1RX1_INPUT1, DSP1RX1_SRC1_MASK, SRC_TONE_GENERATOR1)),
    Update(RegUpdate(DSP1RX2_INPUT1, DSP1RX2_SRC1_MASK, SRC_TONE_GENERATOR1)),
    Update(RegUpdate(OUT1L_INPUT1, OUT1L_SRC1_MASK, DSP1_CHANNEL1)),
    Update(RegUpdate(OUT1L_INPUT2, OUT1L_SRC1_MASK, DSP1_CHANNEL2)),
    Update(RegUpdate(TONE_GENERATOR1, TONE1_EN_MASK, TONE1_EN)),
    Write(OUTPUT_ENABLE_1, OUT1L_EN_MASK),
    Write(OUT1L_VOLUME_1, OUT_VU | 0x60)]

  /** The register steps of BSP_USE_CASE_TG_DSP_HP_DIS: mute, output off, every route and the system clock cleared, FLL off. */
  const TG_DSP_HP_DIS_OPS: seq<Op> := [
    Write(OUT1L_VOLUME_1, OUT_VU | OUT1L_MUTE | 0x60),
    Write(OUTPUT_ENABLE_1, 0),
    Update(RegUpdate(TONE_GENERATOR1, TONE1_EN_MASK, 0)),
    Update(RegUpdate(OUT1L_INPUT1, OUT1L_SRC1_MASK, 0)),
    Update(RegUpdate(OUT1L_INPUT2, OUT1L_SRC1_MASK, 0)),
    Update(RegUpdate(DSP1RX1_INPUT1, DSP1RX1_SRC1_MASK, 0)),
    Update(RegUpdate(DSP1RX2_INPUT1, DSP1RX2_SRC1_MASK, 0)),
    Update(RegUpdate(SYSTEM_CLOCK1, SYSCLK_EN_MASK, 0)),
    FllOff]

  /** The register steps of each use case, in order; the DSP cases then call `cs47l63_power`. */
  function UseCaseOps(uc: UseCase): seq<Op>
  {
    match uc
    case TgHpEn => TG_HP_EN_OPS
    case TgHpDis => TG_HP_DIS_OPS
    case TgDspHpEn => TG_DSP_HP_EN_OPS
    case TgDspHpDis => TG_DSP_HP_DIS_OPS
    case _ => []
  }

  /** The power state a use case asks core 1 for at its end, if any. */
  function UseCasePower(uc: UseCase): Option<u32>
  {
    match uc
    case DspPreloadPtEn => Some(POWER_MEM_ENA)
    case DspPreloadPtDis => Some(POWER_MEM_DIS)
    case TgDspHpEn | MicDspHpEn => Some(POWER_UP)
    case TgDspHpDis | MicDspHpDis => Some(POWER_DOWN)
    case _ => None
  }

  /**
   * `bsp_dut_use_case`: the register steps, then the power call whose
   * result is returned; the preload case then boots `img` and ignores the
   * boot's result.
   */
  function UseCaseSpec(hw: Hw, spi: bool, dsps: seq<Dsp>, prior: seq<Chunk>, uc: UseCase, img: Image): Outcome
    requires |dsps| == NUM_DSP && (forall d | d in dsps :: BanksBounded(d.ramBanks)) && BlocksFit(img.steps)
  {
    var h := RunOps(hw, spi, UseCaseOps(uc));
    if UseCasePower(uc).None? then Outcome(true, h, dsps, prior, false)
    else
      var p := PowerSpec(h, spi, dsps, 1, UseCasePower(uc).value);
      if uc == DspPreloadPtEn then
        var b := DutBootSpec(p.1, dsps, prior, img);
        Outcome(p.0, b.hw, b.dsps, b.handed, b.stalled)
      else Outcome(p.0, p.1, dsps, prior, false)
  }

  /**
   * The tone-generator cases report OK whatever their register steps
   * returned and change no DSP; the DSP cases report what `cs47l63_power`
   * on core 1 reports after their steps; an unknown use case reports OK
   * and touches nothing.
   */
  lemma UseCaseResult(hw: Hw, spi: bool, dsps: seq<Dsp>, prior: seq<Chunk>, uc: UseCase, img: Image)
    requires |dsps| == NUM_DSP && (forall d | d in dsps :: BanksBounded(d.ramBanks)) && BlocksFit(img.steps)
    ensures var r := UseCaseSpec(hw, spi, dsps, prior, uc, img);
      var h := RunOps(hw, spi, UseCaseOps(uc));
      (uc == TgHpEn || uc == TgHpDis ==> r.ok && r.dsps == dsps && r.hw == h)
      && (uc.UnknownUseCase? ==> r == Outcome(true, hw, dsps, prior, false))
      && (uc == MicDspHpEn ==> (r.ok, r.hw) == PowerSpec(hw, spi, dsps, 1, POWER_UP))
      && (uc == MicDspHpDis ==> (r.ok, r.hw) == PowerSpec(hw, spi, dsps, 1, POWER_DOWN))
      && (uc == TgDspHpEn ==> (r.ok, r.hw) == PowerSpec(h, spi, dsps, 1, POWER_UP))
      && (uc == TgDspHpDis ==> (r.ok, r.hw) == PowerSpec(h, spi, dsps, 1, POWER_DOWN))
      && (uc != DspPreloadPtEn ==> r.dsps == dsps && r.handed == prior)
  {
  }

  /**
   * With the driver configured for another bus, the tone-generator cases
   * make no transaction at all and still report OK.
   */
  lemma UseCaseToneOffSpi(hw: Hw, dsps: seq<Dsp>, prior: seq<Chunk>, uc: UseCase, img: Image)
    requires |dsps| == NUM_DSP && (forall d | d in dsps :: BanksBounded(d.ramBanks)) && BlocksFit(img.steps)
    requires uc == TgHpEn || uc == TgHpDis
    ensures UseCaseSpec(hw, false, dsps, prior, uc, img) == Outcome(true, hw, dsps, prior, false)
  {
    RunOpsOffSpi(hw, UseCaseOps(uc));
  }

  /** The board: the static driver instance and what the BSP hands to other parts. */
  class Bsp {
    const driver: Driver
    /** The frames sent to the LN2 board controller. */
    var i2cLog: seq<seq<byte>>
    /** The image pieces offered to the fw_img library during the last boot (`boot_state.fw_img_blocks`). */
    var handed: seq<Chunk>

    constructor (d: Driver)
      ensures driver == d && i2cLog == [] && handed == []
    {
      driver := d;
      i2cLog, handed := [], [];
    }

    /** `wait_fll`: a down-counting loop of status reads. */
    method WaitFll(waitValue: word) returns (status: int)
      modifies driver.bus
      ensures var r := WaitFllSpec(old(driver.bus.hw), IsSpi(driver.config), waitValue, FLL_WAIT_COUNT);
        driver.bus.hw == r.1 && (status == STATUS_OK <==> r.0)
    {
      var waitCount: nat := FLL_WAIT_COUNT;
      while waitCount > 0
        invariant WaitFllSpec(driver.bus.hw, IsSpi(driver.config), waitValue, waitCount)
          == WaitFllSpec(old(driver.bus.hw), IsSpi(driver.config), waitValue, FLL_WAIT_COUNT)
      {
        var ret, val := driver.ReadReg(IRQ1_STS_6, 0);
        if ret != STATUS_OK {
          return STATUS_FAIL;
        }
        if LockIs(val, waitValue) {
          return STATUS_OK;
        }
        waitCount := waitCount - 1;
      }
      return STATUS_FAIL;
    }

    /**
     * Update `k` of the fixed sequence `us`: the outcome of the sequence
     * from `k` on is that of the sequence from `k + 1` on after this
     * update, or this update's failure.
     */
    method UpdateStep(ghost us: seq<RegUpdate>, ghost k: nat, addr: word, mask: word, val: word) returns (ok: bool)
      requires k < |us| && us[k] == RegUpdate(addr, mask, val)
      modifies driver.bus
      ensures var whole := UpdateAll(old(driver.bus.hw), IsSpi(driver.config), us[k..]);
        if ok then UpdateAll(driver.bus.hw, IsSpi(driver.config), us[k + 1..]) == whole
        else whole == (false, driver.bus.hw)
    {
      assert us[k..][0] == us[k] && us[k..][1..] == us[k + 1..];
      var ret := driver.UpdateReg(addr, mask, val);
      ok := ret == STATUS_OK;
    }

    /**
     * The first four updates of `enable_fll`: the loop configuration and
     * the reference clock source.
     */
    method ConfigureFll() returns (ok: bool)
      modifies driver.bus
      ensures var whole := UpdateAll(old(driver.bus.hw), IsSpi(driver.config), ENABLE_FLL);
        if ok then UpdateAll(driver.bus.hw, IsSpi(driver.config), ENABLE_FLL[4..]) == whole
        else whole == (false, driver.bus.hw)
    {
      assert ENABLE_FLL[0..] == ENABLE_FLL;
      ok := UpdateStep(ENABLE_FLL, 0, FLL1_CONTROL2, FLL1_CONTROL2_MASK, FLL1_CONTROL2_VAL);
      if !ok { return; }
      ok := UpdateStep(ENABLE_FLL, 1, FLL1_CONTROL3, FLL1_CONTROL3_MASK, FLL1_CONTROL3_VAL);
      if !ok { return; }
      ok := UpdateStep(ENABLE_FLL, 2, FLL1_CONTROL4, FLL1_CONTROL4_MASK, FLL1_CONTROL4_VAL);
      if !ok { return; }
      ok := UpdateStep(ENABLE_FLL, 3, FLL1_CONTROL2, FLL1_REFCLK_SRC_MASK, 2 << FLL1_REFCLK_SRC_SHIFT);
    }

    /**
     * The last five updates of `enable_fll`: oscillator on, FLL enabled,
     * lock detection on, control update, hold released.
     */
    method StartFll() returns (ok: bool)
      modifies driver.bus
      ensures UpdateAll(old(driver.bus.hw), IsSpi(driver.config), ENABLE_FLL[4..]) == (ok, driver.bus.hw)
    {
      ok := UpdateStep(ENABLE_FLL, 4, RCO_CTRL1, RCO_EN_MASK, RCO_EN_MASK);
      if !ok { return; }
      ok := UpdateStep(ENABLE_FLL, 5, FLL1_CONTROL1, FLL1_EN_MASK, FLL1_EN);
      if !ok { return; }
      ok := UpdateStep(ENABLE_FLL, 6, FLL1_CONTROL2, FLL1_LOCKDET_MASK, FLL1_LOCKDET);
      if !ok { return; }
      ok := UpdateStep(ENABLE_FLL, 7, FLL1_CONTROL1, FLL1_CTRL_UPD_MASK, FLL1_CTRL_UPD);
      if !ok { return; }
      ok := UpdateStep(ENABLE_FLL, 8, FLL1_CONTROL1, FLL1_HOLD_MASK, 0);
      assert ENABLE_FLL[9..] == [];
    }

    /** `enable_fll`. */
    method EnableFll() returns (status: int)
      modifies driver.bus
      ensures var r := EnableFllSpec(old(driver.bus.hw), IsSpi(driver.config));
        driver.bus.hw == r.1 && (status == STATUS_OK <==> r.0)
    {
      var ok := ConfigureFll();
      if !ok { return STATUS_FAIL; }
      ok := StartFll();
      if !ok { return STATUS_FAIL; }
      var ret := WaitFll(FLL1_LOCK_STS1);
      if ret != STATUS_OK {
        return STATUS_FAIL;
      }
      return ret;
    }

    /** The five updates of `disable_fll`. */
    method StopFll() returns (ok: bool)
      modifies driver.bus
      ensures UpdateAll(old(driver.bus.hw), IsSpi(driver.config), DISABLE_FLL) == (ok, driver.bus.hw)
    {
      assert DISABLE_FLL[0..] == DISABLE_FLL;
      ok := UpdateStep(DISABLE_FLL, 0, FLL1_CONTROL1, FLL1_HOLD_MASK, FLL1_HOLD);
      if !ok { return; }
      ok := UpdateStep(DISABLE_FLL, 1, FLL1_CONTROL1, FLL1_EN, 0);
      if !ok { return; }
      ok := UpdateStep(DISABLE_FLL, 2, FLL1_CONTROL2, FLL1_LOCKDET_MASK, FLL1_LOCKDET);
      if !ok { return; }
      ok := UpdateStep(DISABLE_FLL, 3, FLL1_CONTROL1, FLL1_EN_MASK, 0);
      if !ok { return; }
      ok := UpdateStep(DISABLE_FLL, 4, RCO_CTRL1, RCO_EN_MASK, 0);
      assert DISABLE_FLL[5..] == [];
    }

    /** `disable_fll`. */
    method DisableFll() returns (status: int)
      modifies driver.bus
      ensures var r := DisableFllSpec(old(driver.bus.hw), IsSpi(driver.config));
        driver.bus.hw == r.1 && (status == STATUS_OK <==> r.0)
    {
      var ok := StopFll();
      if !ok { return STATUS_FAIL; }
      var ret := WaitFll(0);
      if ret != STATUS_OK {
        return STATUS_FAIL;
      }
      return ret;
    }

    /** `bsp_i2c_write(BSP_LN2_DEV_ID, ...)` of one byte-swapped word; its result is ignored. */
    method I2cWrite(w: word)
      modifies this`i2cLog
      ensures i2cLog == old(i2cLog) + [BytesBE(w)]
    {
      i2cLog := i2cLog + [BytesBE(w)];
    }

    /**
     * `bsp_dut_initialize`: `gpioStatus` is what the board's
     * `register_gpio_cb` returns inside `cs47l63_configure`.
     */
    method Initialize(gpioStatus: int) returns (status: int)
      modifies driver`state, driver`mode, driver`eventFlags, driver`devid, driver`revid, driver`config, driver`dspInfo
      modifies this`i2cLog
      ensures driver.Valid() && driver.config == BSP_CONFIG
      ensures status == BspStatus(gpioStatus)
      ensures driver.mode == HandlingControls && driver.eventFlags == {} && driver.devid == 0 && driver.revid == 0
      ensures gpioStatus == BSP_STATUS_FAIL ==> driver.state == Unconfigured && driver.dspInfo == [ZERO_DSP]
      ensures gpioStatus != BSP_STATUS_FAIL ==>
        driver.state == Configured && driver.dspInfo == [Dsp(1, DSP_BASE_ADDR, DSP1_RAM_BANKS, None)]
      ensures i2cLog == old(i2cLog) + I2cFrames(LN2_SETUP)
    {
      var ret := driver.Initialize();
      if ret == STATUS_OK {
        ret := driver.Configure(Some(BSP_CONFIG), gpioStatus);
      }
      if ret != STATUS_OK {
        ret := BSP_STATUS_FAIL;
      }
      Ln2Setup();
      status := ret;
    }

    /** The board-controller writes of `bsp_dut_initialize`, made whatever the driver calls returned. */
    method Ln2Setup()
      modifies this`i2cLog
      ensures i2cLog == old(i2cLog) + I2cFrames(LN2_SETUP)
    {
      I2cWrite(0x001F_8003);
      I2cWrite(0x00EE_0000);
      I2cWrite(0x011B_001D);
      I2cWrite(0x0119_8000);
      I2cWrite(0x00E4_0010);
      I2cWrite(0x00E5_0100);
      I2cWrite(0x00E3_8000);
      assert I2cFrames(LN2_SETUP) == [BytesBE(0x001F_8003), BytesBE(0x00EE_0000), BytesBE(0x011B_001D),
        BytesBE(0x0119_8000), BytesBE(0x00E4_0010), BytesBE(0x00E5_0100), BytesBE(0x00E3_8000)];
    }

    /** `bsp_dut_reset`. */
    method Reset() returns (status: int)
      modifies driver.bus, driver`devid, driver`revid, driver`state
      ensures var r := ResetSpec(old(driver.bus.hw), IsSpi(driver.config), driver.config.syscfgRegs);
        driver.bus.hw == r.hw && status == (if r.ok then BSP_STATUS_OK else BSP_STATUS_FAIL)
        && driver.devid == (if r.devid.Some? then r.devid.value else old(driver.devid))
        && driver.revid == (if r.revid.Some? then r.revid.value else old(driver.revid))
        && driver.state == (if r.ok then Standby else old(driver.state))
    {
      var ret := driver.Reset();
      if ret != STATUS_OK {
        return BSP_STATUS_FAIL;
      }
      return BSP_STATUS_OK;
    }

    /** `bsp_dut_process`; `stale` is the event handler's initial `temp_reg_val`. */
    method Process(stale: word) returns (status: int)
      modifies driver`mode, driver`eventFlags, driver`notified, driver.bus
      ensures var r := ProcessSpec(old(driver.Control()), old(driver.bus.hw), IsSpi(driver.config), driver.config.notificationCb, stale);
        status == (if r.0 then BSP_STATUS_OK else BSP_STATUS_FAIL) && driver.Control() == r.1 && driver.bus.hw == r.2
    {
      var ret := driver.Process(stale);
      if ret != STATUS_OK {
        return BSP_STATUS_FAIL;
      }
      return BSP_STATUS_OK;
    }

    /**
     * One pass of the hand-over loop on the library's result `s`: `stop`
     * says whether the loop ends, with `end`, on this pass.
     */
    method FeedPass(size: u32, pos: nat, ws: u32, s: Processed) returns (stop: bool, end: FeedEnd, pos': nat, ws': u32)
      requires s.DataReady? ==> s.blockSize <= |s.blockData|
      modifies driver.bus, this`handed
      ensures var n := FeedStep(old(driver.bus.hw), size, pos, ws, s, old(handed));
        if stop then n == Stop(end, driver.bus.hw) && handed == old(handed)
        else n == Go(driver.bus.hw, pos', ws', handed)
    {
      stop, end, pos', ws' := false, Consumed, pos, ws;
      match s
      case DataReady(a, d, n) =>
        var ret := driver.WriteBlock(a, Some(d), n);
        if ret == STATUS_FAIL {
          stop, end := true, FeedFailed;
        }
      case ProcessFail =>
        stop, end := true, FeedFailed;
      case NoData =>
        pos' := pos + ws;
        if U32(size - pos') < ws' {
          ws' := U32(size - pos');
        }
        handed := handed + [Chunk(pos', ws')];
      case OtherStatus =>
        pos' := pos + ws;
    }

    /** The `while (fw_img < fw_img_end)` loop of `bsp_dut_boot`. */
    method FeedImage(img: Image) returns (end: FeedEnd)
      requires BlocksFit(img.steps)
      modifies driver.bus, this`handed
      ensures var f := FeedSpec(old(driver.bus.hw), img.size, 0, WRITE_SIZE, img.steps, old(handed));
        end == f.end && driver.bus.hw == f.hw && handed == f.handed
    {
      ghost var f0 := FeedSpec(driver.bus.hw, img.size, 0, WRITE_SIZE, img.steps, handed);
      var fwImg: nat := 0;
      var writeSize: u32 := WRITE_SIZE;
      var k := 0;
      assert img.steps[0..] == img.steps;
      while fwImg < img.size
        invariant k <= |img.steps| && BlocksFit(img.steps[k..])
        invariant var f := FeedSpec(driver.bus.hw, img.size, fwImg, writeSize, img.steps[k..], handed);
          f.end == f0.end && f.hw == f0.hw && f.handed == f0.handed
        decreases |img.steps| - k
      {
        if k == |img.steps| {
          return Stalled;
        }
        BlocksFitTail(img.steps[k..]);
        assert img.steps[k..][0] == img.steps[k] && img.steps[k..][1..] == img.steps[k + 1..];
        var stop, e, p, w := FeedPass(img.size, fwImg, writeSize, img.steps[k]);
        if stop {
          return e;
        }
        fwImg, writeSize, k := p, w, k + 1;
      }
      return Consumed;
    }

    /** `bsp_dut_boot` with the fw_img library's behaviour given by `img`. */
    method Boot(img: Image) returns (status: int, stalled: bool)
      requires driver.Valid() && BlocksFit(img.steps)
      modifies driver.bus, driver`dspInfo, this`handed
      ensures driver.Valid()
      ensures var r := DutBootSpec(old(driver.bus.hw), old(driver.dspInfo), old(handed), img);
        (status == BSP_STATUS_OK <==> r.ok) && driver.bus.hw == r.hw && driver.dspInfo == r.dsps
        && handed == r.handed && stalled == r.stalled
    {
      stalled := false;
      var ret := driver.Boot(1, None);
      if ret != STATUS_OK {
        return ret, false;
      }
      handed := [Chunk(0, WRITE_SIZE)];
      if !img.headerOk || !img.symAllocOk || !img.algAllocOk || !img.blockAllocOk {
        return BSP_STATUS_FAIL, false;
      }
      var end := FeedImage(img);
      if end != Consumed {
        return BSP_STATUS_FAIL, end == Stalled;
      }
      status := driver.Boot(1, Some(img.info));
    }

    /** Step `k` of the use-case steps `ops`, its result ignored. */
    method OpStep(ghost ops: seq<Op>, ghost k: nat, op: Op)
      requires k < |ops| && ops[k] == op
      modifies driver.bus
      ensures RunOps(driver.bus.hw, IsSpi(driver.config), ops[k + 1..]) == RunOps(old(driver.bus.hw), IsSpi(driver.config), ops[k..])
    {
      assert ops[k..][0] == ops[k] && ops[k..][1..] == ops[k + 1..];
      match op
      case Update(u) =>
        var _ := driver.UpdateReg(u.addr, u.mask, u.val);
      case Write(a, v) =>
        var _ := driver.WriteReg(a, v);
      case FllOn =>
        var _ := EnableFll();
      case FllOff =>
        var _ := DisableFll();
    }

    /** The register steps of BSP_USE_CASE_TG_HP_EN. */
    method ToneHpEnable()
      modifies driver.bus
      ensures driver.bus.hw == RunOps(old(driver.bus.hw), IsSpi(driver.config), TG_HP_EN_OPS)
    {
      ghost var ops := TG_HP_EN_OPS;
      assert ops[0..] == ops;
      OpStep(ops, 0, Update(RegUpdate(DSP_CLOCK1, DSP_CLK_FREQ_MASK, DSP_CLK_FREQ)));
      OpStep(ops, 1, FllOn);
      OpStep(ops, 2, Update(RegUpdate(SYSTEM_CLOCK1, SYSCLK_EN_MASK, SYSCLK_EN)));
      OpStep(ops, 3, Update(RegUpdate(OUT1L_INPUT1, OUT1L_SRC1_MASK, SRC_TONE_GENERATOR1)));
      OpStep(ops, 4, Update(RegUpdate(TONE_GENERATOR1, TONE1_EN_MASK, TONE1_EN)));
      OpStep(ops, 5, Write(OUTPUT_ENABLE_1, OUT1L_EN_MASK));
      OpStep(ops, 6, Write(OUT1L_VOLUME_1, OUT_VU | 0x60));
      assert ops[7..] == [];
    }

    /** The register steps of BSP_USE_CASE_TG_HP_DIS. */
    method ToneHpDisable()
      modifies driver.bus
      ensures driver.bus.hw == RunOps(old(driver.bus.hw), IsSpi(driver.config), TG_HP_DIS_OPS)
    {
      ghost var ops := TG_HP_DIS_OPS;
      assert ops[0..] == ops;
      OpStep(ops, 0, Write(OUT1L_VOLUME_1, OUT_VU | OUT1L_MUTE | 0x60));
      OpStep(ops, 1, Write(OUTPUT_ENABLE_1, 0));
      OpStep(ops, 2, Update(RegUpdate(TONE_GENERATOR1, TONE1_EN_MASK, 0)));
      OpStep(ops, 3, Update(RegUpdate(OUT1L_INPUT1, OUT1L_SRC1_MASK, 0)));
      OpStep(ops, 4, Update(RegUpdate(SYSTEM_CLOCK1, SYSCLK_EN_MASK, 0)));
      OpStep(ops, 5, FllOff);
      assert ops[6..] == [];
    }

    /** The first five register steps of BSP_USE_CASE_TG_DSP_HP_EN: clocks and DSP inputs. */
    method ToneDspClocks()
      modifies driver.bus
      ensures RunOps(driver.bus.hw, IsSpi(driver.config), TG_DSP_HP_EN_OPS[5..])
        == RunOps(old(driver.bus.hw), IsSpi(driver.config), TG_DSP_HP_EN_OPS)
    {
      ghost var ops := TG_DSP_HP_EN_OPS;
      assert ops[0..] == ops;
      OpStep(ops, 0, Update(RegUpdate(DSP_CLOCK1, DSP_CLK_FREQ_MASK, DSP_CLK_FREQ)));
      OpStep(ops, 1, FllOn);
      OpStep(ops, 2, Update(RegUpdate(SYSTEM_CLOCK1, SYSCLK_EN_MASK, SYSCLK_EN)));
      OpStep(ops, 3, Update(RegUpdate(DSP1RX1_INPUT1, DSP1RX1_SRC1_MASK, SRC_TONE_GENERATOR1)));
      OpStep(ops, 4, Update(RegUpdate(DSP1RX2_INPUT1, DSP1RX2_SRC1_MASK, SRC_TONE_GENERATOR1)));
    }

    /** The last five register steps of BSP_USE_CASE_TG_DSP_HP_EN: output routing, tone, output on. */
    method ToneDspOutputs()
      modifies driver.bus
      ensures driver.bus.hw == RunOps(old(driver.bus.hw), IsSpi(driver.config), TG_DSP_HP_EN_OPS[5..])
    {
      ghost var ops := TG_DSP_HP_EN_OPS;
      OpStep(ops, 5, Update(RegUpdate(OUT1L_INPUT1, OUT1L_SRC1_MASK, DSP1_CHANNEL1)));
      OpStep(ops, 6, Update(RegUpdate(OUT1L_INPUT2, OUT1L_SRC1_MASK, DSP1_CHANNEL2)));
      OpStep(ops, 7, Update(RegUpdate(TONE_GENERATOR1, TONE1_EN_MASK, TONE1_EN)));
      OpStep(ops, 8, Write(OUTPUT_ENABLE_1, OUT1L_EN_MASK));
      OpStep(ops, 9, Write(OUT1L_VOLUME_1, OUT_VU | 0x60));
      assert ops[10..] == [];
    }

    /** The first five register steps of BSP_USE_CASE_TG_DSP_HP_DIS: mute, output off, sources cleared. */
    method ToneDspMute()
      modifies driver.bus
      ensures RunOps(driver.bus.hw, IsSpi(driver.config), TG_DSP_HP_DIS_OPS[5..])
        == RunOps(old(driver.bus.hw), IsSpi(driver.config), TG_DSP_HP_DIS_OPS)
    {
      ghost var ops := TG_DSP_HP_DIS_OPS;
      assert ops[0..] == ops;
      OpStep(ops, 0, Write(OUT1L_VOLUME_1, OUT_VU | OUT1L_MUTE | 0x60));
      OpStep(ops, 1, Write(OUTPUT_ENABLE_1, 0));
      OpStep(ops, 2, Update(RegUpdate(TONE_GENERATOR1, TONE1_EN_MASK, 0)));
      OpStep(ops, 3, Update(RegUpdate(OUT1L_INPUT1, OUT1L_SRC1_MASK, 0)));
      OpStep(ops, 4, Update(RegUpdate(OUT1L_INPUT2, OUT1L_SRC1_MASK, 0)));
    }

    /** The last four register steps of BSP_USE_CASE_TG_DSP_HP_DIS: DSP inputs, system clock, FLL off. */
    method ToneDspStop()
      modifies driver.bus
      ensures driver.bus.hw == RunOps(old(driver.bus.hw), IsSpi(driver.config), TG_DSP_HP_DIS_OPS[5..])
    {
      ghost var ops := TG_DSP_HP_DIS_OPS;
      OpStep(ops, 5, Update(RegUpdate(DSP1RX1_INPUT1, DSP1RX1_SRC1_MASK, 0)));
      OpStep(ops, 6, Update(RegUpdate(DSP1RX2_INPUT1, DSP1RX2_SRC1_MASK, 0)));
      OpStep(ops, 7, Update(RegUpdate(SYSTEM_CLOCK1, SYSCLK_EN_MASK, 0)));
      OpStep(ops, 8, FllOff);
      assert ops[9..] == [];
    }

    /** BSP_USE_CASE_DSP_PRELOAD_PT_EN: enable the DSP memories, then boot `img`, ignoring the boot's result. */
    method PreloadEnable(img: Image) returns (status: int, stalled: bool)
      requires driver.Valid() && BlocksFit(img.steps)
      modifies driver.bus, driver`dspInfo, this`handed
      ensures driver.Valid()
      ensures var r := UseCaseSpec(old(driver.bus.hw), IsSpi(driver.config), old(driver.dspInfo), old(handed), DspPreloadPtEn, img);
        (status == BSP_STATUS_OK <==> r.ok) && driver.bus.hw == r.hw && driver.dspInfo == r.dsps
        && handed == r.handed && stalled == r.stalled
    {
      status := driver.Power(1, POWER_MEM_ENA);
      var _, s := Boot(img);
      stalled := s;
    }

    /** `bsp_dut_use_case`; `img` is what the preload case's boot is given. */
    method UseCaseRun(uc: UseCase, img: Image) returns (status: int, stalled: bool)
      requires driver.Valid() && BlocksFit(img.steps)
      modifies driver.bus, driver`dspInfo, this`handed
      ensures driver.Valid()
      ensures var r := UseCaseSpec(old(driver.bus.hw), IsSpi(driver.config), old(driver.dspInfo), old(handed), uc, img);
        (status == BSP_STATUS_OK <==> r.ok) && driver.bus.hw == r.hw && driver.dspInfo == r.dsps
        && handed == r.handed && stalled == r.stalled
    {
      status, stalled := BSP_STATUS_OK, false;
      match uc
      case TgHpEn =>
        ToneHpEnable();
      case TgHpDis =>
        ToneHpDisable();
      case DspPreloadPtEn =>
        status, stalled := PreloadEnable(img);
      case DspPreloadPtDis =>
        status := driver.Power(1, POWER_MEM_DIS);
      case TgDspHpEn =>
        ToneDspClocks();
        ToneDspOutputs();
        status := driver.Power(1, POWER_UP);
      case TgDspHpDis =>
        ToneDspMute();
        ToneDspStop();
        status := driver.Power(1, POWER_DOWN);
      case MicDspHpEn =>
        status := driver.Power(1, POWER_UP);
      case MicDspHpDis =>
        status := driver.Power(1, POWER_DOWN);
      case UnknownUseCase(_) =>
    }
  }
}
