/**
 * The Cirrus Logic CS47L63 driver (cs47l63.c): single-register access
 * over the control port, read-modify-write, register sequences, the DSP
 * symbol lookup, the interrupt event collector, the driver's state and
 * mode machine, reset, firmware hand-over and DSP power changes.
 *
 * Register addresses, bit masks, event flags and enumeration values come
 * from cs47l63.h and cs47l63_spec.h, which are not part of this model.
 * They are named constants with placeholder values below; the proofs use
 * only the relations between them that the source itself implies (for
 * instance that `IRQ1_EINT_2` is `IRQ1_EINT_1 + 4`, as the comments on
 * the event table state).
 */
module Cs47l63 {
  import opened CInt
  import opened Wrappers
  import opened Cs47l63Bus

  // ---------------------------------------------------------------------
  // Constants
  // ---------------------------------------------------------------------

  /** Driver status codes. */
  const STATUS_OK: int := 0
  const STATUS_FAIL: int := 1

  /** `bus_type` values of the BSP configuration. */
  const BUS_TYPE_I2C: int := 1
  const BUS_TYPE_SPI: int := 2

  /** The CS47L63 has one HALO DSP core. */
  const NUM_DSP: nat := 1

  const POLL_ACK_CTRL_MAX: nat := 10
  /** `cs47l63_reset` gives up once a 21st read of IRQ1_EINT_2 has been made. */
  const BOOT_POLL_MAX: nat := 20

  const REGION_UNLOCK_CODE0: word := 0x5555
  const REGION_UNLOCK_CODE1: word := 0xAAAA
  const REGION_LOCK_CODE: word := 0x0

  /** `power_state` values of `cs47l63_power`. */
  const POWER_UP: u32 := 1
  const POWER_DOWN: u32 := 2
  const POWER_MEM_ENA: u32 := 3
  const POWER_MEM_DIS: u32 := 4

  // Register addresses (placeholders, see the module comment).
  const DEVID: word := 0x0
  const REVID: word := 0x4
  const IRQ1_EINT_1: word := 0x1_8010
  const IRQ1_EINT_2: word := 0x1_8014
  const IRQ1_MASK_1: word := 0x1_8110
  const DSP_CLOCK1: word := 0x1510
  const DSP_BASE_ADDR: word := 0x200_0000
  const DSP1_XM_SRAM_IBUS_SETUP_1: u32 := 0x2BC_1000
  const DSP1_XM_SRAM_IBUS_SETUP_11: u32 := 0x2BC_1028
  const DSP1_YM_SRAM_IBUS_SETUP_1: u32 := 0x2BC_102C
  const DSP1_YM_SRAM_IBUS_SETUP_6: u32 := 0x2BC_1040
  const DSP1_PM_SRAM_IBUS_SETUP_1: u32 := 0x2BC_1044
  const DSP1_PM_SRAM_IBUS_SETUP_5: u32 := 0x2BC_1054

  // Offsets from a DSP core's base address (placeholders).
  const DSP_OFF_CLOCK_FREQ: word := 0x1_0000
  const DSP_OFF_CCM_CORE_CONTROL: word := 0x1_0100
  const DSP_OFF_CORE_SOFT_RESET: word := 0x1_0104
  const DSP_OFF_WDT_CONTROL: word := 0x1_0200
  const DSP_OFF_MPU_XMEM_ACCESS_0: word := 0x4_3000
  const DSP_OFF_MPU_YMEM_ACCESS_0: word := 0x4_3004
  const DSP_OFF_MPU_WINDOW_ACCESS_0: word := 0x4_3008
  const DSP_OFF_MPU_XREG_ACCESS_0: word := 0x4_300C
  const DSP_OFF_MPU_YREG_ACCESS_0: word := 0x4_3014
  const DSP_OFF_MPU_XMEM_ACCESS_1: word := 0x4_3018
  const DSP_OFF_MPU_YMEM_ACCESS_1: word := 0x4_301C
  const DSP_OFF_MPU_WINDOW_ACCESS_1: word := 0x4_3020
  const DSP_OFF_MPU_XREG_ACCESS_1: word := 0x4_3024
  const DSP_OFF_MPU_YREG_ACCESS_1: word := 0x4_302C
  const DSP_OFF_MPU_XMEM_ACCESS_2: word := 0x4_3030
  const DSP_OFF_MPU_YMEM_ACCESS_2: word := 0x4_3034
  const DSP_OFF_MPU_WINDOW_ACCESS_2: word := 0x4_3038
  const DSP_OFF_MPU_XREG_ACCESS_2: word := 0x4_303C
  const DSP_OFF_MPU_YREG_ACCESS_2: word := 0x4_3044
  const DSP_OFF_MPU_XMEM_ACCESS_3: word := 0x4_3048
  const DSP_OFF_MPU_YMEM_ACCESS_3: word := 0x4_304C
  const DSP_OFF_MPU_WINDOW_ACCESS_3: word := 0x4_3050
  const DSP_OFF_MPU_XREG_ACCESS_3: word := 0x4_3054
  const DSP_OFF_MPU_YREG_ACCESS_3: word := 0x4_305C
  const DSP_OFF_MPU_LOCK_CONFIG: word := 0x4_3100

  // Bit fields (placeholders).
  const BOOT_DONE_EINT1_MASK: word := 0x2
  const BOOT_DONE_MASK1_MASK: word := 0x2
  const SYSCLK_FAIL_MASK1_MASK: word := 0x20
  const SYSCLK_ERR_MASK1_MASK: word := 0x10
  const CTRLIF_ERR_MASK1_MASK: word := 0x8
  const DSP1_MPU_ERR_MASK1_MASK: word := 0x1
  const DSP1_IRQ0_MASK1_MASK: word := 0x1
  const DSP1_WDT_EXPIRE_STS1_MASK: word := 0x2
  const DSP1_AHB_SYS_ERR_MASK1_MASK: word := 0x4
  const DSP1_AHB_PACK_ERR_MASK1_MASK: word := 0x8
  const DSP_CLK_EN_MASK: word := 0x4
  const DSP_CLK_EN: word := 0x4
  const DSP_CLK_FREQ_MASK: word := 0xFFFF_0000
  const DSP_CLK_FREQ_SHIFT: word := 16
  const DSP1_CLK_FREQ_SEL_MASK: word := 0xFFFF
  const DSP1_CCM_CORE_EN_MASK: word := 0x1
  const DSP1_CCM_CORE_EN: word := 0x1
  const DSP1_WDT_EN_MASK: word := 0x1
  const SFT_RESET_MASK: word := 0x1
  const DSP1_XM_SRAM_IBUS_O_EXT_N_1: word := 0x2
  const DSP1_XM_SRAM_IBUS_E_EXT_N_1: word := 0x1

  /** The OUT1L volume register and its fields, used by the board and the application. */
  const OUT1L_VOLUME_1: word := 0x4810
  const OUT_VU: word := 0x200
  const OUT1L_MUTE: word := 0x100
  const OUT1L_MUTE_MASK: word := 0x100
  const OUT1L_VOL_MASK: word := 0xFF

  /** Both the odd and the even half of a DSP RAM bank. */
  const DSP_RAM_BANK_ODD_EVEN: word := DSP1_XM_SRAM_IBUS_O_EXT_N_1 | DSP1_XM_SRAM_IBUS_E_EXT_N_1

  // ---------------------------------------------------------------------
  // Data model
  // ---------------------------------------------------------------------

  /** The events `cs47l63_event_handler` reports; each has its own flag bit, so a set of them is their OR. */
  datatype Event =
    | BootDone | SysclkFail | SysclkErr | CtrlifErr | MpuErr
    | Dsp1Irq0 | WdtExpire | AhbSysErr | AhbPackErr

  /** An interrupt register to check: offset from IRQ1_EINT_1, the bit it tests, the event it reports. */
  datatype IrqReg = IrqReg(offset: word, mask: word, flag: Event)

  /** `cs47l63_event_data`, in the order the handler walks it. */
  const EVENT_DATA: seq<IrqReg> := [
    IrqReg(0x4, BOOT_DONE_MASK1_MASK, BootDone),
    IrqReg(0x0, SYSCLK_FAIL_MASK1_MASK, SysclkFail),
    IrqReg(0x0, SYSCLK_ERR_MASK1_MASK, SysclkErr),
    IrqReg(0x0, CTRLIF_ERR_MASK1_MASK, CtrlifErr),
    IrqReg(0x18, DSP1_MPU_ERR_MASK1_MASK, MpuErr),
    IrqReg(0x20, DSP1_IRQ0_MASK1_MASK, Dsp1Irq0),
    IrqReg(0x18, DSP1_WDT_EXPIRE_STS1_MASK, WdtExpire),
    IrqReg(0x18, DSP1_AHB_SYS_ERR_MASK1_MASK, AhbSysErr),
    IrqReg(0x18, DSP1_AHB_PACK_ERR_MASK1_MASK, AhbPackErr)
  ]

  datatype State = Unconfigured | Configured | Standby | Error
  datatype Mode = HandlingControls | HandlingEvents

  /** One entry of a register sequence; the delay is a busy wait, which the model leaves out. */
  datatype RegWrite = RegWrite(addr: word, val: word, delayUs: nat)

  /** One entry of the system configuration table (`syscfg_reg_t`). */
  datatype SyscfgReg = SyscfgReg(address: word, mask: word, value: word)

  datatype Sym = Sym(symId: word, symAddr: word)

  /** The parts of a firmware image's `fw_img_info_t` the driver looks at. */
  datatype FwInfo = FwInfo(symTable: seq<Sym>, algIdList: seq<word>)

  /** A RAM bank's first and last setup register (the bank loops count with a `uint32_t`). */
  datatype RamBank = RamBank(regStart: u32, regEnd: u32)

  /** `cs47l63_dsp_t`; `fwInfo == None` is a NULL firmware pointer. */
  datatype Dsp = Dsp(dspCore: nat, baseAddr: word, ramBanks: seq<RamBank>, fwInfo: Option<FwInfo>)

  const ZERO_DSP: Dsp := Dsp(0, 0, [], None)

  /** `cs47l63_dsp1_ram_banks`. */
  const DSP1_RAM_BANKS: seq<RamBank> := [
    RamBank(DSP1_XM_SRAM_IBUS_SETUP_1, DSP1_XM_SRAM_IBUS_SETUP_11),
    RamBank(DSP1_YM_SRAM_IBUS_SETUP_1, DSP1_YM_SRAM_IBUS_SETUP_6),
    RamBank(DSP1_PM_SRAM_IBUS_SETUP_1, DSP1_PM_SRAM_IBUS_SETUP_5)
  ]

  /**
   * `cs47l63_config_t`: the BSP bus type, the system configuration table
   * and whether a notification callback is given (GPIO and supply ids are
   * left out).
   */
  datatype Config = Config(busType: int, syscfgRegs: seq<SyscfgReg>, notificationCb: bool)

  const ZERO_CONFIG: Config := Config(0, [], false)

  predicate IsSpi(c: Config)
  {
    c.busType == BUS_TYPE_SPI
  }

  /**
   * The RAM-bank loops of `cs47l63_power_mem_ena`/`_dis` step a `uint32_t`
   * address by 4 up to `reg_end`; they end only when `reg_end` is below
   * 0xFFFFFFFC, as for the driver's own table.
   */
  predicate BanksBounded(banks: seq<RamBank>)
  {
    forall b | b in banks :: b.regEnd < 0xFFFF_FFFC
  }

  // ---------------------------------------------------------------------
  // Single-register access
  // ---------------------------------------------------------------------

  /**
   * `cs47l63_read_reg`: `None` is CS47L63_STATUS_FAIL.  Off the SPI bus no
   * transaction is made and the read fails.
   */
  function ReadRegSpec(hw: Hw, spi: bool, addr: word): (r: (Option<word>, Hw))
    ensures !spi ==> r == (None, hw)
    ensures spi ==> r.1.trace == hw.trace + [SpiRead(ReadHeader(addr), 4)]
    ensures |r.1.trace| == |hw.trace| + if spi then 1 else 0
    ensures r.1.regs == hw.regs && r.1.w1c == hw.w1c
    ensures r.1.readFail == hw.readFail && r.1.writeFail == hw.writeFail
    ensures spi ==> (r.0.None? <==> HeaderAddr(ReadHeader(addr)) in hw.readFail)
  {
    if !spi then (None, hw)
    else
      var x := SpiRead4(hw, ReadHeader(addr));
      (if x.0.Some? then Some(WordBE(x.0.value)) else None, x.1)
  }

  /**
   * A successful read of an address of the device returns the value the
   * register file holds, or the next value of the register's status script.
   */
  lemma ReadRegValue(hw: Hw, addr: word)
    requires addr < 0x8000_0000 && addr !in hw.readFail
    ensures ReadRegSpec(hw, true, addr).0 ==
      Some(if Scripted(hw, addr) then Script(hw, addr)[0] else Reg(hw, addr))
    ensures !Scripted(hw, addr) ==> ReadRegSpec(hw, true, addr).1.pending == hw.pending
  {
    HeaderAddrDecodes(addr);
    WordBytesRoundTrip(if Scripted(hw, addr) then Script(hw, addr)[0] else Reg(hw, addr));
  }

  /**
   * `cs47l63_write_reg`: `true` is CS47L63_STATUS_OK.  Off the SPI bus
   * nothing is sent and the call still succeeds.
   */
  function WriteRegSpec(hw: Hw, spi: bool, addr: word, val: word): (r: (bool, Hw))
    ensures !spi ==> r == (true, hw)
    ensures spi ==> r.1.trace == hw.trace + [SpiWrite(BytesBE(addr), BytesBE(val))]
    ensures r.1.pending == hw.pending && r.1.w1c == hw.w1c
    ensures r.1.readFail == hw.readFail && r.1.writeFail == hw.writeFail
    ensures spi ==> (r.0 <==> HeaderAddr(BytesBE(addr)) !in hw.writeFail)
  {
    if !spi then (true, hw) else SpiWriteData(hw, BytesBE(addr), BytesBE(val))
  }

  /** A successful write of an address of the device stores the value there and nowhere else. */
  lemma WriteRegStores(hw: Hw, addr: word, val: word)
    requires addr < 0x8000_0000
    ensures var r := WriteRegSpec(hw, true, addr, val);
      (r.0 <==> addr !in hw.writeFail)
      && r.1.regs == if r.0 then SetReg(hw.regs, addr, Stored(hw, addr, val)) else hw.regs
  {
    HeaderAddrDecodes(addr);
    WordBytesRoundTrip(val);
  }

  /** `(orig & ~mask) | val`, the value `cs47l63_update_reg` computes. */
  function Merge(orig: word, mask: word, val: word): word
  {
    (orig & !mask) | val
  }

  /** The merge sets every bit of `val` and, when `val` lies within `mask`, keeps every bit outside it. */
  lemma MergeBits(orig: word, mask: word, val: word)
    ensures Merge(orig, mask, val) & val == val
    ensures val & !mask == 0 ==> Merge(orig, mask, val) & !mask == orig & !mask
  {
  }

  /**
   * `cs47l63_update_reg`: read the register, merge, and write back only if
   * the merged value differs from what was read.  A failed read fails the
   * call before anything is written.
   */
  function UpdateRegSpec(hw: Hw, spi: bool, addr: word, mask: word, val: word): (r: (bool, Hw))
  {
    var rd := ReadRegSpec(hw, spi, addr);
    if rd.0.None? then (false, rd.1)
    else if Merge(rd.0.value, mask, val) != rd.0.value then WriteRegSpec(rd.1, spi, addr, Merge(rd.0.value, mask, val))
    else (true, rd.1)
  }

  /**
   * What `update_reg` puts on the bus: the read, then a write of the merged
   * value exactly when the read succeeded and the value changes; the call
   * succeeds iff the read did and the write, if any, did.
   */
  lemma UpdateRegTransactions(hw: Hw, addr: word, mask: word, val: word)
    ensures var rd := ReadRegSpec(hw, true, addr);
      var r := UpdateRegSpec(hw, true, addr, mask, val);
      var changed := rd.0.Some? && Merge(rd.0.value, mask, val) != rd.0.value;
      r.1.trace == hw.trace + [SpiRead(ReadHeader(addr), 4)]
        + (if changed then [SpiWrite(BytesBE(addr), BytesBE(Merge(rd.0.value, mask, val)))] else [])
      && (r.0 <==> rd.0.Some? && (!changed || HeaderAddr(BytesBE(addr)) !in hw.writeFail))
  {
  }

  /** The shape of `update_reg` once the read has returned `orig`. */
  lemma UpdateRegAfterRead(hw: Hw, addr: word, mask: word, val: word, orig: word)
    requires ReadRegSpec(hw, true, addr).0 == Some(orig)
    ensures var rd := ReadRegSpec(hw, true, addr);
      UpdateRegSpec(hw, true, addr, mask, val)
        == if Merge(orig, mask, val) != orig then WriteRegSpec(rd.1, true, addr, Merge(orig, mask, val)) else (true, rd.1)
  {
  }

  /**
   * On an ordinary register of the device, with no failure, `update_reg`
   * succeeds and stores the merged value when it differs from the register's
   * value, leaving the register file untouched otherwise; with
   * `RegAfterStore`, the register then reads as the merged value and every
   * other register as before.
   */
  lemma UpdateRegStores(hw: Hw, addr: word, mask: word, val: word)
    requires addr < 0x8000_0000 && addr !in hw.readFail && addr !in hw.writeFail
    requires addr !in hw.w1c && !Scripted(hw, addr)
    ensures var r := UpdateRegSpec(hw, true, addr, mask, val);
      var m := Merge(Reg(hw, addr), mask, val);
      r.0 && r.1.regs == if m != Reg(hw, addr) then SetReg(hw.regs, addr, m) else hw.regs
  {
    var rd := ReadRegSpec(hw, true, addr);
    var orig := Reg(hw, addr);
    ReadRegValue(hw, addr);
    UpdateRegAfterRead(hw, addr, mask, val, orig);
    var m := Merge(orig, mask, val);
    if m != orig {
      WriteRegStores(rd.1, addr, m);
    }
  }

  /** Off the SPI bus every update fails, because its read does. */
  lemma UpdateRegOffSpi(hw: Hw, addr: word, mask: word, val: word)
    ensures UpdateRegSpec(hw, false, addr, mask, val) == (false, hw)
  {
  }

  // ---------------------------------------------------------------------
  // Register sequences
  // ---------------------------------------------------------------------

  /** Write every entry in order, stopping at the first failed write. */
  function WriteAll(hw: Hw, spi: bool, ws: seq<RegWrite>): (r: (bool, Hw))
    decreases |ws|
  {
    if ws == [] then (true, hw)
    else
      var w := WriteRegSpec(hw, spi, ws[0].addr, ws[0].val);
      if !w.0 then (false, w.1) else WriteAll(w.1, spi, ws[1..])
  }

  /** `cs47l63_write_reg_sequence`: `ret` starts as FAIL, so an empty sequence fails. */
  function SequenceSpec(hw: Hw, spi: bool, ws: seq<RegWrite>): (r: (bool, Hw))
    ensures ws == [] ==> r == (false, hw)
    ensures ws != [] ==> r == WriteAll(hw, spi, ws)
  {
    if |ws| == 0 then (false, hw) else WriteAll(hw, spi, ws)
  }

  /** The write transactions of a list of register writes. */
  function WriteFrames(ws: seq<RegWrite>): (r: seq<Txn>)
    ensures |r| == |ws|
  {
    if ws == [] then [] else [SpiWrite(BytesBE(ws[0].addr), BytesBE(ws[0].val))] + WriteFrames(ws[1..])
  }

  /** The index of the first entry whose write the bus refuses, or `|ws|`. */
  function FirstWriteFail(writeFail: set<word>, ws: seq<RegWrite>): (k: nat)
    ensures k <= |ws|
  {
    if ws == [] then 0
    else if HeaderAddr(BytesBE(ws[0].addr)) in writeFail then 0
    else 1 + FirstWriteFail(writeFail, ws[1..])
  }

  /** The entries a sequence reaches: all up to and including the first refused one. */
  function Reached(writeFail: set<word>, ws: seq<RegWrite>): (r: seq<RegWrite>)
    ensures var k := FirstWriteFail(writeFail, ws); r == ws[..if k < |ws| then k + 1 else k]
  {
    var k := FirstWriteFail(writeFail, ws);
    ws[..if k < |ws| then k + 1 else k]
  }

  lemma ConcatAssoc<T>(a: seq<T>, b: seq<T>, c: seq<T>)
    ensures a + b + c == a + (b + c)
  {
  }

  /** Past an entry the bus accepts, the reached entries are that entry and those the rest reaches. */
  lemma ReachedCons(writeFail: set<word>, ws: seq<RegWrite>)
    requires ws != [] && HeaderAddr(BytesBE(ws[0].addr)) !in writeFail
    ensures Reached(writeFail, ws) == [ws[0]] + Reached(writeFail, ws[1..])
  {
    var k := FirstWriteFail(writeFail, ws[1..]);
    var n := if k < |ws[1..]| then k + 1 else k;
    assert Reached(writeFail, ws) == ws[..n + 1];
    assert ws[..n + 1] == [ws[0]] + ws[1..][..n];
  }

  /** A sequence on the SPI bus succeeds iff the bus refuses none of its entries. */
  lemma {:induction false} WriteAllOutcome(hw: Hw, ws: seq<RegWrite>)
    ensures WriteAll(hw, true, ws).0 <==> FirstWriteFail(hw.writeFail, ws) == |ws|
    decreases |ws|
  {
    if ws != [] {
      var w := WriteRegSpec(hw, true, ws[0].addr, ws[0].val);
      if w.0 {
        WriteAllOutcome(w.1, ws[1..]);
      }
    }
  }

  /**
   * A sequence on the SPI bus writes its entries in order up to and
   * including the first refused one, and nothing after it.
   */
  lemma {:induction false} WriteAllTrace(hw: Hw, ws: seq<RegWrite>)
    ensures WriteAll(hw, true, ws).1.trace == hw.trace + WriteFrames(Reached(hw.writeFail, ws))
    decreases |ws|
  {
    if ws == [] {
      assert Reached(hw.writeFail, ws) == [];
    } else {
      var w := WriteRegSpec(hw, true, ws[0].addr, ws[0].val);
      if w.0 {
        var rest := ws[1..];
        WriteAllTrace(w.1, rest);
        ReachedCons(hw.writeFail, ws);
        var f := SpiWrite(BytesBE(ws[0].addr), BytesBE(ws[0].val));
        assert WriteFrames(Reached(hw.writeFail, ws)) == [f] + WriteFrames(Reached(hw.writeFail, rest));
        ConcatAssoc(hw.trace, [f], WriteFrames(Reached(hw.writeFail, rest)));
      } else {
        assert Reached(hw.writeFail, ws) == [ws[0]];
      }
    }
  }

  /** Writing `a + b` is writing `a` and then, if every write of `a` was accepted, `b`. */
  lemma {:induction false} WriteAllAppend(hw: Hw, spi: bool, a: seq<RegWrite>, b: seq<RegWrite>)
    ensures var x := WriteAll(hw, spi, a);
      WriteAll(hw, spi, a + b) == if !x.0 then x else WriteAll(x.1, spi, b)
    decreases |a|
  {
    if a == [] {
      assert a + b == b;
    } else {
      assert (a + b)[0] == a[0] && (a + b)[1..] == a[1..] + b;
      var w := WriteRegSpec(hw, spi, a[0].addr, a[0].val);
      if w.0 {
        WriteAllAppend(w.1, spi, a[1..], b);
      }
    }
  }

  /** Off the SPI bus every entry "succeeds" without any transaction. */
  lemma {:induction false} WriteAllOffSpi(hw: Hw, ws: seq<RegWrite>)
    ensures WriteAll(hw, false, ws) == (true, hw)
    decreases |ws|
  {
    if ws != [] {
      WriteAllOffSpi(hw, ws[1..]);
    }
  }

  /**
   * One read of the acknowledgement poll: the value `temp_val` then holds
   * (a failed read leaves the previous value `last`).
   */
  function AckRead(hw: Hw, spi: bool, addr: word, last: word): (r: (word, Hw))
    ensures |r.1.trace| == |hw.trace| + if spi then 1 else 0
    ensures !spi ==> r == (last, hw)
  {
    var rd := ReadRegSpec(hw, spi, addr);
    (if rd.0.Some? then rd.0.value else last, rd.1)
  }

  /**
   * `cs47l63_write_acked_reg`, polling part: up to `n` reads, succeeding at
   * the first one whose value is 0.
   */
  function AckPoll(hw: Hw, spi: bool, addr: word, n: nat, last: word): (r: (bool, Hw))
    decreases n
  {
    if n == 0 then (false, hw)
    else
      var rd := AckRead(hw, spi, addr, last);
      if rd.0 == 0 then (true, rd.1) else AckPoll(rd.1, spi, addr, n - 1, rd.0)
  }

  /**
   * `cs47l63_write_acked_reg`: the write's own result is ignored;
   * `stale` is the indeterminate value `temp_val` has before any read.
   */
  function WriteAckedSpec(hw: Hw, spi: bool, addr: word, val: word, stale: word): (r: (bool, Hw))
  {
    AckPoll(WriteRegSpec(hw, spi, addr, val).1, spi, addr, POLL_ACK_CTRL_MAX, stale)
  }

  /** The acknowledgement poll never reads more than `n` times. */
  lemma {:induction false} AckPollBounded(hw: Hw, spi: bool, addr: word, n: nat, last: word)
    ensures var r := AckPoll(hw, spi, addr, n, last);
      |hw.trace| <= |r.1.trace| <= |hw.trace| + n
    decreases n
  {
    if n > 0 {
      var rd := AckRead(hw, spi, addr, last);
      if rd.0 != 0 {
        AckPollBounded(rd.1, spi, addr, n - 1, rd.0);
      }
    }
  }

  /**
   * When every read fails (always the case off the SPI bus), the acked
   * write's outcome is decided by the uninitialised `temp_val` alone.
   */
  lemma {:induction false} AckPollAllReadsFail(hw: Hw, addr: word, n: nat, last: word)
    ensures AckPoll(hw, false, addr, n, last).0 <==> n > 0 && last == 0
    decreases n
  {
    if n > 0 && last != 0 {
      AckPollAllReadsFail(hw, addr, n - 1, last);
    }
  }

  // ---------------------------------------------------------------------
  // Symbol lookup and argument guards
  // ---------------------------------------------------------------------

  /** `find_symbol` on a table: the address of the first entry with the id, or 0. */
  function SymbolAddr(table: seq<Sym>, id: word): word
  {
    if table == [] then 0
    else if table[0].symId == id then table[0].symAddr
    else SymbolAddr(table[1..], id)
  }

  /** The lookup gives 0 when no entry has the id, and the first such entry's address otherwise. */
  lemma {:induction false} SymbolAddrFirst(table: seq<Sym>, id: word)
    ensures (forall i | 0 <= i < |table| :: table[i].symId != id) ==> SymbolAddr(table, id) == 0
    ensures forall i | 0 <= i < |table| && table[i].symId == id && (forall j | 0 <= j < i :: table[j].symId != id)
      :: SymbolAddr(table, id) == table[i].symAddr
  {
    if table != [] && table[0].symId != id {
      SymbolAddrFirst(table[1..], id);
      forall i | 0 < i < |table| && table[i].symId == id && (forall j | 0 <= j < i :: table[j].symId != id)
        ensures SymbolAddr(table, id) == table[i].symAddr
      {
        assert table[1..][i - 1] == table[i];
        assert forall j | 0 <= j < i - 1 :: table[1..][j].symId != id by {
          forall j | 0 <= j < i - 1 ensures table[1..][j].symId != id {
            assert table[1..][j] == table[j + 1];
          }
        }
      }
    }
  }

  /** `find_symbol` on a possibly NULL firmware description. */
  function FwSymbol(fw: Option<FwInfo>, id: word): word
  {
    if fw.None? then 0 else SymbolAddr(fw.value.symTable, id)
  }

  /** The first non-zero `find_symbol` result over DSPs `i..`, or 0. */
  function FirstDspSymbol(dsps: seq<Dsp>, i: nat, id: word): (r: word)
    requires i <= |dsps|
    ensures r != 0 ==> exists k | i <= k < |dsps| :: r == FwSymbol(dsps[k].fwInfo, id)
    ensures (forall k | i <= k < |dsps| :: FwSymbol(dsps[k].fwInfo, id) == 0) ==> r == 0
    decreases |dsps| - i
  {
    if i == |dsps| then 0
    else if FwSymbol(dsps[i].fwInfo, id) != 0 then FwSymbol(dsps[i].fwInfo, id)
    else FirstDspSymbol(dsps, i + 1, id)
  }

  /**
   * `cs47l63_find_symbol`: 0 (`false`) for a core number above NUM_DSP,
   * the given core's table for 1..NUM_DSP, and every core for 0.
   */
  function DspSymbol(dsps: seq<Dsp>, dspCore: u32, id: word): (r: word)
    requires |dsps| == NUM_DSP
    ensures dspCore > NUM_DSP ==> r == 0
    ensures 1 <= dspCore <= NUM_DSP ==> r == FwSymbol(dsps[dspCore - 1].fwInfo, id)
    ensures dspCore == 0 ==> r == FirstDspSymbol(dsps, 0, id)
  {
    if dspCore > NUM_DSP then 0
    else if dspCore != 0 then FwSymbol(dsps[dspCore - 1].fwInfo, id)
    else FirstDspSymbol(dsps, 0, id)
  }

  /** Arguments `cs47l63_write_block`/`read_block` accept: a buffer, and a non-zero multiple of 4 bytes. */
  predicate BlockArgsOk(dataGiven: bool, length: u32)
  {
    dataGiven && length != 0 && length % 4 == 0
  }

  /** A block that passes the guard holds at least one whole register. */
  lemma BlockArgsWholeRegisters(dataGiven: bool, length: u32)
    ensures BlockArgsOk(dataGiven, length) <==> dataGiven && length >= 4 && length % 4 == 0
  {
  }

  /** Core numbers `cs47l63_boot` and `cs47l63_power` accept. */
  predicate CoreInRange(dspCore: u32)
  {
    !(dspCore > NUM_DSP || dspCore == 0)
  }

  lemma CoreInRangeIsCoreOne(dspCore: u32)
    ensures CoreInRange(dspCore) <==> dspCore == 1
  {
  }

  // ---------------------------------------------------------------------
  // Interrupt events
  // ---------------------------------------------------------------------

  /** `value & mask` is non-zero. */
  predicate Hit(value: word, mask: word)
  {
    value & mask != 0
  }

  /**
   * What the event scan leaves: whether every read succeeded, the flags
   * collected (kept in `event_flags` even when a read fails), the value
   * tested for each entry reached, and the register file.
   */
  datatype Scan = Scan(ok: bool, flags: set<Event>, seen: seq<word>, hw: Hw)

  /** The status register entry `i` of an event table lives in. */
  function EntryReg(tbl: seq<IrqReg>, i: nat): word
    requires i < |tbl|
  {
    IRQ1_EINT_1 + tbl[i].offset
  }

  /** How the scan obtains entry `i`'s value: a read of its register unless that was the one read last. */
  function EntryRead(hw: Hw, spi: bool, tbl: seq<IrqReg>, i: nat, oldReg: word, tmp: word): (Option<word>, Hw)
    requires i < |tbl|
  {
    var reg := EntryReg(tbl, i);
    if oldReg != reg then ReadRegSpec(hw, spi, reg) else (Some(tmp), hw)
  }

  /** What testing value `t` against entry `i` does to the register file: a set bit is written back. */
  function EntryAck(hw: Hw, spi: bool, tbl: seq<IrqReg>, i: nat, t: word): Hw
    requires i < |tbl|
  {
    if Hit(t, tbl[i].mask) then WriteRegSpec(hw, spi, EntryReg(tbl, i), tbl[i].mask).1 else hw
  }

  /** What testing value `t` against entry `i` does to the flags: a set bit adds the entry's flag. */
  function EntryFlags(flags: set<Event>, tbl: seq<IrqReg>, i: nat, t: word): set<Event>
    requires i < |tbl|
  {
    if Hit(t, tbl[i].mask) then flags + {tbl[i].flag} else flags
  }

  /**
   * The loop of `cs47l63_event_handler` over the table `tbl` from entry `i`
   * on: `oldReg` is the register read last and `tmp` the value it gave.  A
   * register is read only when it differs from `oldReg`; a set mask bit
   * adds the entry's flag and writes the mask back (the result of that
   * write is ignored).
   */
  function EventScan(hw: Hw, spi: bool, tbl: seq<IrqReg>, i: nat, oldReg: word, tmp: word, flags: set<Event>, seen: seq<word>): (r: Scan)
    requires i <= |tbl|
    decreases |tbl| - i
  {
    if i == |tbl| then Scan(true, flags, seen, hw)
    else
      var rd := EntryRead(hw, spi, tbl, i, oldReg, tmp);
      if rd.0.None? then Scan(false, flags, seen, rd.1)
      else
        var t := rd.0.value;
        EventScan(EntryAck(rd.1, spi, tbl, i, t), spi, tbl, i + 1, EntryReg(tbl, i), t, EntryFlags(flags, tbl, i, t), seen + [t])
  }

  /**
   * `cs47l63_event_handler`: the flags start empty and `old_reg` at 0;
   * `stale` is the indeterminate initial `temp_reg_val`, which the first
   * entry never uses because its register is not 0.
   */
  function EventHandlerSpec(hw: Hw, spi: bool, stale: word): Scan
  {
    EventScan(hw, spi, EVENT_DATA, 0, 0, stale, {}, [])
  }

  /** One step of the scan, for an entry whose value `t` has been obtained. */
  lemma EventScanStep(hw: Hw, spi: bool, tbl: seq<IrqReg>, i: nat, oldReg: word, tmp: word, flags: set<Event>, seen: seq<word>)
    requires i < |tbl|
    requires EntryRead(hw, spi, tbl, i, oldReg, tmp).0.Some?
    ensures var rd := EntryRead(hw, spi, tbl, i, oldReg, tmp);
      var t := rd.0.value;
      EventScan(hw, spi, tbl, i, oldReg, tmp, flags, seen)
        == EventScan(EntryAck(rd.1, spi, tbl, i, t), spi, tbl, i + 1, EntryReg(tbl, i), t, EntryFlags(flags, tbl, i, t), seen + [t])
  {
  }

  /** The flags of the entries below `n` whose tested value has the entry's mask bit set. */
  function Hits(tbl: seq<IrqReg>, seen: seq<word>, n: nat): (r: set<Event>)
    requires n <= |seen| && n <= |tbl|
  {
    set j | 0 <= j < n && Hit(seen[j], tbl[j].mask) :: tbl[j].flag
  }

  lemma HitsStep(tbl: seq<IrqReg>, seen: seq<word>, t: word, n: nat)
    requires n == |seen| && n < |tbl|
    ensures Hits(tbl, seen + [t], n + 1)
      == Hits(tbl, seen, n) + (if Hit(t, tbl[n].mask) then {tbl[n].flag} else {})
  {
    var s' := seen + [t];
    assert forall j | 0 <= j < n :: s'[j] == seen[j];
  }

  /** Every tested value of an entry that shares the previous entry's register is that entry's value. */
  predicate ReusesReads(tbl: seq<IrqReg>, seen: seq<word>)
    requires |seen| <= |tbl|
  {
    forall j | 0 < j < |seen| && tbl[j].offset == tbl[j - 1].offset :: seen[j] == seen[j - 1]
  }

  /** Appending the value tested for the next entry keeps `ReusesReads` when that entry's register repeats the previous one's value. */
  lemma ReusesAppend(tbl: seq<IrqReg>, seen: seq<word>, t: word)
    requires |seen| < |tbl| && ReusesReads(tbl, seen)
    requires |seen| > 0 && tbl[|seen|].offset == tbl[|seen| - 1].offset ==> t == seen[|seen| - 1]
    ensures ReusesReads(tbl, seen + [t])
  {
    var s' := seen + [t];
    assert forall j | 0 <= j < |seen| :: s'[j] == seen[j];
  }

  /** The scan tests one value per entry reached, and succeeds iff it reaches them all. */
  lemma {:induction false} EventScanLength(hw: Hw, spi: bool, tbl: seq<IrqReg>, i: nat, oldReg: word, tmp: word, flags: set<Event>, seen: seq<word>)
    requires i <= |tbl| && |seen| == i
    ensures var r := EventScan(hw, spi, tbl, i, oldReg, tmp, flags, seen);
      i <= |r.seen| <= |tbl| && (r.ok <==> |r.seen| == |tbl|)
    decreases |tbl| - i
  {
    if i < |tbl| {
      var reg := EntryReg(tbl, i);
      var rd := EntryRead(hw, spi, tbl, i, oldReg, tmp);
      if rd.0.Some? {
        var t := rd.0.value;
        EventScanStep(hw, spi, tbl, i, oldReg, tmp, flags, seen);
        EventScanLength(EntryAck(rd.1, spi, tbl, i, t), spi, tbl, i + 1, reg, t, EntryFlags(flags, tbl, i, t), seen + [t]);
      }
    }
  }

  /** An entry whose register is the previous entry's is tested against the value read for that one. */
  lemma {:induction false} EventScanReuse(hw: Hw, spi: bool, tbl: seq<IrqReg>, i: nat, oldReg: word, tmp: word, flags: set<Event>, seen: seq<word>)
    requires i <= |tbl| && |seen| == i && ReusesReads(tbl, seen)
    requires i > 0 ==> oldReg == EntryReg(tbl, i - 1) && tmp == seen[i - 1]
    ensures var r := EventScan(hw, spi, tbl, i, oldReg, tmp, flags, seen);
      |r.seen| <= |tbl| ==> ReusesReads(tbl, r.seen)
    decreases |tbl| - i
  {
    if i < |tbl| {
      var reg := EntryReg(tbl, i);
      var rd := EntryRead(hw, spi, tbl, i, oldReg, tmp);
      if rd.0.Some? {
        var t := rd.0.value;
        var e := tbl[i];
        EventScanStep(hw, spi, tbl, i, oldReg, tmp, flags, seen);
        var s' := seen + [t];
        if i > 0 && e.offset == tbl[i - 1].offset {
          assert oldReg == reg;
        }
        ReusesAppend(tbl, seen, t);
        EventScanReuse(EntryAck(rd.1, spi, tbl, i, t), spi, tbl, i + 1, reg, t, EntryFlags(flags, tbl, i, t), s');
      }
    }
  }

  /**
   * The flags the scan collects are exactly those of the entries whose
   * tested value has the entry's mask bit set (on failure: of the entries
   * reached).
   */
  lemma {:induction false} EventScanFlags(hw: Hw, spi: bool, tbl: seq<IrqReg>, i: nat, oldReg: word, tmp: word, flags: set<Event>, seen: seq<word>)
    requires i <= |tbl| && |seen| == i && flags == Hits(tbl, seen, i)
    ensures var r := EventScan(hw, spi, tbl, i, oldReg, tmp, flags, seen);
      |r.seen| <= |tbl| ==> r.flags == Hits(tbl, r.seen, |r.seen|)
    decreases |tbl| - i
  {
    if i < |tbl| {
      var reg := EntryReg(tbl, i);
      var rd := EntryRead(hw, spi, tbl, i, oldReg, tmp);
      if rd.0.Some? {
        var t := rd.0.value;
        EventScanStep(hw, spi, tbl, i, oldReg, tmp, flags, seen);
        HitsStep(tbl, seen, t, i);
        EventScanFlags(EntryAck(rd.1, spi, tbl, i, t), spi, tbl, i + 1, reg, t, EntryFlags(flags, tbl, i, t), seen + [t]);
      }
    }
  }

  /**
   * `cs47l63_event_handler` as a whole: it succeeds iff it has tested every
   * entry, it reports exactly the events whose bit was set in the value
   * tested for them, and entries sharing a status register with the entry
   * before them reuse that entry's read.
   */
  lemma EventHandlerFlags(hw: Hw, spi: bool, stale: word)
    ensures var r := EventHandlerSpec(hw, spi, stale);
      |r.seen| <= |EVENT_DATA| && (r.ok <==> |r.seen| == |EVENT_DATA|)
      && r.flags == Hits(EVENT_DATA, r.seen, |r.seen|) && ReusesReads(EVENT_DATA, r.seen)
  {
    EventScanLength(hw, spi, EVENT_DATA, 0, 0, stale, {}, []);
    EventScanReuse(hw, spi, EVENT_DATA, 0, 0, stale, {}, []);
    EventScanFlags(hw, spi, EVENT_DATA, 0, 0, stale, {}, []);
  }

  /** Off the SPI bus the first read fails and no event is reported. */
  lemma EventHandlerOffSpi(hw: Hw, stale: word)
    ensures EventHandlerSpec(hw, false, stale) == Scan(false, {}, [], hw)
  {
  }

  // ---------------------------------------------------------------------
  // The driver's state and mode machine
  // ---------------------------------------------------------------------

  /**
   * The driver fields `cs47l63_process` works on, and the notifications
   * delivered so far (each call of the notification callback adds the flags
   * it was given).
   */
  datatype Ctl = Ctl(state: State, mode: Mode, flags: set<Event>, notified: seq<set<Event>>)

  /** `cs47l63_irq_callback`: only a BSP_STATUS_OK interrupt asks for event handling. */
  function IrqCallbackSpec(c: Ctl, status: int): (r: Ctl)
    ensures r.state == c.state && r.flags == c.flags && r.notified == c.notified
    ensures r.mode == if status == BSP_STATUS_OK then HandlingEvents else c.mode
  {
    if status == BSP_STATUS_OK then c.(mode := HandlingEvents) else c
  }

  /** The pending flags go to the callback, if there is one, and are cleared. */
  function Deliver(c: Ctl, cb: bool): Ctl
  {
    if c.flags != {} then
      c.(flags := {}, notified := if cb then c.notified + [c.flags] else c.notified)
    else c
  }

  /**
   * `cs47l63_process`: `cb` says whether a notification callback is
   * configured and `stale` is the handler's initial `temp_reg_val`.
   */
  function ProcessSpec(c: Ctl, hw: Hw, spi: bool, cb: bool, stale: word): (bool, Ctl, Hw)
  {
    if c.state == Unconfigured || c.state == Error then (true, c, hw)
    else if c.mode == HandlingEvents && c.state == Standby then
      var e := EventHandlerSpec(hw, spi, stale);
      if e.ok then (true, Deliver(c.(mode := HandlingControls, flags := e.flags), cb), e.hw)
      else (false, c.(flags := e.flags), e.hw)
    else (true, Deliver(c.(mode := HandlingControls), cb), hw)
  }

  /** In UNCONFIGURED and ERROR `process` succeeds and changes nothing. */
  lemma ProcessIdle(c: Ctl, hw: Hw, spi: bool, cb: bool, stale: word)
    requires c.state == Unconfigured || c.state == Error
    ensures ProcessSpec(c, hw, spi, cb, stale) == (true, c, hw)
  {
  }

  /**
   * Outside UNCONFIGURED and ERROR: `process` fails only when it handled
   * events in STANDBY and the handler failed, and then leaves the mode at
   * HANDLING_EVENTS and the flags collected so far pending.  Otherwise the
   * mode ends in HANDLING_CONTROLS, the state is unchanged, the pending
   * flags (the handler's, when it ran) are delivered once if a callback
   * exists, and none remain.
   */
  lemma ProcessOutcome(c: Ctl, hw: Hw, spi: bool, cb: bool, stale: word)
    requires c.state != Unconfigured && c.state != Error
    ensures var r := ProcessSpec(c, hw, spi, cb, stale);
      var handled := c.mode == HandlingEvents && c.state == Standby;
      var e := EventHandlerSpec(hw, spi, stale);
      var pending := if handled then e.flags else c.flags;
      r.1.state == c.state
      && (!r.0 <==> handled && !e.ok)
      && (!r.0 ==> r.1.mode == HandlingEvents && r.1.flags == e.flags && r.1.notified == c.notified)
      && (r.0 ==> (r.1.mode == HandlingControls && r.1.flags == {}
                   && r.1.notified == c.notified + (if cb && pending != {} then [pending] else [])))
      && r.2 == if handled then e.hw else hw
  {
  }

  // ---------------------------------------------------------------------
  // Initialisation, configuration and reset
  // ---------------------------------------------------------------------

  /** The boot-done poll of `cs47l63_reset` after `done` reads. */
  function BootPoll(hw: Hw, spi: bool, done: nat): (r: (bool, Hw))
    requires done <= BOOT_POLL_MAX
    decreases BOOT_POLL_MAX - done
  {
    var rd := ReadRegSpec(hw, spi, IRQ1_EINT_2);
    if rd.0.None? then (false, rd.1)
    else if done + 1 > BOOT_POLL_MAX then (false, rd.1)
    else if Hit(rd.0.value, BOOT_DONE_EINT1_MASK) then (true, rd.1)
    else BootPoll(rd.1, spi, done + 1)
  }

  /** A successful read of a scripted address consumes the script's first value. */
  lemma ReadRegConsumes(hw: Hw, addr: word)
    requires addr < 0x8000_0000 && addr !in hw.readFail && Scripted(hw, addr)
    ensures var rd := ReadRegSpec(hw, true, addr);
      rd.0 == Some(Script(hw, addr)[0]) && Script(rd.1, addr) == Script(hw, addr)[1..]
  {
    ReadRegValue(hw, addr);
    HeaderAddrDecodes(addr);
  }

  /**
   * With BOOT_DONE driven by a status script of at least 21 values and no
   * failing read, the poll succeeds iff one of the first `20 - done` values
   * has the BOOT_DONE bit: the 21st read is made but its value is never
   * tested.
   */
  lemma {:induction false} BootPollOutcome(hw: Hw, done: nat)
    requires done <= BOOT_POLL_MAX && IRQ1_EINT_2 !in hw.readFail
    requires |Script(hw, IRQ1_EINT_2)| > BOOT_POLL_MAX - done
    ensures BootPoll(hw, true, done).0 <==>
      exists k | 0 <= k < BOOT_POLL_MAX - done :: Hit(Script(hw, IRQ1_EINT_2)[k], BOOT_DONE_EINT1_MASK)
    decreases BOOT_POLL_MAX - done
  {
    var s := Script(hw, IRQ1_EINT_2);
    ReadRegConsumes(hw, IRQ1_EINT_2);
    var rd := ReadRegSpec(hw, true, IRQ1_EINT_2);
    if done < BOOT_POLL_MAX && !Hit(s[0], BOOT_DONE_EINT1_MASK) {
      BootPollOutcome(rd.1, done + 1);
      var s' := Script(rd.1, IRQ1_EINT_2);
      assert forall k | 0 <= k < BOOT_POLL_MAX - done - 1 :: s'[k] == s[k + 1];
      if exists k | 0 <= k < BOOT_POLL_MAX - done :: Hit(s[k], BOOT_DONE_EINT1_MASK) {
        var k :| 0 <= k < BOOT_POLL_MAX - done && Hit(s[k], BOOT_DONE_EINT1_MASK);
        assert k > 0 && Hit(s'[k - 1], BOOT_DONE_EINT1_MASK);
      }
    }
  }

  /** The raw writes of the system configuration table (every mask is all ones). */
  function SyscfgWrites(regs: seq<SyscfgReg>): (r: seq<RegWrite>)
    ensures |r| == |regs|
    ensures forall k | 0 <= k < |regs| :: r[k] == RegWrite(regs[k].address, regs[k].value, 0)
  {
    if regs == [] then [] else [RegWrite(regs[0].address, regs[0].value, 0)] + SyscfgWrites(regs[1..])
  }

  /** The interrupt unmasking of `cs47l63_reset` from table entry `i` on, stopping at the first failure. */
  function Unmask(hw: Hw, spi: bool, i: nat): (r: (bool, Hw))
    requires 1 <= i <= |EVENT_DATA|
    decreases |EVENT_DATA| - i
  {
    if i == |EVENT_DATA| then (true, hw)
    else
      var u := UpdateRegSpec(hw, spi, IRQ1_MASK_1 + EVENT_DATA[i].offset, EVENT_DATA[i].mask, 0);
      if !u.0 then (false, u.1) else Unmask(u.1, spi, i + 1)
  }

  /** What `cs47l63_reset` leaves: its result, the ids it stored and the register file. */
  datatype ResetOut = ResetOut(ok: bool, devid: Option<word>, revid: Option<word>, hw: Hw)

  /**
   * `cs47l63_reset` after the GPIO and supply steps: poll for BOOT_DONE,
   * read DEVID and REVID, write the system configuration, unmask the
   * interrupts of table entries 1.. (entry 0, BOOT_DONE, is unmasked by
   * default).  Any failure ends the call at once.
   */
  function ResetSpec(hw: Hw, spi: bool, syscfg: seq<SyscfgReg>): ResetOut
  {
    var p := BootPoll(hw, spi, 0);
    if !p.0 then ResetOut(false, None, None, p.1) else ResetIds(p.1, spi, syscfg)
  }

  /** The rest of the reset once BOOT_DONE has been seen: read DEVID, then go on. */
  function ResetIds(hw: Hw, spi: bool, syscfg: seq<SyscfgReg>): ResetOut
  {
    var d := ReadRegSpec(hw, spi, DEVID);
    if d.0.None? then ResetOut(false, None, None, d.1) else ResetRevid(d.1, spi, syscfg, d.0.value)
  }

  /** The rest of the reset once DEVID is stored: read REVID, then configure. */
  function ResetRevid(hw: Hw, spi: bool, syscfg: seq<SyscfgReg>, devid: word): ResetOut
  {
    var v := ReadRegSpec(hw, spi, REVID);
    if v.0.None? then ResetOut(false, Some(devid), None, v.1)
    else
      var c := ResetConfigure(v.1, spi, syscfg);
      ResetOut(c.0, Some(devid), v.0, c.1)
  }

  /** The rest of the reset once both ids are stored: the configuration writes, then the unmasking. */
  function ResetConfigure(hw: Hw, spi: bool, syscfg: seq<SyscfgReg>): (bool, Hw)
  {
    var w := WriteAll(hw, spi, SyscfgWrites(syscfg));
    if !w.0 then w else Unmask(w.1, spi, 1)
  }

  /** A reset succeeds only if the boot-done poll succeeded, and then both ids are stored. */
  lemma ResetSucceeds(hw: Hw, spi: bool, syscfg: seq<SyscfgReg>)
    ensures var r := ResetSpec(hw, spi, syscfg);
      r.ok ==> BootPoll(hw, spi, 0).0 && r.devid.Some? && r.revid.Some?
  {
    var p := BootPoll(hw, spi, 0);
    if p.0 {
      var d := ReadRegSpec(p.1, spi, DEVID);
      if d.0.Some? {
        var v := ReadRegSpec(d.1, spi, REVID);
        if v.0.Some? {
          var c := ResetConfigure(v.1, spi, syscfg);
          assert ResetSpec(hw, spi, syscfg) == ResetOut(c.0, d.0, v.0, c.1);
        }
      }
    }
  }

  /** After a failed boot-done poll nothing else is attempted and no id is stored. */
  lemma ResetPollFails(hw: Hw, spi: bool, syscfg: seq<SyscfgReg>)
    requires !BootPoll(hw, spi, 0).0
    ensures ResetSpec(hw, spi, syscfg) == ResetOut(false, None, None, BootPoll(hw, spi, 0).1)
  {
  }

  /** Off the SPI bus the first poll read fails, so reset fails having changed nothing. */
  lemma ResetOffSpi(hw: Hw, syscfg: seq<SyscfgReg>)
    ensures ResetSpec(hw, false, syscfg) == ResetOut(false, None, None, hw)
  {
  }

  // ---------------------------------------------------------------------
  // Blocks, firmware hand-over and DSP power
  // ---------------------------------------------------------------------

  /**
   * `cs47l63_write_block`: the guard, then one bulk write of `length` bytes
   * (the bus type is not checked on this path).
   */
  function WriteBlockSpec(hw: Hw, addr: word, data: Option<seq<byte>>, length: u32): (r: (bool, Hw))
    requires data.Some? ==> length <= |data.value|
    ensures !BlockArgsOk(data.Some?, length) ==> r == (false, hw)
    ensures BlockArgsOk(data.Some?, length) ==> r == SpiWriteData(hw, BytesBE(addr), data.value[..length])
  {
    if !BlockArgsOk(data.Some?, length) then (false, hw)
    else SpiWriteData(hw, BytesBE(addr), data.value[..length])
  }

  /** `cs47l63_read_block`: the guard, then one bulk read with the read bit set. */
  function ReadBlockSpec(hw: Hw, addr: word, dataGiven: bool, length: u32): (r: (Option<seq<byte>>, Hw))
    ensures !BlockArgsOk(dataGiven, length) ==> r == (None, hw)
    ensures BlockArgsOk(dataGiven, length) ==> r == SpiReadLen(hw, ReadHeader(addr), length)
  {
    if !BlockArgsOk(dataGiven, length) then (None, hw)
    else SpiReadLen(hw, ReadHeader(addr), length)
  }

  /**
   * A block accepted by the guard is one transfer of whole registers; on a
   * device address with no failure it stores each of its words at
   * consecutive registers.
   */
  lemma WriteBlockStores(hw: Hw, addr: word, data: seq<byte>, length: u32)
    requires length <= |data| && BlockArgsOk(true, length)
    requires addr < 0x8000_0000 && addr !in hw.writeFail
    ensures var r := WriteBlockSpec(hw, addr, Some(data), length);
      r.0 && r.1.regs == StoreWords(hw, addr, data[..length])
      && r.1.trace == hw.trace + [SpiWrite(BytesBE(addr), data[..length])]
  {
    HeaderAddrDecodes(addr);
  }

  /** `cs47l63_boot`: attach (or, with `None`, detach) the firmware description of a core. */
  function BootSpec(dsps: seq<Dsp>, dspCore: u32, fw: Option<FwInfo>): (r: (bool, seq<Dsp>))
    requires |dsps| == NUM_DSP
    ensures !CoreInRange(dspCore) ==> r == (false, dsps)
    ensures CoreInRange(dspCore) ==> r.0 && r.1 == dsps[dspCore - 1 := dsps[dspCore - 1].(fwInfo := fw)]
  {
    if !CoreInRange(dspCore) then (false, dsps)
    else (true, dsps[dspCore - 1 := dsps[dspCore - 1].(fwInfo := fw)])
  }

  /** After a successful boot call, symbol lookup on that core searches the new firmware. */
  lemma BootThenFindSymbol(dsps: seq<Dsp>, fw: FwInfo, id: word)
    requires |dsps| == NUM_DSP
    ensures var r := BootSpec(dsps, 1, Some(fw));
      r.0 && DspSymbol(r.1, 1, id) == SymbolAddr(fw.symTable, id)
  {
  }

  /** The MPU configuration `cs47l63_power_up` writes: unlock, open all four regions, lock. */
  function PowerUpConfig(base: word): (r: seq<RegWrite>)
    ensures |r| == 23
    ensures r[0] == RegWrite(base + DSP_OFF_MPU_LOCK_CONFIG, REGION_UNLOCK_CODE0, 0)
    ensures r[1] == RegWrite(base + DSP_OFF_MPU_LOCK_CONFIG, REGION_UNLOCK_CODE1, 0)
    ensures r[22] == RegWrite(base + DSP_OFF_MPU_LOCK_CONFIG, REGION_LOCK_CODE, 0)
    ensures forall k | 0 <= k < 23 :: r[k].delayUs == 0
  {
    [ RegWrite(base + DSP_OFF_MPU_LOCK_CONFIG, REGION_UNLOCK_CODE0, 0),
      RegWrite(base + DSP_OFF_MPU_LOCK_CONFIG, REGION_UNLOCK_CODE1, 0),
      RegWrite(base + DSP_OFF_MPU_XMEM_ACCESS_0, 0xFFFF_FFFF, 0),
      RegWrite(base + DSP_OFF_MPU_YMEM_ACCESS_0, 0xFFFF_FFFF, 0),
      RegWrite(base + DSP_OFF_MPU_WINDOW_ACCESS_0, 0, 0),
      RegWrite(base + DSP_OFF_MPU_XREG_ACCESS_0, 0, 0),
      RegWrite(base + DSP_OFF_MPU_YREG_ACCESS_0, 0, 0),
      RegWrite(base + DSP_OFF_MPU_XMEM_ACCESS_1, 0xFFFF_FFFF, 0),
      RegWrite(base + DSP_OFF_MPU_YMEM_ACCESS_1, 0xFFFF_FFFF, 0),
      RegWrite(base + DSP_OFF_MPU_WINDOW_ACCESS_1, 0, 0),
      RegWrite(base + DSP_OFF_MPU_XREG_ACCESS_1, 0, 0),
      RegWrite(base + DSP_OFF_MPU_YREG_ACCESS_1, 0, 0),
      RegWrite(base + DSP_OFF_MPU_XMEM_ACCESS_2, 0xFFFF_FFFF, 0),
      RegWrite(base + DSP_OFF_MPU_YMEM_ACCESS_2, 0xFFFF_FFFF, 0),
      RegWrite(base + DSP_OFF_MPU_WINDOW_ACCESS_2, 0, 0),
      RegWrite(base + DSP_OFF_MPU_XREG_ACCESS_2, 0, 0),
      RegWrite(base + DSP_OFF_MPU_YREG_ACCESS_2, 0, 0),
      RegWrite(base + DSP_OFF_MPU_XMEM_ACCESS_3, 0xFFFF_FFFF, 0),
      RegWrite(base + DSP_OFF_MPU_YMEM_ACCESS_3, 0xFFFF_FFFF, 0),
      RegWrite(base + DSP_OFF_MPU_WINDOW_ACCESS_3, 0, 0),
      RegWrite(base + DSP_OFF_MPU_XREG_ACCESS_3, 0, 0),
      RegWrite(base + DSP_OFF_MPU_YREG_ACCESS_3, 0, 0),
      RegWrite(base + DSP_OFF_MPU_LOCK_CONFIG, REGION_LOCK_CODE, 0)
    ]
  }

  /** The DSP clock frequency field of a DSP_CLOCK1 value. */
  function ClockFreq(v: word): word
  {
    (v & DSP_CLK_FREQ_MASK) >> DSP_CLK_FREQ_SHIFT
  }

  /**
   * `cs47l63_power_up`: the MPU sequence, enable the DSP clock, copy the
   * clock frequency into the core's frequency register, enable the core.
   */
  function PowerUpSpec(hw: Hw, spi: bool, base: word): (bool, Hw)
  {
    var s := SequenceSpec(hw, spi, PowerUpConfig(base));
    if !s.0 then (false, s.1)
    else
      var c := UpdateRegSpec(s.1, spi, DSP_CLOCK1, DSP_CLK_EN_MASK, DSP_CLK_EN);
      if !c.0 then (false, c.1)
      else
        var rd := ReadRegSpec(c.1, spi, DSP_CLOCK1);
        if rd.0.None? then (false, rd.1)
        else
          var f := UpdateRegSpec(rd.1, spi, base + DSP_OFF_CLOCK_FREQ, DSP1_CLK_FREQ_SEL_MASK, ClockFreq(rd.0.value));
          if !f.0 then (false, f.1)
          else UpdateRegSpec(f.1, spi, base + DSP_OFF_CCM_CORE_CONTROL, DSP1_CCM_CORE_EN_MASK, DSP1_CCM_CORE_EN)
  }

  /**
   * `cs47l63_power_down`: stop the watchdog, disable the core, soft-reset
   * and stop the DSP clock.  The soft-reset update is addressed at
   * `CS47L63_DSP_OFF_CORE_SOFT_RESET` itself, not at the core's base plus
   * that offset as the other core registers are.
   */
  function PowerDownSpec(hw: Hw, spi: bool, base: word): (bool, Hw)
  {
    var w := UpdateRegSpec(hw, spi, base + DSP_OFF_WDT_CONTROL, DSP1_WDT_EN_MASK, 0);
    if !w.0 then (false, w.1)
    else
      var c := UpdateRegSpec(w.1, spi, base + DSP_OFF_CCM_CORE_CONTROL, DSP1_CCM_CORE_EN_MASK, 0);
      if !c.0 then (false, c.1)
      else
        var r := UpdateRegSpec(c.1, spi, DSP_OFF_CORE_SOFT_RESET, SFT_RESET_MASK, SFT_RESET_MASK);
        if !r.0 then (false, r.1)
        else UpdateRegSpec(r.1, spi, DSP_CLOCK1, DSP_CLK_EN_MASK, 0)
  }

  /**
   * The addresses a RAM-bank loop visits: `reg_start`, `reg_start + 4`, ...
   * while not above `reg_end`.
   */
  function BankAddrs(a: u32, regEnd: u32): (r: seq<u32>)
    requires regEnd < 0xFFFF_FFFC
    decreases regEnd + 4 - a
  {
    if a > regEnd then [] else [a] + BankAddrs(a + 4, regEnd)
  }

  /** The writes of `cs47l63_power_mem_ena` (`v` = ODD_EVEN) or `_dis` (`v` = 0) over all banks, in order. */
  function BankWrites(banks: seq<RamBank>, v: word): (r: seq<RegWrite>)
    requires BanksBounded(banks)
  {
    if banks == [] then []
    else AddrWrites(BankAddrs(banks[0].regStart, banks[0].regEnd), v) + BankWrites(banks[1..], v)
  }

  /**
   * The nested loops of `cs47l63_power_mem_ena`/`_dis` as they run: each
   * bank's setup registers in turn, stopping at the first failed write.
   */
  function BankLoop(hw: Hw, spi: bool, banks: seq<RamBank>, v: word): (bool, Hw)
    requires BanksBounded(banks)
    decreases |banks|
  {
    if banks == [] then (true, hw)
    else
      var x := WriteAll(hw, spi, AddrWrites(BankAddrs(banks[0].regStart, banks[0].regEnd), v));
      if !x.0 then x else BankLoop(x.1, spi, banks[1..], v)
  }

  /** The bank loops are the flat sequence of bank writes. */
  lemma {:induction false} BankLoopFlat(hw: Hw, spi: bool, banks: seq<RamBank>, v: word)
    requires BanksBounded(banks)
    ensures BankLoop(hw, spi, banks, v) == WriteAll(hw, spi, BankWrites(banks, v))
    decreases |banks|
  {
    if banks != [] {
      var a := AddrWrites(BankAddrs(banks[0].regStart, banks[0].regEnd), v);
      WriteAllAppend(hw, spi, a, BankWrites(banks[1..], v));
      var x := WriteAll(hw, spi, a);
      if x.0 {
        BankLoopFlat(x.1, spi, banks[1..], v);
      }
    }
  }

  /** One write of `v` per address. */
  function AddrWrites(addrs: seq<u32>, v: word): (r: seq<RegWrite>)
    ensures |r| == |addrs|
  {
    if addrs == [] then [] else [RegWrite(addrs[0] as word, v, 0)] + AddrWrites(addrs[1..], v)
  }

  /** `cs47l63_power`: the core guard, then the requested transition; unknown states fail. */
  function PowerSpec(hw: Hw, spi: bool, dsps: seq<Dsp>, dspCore: u32, powerState: u32): (bool, Hw)
    requires |dsps| == NUM_DSP && forall d | d in dsps :: BanksBounded(d.ramBanks)
  {
    if !CoreInRange(dspCore) then (false, hw)
    else
      var d := dsps[dspCore - 1];
      if powerState == POWER_MEM_ENA then WriteAll(hw, spi, BankWrites(d.ramBanks, DSP_RAM_BANK_ODD_EVEN))
      else if powerState == POWER_UP then PowerUpSpec(hw, spi, d.baseAddr)
      else if powerState == POWER_DOWN then PowerDownSpec(hw, spi, d.baseAddr)
      else if powerState == POWER_MEM_DIS then WriteAll(hw, spi, BankWrites(d.ramBanks, 0))
      else (false, hw)
  }

  /** A core other than 1, or an unknown power state, fails before any transaction. */
  lemma PowerRejects(hw: Hw, spi: bool, dsps: seq<Dsp>, dspCore: u32, powerState: u32)
    requires |dsps| == NUM_DSP && forall d | d in dsps :: BanksBounded(d.ramBanks)
    requires !CoreInRange(dspCore) || powerState !in {POWER_UP, POWER_DOWN, POWER_MEM_ENA, POWER_MEM_DIS}
    ensures PowerSpec(hw, spi, dsps, dspCore, powerState) == (false, hw)
  {
  }

  /**
   * Off the SPI bus the MPU sequence "succeeds" without a transaction and
   * the clock update then fails on its read, so power-up fails with nothing
   * sent.
   */
  lemma PowerUpOffSpi(hw: Hw, base: word)
    ensures PowerUpSpec(hw, false, base) == (false, hw)
  {
    WriteAllOffSpi(hw, PowerUpConfig(base));
  }

  /**
   * The bank loop visits exactly the addresses from the start to the end
   * that lie a multiple of 4 above the start, in increasing order.
   */
  lemma {:induction false} BankAddrsExact(a: u32, regEnd: u32)
    requires regEnd < 0xFFFF_FFFC
    ensures var r := BankAddrs(a, regEnd);
      (forall x :: x in r <==> a <= x <= regEnd && (x - a) % 4 == 0)
      && forall k | 0 <= k < |r| :: r[k] == a + 4 * k
    decreases regEnd + 4 - a
  {
    if a <= regEnd {
      BankAddrsExact(a + 4, regEnd);
      var r := BankAddrs(a, regEnd);
      assert r == [a] + BankAddrs(a + 4, regEnd);
      forall x
        ensures x in r <==> a <= x <= regEnd && (x - a) % 4 == 0
      {
        if a < x <= regEnd && (x - a) % 4 == 0 {
          assert (x - (a + 4)) % 4 == 0;
        }
        if x in BankAddrs(a + 4, regEnd) {
          assert (x - a) % 4 == ((x - (a + 4)) + 4) % 4;
        }
      }
    }
  }
}
