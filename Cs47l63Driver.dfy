/**
 * The CS47L63 driver state `cs47l63_t` and its API (cs47l63.c) as a class
 * over the board's SPI bus.  Each method is proved against the
 * specification function of module `Cs47l63` that describes the same
 * call; the properties of those functions are proved there.
 *
 * The notification callback's arguments are recorded in `notified`; the
 * BSP timer calls (`set_timer`) are delays the model leaves out.
 */
module Cs47l63Driver {
  import opened CInt
  import opened Wrappers
  import opened Cs47l63Bus
  import opened Cs47l63

  /** `find_symbol`: the first entry of the table with the id, or 0. */
  method FindSymbolIn(fw: Option<FwInfo>, id: word) returns (addr: word)
    ensures addr == FwSymbol(fw, id)
  {
    if fw.Some? {
      var table := fw.value.symTable;
      var i := 0;
      while i < |table|
        invariant 0 <= i <= |table|
        invariant SymbolAddr(table[i..], id) == SymbolAddr(table, id)
      {
        assert table[i..][1..] == table[i + 1..];
        if table[i].symId == id {
          return table[i].symAddr;
        }
        i := i + 1;
      }
    }
    return 0;
  }

  /** Writing the first entry of a list, then (if it was accepted) the rest. */
  lemma WriteAllCons(hw: Hw, spi: bool, w: RegWrite, rest: seq<RegWrite>)
    ensures var x := WriteRegSpec(hw, spi, w.addr, w.val);
      WriteAll(hw, spi, [w] + rest) == if !x.0 then (false, x.1) else WriteAll(x.1, spi, rest)
  {
    assert ([w] + rest)[1..] == rest;
  }

  /** Writing the entries of a list from `i` on: entry `i`, then (if it was accepted) those after it. */
  lemma WriteAllFrom(hw: Hw, spi: bool, ws: seq<RegWrite>, i: nat)
    requires i < |ws|
    ensures var x := WriteRegSpec(hw, spi, ws[i].addr, ws[i].val);
      WriteAll(hw, spi, ws[i..]) == if !x.0 then (false, x.1) else WriteAll(x.1, spi, ws[i + 1..])
  {
    assert ws[i..] == [ws[i]] + ws[i + 1..];
    WriteAllCons(hw, spi, ws[i], ws[i + 1..]);
  }

  class Driver {
    const bus: Bus
    var state: State
    var mode: Mode
    var eventFlags: set<Event>
    /** The flag sets passed to the notification callback, in order. */
    var notified: seq<set<Event>>
    var devid: word
    var revid: word
    var config: Config
    var dspInfo: seq<Dsp>

    /** One DSP core descriptor, whose RAM-bank loops all terminate. */
    predicate Valid()
      reads this
    {
      |dspInfo| == NUM_DSP && forall d | d in dspInfo :: BanksBounded(d.ramBanks)
    }

    /** The fields `cs47l63_process` works on. */
    function Control(): Ctl
      reads this
    {
      Ctl(state, mode, eventFlags, notified)
    }

    /** A driver state as `cs47l63_initialize` leaves it: all zero. */
    constructor (b: Bus)
      ensures bus == b && Valid()
      ensures state == Unconfigured && mode == HandlingControls && eventFlags == {} && notified == []
      ensures devid == 0 && revid == 0 && config == ZERO_CONFIG && dspInfo == [ZERO_DSP]
    {
      bus := b;
      state, mode, eventFlags, notified := Unconfigured, HandlingControls, {}, [];
      devid, revid, config, dspInfo := 0, 0, ZERO_CONFIG, [ZERO_DSP];
    }

    /** `cs47l63_initialize`: every member of the state back to 0 (UNCONFIGURED). */
    method Initialize() returns (status: int)
      modifies this`state, this`mode, this`eventFlags, this`devid, this`revid, this`config, this`dspInfo
      ensures status == STATUS_OK && Valid()
      ensures state == Unconfigured && mode == HandlingControls && eventFlags == {}
      ensures devid == 0 && revid == 0 && config == ZERO_CONFIG && dspInfo == [ZERO_DSP]
    {
      state, mode, eventFlags := Unconfigured, HandlingControls, {};
      devid, revid, config, dspInfo := 0, 0, ZERO_CONFIG, [ZERO_DSP];
      status := STATUS_OK;
    }

    /**
     * `cs47l63_configure`: `cfg == None` is a NULL configuration and
     * `gpioStatus` what the BSP's `register_gpio_cb` returns.
     */
    method Configure(cfg: Option<Config>, gpioStatus: int) returns (status: int)
      requires Valid()
      modifies this`config, this`dspInfo, this`state
      ensures Valid()
      ensures cfg.None? ==> status == STATUS_FAIL && config == old(config) && dspInfo == old(dspInfo) && state == old(state)
      ensures cfg.Some? ==> config == cfg.value && status == gpioStatus
      ensures cfg.Some? && gpioStatus == BSP_STATUS_FAIL ==> dspInfo == old(dspInfo) && state == old(state)
      ensures cfg.Some? && gpioStatus != BSP_STATUS_FAIL ==>
        state == Configured
        && dspInfo == old(dspInfo)[0 := Dsp(1, DSP_BASE_ADDR, DSP1_RAM_BANKS, old(dspInfo)[0].fwInfo)]
    {
      status := STATUS_FAIL;
      if cfg.Some? {
        config := cfg.value;
        status := gpioStatus;
        if status == BSP_STATUS_FAIL {
          return;
        }
        dspInfo := dspInfo[0 := Dsp(1, DSP_BASE_ADDR, DSP1_RAM_BANKS, dspInfo[0].fwInfo)];
        state := Configured;
      }
    }

    /**
     * `cs47l63_read_reg`: `prev` is what `*val` held before the call; a
     * failed read leaves it unchanged.
     */
    method ReadReg(addr: word, prev: word) returns (status: int, val: word)
      modifies bus
      ensures var r := ReadRegSpec(old(bus.hw), IsSpi(config), addr);
        bus.hw == r.1 && (status == STATUS_OK <==> r.0.Some?)
        && val == (if r.0.Some? then r.0.value else prev)
      ensures status == STATUS_OK || status == STATUS_FAIL
    {
      status, val := STATUS_FAIL, prev;
      if config.busType == BUS_TYPE_SPI {
        var header := ReadHeader(addr);
        ghost var x := SpiRead4(bus.hw, header);
        var bsp, data := bus.Read(header, 4);
        assert bus.hw == x.1 && (bsp == BSP_STATUS_OK <==> x.0.Some?) && (x.0.Some? ==> data == x.0.value);
        if bsp == BSP_STATUS_OK {
          val := WordBE(data);
          status := STATUS_OK;
        }
      }
    }

    /** `cs47l63_write_reg`: off the SPI bus nothing is sent and the call succeeds. */
    method WriteReg(addr: word, val: word) returns (status: int)
      modifies bus
      ensures var r := WriteRegSpec(old(bus.hw), IsSpi(config), addr, val);
        bus.hw == r.1 && (status == STATUS_OK <==> r.0)
      ensures status == STATUS_OK || status == STATUS_FAIL
    {
      var bsp := BSP_STATUS_OK;
      if config.busType == BUS_TYPE_SPI {
        bsp := bus.Write(BytesBE(addr), BytesBE(val));
      }
      status := if bsp == BSP_STATUS_OK then STATUS_OK else STATUS_FAIL;
    }

    /** `cs47l63_update_reg`: read, merge, and write back only a changed value. */
    method UpdateReg(addr: word, mask: word, val: word) returns (status: int)
      modifies bus
      ensures var r := UpdateRegSpec(old(bus.hw), IsSpi(config), addr, mask, val);
        bus.hw == r.1 && (status == STATUS_OK <==> r.0)
      ensures status == STATUS_OK || status == STATUS_FAIL
    {
      var ret, orig := ReadReg(addr, 0);
      if ret == STATUS_FAIL {
        return ret;
      }
      var tmp := Merge(orig, mask, val);
      if tmp != orig {
        ret := WriteReg(addr, tmp);
        if ret == STATUS_FAIL {
          return ret;
        }
      }
      return STATUS_OK;
    }

    /**
     * `cs47l63_write_acked_reg`: the write's result is ignored, then up to
     * POLL_ACK_CTRL_MAX reads wait for the register to read 0; `stale` is
     * the uninitialised `temp_val`.
     */
    method WriteAckedReg(addr: word, val: word, stale: word) returns (status: int)
      modifies bus
      ensures var r := WriteAckedSpec(old(bus.hw), IsSpi(config), addr, val, stale);
        bus.hw == r.1 && (status == STATUS_OK <==> r.0)
    {
      var _ := WriteReg(addr, val);
      ghost var spec := AckPoll(bus.hw, IsSpi(config), addr, POLL_ACK_CTRL_MAX, stale);
      var tempVal := stale;
      var count := 0;
      while count < POLL_ACK_CTRL_MAX
        invariant 0 <= count <= POLL_ACK_CTRL_MAX
        invariant AckPoll(bus.hw, IsSpi(config), addr, POLL_ACK_CTRL_MAX - count, tempVal) == spec
      {
        tempVal := AckReadStep(addr, tempVal);
        if tempVal == 0 {
          return STATUS_OK;
        }
        count := count + 1;
      }
      return STATUS_FAIL;
    }

    /** One read of the acknowledgement poll; a failed read leaves `last`. */
    method AckReadStep(addr: word, last: word) returns (t: word)
      modifies bus
      ensures (t, bus.hw) == AckRead(old(bus.hw), IsSpi(config), addr, last)
    {
      var _, v := ReadReg(addr, last);
      t := v;
    }

    /** `cs47l63_write_reg_sequence`: the entries in order, stopping at the first failure. */
    method WriteRegSequence(ws: seq<RegWrite>) returns (status: int)
      modifies bus
      ensures var r := SequenceSpec(old(bus.hw), IsSpi(config), ws);
        bus.hw == r.1 && (status == STATUS_OK <==> r.0)
    {
      var ret := STATUS_FAIL;
      var index := 0;
      while index < |ws|
        invariant 0 <= index <= |ws|
        invariant WriteAll(bus.hw, IsSpi(config), ws[index..]) == WriteAll(old(bus.hw), IsSpi(config), ws)
        invariant ret == if index == 0 then STATUS_FAIL else STATUS_OK
      {
        WriteAllFrom(bus.hw, IsSpi(config), ws, index);
        ret := WriteReg(ws[index].addr, ws[index].val);
        if ret != STATUS_OK {
          return STATUS_FAIL;
        }
        index := index + 1;
      }
      return ret;
    }

    /** `cs47l63_find_symbol`. */
    method FindSymbol(dspCore: u32, id: word) returns (addr: word)
      requires Valid()
      ensures addr == DspSymbol(dspInfo, dspCore, id)
    {
      if dspCore > NUM_DSP {
        return 0;
      }
      if dspCore != 0 {
        addr := FindSymbolIn(dspInfo[dspCore - 1].fwInfo, id);
        return;
      }
      var i := 0;
      while i < NUM_DSP
        invariant 0 <= i <= NUM_DSP
        invariant FirstDspSymbol(dspInfo, i, id) == FirstDspSymbol(dspInfo, 0, id)
      {
        addr := FindSymbolIn(dspInfo[i].fwInfo, id);
        if addr != 0 {
          return;
        }
        i := i + 1;
      }
      return 0;
    }

    /** `cs47l63_irq_callback`: a BSP_STATUS_OK interrupt asks `process` to handle events. */
    method IrqCallback(status: int)
      modifies this`mode
      ensures Control() == IrqCallbackSpec(old(Control()), status)
    {
      if status == BSP_STATUS_OK {
        mode := HandlingEvents;
      }
    }

    /**
     * `cs47l63_event_handler`: `stale` is the indeterminate initial
     * `temp_reg_val`.  The flags collected stay in `event_flags` when a
     * read fails.
     */
    method EventHandler(stale: word) returns (status: int)
      modifies this`eventFlags, bus
      ensures var e := EventHandlerSpec(old(bus.hw), IsSpi(config), stale);
        bus.hw == e.hw && eventFlags == e.flags && (status == STATUS_OK <==> e.ok)
    {
      eventFlags := {};
      var tempRegVal := stale;
      var oldReg: word := 0;
      ghost var seen: seq<word> := [];
      ghost var spec := EventHandlerSpec(bus.hw, IsSpi(config), stale);
      var i := 0;
      while i < |EVENT_DATA|
        invariant 0 <= i <= |EVENT_DATA| && |seen| == i
        invariant EventScan(bus.hw, IsSpi(config), EVENT_DATA, i, oldReg, tempRegVal, eventFlags, seen) == spec
      {
        var ok;
        ok, oldReg, tempRegVal := ScanEntry(i, oldReg, tempRegVal, seen);
        if !ok {
          return STATUS_FAIL;
        }
        seen := seen + [tempRegVal];
        i := i + 1;
      }
      return STATUS_OK;
    }

    /**
     * One entry of the event handler's loop: read the entry's register
     * unless it is the one read last, then test the entry's bit and, when
     * set, record the flag and write the bit back.
     */
    method ScanEntry(i: nat, oldReg: word, tmp: word, ghost seen: seq<word>) returns (ok: bool, reg: word, t: word)
      requires i < |EVENT_DATA|
      modifies this`eventFlags, bus
      ensures var s := EventScan(old(bus.hw), IsSpi(config), EVENT_DATA, i, oldReg, tmp, old(eventFlags), seen);
        if ok then s == EventScan(bus.hw, IsSpi(config), EVENT_DATA, i + 1, reg, t, eventFlags, seen + [t])
        else s == Scan(false, eventFlags, seen, bus.hw)
    {
      reg := IRQ1_EINT_1 + EVENT_DATA[i].offset;
      ok, t := FetchEntry(i, oldReg, tmp);
      if !ok {
        return false, reg, t;
      }
      EventScanStep(old(bus.hw), IsSpi(config), EVENT_DATA, i, oldReg, tmp, eventFlags, seen);
      AckEntry(i, reg, t);
    }

    /** The test part of one entry of the event handler's loop. */
    method AckEntry(i: nat, reg: word, t: word)
      requires i < |EVENT_DATA| && reg == EntryReg(EVENT_DATA, i)
      modifies this`eventFlags, bus
      ensures eventFlags == EntryFlags(old(eventFlags), EVENT_DATA, i, t)
      ensures bus.hw == EntryAck(old(bus.hw), IsSpi(config), EVENT_DATA, i, t)
    {
      if Hit(t, EVENT_DATA[i].mask) {
        eventFlags := eventFlags + {EVENT_DATA[i].flag};
        var _ := WriteReg(reg, EVENT_DATA[i].mask);
      }
    }

    /** The read part of one entry of the event handler's loop. */
    method FetchEntry(i: nat, oldReg: word, tmp: word) returns (ok: bool, t: word)
      requires i < |EVENT_DATA|
      modifies bus
      ensures var rd := EntryRead(old(bus.hw), IsSpi(config), EVENT_DATA, i, oldReg, tmp);
        bus.hw == rd.1 && (ok <==> rd.0.Some?) && (ok ==> t == rd.0.value)
    {
      var reg := IRQ1_EINT_1 + EVENT_DATA[i].offset;
      t := tmp;
      ok := true;
      if oldReg != reg {
        var ret;
        ret, t := ReadReg(reg, tmp);
        ok := ret == STATUS_OK;
      }
    }

    /**
     * `cs47l63_process`: `stale` is the event handler's initial
     * `temp_reg_val`; a configured notification callback receives the
     * pending flags.
     */
    method Process(stale: word) returns (status: int)
      modifies this`mode, this`eventFlags, this`notified, bus
      ensures var r := ProcessSpec(old(Control()), old(bus.hw), IsSpi(config), config.notificationCb, stale);
        (status == STATUS_OK <==> r.0) && Control() == r.1 && bus.hw == r.2
    {
      if state != Unconfigured && state != Error {
        if mode == HandlingEvents {
          if state == Standby {
            var ret := EventHandler(stale);
            if ret == STATUS_OK {
              mode := HandlingControls;
            } else {
              return STATUS_FAIL;
            }
          } else {
            mode := HandlingControls;
          }
        }
        if eventFlags != {} {
          if config.notificationCb {
            notified := notified + [eventFlags];
          }
          eventFlags := {};
        }
      }
      return STATUS_OK;
    }

    /** The BOOT_DONE poll of `cs47l63_reset`; `last` is the value read last. */
    method PollBootDone() returns (ok: bool, last: word)
      modifies bus
      ensures var p := BootPoll(old(bus.hw), IsSpi(config), 0);
        ok == p.0 && bus.hw == p.1
    {
      var iterTimeout := 0;
      last := 0;
      while true
        invariant iterTimeout <= BOOT_POLL_MAX
        invariant BootPoll(bus.hw, IsSpi(config), iterTimeout) == BootPoll(old(bus.hw), IsSpi(config), 0)
        decreases BOOT_POLL_MAX - iterTimeout
      {
        var ret;
        ret, last := ReadReg(IRQ1_EINT_2, last);
        if ret != STATUS_OK {
          return false, last;
        }
        iterTimeout := iterTimeout + 1;
        if iterTimeout > BOOT_POLL_MAX {
          return false, last;
        }
        if Hit(last, BOOT_DONE_EINT1_MASK) {
          return true, last;
        }
      }
    }

    /** The configuration-table loop of `cs47l63_reset`: raw writes, stopping at the first failure. */
    method WriteSyscfg() returns (status: int)
      modifies bus
      ensures var w := WriteAll(old(bus.hw), IsSpi(config), SyscfgWrites(config.syscfgRegs));
        bus.hw == w.1 && (status == STATUS_OK <==> w.0)
    {
      var regs := config.syscfgRegs;
      ghost var ws := SyscfgWrites(regs);
      var count := 0;
      while count < |regs|
        invariant 0 <= count <= |regs|
        invariant WriteAll(bus.hw, IsSpi(config), ws[count..]) == WriteAll(old(bus.hw), IsSpi(config), ws)
      {
        WriteAllFrom(bus.hw, IsSpi(config), ws, count);
        var ret := WriteReg(regs[count].address, regs[count].value);
        if ret != STATUS_OK {
          return STATUS_FAIL;
        }
        count := count + 1;
      }
      return STATUS_OK;
    }

    /** The unmasking loop of `cs47l63_reset`, from table entry 1 on. */
    method UnmaskIrqs() returns (status: int)
      modifies bus
      ensures var u := Unmask(old(bus.hw), IsSpi(config), 1);
        bus.hw == u.1 && (status == STATUS_OK <==> u.0)
    {
      var index := 1;
      while index < |EVENT_DATA|
        invariant 1 <= index <= |EVENT_DATA|
        invariant Unmask(bus.hw, IsSpi(config), index) == Unmask(old(bus.hw), IsSpi(config), 1)
      {
        var ret := UpdateReg(IRQ1_MASK_1 + EVENT_DATA[index].offset, EVENT_DATA[index].mask, 0);
        if ret != STATUS_OK {
          return STATUS_FAIL;
        }
        index := index + 1;
      }
      return STATUS_OK;
    }

    /**
     * `cs47l63_reset` after the GPIO, supply and delay steps: the ids are
     * stored as they are read, and STANDBY is reached only when every step
     * succeeded.
     */
    method Reset() returns (status: int)
      modifies bus, this`devid, this`revid, this`state
      ensures var r := ResetSpec(old(bus.hw), IsSpi(config), config.syscfgRegs);
        bus.hw == r.hw && (status == STATUS_OK <==> r.ok)
        && devid == (if r.devid.Some? then r.devid.value else old(devid))
        && revid == (if r.revid.Some? then r.revid.value else old(revid))
        && state == (if r.ok then Standby else old(state))
    {
      ghost var r := ResetSpec(bus.hw, IsSpi(config), config.syscfgRegs);
      var ok, tempRegVal := PollBootDone();
      if !ok {
        assert !r.ok && r.devid.None? && r.revid.None? && r.hw == bus.hw;
        return STATUS_FAIL;
      }
      assert r == ResetIds(bus.hw, IsSpi(config), config.syscfgRegs);
      status := ReadIds(tempRegVal);
    }

    /** `cs47l63_reset` once BOOT_DONE is seen: store DEVID as it is read, then go on. */
    method ReadIds(last: word) returns (status: int)
      modifies bus, this`devid, this`revid, this`state
      ensures var r := ResetIds(old(bus.hw), old(IsSpi(config)), old(config.syscfgRegs));
        bus.hw == r.hw && (status == STATUS_OK <==> r.ok)
        && devid == (if r.devid.Some? then r.devid.value else old(devid))
        && revid == (if r.revid.Some? then r.revid.value else old(revid))
        && state == (if r.ok then Standby else old(state))
    {
      ghost var cfg := config;
      ghost var r := ResetIds(bus.hw, IsSpi(cfg), cfg.syscfgRegs);
      ghost var d := ReadRegSpec(bus.hw, IsSpi(cfg), DEVID);
      var ret, tempRegVal := ReadReg(DEVID, last);
      if ret != STATUS_OK {
        assert !r.ok && r.devid.None? && r.revid.None? && r.hw == bus.hw;
        return STATUS_FAIL;
      }
      devid := tempRegVal;
      assert r == ResetRevid(bus.hw, IsSpi(cfg), cfg.syscfgRegs, devid);
      status := ReadRevid(IsSpi(cfg), cfg.syscfgRegs, tempRegVal);
    }

    /** `cs47l63_reset` once DEVID is stored: store REVID as it is read, then configure. */
    method ReadRevid(ghost spi: bool, ghost regs: seq<SyscfgReg>, last: word) returns (status: int)
      requires spi == IsSpi(config) && regs == config.syscfgRegs
      modifies bus, this`revid, this`state
      ensures var r := ResetRevid(old(bus.hw), spi, regs, devid);
        bus.hw == r.hw && (status == STATUS_OK <==> r.ok)
        && revid == (if r.revid.Some? then r.revid.value else old(revid))
        && state == (if r.ok then Standby else old(state))
    {
      ghost var r := ResetRevid(bus.hw, spi, regs, devid);
      ghost var v := ReadRegSpec(bus.hw, spi, REVID);
      var ret, tempRegVal := ReadReg(REVID, last);
      if ret != STATUS_OK {
        assert !r.ok && r.revid.None? && r.hw == bus.hw;
        return STATUS_FAIL;
      }
      revid := tempRegVal;
      ghost var c := ResetConfigure(bus.hw, spi, regs);
      assert r == ResetOut(c.0, Some(devid), v.0, c.1);
      status := ConfigureAfterReset(spi, regs);
    }

    /** The end of `cs47l63_reset`: configuration writes and unmasking, then STANDBY. */
    method ConfigureAfterReset(ghost spi: bool, ghost regs: seq<SyscfgReg>) returns (status: int)
      requires spi == IsSpi(config) && regs == config.syscfgRegs
      modifies bus, this`state
      ensures var r := ResetConfigure(old(bus.hw), spi, regs);
        bus.hw == r.1 && (status == STATUS_OK <==> r.0) && state == (if r.0 then Standby else old(state))
    {
      var ret := WriteSyscfg();
      if ret != STATUS_OK {
        return STATUS_FAIL;
      }
      ret := UnmaskIrqs();
      if ret != STATUS_OK {
        return STATUS_FAIL;
      }
      state := Standby;
      return STATUS_OK;
    }

    /** `cs47l63_cp_bulk_write_block`: one SPI write of the bytes. */
    method BulkWriteBlock(addr: word, bytes: seq<byte>) returns (status: int)
      modifies bus
      ensures var r := SpiWriteData(old(bus.hw), BytesBE(addr), bytes);
        bus.hw == r.1 && (status == STATUS_OK <==> r.0)
      ensures status == STATUS_OK || status == STATUS_FAIL
    {
      status := STATUS_OK;
      var bsp := bus.Write(BytesBE(addr), bytes);
      if bsp == BSP_STATUS_FAIL {
        status := STATUS_FAIL;
      }
    }

    /** `cs47l63_cp_bulk_read_block`: one SPI read of `length` bytes with the read bit set. */
    method BulkReadBlock(addr: word, length: u32) returns (status: int, bytes: seq<byte>)
      modifies bus
      ensures var r := SpiReadLen(old(bus.hw), ReadHeader(addr), length);
        bus.hw == r.1 && (status == STATUS_OK <==> r.0.Some?) && (r.0.Some? ==> bytes == r.0.value)
    {
      status := STATUS_OK;
      var bsp;
      bsp, bytes := bus.Read(ReadHeader(addr), length);
      if bsp == BSP_STATUS_FAIL {
        status := STATUS_FAIL;
      }
    }

    /** `cs47l63_write_block`; `data == None` is a NULL buffer, which holds `length` bytes otherwise. */
    method WriteBlock(addr: word, data: Option<seq<byte>>, length: u32) returns (status: int)
      requires data.Some? ==> length <= |data.value|
      modifies bus
      ensures var r := WriteBlockSpec(old(bus.hw), addr, data, length);
        bus.hw == r.1 && (status == STATUS_OK <==> r.0)
      ensures status == STATUS_OK || status == STATUS_FAIL
    {
      if data.None? || length == 0 || length % 4 != 0 {
        return STATUS_FAIL;
      }
      status := BulkWriteBlock(addr, data.value[..length]);
    }

    /** `cs47l63_read_block`; `dataGiven` is false for a NULL buffer. */
    method ReadBlock(addr: word, dataGiven: bool, length: u32) returns (status: int, data: seq<byte>)
      modifies bus
      ensures var r := ReadBlockSpec(old(bus.hw), addr, dataGiven, length);
        bus.hw == r.1 && (status == STATUS_OK <==> r.0.Some?) && (r.0.Some? ==> data == r.0.value)
    {
      if !dataGiven || length == 0 || length % 4 != 0 {
        return STATUS_FAIL, [];
      }
      status, data := BulkReadBlock(addr, length);
    }

    /** `cs47l63_boot`: record the firmware description of core 1. */
    method Boot(dspCore: u32, fw: Option<FwInfo>) returns (status: int)
      requires Valid()
      modifies this`dspInfo
      ensures Valid()
      ensures var r := BootSpec(old(dspInfo), dspCore, fw);
        (status == STATUS_OK <==> r.0) && dspInfo == r.1
    {
      if dspCore > NUM_DSP || dspCore == 0 {
        return STATUS_FAIL;
      }
      dspInfo := dspInfo[dspCore - 1 := dspInfo[dspCore - 1].(fwInfo := fw)];
      return STATUS_OK;
    }

    /** `cs47l63_power_up`. */
    method PowerUp(base: word) returns (status: int)
      modifies bus
      ensures var r := PowerUpSpec(old(bus.hw), IsSpi(config), base);
        bus.hw == r.1 && (status == STATUS_OK <==> r.0)
    {
      var ret := WriteRegSequence(PowerUpConfig(base));
      if ret != STATUS_OK {
        return STATUS_FAIL;
      }
      ret := UpdateReg(DSP_CLOCK1, DSP_CLK_EN_MASK, DSP_CLK_EN);
      if ret != STATUS_OK {
        return STATUS_FAIL;
      }
      var val;
      ret, val := ReadReg(DSP_CLOCK1, 0);
      if ret != STATUS_OK {
        return STATUS_FAIL;
      }
      val := ClockFreq(val);
      ret := UpdateReg(base + DSP_OFF_CLOCK_FREQ, DSP1_CLK_FREQ_SEL_MASK, val);
      if ret != STATUS_OK {
        return STATUS_FAIL;
      }
      ret := UpdateReg(base + DSP_OFF_CCM_CORE_CONTROL, DSP1_CCM_CORE_EN_MASK, DSP1_CCM_CORE_EN);
      if ret != STATUS_OK {
        return STATUS_FAIL;
      }
      return ret;
    }

    /** `cs47l63_power_down`. */
    method PowerDown(base: word) returns (status: int)
      modifies bus
      ensures var r := PowerDownSpec(old(bus.hw), IsSpi(config), base);
        bus.hw == r.1 && (status == STATUS_OK <==> r.0)
    {
      var ret := UpdateReg(base + DSP_OFF_WDT_CONTROL, DSP1_WDT_EN_MASK, 0);
      if ret != STATUS_OK {
        return STATUS_FAIL;
      }
      ret := UpdateReg(base + DSP_OFF_CCM_CORE_CONTROL, DSP1_CCM_CORE_EN_MASK, 0);
      if ret != STATUS_OK {
        return STATUS_FAIL;
      }
      ret := UpdateReg(DSP_OFF_CORE_SOFT_RESET, SFT_RESET_MASK, SFT_RESET_MASK);
      if ret != STATUS_OK {
        return STATUS_FAIL;
      }
      ret := UpdateReg(DSP_CLOCK1, DSP_CLK_EN_MASK, 0);
      if ret != STATUS_OK {
        return STATUS_FAIL;
      }
      return ret;
    }

    /**
     * `cs47l63_power_mem_ena` (`v` = ODD_EVEN) and `cs47l63_power_mem_dis`
     * (`v` = 0), whose loops differ only in the value written: every setup
     * register of every bank, stopping at the first failed write.
     */
    method PowerMem(banks: seq<RamBank>, v: word) returns (status: int)
      requires BanksBounded(banks)
      modifies bus
      ensures var r := WriteAll(old(bus.hw), IsSpi(config), BankWrites(banks, v));
        bus.hw == r.1 && (status == STATUS_OK <==> r.0)
    {
      BankLoopFlat(bus.hw, IsSpi(config), banks, v);
      var index := 0;
      while index < |banks|
        invariant 0 <= index <= |banks| && BanksBounded(banks[index..])
        invariant BankLoop(bus.hw, IsSpi(config), banks[index..], v) == BankLoop(old(bus.hw), IsSpi(config), banks, v)
      {
        assert banks[index..][0] == banks[index] && banks[index..][1..] == banks[index + 1..];
        var ret := WriteBank(banks[index].regStart, banks[index].regEnd, v);
        if ret != STATUS_OK {
          return STATUS_FAIL;
        }
        index := index + 1;
      }
      return STATUS_OK;
    }

    /** The inner loop of the RAM-bank power sequences: `v` to every setup register of one bank. */
    method WriteBank(regStart: u32, regEnd: u32, v: word) returns (status: int)
      requires regEnd < 0xFFFF_FFFC
      modifies bus
      ensures var r := WriteAll(old(bus.hw), IsSpi(config), AddrWrites(BankAddrs(regStart, regEnd), v));
        bus.hw == r.1 && (status == STATUS_OK <==> r.0)
    {
      var regAddr: u32 := regStart;
      while regAddr <= regEnd
        invariant WriteAll(bus.hw, IsSpi(config), AddrWrites(BankAddrs(regAddr, regEnd), v))
          == WriteAll(old(bus.hw), IsSpi(config), AddrWrites(BankAddrs(regStart, regEnd), v))
        decreases regEnd + 4 - regAddr
      {
        ghost var rest := AddrWrites(BankAddrs(regAddr + 4, regEnd), v);
        assert AddrWrites(BankAddrs(regAddr, regEnd), v) == [RegWrite(regAddr as word, v, 0)] + rest;
        WriteAllCons(bus.hw, IsSpi(config), RegWrite(regAddr as word, v, 0), rest);
        var ret := WriteReg(regAddr as word, v);
        if ret != STATUS_OK {
          return STATUS_FAIL;
        }
        regAddr := regAddr + 4;
      }
      return STATUS_OK;
    }

    /** `cs47l63_power`: the core guard, then the requested transition. */
    method Power(dspCore: u32, powerState: u32) returns (status: int)
      requires Valid()
      modifies bus
      ensures var r := PowerSpec(old(bus.hw), IsSpi(config), dspInfo, dspCore, powerState);
        bus.hw == r.1 && (status == STATUS_OK <==> r.0)
    {
      if dspCore > NUM_DSP || dspCore == 0 {
        return STATUS_FAIL;
      }
      var d := dspInfo[dspCore - 1];
      assert d in dspInfo;
      if powerState == POWER_MEM_ENA {
        status := PowerMem(d.ramBanks, DSP_RAM_BANK_ODD_EVEN);
      } else if powerState == POWER_UP {
        status := PowerUp(d.baseAddr);
      } else if powerState == POWER_DOWN {
        status := PowerDown(d.baseAddr);
      } else if powerState == POWER_MEM_DIS {
        status := PowerMem(d.ramBanks, 0);
      } else {
        status := STATUS_FAIL;
      }
    }
  }
}
