/**
 * The control port of the CS47L63 as the driver sees it: the board's SPI
 * transfers (`bsp_driver_if_g->spi_read` / `spi_write`) and the codec's
 * register file behind them.
 *
 * A transaction starts with a four-byte address header sent most
 * significant byte first (the order `GET_BYTE_FROM_WORD(x, 3..0)` produces
 * is assumed to be the usual shift-and-mask); a read sets bit 7 of the
 * first header byte.  The device decodes the header with that bit
 * cleared.  Register values travel in the same big-endian order.
 *
 * The register file is a map from address to value (registers never
 * written read as 0).  Hardware-driven status registers are modelled by
 * `pending`: a script of values the next reads of an address return, one
 * per read, before the register file's own value shows again.  Addresses
 * in `w1c` are write-1-to-clear.  The failure oracle is a pair of address
 * sets: every read (write) transaction addressed to a member of
 * `readFail` (`writeFail`) fails.  Every transaction is recorded in
 * `trace`, whatever its outcome.
 */
module Cs47l63Bus {
  import opened Wrappers

  type word = bv32
  type byte = bv8

  /** BSP status codes (bsp_driver_if.h). */
  const BSP_STATUS_OK: int := 0
  const BSP_STATUS_FAIL: int := 1

  /** Bit 7 of the first header byte marks a read. */
  const READ_BIT: byte := 0x80

  datatype Txn =
    | SpiRead(header: seq<byte>, len: nat)
    | SpiWrite(header: seq<byte>, data: seq<byte>)

  /** A register address as a key of the register file. */
  datatype Addr = Addr(w: word)

  datatype Hw = Hw(
    regs: map<Addr, word>,
    pending: map<Addr, seq<word>>,
    w1c: set<word>,
    readFail: set<word>,
    writeFail: set<word>,
    trace: seq<Txn>)

  /** A 32-bit value as four bytes, most significant first. */
  function BytesBE(x: word): (r: seq<byte>)
    ensures |r| == 4
  {
    [(x >> 24) as byte, ((x >> 16) & 0xFF) as byte, ((x >> 8) & 0xFF) as byte, (x & 0xFF) as byte]
  }

  /** Four bytes, most significant first, as a 32-bit value. */
  function WordBE(b: seq<byte>): word
    requires |b| == 4
  {
    ((b[0] as word) << 24) | ((b[1] as word) << 16) | ((b[2] as word) << 8) | (b[3] as word)
  }

  lemma WordBytesRoundTrip(x: word)
    ensures WordBE(BytesBE(x)) == x
  {
  }

  lemma BytesWordRoundTrip(b: seq<byte>)
    requires |b| == 4
    ensures BytesBE(WordBE(b)) == b
  {
    var r := BytesBE(WordBE(b));
    assert r[0] == b[0] && r[1] == b[1] && r[2] == b[2] && r[3] == b[3];
  }

  /** The header of a read transaction: the address with the read bit set. */
  function ReadHeader(addr: word): (r: seq<byte>)
    ensures |r| == 4
  {
    var b := BytesBE(addr);
    [b[0] | READ_BIT] + b[1..]
  }

  /** A read header is the write header with the read bit set in its first byte and nothing else changed. */
  lemma ReadHeaderBits(addr: word)
    ensures var r := ReadHeader(addr);
      r[1..] == BytesBE(addr)[1..]
      && r[0] & READ_BIT == READ_BIT
      && r[0] & !READ_BIT == BytesBE(addr)[0] & !READ_BIT
  {
  }

  /** The register address the device takes from a header. */
  function HeaderAddr(header: seq<byte>): word
    requires |header| == 4
  {
    WordBE([header[0] & !READ_BIT] + header[1..])
  }

  /**
   * For every address below 2^31 (the device's whole address space) both
   * a write header and a read header name the address itself.
   */
  lemma HeaderAddrDecodes(addr: word)
    requires addr < 0x8000_0000
    ensures HeaderAddr(BytesBE(addr)) == addr
    ensures HeaderAddr(ReadHeader(addr)) == addr
  {
    ReadHeaderBits(addr);
  }

  /** The value the register file holds at an address. */
  function Reg(hw: Hw, a: word): word
  {
    if Addr(a) in hw.regs then hw.regs[Addr(a)] else 0
  }

  /** The register file with `v` stored at `a`. */
  function SetReg(regs: map<Addr, word>, a: word, v: word): map<Addr, word>
  {
    regs[Addr(a) := v]
  }

  /** Storing `v` at `a` changes what `a` reads as, and nothing else. */
  lemma RegAfterStore(h: Hw, h': Hw, a: word, v: word)
    requires h'.regs == SetReg(h.regs, a, v)
    ensures Reg(h', a) == v
    ensures forall b | b != a :: Reg(h', b) == Reg(h, b)
  {
  }

  /** The values the next reads of `a` return before the register file shows again. */
  function Script(hw: Hw, a: word): seq<word>
  {
    if Addr(a) in hw.pending then hw.pending[Addr(a)] else []
  }

  /** Whether the next read of `a` takes its value from the status script. */
  predicate Scripted(hw: Hw, a: word)
  {
    Script(hw, a) != []
  }

  /**
   * A four-byte SPI read addressed by `header`: the data bytes on success,
   * `None` when the transfer fails.
   */
  function SpiRead4(hw: Hw, header: seq<byte>): (r: (Option<seq<byte>>, Hw))
    requires |header| == 4
    ensures r.1.trace == hw.trace + [SpiRead(header, 4)]
    ensures r.1.regs == hw.regs && r.1.w1c == hw.w1c
    ensures r.1.readFail == hw.readFail && r.1.writeFail == hw.writeFail
    ensures r.0.None? <==> HeaderAddr(header) in hw.readFail
    ensures r.0.Some? ==> |r.0.value| == 4
    ensures !Scripted(hw, HeaderAddr(header)) ==>
      r.1.pending == hw.pending && (r.0.Some? ==> r.0.value == BytesBE(Reg(hw, HeaderAddr(header))))
  {
    var a := HeaderAddr(header);
    var h := hw.(trace := hw.trace + [SpiRead(header, 4)]);
    if a in hw.readFail then (None, h)
    else if Scripted(hw, a) then
      (Some(BytesBE(Script(hw, a)[0])), h.(pending := hw.pending[Addr(a) := Script(hw, a)[1..]]))
    else (Some(BytesBE(Reg(hw, a))), h)
  }

  /** What a successful write of `v` to `a` leaves in the register file. */
  function Stored(hw: Hw, a: word, v: word): word
  {
    if a in hw.w1c then Reg(hw, a) & !v else v
  }

  /**
   * The register file after the device has taken `data` as whole 32-bit
   * values for consecutive registers from `a` on (a trailing partial value
   * is dropped).
   */
  function StoreWords(hw: Hw, a: word, data: seq<byte>): (r: map<Addr, word>)
    ensures |data| == 4 ==> r == SetReg(hw.regs, a, Stored(hw, a, WordBE(data)))
    ensures |data| < 4 ==> r == hw.regs
    decreases |data|
  {
    if |data| < 4 then hw.regs
    else StoreWords(hw.(regs := SetReg(hw.regs, a, Stored(hw, a, WordBE(data[..4])))), a + 4, data[4..])
  }

  /** An SPI write of `data` addressed by `header`; `true` on success. */
  function SpiWriteData(hw: Hw, header: seq<byte>, data: seq<byte>): (r: (bool, Hw))
    requires |header| == 4
    ensures r.1.trace == hw.trace + [SpiWrite(header, data)]
    ensures r.1.pending == hw.pending && r.1.w1c == hw.w1c
    ensures r.1.readFail == hw.readFail && r.1.writeFail == hw.writeFail
    ensures r.0 <==> HeaderAddr(header) !in hw.writeFail
    ensures r.1.regs == if r.0 then StoreWords(hw, HeaderAddr(header), data) else hw.regs
  {
    var a := HeaderAddr(header);
    var h := hw.(trace := hw.trace + [SpiWrite(header, data)]);
    if a in hw.writeFail then (false, h)
    else (true, h.(regs := StoreWords(hw, a, data)))
  }

  /** The bytes of `n` consecutive registers from `a` on, as the device streams them. */
  function RegBytes(hw: Hw, a: word, n: nat): (r: seq<byte>)
    ensures |r| == 4 * n
    decreases n
  {
    if n == 0 then [] else BytesBE(Reg(hw, a)) + RegBytes(hw, a + 4, n - 1)
  }

  /** A bulk SPI read of `len` bytes (whole registers; a trailing partial register is padded with the next). */
  function SpiReadBlock(hw: Hw, header: seq<byte>, len: nat): (r: (Option<seq<byte>>, Hw))
    requires |header| == 4
    ensures r.1 == hw.(trace := hw.trace + [SpiRead(header, len)])
    ensures r.0.None? <==> HeaderAddr(header) in hw.readFail
    ensures r.0.Some? ==> |r.0.value| == len
  {
    var h := hw.(trace := hw.trace + [SpiRead(header, len)]);
    if HeaderAddr(header) in hw.readFail then (None, h)
    else (Some(RegBytes(hw, HeaderAddr(header), (len + 3) / 4)[..len]), h)
  }

  /**
   * An SPI read of `len` bytes: a single-register read when `len` is 4
   * (status scripts apply), a bulk read otherwise.
   */
  function SpiReadLen(hw: Hw, header: seq<byte>, len: nat): (r: (Option<seq<byte>>, Hw))
    requires |header| == 4
    ensures r.1.trace == hw.trace + [SpiRead(header, len)]
    ensures r.0.None? <==> HeaderAddr(header) in hw.readFail
    ensures r.0.Some? ==> |r.0.value| == len
  {
    if len == 4 then SpiRead4(hw, header) else SpiReadBlock(hw, header, len)
  }

  /** The board's SPI controller with the codec on the other end. */
  class Bus {
    var hw: Hw

    constructor (hw0: Hw)
      ensures hw == hw0
    {
      hw := hw0;
    }

    /** `spi_read(dev, header, 4, buffer, len, 4)`. */
    method Read(header: seq<byte>, len: nat) returns (status: int, data: seq<byte>)
      requires |header| == 4
      modifies this
      ensures var r := SpiReadLen(old(hw), header, len);
        hw == r.1 && (status == BSP_STATUS_OK <==> r.0.Some?) && (r.0.Some? ==> data == r.0.value)
      ensures status == BSP_STATUS_OK || status == BSP_STATUS_FAIL
    {
      var r := SpiReadLen(hw, header, len);
      hw := r.1;
      if r.0.Some? {
        status, data := BSP_STATUS_OK, r.0.value;
      } else {
        status, data := BSP_STATUS_FAIL, [];
      }
    }

    /** `spi_write(dev, header, 4, data, len, 4)`. */
    method Write(header: seq<byte>, data: seq<byte>) returns (status: int)
      requires |header| == 4
      modifies this
      ensures var r := SpiWriteData(old(hw), header, data);
        hw == r.1 && (status == BSP_STATUS_OK <==> r.0)
      ensures status == BSP_STATUS_OK || status == BSP_STATUS_FAIL
    {
      var r := SpiWriteData(hw, header, data);
      hw := r.1;
      status := if r.0 then BSP_STATUS_OK else BSP_STATUS_FAIL;
    }
  }
}
