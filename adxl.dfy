/** Bus channel selection and the ADXL345 register helpers (app/sensors/adxl.py, lines 19-61). */
module Adxl {
  import opened Records
  import opened Bus
  import opened Config

  // ---------------------------------------------------------------- channel select

  /** Outcome of a channel selection: ValueError for a channel outside 0..7,
      an OSError raised by the multiplexer write, or success. */
  datatype SelectStatus = Selected | InvalidChannel | SelectBusFault

  function Pow2(k: nat): (r: nat)
    ensures r >= 1
  {
    if k == 0 then 1 else 2 * Pow2(k - 1)
  }

  /** Bit k of x. */
  function Bit(x: nat, k: nat): nat {
    (x / Pow2(k)) % 2
  }

  /** Number of one bits of x. */
  function PopCount(x: nat): nat {
    if x == 0 then 0 else x % 2 + PopCount(x / 2)
  }

  /** The value written to the multiplexer to select `channel` (`1 << channel`),
      or None when the channel is outside 0..7. */
  function SelectMask(channel: int): (m: Option<byte>)
    ensures m.Some? <==> 0 <= channel <= 7
    ensures m.Some? ==> PopCount(m.value) == 1 && Bit(m.value, channel) == 1
  {
    if 0 <= channel <= 7 then
      Pow2AtMost(channel);
      PopCountPow2(channel);
      BitPow2(channel);
      Some(Pow2(channel))
    else None
  }

  lemma {:induction false} Pow2AtMost(k: nat)
    requires k <= 7
    ensures Pow2(k) <= 128
  {
    Pow2Monotone(k, 7);
    assert Pow2(7) == 128;
  }

  lemma {:induction false} Pow2Monotone(j: nat, k: nat)
    requires j <= k
    ensures Pow2(j) <= Pow2(k)
  {
    if j < k {
      Pow2Monotone(j, k - 1);
    }
  }

  lemma {:induction false} PopCountPow2(k: nat)
    ensures PopCount(Pow2(k)) == 1
  {
    if k > 0 {
      PopCountPow2(k - 1);
      assert Pow2(k) % 2 == 0 && Pow2(k) / 2 == Pow2(k - 1);
    }
  }

  lemma BitPow2(k: nat)
    ensures Bit(Pow2(k), k) == 1
  {
  }

  /** tca9548a_select: a channel outside 0..7 issues nothing; a valid channel issues
      exactly one write of its one-bit mask to the multiplexer. */
  method Select(bus: SMBus, channel: int) returns (s: SelectStatus)
    modifies bus
    ensures !(0 <= channel <= 7) ==> s == InvalidChannel && bus.trace == old(bus.trace)
    ensures 0 <= channel <= 7 ==>
      && bus.trace == old(bus.trace) + [WriteByte(MuxAddr, SelectMask(channel).value)]
      && s == (if bus.respond(|old(bus.trace)|).OSError? then SelectBusFault else Selected)
  {
    var mask := SelectMask(channel);
    if mask.None? {
      return InvalidChannel;
    }
    var r := bus.Issue(WriteByte(MuxAddr, mask.value));
    s := if r.OSError? then SelectBusFault else Selected;
  }

  // ---------------------------------------------------------------- register access

  /** adxl_write_reg: one register write to the accelerometer; 0 on success, 1 on OSError. */
  method WriteReg(bus: SMBus, reg: int, val: int) returns (err: int)
    modifies bus
    ensures bus.trace == old(bus.trace) + [WriteByteData(AdxlAddr, reg, val)]
    ensures err == (if bus.respond(|old(bus.trace)|).OSError? then 1 else 0)
  {
    var r := bus.Issue(WriteByteData(AdxlAddr, reg, val));
    err := if r.OSError? then 1 else 0;
  }

  /** The (err, data) pair adxl_read_multi derives from the bus reply to a block read. */
  function BlockResult(r: Reply, length: int): (res: (int, seq<byte>))
    ensures res.0 == 0 <==> r.Done? && |r.data| == length
    ensures res.0 == 0 ==> res.1 == r.data && |res.1| == length
    ensures r.OSError? ==> res == (1, [])
    ensures r.Done? && |r.data| != length ==> res == (5, [])
  {
    match r
    case OSError => (1, [])
    case Done(data) => if |data| != length then (5, []) else (0, data)
  }

  /** adxl_read_multi: one block read from the accelerometer. */
  method ReadMulti(bus: SMBus, reg: int, length: int) returns (err: int, data: seq<byte>)
    modifies bus
    ensures bus.trace == old(bus.trace) + [ReadBlock(AdxlAddr, reg, length)]
    ensures (err, data) == BlockResult(bus.respond(|old(bus.trace)|), length)
  {
    var r := bus.Issue(ReadBlock(AdxlAddr, reg, length));
    var res := BlockResult(r, length);
    err, data := res.0, res.1;
  }

  // ---------------------------------------------------------------- Z-axis decoding

  /** Register DATAZ0 of the ADXL345. */
  const DataZ0: int := 0x36

  /** `(hi << 8) | lo` (for two bytes, hi * 256 + lo), minus 2^16 when bit 15 is set. */
  function DecodeZ(lo: byte, hi: byte): (z: int)
    ensures -0x8000 <= z <= 0x7FFF
  {
    var u := hi * 256 + lo;
    if (u / 0x8000) % 2 == 1 then u - 0x10000 else u
  }

  /** The two bytes, low byte first, of a 16-bit two's-complement value. */
  function EncodeZ(z: int): (b: (byte, byte))
    requires -0x8000 <= z <= 0x7FFF
  {
    var u := if z < 0 then z + 0x10000 else z;
    (u % 256, u / 256)
  }

  /** The sign bit is the top bit of the high byte. */
  lemma DecodeZValue(lo: byte, hi: byte)
    ensures DecodeZ(lo, hi) == hi * 256 + lo - (if hi >= 128 then 0x10000 else 0)
  {
  }

  lemma DecodeEncode(z: int)
    requires -0x8000 <= z <= 0x7FFF
    ensures DecodeZ(EncodeZ(z).0, EncodeZ(z).1) == z
  {
    DecodeZValue(EncodeZ(z).0, EncodeZ(z).1);
  }

  lemma EncodeDecode(lo: byte, hi: byte)
    ensures EncodeZ(DecodeZ(lo, hi)) == (lo, hi)
  {
    DecodeZValue(lo, hi);
  }

  lemma DecodeExamples()
    ensures DecodeZ(0x00, 0x80) == -32768
    ensures DecodeZ(0xFF, 0x7F) == 32767
    ensures DecodeZ(0x10, 0x00) == 16
  {
    DecodeZValue(0x00, 0x80);
    DecodeZValue(0xFF, 0x7F);
    DecodeZValue(0x10, 0x00);
  }

  /** The (err, z) pair adxl_read_z derives from the bus reply to its two-byte read. */
  function ZReading(r: Reply): (res: (int, int))
    ensures res.0 == 0 <==> r.Done? && |r.data| == 2
    ensures res.0 != 0 ==> res.1 == 0 && res.0 == BlockResult(r, 2).0
    ensures res.0 == 0 ==> res.1 == DecodeZ(r.data[0], r.data[1])
    ensures -0x8000 <= res.1 <= 0x7FFF
  {
    var (err, buf) := BlockResult(r, 2);
    if err != 0 then (err, 0) else (0, DecodeZ(buf[0], buf[1]))
  }

  /** adxl_read_z: one two-byte read of DATAZ0/DATAZ1. */
  method ReadZ(bus: SMBus) returns (err: int, z: int)
    modifies bus
    ensures bus.trace == old(bus.trace) + [ReadBlock(AdxlAddr, DataZ0, 2)]
    ensures (err, z) == ZReading(bus.respond(|old(bus.trace)|))
  {
    var buf;
    err, buf := ReadMulti(bus, DataZ0, 2);
    if err != 0 {
      return err, 0;
    }
    z := DecodeZ(buf[0], buf[1]);
  }

  // ---------------------------------------------------------------- bring-up

  /** The register writes of device bring-up, in order: BW_RATE, DATA_FORMAT, POWER_CTL. */
  const BringUpWrites: seq<Op> :=
    [WriteByteData(AdxlAddr, 0x2C, 0x0C), WriteByteData(AdxlAddr, 0x31, 0x0A), WriteByteData(AdxlAddr, 0x2D, 0x08)]

  /** adxl_init_on_current_channel: the three writes are issued whatever each one returns. */
  method InitOnCurrentChannel(bus: SMBus)
    modifies bus
    ensures bus.trace == old(bus.trace) + BringUpWrites
  {
    var _ := WriteReg(bus, 0x2C, 0x0C);
    var _ := WriteReg(bus, 0x31, 0x0A);
    var _ := WriteReg(bus, 0x2D, 0x08);
  }
}
