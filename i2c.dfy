/** The I2C master of src/i2c.rs: the 16-bit encoding of the controller's command words,
    the bus timings derived from the requested frequency, the choice of FIFO address, and
    the command programs that `write`, `read` and `write_read` load into the command
    registers `COMD0..COMD15` together with the bytes they push into the transmit FIFO. */
module I2c {
  import opened Bits
  import Dport

  const DPORT_BASE_ADDR: u32 := 0x3FF4_0000
  const AHB_BASE_ADDR: u32 := 0x6000_0000
  const FIFO_OFFSET: u32 := 0x1C
  const I2C0_OFFSET: u32 := 0x1_3000
  const I2C1_OFFSET: u32 := 0x2_7000

  /** The controller's source clock. */
  const SOURCE_CLK_FREQ: u32 := 80_000_000

  /** The number of command registers. */
  const COMMAND_COUNT: nat := 16

  datatype Ack = ACK | NACK

  /** A controller command, before encoding. */
  datatype Command =
    | Start
    | Stop
    | Write(ackExp: Ack, ackCheckEn: bool, length: u8)
    | Read(ackValue: Ack, length: u8)

  datatype Opcode = RSTART | WRITE | READ | STOP | END

  function OpcodeValue(o: Opcode): (r: nat)
    ensures r <= 4
  {
    match o
    case RSTART => 0
    case WRITE => 1
    case READ => 2
    case STOP => 3
    case END => 4
  }

  function OpcodeOf(c: Command): Opcode
  {
    match c
    case Start => RSTART
    case Stop => STOP
    case Write(_, _, _) => WRITE
    case Read(_, _) => READ
  }

  /** The length field: 0 for Start and Stop. */
  function LengthOf(c: Command): u8
  {
    match c
    case Start => 0
    case Stop => 0
    case Write(_, _, l) => l
    case Read(_, l) => l
  }

  /** The expected acknowledgement: NACK for every command but Write. */
  function AckExpOf(c: Command): Ack
  {
    if c.Write? then c.ackExp else NACK
  }

  /** Whether the acknowledgement is checked: only a Write may enable it. */
  function AckCheckOf(c: Command): bool
  {
    c.Write? && c.ackCheckEn
  }

  /** The acknowledgement the controller sends: NACK for every command but Read. */
  function AckValueOf(c: Command): Ack
  {
    if c.Read? then c.ackValue else NACK
  }

  function Flag(b: bool): (r: nat)
    ensures r <= 1
  {
    if b then 1 else 0
  }

  /** `From<Command> for u16`: the length in bits 0-7, `ack_check_en` in bit 8, a NACK
      `ack_exp` in bit 9, a NACK `ack_value` in bit 10 and the opcode from bit 11 up. The
      source sets or clears each bit of a word that starts as the length; the fields are
      disjoint, so the word is the sum of the fields at their weights. */
  function Encode(c: Command): (r: u16)
    ensures r % 0x100 == LengthOf(c)
    ensures (r / 0x100) % 2 == 1 <==> AckCheckOf(c)
    ensures (r / 0x200) % 2 == 1 <==> AckExpOf(c) == NACK
    ensures (r / 0x400) % 2 == 1 <==> AckValueOf(c) == NACK
    ensures r / 0x800 == OpcodeValue(OpcodeOf(c))
  {
    var len, op := LengthOf(c), OpcodeValue(OpcodeOf(c));
    var b8, b9, b10 := Flag(AckCheckOf(c)), Flag(AckExpOf(c) == NACK), Flag(AckValueOf(c) == NACK);
    var cmd := len + 0x100 * b8 + 0x200 * b9 + 0x400 * b10 + 0x800 * op;
    DivUnique(cmd, 0x100, b8 + 2 * b9 + 4 * b10 + 8 * op, len);
    DivUnique(b8 + 2 * b9 + 4 * b10 + 8 * op, 2, b9 + 2 * b10 + 4 * op, b8);
    DivUnique(cmd, 0x200, b9 + 2 * b10 + 4 * op, len + 0x100 * b8);
    DivUnique(b9 + 2 * b10 + 4 * op, 2, b10 + 2 * op, b9);
    DivUnique(cmd, 0x400, b10 + 2 * op, len + 0x100 * b8 + 0x200 * b9);
    DivUnique(b10 + 2 * op, 2, op, b10);
    DivUnique(cmd, 0x800, op, len + 0x100 * b8 + 0x200 * b9 + 0x400 * b10);
    cmd
  }

  function AckOf(nack: bool): Ack
  {
    if nack then NACK else ACK
  }

  /** Reads a command word back: the opcode from `cmd >> 11`, the length from
      `cmd & 0xff`, the flags from bits 8-10. END and unknown opcodes give None. */
  function Decode(cmd: u16): (r: Option<Command>)
    ensures r.Some? <==> cmd / 0x800 <= 3
  {
    var length := cmd % 0x100;
    var op := cmd / 0x800;
    if op == 0 then Some(Start)
    else if op == 1 then Some(Write(AckOf((cmd / 0x200) % 2 == 1), (cmd / 0x100) % 2 == 1, length))
    else if op == 2 then Some(Read(AckOf((cmd / 0x400) % 2 == 1), length))
    else if op == 3 then Some(Stop)
    else None
  }

  /** Decoding an encoded command gives the command back, so the encoding is injective. */
  lemma DecodeEncode(c: Command)
    ensures Decode(Encode(c)) == Some(c)
  {
  }

  /** Two commands with the same encoding are equal. */
  lemma EncodeInjective(c: Command, d: Command)
    requires Encode(c) == Encode(d)
    ensures c == d
  {
    DecodeEncode(c);
    DecodeEncode(d);
  }

  // ---------------------------------------------------------------------------------------
  // Bus timing

  /** The values `set_frequency` writes into the timing registers. */
  datatype Timings = Timings(sclLow: u16, sclHigh: u16, sdaHold: u16, sdaSample: u16,
                             setup: u16, hold: u16, timeout: u32)

  /** `((SOURCE_CLK_FREQ / freq) / 2) as u16`: the half period in source-clock cycles. */
  function HalfCycle(freq: u32): (r: u16)
    requires freq > 0
    ensures SOURCE_CLK_FREQ / freq < 2 * U16_LIMIT ==> r == (SOURCE_CLK_FREQ / freq) / 2
  {
    var q := SOURCE_CLK_FREQ / freq;
    var half := q / 2;
    if half < U16_LIMIT then half else half % U16_LIMIT
  }

  /** The timings as written: the timeout `half_cycle * 20` is computed in u16 and wraps
      (and a debug build panics) once it passes 65535. */
  function TimingsAsWritten(freq: u32): (r: Timings)
    requires freq > 0
    ensures r.timeout < U16_LIMIT
    ensures r.timeout == Wrap16(20 * HalfCycle(freq))
  {
    var half := HalfCycle(freq);
    Timings(half, half, half / 2, half / 2, half, half, Wrap16(half * 20))
  }

  /** At the standard-mode rate of 10 kHz the as-written timeout is not ten bus cycles. */
  lemma TimeoutWrapsAt10kHz()
    ensures HalfCycle(10_000) == 4000
    ensures TimingsAsWritten(10_000).timeout == 14464 != 20 * HalfCycle(10_000)
  {
  }

  /** The timings with the timeout computed without wrap-around: ten bus cycles, twenty
      half periods. The controller uses these. */
  function TimingsFor(freq: u32): (r: Timings)
    requires freq > 0
    ensures r.sclLow == r.sclHigh == r.setup == r.hold == HalfCycle(freq)
    ensures r.sdaHold == r.sdaSample == HalfCycle(freq) / 2
    ensures r.timeout == 20 * HalfCycle(freq)
  {
    var half := HalfCycle(freq);
    Timings(half, half, half / 2, half / 2, half, half, half * 20)
  }

  /** Below the wrap, two half periods of the source clock are one bus period, rounded
      down to an even number of cycles: at most one cycle short of the exact period. */
  lemma HalfCyclePeriod(freq: u32)
    requires 611 <= freq
    ensures 2 * HalfCycle(freq) * freq <= SOURCE_CLK_FREQ < (2 * HalfCycle(freq) + 2) * freq
  {
    var q := SOURCE_CLK_FREQ / freq;
    DivFloor(SOURCE_CLK_FREQ, freq);
    DivAntitone(SOURCE_CLK_FREQ, 611, freq);
    assert q < 2 * U16_LIMIT;
    var half := HalfCycle(freq);
    assert half == q / 2;
    assert 2 * half <= q <= 2 * half + 1;
    MulMonotone(2 * half, q, freq);
    MulMonotone(q + 1, 2 * half + 2, freq);
  }

  /** With the corrected timeout, for every frequency the timeout is twenty half periods
      and the as-written value agrees with it exactly when that fits in 16 bits. */
  lemma TimeoutAgrees(freq: u32)
    requires freq > 0
    ensures TimingsAsWritten(freq).timeout == TimingsFor(freq).timeout
        <==> 20 * HalfCycle(freq) < U16_LIMIT
  {
  }

  // ---------------------------------------------------------------------------------------
  // FIFO addresses

  datatype OperationType = OpWrite | OpRead

  /** The bit appended to the slave address: WRITE = 0, READ = 1. */
  function OperationBit(op: OperationType): (r: u8)
    ensures r == (if op == OpRead then 1 else 0)
  {
    if op == OpRead then 1 else 0
  }

  /** The offset of the instance's register block. */
  function InstanceOffset(isI2c0: bool): (r: u32)
    ensures r == I2C0_OFFSET || r == I2C1_OFFSET
  {
    if isI2c0 then I2C0_OFFSET else I2C1_OFFSET
  }

  /** `fifo_addr`: reads go through the DPORT bus (errata 3.18) and writes through AHB
      (errata 3.3), each at the instance's offset plus the FIFO register's offset. */
  function FifoAddr(op: OperationType, isI2c0: bool): (r: u32)
    ensures op == OpRead ==> r - DPORT_BASE_ADDR == InstanceOffset(isI2c0) + FIFO_OFFSET
    ensures op == OpWrite ==> r - AHB_BASE_ADDR == InstanceOffset(isI2c0) + FIFO_OFFSET
  {
    var base := match (op, isI2c0)
      case (OpRead, true) => DPORT_BASE_ADDR + I2C0_OFFSET
      case (OpRead, false) => DPORT_BASE_ADDR + I2C1_OFFSET
      case (OpWrite, true) => AHB_BASE_ADDR + I2C0_OFFSET
      case (OpWrite, false) => AHB_BASE_ADDR + I2C1_OFFSET;
    base + FIFO_OFFSET
  }

  /** The four FIFO addresses are distinct, and each lies in its bus's window. */
  lemma FifoAddrDistinct(op: OperationType, i: bool, op': OperationType, i': bool)
    ensures FifoAddr(op, i) == FifoAddr(op', i') <==> op == op' && i == i'
    ensures op == OpRead <==> DPORT_BASE_ADDR <= FifoAddr(op, i) < DPORT_BASE_ADDR + 0x10_0000
  {
  }

  /** `addr << 1 | op`: the address byte, the top address bit shifted out of the u8. */
  function AddressByte(addr: u8, op: OperationType): (r: u8)
    ensures r % 2 == OperationBit(op)
    ensures addr < 0x80 ==> r / 2 == addr
  {
    Wrap8(addr * 2) + OperationBit(op)
  }

  // ---------------------------------------------------------------------------------------
  // Command programs

  /** The commands `write` loads: Start, one Write of the address byte and the data
      (`1 + bytes.len() as u8`, wrapping), and Stop. */
  function WriteProgram(n: nat): (r: seq<Command>)
    ensures |r| == 3 && r[0] == Start && r[2] == Stop && r[1].Write?
    ensures n <= 254 ==> r[1].length == n + 1
  {
    [Start, Write(ACK, false, Wrap8(1 + Wrap8(n))), Stop]
  }

  /** The commands that receive `n` bytes: Read(ACK, n - 1) and Read(NACK, 1) when n > 1,
      otherwise Read(NACK, 1); then Stop. `buffer.len() as u8 - 1` wraps. */
  function ReadTail(n: nat): (r: seq<Command>)
    ensures |r| == (if n > 1 then 3 else 2) && r[|r| - 1] == Stop && r[|r| - 2] == Read(NACK, 1)
  {
    if n > 1 then [Read(ACK, Wrap8(Wrap8(n) - 1)), Read(NACK, 1), Stop]
    else [Read(NACK, 1), Stop]
  }

  /** The commands `read` loads: Start, the address byte, then the read tail. */
  function ReadProgram(n: nat): (r: seq<Command>)
    ensures |r| <= COMMAND_COUNT
  {
    [Start, Write(ACK, false, 1)] + ReadTail(n)
  }

  /** The commands `write_read` loads: Start, address and data, a repeated Start, the
      address byte for reading, then the read tail. */
  function WriteReadProgram(m: nat, n: nat): (r: seq<Command>)
    ensures |r| <= COMMAND_COUNT
  {
    [Start, Write(ACK, false, Wrap8(1 + Wrap8(m))), Start, Write(ACK, false, 1)] + ReadTail(n)
  }

  /** The bytes the Read commands of a program ask for. */
  function ReadLength(cmds: seq<Command>): (r: nat)
  {
    if cmds == [] then 0
    else (if cmds[0].Read? then cmds[0].length else 0) + ReadLength(cmds[1..])
  }

  /** Only the last Read sends NACK, and the Reads together ask for exactly the buffer's
      length when it is between 1 and 256; an empty buffer still reads one byte. */
  lemma ReadTailShape(n: nat)
    ensures ReadTail(n)[|ReadTail(n)| - 1] == Stop
    ensures ReadTail(n)[|ReadTail(n)| - 2] == Read(NACK, 1)
    ensures forall i :: 0 <= i < |ReadTail(n)| - 2 ==> ReadTail(n)[i].Read? && ReadTail(n)[i].ackValue == ACK
    ensures 1 <= n <= 256 ==> ReadLength(ReadTail(n)) == n
    ensures n == 0 ==> ReadLength(ReadTail(n)) == 1
  {
    var t := ReadTail(n);
    assert [Stop][1..] == [];
    assert ReadLength([Stop]) == 0;
    assert [Read(NACK, 1), Stop][1..] == [Stop];
    assert ReadLength([Read(NACK, 1), Stop]) == 1;
    if n > 1 {
      assert t[1..] == [Read(NACK, 1), Stop];
      assert ReadLength(t) == t[0].length + 1;
    }
  }

  /** `read` reads just what its buffer holds, and its program starts with a Start that
      addresses the slave and ends with a Stop. */
  lemma ReadProgramShape(n: nat)
    requires 1 <= n <= 256
    ensures ReadProgram(n)[0] == Start && ReadProgram(n)[|ReadProgram(n)| - 1] == Stop
    ensures ReadLength(ReadProgram(n)) == n
  {
    ReadTailShape(n);
    var p := ReadProgram(n);
    assert p[1..][1..] == ReadTail(n);
    assert ReadLength(p) == ReadLength(p[1..]) == ReadLength(ReadTail(n));
  }

  /** The same for `write_read`, whose writes carry the address byte and the data. */
  lemma WriteReadProgramShape(m: nat, n: nat)
    requires m <= 254 && 1 <= n <= 256
    ensures WriteReadProgram(m, n)[1].length == m + 1
    ensures ReadLength(WriteReadProgram(m, n)) == n
  {
    ReadTailShape(n);
    var p := WriteReadProgram(m, n);
    assert p[1..][1..][1..][1..] == ReadTail(n);
    assert ReadLength(p) == ReadLength(p[1..]) == ReadLength(p[1..][1..]) == ReadLength(p[1..][1..][1..])
        == ReadLength(ReadTail(n));
  }

  /** The command registers after loading `cmds` from COMD0 up. */
  function Programmed(regs: seq<u16>, cmds: seq<Command>): (r: seq<u16>)
    requires |cmds| <= |regs|
    ensures |r| == |regs|
    ensures forall i :: 0 <= i < |cmds| ==> Decode(r[i]) == Some(cmds[i])
    ensures r[|cmds|..] == regs[|cmds|..]
  {
    if cmds == [] then regs
    else
      DecodeEncode(cmds[0]);
      var rest := Programmed(regs[1..], cmds[1..]);
      [Encode(cmds[0])] + rest
  }

  /** One byte pushed into the transmit FIFO, with the address it was written through. */
  datatype FifoWrite = FifoWrite(addr: u32, value: u8)

  /** The FIFO writes of `data`, all through `port`. */
  function Loads(port: u32, data: seq<u8>): (r: seq<FifoWrite>)
    ensures |r| == |data|
    ensures forall i :: 0 <= i < |data| ==> r[i] == FifoWrite(port, data[i])
  {
    seq(|data|, i requires 0 <= i < |data| => FifoWrite(port, data[i]))
  }

  /** A filter configuration: threshold and enable bit. */
  datatype Filter = Filter(thres: u8, en: bool)

  /** `set_filter` for one line: Some(t) stores the threshold and enables the filter, None
      only disables it. */
  function ApplyFilter(f: Filter, threshold: Option<u8>): (r: Filter)
    ensures r.en <==> threshold.Some?
    ensures r.thres == (if threshold.Some? then threshold.value else f.thres)
  {
    match threshold
    case Some(t) => Filter(t, true)
    case None => f.(en := false)
  }

  class Controller {
    const isI2c0: bool
    var msMode: bool
    var sdaForceOut: bool
    var sclForceOut: bool
    var txLsbFirst: bool
    var rxLsbFirst: bool
    var clkEn: bool
    var nonfifoEn: bool
    var intEna: u32
    var intClr: u32
    var sdaFilter: Filter
    var sclFilter: Filter
    var timings: Timings
    /** COMD0..COMD15, the command fields. */
    var comd: seq<u16>
    /** Whether `trans_start` was set, starting the loaded program. */
    var transStart: bool
    /** The transmit FIFO since its last reset. */
    var txFifo: seq<FifoWrite>
    /** The bytes the receive FIFO holds, supplied by the bus. */
    var rxFifo: seq<u8>

    ghost predicate Valid()
      reads this
    {
      |comd| == COMMAND_COUNT
    }

    /** `I2C::new`: the peripheral reset and then clocked through DPORT; master mode,
        open-drain lines, MSB first, interrupts disabled and cleared, FIFO mode with empty
        FIFOs, both filters at 7 cycles, the timings of `frequency`, clock enabled.
        `frequency` must be nonzero (the division panics). */
    constructor (isI2c0: bool, frequency: u32, dport: Dport.Registers)
      requires frequency > 0
      modifies dport`peripClkEn, dport`peripRstEn, dport`resetLog
      ensures var bit := if isI2c0 then Dport.I2C0 else Dport.I2C1;
        && dport.peripClkEn == old(dport.peripClkEn) + {bit}
        && dport.peripRstEn == old(dport.peripRstEn) - {bit}
        && dport.resetLog == old(dport.resetLog) + [Dport.ResetWrite(Dport.PeripRstEn, old(dport.peripRstEn) + {bit}),
                                                    Dport.ResetWrite(Dport.PeripRstEn, old(dport.peripRstEn) - {bit})]
      ensures Valid() && this.isI2c0 == isI2c0
      ensures msMode && sdaForceOut && sclForceOut && !txLsbFirst && !rxLsbFirst && clkEn
      ensures !nonfifoEn && intEna == 0 && intClr == 0x3FFF
      ensures txFifo == [] && rxFifo == [] && !transStart
      ensures sdaFilter == Filter(7, true) && sclFilter == Filter(7, true)
      ensures timings == TimingsFor(frequency)
    {
      this.isI2c0 := isI2c0;
      intEna, intClr := 0, 0x3FFF;
      msMode, sdaForceOut, sclForceOut, txLsbFirst, rxLsbFirst := true, true, true, false, false;
      nonfifoEn := false;
      txFifo, rxFifo := [], [];
      sdaFilter := ApplyFilter(Filter(0, false), Some(7));
      sclFilter := ApplyFilter(Filter(0, false), Some(7));
      timings := TimingsFor(frequency);
      clkEn := true;
      comd := seq(COMMAND_COUNT, _ => 0);
      transStart := false;
      new;
      Reset(dport);
      Enable(dport);
    }

    /** The controller's bit in the DPORT clock and reset registers. */
    function Bit(): Dport.Peripheral
      reads this
    {
      if isI2c0 then Dport.I2C0 else Dport.I2C1
    }

    /** `reset`: the controller's reset bit set, then cleared, in two writes to
        `perip_rst_en`. */
    method Reset(dport: Dport.Registers)
      modifies dport`peripRstEn, dport`resetLog
      ensures dport.peripRstEn == old(dport.peripRstEn) - {Bit()}
      ensures dport.resetLog == old(dport.resetLog) + [Dport.ResetWrite(Dport.PeripRstEn, old(dport.peripRstEn) + {Bit()}),
                                                       Dport.ResetWrite(Dport.PeripRstEn, dport.peripRstEn)]
    {
      dport.peripRstEn := dport.peripRstEn + {Bit()};
      dport.resetLog := dport.resetLog + [Dport.ResetWrite(Dport.PeripRstEn, dport.peripRstEn)];
      dport.peripRstEn := dport.peripRstEn - {Bit()};
      dport.resetLog := dport.resetLog + [Dport.ResetWrite(Dport.PeripRstEn, dport.peripRstEn)];
    }

    /** `enable`: the controller's clock on and its reset off. */
    method Enable(dport: Dport.Registers)
      modifies dport`peripClkEn, dport`peripRstEn
      ensures dport.peripClkEn == old(dport.peripClkEn) + {Bit()}
      ensures dport.peripRstEn == old(dport.peripRstEn) - {Bit()}
    {
      dport.peripClkEn := dport.peripClkEn + {Bit()};
      dport.peripRstEn := dport.peripRstEn - {Bit()};
    }

    /** `reset_fifo`: both FIFOs empty. */
    method ResetFifo()
      modifies this`txFifo, this`rxFifo
      ensures txFifo == [] && rxFifo == []
    {
      txFifo, rxFifo := [], [];
    }

    /** `set_filter`. */
    method SetFilter(sda: Option<u8>, scl: Option<u8>)
      modifies this`sdaFilter, this`sclFilter
      ensures sdaFilter == ApplyFilter(old(sdaFilter), sda)
      ensures sclFilter == ApplyFilter(old(sclFilter), scl)
    {
      sdaFilter := ApplyFilter(sdaFilter, sda);
      sclFilter := ApplyFilter(sclFilter, scl);
    }

    /** `set_frequency`. */
    method SetFrequency(freq: u32)
      requires freq > 0
      modifies this`timings
      ensures timings == TimingsFor(freq)
    {
      timings := TimingsFor(freq);
    }

    /** The byte loop of `write`: every byte goes to the FIFO through `port`, in order. */
    method LoadFifo(port: u32, data: seq<u8>)
      modifies this`txFifo
      ensures txFifo == old(txFifo) + Loads(port, data)
    {
      for i := 0 to |data|
        invariant txFifo == old(txFifo) + Loads(port, data[..i])
      {
        txFifo := txFifo + [FifoWrite(port, data[i])];
        assert Loads(port, data[..i + 1]) == Loads(port, data[..i]) + [FifoWrite(port, data[i])];
      }
      assert data[..|data|] == data;
    }

    /** The read loop: each byte of the buffer is the next byte out of the receive FIFO. */
    method DrainFifo(buffer: array<u8>)
      requires |rxFifo| >= buffer.Length
      modifies buffer, this`rxFifo
      ensures buffer[..] == old(rxFifo)[..buffer.Length]
      ensures rxFifo == old(rxFifo)[buffer.Length..]
    {
      for i := 0 to buffer.Length
        invariant rxFifo == old(rxFifo)[i..]
        invariant buffer[..i] == old(rxFifo)[..i]
      {
        buffer[i] := rxFifo[0];
        rxFifo := rxFifo[1..];
      }
    }

    /** `write`: the address byte and the data through the AHB FIFO address, the Write
        program loaded and started. The transaction completes at once. */
    method Write(addr: u8, bytes: seq<u8>) returns (r: Result<(), ()>)
      requires Valid()
      modifies this`txFifo, this`rxFifo, this`comd, this`transStart
      ensures Valid() && r == Ok(()) && transStart
      ensures txFifo == Loads(FifoAddr(OpWrite, isI2c0), [AddressByte(addr, OpWrite)] + bytes)
      ensures comd == Programmed(old(comd), WriteProgram(|bytes|))
      ensures rxFifo == []
    {
      ResetFifo();
      var port := FifoAddr(OpWrite, isI2c0);
      var cmds := WriteProgram(|bytes|);
      LoadFifo(port, [AddressByte(addr, OpWrite)] + bytes);
      comd := Programmed(comd, cmds);
      transStart := true;
      r := Ok(());
    }

    /** `read`: the address byte through the DPORT FIFO address, the Read program loaded
        and started; the buffer is then filled from the bytes the bus delivered. */
    method Read(addr: u8, buffer: array<u8>, received: seq<u8>) returns (r: Result<(), ()>)
      requires Valid() && |received| >= buffer.Length
      modifies buffer, this`txFifo, this`rxFifo, this`comd, this`transStart
      ensures Valid() && r == Ok(()) && transStart
      ensures txFifo == Loads(FifoAddr(OpRead, isI2c0), [AddressByte(addr, OpRead)])
      ensures comd == Programmed(old(comd), ReadProgram(buffer.Length))
      ensures buffer[..] == received[..buffer.Length] && rxFifo == received[buffer.Length..]
    {
      ResetFifo();
      var port := FifoAddr(OpRead, isI2c0);
      LoadFifo(port, [AddressByte(addr, OpRead)]);
      comd := Programmed(comd, ReadProgram(buffer.Length));
      transStart := true;
      rxFifo := received;
      DrainFifo(buffer);
      r := Ok(());
    }

    /** `write_read`: address and data through the AHB address, then the address byte for
        reading through the same AHB address, the WriteRead program loaded and started;
        the buffer is filled from the bytes the bus delivered. */
    method WriteRead(addr: u8, bytes: seq<u8>, buffer: array<u8>, received: seq<u8>)
      returns (r: Result<(), ()>)
      requires Valid() && |received| >= buffer.Length
      modifies buffer, this`txFifo, this`rxFifo, this`comd, this`transStart
      ensures Valid() && r == Ok(()) && transStart
      ensures txFifo == Loads(FifoAddr(OpWrite, isI2c0),
                              [AddressByte(addr, OpWrite)] + bytes + [AddressByte(addr, OpRead)])
      ensures comd == Programmed(old(comd), WriteReadProgram(|bytes|, buffer.Length))
      ensures buffer[..] == received[..buffer.Length] && rxFifo == received[buffer.Length..]
    {
      ResetFifo();
      var port := FifoAddr(OpWrite, isI2c0);
      LoadFifo(port, [AddressByte(addr, OpWrite)] + bytes);
      LoadFifo(port, [AddressByte(addr, OpRead)]);
      assert Loads(port, [AddressByte(addr, OpWrite)] + bytes) + Loads(port, [AddressByte(addr, OpRead)])
          == Loads(port, [AddressByte(addr, OpWrite)] + bytes + [AddressByte(addr, OpRead)]);
      comd := Programmed(comd, WriteReadProgram(|bytes|, buffer.Length));
      transStart := true;
      rxFifo := received;
      DrainFifo(buffer);
      r := Ok(());
    }
  }
}
