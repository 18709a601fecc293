/** The UART driver of src/serial.rs: the baud-rate divider and its read-back, the frame
    format fields of `conf0` and `rs485_conf`, the FIFO counters behind `Rx`/`Tx`, and the
    peripheral clock and reset bits the driver sets in the DPORT registers itself. The
    FIFO counters and the received byte are supplied by the hardware and are fields the
    driver only reads. */
module Serial {
  import opened Bits
  import Dport

  /** The source clock with `tick_ref_always_on` set, and without it. */
  const APB_CLK_FREQ: u32 := 40_000_000
  const REF_CLK_FREQ: u32 := 1_000_000

  datatype DataBits = DataBits5 | DataBits6 | DataBits7 | DataBits8

  datatype Parity = ParityNone | ParityEven | ParityOdd

  datatype StopBits = Stop1 | Stop1p5 | Stop2

  datatype Config = Config(baudrate: u32, databits: DataBits, parity: Parity, stopbits: StopBits)

  /** `Config::default`: 19200 baud, 8 data bits, no parity, one stop bit. */
  const DEFAULT_CONFIG: Config := Config(19_200, DataBits8, ParityNone, Stop1)

  /** The values of the `stop_bit_num` field. */
  datatype StopBitNum = StopBits1 | StopBits1p5 | StopBits2

  /** The frame-format fields of `conf0`. */
  datatype Conf0 = Conf0(tickRefAlwaysOn: bool, stopBitNum: StopBitNum, bitNum: DataBits, parityEn: bool, parity: bool)

  /** The UART's source clock: the APB clock while `tick_ref_always_on` is set, else the
      reference tick. */
  function SclkFreq(tickRefAlwaysOn: bool): (r: u32)
    ensures tickRefAlwaysOn ==> r == APB_CLK_FREQ
    ensures !tickRefAlwaysOn ==> r == REF_CLK_FREQ
  {
    if tickRefAlwaysOn then APB_CLK_FREQ else REF_CLK_FREQ
  }

  /** `clk_div` of `change_baudrate`: the source clock in sixteenths of a bit over the baud
      rate, rounded down, so that `clk_div` bit times of sixteenths never exceed a second. */
  function ClkDiv(sclk: u32, baudrate: u32): (r: u32)
    requires 0 < sclk <= APB_CLK_FREQ && baudrate > 0
    ensures r * baudrate <= sclk * 16 < (r + 1) * baudrate
  {
    DivFloor(sclk * 16, baudrate);
    DivLe(sclk * 16, baudrate);
    (sclk * 16) / baudrate
  }

  /** The `clkdiv` field: `clk_div >> 4`, the integral part. */
  function IntegralPart(clkDiv: u32): (r: nat)
    ensures r * 16 + FractionalPart(clkDiv) == clkDiv
  {
    clkDiv / 16
  }

  /** The width of the `clkdiv` field of UART_CLKDIV_REG: 20 bits. */
  const CLKDIV_LIMIT: nat := 0x10_0000

  /** What the `clkdiv` field keeps of `clk_div >> 4`: its low 20 bits. It is the whole
      integral part exactly when `clk_div` fits 24 bits. */
  function ClkdivField(clkDiv: u32): (r: nat)
    ensures r < CLKDIV_LIMIT
    ensures (IntegralPart(clkDiv) - r) % CLKDIV_LIMIT == 0
    ensures r == IntegralPart(clkDiv) <==> clkDiv < 16 * CLKDIV_LIMIT
  {
    IntegralPart(clkDiv) % CLKDIV_LIMIT
  }

  /** `clk_div` fits the register for every rate from the 1 MHz reference tick, and from
      the 40 MHz clock exactly for rates of 39 baud and more. */
  lemma ClkDivFits(tickRefAlwaysOn: bool, baudrate: u32)
    requires baudrate > 0
    ensures (ClkDiv(SclkFreq(tickRefAlwaysOn), baudrate) < 16 * CLKDIV_LIMIT)
        <==> (!tickRefAlwaysOn || baudrate >= 39)
  {
    var sclk := SclkFreq(tickRefAlwaysOn);
    var q := ClkDiv(sclk, baudrate);
    if !tickRefAlwaysOn {
      DivLe(sclk * 16, baudrate);
    } else if baudrate >= 39 {
      MulMonotone(39, baudrate, q);
    } else {
      MulMonotone(baudrate, 38, q + 1);
    }
  }

  /** At 30 baud from the 40 MHz clock `clk_div` is 21333333, its integral part 1333333
      does not fit 20 bits and is stored as 284757, and `get_baudrate` then reads back
      140 baud, the rate the line then runs at. */
  lemma SlowRateTruncated()
    ensures ClkDiv(APB_CLK_FREQ, 30) == 21_333_333
    ensures IntegralPart(21_333_333) == 1_333_333 && ClkdivField(21_333_333) == 284_757
    ensures BaudOf(APB_CLK_FREQ, Divisor(284_757, FractionalPart(21_333_333))) == 140
  {
  }

  /** The `clkdiv_frag` field: `clk_div & 0xf`, the fraction in sixteenths. */
  function FractionalPart(clkDiv: u32): (r: nat)
    ensures r < 16
  {
    clkDiv % 16
  }

  /** The divisor `get_baudrate` reads back, `clkdiv << 4 | clkdiv_frag`: the fraction
      occupies the four low bits the shift leaves clear, so the or is a sum. */
  function Divisor(clkdiv: nat, frag: nat): (r: nat)
    requires frag < 16
    ensures r / 16 == clkdiv && r % 16 == frag
  {
    DivUnique(clkdiv * 16 + frag, 16, clkdiv, frag);
    clkdiv * 16 + frag
  }

  /** Splitting `clk_div` into the two fields and reading it back gives `clk_div`. */
  lemma DivisorRoundTrip(clkDiv: u32)
    ensures Divisor(IntegralPart(clkDiv), FractionalPart(clkDiv)) == clkDiv
  {
  }

  /** `get_baudrate`: `(sclk << 4)` over the divisor; a zero divisor is a division by zero.
      It has the arithmetic of ClkDiv with the roles swapped (the divisor read from the
      register in place of the requested rate), kept apart because the two are the two
      sides the round trip BaudReadBack connects. */
  function BaudOf(sclk: u32, divisor: nat): (r: nat)
    requires 0 < sclk <= APB_CLK_FREQ && divisor > 0
    ensures r * divisor <= sclk * 16 < (r + 1) * divisor
  {
    DivFloor(sclk * 16, divisor);
    DivLe(sclk * 16, divisor);
    (sclk * 16) / divisor
  }

  /** The rate read back after setting `baudrate` is never below it, and above it by less
      than `baudrate / clk_div`: rounding the divisor down only speeds the line up, by less
      than one part in `clk_div`. A rate above `16 * sclk` makes `clk_div` zero. */
  lemma BaudReadBack(sclk: u32, baudrate: u32)
    requires 0 < sclk <= APB_CLK_FREQ && baudrate > 0
    ensures ClkDiv(sclk, baudrate) == 0 <==> baudrate > sclk * 16
    ensures ClkDiv(sclk, baudrate) > 0 ==>
      var q := ClkDiv(sclk, baudrate);
      var r := BaudOf(sclk, q);
      r >= baudrate && (r - baudrate) * q < baudrate
  {
    var q := ClkDiv(sclk, baudrate);
    if q == 0 {
      assert sclk * 16 < baudrate;
    } else {
      assert q * baudrate >= baudrate by { MulAtLeast(q, baudrate); }
      var r := BaudOf(sclk, q);
      ReadBackBounds(sclk * 16, baudrate, q, r);
    }
  }

  /** For `q = n / b` and `r = n / q`: `b <= r` and `(r - b) * q < b`. */
  lemma ReadBackBounds(n: int, b: int, q: int, r: int)
    requires b > 0 && q > 0
    requires q * b <= n < (q + 1) * b
    requires r * q <= n < (r + 1) * q
    ensures r >= b && (r - b) * q < b
  {
    if r < b {
      MulMonotone(r + 1, b, q);
    }
    assert (q + 1) * b == q * b + b;
    assert (r - b) * q == r * q - b * q;
  }

  /** The `stop_bit_num` field and the `dl1_en` bit `change_stopbits` writes: two stop bits
      are one stop bit with the extra one-bit delay of `dl1_en`, a workaround for the
      hardware's two-bit mode. */
  function StopFields(s: StopBits): (r: (StopBitNum, bool))
    ensures r.1 <==> s == Stop2
    ensures r.0 == (if s == Stop1p5 then StopBits1p5 else StopBits1)
  {
    match s
    case Stop1 => (StopBits1, false)
    case Stop1p5 => (StopBits1p5, false)
    case Stop2 => (StopBits1, true)
  }

  /** The stop time of a frame in half bits: the field's own length, plus one bit when
      `dl1_en` delays the stop bit. */
  function StopHalfBits(field: StopBitNum, dl1En: bool): (r: nat)
    ensures 2 <= r <= 6
    ensures r % 2 == 1 <==> field == StopBits1p5
    ensures dl1En ==> r >= 4
  {
    (match field case StopBits1 => 2 case StopBits1p5 => 3 case StopBits2 => 4) + (if dl1En then 2 else 0)
  }

  /** The requested stop time in half bits. */
  function Requested(s: StopBits): (r: nat)
  {
    match s case Stop1 => 2 case Stop1p5 => 3 case Stop2 => 4
  }

  /** The fields `change_stopbits` writes give every frame the requested stop time. */
  lemma StopBitsKept(s: StopBits)
    ensures StopHalfBits(StopFields(s).0, StopFields(s).1) == Requested(s)
  {
  }

  /** `parity_en` and `parity` after `change_parity`: None clears `parity_en` and leaves
      `parity` as it was; Even sets `parity_en` and clears `parity`; Odd sets both. */
  function ParityFields(p: Parity, oldParity: bool): (r: (bool, bool))
    ensures r.0 <==> p != ParityNone
    ensures p == ParityNone ==> r.1 == oldParity
    ensures p != ParityNone ==> (r.1 <==> p == ParityOdd)
  {
    match p
    case ParityNone => (false, oldParity)
    case ParityEven => (true, false)
    case ParityOdd => (true, true)
  }

  /** The parity a pair of `conf0` bits selects. */
  function ParityOf(parityEn: bool, parity: bool): (r: Parity)
    ensures r == ParityNone <==> !parityEn
    ensures r == ParityOdd <==> parityEn && parity
  {
    if !parityEn then ParityNone else if parity then ParityOdd else ParityEven
  }

  /** The parity written is the parity the register then selects, whatever `parity` held. */
  lemma ParityRoundTrip(p: Parity, oldParity: bool)
    ensures ParityOf(ParityFields(p, oldParity).0, ParityFields(p, oldParity).1) == p
  {
  }

  /** `Rx::count` and `Tx::count`: the memory counter shifted above the eight bits of the
      FIFO counter, in 16 bits. */
  function Count(memCnt: u8, fifoCnt: u8): (r: nat)
    ensures memCnt * 256 <= r < (memCnt + 1) * 256 <= U16_LIMIT
  {
    memCnt * 256 + fifoCnt
  }

  /** The count fits its 16 bits and holds both counters: the memory counter above bit 8,
      the FIFO counter below. */
  lemma CountFields(memCnt: u8, fifoCnt: u8)
    ensures Count(memCnt, fifoCnt) < U16_LIMIT
    ensures Count(memCnt, fifoCnt) / 256 == memCnt && Count(memCnt, fifoCnt) % 256 == fifoCnt
  {
    DivUnique(memCnt * 256 + fifoCnt, 256, memCnt, fifoCnt);
  }

  /** The count is zero exactly when both counters are. */
  lemma CountZero(memCnt: u8, fifoCnt: u8)
    ensures Count(memCnt, fifoCnt) == 0 <==> memCnt == 0 && fifoCnt == 0
  {
  }

  /** `Tx::write` accepts a byte exactly when the count is below 128: no memory blocks in
      use and fewer than 128 bytes in the FIFO. */
  lemma CountBelow128(memCnt: u8, fifoCnt: u8)
    ensures Count(memCnt, fifoCnt) < 128 <==> memCnt == 0 && fifoCnt < 128
  {
  }

  /** One UART, `Serial` together with its `Rx` and `Tx` halves. */
  class Uart {
    /** UART0, UART1 or UART2, by the peripheral's DPORT bit. */
    const id: Dport.Peripheral
    var conf0: Conf0
    /** `dl1_en` of `rs485_conf`. */
    var dl1En: bool
    var clkdiv: nat
    var clkdivFrag: nat
    /** The hardware's counters of received and pending bytes. */
    var rxMemCnt: u8
    var rxFifoCnt: u8
    var txMemCnt: u8
    var txFifoCnt: u8
    /** What a read of `rx_fifo` returns. */
    var rxData: u8
    /** Every byte written to `tx_fifo`, oldest first. */
    var txFifo: seq<u8>

    predicate Valid()
      reads this
    {
      Dport.IsUart(id) && clkdiv < CLKDIV_LIMIT && clkdivFrag < 16
    }

    /** The constructor `uartX`: reset, enable, then baud rate, stop bits, data bits and
        parity from the configuration, in that order. */
    constructor (id: Dport.Peripheral, conf0: Conf0, config: Config, dport: Dport.Registers)
      requires Dport.IsUart(id) && config.baudrate > 0
      modifies dport`peripClkEn, dport`peripRstEn, dport`resetLog
      ensures Valid() && this.id == id
      ensures dport.peripClkEn == old(dport.peripClkEn) + Dport.EnableMask(id)
      ensures dport.peripRstEn == old(dport.peripRstEn) - {id}
      ensures dport.resetLog == old(dport.resetLog) + [Dport.ResetWrite(Dport.PeripRstEn, old(dport.peripRstEn) + {id}),
                                                       Dport.ResetWrite(Dport.PeripRstEn, old(dport.peripRstEn) - {id})]
      ensures var clkDiv := ClkDiv(SclkFreq(conf0.tickRefAlwaysOn), config.baudrate);
        && clkdiv == ClkdivField(clkDiv) && clkdivFrag == FractionalPart(clkDiv)
        && (clkDiv < 16 * CLKDIV_LIMIT ==> Divisor(clkdiv, clkdivFrag) == clkDiv)
      ensures var stops := StopFields(config.stopbits);
        var parity := ParityFields(config.parity, conf0.parity);
        && this.conf0 == conf0.(stopBitNum := stops.0, bitNum := config.databits,
                                parityEn := parity.0, parity := parity.1)
        && dl1En == stops.1
      ensures txFifo == []
    {
      this.id := id;
      this.conf0 := conf0;
      dl1En, clkdiv, clkdivFrag := false, 0, 0;
      rxMemCnt, rxFifoCnt, txMemCnt, txFifoCnt, rxData := 0, 0, 0, 0, 0;
      txFifo := [];
      new;
      Reset(dport);
      Enable(dport);
      ChangeBaudrate(config.baudrate);
      ChangeStopbits(config.stopbits);
      ChangeDatabits(config.databits);
      ChangeParity(config.parity);
    }

    /** `reset`: the UART's reset bit set, then cleared, in two writes to `perip_rst_en`. */
    method Reset(dport: Dport.Registers)
      requires Valid()
      modifies dport`peripRstEn, dport`resetLog
      ensures dport.peripRstEn == old(dport.peripRstEn) - {id}
      ensures dport.resetLog == old(dport.resetLog) + [Dport.ResetWrite(Dport.PeripRstEn, old(dport.peripRstEn) + {id}),
                                                       Dport.ResetWrite(Dport.PeripRstEn, dport.peripRstEn)]
    {
      dport.peripRstEn := dport.peripRstEn + {id};
      dport.resetLog := dport.resetLog + [Dport.ResetWrite(Dport.PeripRstEn, dport.peripRstEn)];
      dport.peripRstEn := dport.peripRstEn - {id};
      dport.resetLog := dport.resetLog + [Dport.ResetWrite(Dport.PeripRstEn, dport.peripRstEn)];
    }

    /** `enable`: the UART memory's and the UART's clock on, the UART out of reset: the
        clock bits are the DPORT driver's enable mask for this UART. */
    method Enable(dport: Dport.Registers)
      requires Valid()
      modifies dport`peripClkEn, dport`peripRstEn
      ensures dport.peripClkEn == old(dport.peripClkEn) + Dport.EnableMask(id)
      ensures dport.peripRstEn == old(dport.peripRstEn) - {id}
    {
      dport.peripClkEn := dport.peripClkEn + {Dport.UART_MEM_BIT};
      dport.peripClkEn := dport.peripClkEn + {id};
      dport.peripRstEn := dport.peripRstEn - {id};
    }

    /** `disable`: the UART's clock off and its reset on; when then no UART is clocked the
        UART memory's clock goes off too. The clock bits cleared are the DPORT driver's
        (corrected) disable mask for this UART. */
    method Disable(dport: Dport.Registers)
      requires Valid()
      modifies dport`peripClkEn, dport`peripRstEn
      ensures dport.peripClkEn == old(dport.peripClkEn) - Dport.DisableMask(id, old(dport.peripClkEn))
      ensures dport.peripRstEn == old(dport.peripRstEn) + {id}
      ensures Dport.UART_MEM_BIT in dport.peripClkEn <==>
                Dport.UART_MEM_BIT in old(dport.peripClkEn) && dport.peripClkEn * Dport.UART_MASK != {}
    {
      dport.peripClkEn := dport.peripClkEn - {id};
      dport.peripRstEn := dport.peripRstEn + {id};
      if 2 !in dport.peripClkEn && 5 !in dport.peripClkEn && 23 !in dport.peripClkEn {
        dport.peripClkEn := dport.peripClkEn - {Dport.UART_MEM_BIT};
      }
      Dport.DisableStopsUartMem(id, old(dport.peripClkEn));
    }

    /** `change_stopbits`: `dl1_en` and `stop_bit_num` as `StopFields` gives them; the
        other `conf0` fields unchanged. */
    method ChangeStopbits(s: StopBits)
      modifies this`conf0, this`dl1En
      ensures dl1En == StopFields(s).1 && conf0 == old(conf0).(stopBitNum := StopFields(s).0)
      ensures StopHalfBits(conf0.stopBitNum, dl1En) == Requested(s)
    {
      dl1En := s == Stop2;
      match s
      case Stop1 => conf0 := conf0.(stopBitNum := StopBits1);
      case Stop1p5 => conf0 := conf0.(stopBitNum := StopBits1p5);
      case Stop2 => conf0 := conf0.(stopBitNum := StopBits1);
      StopBitsKept(s);
    }

    /** `change_databits`: only `bit_num` changes. */
    method ChangeDatabits(d: DataBits)
      modifies this`conf0
      ensures conf0 == old(conf0).(bitNum := d)
    {
      conf0 := conf0.(bitNum := d);
    }

    /** `change_parity`: the two parity bits as `ParityFields` gives them, so the
        register then selects `p`; the other fields unchanged. */
    method ChangeParity(p: Parity)
      modifies this`conf0
      ensures var f := ParityFields(p, old(conf0).parity);
        conf0 == old(conf0).(parityEn := f.0, parity := f.1)
      ensures ParityOf(conf0.parityEn, conf0.parity) == p
    {
      match p
      case ParityNone => conf0 := conf0.(parityEn := false);
      case ParityEven => conf0 := conf0.(parityEn := true, parity := false);
      case ParityOdd => conf0 := conf0.(parityEn := true, parity := true);
    }

    /** `change_baudrate`: `clk_div` from the current source clock, split into the two
        fields of `clkdiv`; the 20-bit `clkdiv` field keeps the low bits of the integral
        part, so the divisor reads back whole exactly when `clk_div` fits 24 bits. */
    method ChangeBaudrate(baudrate: u32)
      requires baudrate > 0
      modifies this`clkdiv, this`clkdivFrag
      ensures var clkDiv := ClkDiv(SclkFreq(conf0.tickRefAlwaysOn), baudrate);
        && clkdiv == ClkdivField(clkDiv) && clkdivFrag == FractionalPart(clkDiv)
        && (clkDiv < 16 * CLKDIV_LIMIT ==> Divisor(clkdiv, clkdivFrag) == clkDiv)
    {
      var sclk := SclkFreq(conf0.tickRefAlwaysOn);
      var clkDiv := ClkDiv(sclk, baudrate);
      clkdiv := ClkdivField(clkDiv);
      clkdivFrag := FractionalPart(clkDiv);
      DivisorRoundTrip(clkDiv);
    }

    /** `get_baudrate`: the source clock over the divisor in the `clkdiv` register; a zero
        divisor is the division by zero that panics, None here. */
    function GetBaudrate(): (r: Option<nat>)
      requires Valid()
      reads this
      ensures r.None? <==> Divisor(clkdiv, clkdivFrag) == 0
      ensures r.Some? ==> var d := Divisor(clkdiv, clkdivFrag);
        var sclk := SclkFreq(conf0.tickRefAlwaysOn);
        r.value * d <= sclk * 16 < (r.value + 1) * d
    {
      var d := Divisor(clkdiv, clkdivFrag);
      if d == 0 then None else Some(BaudOf(SclkFreq(conf0.tickRefAlwaysOn), d))
    }

    /** `Rx::count`. */
    function RxCount(): (r: nat)
      reads this
      ensures r == 0 <==> rxMemCnt == 0 && rxFifoCnt == 0
    {
      Count(rxMemCnt, rxFifoCnt)
    }

    /** `Tx::count`. */
    function TxCount(): (r: nat)
      reads this
      ensures r == 0 <==> txMemCnt == 0 && txFifoCnt == 0
      ensures r < 128 <==> txMemCnt == 0 && txFifoCnt < 128
    {
      Count(txMemCnt, txFifoCnt)
    }

    /** `Rx::read`: WouldBlock while nothing has been received, otherwise the byte in
        `rx_fifo`. */
    method Read() returns (r: NbResult<u8>)
      ensures r.WouldBlock? <==> rxMemCnt == 0 && rxFifoCnt == 0
      ensures r.Ready? ==> r.value == rxData
    {
      var count := RxCount();
      if count == 0 {
        return WouldBlock;
      }
      r := Ready(rxData);
    }

    /** `Tx::flush`: done when nothing is pending to be sent. */
    method Flush() returns (r: NbResult<()>)
      ensures r.Ready? <==> txMemCnt == 0 && txFifoCnt == 0
    {
      if TxCount() == 0 {
        return Ready(());
      }
      r := WouldBlock;
    }

    /** `Tx::write`: the byte goes into `tx_fifo` when fewer than 128 bytes are pending,
        otherwise WouldBlock and nothing is written. */
    method Write(byte: u8) returns (r: NbResult<()>)
      modifies this`txFifo
      ensures r.Ready? <==> txMemCnt == 0 && txFifoCnt < 128
      ensures r.Ready? ==> txFifo == old(txFifo) + [byte]
      ensures r == WouldBlock ==> txFifo == old(txFifo)
    {
      CountBelow128(txMemCnt, txFifoCnt);
      if TxCount() < 128 {
        txFifo := txFifo + [byte];
        return Ready(());
      }
      r := WouldBlock;
    }
  }
}
