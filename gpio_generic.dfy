/** The pin drivers of src/gpio.rs: the per-pin `set_high`, `set_low` and
    `into_push_pull_output` of `impl_output!`, the `downgrade` of each pin to the generic
    `Gpio` type, and that type's `set_high` and `set_low`, which pick the register and
    mask from the pin number at run time. Writes to the set and clear registers are
    logged; the output selectors and the IO_MUX function selects are kept per pin. */
module GpioGeneric {
  import opened Bits
  import opened RegisterWord
  import OutSel = GpioFuncOutSelCfg
  import Gpio

  /** `Gpio<MODE>::pin` of the pin type `pin` as `downgrade` is written: the `gpio!`
      invocation gives Gpio20 the number 10. */
  function DowngradeAsWritten(pin: nat): (r: nat)
    requires Gpio.IsPin(pin)
    ensures r == pin <==> pin != 20
  {
    if pin == 20 then 10 else pin
  }

  /** As written, Gpio20 and Gpio10 downgrade to the same generic pin. */
  lemma DowngradeAsWrittenCollides()
    ensures DowngradeAsWritten(20) == DowngradeAsWritten(10) == 10
  {
  }

  /** `downgrade` as intended: every pin keeps its own number. */
  function Downgrade(pin: nat): (r: nat)
    requires Gpio.IsPin(pin)
    ensures Gpio.IsPin(r)
  {
    pin
  }

  /** The corrected table tells all pins apart and differs from the written one at Gpio20
      alone. */
  lemma DowngradeTables(p: nat, q: nat)
    requires Gpio.IsPin(p) && Gpio.IsPin(q)
    ensures Downgrade(p) == Downgrade(q) <==> p == q
    ensures Downgrade(p) == DowngradeAsWritten(p) <==> p != 20
  {
  }

  /** The stateless registers the drivers write. */
  datatype Register = OutW1ts | OutW1tc | Out1W1ts | Out1W1tc | EnableW1ts | Enable1W1ts

  /** A whole-word write, `write(|w| w.bits(..))`. */
  datatype Write = Write(register: Register, value: Word)

  /** `Gpio::set_high` (high) and `set_low` as written: pins 0 to 31 write `1 << pin` and
      pins 32 and 33 write `1 << (pin - 32)`, both to `out_w1ts` or `out_w1tc`; any other
      pin reaches `unreachable!()`, which is None. */
  function GenericSetAsWritten(pin: nat, high: bool): (r: Option<Write>)
    ensures r.Some? <==> pin <= 33
    ensures r.Some? ==> r.value.register == (if high then OutW1ts else OutW1tc)
  {
    if pin <= 31 then Some(Write(if high then OutW1ts else OutW1tc, Mask(pin)))
    else if pin <= 33 then Some(Write(if high then OutW1ts else OutW1tc, Mask(pin - 32)))
    else None
  }

  /** `Gpio::set_high` and `set_low` as intended: pins 32 and 33 use the bank 1 registers
      `out1_w1ts` and `out1_w1tc`, as `impl_output!` does for Gpio32 and Gpio33. */
  function GenericSet(pin: nat, high: bool): (r: Option<Write>)
    ensures r.Some? <==> pin <= 33
  {
    if pin <= 31 then Some(Write(if high then OutW1ts else OutW1tc, Mask(pin)))
    else if pin <= 33 then Some(Write(if high then Out1W1ts else Out1W1tc, Mask(pin - 32)))
    else None
  }

  /** A row of an `impl_output!` invocation: the bank of the invocation, the bit `$i`, and
      `$mcu_sel_bits`. */
  datatype OutputEntry = OutputEntry(bank1: bool, bit: nat, mcuSel: nat)

  /** The row of the two `impl_output!` invocations for an output pin: the first lists
      pins 0 to 27 with `$i` the pin itself, the second Gpio32 and Gpio33 with `$i` 0 and
      1; `$mcu_sel_bits` is 0b00 for Gpio0, Gpio2, Gpio32 and Gpio33 and 0b10 for the
      rest. */
  function Output(pin: nat): (e: OutputEntry)
    requires Gpio.IsOutputPin(pin)
    ensures e.bit < WIDTH && e.mcuSel < 4
  {
    if pin < 32 then OutputEntry(false, pin, if pin == 0 || pin == 2 then 0 else 2)
    else OutputEntry(true, pin - 32, 0)
  }

  /** Each row names the pin's own bank and its bit within the bank, as the banked
      drivers of src/gpio/mod.rs compute them. */
  lemma OutputRowsMatchBanks(pin: nat)
    requires Gpio.IsOutputPin(pin)
    ensures Output(pin).bank1 <==> Gpio.BankOf(pin) == Gpio.Bank1
    ensures Output(pin).bit == Gpio.BitOf(pin)
  {
    Gpio.BankBit(pin);
  }

  /** The per-pin `set_high` (high) and `set_low`: `1 << $i` to `$outs` or `$outc`. */
  function PinSet(pin: nat, high: bool): (r: Write)
    requires Gpio.IsOutputPin(pin)
    ensures r.register in {OutW1ts, Out1W1ts} <==> high
    ensures r.register in {Out1W1ts, Out1W1tc} <==> pin >= 32
    ensures pin < 32 ==> r.value == Mask(pin)
    ensures pin >= 32 ==> r.value == Mask(pin - 32)
  {
    var e := Output(pin);
    Write(if e.bank1 then (if high then Out1W1ts else Out1W1tc) else (if high then OutW1ts else OutW1tc), Mask(e.bit))
  }

  /** After the corrections, setting or clearing a downgraded pin writes what the pin's
      own driver writes. */
  lemma GenericMatchesPin(pin: nat, high: bool)
    requires Gpio.IsOutputPin(pin)
    ensures GenericSet(Downgrade(pin), high) == Some(PinSet(pin, high))
  {
  }

  /** Two different output pins never write the same register with the same mask. */
  lemma PinSetsDistinct(p: nat, q: nat, high: bool)
    requires Gpio.IsOutputPin(p) && Gpio.IsOutputPin(q) && p != q
    ensures PinSet(p, high) != PinSet(q, high)
  {
    var bp := Output(p).bit;
    var bq := Output(q).bit;
    if Output(p).bank1 == Output(q).bank1 {
      assert Mask(bp)[bp] && !Mask(bq)[bp];
    }
  }

  /** As written, a downgraded Gpio32 sets and clears GPIO0's output, and a downgraded
      Gpio20 sets and clears GPIO10's. */
  lemma GenericSetAsWrittenMisroutes(high: bool)
    ensures GenericSetAsWritten(DowngradeAsWritten(32), high) == Some(PinSet(0, high))
    ensures GenericSetAsWritten(DowngradeAsWritten(32), high) != Some(PinSet(32, high))
    ensures GenericSetAsWritten(DowngradeAsWritten(20), high) == Some(PinSet(10, high))
  {
    PinSetsDistinct(0, 32, high);
  }

  /** The word `into_push_pull_output` writes to `$funcXout`: 0x100. */
  const GPIO_OUTPUT_SELECTOR: u32 := 0x100

  /** 0x100 selects signal 256, the GPIO output register, with neither the output nor its
      enable inverted and the enable taken from the GPIO enable register. */
  lemma GpioOutputSelector()
    ensures OfU32(GPIO_OUTPUT_SELECTOR) == OutSel.Write(RESET, OutSel.Fields(256, OutSel.NoInvert, OutSel.Low, OutSel.NoInvert))
    ensures OutSel.Read(OfU32(GPIO_OUTPUT_SELECTOR)) == OutSel.Fields(256, OutSel.NoInvert, OutSel.Low, OutSel.NoInvert)
  {
    assert Pow2(9) == 512;
    var f := OutSel.Fields(256, OutSel.NoInvert, OutSel.Low, OutSel.NoInvert);
    BitsOfNarrow(256, 9, 23);
    BitsOfZero(23);
    assert RESET[9..] == BitsOf(0, 23);
    DivUnique(256, 512, 0, 256);
    assert OfU32(GPIO_OUTPUT_SELECTOR) == WithField(RESET, 0, 9, 256);
    OutSel.ReadAfterWrite(RESET, f);
  }

  type PinWords = s: seq<Word> | |s| == Gpio.PIN_COUNT witness seq(40, _ => RESET)
  type PinFields = s: seq<nat> | |s| == Gpio.PIN_COUNT witness seq(40, _ => 0)

  /** The registers of GPIO and IO_MUX these drivers touch: the log of stateless writes,
      each pin's output selector (`$funcXout`) and each pad's IO_MUX function select
      (`mcu_sel` of `$iomux`). */
  class Registers {
    var writes: seq<Write>
    var funcOut: PinWords
    var mcuSel: PinFields

    constructor(funcOut: PinWords, mcuSel: PinFields)
      ensures this.funcOut == funcOut && this.mcuSel == mcuSel && writes == []
    {
      this.funcOut := funcOut;
      this.mcuSel := mcuSel;
      writes := [];
    }

    /** The per-pin `set_high` and `set_low`. */
    method SetPin(pin: nat, high: bool)
      requires Gpio.IsOutputPin(pin)
      modifies this
      ensures writes == old(writes) + [PinSet(pin, high)]
      ensures funcOut == old(funcOut) && mcuSel == old(mcuSel)
    {
      writes := writes + [PinSet(pin, high)];
    }

    /** `Gpio::set_high` and `set_low`, corrected, for a pin that does not panic. */
    method GenericSetPin(pin: nat, high: bool)
      requires GenericSet(pin, high).Some?
      modifies this
      ensures writes == old(writes) + [GenericSet(pin, high).value]
      ensures funcOut == old(funcOut) && mcuSel == old(mcuSel)
    {
      writes := writes + [GenericSet(pin, high).value];
    }

    /** `into_push_pull_output`: `1 << $i` to the bank's enable set register, 0x100 to the
        pin's output selector, and the row's function select to the pad. */
    method IntoPushPullOutput(pin: nat)
      requires Gpio.IsOutputPin(pin)
      modifies this
      ensures writes == old(writes) + [Write(if Output(pin).bank1 then Enable1W1ts else EnableW1ts, Mask(Output(pin).bit))]
      ensures funcOut == old(funcOut)[pin := OfU32(GPIO_OUTPUT_SELECTOR)]
      ensures mcuSel == old(mcuSel)[pin := Output(pin).mcuSel]
    {
      var e := Output(pin);
      writes := writes + [Write(if e.bank1 then Enable1W1ts else EnableW1ts, Mask(e.bit))];
      funcOut := funcOut[pin := OfU32(GPIO_OUTPUT_SELECTOR)];
      mcuSel := mcuSel[pin := e.mcuSel];
    }
  }
}
