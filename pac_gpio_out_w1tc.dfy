/** `GPIO_OUT_W1TC_REG` of the generated register-access crate: a write-only register (it
    has no reader) with one bit per pin 0 to 31, bit n for pin n. The 32 `PINn` write
    proxies differ only in n (and in the doc text of PIN5), so each is modelled once with
    n as a parameter. */
module GpioOutW1tc {
  import opened RegisterWord

  /** `reset_value`: 0. */
  const RESET_VALUE: Word := RESET

  /** `PINn_AW`. */
  datatype PinAW = Low | High

  /** `From<PINn_AW> for bool`: LOW is false and HIGH true. */
  function PinAWBit(a: PinAW): (r: bool)
  {
    match a
    case Low => false
    case High => true
  }

  lemma PinAWBitIsHigh(a: PinAW)
    ensures PinAWBit(a) <==> a == High
  {
  }

  /** `PINn_W::bit`: bit n becomes `value`; the other bits are unchanged. */
  method PinBit(w: Writer, n: nat, value: bool)
    requires n < WIDTH
    modifies w
    ensures w.bits == old(w.bits)[n := value]
  {
    BitField(w.bits, n, value);
    w.bits := WithField(w.bits, n, 1, if value then 1 else 0);
  }

  /** `PINn_W::variant`, `low`, `high`, `set_bit` and `clear_bit`, all through `bit`. */
  method PinVariant(w: Writer, n: nat, a: PinAW)
    requires n < WIDTH
    modifies w
    ensures w.bits == old(w.bits)[n := PinAWBit(a)]
  {
    PinBit(w, n, PinAWBit(a));
  }

  method PinLow(w: Writer, n: nat)
    requires n < WIDTH
    modifies w
    ensures w.bits == old(w.bits)[n := false]
  {
    PinVariant(w, n, Low);
  }

  method PinHigh(w: Writer, n: nat)
    requires n < WIDTH
    modifies w
    ensures w.bits == old(w.bits)[n := true]
  {
    PinVariant(w, n, High);
  }

  method PinSetBit(w: Writer, n: nat)
    requires n < WIDTH
    modifies w
    ensures w.bits == old(w.bits)[n := true]
  {
    PinBit(w, n, true);
  }

  method PinClearBit(w: Writer, n: nat)
    requires n < WIDTH
    modifies w
    ensures w.bits == old(w.bits)[n := false]
  {
    PinBit(w, n, false);
  }

  /** A write from the reset value that sets pin n alone stores the mask `1 << n`. */
  lemma HighFromReset(n: nat)
    requires n < WIDTH
    ensures RESET_VALUE[n := true] == Mask(n)
  {
  }
}
