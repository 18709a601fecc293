/** `GPIO_ENABLE_W1TS_REG` of the generated register-access crate: one output-enable bit
    per pin 0 to 31, bit n for pin n. The 32 `PINn` readers and write proxies differ only
    in n, so each is modelled once with n as a parameter. */
module GpioEnableW1ts {
  import opened RegisterWord

  /** `reset_value`: 0. */
  const RESET_VALUE: Word := RESET

  /** `PINn_A`. */
  datatype PinA = Disable | Enable

  /** `From<PINn_A> for bool`. */
  function PinABit(a: PinA): bool
  {
    match a
    case Disable => false
    case Enable => true
  }

  /** `PINn_R::variant`. */
  function Variant(b: bool): PinA
  {
    if b then Enable else Disable
  }

  /** `PINn_R::is_disable` and `is_enable`. */
  function IsDisable(b: bool): bool { Variant(b) == Disable }
  function IsEnable(b: bool): bool { Variant(b) == Enable }

  /** The reader's variant and the writer's bit are inverse, DISABLE being false and
      ENABLE true; `is_enable` holds exactly when the bit is set. */
  lemma VariantRoundTrip(a: PinA, b: bool)
    ensures Variant(PinABit(a)) == a && PinABit(Variant(b)) == b
    ensures (IsEnable(b) <==> b) && (IsDisable(b) <==> !b)
    ensures PinABit(a) <==> a == Enable
  {
  }

  /** `R::pinN`: bit n of the word. */
  function Pin(r: Word, n: nat): bool
    requires n < WIDTH
  {
    Field(r, n, 1) == 1
  }

  /** `PINn_W::bit`: bit n becomes `value`; the other 31 bits are unchanged. */
  method PinBit(w: Writer, n: nat, value: bool)
    requires n < WIDTH
    modifies w
    ensures w.bits == old(w.bits)[n := value]
  {
    BitField(w.bits, n, value);
    w.bits := WithField(w.bits, n, 1, if value then 1 else 0);
  }

  /** `PINn_W::set_bit`, `clear_bit`, `variant`, `enable` and `disable`, all through
      `bit`. */
  method PinSetBit(w: Writer, n: nat)
    requires n < WIDTH
    modifies w
    ensures w.bits == old(w.bits)[n := true]
  {
    PinBit(w, n, true);
  }

  method PinClearBit(w: Writer, n: nat)
    requires n < WIDTH
    modifies w
    ensures w.bits == old(w.bits)[n := false]
  {
    PinBit(w, n, false);
  }

  method PinVariant(w: Writer, n: nat, a: PinA)
    requires n < WIDTH
    modifies w
    ensures w.bits == old(w.bits)[n := PinABit(a)]
  {
    PinBit(w, n, PinABit(a));
  }

  method PinEnable(w: Writer, n: nat)
    requires n < WIDTH
    modifies w
    ensures w.bits == old(w.bits)[n := true]
  {
    PinVariant(w, n, Enable);
  }

  method PinDisable(w: Writer, n: nat)
    requires n < WIDTH
    modifies w
    ensures w.bits == old(w.bits)[n := false]
  {
    PinVariant(w, n, Disable);
  }

  /** Reading pin n after writing it gives the value written, every other pin reads as
      before, writes to distinct pins commute, and the reset word reads every pin as
      disabled. */
  lemma ReadAfterWrite(r: Word, n: nat, m: nat, a: bool, b: bool)
    requires n < WIDTH && m < WIDTH
    ensures Pin(r[n := a], n) == a
    ensures m != n ==> Pin(r[n := a], m) == Pin(r, m)
    ensures m != n ==> r[n := a][m := b] == r[m := b][n := a]
    ensures !Pin(RESET_VALUE, n)
  {
    BitField(r[n := a], n, a);
    BitField(r[n := a], m, a);
    BitField(r, m, a);
    BitField(RESET_VALUE, n, a);
  }
}
