/** `GPIO_ENABLE1_W1TS_REG` of the generated register-access crate: one output-enable bit
    per pin 32 to 39, bit n - 32 for pin n; bits 8 to 31 have no accessor. The eight
    `PINn` readers and write proxies differ only in n, so each is modelled once with n as a
    parameter. */
module GpioEnable1W1ts {
  import opened RegisterWord

  /** `reset_value`: 0. */
  const RESET_VALUE: Word := RESET

  predicate IsPin(n: nat) { 32 <= n <= 39 }

  /** `PINn_A`. */
  datatype PinA = Disable | Enable

  /** `From<PINn_A> for bool`. */
  function PinABit(a: PinA): bool
  {
    match a
    case Disable => false
    case Enable => true
  }

  /** `PINn_R::variant`. */
  function Variant(b: bool): PinA
  {
    if b then Enable else Disable
  }

  /** `PINn_R::is_enable`. */
  function IsEnable(b: bool): bool { Variant(b) == Enable }

  /** Variant and bit are inverse, DISABLE being false and ENABLE true. */
  lemma VariantRoundTrip(a: PinA, b: bool)
    ensures Variant(PinABit(a)) == a && PinABit(Variant(b)) == b
    ensures IsEnable(b) <==> b
  {
  }

  /** `R::pinN`: bit n - 32 of the word. */
  function Pin(r: Word, n: nat): bool
    requires IsPin(n)
  {
    Field(r, n - 32, 1) == 1
  }

  /** `PINn_W::bit`: bit n - 32 becomes `value`; the other bits are unchanged. */
  method PinBit(w: Writer, n: nat, value: bool)
    requires IsPin(n)
    modifies w
    ensures w.bits == old(w.bits)[n - 32 := value]
  {
    BitField(w.bits, n - 32, value);
    w.bits := WithField(w.bits, n - 32, 1, if value then 1 else 0);
  }

  /** `PINn_W::variant`, `enable`, `disable`, `set_bit` and `clear_bit`, all through
      `bit`. */
  method PinVariant(w: Writer, n: nat, a: PinA)
    requires IsPin(n)
    modifies w
    ensures w.bits == old(w.bits)[n - 32 := PinABit(a)]
  {
    PinBit(w, n, PinABit(a));
  }

  method PinEnable(w: Writer, n: nat)
    requires IsPin(n)
    modifies w
    ensures w.bits == old(w.bits)[n - 32 := true]
  {
    PinVariant(w, n, Enable);
  }

  method PinDisable(w: Writer, n: nat)
    requires IsPin(n)
    modifies w
    ensures w.bits == old(w.bits)[n - 32 := false]
  {
    PinVariant(w, n, Disable);
  }

  method PinSetBit(w: Writer, n: nat)
    requires IsPin(n)
    modifies w
    ensures w.bits == old(w.bits)[n - 32 := true]
  {
    PinBit(w, n, true);
  }

  method PinClearBit(w: Writer, n: nat)
    requires IsPin(n)
    modifies w
    ensures w.bits == old(w.bits)[n - 32 := false]
  {
    PinBit(w, n, false);
  }

  /** Pin n reads what was written to it, other pins read as before, and no pin's write
      touches bits 8 to 31. */
  lemma ReadAfterWrite(r: Word, n: nat, m: nat, a: bool)
    requires IsPin(n) && IsPin(m)
    ensures Pin(r[n - 32 := a], n) == a
    ensures m != n ==> Pin(r[n - 32 := a], m) == Pin(r, m)
    ensures forall i :: 8 <= i < WIDTH ==> r[n - 32 := a][i] == r[i]
  {
    BitField(r[n - 32 := a], n - 32, a);
    BitField(r[n - 32 := a], m - 32, a);
    BitField(r, m - 32, a);
  }
}
