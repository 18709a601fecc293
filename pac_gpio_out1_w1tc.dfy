/** `GPIO_OUT1_W1TC_REG` of the generated register-access crate: one bit per pin 32 to
    39, bit n - 32 for pin n, with the variants SET and UNSET. The eight `PINn` readers and
    write proxies differ only in n, so each is modelled once with n as a parameter. */
module GpioOut1W1tc {
  import opened RegisterWord

  /** `reset_value`: 0. */
  const RESET_VALUE: Word := RESET

  predicate IsPin(n: nat) { 32 <= n <= 39 }

  /** `PINn_A`. */
  datatype PinA = Set | Unset

  /** `From<PINn_A> for bool`: SET is true and UNSET false. */
  function PinABit(a: PinA): bool
  {
    match a
    case Set => true
    case Unset => false
  }

  /** `PINn_R::variant`. */
  function Variant(b: bool): PinA
  {
    if b then Set else Unset
  }

  /** `PINn_R::is_set` and `is_unset`. */
  function IsSet(b: bool): bool { Variant(b) == Set }
  function IsUnset(b: bool): bool { Variant(b) == Unset }

  /** Variant and bit are inverse; `is_set` holds exactly when the bit is set. */
  lemma VariantRoundTrip(a: PinA, b: bool)
    ensures Variant(PinABit(a)) == a && PinABit(Variant(b)) == b
    ensures (IsSet(b) <==> b) && (IsUnset(b) <==> !b)
  {
  }

  /** `R::pinN`: bit n - 32 of the word. */
  function Pin(r: Word, n: nat): bool
    requires IsPin(n)
  {
    Field(r, n - 32, 1) == 1
  }

  /** `PINn_W::bit`: bit n - 32 becomes `value`; the other bits are unchanged. */
  method PinBit(w: Writer, n: nat, value: bool)
    requires IsPin(n)
    modifies w
    ensures w.bits == old(w.bits)[n - 32 := value]
  {
    BitField(w.bits, n - 32, value);
    w.bits := WithField(w.bits, n - 32, 1, if value then 1 else 0);
  }

  /** `PINn_W::variant`, `set`, `unset`, `set_bit` and `clear_bit`, all through `bit`. */
  method PinVariant(w: Writer, n: nat, a: PinA)
    requires IsPin(n)
    modifies w
    ensures w.bits == old(w.bits)[n - 32 := PinABit(a)]
  {
    PinBit(w, n, PinABit(a));
  }

  method PinSet(w: Writer, n: nat)
    requires IsPin(n)
    modifies w
    ensures w.bits == old(w.bits)[n - 32 := true]
  {
    PinVariant(w, n, Set);
  }

  method PinUnset(w: Writer, n: nat)
    requires IsPin(n)
    modifies w
    ensures w.bits == old(w.bits)[n - 32 := false]
  {
    PinVariant(w, n, Unset);
  }

  method PinSetBit(w: Writer, n: nat)
    requires IsPin(n)
    modifies w
    ensures w.bits == old(w.bits)[n - 32 := true]
  {
    PinBit(w, n, true);
  }

  method PinClearBit(w: Writer, n: nat)
    requires IsPin(n)
    modifies w
    ensures w.bits == old(w.bits)[n - 32 := false]
  {
    PinBit(w, n, false);
  }

  /** Pin n reads what was written to it, other pins read as before, and no pin's write
      touches bits 8 to 31. */
  lemma ReadAfterWrite(r: Word, n: nat, m: nat, a: bool)
    requires IsPin(n) && IsPin(m)
    ensures Pin(r[n - 32 := a], n) == a
    ensures m != n ==> Pin(r[n - 32 := a], m) == Pin(r, m)
    ensures forall i :: 8 <= i < WIDTH ==> r[n - 32 := a][i] == r[i]
  {
    BitField(r[n - 32 := a], n - 32, a);
    BitField(r[n - 32 := a], m - 32, a);
    BitField(r, m - 32, a);
  }
}
