/** `GPIO_FUNC_IN_SEL_CFG_REG` of the generated register-access crate: the input of a
    peripheral signal through the GPIO matrix. Bits 0 to 5 select the pad (0 to 39, or
    0x38 for a constant high and 0x30 for a constant low input), bit 6 inverts the input
    and bit 7 chooses between the direct connection and the matrix. */
module GpioFuncInSelCfg {
  import opened Bits
  import opened RegisterWord

  /** `reset_value`: 0. */
  const RESET_VALUE: Word := RESET

  const IN_SEL_WIDTH: nat := 6
  const IN_INV_SEL_BIT: nat := 6
  const SIG_IN_SEL_BIT: nat := 7

  /** The selector values for a constant input. */
  const CONSTANT_HIGH: nat := 0x38
  const CONSTANT_LOW: nat := 0x30

  /** `GPIO_FUNC_IN_INV_SEL_A`. */
  datatype Invert = NoInvert | Invert

  /** `GPIO_SIG_IN_SEL_A`. */
  datatype SigInSel = Connect | Route

  function InvertBit(a: Invert): bool
  {
    match a
    case NoInvert => false
    case Invert => true
  }

  function InvertVariant(b: bool): Invert
  {
    if b then Invert else NoInvert
  }

  function SigInSelBit(a: SigInSel): bool
  {
    match a
    case Connect => false
    case Route => true
  }

  function SigInSelVariant(b: bool): SigInSel
  {
    if b then Route else Connect
  }

  /** Each reader's `variant` inverts its writer's `From` conversion. */
  lemma VariantRoundTrip(a: Invert, s: SigInSel, b: bool)
    ensures InvertVariant(InvertBit(a)) == a && InvertBit(InvertVariant(b)) == b
    ensures SigInSelVariant(SigInSelBit(s)) == s && SigInSelBit(SigInSelVariant(b)) == b
  {
  }

  /** The three fields as the reader sees them. */
  datatype Fields = Fields(inSel: nat, inInvSel: Invert, sigInSel: SigInSel)

  /** `R::gpio_func_in_sel`, `gpio_func_in_inv_sel` and `gpio_sig_in_sel` together. */
  function Read(r: Word): (f: Fields)
    ensures f.inSel < 64
  {
    assert Pow2(6) == 64;
    Fields(Field(r, 0, IN_SEL_WIDTH), InvertVariant(r[IN_INV_SEL_BIT]), SigInSelVariant(r[SIG_IN_SEL_BIT]))
  }

  /** `GPIO_FUNC_IN_SEL_W::bits`: the low six bits of `value` become bits 0 to 5. */
  method InSelBits(w: Writer, value: u8)
    modifies w
    ensures w.bits == WithField(old(w.bits), 0, IN_SEL_WIDTH, value)
    ensures Read(w.bits).inSel == value % 64
    ensures w.bits[IN_SEL_WIDTH..] == old(w.bits)[IN_SEL_WIDTH..]
  {
    FieldAfterWrite(w.bits, 0, IN_SEL_WIDTH, value);
    assert Pow2(6) == 64;
    w.bits := WithField(w.bits, 0, IN_SEL_WIDTH, value);
  }

  /** `GPIO_FUNC_IN_INV_SEL_W::variant` (and `no_invert`, `invert`, `set_bit`,
      `clear_bit`, `bit`). */
  method InInvSelVariant(w: Writer, a: Invert)
    modifies w
    ensures w.bits == old(w.bits)[IN_INV_SEL_BIT := InvertBit(a)]
  {
    BitField(w.bits, IN_INV_SEL_BIT, InvertBit(a));
    w.bits := WithField(w.bits, IN_INV_SEL_BIT, 1, if InvertBit(a) then 1 else 0);
  }

  /** `GPIO_SIG_IN_SEL_W::variant` (and `connect`, `route`, `set_bit`, `clear_bit`,
      `bit`). */
  method SigInSelWrite(w: Writer, a: SigInSel)
    modifies w
    ensures w.bits == old(w.bits)[SIG_IN_SEL_BIT := SigInSelBit(a)]
  {
    BitField(w.bits, SIG_IN_SEL_BIT, SigInSelBit(a));
    w.bits := WithField(w.bits, SIG_IN_SEL_BIT, 1, if SigInSelBit(a) then 1 else 0);
  }

  /** The word the three writers build from `base`. */
  function Write(base: Word, f: Fields): (r: Word)
  {
    WithField(base, 0, IN_SEL_WIDTH, f.inSel)[IN_INV_SEL_BIT := InvertBit(f.inInvSel)]
      [SIG_IN_SEL_BIT := SigInSelBit(f.sigInSel)]
  }

  /** Writing the three fields and reading them back gives them again, the selector
      masked to six bits; every pad 0 to 39 and both constants fit. */
  lemma ReadAfterWrite(base: Word, f: Fields)
    ensures Read(Write(base, f)) == f.(inSel := f.inSel % 64)
    ensures f.inSel <= 39 || f.inSel == CONSTANT_HIGH || f.inSel == CONSTANT_LOW ==>
      Read(Write(base, f)).inSel == f.inSel
  {
    assert Pow2(6) == 64;
    var u := WithField(base, 0, IN_SEL_WIDTH, f.inSel);
    FieldAfterWrite(base, 0, IN_SEL_WIDTH, f.inSel);
    var v := Write(base, f);
    assert v[0..6] == u[0..6];
    VariantRoundTrip(f.inInvSel, f.sigInSel, false);
    if f.inSel < 64 {
      DivUnique(f.inSel, 64, 0, f.inSel);
    }
  }

  /** The writers leave bits 8 to 31 as they were. */
  lemma WriteKeepsHighBits(base: Word, f: Fields)
    ensures Write(base, f)[8..] == base[8..]
  {
    FieldAfterWrite(base, 0, IN_SEL_WIDTH, f.inSel);
  }

  /** Writing back what was read leaves the word unchanged. */
  lemma WriteBack(w: Word)
    ensures Write(w, Read(w)) == w
  {
    WriteFieldBack(w, 0, IN_SEL_WIDTH);
  }
}
