/** `GPIO_FUNC_OUT_SEL_CFG_REG` of the generated register-access crate: the output
    signal of a GPIO matrix pad. Bits 0 to 8 select the peripheral signal, bit 9 inverts
    it, bit 10 chooses how the output enable is driven and bit 11 inverts that. */
module GpioFuncOutSelCfg {
  import opened Bits
  import opened RegisterWord

  /** `reset_value`: 0. */
  const RESET_VALUE: Word := RESET

  const OUT_SEL_WIDTH: nat := 9
  const OUT_INV_SEL_BIT: nat := 9
  const OEN_SEL_BIT: nat := 10
  const OEN_INV_SEL_BIT: nat := 11

  /** `GPIO_FUNC_OUT_INV_SEL_A` and `GPIO_FUNC_OEN_INV_SEL_A`. */
  datatype Invert = NoInvert | Invert

  /** `GPIO_FUNC_OEN_SEL_A`. */
  datatype OenSel = Low | High

  function InvertBit(a: Invert): bool
  {
    match a
    case NoInvert => false
    case Invert => true
  }

  function InvertVariant(b: bool): Invert
  {
    if b then Invert else NoInvert
  }

  function OenSelBit(a: OenSel): bool
  {
    match a
    case Low => false
    case High => true
  }

  function OenSelVariant(b: bool): OenSel
  {
    if b then High else Low
  }

  /** Each reader's `variant` inverts its writer's `From` conversion. */
  lemma VariantRoundTrip(a: Invert, o: OenSel, b: bool)
    ensures InvertVariant(InvertBit(a)) == a && InvertBit(InvertVariant(b)) == b
    ensures OenSelVariant(OenSelBit(o)) == o && OenSelBit(OenSelVariant(b)) == b
  {
  }

  /** The four fields as the reader sees them. */
  datatype Fields = Fields(outSel: nat, outInvSel: Invert, oenSel: OenSel, oenInvSel: Invert)

  /** `R::gpio_func_out_sel`, `gpio_func_out_inv_sel`, `gpio_func_oen_sel` and
      `gpio_func_oen_inv_sel` together. */
  function Read(r: Word): (f: Fields)
    ensures f.outSel < 512
  {
    assert Pow2(9) == 512;
    Fields(Field(r, 0, OUT_SEL_WIDTH), InvertVariant(r[OUT_INV_SEL_BIT]), OenSelVariant(r[OEN_SEL_BIT]),
           InvertVariant(r[OEN_INV_SEL_BIT]))
  }

  /** `GPIO_FUNC_OUT_SEL_W::bits`: the low nine bits of `value` become bits 0 to 8. */
  method OutSelBits(w: Writer, value: u16)
    modifies w
    ensures w.bits == WithField(old(w.bits), 0, OUT_SEL_WIDTH, value)
    ensures Read(w.bits).outSel == value % 512
    ensures w.bits[OUT_SEL_WIDTH..] == old(w.bits)[OUT_SEL_WIDTH..]
  {
    FieldAfterWrite(w.bits, 0, OUT_SEL_WIDTH, value);
    assert Pow2(9) == 512;
    w.bits := WithField(w.bits, 0, OUT_SEL_WIDTH, value);
  }

  /** The `bit` writer of the one-bit field at bit k. */
  method FlagBit(w: Writer, k: nat, value: bool)
    requires k == OUT_INV_SEL_BIT || k == OEN_SEL_BIT || k == OEN_INV_SEL_BIT
    modifies w
    ensures w.bits == old(w.bits)[k := value]
  {
    BitField(w.bits, k, value);
    w.bits := WithField(w.bits, k, 1, if value then 1 else 0);
  }

  /** `GPIO_FUNC_OUT_INV_SEL_W::variant` (and `no_invert`, `invert`, `set_bit`,
      `clear_bit`). */
  method OutInvSelVariant(w: Writer, a: Invert)
    modifies w
    ensures w.bits == old(w.bits)[OUT_INV_SEL_BIT := InvertBit(a)]
  {
    FlagBit(w, OUT_INV_SEL_BIT, InvertBit(a));
  }

  /** `GPIO_FUNC_OEN_SEL_W::variant` (and `low`, `high`, `set_bit`, `clear_bit`). */
  method OenSelWrite(w: Writer, a: OenSel)
    modifies w
    ensures w.bits == old(w.bits)[OEN_SEL_BIT := OenSelBit(a)]
  {
    FlagBit(w, OEN_SEL_BIT, OenSelBit(a));
  }

  /** `GPIO_FUNC_OEN_INV_SEL_W::variant` (and `no_invert`, `invert`, `set_bit`,
      `clear_bit`). */
  method OenInvSelVariant(w: Writer, a: Invert)
    modifies w
    ensures w.bits == old(w.bits)[OEN_INV_SEL_BIT := InvertBit(a)]
  {
    FlagBit(w, OEN_INV_SEL_BIT, InvertBit(a));
  }

  /** The word the four writers build from `base`. */
  function Write(base: Word, f: Fields): (r: Word)
  {
    WithField(base, 0, OUT_SEL_WIDTH, f.outSel)[OUT_INV_SEL_BIT := InvertBit(f.outInvSel)]
      [OEN_SEL_BIT := OenSelBit(f.oenSel)][OEN_INV_SEL_BIT := InvertBit(f.oenInvSel)]
  }

  /** Writing the four fields and reading them back gives them again, the selector
      masked to nine bits. */
  lemma ReadAfterWrite(base: Word, f: Fields)
    ensures Read(Write(base, f)) == f.(outSel := f.outSel % 512)
  {
    assert Pow2(9) == 512;
    var u := WithField(base, 0, OUT_SEL_WIDTH, f.outSel);
    FieldAfterWrite(base, 0, OUT_SEL_WIDTH, f.outSel);
    var v := Write(base, f);
    assert v[0..9] == u[0..9];
    VariantRoundTrip(f.outInvSel, f.oenSel, false);
    VariantRoundTrip(f.oenInvSel, f.oenSel, false);
  }

  /** The writers leave bits 12 to 31 as they were. */
  lemma WriteKeepsHighBits(base: Word, f: Fields)
    ensures Write(base, f)[12..] == base[12..]
  {
    FieldAfterWrite(base, 0, OUT_SEL_WIDTH, f.outSel);
  }

  /** Writing back what was read leaves the word unchanged. */
  lemma WriteBack(w: Word)
    ensures Write(w, Read(w)) == w
  {
    WriteFieldBack(w, 0, OUT_SEL_WIDTH);
  }
}
