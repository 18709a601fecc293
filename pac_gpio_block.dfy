/** The `RegisterBlock` of the GPIO peripheral in the generated register-access crate: a
    `repr(C)` struct whose fields follow one another without padding. Every register is a
    `Reg<u32, _>` of four bytes, the reserved gaps are byte arrays, and
    `gpio_func_in_sel_cfg` is an array of 256 registers. Each register carries its
    documented offset, which the layout must reproduce. */
module GpioRegisterBlock {

  const REGISTER_SIZE: nat := 4
  const FUNC_IN_SEL_CFG_COUNT: nat := 256

  /** A field of the block: a reserved gap or a (possibly repeated) register with the
      offset its documentation gives. */
  datatype Field =
    | Reserved(bytes: nat)
    | Register(name: string, count: nat, documented: nat)

  function Size(f: Field): nat
  {
    match f
    case Reserved(bytes) => bytes
    case Register(_, count, _) => count * REGISTER_SIZE
  }

  /** A run of single registers declared back to back, the first documented at `base`
      and each next one four bytes further on. */
  function Run(names: seq<string>, base: nat): (r: seq<Field>)
    ensures |r| == |names|
    ensures forall k :: 0 <= k < |r| ==> r[k] == Register(names[k], 1, base + REGISTER_SIZE * k)
  {
    seq(|names|, k requires 0 <= k < |names| => Register(names[k], 1, base + REGISTER_SIZE * k))
  }

  const OUT_NAMES: seq<string> := ["gpio_out_reg", "gpio_out_w1ts_reg", "gpio_out_w1tc_reg",
    "gpio_out1_reg", "gpio_out1_w1ts_reg", "gpio_out1_w1tc_reg"]
  const ENABLE_NAMES: seq<string> := ["gpio_enable_reg", "gpio_enable_w1ts_reg", "gpio_enable_w1tc_reg",
    "gpio_enable1_reg", "gpio_enable1_w1ts_reg", "gpio_enable1_w1tc_reg"]
  const IN_NAMES: seq<string> := ["gpio_in_reg", "gpio_in1_reg"]
  /** The output selectors declared: func20, func24 and func28 to func31 are absent. */
  const FUNC_OUT_NAMES: seq<string> := [
    "gpio_func0_out_sel_cfg", "gpio_func1_out_sel_cfg", "gpio_func2_out_sel_cfg", "gpio_func3_out_sel_cfg",
    "gpio_func4_out_sel_cfg", "gpio_func5_out_sel_cfg", "gpio_func6_out_sel_cfg", "gpio_func7_out_sel_cfg",
    "gpio_func8_out_sel_cfg", "gpio_func9_out_sel_cfg", "gpio_func10_out_sel_cfg", "gpio_func11_out_sel_cfg",
    "gpio_func12_out_sel_cfg", "gpio_func13_out_sel_cfg", "gpio_func14_out_sel_cfg", "gpio_func15_out_sel_cfg",
    "gpio_func16_out_sel_cfg", "gpio_func17_out_sel_cfg", "gpio_func18_out_sel_cfg", "gpio_func19_out_sel_cfg",
    "gpio_func21_out_sel_cfg", "gpio_func22_out_sel_cfg", "gpio_func23_out_sel_cfg", "gpio_func25_out_sel_cfg",
    "gpio_func26_out_sel_cfg", "gpio_func27_out_sel_cfg", "gpio_func32_out_sel_cfg", "gpio_func33_out_sel_cfg"]

  /** The fields in declaration order, each register with its documented offset: the
      output registers at 0x04 to 0x18, the enable registers at 0x20 to 0x34, the input
      registers at 0x3c and 0x40, the input selectors at 0x130 and the output selectors
      at 0x530 to 0x59c. */
  const LAYOUT: seq<Field> :=
    [Reserved(4)] + Run(OUT_NAMES, 0x04) +
    [Reserved(4)] + Run(ENABLE_NAMES, 0x20) +
    [Reserved(4)] + Run(IN_NAMES, 0x3c) +
    [Reserved(236), Register("gpio_func_in_sel_cfg", FUNC_IN_SEL_CFG_COUNT, 0x130)] +
    Run(FUNC_OUT_NAMES, 0x530)

  /** The bytes taken by a run of fields. */
  function Total(fields: seq<Field>): nat
  {
    if fields == [] then 0 else Size(fields[0]) + Total(fields[1..])
  }

  /** The offset at which field i starts: the sizes of the fields before it. */
  function Start(fields: seq<Field>, i: nat): nat
    requires i <= |fields|
  {
    Total(fields[..i])
  }

  /** Every register of a run starting at byte `at` sits at its documented offset, checked
      field by field. */
  predicate Documented(fields: seq<Field>, at: nat)
  {
    fields == [] ||
    ((fields[0].Register? ==> fields[0].documented == at) && Documented(fields[1..], at + Size(fields[0])))
  }

  lemma {:induction false} TotalAppend(a: seq<Field>, b: seq<Field>)
    ensures Total(a + b) == Total(a) + Total(b)
  {
    if a != [] {
      assert (a + b)[1..] == a[1..] + b;
      TotalAppend(a[1..], b);
    } else {
      assert a + b == b;
    }
  }

  /** A field ends no later than any later field starts: no two fields overlap. */
  lemma NoOverlap(fields: seq<Field>, i: nat, j: nat)
    requires i < j <= |fields|
    ensures Start(fields, i) + Size(fields[i]) <= Start(fields, j)
  {
    var one := [fields[i]];
    assert fields[..j] == (fields[..i] + one) + fields[i + 1..j];
    TotalAppend(fields[..i] + one, fields[i + 1..j]);
    TotalAppend(fields[..i], one);
    assert one[1..] == [];
  }

  /** When the documented offsets agree field by field, each register's documented offset is its start
      in the layout. */
  lemma {:induction false} DocumentedIsStart(fields: seq<Field>, at: nat, i: nat)
    requires Documented(fields, at) && i < |fields| && fields[i].Register?
    ensures fields[i].documented == at + Start(fields, i)
  {
    if i > 0 {
      DocumentedIsStart(fields[1..], at + Size(fields[0]), i - 1);
      assert fields[..i][1..] == fields[1..][..i - 1];
    }
  }

  /** A run of registers at a four-byte stride agrees with its documented offsets from its base and takes
      four bytes per register. */
  lemma {:induction false} RunDocumented(names: seq<string>, base: nat)
    ensures Documented(Run(names, base), base)
    ensures Total(Run(names, base)) == REGISTER_SIZE * |names|
  {
    if names != [] {
      RunDocumented(names[1..], base + REGISTER_SIZE);
      assert Run(names, base)[1..] == Run(names[1..], base + REGISTER_SIZE);
    }
  }

  /** Agreement with the documented offsets composes over concatenation. */
  lemma {:induction false} DocumentedAppend(a: seq<Field>, b: seq<Field>, at: nat)
    requires Documented(a, at) && Documented(b, at + Total(a))
    ensures Documented(a + b, at)
    ensures Total(a + b) == Total(a) + Total(b)
  {
    TotalAppend(a, b);
    if a != [] {
      assert (a + b)[1..] == a[1..] + b;
      DocumentedAppend(a[1..], b, at + Size(a[0]));
    } else {
      assert a + b == b;
    }
  }

  /** A gap or a register array taken alone. */
  lemma Single(f: Field, at: nat)
    requires f.Register? ==> f.documented == at
    ensures Documented([f], at) && Total([f]) == Size(f)
  {
    assert [f][1..] == [];
  }

  /** Every declared register sits at its documented offset and the block is 0x5a0
      bytes. */
  lemma LayoutDocumented()
    ensures Documented(LAYOUT, 0) && Total(LAYOUT) == 0x5a0
  {
    var p := [Reserved(4)];
    Single(Reserved(4), 0);
    RunDocumented(OUT_NAMES, 0x04);
    DocumentedAppend(p, Run(OUT_NAMES, 0x04), 0);
    p := p + Run(OUT_NAMES, 0x04);
    Single(Reserved(4), 0x1c);
    DocumentedAppend(p, [Reserved(4)], 0);
    p := p + [Reserved(4)];
    RunDocumented(ENABLE_NAMES, 0x20);
    DocumentedAppend(p, Run(ENABLE_NAMES, 0x20), 0);
    p := p + Run(ENABLE_NAMES, 0x20);
    Single(Reserved(4), 0x38);
    DocumentedAppend(p, [Reserved(4)], 0);
    p := p + [Reserved(4)];
    RunDocumented(IN_NAMES, 0x3c);
    DocumentedAppend(p, Run(IN_NAMES, 0x3c), 0);
    p := p + Run(IN_NAMES, 0x3c);
    var tail := [Reserved(236), Register("gpio_func_in_sel_cfg", FUNC_IN_SEL_CFG_COUNT, 0x130)];
    Single(tail[1], 0x130);
    Single(tail[0], 0x44);
    DocumentedAppend([tail[0]], [tail[1]], 0x44);
    assert [tail[0]] + [tail[1]] == tail;
    DocumentedAppend(p, tail, 0);
    p := p + tail;
    RunDocumented(FUNC_OUT_NAMES, 0x530);
    DocumentedAppend(p, Run(FUNC_OUT_NAMES, 0x530), 0);
    p := p + Run(FUNC_OUT_NAMES, 0x530);
    assert p == LAYOUT;
  }

  /** The block as declared: each register's documented offset is where it lies, and no
      two fields overlap. */
  lemma LayoutMatchesDocumentation(i: nat, j: nat)
    requires i < j < |LAYOUT|
    ensures LAYOUT[i].Register? ==> LAYOUT[i].documented == Start(LAYOUT, i)
    ensures Start(LAYOUT, i) + Size(LAYOUT[i]) <= Start(LAYOUT, j)
  {
    LayoutDocumented();
    if LAYOUT[i].Register? {
      DocumentedIsStart(LAYOUT, 0, i);
    }
    NoOverlap(LAYOUT, i, j);
  }

  /** Entry k of `gpio_func_in_sel_cfg` lies at 0x130 + 4k, inside the array, which ends
      where `gpio_func0_out_sel_cfg` starts at 0x530; func21 follows func19 at 0x580 and
      the last selector, func33, sits at 0x59c. */
  lemma FuncInSelEntry(k: nat)
    requires k < FUNC_IN_SEL_CFG_COUNT
    ensures Start(LAYOUT, 18) == 0x130 && Start(LAYOUT, 19) == 0x530
    ensures Start(LAYOUT, 18) + REGISTER_SIZE * k + REGISTER_SIZE <= Start(LAYOUT, 19)
    ensures LAYOUT[39] == Register("gpio_func21_out_sel_cfg", 1, 0x580)
    ensures LAYOUT[46] == Register("gpio_func33_out_sel_cfg", 1, 0x59c) && |LAYOUT| == 47
  {
    LayoutDocumented();
    DocumentedIsStart(LAYOUT, 0, 18);
    DocumentedIsStart(LAYOUT, 0, 19);
  }
}
