/** PLL control of src/clock_control/pll.rs: the per-crystal configuration tables and the
    bytes packed from them, and the power-down bits, calibration writes, frequency writes
    and settling delay of `pll_disable`, `pll_enable` and `set_pll_frequency`. The writes to
    the internal I2C bus (a ROM call) and the delay are events appended to a log, in the
    order the source issues them. */
module Pll {
  import opened Bits

  const DELAY_PLL_DBIAS_RAISE: nat := 3
  const DELAY_PLL_ENABLE_WITH_150K: nat := 80
  const DELAY_PLL_ENABLE_WITH_32K: nat := 160

  /** Register addresses on the internal I2C bus. */
  const IR_CAL_DELAY: u8 := 0
  const IR_CAL_EXT_CAP: u8 := 1
  const OC_LREF: u8 := 2
  const OC_DIV_7_0: u8 := 3
  const OC_ENB_FCAL: u8 := 4
  const OC_DCUR: u8 := 5
  const BBADC_DSMP: u8 := 9
  const OC_ENB_VCON: u8 := 10
  const ENDIV5: u8 := 11
  const BBADC_CAL_7_0: u8 := 12

  /** Values for those registers. */
  const ENDIV5_VAL_320M: u8 := 0x43
  const BBADC_DSMP_VAL_320M: u8 := 0x84
  const ENDIV5_VAL_480M: u8 := 0xc3
  const BBADC_DSMP_VAL_480M: u8 := 0x74
  const IR_CAL_DELAY_VAL: u8 := 0x18
  const IR_CAL_EXT_CAP_VAL: u8 := 0x20
  const OC_ENB_FCAL_VAL: u8 := 0x9a
  const OC_ENB_VCON_VAL: u8 := 0x00
  const BBADC_CAL_7_0_VAL: u8 := 0x00

  datatype Error = UnsupportedPllConfig

  /** The PLL settings for one crystal: reference divider, feedback divider (low 8 and top
      3 bits), loop reference, charge-pump current and bandwidth. */
  datatype Config = Config(divRef: u8, div7To0: u8, div10To8: u8, lref: u8, dcur: u8, bw: u8)

  const PLL_320M_XTAL_40M: Config := Config(0, 32, 0, 0, 6, 3)
  const PLL_320M_XTAL_26M: Config := Config(12, 224, 4, 1, 0, 1)
  const PLL_320M_XTAL_24M: Config := Config(11, 224, 4, 1, 0, 1)
  const PLL_480M_XTAL_40M: Config := Config(0, 28, 0, 0, 6, 3)
  const PLL_480M_XTAL_26M: Config := Config(12, 144, 4, 1, 0, 1)
  const PLL_480M_XTAL_24M: Config := Config(11, 144, 4, 1, 0, 1)

  /** `x << k` in u8: the bits shifted past bit 7 are lost. */
  function Shl8(x: u8, k: nat): (r: u8)
    ensures x * Pow2(k) < U8_LIMIT ==> r == x * Pow2(k)
  {
    Wrap8(x * Pow2(k))
  }

  lemma Pow2Eight()
    ensures Pow2(3) == 8 && Pow2(4) == 16 && Pow2(6) == 64 && Pow2(7) == 128 && Pow2(8) == 256
  {
    assert Pow2(2) == 4;
  }

  /** `|` of two bytes. */
  function Or8(a: u8, b: u8): (r: u8)
  {
    Pow2Eight();
    OrBelow(a, b, 8);
    Or(a, b)
  }

  /** `get_lref`: `lref << 7 | div10_8 << 4 | div_ref`. */
  function GetLref(c: Config): (r: u8)
    ensures c.divRef < 16 && c.div10To8 < 8 && c.lref < 2 ==>
      r == c.lref * 128 + c.div10To8 * 16 + c.divRef
  {
    Pow2Eight();
    LrefBits(c.lref, c.div10To8, c.divRef);
    Or8(Or8(Shl8(c.lref, 7), Shl8(c.div10To8, 4)), c.divRef)
  }

  /** `get_div7_0`. */
  function GetDiv7To0(c: Config): (r: u8)
    ensures c.divRef < 16 && c.div10To8 < 8 && c.lref < 2 ==>
      (GetLref(c) / 16) % 8 * 256 + r == c.div10To8 * 256 + c.div7To0
  {
    if c.divRef < 16 && c.div10To8 < 8 && c.lref < 2 then
      LrefFields(c);
      c.div7To0
    else c.div7To0
  }

  /** `get_dcur`: `bw << 6 | dcur`. */
  function GetDcur(c: Config): (r: u8)
    ensures c.dcur < 64 && c.bw < 4 ==> r == c.bw * 64 + c.dcur
  {
    Pow2Eight();
    DcurBits(c.bw, c.dcur);
    Or8(Shl8(c.bw, 6), c.dcur)
  }

  /** Or-ing both operands shifted up by one shifts the or up by one. */
  lemma OrDouble(a: nat, b: nat)
    ensures Or(2 * a, 2 * b) == 2 * Or(a, b)
  {
    if a != 0 && b != 0 {
      DivUnique(2 * a, 2, a, 0);
      DivUnique(2 * b, 2, b, 0);
    }
  }

  lemma {:induction false} OrShift(a: nat, b: nat, k: nat)
    ensures Or(a * Pow2(k), b * Pow2(k)) == Or(a, b) * Pow2(k)
  {
    if k > 0 {
      var p := Pow2(k - 1);
      var o := Or(a, b);
      calc {
        Or(a * Pow2(k), b * Pow2(k));
        { Twice(a, p); Twice(b, p); }
        Or(2 * (a * p), 2 * (b * p));
        { OrDouble(a * p, b * p); }
        2 * Or(a * p, b * p);
        { OrShift(a, b, k - 1); }
        2 * (o * p);
        { Twice(o, p); }
        o * Pow2(k);
      }
    }
  }

  lemma Twice(x: int, p: int)
    ensures x * (2 * p) == 2 * (x * p)
  {
  }

  /** Or-ing a number below `2^k` into one whose low `k` bits are clear adds it. */
  lemma {:induction false} OrDisjoint(a: nat, b: nat, k: nat)
    requires b < Pow2(k)
    ensures Or(a * Pow2(k), b) == a * Pow2(k) + b
  {
    if k > 0 && a != 0 && b != 0 {
      var p := Pow2(k - 1);
      Twice(a, p);
      DivUnique(a * Pow2(k), 2, a * p, 0);
      DivUnique(b, 2, b / 2, b % 2);
      OrDisjoint(a, b / 2, k - 1);
    }
  }

  /** With each field within its width (div_ref 4 bits, div10_8 3 bits, lref 1 bit) the
      loop-reference byte holds the three fields side by side, and each reads back. */
  lemma LrefFields(c: Config)
    requires c.divRef < 16 && c.div10To8 < 8 && c.lref < 2
    ensures GetLref(c) == c.lref * 128 + c.div10To8 * 16 + c.divRef
    ensures GetLref(c) / 128 == c.lref && (GetLref(c) / 16) % 8 == c.div10To8 && GetLref(c) % 16 == c.divRef
  {
    LrefDigits(GetLref(c), c.lref, c.div10To8, c.divRef);
  }

  lemma LrefBits(a: nat, d: nat, f: nat)
    ensures a < 2 && d < 8 && f < 16 ==> Or(Or(a * 128, d * 16), f) == a * 128 + d * 16 + f
  {
    if a < 2 && d < 8 && f < 16 {
      OrThree(a, d, f);
    }
  }

  lemma DcurBits(b: nat, d: nat)
    ensures b < 4 && d < 64 ==> Or(b * 64, d) == b * 64 + d
  {
    if b < 4 && d < 64 {
      Pow2Eight();
      OrDisjoint(b, d, 6);
    }
  }

  lemma LrefDigits(v: nat, a: nat, d: nat, f: nat)
    requires a < 2 && d < 8 && f < 16 && v == a * 128 + d * 16 + f
    ensures v / 128 == a && (v / 16) % 8 == d && v % 16 == f
  {
    var m := a * 8 + d;
    assert v == m * 16 + f;
    DivUnique(v, 128, a, d * 16 + f);
    DivUnique(v, 16, m, f);
    DivUnique(m, 8, a, d);
  }

  lemma OrThree(a: nat, d: nat, f: nat)
    requires d < 8 && f < 16
    ensures Or(Or(a * 128, d * 16), f) == a * 128 + d * 16 + f
  {
    Pow2Eight();
    var m := a * 8 + d;
    OrDisjoint(a, d, 3);
    OrShift(a * 8, d, 4);
    assert Or(a * 128, d * 16) == m * 16;
    OrDisjoint(m, f, 4);
  }

  /** With dcur within 6 bits and bw within 2, the current byte holds both, and each reads
      back. */
  lemma DcurFields(c: Config)
    requires c.dcur < 64 && c.bw < 4
    ensures GetDcur(c) == c.bw * 64 + c.dcur
    ensures GetDcur(c) / 64 == c.bw && GetDcur(c) % 64 == c.dcur
  {
    DivUnique(c.bw * 64 + c.dcur, 64, c.bw, c.dcur);
  }

  /** The bytes the six tables give. */
  lemma TableBytes()
    ensures GetLref(PLL_320M_XTAL_40M) == 0x00 && GetDcur(PLL_320M_XTAL_40M) == 0xc6
    ensures GetLref(PLL_320M_XTAL_26M) == 0xcc && GetDcur(PLL_320M_XTAL_26M) == 0x40
    ensures GetLref(PLL_320M_XTAL_24M) == 0xcb && GetDcur(PLL_320M_XTAL_24M) == 0x40
    ensures GetLref(PLL_480M_XTAL_40M) == 0x00 && GetDcur(PLL_480M_XTAL_40M) == 0xc6
    ensures GetLref(PLL_480M_XTAL_26M) == 0xcc && GetDcur(PLL_480M_XTAL_26M) == 0x40
    ensures GetLref(PLL_480M_XTAL_24M) == 0xcb && GetDcur(PLL_480M_XTAL_24M) == 0x40
  {
    LrefFields(PLL_320M_XTAL_40M);
    LrefFields(PLL_320M_XTAL_26M);
    LrefFields(PLL_320M_XTAL_24M);
    LrefFields(PLL_480M_XTAL_40M);
    DcurFields(PLL_320M_XTAL_40M);
    DcurFields(PLL_320M_XTAL_26M);
  }

  /** The table `set_pll_frequency` picks: the 480 MHz tables for the high setting, the
      320 MHz tables otherwise, by a 40, 26 or 24 MHz crystal; None for any other crystal. */
  function PllConfig(high: bool, xtalFrequency: u32): (r: Option<Config>)
    ensures r.Some? <==> xtalFrequency in {40_000_000, 26_000_000, 24_000_000}
    ensures r.Some? ==> r.value.div10To8 == (if xtalFrequency == 40_000_000 then 0 else 4)
    ensures r.Some? ==> r.value.div7To0 == (if high then (if xtalFrequency == 40_000_000 then 28 else 144)
                                            else (if xtalFrequency == 40_000_000 then 32 else 224))
  {
    if !high then
      if xtalFrequency == 40_000_000 then Some(PLL_320M_XTAL_40M)
      else if xtalFrequency == 26_000_000 then Some(PLL_320M_XTAL_26M)
      else if xtalFrequency == 24_000_000 then Some(PLL_320M_XTAL_24M)
      else None
    else
      if xtalFrequency == 40_000_000 then Some(PLL_480M_XTAL_40M)
      else if xtalFrequency == 26_000_000 then Some(PLL_480M_XTAL_26M)
      else if xtalFrequency == 24_000_000 then Some(PLL_480M_XTAL_24M)
      else None
  }

  /** The slow RTC sources; only the 150 kHz oscillator is told apart from the rest. */
  datatype SlowRtcSource = Rtc150k | OtherSlowSource

  /** The settling delay, in microseconds: 80 with the 150 kHz slow source, 160 otherwise
      (also when the source cannot be read, None). */
  function EnableDelay(slow: Option<SlowRtcSource>): (r: nat)
    ensures r == 80 <==> slow == Some(Rtc150k)
    ensures r == 80 || r == 160
  {
    if slow == Some(Rtc150k) then DELAY_PLL_ENABLE_WITH_150K else DELAY_PLL_ENABLE_WITH_32K
  }

  datatype Event = I2cWrite(address: u8, data: u8) | Delay(us: nat)

  /** The bus writes that come before the crystal is checked. */
  function DivWrites(high: bool): (r: seq<Event>)
  {
    if high then [I2cWrite(ENDIV5, ENDIV5_VAL_480M), I2cWrite(BBADC_DSMP, BBADC_DSMP_VAL_480M)]
    else [I2cWrite(ENDIV5, ENDIV5_VAL_320M), I2cWrite(BBADC_DSMP, BBADC_DSMP_VAL_320M)]
  }

  /** The writes of a table: loop reference, feedback divider and current, in that
      order. */
  function ConfigWrites(c: Config): (r: seq<Event>)
  {
    [I2cWrite(OC_LREF, GetLref(c)), I2cWrite(OC_DIV_7_0, GetDiv7To0(c)), I2cWrite(OC_DCUR, GetDcur(c))]
  }

  /** The calibration writes of `pll_enable`. */
  const CALIBRATION: seq<Event> := [
    I2cWrite(IR_CAL_DELAY, IR_CAL_DELAY_VAL), I2cWrite(IR_CAL_EXT_CAP, IR_CAL_EXT_CAP_VAL),
    I2cWrite(OC_ENB_FCAL, OC_ENB_FCAL_VAL), I2cWrite(OC_ENB_VCON, OC_ENB_VCON_VAL),
    I2cWrite(BBADC_CAL_7_0, BBADC_CAL_7_0_VAL)]

  /** The PLL's power-down bits of `options0` and the I2C bus and delay events. The APLL's
      power-down bit of `ana_conf`, the crystal frequency and the slow source come from the
      clock configuration and are read only. */
  class PllControl {
    var biasI2cForcePd: bool
    var bbI2cForcePd: bool
    var bbpllForcePd: bool
    var bbpllI2cForcePd: bool
    const pllaForcePd: bool
    const xtalFrequency: u32
    const slowRtcSource: Option<SlowRtcSource>
    var log: seq<Event>

    constructor(pllaForcePd: bool, xtalFrequency: u32, slowRtcSource: Option<SlowRtcSource>,
                biasI2cForcePd: bool, bbI2cForcePd: bool, bbpllForcePd: bool, bbpllI2cForcePd: bool)
      ensures this.pllaForcePd == pllaForcePd && this.xtalFrequency == xtalFrequency
      ensures this.slowRtcSource == slowRtcSource && this.biasI2cForcePd == biasI2cForcePd
      ensures this.bbI2cForcePd == bbI2cForcePd && this.bbpllForcePd == bbpllForcePd
      ensures this.bbpllI2cForcePd == bbpllI2cForcePd && log == []
    {
      this.pllaForcePd := pllaForcePd;
      this.xtalFrequency := xtalFrequency;
      this.slowRtcSource := slowRtcSource;
      this.biasI2cForcePd := biasI2cForcePd;
      this.bbI2cForcePd := bbI2cForcePd;
      this.bbpllForcePd := bbpllForcePd;
      this.bbpllI2cForcePd := bbpllI2cForcePd;
      log := [];
    }

    method WriteI2c(address: u8, data: u8)
      modifies this`log
      ensures log == old(log) + [I2cWrite(address, data)]
    {
      log := log + [I2cWrite(address, data)];
    }

    /** `pll_disable`: the I2C bias is powered down exactly when the APLL is; the other
        three bits power down; nothing is written on the bus. */
    method PllDisable()
      modifies this`biasI2cForcePd, this`bbI2cForcePd, this`bbpllForcePd, this`bbpllI2cForcePd
      ensures biasI2cForcePd == pllaForcePd && bbI2cForcePd && bbpllForcePd && bbpllI2cForcePd
    {
      biasI2cForcePd := pllaForcePd;
      bbI2cForcePd := true;
      bbpllForcePd := true;
      bbpllI2cForcePd := true;
    }

    /** `pll_enable`: the four power-down bits cleared, then the five calibration writes. */
    method PllEnable()
      modifies this`biasI2cForcePd, this`bbI2cForcePd, this`bbpllForcePd, this`bbpllI2cForcePd, this`log
      ensures !biasI2cForcePd && !bbI2cForcePd && !bbpllForcePd && !bbpllI2cForcePd
      ensures log == old(log) + CALIBRATION
    {
      biasI2cForcePd, bbI2cForcePd, bbpllForcePd, bbpllI2cForcePd := false, false, false, false;
      WriteI2c(IR_CAL_DELAY, IR_CAL_DELAY_VAL);
      WriteI2c(IR_CAL_EXT_CAP, IR_CAL_EXT_CAP_VAL);
      WriteI2c(OC_ENB_FCAL, OC_ENB_FCAL_VAL);
      WriteI2c(OC_ENB_VCON, OC_ENB_VCON_VAL);
      WriteI2c(BBADC_CAL_7_0, BBADC_CAL_7_0_VAL);
    }

    /** `set_pll_frequency`: the divider writes of the chosen speed; then, for a supported
        crystal, the loop reference, feedback divider and current of its table and the
        settling delay; for any other crystal UnsupportedPllConfig, after the divider
        writes. */
    method SetPllFrequency(high: bool) returns (r: Result<(), Error>)
      modifies this`log
      ensures r.Err? <==> PllConfig(high, xtalFrequency).None?
      ensures r.Err? ==> r.error == UnsupportedPllConfig && log == old(log) + DivWrites(high)
      ensures r.Ok? ==> var c := PllConfig(high, xtalFrequency).value;
        log == old(log) + DivWrites(high) + ConfigWrites(c) + [Delay(EnableDelay(slowRtcSource))]
    {
      if !high {
        WriteI2c(ENDIV5, ENDIV5_VAL_320M);
        WriteI2c(BBADC_DSMP, BBADC_DSMP_VAL_320M);
      } else {
        WriteI2c(ENDIV5, ENDIV5_VAL_480M);
        WriteI2c(BBADC_DSMP, BBADC_DSMP_VAL_480M);
      }
      assert log == old(log) + DivWrites(high);
      var config := PllConfig(high, xtalFrequency);
      if config.None? {
        return Err(UnsupportedPllConfig);
      }
      log := log + ConfigWrites(config.value);
      log := log + [Delay(EnableDelay(slowRtcSource))];
      r := Ok(());
    }
  }
}
