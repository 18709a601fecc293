/** The RTC clock helpers of src/rtc_clk.rs: the check that a scratch register holds a
    clock value (the value in both 16-bit halves), the decode of the crystal frequency, and
    the CPU frequency configuration read from the clock selectors, in MHz. The register
    values are parameters. */
module RtcClk {
  import opened Bits

  const RTC_PLL_FREQ_320M: u32 := 320
  const RTC_PLL_FREQ_480M: u32 := 480

  datatype Error = UnsupportedFreqConfig

  datatype CpuFreqSource = Xtal | Pll | Src8M

  datatype CpuFreqConfig = CpuFreqConfig(source: CpuFreqSource, sourceFreqMhz: u32, div: u32, freqMhz: u32)

  /** The `soc_clk_sel` field of `clk_conf`. */
  datatype SocClkSel = SocXtal | SocPll | SocCk8m | SocApll

  /** The `cpuperiod_sel` field of `cpu_per_conf`; the fourth value is reserved. */
  datatype CpuPeriodSel = Sel80 | Sel160 | Sel240 | SelReserved

  /** The low and the high 16-bit half of a word. */
  function Low16(v: u32): (r: nat)
    ensures r < 0x1_0000
  {
    v % 0x1_0000
  }

  function High16(v: u32): (r: nat)
    ensures r < 0x1_0000
  {
    v / 0x1_0000
  }

  /** A 16-bit value stored in both halves of a word. */
  function Doubled(k: nat): (r: int)
  {
    k * 0x1_0001
  }

  /** `clk_val_is_valid`: equal halves, and neither all zeros nor all ones. */
  predicate ClkValIsValid(v: u32)
    ensures ClkValIsValid(v) ==> v == Doubled(Low16(v)) && 0 < Low16(v) < 0xffff
  {
    DivUnique(v, 0x1_0000, High16(v), Low16(v));
    Low16(v) == High16(v) % 0x1_0000 && v != 0 && v != U32_LIMIT - 1
  }

  /** The valid words are exactly the doubled 16-bit values other than 0 and 0xffff. */
  lemma ValidIffDoubled(v: u32)
    ensures ClkValIsValid(v) <==> exists k :: 0 < k < 0xffff && v == Doubled(k)
  {
    if ClkValIsValid(v) {
      var k := Low16(v);
      DivUnique(v, 0x1_0000, High16(v), Low16(v));
      assert v == Doubled(k);
      assert 0 < k < 0xffff;
    }
    if exists k :: 0 < k < 0xffff && v == Doubled(k) {
      var k :| 0 < k < 0xffff && v == Doubled(k);
      DivUnique(v, 0x1_0000, k, k);
    }
  }

  /** `reg_val_to_clk_val`: the low half. */
  function RegValToClkVal(v: u32): (r: nat)
    ensures r < 0x1_0000 && v == High16(v) * 0x1_0000 + r
  {
    Low16(v)
  }

  /** The clock value a valid word holds is the doubled value. */
  lemma ClkValOfDoubled(k: nat)
    requires k < 0x1_0000
    ensures 0 <= Doubled(k) < U32_LIMIT
    ensures RegValToClkVal(Doubled(k)) == k
  {
    DivUnique(Doubled(k), 0x1_0000, k, k);
  }

  /** `xtal_freq_get`: 0 for an invalid word; otherwise the low half once the ROM-log
      flag `RTC_DISABLE_ROM_LOG` (bits 0 and 16) is cleared, that is the low half with bit
      0 cleared. */
  function XtalFreqGet(reg: u32): (r: u32)
    ensures !ClkValIsValid(reg) ==> r == 0
    ensures ClkValIsValid(reg) ==> 0 <= r < 0xffff && r % 2 == 0 && r <= Low16(reg) <= r + 1
  {
    if !ClkValIsValid(reg) then 0
    else
      var low := RegValToClkVal(reg);
      low - low % 2
  }

  /** The crystal frequency is 0 exactly for invalid words; a valid word holding `k` reads
      as `k` with its ROM-log bit cleared, whether or not the flag was set. */
  lemma XtalFreqOfWord(k: nat, reg: u32)
    ensures !ClkValIsValid(reg) ==> XtalFreqGet(reg) == 0
    ensures 0 < k < 0xffff && reg == Doubled(k) ==> XtalFreqGet(reg) == k - k % 2
    ensures 0 < k < 0xffff && k % 2 == 0 && reg == Doubled(k) ==> XtalFreqGet(reg) == k
  {
    if 0 < k < 0xffff && reg == Doubled(k) {
      ValidIffDoubled(reg);
      ClkValOfDoubled(k);
    }
  }

  /** `CpuFreqConfig::read`: the crystal divided by `pre_div_cnt + 1`; one of the three PLL
      settings; the 8 MHz oscillator undivided; UnsupportedFreqConfig for the APLL and the
      reserved period selector. */
  function ReadConfig(socClkSel: SocClkSel, preDivCnt: u16, periodSel: CpuPeriodSel, xtalReg: u32): (r: Result<CpuFreqConfig, Error>)
    ensures r.Err? <==> socClkSel == SocApll || (socClkSel == SocPll && periodSel == SelReserved)
    ensures r.Ok? ==> r.value.div > 0 && r.value.freqMhz == r.value.sourceFreqMhz / r.value.div
    ensures r.Ok? && socClkSel == SocXtal ==> r.value.source == Xtal && r.value.div == preDivCnt + 1
  {
    match socClkSel
    case SocXtal =>
      var div := preDivCnt + 1;
      var source := XtalFreqGet(xtalReg);
      Ok(CpuFreqConfig(Xtal, source, div, source / div))
    case SocPll =>
      (match periodSel
       case Sel80 => Ok(CpuFreqConfig(Pll, RTC_PLL_FREQ_320M, 4, 80))
       case Sel160 => Ok(CpuFreqConfig(Pll, RTC_PLL_FREQ_320M, 2, 160))
       case Sel240 => Ok(CpuFreqConfig(Pll, RTC_PLL_FREQ_480M, 2, 240))
       case SelReserved => Err(UnsupportedFreqConfig))
    case SocCk8m => Ok(CpuFreqConfig(Src8M, 8, 1, 8))
    case SocApll => Err(UnsupportedFreqConfig)
  }

  /** Every configuration read is consistent: the divider is positive and the CPU
      frequency is the source frequency over it; the source matches the selector; the error
      comes exactly from the APLL and the reserved PLL setting. */
  lemma ReadConfigConsistent(socClkSel: SocClkSel, preDivCnt: u16, periodSel: CpuPeriodSel, xtalReg: u32)
    ensures var r := ReadConfig(socClkSel, preDivCnt, periodSel, xtalReg);
      && (r.Err? <==> socClkSel == SocApll || (socClkSel == SocPll && periodSel == SelReserved))
      && (r.Ok? ==> r.value.div > 0 && r.value.sourceFreqMhz / r.value.div == r.value.freqMhz)
      && (r.Ok? ==> (r.value.source == Xtal <==> socClkSel == SocXtal)
                    && (r.value.source == Pll <==> socClkSel == SocPll))
      && (socClkSel == SocXtal ==> r.value.div == preDivCnt + 1 && r.value.sourceFreqMhz == XtalFreqGet(xtalReg))
  {
  }
}
