/** Clock control of src/clock_control/mod.rs: the scratch registers that hold the crystal
    and APB frequencies (`store4`, `store5`), the CPU clock selection with its divider and
    reference-tick setting, the core voltage, and the slow-clock selector. The decodes are
    functions of register values; `ClockControl` holds the registers the driver writes.
    Frequencies are in Hz unless a name says MHz. */
module ClockControl {
  import opened Bits
  import RtcClk

  const REF_CLK_FREQ_1M: u32 := 1_000_000
  const RTC_PLL_FREQ_320M: u32 := 320_000_000
  const RTC_PLL_FREQ_480M: u32 := 480_000_000
  const RTC_SLOW_CLK_FREQ_32K: u32 := 32_768
  const RTC_SLOW_CLK_FREQ_150K: u32 := 150_000
  /** The 8 MHz oscillator runs at 8.5 MHz with the default tuning. */
  const RTC_FAST_CLK_FREQ_8M: u32 := 8_500_000
  const RTC_SLOW_CLK_FREQ_8MD256: u32 := RTC_FAST_CLK_FREQ_8M / 256

  /** The default the getters fall back to. */
  const DEFAULT_FREQ_40M: u32 := 40_000_000

  datatype Error = UnsupportedFreqConfig | UnsupportedWatchdogConfig

  /** The core voltage settings of `dig_dbias_wak`. */
  datatype CoreBias = Bias0V90 | Bias0V95 | Bias1V00 | Bias1V05 | Bias1V10 | Bias1V15 | Bias1V20 | Bias1V25

  const DIG_DBIAS_XTAL: CoreBias := Bias1V10
  const DIG_DBIAS_2M: CoreBias := Bias1V00

  /** The RTC slow-clock sources of `ana_clk_rtc_sel`. */
  datatype SlowClockSource = SlowCk | CkXtal32k | Ck8mD256Out

  datatype CpuFreqConfig = CpuFreqConfig(source: RtcClk.CpuFreqSource, sourceFrequency: u32, divider: u32, frequency: u32)

  /** `xtal_freq` as written: 40 MHz for an invalid word, otherwise the low 15 bits of the
      word, taking bit 15 for the ROM-log flag. */
  function XtalFreqAsWritten(reg: u32): (r: u32)
    ensures !RtcClk.ClkValIsValid(reg) ==> r == XtalFreq(reg)
    ensures RtcClk.ClkValIsValid(reg) ==> r == XtalFreq(reg) + reg % 2
  {
    if !RtcClk.ClkValIsValid(reg) then 40
    else
      LowBitsParity(reg);
      reg % 0x8000
  }

  /** Keeping the low 15 bits of a word keeps its bit 0. */
  lemma LowBitsParity(reg: u32)
    ensures (reg % 0x8000) % 2 == reg % 2
    ensures (reg % 0x8000) - (reg % 0x8000) % 2 + reg % 2 == reg % 0x8000
  {
    var q := reg / 0x8000;
    assert reg == 2 * (0x4000 * q) + reg % 0x8000;
  }

  /** With the ROM-log flag set (bit 0 of each half), a 40 MHz crystal reads as 41 MHz. */
  lemma XtalFreqAsWrittenReadsFlag()
    ensures RtcClk.Doubled(41) == 0x0029_0029
    ensures XtalFreqAsWritten(0x0029_0029) == 41
  {
    RtcClk.ValidIffDoubled(0x0029_0029);
    assert 0x0029_0029 == RtcClk.Doubled(41);
  }

  /** `xtal_freq` with the ROM-log flag cleared as the flag is defined next to
      `xtal_freq_get`, bit 0 of each half: the low 15 bits with bit 0 cleared, in MHz. The
      model uses this. */
  function XtalFreq(reg: u32): (r: u32)
    ensures !RtcClk.ClkValIsValid(reg) ==> r == 40
    ensures RtcClk.ClkValIsValid(reg) ==> r % 2 == 0 && r <= reg % 0x8000 <= r + 1
  {
    if !RtcClk.ClkValIsValid(reg) then 40
    else
      var low := reg % 0x8000;
      low - low % 2
  }

  /** The crystal frequency ignores the ROM-log flag, and for every valid word holding less
      than 0x8000 it agrees with `xtal_freq_get`. */
  lemma XtalFreqIgnoresFlag(k: nat)
    requires 0 < k < 0x8000 && k % 2 == 0
    ensures XtalFreq(RtcClk.Doubled(k)) == k && XtalFreq(RtcClk.Doubled(k + 1)) == k
    ensures RtcClk.XtalFreqGet(RtcClk.Doubled(k)) == k && RtcClk.XtalFreqGet(RtcClk.Doubled(k + 1)) == k
  {
    Decoded(k);
    Decoded(k + 1);
  }

  lemma Decoded(k: nat)
    requires 0 < k < 0x8000
    ensures var reg := RtcClk.Doubled(k);
      0 <= reg < U32_LIMIT && RtcClk.ClkValIsValid(reg) && reg % 0x8000 == k
      && XtalFreq(reg) == k - k % 2 && RtcClk.XtalFreqGet(reg) == k - k % 2
  {
    var reg := RtcClk.Doubled(k);
    RtcClk.ClkValOfDoubled(k);
    RtcClk.ValidIffDoubled(reg);
    DivUnique(reg, 0x8000, 2 * k, k);
    RtcClk.XtalFreqOfWord(k, reg);
  }

  /** The frequency rounded to the nearest MHz, halves upward, as `apb_frequency` does in
      u32. */
  function RoundMhz(f: nat): (r: nat)
    requires f + 500_000 < U32_LIMIT
    ensures r % 1_000_000 == 0
    ensures f - 500_000 < r <= f + 500_000
  {
    var g := f + 500_000;
    g - g % 1_000_000
  }

  /** The APB frequency a word encodes: its low 15 bits are the frequency in units of
      4096 Hz. */
  function ApbOfWord(reg: u32): (r: nat)
  {
    RoundMhz((reg % 0x8000) * 4096)
  }

  /** `apb_frequency` as written: it returns the 40 MHz default when the word IS valid
      and decodes the word when it is not. */
  function ApbFrequencyAsWritten(reg: u32): (r: nat)
    ensures r == ApbFrequency(reg) <==> ApbOfWord(reg) == DEFAULT_FREQ_40M
  {
    if RtcClk.ClkValIsValid(reg) then DEFAULT_FREQ_40M else ApbOfWord(reg)
  }

  /** `apb_frequency` as evidently intended (and as `xtal_freq` tests): the default for an
      invalid word, the decoded frequency for a valid one. The model uses this. */
  function ApbFrequency(reg: u32): (r: nat)
    ensures !RtcClk.ClkValIsValid(reg) ==> r == DEFAULT_FREQ_40M
    ensures RtcClk.ClkValIsValid(reg) ==>
      r % 1_000_000 == 0 && (reg % 0x8000) * 4096 - 500_000 < r <= (reg % 0x8000) * 4096 + 500_000
  {
    if !RtcClk.ClkValIsValid(reg) then DEFAULT_FREQ_40M else ApbOfWord(reg)
  }

  /** The word `set_apb_frequency` stores: `v | v << 16` in u32 with `v = x >> 12`. The low
      half is `v`'s low half; the high half is `v` shifted down by 16 or-ed with `v`'s low
      half. */
  function ApbWord(x: u32): (r: u32)
    ensures r % 0x1_0000 == (x / 4096) % 0x1_0000
    ensures x / 4096 < 0x1_0000 ==> r / 0x1_0000 == x / 4096
  {
    var v := x / 4096;
    DivFloor(x, 4096);
    DivFloor(v, 0x1_0000);
    ShortHalves(v);
    HighHalfOfZero(v % 0x1_0000);
    Pack(v % 0x1_0000, HighHalf(v % 0x1_0000, v / 0x1_0000))
  }

  lemma ShortHalves(v: nat)
    ensures v < 0x1_0000 ==> v / 0x1_0000 == 0 && v % 0x1_0000 == v
  {
    if v < 0x1_0000 {
      DivUnique(v, 0x1_0000, 0, v);
    }
  }

  /** With nothing above the low half, the high half of `v | v << 16` is `v`. */
  lemma HighHalfOfZero(low: nat)
    requires low < 0x1_0000
    ensures HighHalf(low, 0) == low
  {
    DivUnique(low, 16, low / 16, low % 16);
  }

  /** The high half of `v | v << 16`: the low half shifted up or-ed with the four bits of
      `v` above the low half. */
  function HighHalf(low: nat, high: nat): (r: nat)
    requires low < 0x1_0000 && high < 16
    ensures r < 0x1_0000
  {
    var q, m := low / 16, low % 16;
    OrBelow4(high, m);
    DivUnique(low, 16, q, m);
    q * 16 + Or(high, m)
  }

  lemma OrBelow4(a: nat, b: nat)
    requires a < 16 && b < 16
    ensures Or(a, b) < 16
  {
    assert Pow2(4) == 16 by {
      assert Pow2(2) == 4;
    }
    OrBelow(a, b, 4);
  }

  /** The word with the given 16-bit halves. */
  function Pack(low: nat, high: nat): (r: u32)
    requires low < 0x1_0000 && high < 0x1_0000
    ensures r % 0x1_0000 == low && r / 0x1_0000 == high
  {
    DivUnique(low + 0x1_0000 * high, 0x1_0000, high, low);
    MulMonotone(high, 0xffff, 0x1_0000);
    low + 0x1_0000 * high
  }

  /** For `0 < x >> 12 < 0xffff` the stored word is `x >> 12` in both halves, a valid clock
      word. */
  lemma ApbWordDoubled(x: u32)
    requires 0 < x / 4096 < 0xffff
    ensures ApbWord(x) == RtcClk.Doubled(x / 4096) && RtcClk.ClkValIsValid(ApbWord(x))
  {
    var v := x / 4096;
    DivUnique(v, 0x1_0000, 0, v);
    DivUnique(v, 16, v / 16, v % 16);
    assert HighHalf(v, 0) == v;
    RtcClk.ValidIffDoubled(ApbWord(x));
  }

  /** Setting an APB frequency that is a whole number of MHz below 134 MHz and reading it
      back gives that frequency. */
  lemma ApbRoundTrip(x: u32)
    requires x % 1_000_000 == 0 && 1_000_000 <= x < 0x8000 * 4096
    ensures ApbFrequency(ApbWord(x)) == x
  {
    var v := x / 4096;
    ApbWordDoubled(x);
    var reg := ApbWord(x);
    DivUnique(reg, 0x8000, 2 * v, v);
    RoundBack(x, v * 4096);
  }

  /** A whole number of MHz `x` is the nearest whole number of MHz to any `f` in
      `(x - 4096, x]`. */
  lemma RoundBack(x: nat, f: nat)
    requires x % 1_000_000 == 0 && x - 4096 < f <= x && x + 500_000 < U32_LIMIT
    ensures RoundMhz(f) == x
  {
    var g := f + 500_000;
    DivUnique(g, 1_000_000, x / 1_000_000, g - x);
  }

  /** As written, every frequency `set_apb_frequency` can store validly reads back as the
      40 MHz default. */
  lemma ApbAsWrittenIgnoresWord(x: u32)
    requires 0 < x / 4096 < 0xffff
    ensures ApbFrequencyAsWritten(ApbWord(x)) == DEFAULT_FREQ_40M
  {
    ApbWordDoubled(x);
  }

  /** For instance 80 MHz: stored as 19531 in both halves, read back as 40 MHz as
      written and as 80 MHz as intended. */
  lemma ApbAsWrittenExample()
    ensures ApbWord(80_000_000) == RtcClk.Doubled(19531)
    ensures ApbFrequencyAsWritten(ApbWord(80_000_000)) == 40_000_000
    ensures ApbFrequency(ApbWord(80_000_000)) == 80_000_000
  {
    DivUnique(80_000_000, 4096, 19531, 1024);
    ApbWordDoubled(80_000_000);
    ApbRoundTrip(80_000_000);
  }

  /** The crystal frequency in Hz: `MegaHertz` into `Hertz`, in u32. */
  function XtalHz(reg: u32): (r: u32)
  {
    Wrap32(XtalFreq(reg) * 1_000_000)
  }

  /** `cpu_frequency_config`: as `CpuFreqConfig::read`, in Hz, with the crystal frequency
      of `xtal_freq`. */
  function CpuFrequencyConfig(socClkSel: RtcClk.SocClkSel, preDivCnt: u16, periodSel: RtcClk.CpuPeriodSel, xtalReg: u32): (r: Result<CpuFreqConfig, Error>)
    ensures r.Err? <==> socClkSel == RtcClk.SocApll || (socClkSel == RtcClk.SocPll && periodSel == RtcClk.SelReserved)
    ensures r.Err? ==> r.error == UnsupportedFreqConfig
    ensures r.Ok? ==> r.value.divider > 0 && r.value.frequency == r.value.sourceFrequency / r.value.divider
    ensures r.Ok? ==> (r.value.source == RtcClk.Xtal <==> socClkSel == RtcClk.SocXtal)
    ensures r.Ok? ==> r.value.frequency <= r.value.sourceFrequency
    ensures socClkSel == RtcClk.SocXtal ==> r.Ok? && r.value.sourceFrequency == XtalHz(xtalReg)
    ensures socClkSel != RtcClk.SocXtal && r.Ok? ==> r.value.frequency <= 240_000_000
  {
    match socClkSel
    case SocXtal =>
      var divider := preDivCnt + 1;
      var source := XtalHz(xtalReg);
      DivLe(source, divider);
      Ok(CpuFreqConfig(RtcClk.Xtal, source, divider, source / divider))
    case SocPll =>
      (match periodSel
       case Sel80 => Ok(CpuFreqConfig(RtcClk.Pll, RTC_PLL_FREQ_320M, 4, 80_000_000))
       case Sel160 => Ok(CpuFreqConfig(RtcClk.Pll, RTC_PLL_FREQ_320M, 2, 160_000_000))
       case Sel240 => Ok(CpuFreqConfig(RtcClk.Pll, RTC_PLL_FREQ_480M, 2, 240_000_000))
       case SelReserved => Err(UnsupportedFreqConfig))
    case SocCk8m => Ok(CpuFreqConfig(RtcClk.Src8M, 8_000_000, 1, 8_000_000))
    case SocApll => Err(UnsupportedFreqConfig)
  }

  /** The configuration in Hz is the configuration of `CpuFreqConfig::read` in MHz, scaled:
      the same source, divider and error, and a million times the frequencies. For the
      crystal this holds for every even crystal value below 0x8000 MHz that fits in Hz,
      with or without the ROM-log flag. */
  lemma ConfigMatchesRtcClk(socClkSel: RtcClk.SocClkSel, preDivCnt: u16, periodSel: RtcClk.CpuPeriodSel, k: nat, flag: bool)
    requires 0 < k < 0x8000 && k % 2 == 0 && k * 1_000_000 < U32_LIMIT
    ensures var xtalReg := RtcClk.Doubled(if flag then k + 1 else k);
      0 <= xtalReg < U32_LIMIT &&
      var r := CpuFrequencyConfig(socClkSel, preDivCnt, periodSel, xtalReg);
      var m := RtcClk.ReadConfig(socClkSel, preDivCnt, periodSel, xtalReg);
      && (r.Err? <==> m.Err?)
      && (r.Ok? ==> r.value.source == m.value.source && r.value.divider == m.value.div
                    && r.value.sourceFrequency == m.value.sourceFreqMhz * 1_000_000
                    && (socClkSel != RtcClk.SocXtal ==> r.value.frequency == m.value.freqMhz * 1_000_000))
  {
    XtalFreqIgnoresFlag(k);
  }

  /** `cpu_frequency`: the configured frequency, or 0 Hz when the configuration is not
      supported. */
  function CpuFrequency(socClkSel: RtcClk.SocClkSel, preDivCnt: u16, periodSel: RtcClk.CpuPeriodSel, xtalReg: u32): (r: u32)
    ensures socClkSel == RtcClk.SocXtal ==> r <= XtalHz(xtalReg)
    ensures socClkSel != RtcClk.SocXtal ==> r <= 240_000_000
  {
    match CpuFrequencyConfig(socClkSel, preDivCnt, periodSel, xtalReg)
    case Ok(config) => config.frequency
    case Err(_) => 0
  }

  /** `cpu_frequency` is 0 Hz exactly for an unsupported configuration or a crystal
      divided below 1 Hz; from the PLL it is 80, 160 or 240 MHz. */
  lemma CpuFrequencyZero(socClkSel: RtcClk.SocClkSel, preDivCnt: u16, periodSel: RtcClk.CpuPeriodSel, xtalReg: u32)
    ensures var r := CpuFrequency(socClkSel, preDivCnt, periodSel, xtalReg);
      && (r == 0 <==> (CpuFrequencyConfig(socClkSel, preDivCnt, periodSel, xtalReg).Err?
                       || (socClkSel == RtcClk.SocXtal && XtalHz(xtalReg) < preDivCnt + 1)))
      && (socClkSel == RtcClk.SocPll && r != 0 ==> r in {80_000_000, 160_000_000, 240_000_000})
  {
    if socClkSel == RtcClk.SocXtal {
      DivZero(XtalHz(xtalReg), preDivCnt + 1);
    }
  }

  /** `slow_frequency`: 150 kHz, 32768 Hz or 8.5 MHz / 256 for the three sources, 0 Hz for
      the reserved selector (None). */
  function SlowFrequency(sel: Option<SlowClockSource>): (r: u32)
    ensures r == 0 <==> sel.None?
    ensures sel == Some(SlowCk) ==> r == 150_000
    ensures sel == Some(CkXtal32k) ==> r == 32_768
    ensures sel == Some(Ck8mD256Out) ==> r == 33_203
  {
    match sel
    case Some(SlowCk) => RTC_SLOW_CLK_FREQ_150K
    case Some(CkXtal32k) => RTC_SLOW_CLK_FREQ_32K
    case Some(Ck8mD256Out) => RTC_SLOW_CLK_FREQ_8MD256
    case None => 0
  }

  /** The voltage `set_cpu_freq_to_xtal` selects: 1.00 V below 2 MHz, else 1.10 V. */
  function XtalBias(frequency: u32): (r: CoreBias)
    ensures r == Bias1V00 <==> frequency < 2_000_000
    ensures r != Bias1V00 ==> r == Bias1V10
  {
    if frequency < 2_000_000 then DIG_DBIAS_2M else DIG_DBIAS_XTAL
  }

  /** `APB_CTRL_PRE_DIV_CNT` is the 10-bit field in bits 0 to 9 of `sysclk_conf`. */
  const PRE_DIV_CNT_LIMIT: nat := 0x400

  /** The field value a write of `div - 1` leaves: the field keeps the low ten bits. */
  function PreDivField(div: u16): (r: u16)
    requires div >= 1
    ensures r < PRE_DIV_CNT_LIMIT && (r + 1 - div) % PRE_DIV_CNT_LIMIT == 0
    ensures div <= PRE_DIV_CNT_LIMIT <==> r == div - 1
  {
    (div - 1) % PRE_DIV_CNT_LIMIT
  }

  /** The registers `ClockControl` reads and writes. `cpuPeriodSel` is DPORT's
      `cpu_per_conf` selector; `anaClkRtcSel` is None for the reserved selector value. */
  class Controller {
    var socClkSel: RtcClk.SocClkSel
    var preDivCnt: u16
    var xtalTickConf: u32
    var digDbiasWak: CoreBias
    /** `store4`: the crystal frequency word. */
    var store4: u32
    /** `store5`: the APB frequency word. */
    var store5: u32
    var cpuPeriodSel: RtcClk.CpuPeriodSel
    var anaClkRtcSel: Option<SlowClockSource>

    /** `ClockControl::new` with `init`: a CPU running from the PLL is switched to the
        40 MHz crystal, undivided. */
    constructor(socClkSel: RtcClk.SocClkSel, preDivCnt: u16, xtalTickConf: u32, digDbiasWak: CoreBias,
                store4: u32, store5: u32, cpuPeriodSel: RtcClk.CpuPeriodSel, anaClkRtcSel: Option<SlowClockSource>)
      ensures socClkSel != RtcClk.SocPll ==>
        this.socClkSel == socClkSel && this.preDivCnt == preDivCnt && this.xtalTickConf == xtalTickConf
        && this.digDbiasWak == digDbiasWak
      ensures socClkSel == RtcClk.SocPll ==>
        this.socClkSel == RtcClk.SocXtal && this.preDivCnt == 0 && this.xtalTickConf == 39
        && this.digDbiasWak == Bias1V10
      ensures this.store4 == store4 && this.store5 == store5 && this.cpuPeriodSel == cpuPeriodSel
      ensures this.anaClkRtcSel == anaClkRtcSel
    {
      this.socClkSel := socClkSel;
      this.preDivCnt := preDivCnt;
      this.xtalTickConf := xtalTickConf;
      this.digDbiasWak := digDbiasWak;
      this.store4 := store4;
      this.store5 := store5;
      this.cpuPeriodSel := cpuPeriodSel;
      this.anaClkRtcSel := anaClkRtcSel;
      new;
      if socClkSel == RtcClk.SocPll {
        SetCpuFreqToXtal(40_000_000, 1);
      }
    }

    /** `set_cpu_freq_to_xtal`: divider `div - 1` into the 10-bit field, reference tick
        `frequency / 1 MHz - 1` (wrapping in u32 below 1 MHz), the crystal selected and the
        voltage for the frequency. The configuration then read back is the crystal divided
        by `div` when `div` fits the field, and by `div` reduced to ten bits otherwise. */
    method SetCpuFreqToXtal(frequency: u32, div: u16)
      requires div >= 1
      modifies this`preDivCnt, this`xtalTickConf, this`socClkSel, this`digDbiasWak
      ensures preDivCnt == PreDivField(div) && socClkSel == RtcClk.SocXtal && digDbiasWak == XtalBias(frequency)
      ensures xtalTickConf == Wrap32(frequency / REF_CLK_FREQ_1M - 1)
      ensures (var source := XtalHz(store4);
        DivLe(source, PreDivField(div) + 1);
        CpuFrequencyConfig(socClkSel, preDivCnt, cpuPeriodSel, store4)
          == Ok(CpuFreqConfig(RtcClk.Xtal, source, PreDivField(div) + 1, source / (PreDivField(div) + 1))))
      ensures (var source := XtalHz(store4);
        DivLe(source, div);
        div <= PRE_DIV_CNT_LIMIT ==>
          CpuFrequencyConfig(socClkSel, preDivCnt, cpuPeriodSel, store4)
            == Ok(CpuFreqConfig(RtcClk.Xtal, source, div, source / div)))
    {
      preDivCnt := PreDivField(div);
      xtalTickConf := Wrap32(frequency / REF_CLK_FREQ_1M - 1);
      socClkSel := RtcClk.SocXtal;
      digDbiasWak := XtalBias(frequency);
    }

    /** `set_apb_frequency`: the word `ApbWord(x)` into `store5`, where `x` is the number
        the argument converts to (its type asks for `MicroSeconds`); a whole number of MHz
        below 134 MHz then reads back from `apb_frequency`. */
    method SetApbFrequency(x: u32)
      modifies this`store5
      ensures store5 == ApbWord(x)
      ensures x % 1_000_000 == 0 && 1_000_000 <= x < 0x8000 * 4096 ==> ApbFrequency(store5) == x
    {
      store5 := ApbWord(x);
      if x % 1_000_000 == 0 && 1_000_000 <= x < 0x8000 * 4096 {
        ApbRoundTrip(x);
      }
    }

    /** `set_slow_source`: only the selector changes; `slow_frequency` then reports the
        source's frequency. */
    method SetSlowSource(source: SlowClockSource)
      modifies this`anaClkRtcSel
      ensures anaClkRtcSel == Some(source) && SlowFrequency(anaClkRtcSel) > 0
    {
      anaClkRtcSel := Some(source);
    }
  }
}
