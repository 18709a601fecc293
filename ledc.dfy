/** The LEDC PWM timers of src/ledc/timer.rs: the timer's source frequency, the clock
    divisor `configure` derives from the requested frequency and duty resolution, and the
    timer configuration register it writes. The reference and APB frequencies come from
    the clock configuration and are parameters here. */
module Ledc {
  import opened Bits

  datatype Error = Divisor

  datatype Speed = LowSpeed | HighSpeed

  /** The clock sources; a low-speed timer takes RefTick or SlowClk, a high-speed timer
      RefTick or APBClk. */
  datatype ClockSource = RefTick | SlowClk | APBClk

  predicate SourceOf(speed: Speed, cs: ClockSource)
  {
    match speed
    case LowSpeed => cs == RefTick || cs == SlowClk
    case HighSpeed => cs == RefTick || cs == APBClk
  }

  datatype Number = Timer0 | Timer1 | Timer2 | Timer3

  /** The duty resolution, in bits. */
  type Duty = d: nat | 1 <= d <= 20 witness 1

  /** The slow clock when the LEDC block does not select the APB clock. */
  const SLOW_CLK_FREQ: u32 := 8_000_000

  /** The bound `configure` checks the divisor against: 20 bits. */
  const DIVISOR_LIMIT_AS_WRITTEN: nat := 0x10_0000

  /** The timer's `div_num` field has 18 bits (10 integer, 8 fractional), so the largest
      divisor it holds is `0x3_ffff`. */
  const DIV_NUM_LIMIT: nat := 0x4_0000

  /** What the register keeps of a divisor written to `div_num`: its low 18 bits. */
  function DivNumField(divisor: nat): (r: nat)
    ensures r < DIV_NUM_LIMIT && (divisor - r) % DIV_NUM_LIMIT == 0
    ensures r == divisor <==> divisor < DIV_NUM_LIMIT
  {
    divisor % DIV_NUM_LIMIT
  }

  /** The clock configuration's reference and APB frequencies. */
  datatype Clocks = Clocks(refFrequency: u32, apbFrequency: u32)

  /** `get_slow_clock_freq`: 8 MHz while `apb_clk_sel` is clear, else the APB clock. */
  function SlowClockFrequency(apbClkSel: bool, clocks: Clocks): (r: u32)
    ensures !apbClkSel ==> r == SLOW_CLK_FREQ
    ensures apbClkSel ==> r == clocks.apbFrequency
  {
    if !apbClkSel then SLOW_CLK_FREQ else clocks.apbFrequency
  }

  /** `get_freq_hw` of both speeds: None before a clock source is chosen; the reference
      clock for RefTick; the slow clock (low speed) or the APB clock (high speed) for the
      other source. */
  function SourceFrequency(speed: Speed, cs: Option<ClockSource>, apbClkSel: bool, clocks: Clocks): (r: Option<u32>)
    requires cs.Some? ==> SourceOf(speed, cs.value)
    ensures r.None? <==> cs.None?
    ensures cs == Some(RefTick) ==> r == Some(clocks.refFrequency)
    ensures cs == Some(SlowClk) ==> r == Some(SlowClockFrequency(apbClkSel, clocks))
    ensures cs == Some(APBClk) ==> r == Some(clocks.apbFrequency)
  {
    match cs
    case None => None
    case Some(RefTick) => Some(clocks.refFrequency)
    case Some(SlowClk) => Some(SlowClockFrequency(apbClkSel, clocks))
    case Some(APBClk) => Some(clocks.apbFrequency)
  }

  /** `frequency * 2^duty`: the counter clock the divisor must produce, times 256. */
  function Scaled(frequency: u32, duty: Duty): (d: int)
    requires frequency > 0
    ensures d >= 1
  {
    MulAtLeast(Pow2(duty), frequency);
    frequency * Pow2(duty)
  }

  /** The divisor of `configure`: the source frequency, in units of 1/256, over
      `frequency * 2^duty`, rounded to the nearest integer (halves upward). */
  function DivisorFor(src: u32, frequency: u32, duty: Duty): (r: nat)
    requires frequency > 0
    ensures var d := Scaled(frequency, duty);
      && r * d - src * 256 <= d / 2
      && src * 256 - r * d < d - d / 2
  {
    var d := Scaled(frequency, duty);
    RoundedQuotient(src * 256, d);
    (src * 256 + d / 2) / d
  }

  /** Division with the half divisor added rounds to nearest. */
  lemma RoundedQuotient(a: nat, d: int)
    requires d > 0
    ensures var q := (a + d / 2) / d;
      q >= 0 && q * d - a <= d / 2 && a - q * d < d - d / 2
  {
    DivFloor(a + d / 2, d);
  }

  /** The divisor is zero exactly when `frequency * 2^duty` exceeds 512 times the source
      frequency (rounded), so `configure` rejects requests the timer cannot slow down to. */
  lemma DivisorZero(src: u32, frequency: u32, duty: Duty)
    requires frequency > 0
    ensures DivisorFor(src, frequency, duty) == 0 <==> src * 256 < Scaled(frequency, duty) - Scaled(frequency, duty) / 2
  {
    var d := Scaled(frequency, duty);
    var r := DivisorFor(src, frequency, duty);
    if r > 0 {
      MulAtLeast(r, d);
    }
  }

  /** The divisor is the closest the timer can produce: no other divisor is nearer. */
  lemma DivisorNearest(src: u32, frequency: u32, duty: Duty, q: int)
    requires frequency > 0
    ensures var d := Scaled(frequency, duty);
      Dist(DivisorFor(src, frequency, duty) * d, src * 256) <= Dist(q * d, src * 256)
  {
    var d := Scaled(frequency, duty);
    var r := DivisorFor(src, frequency, duty);
    Nearest(src * 256, d, r, q);
  }

  lemma Nearest(a: int, d: int, r: int, q: int)
    requires d > 0 && r * d - a <= d / 2 && a - r * d < d - d / 2
    ensures Dist(r * d, a) <= Dist(q * d, a)
  {
    if q < r {
      MulMonotone(q, r - 1, d);
      assert (r - 1) * d == r * d - d;
    } else if q > r {
      MulMonotone(r + 1, q, d);
      assert (r + 1) * d == r * d + d;
    }
  }

  function Dist(a: int, b: int): nat
  {
    if a >= b then a - b else b - a
  }

  /** Whether `configure` as written accepts a divisor: nonzero and below 20 bits. */
  predicate DivisorValidAsWritten(divisor: nat)
  {
    0 < divisor < DIVISOR_LIMIT_AS_WRITTEN
  }

  /** Whether a divisor can be configured: nonzero and within the 18-bit field. */
  predicate DivisorValid(divisor: nat)
  {
    0 < divisor < DIV_NUM_LIMIT
  }

  /** Every divisor the corrected bound accepts is stored unchanged. */
  lemma DivisorStored(divisor: nat)
    requires DivisorValid(divisor)
    ensures DivNumField(divisor) == divisor && DivisorValidAsWritten(divisor)
  {
  }

  /** As written, 50 Hz with a 10-bit duty from the 80 MHz APB clock gives the divisor
      400000, which the 20-bit bound accepts and the 18-bit field stores as 137856: the
      timer then runs almost three times too fast. */
  lemma DivisorAsWrittenTruncated()
    ensures DivisorFor(80_000_000, 50, 10) == 400_000
    ensures DivisorValidAsWritten(400_000) && !DivisorValid(400_000)
    ensures DivNumField(400_000) == 137_856
  {
    assert Pow2(10) == 1024 by {
      assert Pow2(2) == 4;
      assert Pow2(5) == 32;
    }
    assert Scaled(50, 10) == 51_200;
  }

  /** The tick-select bit `configure_hw` writes: set for the non-reference source, the
      slow clock of a low-speed timer or the APB clock of a high-speed timer. */
  function TickSelect(cs: ClockSource): (r: bool)
    ensures r <==> cs != RefTick
  {
    cs == SlowClk || cs == APBClk
  }

  /** The fields of a timer's configuration register. */
  datatype TimerConf = TimerConf(tickSel: bool, rst: bool, pause: bool, divNum: nat, lim: nat, paraUp: bool)

  class Timer {
    const speed: Speed
    const number: Number
    const clocks: Clocks
    /** The LEDC block's `apb_clk_sel` bit. */
    var apbClkSel: bool
    var duty: Option<Duty>
    var configured: bool
    var clockSource: Option<ClockSource>
    /** The configuration register of this timer. */
    var conf: TimerConf

    predicate Valid()
      reads this
    {
      clockSource.Some? ==> SourceOf(speed, clockSource.value)
    }

    /** `new`: no duty, no clock source and not configured. */
    constructor(speed: Speed, number: Number, clocks: Clocks, apbClkSel: bool, conf: TimerConf)
      ensures Valid()
      ensures this.speed == speed && this.number == number && this.clocks == clocks
      ensures this.apbClkSel == apbClkSel && this.conf == conf
      ensures duty.None? && clockSource.None? && !configured
    {
      this.speed := speed;
      this.number := number;
      this.clocks := clocks;
      this.apbClkSel := apbClkSel;
      this.conf := conf;
      duty := None;
      configured := false;
      clockSource := None;
    }

    /** `get_freq`: the frequency of the chosen source. */
    function GetFreq(): (r: Option<u32>)
      requires Valid()
      reads this
      ensures r.None? <==> clockSource.None?
    {
      SourceFrequency(speed, clockSource, apbClkSel, clocks)
    }

    /** `configure`: the duty and the source are stored first; the divisor follows from
        the source frequency; an invalid divisor is `Error::Divisor` with the register and
        the configured flag untouched; otherwise the register gets the source selection,
        the divisor and the duty (and, for a low-speed timer, the update bit), out of reset
        and unpaused, and the timer counts as configured. */
    method Configure(duty: Duty, cs: ClockSource, frequency: u32) returns (r: Result<(), Error>)
      requires SourceOf(speed, cs)
      requires frequency > 0
      modifies this
      ensures Valid()
      ensures this.duty == Some(duty) && clockSource == Some(cs)
      ensures var divisor := DivisorFor(SourceFrequency(speed, Some(cs), apbClkSel, clocks).value, frequency, duty);
        && (r.Err? <==> !DivisorValid(divisor))
        && (r.Err? ==> configured == old(configured) && conf == old(conf))
        && (r.Ok? ==> configured && conf == TimerConf(TickSelect(cs), false, false, divisor, duty,
                                                      speed == LowSpeed || old(conf).paraUp))
      ensures apbClkSel == old(apbClkSel)
    {
      r := ConfigureWithLimit(duty, cs, frequency, DIV_NUM_LIMIT);
    }

    /** `configure` as written: the divisor is checked against 20 bits, so an accepted
        divisor of 18 bits or more reaches the register truncated to its low 18 bits. */
    method ConfigureAsWritten(duty: Duty, cs: ClockSource, frequency: u32) returns (r: Result<(), Error>)
      requires SourceOf(speed, cs)
      requires frequency > 0
      modifies this
      ensures Valid()
      ensures this.duty == Some(duty) && clockSource == Some(cs)
      ensures var divisor := DivisorFor(SourceFrequency(speed, Some(cs), apbClkSel, clocks).value, frequency, duty);
        && (r.Err? <==> !DivisorValidAsWritten(divisor))
        && (r.Err? ==> configured == old(configured) && conf == old(conf))
        && (r.Ok? ==> configured && conf == TimerConf(TickSelect(cs), false, false, DivNumField(divisor), duty,
                                                      speed == LowSpeed || old(conf).paraUp))
      ensures apbClkSel == old(apbClkSel)
    {
      r := ConfigureWithLimit(duty, cs, frequency, DIVISOR_LIMIT_AS_WRITTEN);
    }

    /** The steps of `configure`, with the divisor checked against `limit`. */
    method ConfigureWithLimit(duty: Duty, cs: ClockSource, frequency: u32, limit: nat) returns (r: Result<(), Error>)
      requires SourceOf(speed, cs)
      requires frequency > 0
      modifies this
      ensures Valid()
      ensures this.duty == Some(duty) && clockSource == Some(cs)
      ensures var divisor := DivisorFor(SourceFrequency(speed, Some(cs), apbClkSel, clocks).value, frequency, duty);
        && (r.Err? <==> !(0 < divisor < limit))
        && (r.Err? ==> configured == old(configured) && conf == old(conf))
        && (r.Ok? ==> configured && conf == TimerConf(TickSelect(cs), false, false, DivNumField(divisor), duty,
                                                      speed == LowSpeed || old(conf).paraUp))
      ensures apbClkSel == old(apbClkSel)
    {
      this.duty := Some(duty);
      clockSource := Some(cs);
      var src := GetFreq().value;
      var divisor := DivisorFor(src, frequency, duty);
      if divisor >= limit || divisor == 0 {
        return Err(Divisor);
      }
      ConfigureHw(divisor);
      UpdateHw();
      configured := true;
      r := Ok(());
    }

    /** `configure_hw`: source selection, reset and pause cleared, the divisor's low 18
        bits and the duty. Low-speed timer 0 stores them with `write`, which starts from
        the register's reset value and so clears its update bit; every other timer uses
        `modify` and keeps it. */
    method ConfigureHw(divisor: nat)
      requires duty.Some? && clockSource.Some?
      modifies this`conf
      ensures conf == TimerConf(TickSelect(clockSource.value), false, false, DivNumField(divisor), duty.value,
                                !(speed == LowSpeed && number == Timer0) && old(conf).paraUp)
    {
      var keep := !(speed == LowSpeed && number == Timer0) && conf.paraUp;
      conf := TimerConf(TickSelect(clockSource.value), false, false, DivNumField(divisor), duty.value, keep);
    }

    /** `update_hw`: a low-speed timer latches the new settings through its update bit; a
        high-speed timer has nothing to do. */
    method UpdateHw()
      modifies this`conf
      ensures conf == old(conf).(paraUp := speed == LowSpeed || old(conf).paraUp)
    {
      if speed == LowSpeed {
        conf := conf.(paraUp := true);
      }
    }
  }
}
