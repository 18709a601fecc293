/** The watchdog of a timer group, src/timer/watchdog.rs: periods in nanoseconds turned
    into ticks of the prescaled APB clock and back, the configuration read back from the
    registers, and the protected register sequences of `set_config`, `start`, `disable` and
    `feed`. Every register write is appended to a log. The APB frequency comes from the
    clock configuration. */
module TimerWatchdog {
  import opened Bits
  import opened Units

  const WATCHDOG_UNBLOCK_KEY: u32 := 0x50D8_3AA1
  const WATCHDOG_BLOCK_VALUE: u32 := 0x89AB_CDEF

  /** The stage actions; the 2-bit `wdt_stgN` fields of `TIMGn_Tx_WDTCONFIG0_REG` number
      them 0 to 3 in the ESP32 Technical Reference Manual, so every value is an action. */
  datatype Action = Off | Interrupt | ResetCpu | ResetSystem

  /** A reset-signal length, a 3-bit field every value of which is named. */
  type ResetDuration = d: nat | d < 8

  /** The fields of `wdtconfig0` the driver touches. */
  datatype Config0 = Config0(
    stg0: Action, stg1: Action, stg2: Action, stg3: Action,
    en: bool, edgeIntEn: bool, levelIntEn: bool, flashbootModEn: bool,
    cpuResetLength: ResetDuration, sysResetLength: ResetDuration)

  /** `WatchdogConfig`: four periods in nanoseconds (`NanoSecondsU64`), each with the
      action at its end, the reset lengths and the clock prescaler. */
  datatype WatchdogConfig = WatchdogConfig(
    period1: u64, action1: Action, period2: u64, action2: Action,
    period3: u64, action3: Action, period4: u64, action4: Action,
    cpuResetDuration: ResetDuration, sysResetDuration: ResetDuration,
    divider: u16)

  datatype Write =
    | ProtectWrite(value: u32)
    | FeedWrite
    | PrescaleWrite(divider: u16)
    | Config0Write(conf: Config0)
    | HoldWrite(stage: nat, ticks: u32)
    | InterruptEnableWrite
    | InterruptClearWrite

  /** The writes of `access_registers` around those of its closure. */
  function Protected(writes: seq<Write>): seq<Write>
  {
    [ProtectWrite(WATCHDOG_UNBLOCK_KEY)] + writes + [ProtectWrite(WATCHDOG_BLOCK_VALUE)]
  }

  /** The prescaled clock, `apb_frequency() / divider` in Hertz (a zero divider panics). */
  function TickFrequency(apb: u32, divider: u16): (r: Quantity)
    requires divider > 0
    ensures Valid(r) && r.unit == Hertz && r.width == U32
    ensures r.value * divider <= apb < (r.value + 1) * divider
  {
    DivPrimitive(Quantity(Hertz, U32, apb), divider)
  }

  /** `calc_ticks_with_divider`: `(apb / divider) * period`, a `TicksU64` computed in u64,
      then narrowed to `Ticks`; None where the narrowing fails, where the source's `unwrap`
      panics. */
  function CalcTicksWithDivider(apb: u32, divider: u16, period: u64): (r: Option<u32>)
    requires divider > 0
    ensures var t := (TickFrequency(apb, divider).value * period % U64_LIMIT) / 1_000_000_000;
      r == (if t < U32_LIMIT then Some(t) else None)
  {
    assert MulParams(NanoSeconds, Hertz) == (1, 1_000_000_000);
    match Narrow(FreqTimesTime(TickFrequency(apb, divider), Quantity(NanoSeconds, U64, period)))
    case Some(q) => Some(q.value)
    case None => None
  }

  /** `calc_period`: ticks at the prescaled clock to nanoseconds. The division is the
      corrected `Ticks / Hertz` (see Units.TicksDivFreq); the prescaled clock must be
      running, or the division by zero panics. */
  function CalcPeriod(apb: u32, divider: u16, ticks: u32): (r: u64)
    requires divider > 0 && apb >= divider
    ensures var f := TickFrequency(apb, divider).value;
      f > 0 && r * f <= ticks * 1_000_000_000 < (r + 1) * f
  {
    var f := TickFrequency(apb, divider);
    MulMonotone(ticks, U32_LIMIT, 1_000_000_000);
    TicksDivFreq(Quantity(Ticks, U64, ticks), f).value
  }

  /** `calc_period` as written, with the division of the `divide!` macro that divides by
      the frequency before scaling. */
  function CalcPeriodAsWritten(apb: u32, divider: u16, ticks: u32): (r: u64)
    requires divider > 0 && apb >= divider
    ensures r * TickFrequency(apb, divider).value * 1_000_000_000 <= ticks
    ensures r < 5
  {
    var f := TickFrequency(apb, divider);
    assert f.value >= 1;
    var q := TicksDivFreqAsWritten(Quantity(Ticks, U64, ticks), f).value;
    if q > 0 then
      MulAtLeast(f.value, q);
      q
    else q
  }

  /** At 80 MHz undivided, one second of ticks reads back as 0 ns as written, and as
      10^9 ns with the corrected division. */
  lemma CalcPeriodAsWrittenExample()
    ensures CalcPeriodAsWritten(80_000_000, 1, 80_000_000) == 0
    ensures CalcPeriod(80_000_000, 1, 80_000_000) == 1_000_000_000
  {
    DivUnique(80_000_000, 1, 80_000_000, 0);
    DivUnique(80_000_000 * 1_000_000_000, 80_000_000, 1_000_000_000, 0);
  }

  /** The ticks of a period, when the u64 product does not wrap: the floor of
      `f * period / 10^9`. */
  lemma TicksValue(apb: u32, divider: u16, period: u64)
    requires divider > 0
    requires TickFrequency(apb, divider).value * period < U64_LIMIT
    ensures var t := TickFrequency(apb, divider).value * period / 1_000_000_000;
      CalcTicksWithDivider(apb, divider, period) == (if t < U32_LIMIT then Some(t) else None)
  {
    var f := TickFrequency(apb, divider).value;
    MulMonotone(0, f, period);
    assert MulParams(NanoSeconds, Hertz) == (1, 1_000_000_000);
    assert Wrap64(f * period) == f * period;
    assert Wrap64(Wrap64(f * period) * 1) == f * period;
  }

  /** Both conversions round down: a period that fits turned into ticks and back never
      grows, and ticks turned into a period and back give at most the ticks started from. */
  lemma ConversionsRoundDown(apb: u32, divider: u16, period: u64, ticks: u32)
    requires divider > 0 && apb >= divider
    ensures TickFrequency(apb, divider).value * period < U64_LIMIT
      && CalcTicksWithDivider(apb, divider, period).Some?
      ==> CalcPeriod(apb, divider, CalcTicksWithDivider(apb, divider, period).value) <= period
    ensures CalcTicksWithDivider(apb, divider, CalcPeriod(apb, divider, ticks)).Some?
    ensures CalcTicksWithDivider(apb, divider, CalcPeriod(apb, divider, ticks)).value <= ticks
  {
    if TickFrequency(apb, divider).value * period < U64_LIMIT && CalcTicksWithDivider(apb, divider, period).Some? {
      PeriodRoundTrip(apb, divider, period);
    }
    TicksRoundTrip(apb, divider, ticks);
  }

  lemma PeriodRoundTrip(apb: u32, divider: u16, period: u64)
    requires divider > 0 && apb >= divider
    requires TickFrequency(apb, divider).value * period < U64_LIMIT
    requires CalcTicksWithDivider(apb, divider, period).Some?
    ensures CalcPeriod(apb, divider, CalcTicksWithDivider(apb, divider, period).value) <= period
  {
    var f := TickFrequency(apb, divider).value;
    TicksValue(apb, divider, period);
    var t := CalcTicksWithDivider(apb, divider, period).value;
    assert t == f * period / 1_000_000_000;
    ScaleRoundTrip(period, f, 1_000_000_000);
    assert period * f == f * period;
    assert CalcPeriod(apb, divider, t) == t * 1_000_000_000 / f;
  }

  lemma TicksRoundTrip(apb: u32, divider: u16, ticks: u32)
    requires divider > 0 && apb >= divider
    ensures CalcTicksWithDivider(apb, divider, CalcPeriod(apb, divider, ticks)).Some?
    ensures CalcTicksWithDivider(apb, divider, CalcPeriod(apb, divider, ticks)).value <= ticks
  {
    var f := TickFrequency(apb, divider).value;
    var p := CalcPeriod(apb, divider, ticks);
    assert p == ticks * 1_000_000_000 / f;
    DivTimesLe(ticks * 1_000_000_000, f);
    assert f * p <= ticks * 1_000_000_000;
    MulMonotone(ticks, U32_LIMIT, 1_000_000_000);
    TicksValue(apb, divider, p);
    ScaleRoundTrip(ticks, 1_000_000_000, f);
    assert p * f == f * p;
  }

  /** The watchdog registers of one timer group. */
  class Watchdog {
    /** `apb_frequency` of the clock configuration. */
    const apbFrequency: u32
    var wprotect: u32
    var config0: Config0
    /** `wdt_clk_prescale` of `wdtconfig1`. */
    var prescale: u16
    /** `wdtconfig2` to `wdtconfig5`: the hold time of each stage, in ticks. */
    var hold1: u32
    var hold2: u32
    var hold3: u32
    var hold4: u32
    /** `wdt_int_ena` of `int_ena_timers`. */
    var interruptEnabled: bool
    var log: seq<Write>

    constructor(apbFrequency: u32, wprotect: u32, config0: Config0, prescale: u16,
                hold1: u32, hold2: u32, hold3: u32, hold4: u32, interruptEnabled: bool)
      ensures this.apbFrequency == apbFrequency && this.wprotect == wprotect
      ensures this.config0 == config0 && this.prescale == prescale
      ensures this.hold1 == hold1 && this.hold2 == hold2 && this.hold3 == hold3 && this.hold4 == hold4
      ensures this.interruptEnabled == interruptEnabled && log == []
    {
      this.apbFrequency := apbFrequency;
      this.wprotect := wprotect;
      this.config0 := config0;
      this.prescale := prescale;
      this.hold1, this.hold2, this.hold3, this.hold4 := hold1, hold2, hold3, hold4;
      this.interruptEnabled := interruptEnabled;
      log := [];
    }

    /** `config`, on a prescaled clock that is running: every stage field names an
        action, so the configuration is always read back. */
    function Config(): (r: Result<WatchdogConfig, ()>)
      requires prescale > 0 && apbFrequency >= prescale
      reads this
      ensures r.Ok? && r.value.divider == prescale
      ensures r.Ok? ==> r.value.action1 == config0.stg0 && r.value.action2 == config0.stg1
                        && r.value.action3 == config0.stg2 && r.value.action4 == config0.stg3
      ensures r.Ok? ==> r.value.cpuResetDuration == config0.cpuResetLength
                        && r.value.sysResetDuration == config0.sysResetLength
      ensures var f := TickFrequency(apbFrequency, prescale).value;
        r.Ok? ==> r.value.period1 * f <= hold1 * 1_000_000_000 < (r.value.period1 + 1) * f
                  && r.value.period2 * f <= hold2 * 1_000_000_000 < (r.value.period2 + 1) * f
                  && r.value.period3 * f <= hold3 * 1_000_000_000 < (r.value.period3 + 1) * f
                  && r.value.period4 * f <= hold4 * 1_000_000_000 < (r.value.period4 + 1) * f
    {
      var c := config0;
      Ok(WatchdogConfig(
        CalcPeriod(apbFrequency, prescale, hold1), c.stg0,
        CalcPeriod(apbFrequency, prescale, hold2), c.stg1,
        CalcPeriod(apbFrequency, prescale, hold3), c.stg2,
        CalcPeriod(apbFrequency, prescale, hold4), c.stg3,
        c.cpuResetLength, c.sysResetLength, prescale))
    }

    /** `set_config`: unlocked, the prescaler; the four periods in ticks at the new
        prescaler (whose conversions must not panic); a feed; the stage actions with the
        watchdog and both interrupt kinds enabled, flash-boot mode off and the reset
        lengths; the four hold times; and the watchdog interrupt enabled. Reading the
        configuration back gives the actions, lengths and divider written, and periods no
        longer than those asked for where their tick products did not wrap. */
    method SetConfig(config: WatchdogConfig) returns (r: Result<(), ()>)
      requires config.divider > 0
      requires CalcTicksWithDivider(apbFrequency, config.divider, config.period1).Some?
      requires CalcTicksWithDivider(apbFrequency, config.divider, config.period2).Some?
      requires CalcTicksWithDivider(apbFrequency, config.divider, config.period3).Some?
      requires CalcTicksWithDivider(apbFrequency, config.divider, config.period4).Some?
      modifies this`wprotect, this`config0, this`prescale, this`hold1, this`hold2, this`hold3,
               this`hold4, this`interruptEnabled, this`log
      ensures r.Ok?
      ensures var per1 := CalcTicksWithDivider(apbFrequency, config.divider, config.period1).value;
        var per2 := CalcTicksWithDivider(apbFrequency, config.divider, config.period2).value;
        var per3 := CalcTicksWithDivider(apbFrequency, config.divider, config.period3).value;
        var per4 := CalcTicksWithDivider(apbFrequency, config.divider, config.period4).value;
        && prescale == config.divider
        && hold1 == per1 && hold2 == per2 && hold3 == per3 && hold4 == per4
        && config0 == Config0(config.action1, config.action2, config.action3, config.action4,
                              true, true, true, false, config.cpuResetDuration, config.sysResetDuration)
        && interruptEnabled && wprotect == WATCHDOG_BLOCK_VALUE
        && log == old(log) + Protected([PrescaleWrite(config.divider), FeedWrite, Config0Write(config0),
                                        HoldWrite(1, per1), HoldWrite(2, per2), HoldWrite(3, per3),
                                        HoldWrite(4, per4), InterruptEnableWrite])
      ensures apbFrequency >= prescale ==> var c := Config().value;
        && c.action1 == config.action1 && c.action2 == config.action2
        && c.action3 == config.action3 && c.action4 == config.action4
        && c.cpuResetDuration == config.cpuResetDuration && c.sysResetDuration == config.sysResetDuration
        && c.divider == config.divider
      ensures apbFrequency >= prescale ==> var c := Config().value; var f := TickFrequency(apbFrequency, prescale).value;
        && (f * config.period1 < U64_LIMIT ==> c.period1 <= config.period1)
        && (f * config.period2 < U64_LIMIT ==> c.period2 <= config.period2)
        && (f * config.period3 < U64_LIMIT ==> c.period3 <= config.period3)
        && (f * config.period4 < U64_LIMIT ==> c.period4 <= config.period4)
    {
      wprotect := WATCHDOG_UNBLOCK_KEY;
      prescale := config.divider;
      var per1 := CalcTicksWithDivider(apbFrequency, prescale, config.period1).value;
      var per2 := CalcTicksWithDivider(apbFrequency, prescale, config.period2).value;
      var per3 := CalcTicksWithDivider(apbFrequency, prescale, config.period3).value;
      var per4 := CalcTicksWithDivider(apbFrequency, prescale, config.period4).value;
      config0 := Config0(config.action1, config.action2, config.action3, config.action4,
                         true, true, true, false, config.cpuResetDuration, config.sysResetDuration);
      hold1, hold2, hold3, hold4 := per1, per2, per3, per4;
      interruptEnabled := true;
      wprotect := WATCHDOG_BLOCK_VALUE;
      log := log + Protected([PrescaleWrite(config.divider), FeedWrite, Config0Write(config0),
                              HoldWrite(1, per1), HoldWrite(2, per2), HoldWrite(3, per3),
                              HoldWrite(4, per4), InterruptEnableWrite]);
      if apbFrequency >= prescale {
        ConversionsRoundDown(apbFrequency, prescale, config.period1, 0);
        ConversionsRoundDown(apbFrequency, prescale, config.period2, 0);
        ConversionsRoundDown(apbFrequency, prescale, config.period3, 0);
        ConversionsRoundDown(apbFrequency, prescale, config.period4, 0);
      }
      r := Ok(());
    }

    /** `clear_interrupt`: the watchdog's bit of `int_clr_timers`, without unlocking. */
    method ClearInterrupt()
      modifies this`log
      ensures log == old(log) + [InterruptClearWrite]
    {
      log := log + [InterruptClearWrite];
    }

    /** `start`: the period in ticks of the undivided clock (whose conversion must not
        panic); unlocked, a feed, prescaler 1, the ticks as stage 0's hold time, then stage
        0 resets the system, the watchdog is enabled and flash-boot mode off; the other
        stages and settings are kept. */
    method Start(period: u64)
      requires CalcTicksWithDivider(apbFrequency, 1, period).Some?
      modifies this`wprotect, this`config0, this`prescale, this`hold1, this`log
      ensures var ticks := CalcTicksWithDivider(apbFrequency, 1, period).value;
        && prescale == 1 && hold1 == ticks
        && config0 == old(config0).(flashbootModEn := false, en := true, stg0 := ResetSystem)
        && wprotect == WATCHDOG_BLOCK_VALUE
        && log == old(log) + Protected([FeedWrite, PrescaleWrite(1), HoldWrite(1, ticks), Config0Write(config0)])
    {
      var ticks := CalcTicksWithDivider(apbFrequency, 1, period).value;
      wprotect := WATCHDOG_UNBLOCK_KEY;
      prescale := 1;
      hold1 := ticks;
      config0 := config0.(flashbootModEn := false, en := true, stg0 := ResetSystem);
      wprotect := WATCHDOG_BLOCK_VALUE;
      log := log + Protected([FeedWrite, PrescaleWrite(1), HoldWrite(1, ticks), Config0Write(config0)]);
    }

    /** `disable`: unlocked, a feed, then the watchdog and flash-boot mode switched off. */
    method Disable()
      modifies this`wprotect, this`config0, this`log
      ensures config0 == old(config0).(flashbootModEn := false, en := false)
      ensures wprotect == WATCHDOG_BLOCK_VALUE
      ensures log == old(log) + Protected([FeedWrite, Config0Write(config0)])
    {
      wprotect := WATCHDOG_UNBLOCK_KEY;
      config0 := config0.(flashbootModEn := false, en := false);
      wprotect := WATCHDOG_BLOCK_VALUE;
      log := log + Protected([FeedWrite, Config0Write(config0)]);
    }

    /** `feed`: unlocked, a feed. */
    method Feed()
      modifies this`wprotect, this`log
      ensures wprotect == WATCHDOG_BLOCK_VALUE
      ensures log == old(log) + Protected([FeedWrite])
    {
      wprotect := WATCHDOG_UNBLOCK_KEY;
      wprotect := WATCHDOG_BLOCK_VALUE;
      log := log + Protected([FeedWrite]);
    }
  }
}
